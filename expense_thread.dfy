/**
 * The two lists the expense page derives from its query data: the thread of comments and
 * activities, stably sorted by creation time (lodash `sortBy`), and the payout profiles the
 * edit form offers (the viewer, then every account the viewer administers).
 */
module ExpenseThread {
  import opened Wrappers
  import opened ExpenseData

  /** An entry of the thread: a comment or an activity. */
  datatype ThreadItem = CommentItem(comment: Comment) | ActivityItem(activity: Activity)
  {
    function CreatedAt(): int
    {
      match this
      case CommentItem(c) => c.createdAt
      case ActivityItem(a) => a.createdAt
    }
  }

  predicate SortedByCreatedAt(s: seq<ThreadItem>)
  {
    forall i, j | 0 <= i < j < |s| :: s[i].CreatedAt() <= s[j].CreatedAt()
  }

  /** The entries of `s` created at time `t`, in their order in `s`. */
  function CreatedAtTime(s: seq<ThreadItem>, t: int): (r: seq<ThreadItem>)
    ensures forall x | x in r :: x in s && x.CreatedAt() == t
  {
    if s == [] then []
    else (if s[0].CreatedAt() == t then [s[0]] else []) + CreatedAtTime(s[1..], t)
  }

  lemma {:induction false} CreatedAtTimeConcat(a: seq<ThreadItem>, b: seq<ThreadItem>, t: int)
    ensures CreatedAtTime(a + b, t) == CreatedAtTime(a, t) + CreatedAtTime(b, t)
  {
    if a == [] {
      assert a + b == b;
    } else {
      assert (a + b)[1..] == a[1..] + b;
      CreatedAtTimeConcat(a[1..], b, t);
    }
  }

  /** `x` inserted into `s` before the first entry created no earlier than `x`. */
  function Insert(x: ThreadItem, s: seq<ThreadItem>): (r: seq<ThreadItem>)
    ensures multiset(r) == multiset(s) + multiset{x}
  {
    if s == [] then [x]
    else if x.CreatedAt() <= s[0].CreatedAt() then [x] + s
    else
      assert s == [s[0]] + s[1..];
      [s[0]] + Insert(x, s[1..])
  }

  /** Inserting into a sorted thread keeps it sorted. */
  lemma {:induction false} InsertSorted(x: ThreadItem, s: seq<ThreadItem>)
    requires SortedByCreatedAt(s)
    ensures SortedByCreatedAt(Insert(x, s))
  {
    if s != [] {
      var r := Insert(x, s);
      if x.CreatedAt() <= s[0].CreatedAt() {
        forall i, j | 0 <= i < j < |r| ensures r[i].CreatedAt() <= r[j].CreatedAt() {
          assert r[j] == s[j - 1];
          if i > 0 {
            assert r[i] == s[i - 1];
          }
        }
      } else {
        var tail := s[1..];
        var rest := Insert(x, tail);
        InsertSorted(x, tail);
        assert r == [s[0]] + rest;
        forall k | 0 <= k < |rest| ensures s[0].CreatedAt() <= rest[k].CreatedAt() {
          assert rest[k] in multiset(rest);
          if rest[k] != x {
            assert rest[k] in multiset(tail);
            var m :| 0 <= m < |tail| && tail[m] == rest[k];
            assert tail[m] == s[m + 1];
          }
        }
        forall i, j | 0 <= i < j < |r| ensures r[i].CreatedAt() <= r[j].CreatedAt() {
          assert r[j] == rest[j - 1];
          if i > 0 {
            assert r[i] == rest[i - 1];
          }
        }
      }
    }
  }

  /**
   * Inserting `x` puts it before every entry created at the same time: among the entries
   * created at any one time, the result lists them as `[x] + s` does.
   */
  lemma {:induction false} InsertStable(x: ThreadItem, s: seq<ThreadItem>, t: int)
    ensures CreatedAtTime(Insert(x, s), t) == CreatedAtTime([x] + s, t)
  {
    if s != [] && x.CreatedAt() > s[0].CreatedAt() {
      var y, tail := s[0], s[1..];
      assert s == [y] + tail;
      assert Insert(x, s) == [y] + Insert(x, tail);
      CreatedAtTimeCons(y, Insert(x, tail), t);
      InsertStable(x, tail, t);
      CreatedAtTimeCons(x, tail, t);
      CreatedAtTimeCons(x, s, t);
      CreatedAtTimeCons(y, tail, t);
      // `y` and `x` are not created at the same time, so at most one of them is kept.
      assert Kept(y, t) == [] || Kept(x, t) == [];
      assert Kept(y, t) + (Kept(x, t) + CreatedAtTime(tail, t)) == Kept(x, t) + (Kept(y, t) + CreatedAtTime(tail, t));
    }
  }

  /** `[y]` if `y` was created at time `t`, else nothing. */
  function Kept(y: ThreadItem, t: int): seq<ThreadItem>
  {
    if y.CreatedAt() == t then [y] else []
  }

  lemma CreatedAtTimeCons(y: ThreadItem, rest: seq<ThreadItem>, t: int)
    ensures CreatedAtTime([y] + rest, t) == Kept(y, t) + CreatedAtTime(rest, t)
  {
    assert ([y] + rest)[1..] == rest;
  }

  /** lodash `sortBy(s, 'createdAt')`: a stable sort by creation time. */
  function SortByCreatedAt(s: seq<ThreadItem>): (r: seq<ThreadItem>)
    ensures SortedByCreatedAt(r)
    ensures multiset(r) == multiset(s)
  {
    if s == [] then []
    else
      assert s == [s[0]] + s[1..];
      InsertSorted(s[0], SortByCreatedAt(s[1..]));
      Insert(s[0], SortByCreatedAt(s[1..]))
  }

  /** The sort is stable: the entries created at any one time keep their input order. */
  lemma {:induction false} SortByCreatedAtStable(s: seq<ThreadItem>, t: int)
    ensures CreatedAtTime(SortByCreatedAt(s), t) == CreatedAtTime(s, t)
  {
    if s != [] {
      SortByCreatedAtStable(s[1..], t);
      InsertStable(s[0], SortByCreatedAt(s[1..]), t);
      CreatedAtTimeConcat([s[0]], SortByCreatedAt(s[1..]), t);
      CreatedAtTimeConcat([s[0]], s[1..], t);
      assert s == [s[0]] + s[1..];
    }
  }

  /** The comments, then the activities, as thread entries. */
  function Entries(comments: seq<Comment>, activities: seq<Activity>): (r: seq<ThreadItem>)
    ensures |r| == |comments| + |activities|
    ensures forall i | 0 <= i < |comments| :: r[i] == CommentItem(comments[i])
    ensures forall i | 0 <= i < |activities| :: r[|comments| + i] == ActivityItem(activities[i])
  {
    seq(|comments|, i requires 0 <= i < |comments| => CommentItem(comments[i]))
      + seq(|activities|, i requires 0 <= i < |activities| => ActivityItem(activities[i]))
  }

  /**
   * `getThreadItems`: every comment and every activity exactly once, ordered by creation time;
   * entries created at the same time keep the order comments-then-activities.
   */
  function GetThreadItems(comments: seq<Comment>, activities: seq<Activity>): (r: seq<ThreadItem>)
    ensures SortedByCreatedAt(r)
    ensures multiset(r) == multiset(Entries(comments, activities))
    ensures |r| == |comments| + |activities|
  {
    assert |multiset(SortByCreatedAt(Entries(comments, activities)))| == |comments| + |activities|;
    SortByCreatedAt(Entries(comments, activities))
  }

  /** Entries created at the same time appear in the thread in the order comments-then-activities. */
  lemma GetThreadItemsStable(comments: seq<Comment>, activities: seq<Activity>, t: int)
    ensures CreatedAtTime(GetThreadItems(comments, activities), t) == CreatedAtTime(Entries(comments, activities), t)
  {
    SortByCreatedAtStable(Entries(comments, activities), t);
  }

  /** The accounts the viewer administers; a missing membership list counts as empty. */
  function AccountsAdminOf(viewer: LoggedInAccount): (r: seq<Profile>)
    ensures viewer.adminMemberships.None? ==> r == []
    ensures viewer.adminMemberships.Some? ==>
      |r| == |viewer.adminMemberships.value|
      && forall i | 0 <= i < |r| :: r[i] == viewer.adminMemberships.value[i].account
  {
    match viewer.adminMemberships
    case None => []
    case Some(ms) => seq(|ms|, i requires 0 <= i < |ms| => ms[i].account)
  }

  /** `getPayoutProfiles`: nothing without a viewer; otherwise the viewer first, then the accounts the viewer administers. */
  function GetPayoutProfiles(viewer: Option<LoggedInAccount>): (r: seq<Profile>)
    ensures viewer.None? <==> r == []
    ensures viewer.Some? ==> r[0] == viewer.value.profile && r[1..] == AccountsAdminOf(viewer.value)
    ensures forall p | p in r :: viewer.Some? && (p == viewer.value.profile || p in AccountsAdminOf(viewer.value))
  {
    match viewer
    case None => []
    case Some(v) => [v.profile] + AccountsAdminOf(v)
  }
}
