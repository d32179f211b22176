/**
 * The comment patches the expense page applies to the cached page query: a new comment is
 * appended and the list de-duplicated by id (the first occurrence wins), a deleted comment is
 * filtered out by id. The patch works on a copy of the cached data (datatypes are values, so
 * the copy is implicit) and only the comment list of the copy changes.
 */
module ExpenseComments {
  import opened Wrappers
  import opened ExpenseData

  /** The ids of a comment list. */
  function Ids(s: seq<Comment>): set<string>
  {
    set i | 0 <= i < |s| :: s[i].id
  }

  /** No two comments of the list share an id. */
  predicate UniqueIds(s: seq<Comment>)
  {
    forall i, j | 0 <= i < j < |s| :: s[i].id != s[j].id
  }

  lemma IdsAppend(s: seq<Comment>, c: Comment)
    ensures Ids(s + [c]) == Ids(s) + {c.id}
  {
    var t := s + [c];
    assert forall i | 0 <= i < |s| :: t[i] == s[i];
    assert t[|s|] == c;
  }

  lemma IdsCons(c: Comment, s: seq<Comment>)
    ensures Ids([c] + s) == {c.id} + Ids(s)
  {
    var t := [c] + s;
    forall x | x in Ids(t) ensures x == c.id || x in Ids(s) {
      var i :| 0 <= i < |t| && t[i].id == x;
      if i > 0 {
        assert t[i] == s[i - 1];
      }
    }
    assert t[0] == c;
    forall i | 0 <= i < |s| ensures s[i].id in Ids(t) {
      assert t[i + 1] == s[i];
    }
  }

  /** A list headed by `h` is free of duplicate ids when its tail is and does not hold `h`'s id. */
  lemma UniqueCons(h: Comment, t: seq<Comment>)
    ensures UniqueIds([h] + t) <==> UniqueIds(t) && h.id !in Ids(t)
  {
    var r := [h] + t;
    assert forall i | 0 <= i < |t| :: r[i + 1] == t[i];
    if UniqueIds(r) {
      forall i | 0 <= i < |t| ensures t[i].id != h.id {
        assert r[0].id != r[i + 1].id;
      }
      forall i, j | 0 <= i < j < |t| ensures t[i].id != t[j].id {
        assert r[i + 1].id != r[j + 1].id;
      }
    }
    if UniqueIds(t) && h.id !in Ids(t) {
      forall i, j | 0 <= i < j < |r| ensures r[i].id != r[j].id {
        assert r[j] == t[j - 1];
        if i > 0 {
          assert r[i] == t[i - 1];
        }
      }
    }
  }

  lemma DropLast(s: seq<Comment>)
    requires s != []
    ensures s == s[..|s| - 1] + [s[|s| - 1]]
    ensures Ids(s) == Ids(s[..|s| - 1]) + {s[|s| - 1].id}
  {
    assert s == s[..|s| - 1] + [s[|s| - 1]];
    IdsAppend(s[..|s| - 1], s[|s| - 1]);
  }

  /** lodash `uniqBy(s, 'id')`: the list with every comment whose id occurred earlier removed. */
  function UniqById(s: seq<Comment>): (r: seq<Comment>)
    ensures UniqueIds(r)
    ensures Ids(r) == Ids(s)
    ensures |r| <= |s|
    decreases |s|
  {
    if s == [] then []
    else
      var p := UniqById(s[..|s| - 1]);
      var c := s[|s| - 1];
      DropLast(s);
      IdsAppend(p, c);
      if c.id in Ids(p) then p else p + [c]
  }

  /** De-duplicating a list that has no duplicates changes nothing. */
  lemma {:induction false} UniqByIdOfUnique(s: seq<Comment>)
    ensures UniqueIds(s) ==> UniqById(s) == s
    decreases |s|
  {
    if s != [] && UniqueIds(s) {
      var init := s[..|s| - 1];
      var c := s[|s| - 1];
      UniqByIdOfUnique(init);
      DropLast(s);
      forall i | 0 <= i < |init| ensures init[i].id != c.id {
        assert init[i] == s[i];
      }
    }
  }

  /**
   * lodash's own walk for `uniqBy`, front to back: a comment is kept when its id is not among
   * `seen`, the ids kept so far, and then joins them. Every comment kept comes from `s` with an
   * unseen id.
   */
  function FirstsFrom(s: seq<Comment>, seen: set<string>): (r: seq<Comment>)
    ensures forall x | x in r :: x in s && x.id !in seen
    ensures |r| <= |s|
    decreases |s|
  {
    if s == [] then []
    else if s[0].id in seen then FirstsFrom(s[1..], seen)
    else [s[0]] + FirstsFrom(s[1..], seen + {s[0].id})
  }

  /** Walking one more comment keeps it exactly when its id was neither seen nor met before. */
  lemma {:induction false} FirstsFromAppend(s: seq<Comment>, c: Comment, seen: set<string>)
    ensures FirstsFrom(s + [c], seen) == FirstsFrom(s, seen) + (if c.id in seen + Ids(s) then [] else [c])
    decreases |s|
  {
    if s == [] {
      assert [] + [c] == [c];
      assert Ids(s) == {};
    } else {
      var t := s + [c];
      assert t[0] == s[0] && t[1..] == s[1..] + [c];
      assert s == [s[0]] + s[1..];
      IdsCons(s[0], s[1..]);
      if s[0].id in seen {
        FirstsFromAppend(s[1..], c, seen);
      } else {
        FirstsFromAppend(s[1..], c, seen + {s[0].id});
      }
    }
  }

  /** The de-duplication built from the end is lodash's front-to-back walk from no id seen. */
  lemma {:induction false} UniqByIdIsFirstsFrom(s: seq<Comment>)
    ensures UniqById(s) == FirstsFrom(s, {})
    decreases |s|
  {
    if s != [] {
      var init := s[..|s| - 1];
      DropLast(s);
      UniqByIdIsFirstsFrom(init);
      FirstsFromAppend(init, s[|s| - 1], {});
    }
  }

  /** The list `onCommentAdded` writes back: `uniqBy([...comments, comment], 'id')`. */
  function AddComment(comments: seq<Comment>, c: Comment): (r: seq<Comment>)
    ensures UniqueIds(r)
    ensures Ids(r) == Ids(comments) + {c.id}
    ensures UniqueIds(comments) && c.id in Ids(comments) ==> r == comments
    ensures UniqueIds(comments) && c.id !in Ids(comments) ==> r == comments + [c]
  {
    var s := comments + [c];
    assert s[..|s| - 1] == comments;
    IdsAppend(comments, c);
    UniqByIdOfUnique(comments);
    UniqById(s)
  }

  /** Adding the same comment twice is the same as adding it once. */
  lemma AddCommentIdempotent(comments: seq<Comment>, c: Comment)
    ensures AddComment(AddComment(comments, c), c) == AddComment(comments, c)
  {
  }

  /** The list `onCommentDeleted` writes back: `comments.filter(c => c.id !== id)`. */
  function RemoveComment(comments: seq<Comment>, id: string): (r: seq<Comment>)
    ensures forall x :: x in r <==> x in comments && x.id != id
    ensures Ids(r) == Ids(comments) - {id}
    ensures |r| <= |comments|
  {
    if comments == [] then []
    else
      var rest := RemoveComment(comments[1..], id);
      assert comments == [comments[0]] + comments[1..];
      IdsCons(comments[0], comments[1..]);
      IdsCons(comments[0], rest);
      if comments[0].id == id then rest else [comments[0]] + rest
  }

  /** Deleting keeps the order of what remains: it distributes over concatenation. */
  lemma {:induction false} RemoveCommentConcat(a: seq<Comment>, b: seq<Comment>, id: string)
    ensures RemoveComment(a + b, id) == RemoveComment(a, id) + RemoveComment(b, id)
  {
    if a != [] {
      assert (a + b)[1..] == a[1..] + b;
      RemoveCommentConcat(a[1..], b, id);
    } else {
      assert a + b == b;
    }
  }

  /** Deleting an id the list does not hold leaves the list as it was. */
  lemma {:induction false} RemoveAbsentComment(comments: seq<Comment>, id: string)
    requires id !in Ids(comments)
    ensures RemoveComment(comments, id) == comments
  {
    if comments != [] {
      IdsCons(comments[0], comments[1..]);
      assert comments == [comments[0]] + comments[1..];
      RemoveAbsentComment(comments[1..], id);
    }
  }

  /** Deleting keeps a list free of duplicate ids. */
  lemma {:induction false} RemoveCommentKeepsUnique(comments: seq<Comment>, id: string)
    requires UniqueIds(comments)
    ensures UniqueIds(RemoveComment(comments, id))
  {
    if comments != [] {
      var h := comments[0];
      var t := comments[1..];
      assert comments == [h] + t;
      UniqueCons(h, t);
      RemoveCommentKeepsUnique(t, id);
      UniqueCons(h, RemoveComment(t, id));
    }
  }

  /** Deleting a comment that was just added, to a list that did not hold its id, gives the list back. */
  lemma DeleteUndoesAdd(comments: seq<Comment>, c: Comment)
    requires UniqueIds(comments) && c.id !in Ids(comments)
    ensures RemoveComment(AddComment(comments, c), c.id) == comments
  {
    RemoveCommentConcat(comments, [c], c.id);
    RemoveAbsentComment(comments, c.id);
    assert RemoveComment([c], c.id) == [];
  }

  /**
   * `onCommentAdded` on the cached page data: the expense's comments become `AddComment` of
   * them and nothing else changes. Without an expense, lodash's `update` hands `undefined` to
   * the spread and the handler throws before writing: `None`.
   */
  function CommentAddedPatch(data: PageQueryData, c: Comment): (r: Option<PageQueryData>)
    ensures r.Some? <==> data.expense.Some?
    ensures r.Some? ==>
      && r.value.loggedInAccount == data.loggedInAccount
      && r.value.expense.Some?
      && r.value.expense.value.(comments := data.expense.value.comments) == data.expense.value
      && r.value.expense.value.comments == AddComment(data.expense.value.comments, c)
  {
    match data.expense
    case None => None
    case Some(e) => Some(data.(expense := Some(e.(comments := AddComment(e.comments, c)))))
  }

  /** `onCommentDeleted` on the cached page data, likewise with `RemoveComment`. */
  function CommentDeletedPatch(data: PageQueryData, id: string): (r: Option<PageQueryData>)
    ensures r.Some? <==> data.expense.Some?
    ensures r.Some? ==>
      && r.value.loggedInAccount == data.loggedInAccount
      && r.value.expense.Some?
      && r.value.expense.value.(comments := data.expense.value.comments) == data.expense.value
      && r.value.expense.value.comments == RemoveComment(data.expense.value.comments, id)
  {
    match data.expense
    case None => None
    case Some(e) => Some(data.(expense := Some(e.(comments := RemoveComment(e.comments, id)))))
  }

  /** Patching the same new comment into the cache twice leaves it as patching once. */
  lemma CommentAddedPatchIdempotent(data: PageQueryData, c: Comment)
    requires data.expense.Some?
    ensures CommentAddedPatch(CommentAddedPatch(data, c).value, c) == CommentAddedPatch(data, c)
  {
    AddCommentIdempotent(data.expense.value.comments, c);
  }

  /** Deleting from the cache a comment it does not hold leaves the cached data as it was. */
  lemma CommentDeletedPatchAbsent(data: PageQueryData, id: string)
    requires data.expense.Some? && id !in Ids(data.expense.value.comments)
    ensures CommentDeletedPatch(data, id) == Some(data)
  {
    RemoveAbsentComment(data.expense.value.comments, id);
  }
}
