/**
 * The expense page's component state and its transitions: viewing, editing and the
 * summary before saving, the submit to the edit mutation, the success message, errors,
 * and the refetch done when the viewer logs in. Each handler is a function from the old
 * state to the new state and the effects it issues; the page class is proved against them.
 */
module ExpenseModes {
  import opened Wrappers
  import opened ExpenseData
  import opened ExpenseProps

  /** The component state of the expense page. */
  datatype PageState = PageState(
    isRefetchingDataForUser: bool,
    error: Option<PageError>,
    status: Status,
    editedExpense: Option<Expense>,
    isSubmitting: bool,
    successMessageDismissed: bool)

  /** The state the constructor sets. */
  const InitialState: PageState := PageState(false, None, View, None, false, false)

  /** The new state after a handler, and the effects it issued, in order. */
  datatype Transition = Transition(next: PageState, effects: seq<Effect>)

  /** Editing and the summary always have a draft, viewing has none, and a save is in flight only from the summary. */
  predicate Consistent(s: PageState)
  {
    && (s.status != View ==> s.editedExpense.Some?)
    && (s.status == View ==> s.editedExpense.None?)
    && (s.isSubmitting ==> s.status == EditSummary)
  }

  /** A change of status makes the page scroll back to the top of the expense. */
  function ScrollOnStatusChange(before: Status, after: Status): (r: seq<Effect>)
    ensures r == [] <==> before == after
    ensures r != [] ==> r == [ScrollToExpenseTop]
  {
    if before != after then [ScrollToExpenseTop] else []
  }

  /** The draft's items with their attached files removed, every other field kept. */
  function ClearItemFiles(items: seq<Item>): (r: seq<Item>)
    ensures |r| == |items|
    ensures forall i | 0 <= i < |r| :: r[i].url.None? && r[i] == items[i].(url := None)
  {
    seq(|items|, i requires 0 <= i < |items| => items[i].(url := None))
  }

  /**
   * What the page sends to the edit mutation: the prepared draft, except that an expense
   * turned from a receipt into an invoice loses the files of all its items.
   */
  function SubmissionPayload(fetchedType: ExpenseType, draftType: ExpenseType, prepared: ExpensePayload): (r: ExpensePayload)
    ensures r.(items := prepared.items) == prepared
    ensures |r.items| == |prepared.items|
    ensures fetchedType == Receipt && draftType == Invoice ==>
      forall i | 0 <= i < |r.items| :: r.items[i].url.None? && r.items[i] == prepared.items[i].(url := None)
    ensures !(fetchedType == Receipt && draftType == Invoice) ==> r == prepared
  {
    if fetchedType == Receipt && draftType == Invoice then prepared.(items := ClearItemFiles(prepared.items))
    else prepared
  }

  /** `onSuccessMsgDismiss`: marks the message dismissed and replaces the route by one without `createSuccess`. */
  function OnSuccessMsgDismiss(props: PageProps, s: PageState): (t: Transition)
    ensures t.next.successMessageDismissed && t.next.status == s.status
    ensures t.next.(successMessageDismissed := s.successMessageDismissed) == s
    ensures t.effects == [ReplaceRoute(ExpenseRoute, DismissRouteParams(props), true)]
  {
    Transition(s.(successMessageDismissed := true), [ReplaceRoute(ExpenseRoute, DismissRouteParams(props), true)])
  }

  /** `onEditBtnClick`: the draft becomes the fetched expense and the page edits it; a pending success message is dismissed first. */
  function OnEditBtnClick(props: PageProps, s: PageState, fetched: Expense): (t: Transition)
    requires s.status == View
    ensures t.next.status == Edit && t.next.editedExpense == Some(fetched)
    ensures props.createSuccess ==> t.next.successMessageDismissed
    ensures !props.createSuccess ==> t.next.successMessageDismissed == s.successMessageDismissed
    ensures t.next.(status := s.status, editedExpense := s.editedExpense, successMessageDismissed := s.successMessageDismissed) == s
    ensures t.effects ==
      (if props.createSuccess then [ReplaceRoute(ExpenseRoute, DismissRouteParams(props), true)] else []) + [ScrollToExpenseTop]
    ensures Consistent(s) ==> Consistent(t.next)
  {
    var dismissed := if props.createSuccess then OnSuccessMsgDismiss(props, s) else Transition(s, []);
    var next := dismissed.next.(status := Edit, editedExpense := Some(fetched));
    Transition(next, dismissed.effects + ScrollOnStatusChange(s.status, next.status))
  }

  /** The edit form's `onSubmit`: the submitted draft replaces the old one and the summary is shown. */
  function OnFormSubmit(s: PageState, draft: Expense): (t: Transition)
    requires s.status == Edit
    ensures t.next.status == EditSummary && t.next.editedExpense == Some(draft)
    ensures t.next.(status := s.status, editedExpense := s.editedExpense) == s
    ensures t.effects == [ScrollToExpenseTop]
    ensures Consistent(s) ==> Consistent(t.next)
  {
    var next := s.(editedExpense := Some(draft), status := EditSummary);
    Transition(next, ScrollOnStatusChange(s.status, next.status))
  }

  /** The edit form's `onCancel`: back to viewing, the draft is dropped. */
  function OnFormCancel(s: PageState): (t: Transition)
    requires s.status == Edit
    ensures t.next.status == View && t.next.editedExpense.None?
    ensures t.next.(status := s.status, editedExpense := s.editedExpense) == s
    ensures t.effects == [ScrollToExpenseTop]
    ensures Consistent(s) ==> Consistent(t.next)
  {
    var next := s.(status := View, editedExpense := None);
    Transition(next, ScrollOnStatusChange(s.status, next.status))
  }

  /** "Edit expense" in the summary: back to the form with the same draft. The button is disabled while saving. */
  function OnBackToEdit(s: PageState): (t: Transition)
    requires s.status == EditSummary && !s.isSubmitting
    ensures t.next.status == Edit && t.next.editedExpense == s.editedExpense
    ensures t.next.(status := s.status) == s
    ensures t.effects == [ScrollToExpenseTop]
    ensures Consistent(s) ==> Consistent(t.next)
  {
    var next := s.(status := Edit);
    Transition(next, ScrollOnStatusChange(s.status, next.status))
  }

  /** `onNotesChanges`: the private note typed in the summary is written into the draft. */
  function OnNotesChanges(s: PageState, privateMessage: string): (t: Transition)
    requires s.status == EditSummary && s.editedExpense.Some?
    ensures t.next.editedExpense == Some(s.editedExpense.value.(privateMessage := privateMessage))
    ensures t.next.(editedExpense := s.editedExpense) == s
    ensures t.effects == []
    ensures Consistent(s) ==> Consistent(t.next)
  {
    Transition(s.(editedExpense := Some(s.editedExpense.value.(privateMessage := privateMessage))), [])
  }

  /**
   * `onSummarySubmit` up to the call of the mutation: the page is marked as saving, the error
   * is cleared, and the payload (the prepared draft, with the receipt-to-invoice rule applied
   * against the type of the fetched expense) is sent.
   */
  function OnSummarySubmit(s: PageState, fetchedType: ExpenseType, prepared: ExpensePayload): (t: Transition)
    requires s.status == EditSummary && s.editedExpense.Some? && !s.isSubmitting
    ensures t.next.isSubmitting && t.next.error.None?
    ensures t.next.(isSubmitting := s.isSubmitting, error := s.error) == s
    ensures t.effects == [Mutate(SubmissionPayload(fetchedType, s.editedExpense.value.expenseType, prepared))]
    ensures Consistent(s) ==> Consistent(t.next)
  {
    Transition(
      s.(isSubmitting := true, error := None),
      [Mutate(SubmissionPayload(fetchedType, s.editedExpense.value.expenseType, prepared))])
  }

  /**
   * The rest of `onSummarySubmit`, once the mutation settled. Success: back to viewing with no
   * draft and no error. Failure: the error is shown and the page scrolls up; mode and draft stay.
   */
  function OnSummarySubmitSettled(s: PageState, outcome: Outcome<PageError>): (t: Transition)
    requires s.isSubmitting
    ensures !t.next.isSubmitting
    ensures outcome.Pass? ==> t.next.status == View && t.next.editedExpense.None? && t.next.error.None?
    ensures outcome.Fail? ==>
      t.next.error == Some(outcome.error) && t.next.status == s.status && t.next.editedExpense == s.editedExpense
    ensures t.next.successMessageDismissed == s.successMessageDismissed
    ensures t.next.isRefetchingDataForUser == s.isRefetchingDataForUser
    ensures t.effects == [ScrollToExpenseTop] <==> (outcome.Fail? || s.status != View)
    ensures t.effects == (if outcome.Fail? || s.status != View then [ScrollToExpenseTop] else [])
    ensures Consistent(s) ==> Consistent(t.next)
  {
    match outcome
    case Pass =>
      var next := s.(status := View, isSubmitting := false, editedExpense := None, error := None);
      Transition(next, ScrollOnStatusChange(s.status, next.status))
    case Fail(e) =>
      Transition(s.(error := Some(e), isSubmitting := false), [ScrollToExpenseTop])
  }

  /** The admin actions' `onError`: the error is shown. */
  function OnAdminActionError(s: PageState, e: PageError): (t: Transition)
    requires s.status == View
    ensures t.next.error == Some(e) && t.next.(error := s.error) == s && t.effects == []
    ensures Consistent(s) ==> Consistent(t.next)
  {
    Transition(s.(error := Some(e)), [])
  }

  /** `refetchDataForUser` up to the refetch: the page shows that it is refreshing. */
  function OnViewerLoggedIn(s: PageState): (t: Transition)
    ensures t.next.isRefetchingDataForUser && t.next.(isRefetchingDataForUser := s.isRefetchingDataForUser) == s
    ensures t.effects == [Refetch]
    ensures Consistent(s) ==> Consistent(t.next)
  {
    Transition(s.(isRefetchingDataForUser := true), [Refetch])
  }

  /** The `finally` of `refetchDataForUser`: whether the refetch resolved or rejected, the indicator goes off. */
  function OnRefetchForUserSettled(s: PageState): (t: Transition)
    ensures !t.next.isRefetchingDataForUser && t.next.(isRefetchingDataForUser := s.isRefetchingDataForUser) == s
    ensures t.effects == []
    ensures Consistent(s) ==> Consistent(t.next)
  {
    Transition(s.(isRefetchingDataForUser := false), [])
  }

  /** The events the page reacts to. */
  datatype PageEvent =
    | EditClicked(fetched: Expense)
    | SuccessMessageDismissed
    | FormSubmitted(draft: Expense)
    | FormCancelled
    | BackToEditClicked
    | NotesChanged(privateMessage: string)
    | SummarySubmitted(fetchedType: ExpenseType, prepared: ExpensePayload)
    | SubmitSettled(outcome: Outcome<PageError>)
    | AdminActionFailed(error: PageError)
    | ViewerLoggedIn
    | RefetchForUserSettled

  /**
   * When an event can happen: each button exists only in the mode that renders it (admin
   * actions in viewing, the form in editing, the summary buttons in the summary), the success
   * message only while it is shown, and a mutation settles only while it is in flight.
   */
  predicate Enabled(props: PageProps, s: PageState, ev: PageEvent)
  {
    match ev
    case EditClicked(_) => s.status == View
    case SuccessMessageDismissed => props.createSuccess && !s.successMessageDismissed
    case FormSubmitted(_) => s.status == Edit
    case FormCancelled => s.status == Edit
    case BackToEditClicked => s.status == EditSummary && !s.isSubmitting
    case NotesChanged(_) => s.status == EditSummary && s.editedExpense.Some?
    case SummarySubmitted(_, _) => s.status == EditSummary && s.editedExpense.Some? && !s.isSubmitting
    case SubmitSettled(_) => s.isSubmitting
    case AdminActionFailed(_) => s.status == View
    case ViewerLoggedIn => true
    case RefetchForUserSettled => true
  }

  /** The transition an enabled event makes. */
  function Next(props: PageProps, s: PageState, ev: PageEvent): Transition
    requires Enabled(props, s, ev)
  {
    match ev
    case EditClicked(fetched) => OnEditBtnClick(props, s, fetched)
    case SuccessMessageDismissed => OnSuccessMsgDismiss(props, s)
    case FormSubmitted(draft) => OnFormSubmit(s, draft)
    case FormCancelled => OnFormCancel(s)
    case BackToEditClicked => OnBackToEdit(s)
    case NotesChanged(m) => OnNotesChanges(s, m)
    case SummarySubmitted(fetchedType, prepared) => OnSummarySubmit(s, fetchedType, prepared)
    case SubmitSettled(outcome) => OnSummarySubmitSettled(s, outcome)
    case AdminActionFailed(e) => OnAdminActionError(s, e)
    case ViewerLoggedIn => OnViewerLoggedIn(s)
    case RefetchForUserSettled => OnRefetchForUserSettled(s)
  }

  /** Whether every event of `evs` is enabled in the state the earlier ones lead to. */
  predicate Admissible(props: PageProps, s: PageState, evs: seq<PageEvent>)
    decreases |evs|
  {
    evs == [] || (Enabled(props, s, evs[0]) && Admissible(props, Next(props, s, evs[0]).next, evs[1..]))
  }

  /** The state and the effects after a sequence of events. */
  function Run(props: PageProps, s: PageState, evs: seq<PageEvent>): Transition
    requires Admissible(props, s, evs)
    decreases |evs|
  {
    if evs == [] then Transition(s, [])
    else
      var first := Next(props, s, evs[0]);
      var rest := Run(props, first.next, evs[1..]);
      Transition(rest.next, first.effects + rest.effects)
  }

  /** Every admissible sequence of events keeps the page consistent: no mode without a draft, no save outside the summary. */
  lemma {:induction false} RunKeepsConsistent(props: PageProps, s: PageState, evs: seq<PageEvent>)
    requires Consistent(s) && Admissible(props, s, evs)
    ensures Consistent(Run(props, s, evs).next)
    decreases |evs|
  {
    if evs != [] {
      var ev := evs[0];
      assert Consistent(Next(props, s, ev).next) by {
        match ev
        case EditClicked(fetched) =>
        case SuccessMessageDismissed =>
        case FormSubmitted(draft) =>
        case FormCancelled =>
        case BackToEditClicked =>
        case NotesChanged(m) =>
        case SummarySubmitted(fetchedType, prepared) =>
        case SubmitSettled(outcome) =>
        case AdminActionFailed(e) =>
        case ViewerLoggedIn =>
        case RefetchForUserSettled =>
      }
      RunKeepsConsistent(props, Next(props, s, ev).next, evs[1..]);
    }
  }

  /**
   * Every mode change in a run is followed by a scroll to the expense: the number of scroll
   * requests is at least the number of status changes.
   */
  function StatusChanges(props: PageProps, s: PageState, evs: seq<PageEvent>): nat
    requires Admissible(props, s, evs)
    decreases |evs|
  {
    if evs == [] then 0
    else
      var first := Next(props, s, evs[0]);
      (if first.next.status != s.status then 1 else 0) + StatusChanges(props, first.next, evs[1..])
  }

  lemma {:induction false} RunScrollsOnEveryStatusChange(props: PageProps, s: PageState, evs: seq<PageEvent>)
    requires Admissible(props, s, evs)
    ensures multiset(Run(props, s, evs).effects)[ScrollToExpenseTop] >= StatusChanges(props, s, evs)
    decreases |evs|
  {
    if evs != [] {
      var first := Next(props, s, evs[0]);
      assert first.next.status != s.status ==> multiset(first.effects)[ScrollToExpenseTop] >= 1 by {
        if first.next.status != s.status {
          assert first.effects[|first.effects| - 1] == ScrollToExpenseTop by {
            match evs[0]
            case EditClicked(fetched) =>
            case SuccessMessageDismissed =>
            case FormSubmitted(draft) =>
            case FormCancelled =>
            case BackToEditClicked =>
            case NotesChanged(m) =>
            case SummarySubmitted(fetchedType, prepared) =>
            case SubmitSettled(outcome) =>
            case AdminActionFailed(e) =>
            case ViewerLoggedIn =>
            case RefetchForUserSettled =>
          }
          assert ScrollToExpenseTop in first.effects;
        }
      }
      RunScrollsOnEveryStatusChange(props, first.next, evs[1..]);
    }
  }

  /**
   * A viewer logging in while the expense is viewed: exactly one refetch, the refreshing
   * indicator goes on and then off, and the mode and the draft stay as they were.
   */
  lemma LoginRefetchesOnce(props: PageProps, s: PageState)
    requires Consistent(s) && s.status == View && !s.isRefetchingDataForUser
    ensures Admissible(props, s, [ViewerLoggedIn, RefetchForUserSettled])
    ensures Next(props, s, ViewerLoggedIn).next.isRefetchingDataForUser
    ensures Run(props, s, [ViewerLoggedIn, RefetchForUserSettled]) == Transition(s, [Refetch])
  {
    var mid := Next(props, s, ViewerLoggedIn).next;
    assert [ViewerLoggedIn, RefetchForUserSettled][1..] == [RefetchForUserSettled];
    assert Run(props, mid, [RefetchForUserSettled]) == Transition(s, []);
  }
}
