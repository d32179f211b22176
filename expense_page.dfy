/**
 * The expense page component as an object: its component state, its polling fields, the
 * pending timers, the mouse-move listener, the client cache it patches, and the trace of
 * remote calls it issues. Every handler updates the fields step by step and is proved to
 * make exactly the transition of the functions in `ExpenseModes`, `ExpensePolling` and
 * `ExpenseComments`, so the properties proved there hold of the object.
 */
module ExpensePageComponent {
  import opened Wrappers
  import opened ExpenseData
  import opened ExpenseProps
  import opened ExpenseModes
  import opened ExpensePolling
  import opened ExpenseComments

  /** The client-side query cache: the data stored for each query and its variables. */
  class QueryCache {
    var entries: map<CacheKey, PageQueryData>

    constructor()
      ensures entries == map[]
    {
      entries := map[];
    }

    /** `readQuery`: the data stored under `key`, if any. */
    method ReadQuery(key: CacheKey) returns (r: Option<PageQueryData>)
      ensures r.Some? <==> key in entries
      ensures r.Some? ==> r.value == entries[key]
    {
      if key in entries {
        r := Some(entries[key]);
      } else {
        r := None;
      }
    }

    /** `writeQuery`: `data` replaces what was stored under `key`; other entries are kept. */
    method WriteQuery(key: CacheKey, data: PageQueryData)
      modifies this
      ensures entries == old(entries)[key := data]
    {
      entries := entries[key := data];
    }
  }

  /** The cache key of the page query: the query with the page's collective slug and expense id. */
  function PageCacheKey(props: PageProps): (k: CacheKey)
    ensures k.query == ExpensePageQuery
    ensures k.collectiveSlug == props.collectiveSlug && k.legacyExpenseId == props.legacyExpenseId
  {
    CacheKey(ExpensePageQuery, props.collectiveSlug, props.legacyExpenseId)
  }

  class ExpensePage {
    const props: PageProps
    const client: QueryCache

    var isRefetchingDataForUser: bool
    var error: Option<PageError>
    var status: Status
    var editedExpense: Option<Expense>
    var isSubmitting: bool
    var successMessageDismissed: bool

    var pollingStarted: bool
    var pollingPaused: bool
    var pollingTimeout: Option<TimerId>
    /** The timers the runtime will still fire, and the id the next `setTimeout` returns. */
    var pendingTimers: set<TimerId>
    var nextTimerId: TimerId
    /** Whether the mouse-move listener is registered. */
    var listening: bool
    /** The remote calls, navigations and scroll requests issued so far, in order. */
    var effects: seq<Effect>

    ghost function State(): PageState
      reads this
    {
      PageState(isRefetchingDataForUser, error, status, editedExpense, isSubmitting, successMessageDismissed)
    }

    ghost function Polling(): PollingState
      reads this
    {
      PollingState(pollingStarted, pollingPaused, pollingTimeout, pendingTimers, nextTimerId)
    }

    ghost predicate Valid()
      reads this
    {
      Consistent(State()) && PollingInvariant(Polling())
    }

    constructor(props: PageProps, client: QueryCache)
      ensures this.props == props && this.client == client
      ensures State() == InitialState && Polling() == InitialPolling
      ensures !listening && effects == []
      ensures Valid()
    {
      this.props := props;
      this.client := client;
      isRefetchingDataForUser := false;
      error := None;
      status := View;
      editedExpense := None;
      isSubmitting := false;
      successMessageDismissed := false;
      pollingStarted := false;
      pollingPaused := false;
      pollingTimeout := None;
      pendingTimers := {};
      nextTimerId := 0;
      listening := false;
      effects := [];
    }

    /** The `componentDidUpdate` half that scrolls to the expense when the status changed. */
    method ScrollIfStatusChanged(before: Status)
      modifies this
      ensures effects == old(effects) + ScrollOnStatusChange(before, status)
      ensures State() == old(State()) && Polling() == old(Polling()) && listening == old(listening)
    {
      if before != status {
        effects := effects + [ScrollToExpenseTop];
      }
    }

    /** `handlePolling`, called for every activity pulse that the debounce lets through. */
    method HandlePolling()
      modifies this
      ensures Polling() == ExpensePolling.HandlePolling(old(Polling())).state
      ensures effects == old(effects) + ExpensePolling.HandlePolling(old(Polling())).effects
      ensures State() == old(State()) && listening == old(listening)
      ensures old(Valid()) ==> Valid()
    {
      if !pollingStarted {
        if pollingPaused {
          effects := effects + [Refetch];
          pollingPaused := false;
        }
        effects := effects + [StartPolling(PollingIntervalSeconds * 1000)];
        pollingStarted := true;
      }
      // clearTimeout, then setTimeout
      pendingTimers := pendingTimers - TimerSet(pollingTimeout);
      pollingTimeout := Some(nextTimerId);
      pendingTimers := pendingTimers + {nextTimerId};
      nextTimerId := nextTimerId + 1;
    }

    /** The idle timer's callback: polling stops and is marked paused. */
    method OnIdleTimeout(t: TimerId)
      requires t in pendingTimers
      modifies this
      ensures Polling() == IdleTimeout(old(Polling()), t).state
      ensures effects == old(effects) + [StopPolling]
      ensures State() == old(State()) && listening == old(listening)
      ensures old(Valid()) ==> Valid()
    {
      pendingTimers := pendingTimers - {t};
      effects := effects + [StopPolling];
      pollingStarted := false;
      pollingPaused := true;
    }

    /** `componentDidMount`: a first pulse, then the mouse-move listener. */
    method ComponentDidMount()
      modifies this
      ensures Polling() == ExpensePolling.HandlePolling(old(Polling())).state
      ensures effects == old(effects) + ExpensePolling.HandlePolling(old(Polling())).effects
      ensures State() == old(State()) && listening
      ensures old(Valid()) ==> Valid()
    {
      HandlePolling();
      listening := true;
    }

    /**
     * `componentWillUnmount`: polling is stopped and the listener removed. The idle timer is
     * not cleared and stays pending.
     */
    method ComponentWillUnmount()
      modifies this
      ensures effects == old(effects) + [StopPolling]
      ensures !listening
      ensures State() == old(State()) && Polling() == old(Polling())
    {
      effects := effects + [StopPolling];
      listening := false;
    }

    /** `onSuccessMsgDismiss`. */
    method OnSuccessMsgDismiss()
      modifies this
      ensures State() == ExpenseModes.OnSuccessMsgDismiss(props, old(State())).next
      ensures effects == old(effects) + ExpenseModes.OnSuccessMsgDismiss(props, old(State())).effects
      ensures Polling() == old(Polling()) && listening == old(listening)
      ensures old(Valid()) ==> Valid()
    {
      successMessageDismissed := true;
      effects := effects + [ReplaceRoute(ExpenseRoute, DismissRouteParams(props), true)];
    }

    /** `onEditBtnClick`, with the expense the page query returned. */
    method OnEditBtnClick(fetched: Expense)
      requires status == View
      modifies this
      ensures State() == ExpenseModes.OnEditBtnClick(props, old(State()), fetched).next
      ensures effects == old(effects) + ExpenseModes.OnEditBtnClick(props, old(State()), fetched).effects
      ensures Polling() == old(Polling()) && listening == old(listening)
      ensures old(Valid()) ==> Valid()
    {
      var before := status;
      if props.createSuccess {
        OnSuccessMsgDismiss();
      }
      status := Edit;
      editedExpense := Some(fetched);
      ScrollIfStatusChanged(before);
    }

    /** The edit form's `onSubmit`. */
    method OnFormSubmit(draft: Expense)
      requires status == Edit
      modifies this
      ensures State() == ExpenseModes.OnFormSubmit(old(State()), draft).next
      ensures effects == old(effects) + ExpenseModes.OnFormSubmit(old(State()), draft).effects
      ensures Polling() == old(Polling()) && listening == old(listening)
      ensures old(Valid()) ==> Valid()
    {
      var before := status;
      editedExpense := Some(draft);
      status := EditSummary;
      ScrollIfStatusChanged(before);
    }

    /** The edit form's `onCancel`. */
    method OnFormCancel()
      requires status == Edit
      modifies this
      ensures State() == ExpenseModes.OnFormCancel(old(State())).next
      ensures effects == old(effects) + ExpenseModes.OnFormCancel(old(State())).effects
      ensures Polling() == old(Polling()) && listening == old(listening)
      ensures old(Valid()) ==> Valid()
    {
      var before := status;
      status := View;
      editedExpense := None;
      ScrollIfStatusChanged(before);
    }

    /** The summary's "Edit expense" button. */
    method OnBackToEdit()
      requires status == EditSummary && !isSubmitting
      modifies this
      ensures State() == ExpenseModes.OnBackToEdit(old(State())).next
      ensures effects == old(effects) + ExpenseModes.OnBackToEdit(old(State())).effects
      ensures Polling() == old(Polling()) && listening == old(listening)
      ensures old(Valid()) ==> Valid()
    {
      var before := status;
      status := Edit;
      ScrollIfStatusChanged(before);
    }

    /** `onNotesChanges`. */
    method OnNotesChanges(privateMessage: string)
      requires status == EditSummary && editedExpense.Some?
      modifies this
      ensures State() == ExpenseModes.OnNotesChanges(old(State()), privateMessage).next
      ensures effects == old(effects)
      ensures Polling() == old(Polling()) && listening == old(listening)
      ensures old(Valid()) ==> Valid()
    {
      editedExpense := Some(editedExpense.value.(privateMessage := privateMessage));
    }

    /**
     * `onSummarySubmit` up to the mutation: `prepare` is the form's submit preparation and
     * `fetched` the expense the page query returned.
     */
    method OnSummarySubmit(fetched: Expense, prepare: Expense -> ExpensePayload)
      requires status == EditSummary && editedExpense.Some? && !isSubmitting
      modifies this
      ensures State() == ExpenseModes.OnSummarySubmit(old(State()), fetched.expenseType, prepare(old(editedExpense).value)).next
      ensures effects == old(effects) + ExpenseModes.OnSummarySubmit(old(State()), fetched.expenseType, prepare(old(editedExpense).value)).effects
      ensures Polling() == old(Polling()) && listening == old(listening)
      ensures old(Valid()) ==> Valid()
    {
      isSubmitting := true;
      error := None;
      var draft := editedExpense.value;
      var prepared := prepare(draft);
      if fetched.expenseType == Receipt && draft.expenseType == Invoice {
        prepared := prepared.(items := ClearItemFiles(prepared.items));
      }
      effects := effects + [Mutate(prepared)];
    }

    /** The rest of `onSummarySubmit`, once the mutation resolved (`Pass`) or rejected (`Fail`). */
    method OnSummarySubmitSettled(outcome: Outcome<PageError>)
      requires isSubmitting
      modifies this
      ensures State() == ExpenseModes.OnSummarySubmitSettled(old(State()), outcome).next
      ensures effects == old(effects) + ExpenseModes.OnSummarySubmitSettled(old(State()), outcome).effects
      ensures Polling() == old(Polling()) && listening == old(listening)
      ensures old(Valid()) ==> Valid()
    {
      var before := status;
      match outcome
      case Pass =>
        status := View;
        isSubmitting := false;
        editedExpense := None;
        error := None;
        ScrollIfStatusChanged(before);
      case Fail(e) =>
        error := Some(e);
        isSubmitting := false;
        effects := effects + [ScrollToExpenseTop];
    }

    /** The admin actions' `onError`. */
    method OnAdminActionError(e: PageError)
      requires status == View
      modifies this
      ensures State() == ExpenseModes.OnAdminActionError(old(State()), e).next
      ensures effects == old(effects)
      ensures Polling() == old(Polling()) && listening == old(listening)
      ensures old(Valid()) ==> Valid()
    {
      error := Some(e);
    }

    /**
     * The `componentDidUpdate` half that watches the viewer: when the viewer was absent before
     * the update and is present after it, `refetchDataForUser` starts.
     */
    method ComponentDidUpdateViewer(wasLoggedIn: bool, isLoggedIn: bool)
      modifies this
      ensures !wasLoggedIn && isLoggedIn ==>
        State() == OnViewerLoggedIn(old(State())).next && effects == old(effects) + OnViewerLoggedIn(old(State())).effects
      ensures !(!wasLoggedIn && isLoggedIn) ==> State() == old(State()) && effects == old(effects)
      ensures Polling() == old(Polling()) && listening == old(listening)
      ensures old(Valid()) ==> Valid()
    {
      if !wasLoggedIn && isLoggedIn {
        isRefetchingDataForUser := true;
        effects := effects + [Refetch];
      }
    }

    /** The `finally` of `refetchDataForUser`. */
    method OnRefetchForUserSettled()
      modifies this
      ensures State() == ExpenseModes.OnRefetchForUserSettled(old(State())).next
      ensures effects == old(effects)
      ensures Polling() == old(Polling()) && listening == old(listening)
      ensures old(Valid()) ==> Valid()
    {
      isRefetchingDataForUser := false;
    }

    /**
     * `onCommentAdded`: the page query's cached data, with the comment added, is written back.
     * When nothing is cached, or the cached data has no expense, the handler fails before writing.
     */
    method OnCommentAdded(c: Comment)
      modifies client
      ensures var key := PageCacheKey(props);
        if key in old(client.entries) && old(client.entries)[key].expense.Some?
        then client.entries == old(client.entries)[key := CommentAddedPatch(old(client.entries)[key], c).value]
        else client.entries == old(client.entries)
    {
      var key := PageCacheKey(props);
      var cached := client.ReadQuery(key);
      if cached.Some? {
        var patched := CommentAddedPatch(cached.value, c);
        if patched.Some? {
          client.WriteQuery(key, patched.value);
        }
      }
    }

    /** `onCommentDeleted`, likewise with the comment's id filtered out. */
    method OnCommentDeleted(c: Comment)
      modifies client
      ensures var key := PageCacheKey(props);
        if key in old(client.entries) && old(client.entries)[key].expense.Some?
        then client.entries == old(client.entries)[key := CommentDeletedPatch(old(client.entries)[key], c.id).value]
        else client.entries == old(client.entries)
    {
      var key := PageCacheKey(props);
      var cached := client.ReadQuery(key);
      if cached.Some? {
        var patched := CommentDeletedPatch(cached.value, c.id);
        if patched.Some? {
          client.WriteQuery(key, patched.value);
        }
      }
    }
  }
}
