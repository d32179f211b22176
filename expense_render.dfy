/**
 * What the expense page renders: which error page replaces it, and, when the content is shown,
 * which parts of the content are present in each mode. Styling and texts are not modelled.
 */
module ExpenseRender {
  import opened Wrappers
  import opened ExpenseData
  import opened ExpenseModes
  import opened ExpenseThread

  /** The three outcomes of `render`: the error page for a failed query, a "not found" page, or the content. */
  datatype PageView =
    | DataErrorPage(error: PageError)
    | NotFoundPage(searchedSlug: Option<string>)
    | ExpenseContent

  /** The expense is shown under the collective of the route, and it belongs to a collective. */
  predicate BelongsToRoute(e: Expense, collectiveSlug: Option<string>)
  {
    e.account.Some? && collectiveSlug == Some(e.account.value.slug)
  }

  /**
   * The guards at the top of `render`. They apply only once the query is no longer loading:
   * a query error gives the error page; no expense gives "not found" with no collective; an
   * expense without collective, or under another collective than the route's, gives "not found"
   * for the route's collective (and is not logged).
   */
  function Classify(result: QueryResult, collectiveSlug: Option<string>): (v: PageView)
    ensures result.loading ==> v == ExpenseContent
    ensures v.DataErrorPage? <==> !result.loading && result.error.Some?
    ensures v.DataErrorPage? ==> v.error == result.error.value
    ensures v.NotFoundPage? <==>
      !result.loading && result.error.None?
      && (result.data.expense.None? || !BelongsToRoute(result.data.expense.value, collectiveSlug))
    ensures v.NotFoundPage? ==>
      (if result.data.expense.None? then v.searchedSlug.None? else v.searchedSlug == collectiveSlug)
    ensures v == ExpenseContent && !result.loading ==>
      result.data.expense.Some? && BelongsToRoute(result.data.expense.value, collectiveSlug)
  {
    if result.loading then ExpenseContent
    else if result.error.Some? then DataErrorPage(result.error.value)
    else match result.data.expense
      case None => NotFoundPage(None)
      case Some(e) =>
        if e.account.None? || collectiveSlug != Some(e.account.value.slug) then NotFoundPage(collectiveSlug)
        else ExpenseContent
  }

  /** The summary block: the expense it shows and the state of its controls. */
  datatype SummaryView = SummaryView(
    expense: Option<Expense>,
    isLoading: bool,
    isLoadingLoggedInUser: bool,
    showProcessActions: bool,
    showSaveControls: bool,
    backToEditDisabled: bool,
    saveLoading: bool)

  /** The edit form: the draft it edits and the payout profiles it offers. */
  datatype FormView = FormView(draft: Option<Expense>, loading: bool, payoutProfiles: seq<Profile>)

  /** The parts of the content and their inputs. */
  datatype ContentLayout = ContentLayout(
    successBanner: bool,
    navbarSubmitExpense: bool,
    adminActions: bool,
    errorMessage: Option<PageError>,
    summary: Option<SummaryView>,
    form: Option<FormView>,
    thread: Option<seq<ThreadItem>>,
    commentFormDisabled: bool)

  /**
   * The content `render` returns for the given props, query data and component state. The
   * summary and the form take turns; the summary offers either the process actions or the
   * save controls; the comment form is usable exactly when the thread is shown, and the thread
   * is every comment and activity in creation order. In a consistent state every control that
   * works on the draft has one.
   */
  function Layout(props: PageProps, loadingLoggedInUser: bool, data: PageQueryData, s: PageState): (l: ContentLayout)
    ensures l.summary.Some? != l.form.Some?
    ensures l.summary.Some? ==> l.summary.value.showProcessActions != l.summary.value.showSaveControls
    ensures l.adminActions ==> l.summary.Some? && l.summary.value.showProcessActions
    ensures l.commentFormDisabled <==> l.thread.None?
    ensures l.thread.Some? <==> data.expense.Some?
    ensures data.expense.Some? ==>
      && SortedByCreatedAt(l.thread.value)
      && multiset(l.thread.value) == multiset(Entries(data.expense.value.comments, data.expense.value.activities))
    ensures Consistent(s) ==>
      && (l.form.Some? ==> l.form.value.draft.Some?)
      && (l.summary.Some? && l.summary.value.showSaveControls ==> l.summary.value.expense.Some?)
  {
    var summary :=
      if s.status == Edit then None
      else Some(SummaryView(
        if s.status == EditSummary then s.editedExpense else data.expense,
        data.expense.None?,
        loadingLoggedInUser || s.isRefetchingDataForUser,
        s.status != EditSummary,
        s.status == EditSummary,
        s.isSubmitting,
        s.isSubmitting));
    var form :=
      if s.status == Edit then Some(FormView(s.editedExpense, loadingLoggedInUser, GetPayoutProfiles(data.loggedInAccount)))
      else None;
    var thread :=
      if data.expense.Some? then Some(GetThreadItems(data.expense.value.comments, data.expense.value.activities))
      else None;
    ContentLayout(
      props.createSuccess && !s.successMessageDismissed,
      s.status == View,
      s.status == View,
      s.error,
      summary,
      form,
      thread,
      data.expense.None?)
  }

  /**
   * The interactions of the view mode are possible exactly when the layout offers their
   * controls: the admin actions (editing, or an admin action that fails) and the success banner.
   */
  lemma ViewControlsRendered(props: PageProps, loadingLoggedInUser: bool, data: PageQueryData, s: PageState, fetched: Expense, e: PageError)
    ensures var l := Layout(props, loadingLoggedInUser, data, s);
      && (Enabled(props, s, EditClicked(fetched)) <==> l.adminActions)
      && (Enabled(props, s, AdminActionFailed(e)) <==> l.adminActions)
      && (Enabled(props, s, SuccessMessageDismissed) <==> l.successBanner)
  {
  }

  /** Submitting or cancelling the form is possible exactly when the form is shown, and in a consistent state it has a draft. */
  lemma FormControlsRendered(props: PageProps, loadingLoggedInUser: bool, data: PageQueryData, s: PageState, draft: Expense)
    requires Consistent(s)
    ensures var l := Layout(props, loadingLoggedInUser, data, s);
      && (Enabled(props, s, FormSubmitted(draft)) <==> l.form.Some?)
      && (Enabled(props, s, FormCancelled) <==> l.form.Some?)
      && (l.form.Some? ==> l.form.value.draft.Some?)
  {
  }

  /**
   * The summary's save controls: going back to edit and saving are possible exactly when they
   * are shown and not disabled by a pending save, and editing the notes whenever they are shown.
   * In a consistent state the summary then shows the draft.
   */
  lemma SummaryControlsRendered(props: PageProps, loadingLoggedInUser: bool, data: PageQueryData, s: PageState, m: string, ft: ExpenseType, p: ExpensePayload)
    requires Consistent(s)
    ensures var l := Layout(props, loadingLoggedInUser, data, s);
      && (Enabled(props, s, BackToEditClicked) <==>
            l.summary.Some? && l.summary.value.showSaveControls && !l.summary.value.backToEditDisabled)
      && (Enabled(props, s, NotesChanged(m)) <==> l.summary.Some? && l.summary.value.showSaveControls)
      && (Enabled(props, s, SummarySubmitted(ft, p)) <==>
            l.summary.Some? && l.summary.value.showSaveControls && !l.summary.value.saveLoading)
      && (l.summary.Some? && l.summary.value.showSaveControls ==> l.summary.value.expense.Some?)
  {
  }

  /** Dismissing the success message hides the banner, and so does starting to edit. */
  lemma DismissHidesBanner(props: PageProps, loadingLoggedInUser: bool, data: PageQueryData, s: PageState, fetched: Expense)
    requires s.status == View
    ensures !Layout(props, loadingLoggedInUser, data, OnSuccessMsgDismiss(props, s).next).successBanner
    ensures !Layout(props, loadingLoggedInUser, data, OnEditBtnClick(props, s, fetched).next).successBanner
  {
  }

  /** A failed save shows its error in the summary, with the draft kept and the controls usable again. */
  lemma FailedSaveShowsError(props: PageProps, loadingLoggedInUser: bool, data: PageQueryData, s: PageState, e: PageError)
    requires Consistent(s) && s.isSubmitting
    ensures var l := Layout(props, loadingLoggedInUser, data, OnSummarySubmitSettled(s, Fail(e)).next);
      && l.errorMessage == Some(e)
      && l.summary.Some? && l.summary.value.expense == s.editedExpense && l.summary.value.showSaveControls
      && !l.summary.value.saveLoading && !l.summary.value.backToEditDisabled
  {
  }
}
