# Open Collective front end: expense page, collective page, fund form and calls-to-action bar

This project is a Dafny model of the logic inside four components of the Open Collective web front end. Rendering is abstracted away; what remains is stated and proved.

- **The expense page** (`pages/expense.js`):
  - Props: the route query is read into props. This includes JavaScript's `parseInt` of the expense id and `Boolean` of `createSuccess`.
  - Modes: the three page modes (viewing, editing, summary before saving) with the edit draft, the saving flag and the error slot. Every handler is a transition function, and the component (`ExpensePageComponent.ExpensePage`) is a class whose methods are proved to make exactly those transitions.
  - Saving: the payload sent when a receipt becomes an invoice has its item files cleared.
  - Background polling: activity pulses and an idle timeout drive it. It is modelled with an explicit table of pending timers.
  - Login refresh: the page refetches when the viewer logs in.
  - Comment cache patches: `uniqBy` on add, `filter` on delete, applied to the client's query cache.
  - Thread and payout profiles: the stable `sortBy` that builds the thread of comments and activities, and the payout profile list.
  - Rendering: the not-found and error classification, and which controls each mode renders.
- **The collective page** (`components/collective-page/index.js`):
  - the calls-to-action rule table, and `isFund`;
  - the scroll handler, which fixes the navbar and picks the selected section in a reverse scan against `scrollY + 200`;
  - the navbar's fallback to the first section;
  - the scroll target of a section link.
- **The fund creation form** (`components/create-fund/Form.js`):
  - the length limits of `validate` and the payload of `submit`;
  - the slug suggested from the name while the slug field is untouched;
  - the `tos` and `hostTos` checkbox state.
- **The calls-to-action bar** (`components/CollectiveCallsToAction.js`):
  - the host-limit rule, with JavaScript's comparisons of `undefined` and `null`;
  - the disabled Apply button;
  - the fixed-order, flag-gated button list;
  - the add-funds modal flag.

Calls to the remote data service (refetch, start and stop polling, the edit mutation), navigation and scroll requests are recorded in order in a trace of effects. The client cache is a map from (query, variables) to data.

Two kinds of input are given as parameters:
- **Positions:** scroll offsets and window heights are integers.
- **Helpers whose code is not part of this model:** the form's submit preparation and `slugify` are function parameters.

## Model

| member | source | states |
|---|---|---|
| ExpenseProps.ParseIntOfNumeral | pages/expense.js:92 | `parseInt` reads an optionally signed decimal numeral, leading zeros included, as its value |
| ExpenseProps.ParseIntOfIntToString | pages/expense.js:92 | every numeral `String(n)` writes for a safe integer `n` is read back by `parseInt` as `n` |
| ExpenseProps.GetInitialProps | pages/expense.js:88-95 | both slugs are passed through; a missing expense id gives no id (NaN); any decimal numeral id, leading zeros included, gives its value; the numeral of a number gives that number; `createSuccess` holds exactly for a non-empty parameter |
| ExpenseProps.CollectiveTypeParam | pages/expense.js:287 | `parentCollectiveSlug && 'events'`: missing stays missing, the empty string stays itself, any other slug gives `events` |
| ExpenseProps.DismissRouteParams | pages/expense.js:280-289 | the route after dismissal carries the same collective, parent and expense id |
| ExpenseProps.DismissRouteRoundTrip | pages/expense.js:278-293 | reading the props back from the replaced route gives the same page with `createSuccess` off |
| ExpenseModes.ScrollOnStatusChange | pages/expense.js:151-154 | a scroll request is issued exactly when the status changed |
| ExpenseModes.ClearItemFiles | pages/expense.js:209 | same number of items; each item loses its `url`, and every other field is unchanged |
| ExpenseModes.SubmissionPayload | pages/expense.js:205-210 | receipt turned invoice: every item's url is cleared and the rest of the payload kept; any other type pair: the prepared payload as is |
| ExpenseModes.OnSuccessMsgDismiss | pages/expense.js:278-294 | only `successMessageDismissed` changes (to true); one shallow route replacement to `expense-v2` without `createSuccess` |
| ExpenseModes.OnEditBtnClick | pages/expense.js:296-302 | status Edit with the fetched expense as draft; the message is dismissed when `createSuccess`, otherwise the flag is kept; every other field unchanged; the effects are exactly the route replacement dropping the success parameters (only when `createSuccess`) then one scroll; keeps the page consistent |
| ExpenseModes.OnFormSubmit | pages/expense.js:474-479 | status EditSummary with the submitted draft; every other field unchanged; one scroll; keeps the page consistent |
| ExpenseModes.OnFormCancel | pages/expense.js:471 | status View with no draft; every other field unchanged; one scroll; keeps the page consistent |
| ExpenseModes.OnBackToEdit | pages/expense.js:439-440 | status Edit; every other field, the draft included, unchanged; one scroll; keeps the page consistent |
| ExpenseModes.OnNotesChanges | pages/expense.js:220-224 | only the draft's private message changes; no effect |
| ExpenseModes.OnSummarySubmit | pages/expense.js:200-212 | saving on, error cleared, every other field unchanged; exactly one mutation, carrying the payload with the receipt-to-invoice rule applied |
| ExpenseModes.OnSummarySubmitSettled | pages/expense.js:212-217 | success: View, no draft, no error; failure: the error is set, mode and draft kept; saving is off either way; the effects are exactly one scroll, on failure or when the status changed, and none otherwise |
| ExpenseModes.OnAdminActionError | pages/expense.js:363 | only the error changes; no effect |
| ExpenseModes.OnViewerLoggedIn | pages/expense.js:191-194 | the refreshing indicator goes on and exactly one refetch is issued; nothing else changes |
| ExpenseModes.OnRefetchForUserSettled | pages/expense.js:195-197 | the refreshing indicator goes off, whether the refetch resolved or failed; nothing else changes |
| ExpenseModes.RunKeepsConsistent | pages/expense.js:463-479 | over any sequence of enabled events: editing and the summary always have a draft, viewing has none, and a save is in flight only from the summary |
| ExpenseModes.RunScrollsOnEveryStatusChange | pages/expense.js:151-154 | over any run, there are at least as many scroll requests as status changes |
| ExpenseModes.LoginRefetchesOnce | pages/expense.js:191-198 | a login while viewing: one refetch, the indicator on then off, and the state as before |
| ExpensePolling.HandlePolling | pages/expense.js:165-189 | afterwards polling is started, and exactly one idle timer (the new one) is pending; one refetch exactly when the pulse found polling stopped and paused; one start exactly when it was stopped; no stop; from stopped, the effects are exactly a refetch (when paused) then one start at the polling interval |
| ExpensePolling.IdleTimeout | pages/expense.js:181-188 | polling is stopped and marked paused; the timer is no longer pending; exactly one stop call |
| ExpensePolling.PollingRunBalanced | pages/expense.js:165-189 | over any run the invariant holds; starts plus one if polling was running equal stops plus one if it runs at the end; eager refetches plus one if it ends paused equal stops plus one if it started paused |
| ExpensePolling.PollingRunAppend | pages/expense.js:165-189 | running two sequences of events one after the other is running their concatenation, with the first one's calls first |
| ExpensePolling.PollingFromMountInOrder | pages/expense.js:140-189 | from mount, the calls up to any event are a prefix of all calls, and at every such point refetches are at most stops, stops at most starts, and starts at most one more than stops: starts and stops alternate |
| ExpensePolling.PollingFromMount | pages/expense.js:133-143 | from a fresh page: refetches ≤ stops ≤ starts ≤ stops + 1 |
| ExpensePolling.IdleThenPulseRefetchesOnce | pages/expense.js:166-177 | pulse, idle timeout, pulse issues start, stop, refetch, start, in that order |
| ExpenseComments.UniqById | pages/expense.js:255 | the result has no duplicate ids, the same set of ids, and is no longer than the input |
| ExpenseComments.FirstsFrom | pages/expense.js:255 | lodash's front-to-back walk: every comment kept comes from the input and has an id not seen before |
| ExpenseComments.FirstsFromAppend | pages/expense.js:255 | walking one more comment keeps it exactly when its id was neither seen nor met earlier in the list |
| ExpenseComments.UniqByIdIsFirstsFrom | pages/expense.js:255 | the de-duplication equals the front-to-back walk from no seen id: the first comment of each id is kept, in input order |
| ExpenseComments.UniqByIdOfUnique | pages/expense.js:255 | de-duplicating a list without duplicates changes nothing |
| ExpenseComments.AddComment | pages/expense.js:255 | the result has unique ids, including the new one; if the id was present the list is unchanged (the first occurrence wins), otherwise the comment is appended |
| ExpenseComments.AddCommentIdempotent | pages/expense.js:252-257 | adding the same comment twice equals adding it once |
| ExpenseComments.RemoveComment | pages/expense.js:261 | a comment is kept iff it was present and has another id; the deleted id is gone |
| ExpenseComments.RemoveCommentConcat | pages/expense.js:261 | deleting distributes over concatenation, so the order of the rest is kept |
| ExpenseComments.RemoveAbsentComment | pages/expense.js:261 | deleting an absent id leaves the list unchanged |
| ExpenseComments.RemoveCommentKeepsUnique | pages/expense.js:261 | deleting keeps ids unique |
| ExpenseComments.DeleteUndoesAdd | pages/expense.js:252-263 | deleting a just-added new comment gives the list back |
| ExpenseComments.CommentAddedPatch | pages/expense.js:252-257 | only the expense's comments change (to `AddComment`); no result when the cached data has no expense |
| ExpenseComments.CommentDeletedPatch | pages/expense.js:259-263 | only the expense's comments change (to `RemoveComment`); no result when the cached data has no expense |
| ExpenseComments.CommentAddedPatchIdempotent | pages/expense.js:252-257 | patching the same comment in twice equals patching it once |
| ExpenseComments.CommentDeletedPatchAbsent | pages/expense.js:259-263 | deleting an absent comment leaves the cached data unchanged |
| ExpenseThread.Insert | pages/expense.js:275 | inserting adds exactly the one element (multiset) |
| ExpenseThread.InsertSorted | pages/expense.js:275 | inserting into a sorted thread keeps it sorted |
| ExpenseThread.InsertStable | pages/expense.js:275 | the inserted element goes before every entry created at the same time |
| ExpenseThread.SortByCreatedAt | pages/expense.js:275 | the result is sorted by creation time and a permutation of the input |
| ExpenseThread.SortByCreatedAtStable | pages/expense.js:275 | entries created at the same time keep their input order |
| ExpenseThread.Entries | pages/expense.js:275 | the comments, then the activities, each exactly once |
| ExpenseThread.GetThreadItems | pages/expense.js:274-276 | the thread is sorted and is a permutation of comments followed by activities |
| ExpenseThread.GetThreadItemsStable | pages/expense.js:274-276 | entries created at the same time appear in the order comments, then activities |
| ExpenseThread.AccountsAdminOf | pages/expense.js:269 | the account of each admin membership, in order; none when the memberships are missing |
| ExpenseThread.GetPayoutProfiles | pages/expense.js:265-272 | empty iff there is no viewer; otherwise the viewer first, then the administered accounts |
| ExpenseRender.Classify | pages/expense.js:308-316 | while loading: the content. Otherwise: a query error gives the error page; not-found exactly when the expense or its collective is missing or the collective is not the route's; not-found carries no collective when the expense is missing, else the route's |
| ExpenseRender.Layout | pages/expense.js:334-501 | exactly one of summary and form is shown; the summary offers either the process actions or the save controls, and admin actions only with the process actions; the comment form is usable exactly when the thread is shown, which is exactly when the expense is loaded; the thread is every comment and activity in creation order; in a consistent state a shown form, and shown save controls, have a draft |
| ExpenseRender.ViewControlsRendered | pages/expense.js:334-366 | editing and admin errors are possible exactly when the admin actions are shown, and dismissal exactly when the banner is |
| ExpenseRender.FormControlsRendered | pages/expense.js:463-482 | the form's submit and cancel are possible exactly when the form is shown, and the form then has a draft |
| ExpenseRender.SummaryControlsRendered | pages/expense.js:427-460 | back-to-edit, notes and save are possible exactly when their summary controls are shown and enabled, and the summary then shows the draft |
| ExpenseRender.DismissHidesBanner | pages/expense.js:278-301 | after dismissing, or after clicking edit, the success banner is gone |
| ExpenseRender.FailedSaveShowsError | pages/expense.js:214-216 | a failed save shows the error above the summary of the kept draft, with its buttons usable again |
| ExpensePageComponent.QueryCache.ReadQuery | pages/expense.js:243 | returns the stored data exactly when the key is cached |
| ExpensePageComponent.QueryCache.WriteQuery | pages/expense.js:256 | the key's entry is replaced; the other entries are kept |
| ExpensePageComponent.PageCacheKey | pages/expense.js:239-244 | the page query with the page's collective slug and expense id |
| ExpensePageComponent.ExpensePage.constructor | pages/expense.js:121-138 | the initial component state and polling fields; no listener; no effect |
| ExpensePageComponent.ExpensePage.ScrollIfStatusChanged | pages/expense.js:151-154 | one scroll request exactly when the status differs from before |
| ExpensePageComponent.ExpensePage.HandlePolling | pages/expense.js:165-189 | the polling fields and effects make exactly `ExpensePolling.HandlePolling`'s step; the invariant is kept |
| ExpensePageComponent.ExpensePage.OnIdleTimeout | pages/expense.js:181-188 | exactly `IdleTimeout`'s step; the invariant is kept |
| ExpensePageComponent.ExpensePage.ComponentDidMount | pages/expense.js:140-143 | one pulse, then the listener is registered |
| ExpensePageComponent.ExpensePage.ComponentWillUnmount | pages/expense.js:157-163 | one stop call and the listener removed; the idle timer stays pending |
| ExpensePageComponent.ExpensePage.OnSuccessMsgDismiss | pages/expense.js:278-294 | exactly the `ExpenseModes.OnSuccessMsgDismiss` transition |
| ExpensePageComponent.ExpensePage.OnEditBtnClick | pages/expense.js:296-302 | exactly the `ExpenseModes.OnEditBtnClick` transition; consistency kept |
| ExpensePageComponent.ExpensePage.OnFormSubmit | pages/expense.js:474-479 | exactly the `ExpenseModes.OnFormSubmit` transition; consistency kept |
| ExpensePageComponent.ExpensePage.OnFormCancel | pages/expense.js:471 | exactly the `ExpenseModes.OnFormCancel` transition; consistency kept |
| ExpensePageComponent.ExpensePage.OnBackToEdit | pages/expense.js:439-440 | exactly the `ExpenseModes.OnBackToEdit` transition; consistency kept |
| ExpensePageComponent.ExpensePage.OnNotesChanges | pages/expense.js:220-224 | exactly the `ExpenseModes.OnNotesChanges` transition |
| ExpensePageComponent.ExpensePage.OnSummarySubmit | pages/expense.js:200-212 | exactly the `ExpenseModes.OnSummarySubmit` transition for the prepared draft |
| ExpensePageComponent.ExpensePage.OnSummarySubmitSettled | pages/expense.js:212-217 | exactly the `ExpenseModes.OnSummarySubmitSettled` transition for the outcome |
| ExpensePageComponent.ExpensePage.OnAdminActionError | pages/expense.js:363 | exactly the `ExpenseModes.OnAdminActionError` transition |
| ExpensePageComponent.ExpensePage.ComponentDidUpdateViewer | pages/expense.js:145-149 | the login refetch starts exactly when the viewer was absent and is now present |
| ExpensePageComponent.ExpensePage.OnRefetchForUserSettled | pages/expense.js:195-197 | exactly the `ExpenseModes.OnRefetchForUserSettled` transition |
| ExpensePageComponent.ExpensePage.OnCommentAdded | pages/expense.js:252-257 | only the page's cache entry changes, to `CommentAddedPatch` of it; nothing is written when there is no entry or no expense |
| ExpensePageComponent.ExpensePage.OnCommentDeleted | pages/expense.js:259-263 | only the page's cache entry changes, to `CommentDeletedPatch` of it; nothing is written when there is no entry or no expense |
| CallsToActionBar.LessThan | components/CollectiveCallsToAction.js:37 | `undefined < n` is false, `null < n` is `0 < n`, and numbers compare as numbers |
| CallsToActionBar.HostWithinLimit | components/CollectiveCallsToAction.js:35-38 | within the limit without a plan or with a falsy limit; with a limit, exactly when the hosted count is below it |
| CallsToActionBar.SelectFrom | components/CollectiveCallsToAction.js:46-133 | a button is selected iff its flag is set, at its own position; selected buttons are in bar order |
| CallsToActionBar.Buttons | components/CollectiveCallsToAction.js:44-135 | fails exactly when the Dashboard flag is set without a plan; otherwise the buttons are in fixed order, each shown iff its flag is set |
| CallsToActionBar.ButtonsShown | components/CollectiveCallsToAction.js:46-133 | each button is present iff its flag is set; Dashboard also needs `plan.hostDashboard` |
| CallsToActionBar.NoFlagsNoButtons | components/CollectiveCallsToAction.js:165-168 | with the default `callsToAction` of `{}` the bar is empty |
| CallsToActionBar.ApplyDisabledIffOverLimit | components/CollectiveCallsToAction.js:95-118 | a rendered Apply button is disabled exactly when the host is over its limit, and the tooltip wraps it exactly then |
| CallsToActionBar.AddFundsModalState.constructor | components/CollectiveCallsToAction.js:34 | the modal starts hidden |
| CallsToActionBar.AddFundsModalState.OnAddFundsClick | components/CollectiveCallsToAction.js:127 | the click shows the modal |
| CallsToActionBar.AddFundsModalState.SetShow | components/CollectiveCallsToAction.js:131 | the modal's `setShow` sets the flag |
| CollectivePage.IsFund | components/collective-page/index.js:229 | a fund exactly when the `fund` setting is the boolean `true` |
| CollectivePage.GetCallsToAction | components/collective-page/index.js:129-143 | each of the seven flags, as an if-and-only-if over type and roles |
| CollectivePage.AdminSeesNoContactOrApply | components/collective-page/index.js:133-137 | an admin's bar has neither Contact nor Apply |
| CollectivePage.RoleRestrictedButtons | components/collective-page/index.js:135-139 | a non-admin sees no Dashboard or Manage Contributions; an archived collective shows no Submit Expense |
| CollectivePage.BarRendersWithoutDashboard | components/collective-page/index.js:138 | unless the viewer is an admin of a host, the bar always renders |
| CollectivePage.LastReached | components/collective-page/index.js:101-108 | the last section with a mounted ref at or above the breakpoint; none iff no section qualifies |
| CollectivePage.ScrollSelection | components/collective-page/index.js:97-108 | the last reached section, or the previous selection when none is reached |
| CollectivePage.NavbarSelection | components/collective-page/index.js:260 | the selection when it is a non-empty name, else the first section, if any |
| CollectivePage.ScrollOffset | components/collective-page/index.js:117 | 30 below a window height of 640, else 0 |
| CollectivePage.CollectivePageView.constructor | components/collective-page/index.js:62-67 | not fixed, nothing selected, no refs |
| CollectivePage.CollectivePageView.SetSectionRef | components/collective-page/index.js:281 | only the section's ref entry changes |
| CollectivePage.CollectivePageView.OnScroll | components/collective-page/index.js:82-114 | without a navbar nothing changes; otherwise fixed iff the navbar top ≤ 0, the selection is `ScrollSelection`, and the state is written once exactly when something changed |
| CollectivePage.CollectivePageView.ComponentDidMount | components/collective-page/index.js:69-72 | listener added, then a first scroll tick: nothing else changes without a navbar; with one, the fixed flag and the selection are those of `onScroll`; the state is written once exactly when it changed |
| CollectivePage.CollectivePageView.ComponentWillUnmount | components/collective-page/index.js:74-76 | listener removed; nothing else changes |
| CollectivePage.CollectivePageView.SectionClick | components/collective-page/index.js:116-127 | fails without a mounted ref; otherwise the target is the offset plus the mobile offset, and the hash is `#section-<name>` |
| CollectivePage.ClickTargetSelectsSection | components/collective-page/index.js:97-119 | when the window reaches a link's target, the scroll handler selects that section or a later one |
| CreateFundForm.Validate | components/create-fund/Form.js:101-117 | one error per field over its limit (name > 50, slug > 30, description > 160) and no other key; empty iff all three limits hold |
| CreateFundForm.ValidateValues | components/create-fund/Form.js:101-117 | the three checks compute exactly `Validate` |
| CreateFundForm.SubmitPayload | components/create-fund/Form.js:119-123 | name, description and slug verbatim, with the current `tos` and `hostTos` |
| CreateFundForm.FormStep | components/create-fund/Form.js:169-296 | a name change suggests a slug only while the slug is untouched; a touched slug changes only by typing in it; terms change only through their checkboxes |
| CreateFundForm.TouchedSlugIsKept | components/create-fund/Form.js:183-187 | once touched, the slug is never auto-changed by any later events |
| CreateFundForm.TermsOnlyByCheckboxes | components/create-fund/Form.js:269-295 | `tos` and `hostTos` change only through their checkbox events |
| CreateFundForm.UntouchedSlugFollowsName | components/create-fund/Form.js:183-187 | if the slug was untouched when the latest name was typed, and nothing has typed in, blurred or submitted the slug since, the slug is the suggestion for that name and the name is the one typed |
| CreateFundForm.KeepsNameAndSlug | components/create-fund/Form.js:183-187 | events that touch neither the name nor the slug leave both alone |
| CreateFundForm.FundForm.constructor | components/create-fund/Form.js:83-99 | empty values, nothing touched, both terms false |
| CreateFundForm.FundForm.DisplayedError | components/create-fund/Form.js:194-234 | a field shows its error iff it is touched and over its limit |
| CreateFundForm.FundForm.OnNameChange | components/create-fund/Form.js:183-187 | exactly the `FormStep` of a name change |
| CreateFundForm.FundForm.OnSlugChange | components/create-fund/Form.js:218-220 | exactly the `FormStep` of a slug change |
| CreateFundForm.FundForm.OnDescriptionChange | components/create-fund/Form.js:243-247 | exactly the `FormStep` of a description change |
| CreateFundForm.FundForm.OnBlur | components/create-fund/Form.js:169 | exactly the `FormStep` of leaving a field |
| CreateFundForm.FundForm.OnTosChange | components/create-fund/Form.js:270-272 | exactly the `FormStep` of the terms checkbox |
| CreateFundForm.FundForm.OnHostTosChange | components/create-fund/Form.js:274-296 | exactly the `FormStep` of the host-terms checkbox, present only when the host has terms |
| CreateFundForm.FundForm.OnSubmit | components/create-fund/Form.js:101-123 | all fields touched; a submission exactly when `Validate` finds no error, and it is `SubmitPayload` of the values |

## Left out

- Timers and events:
  - `debounce(…, 100)` and `throttle(…, 100)` are left out. Each pulse or scroll tick they let through is an explicit event.
  - Real time and `setTimeout` delays are not modelled. The idle timeout is an event that fires a pending timer.
- Remote calls and the query cache:
  - The remote data service is recorded as effects.
  - The truthy-return branch of `startPolling` (pages/expense.js:174-176) is not modelled. It depends on the data library, whose code is not part of this model.
  - The `data?.refetch` and `data?.stopPolling` guards are assumed to hold.
  - `cloneDeep` is implicit: datatypes are values.
  - A `readQuery` that finds nothing cached is modelled as writing nothing. The library would throw or return null, and its behaviour is not part of this model.
- `memoizeOne` caching is left out. It changes no result.
- Helpers whose code is not part of this model:
  - `prepareExpenseForSubmit` and `slugify` are parameters.
  - `getErrorFromGraphqlException` is modelled as an already converted error.
  - `generateNotFoundError` is modelled as the not-found page with its collective slug.
  - `getSectionsForCollective` is modelled as the section list passed to the scroll handler.
- Strings and types:
  - String lengths are counted in characters; JavaScript counts UTF-16 code units.
  - `createdAt` is an integer timestamp; the source compares ISO date strings, which order the same way.
- Rendering and other files:
  - JSX layout, styling, translations, the tax-form and attachment blocks, and page metadata are left out.
  - The render-time aliasing `expense.account.host = {...}` (pages/expense.js:328-330) is left out; it changes no state the model keeps.
  - `server/pages.js`, `lib/with404Error.js` and the presentation-only components are not part of this model.
- ExpenseModes.OnEditBtnClick: the edit button is assumed to act only once the expense is loaded. It copies the fetched expense, so a click during loading (a null draft) is not modelled.
- CreateFundForm.FundForm.OnNameChange: the name field's change handler is assumed to store the typed name as well as suggest the slug. The input component that forwards it is not part of this model.
- Formik: its own touched and validation bookkeeping is reduced to two rules. Leaving a field marks it touched, and a submit attempt marks every field touched before validating.
- The checkboxes read `tosChecked` and `hostTosChecked` (components/create-fund/Form.js:269, 292), which the component never sets. The displayed check state is therefore not modelled; the `tos` and `hostTos` fields the handlers set are.
- Texts that disagree with the code are kept as the code has them; only the limits are modelled:
  - the name message says "fewer than 50 characters", while exactly 50 is accepted;
  - the description hint says 150 characters, while the limit is 160.
- ExpensePageComponent.ExpensePage.ComponentWillUnmount: follows the code (pages/expense.js:157-163). It does not clear the idle timer, so the timer can still fire after teardown and call stop once more. The debounced `handlePolling` (pages/expense.js:137, 157-163) is not cancelled either, so a trailing pulse can still call `startPolling` and arm a new idle timer after unmount; the model has no event after unmount.
- ExpenseModes.OnSummarySubmit: the save button's `loading={isSubmitting}` (pages/expense.js:454) is assumed to block a second click while a save is pending. The button is not `disabled` and `onSummarySubmit` has no guard of its own, so a second submission during a pending save is not modelled.
- CreateFundForm.FundForm.OnSubmit: "a submission exactly when `Validate` finds no error" holds only for the form's own validation. The browser's `required` constraint validation (components/create-fund/Form.js:198, 211, 237, 268, 291; the form at line 190 is not `noValidate`) can block a submit before the handler runs, and it is not modelled.
- ExpenseProps.ParseIntOfIntToString: expense ids are assumed to be safe integers. `String(n)` writes exponent notation from 1e21 up, and `parseInt` loses precision above 2^53; neither is modelled, so `IntToString` and the round trip hold only for such ids.
- ExpenseModes.OnNotesChanges: the handler writes the field named by the input (`[e.target.name]`, pages/expense.js:220-224); the notes form is assumed to name its field `privateMessage`. That form's code is not part of this model.
- ExpenseModes.OnAdminActionError: the callback is created only while viewing (pages/expense.js:358-363), and the model assumes it is called while the page still views the expense. An admin action that settles after the page left viewing is not modelled.
- CallsToActionBar.AddFundsModalState.SetShow: the modal's own closing logic is not part of this model. Only the flag it sets is modelled.
