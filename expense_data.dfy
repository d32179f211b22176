/**
 * The values the expense page works on: the expense snapshot fetched by the page query,
 * the payload sent to the edit mutation, the page's props, and the remote calls and
 * navigation the page issues (recorded as effects).
 */
module ExpenseData {
  import opened Wrappers

  /** The expense types the page distinguishes; every other type is carried by name. */
  datatype ExpenseType = Receipt | Invoice | OtherExpenseType(name: string)

  /** One line item of an expense; `url` is the attached file (a receipt scan), if any. */
  datatype Item = Item(id: Option<string>, description: string, amount: int, incurredAt: string, url: Option<string>)

  /** The collective the expense belongs to. */
  datatype Account = Account(id: string, slug: string, isHost: bool)

  /** A comment on the expense. `createdAt` is the creation time as an ordered number. */
  datatype Comment = Comment(id: string, createdAt: int, html: string)

  /** An activity event of the expense (created, approved, paid, ...). */
  datatype Activity = Activity(id: string, createdAt: int, activityType: string)

  /** The expense snapshot returned by the page query. */
  datatype Expense = Expense(
    id: string,
    legacyId: int,
    expenseType: ExpenseType,
    description: string,
    privateMessage: string,
    items: seq<Item>,
    account: Option<Account>,
    comments: seq<Comment>,
    activities: seq<Activity>)

  /** What the form's submit preparation produces from a draft and the edit mutation receives. */
  datatype ExpensePayload = ExpensePayload(
    id: string,
    expenseType: ExpenseType,
    description: string,
    privateMessage: string,
    items: seq<Item>)

  /** An error already converted for display. */
  datatype PageError = PageError(message: string)

  /** An account that can be chosen as payout profile. */
  datatype Profile = Profile(id: string, slug: string, name: string)

  /** An admin membership of the viewer: the account it administers. */
  datatype Membership = Membership(account: Profile)

  /** The viewer's account; `adminMemberships` is absent when the query did not return it. */
  datatype LoggedInAccount = LoggedInAccount(profile: Profile, adminMemberships: Option<seq<Membership>>)

  /** The data the page query stores in the client cache. */
  datatype PageQueryData = PageQueryData(expense: Option<Expense>, loggedInAccount: Option<LoggedInAccount>)

  /** The query result as the page sees it: loading flag, error and data. */
  datatype QueryResult = QueryResult(loading: bool, error: Option<PageError>, data: PageQueryData)

  /** The three page modes. */
  datatype Status = View | Edit | EditSummary

  /** The page props computed from the route query. */
  datatype PageProps = PageProps(
    parentCollectiveSlug: Option<string>,
    collectiveSlug: Option<string>,
    legacyExpenseId: Option<int>,
    createSuccess: bool)

  /** The parameters of the route the page navigates to when the success message is dismissed. */
  datatype RouteParams = RouteParams(
    parentCollectiveSlug: Option<string>,
    collectiveSlug: Option<string>,
    collectiveType: Option<string>,
    expenseId: Option<int>)

  /** The cache key of a query: the query and its variables. */
  datatype CacheKey = CacheKey(query: string, collectiveSlug: Option<string>, legacyExpenseId: Option<int>)

  /** A call into the remote data service, a navigation, or a scroll request. */
  datatype Effect =
    | Refetch
    | StartPolling(intervalMs: int)
    | StopPolling
    | Mutate(payload: ExpensePayload)
    | ReplaceRoute(route: string, params: RouteParams, shallow: bool)
    | ScrollToExpenseTop

  /** The polling interval, in seconds; it is also the idle delay. */
  const PollingIntervalSeconds: int := 60

  /** The name of the page query, the first half of its cache key. */
  const ExpensePageQuery: string := "ExpensePage"

  /** The route the page replaces itself with when the success message is dismissed. */
  const ExpenseRoute: string := "expense-v2"
}
