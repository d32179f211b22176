/**
 * The calls-to-action bar of a collective: which buttons it shows, in which order, whether the
 * host's Apply button is disabled by the host's plan limit, and the add-funds modal flag.
 */
module CallsToActionBar {
  import opened Wrappers

  /**
   * A numeric field read from the collective's plan: missing (`undefined`), `null`, or a number.
   * JavaScript compares them differently, so the three are kept apart.
   */
  datatype JsCount = Undefined | Null | Number(n: int)

  /** The host's plan; `hostDashboard` is read as a truth value. */
  datatype Plan = Plan(hostedCollectivesLimit: JsCount, hostedCollectives: JsCount, hostDashboard: bool)

  /** The collective the bar is shown for; its plan may be absent. */
  datatype BarCollective = BarCollective(slug: string, name: string, plan: Option<Plan>)

  /** The flags that select the buttons; a flag that is not given counts as false. */
  datatype CallsToAction = CallsToAction(
    hasContact: bool,
    hasContribute: bool,
    hasSubmitExpense: bool,
    hasApply: bool,
    hasDashboard: bool,
    hasManageSubscriptions: bool,
    addFunds: bool)

  /** The default `callsToAction` of `{}`: every flag is missing. */
  const NoCallsToAction: CallsToAction := CallsToAction(false, false, false, false, false, false, false)

  /** The buttons of the bar. The Apply button carries its `disabled` flag and whether the limit tooltip wraps it. */
  datatype Button =
    | ContactButton
    | SendMoneyButton
    | SubmitExpenseButton
    | ManageContributionsButton
    | DashboardButton
    | ApplyButton(disabled: bool, withLimitTooltip: bool)
    | AddFundsButton

  /** The position of each kind of button in the bar. */
  function Rank(b: Button): nat
  {
    match b
    case ContactButton => 0
    case SendMoneyButton => 1
    case SubmitExpenseButton => 2
    case ManageContributionsButton => 3
    case DashboardButton => 4
    case ApplyButton(_, _) => 5
    case AddFundsButton => 6
  }

  /** Truthiness of a plan field. */
  function Truthy(v: JsCount): (b: bool)
    ensures b <==> v.Number? && v.n != 0
  {
    v.Number? && v.n != 0
  }

  /** `count < limit` for a number `limit`: `undefined` compares as NaN (false), `null` as 0. */
  function LessThan(count: JsCount, limit: int): (b: bool)
    ensures count.Undefined? ==> !b
    ensures count.Null? ==> (b <==> 0 < limit)
    ensures count.Number? ==> (b <==> count.n < limit)
  {
    match count
    case Undefined => false
    case Null => 0 < limit
    case Number(n) => n < limit
  }

  /**
   * `hostWithinLimit`: without a limit (no plan, or a falsy limit such as 0) the host is within
   * it; with a limit, exactly when the number of hosted collectives is below it.
   */
  function HostWithinLimit(c: BarCollective): (b: bool)
    ensures c.plan.None? ==> b
    ensures c.plan.Some? && !Truthy(c.plan.value.hostedCollectivesLimit) ==> b
    ensures c.plan.Some? && Truthy(c.plan.value.hostedCollectivesLimit) ==>
      (b <==> LessThan(c.plan.value.hostedCollectives, c.plan.value.hostedCollectivesLimit.n))
    ensures c.plan.Some? && c.plan.value.hostedCollectives.Undefined? ==>
      (b <==> !Truthy(c.plan.value.hostedCollectivesLimit))
  {
    match c.plan
    case None => true
    case Some(p) => if Truthy(p.hostedCollectivesLimit) then LessThan(p.hostedCollectives, p.hostedCollectivesLimit.n) else true
  }

  /** Every button of `bs` ranks strictly below every later one: the order is fixed and no kind repeats. */
  predicate InBarOrder(bs: seq<Button>)
  {
    forall i, j | 0 <= i < j < |bs| :: Rank(bs[i]) < Rank(bs[j])
  }

  /** A button of the bar together with the flag that shows it. */
  datatype Candidate = Candidate(flag: bool, button: Button)

  /** Candidates listed in bar order: the one at position `i` has rank `i`. */
  predicate RankedByPosition(cands: seq<Candidate>)
  {
    forall i | 0 <= i < |cands| :: Rank(cands[i].button) == i
  }

  /** What `SelectFrom` promises about the buttons it selects from position `k` on. */
  ghost predicate SelectedFrom(cands: seq<Candidate>, k: nat, r: seq<Button>)
    requires RankedByPosition(cands) && k <= |cands|
  {
    && (forall b :: b in r <==> k <= Rank(b) < |cands| && cands[Rank(b)].flag && cands[Rank(b)].button == b)
    && (forall b | b in r :: k <= Rank(b))
    && InBarOrder(r)
  }

  /** Putting the candidate at `k`, when flagged, in front of the selection from `k + 1` gives the selection from `k`. */
  lemma SelectStep(cands: seq<Candidate>, k: nat, rest: seq<Button>)
    requires RankedByPosition(cands) && k < |cands|
    requires SelectedFrom(cands, k + 1, rest)
    ensures SelectedFrom(cands, k, (if cands[k].flag then [cands[k].button] else []) + rest)
  {
    var here := if cands[k].flag then [cands[k].button] else [];
    var r := here + rest;
    assert Rank(cands[k].button) == k;
    forall b ensures b in r <==> k <= Rank(b) < |cands| && cands[Rank(b)].flag && cands[Rank(b)].button == b {
      assert b in r <==> b in here || b in rest;
    }
    forall i, j | 0 <= i < j < |r| ensures Rank(r[i]) < Rank(r[j]) {
      assert r[j] == rest[j - |here|];
      assert rest[j - |here|] in rest;
      if i >= |here| {
        assert r[i] == rest[i - |here|];
      }
    }
  }

  /** The buttons of `cands[k..]` whose flag is set, in order. */
  function SelectFrom(cands: seq<Candidate>, k: nat): (r: seq<Button>)
    requires RankedByPosition(cands) && k <= |cands|
    ensures forall b :: b in r <==>
      k <= Rank(b) < |cands| && cands[Rank(b)].flag && cands[Rank(b)].button == b
    ensures forall b | b in r :: k <= Rank(b)
    ensures InBarOrder(r)
    decreases |cands| - k
  {
    if k == |cands| then []
    else
      var rest := SelectFrom(cands, k + 1);
      SelectStep(cands, k, rest);
      (if cands[k].flag then [cands[k].button] else []) + rest
  }

  /** The bar's buttons in their fixed order, each with its flag. */
  function Candidates(c: BarCollective, cta: CallsToAction): (cands: seq<Candidate>)
    requires !(cta.hasDashboard && c.plan.None?)
    ensures RankedByPosition(cands) && |cands| == 7
  {
    var withinLimit := HostWithinLimit(c);
    [ Candidate(cta.hasContact, ContactButton),
      Candidate(cta.hasContribute, SendMoneyButton),
      Candidate(cta.hasSubmitExpense, SubmitExpenseButton),
      Candidate(cta.hasManageSubscriptions, ManageContributionsButton),
      Candidate(cta.hasDashboard && c.plan.value.hostDashboard, DashboardButton),
      Candidate(cta.hasApply, ApplyButton(!withinLimit, !withinLimit)),
      Candidate(cta.addFunds, AddFundsButton) ]
  }

  /** Whether the bar shows button `b` for these flags. */
  predicate Shown(c: BarCollective, cta: CallsToAction, b: Button)
    requires !(cta.hasDashboard && c.plan.None?)
  {
    match b
    case ContactButton => cta.hasContact
    case SendMoneyButton => cta.hasContribute
    case SubmitExpenseButton => cta.hasSubmitExpense
    case ManageContributionsButton => cta.hasManageSubscriptions
    case DashboardButton => cta.hasDashboard && c.plan.value.hostDashboard
    case ApplyButton(d, t) => cta.hasApply && d == !HostWithinLimit(c) && t == !HostWithinLimit(c)
    case AddFundsButton => cta.addFunds
  }

  /**
   * The buttons the bar renders, in order. `None` when the Dashboard flag is set and the
   * collective has no plan: reading `plan.hostDashboard` then fails.
   */
  function Buttons(c: BarCollective, cta: CallsToAction): (r: Option<seq<Button>>)
    ensures r.None? <==> cta.hasDashboard && c.plan.None?
    ensures r.Some? ==> InBarOrder(r.value)
    ensures r.Some? ==> forall b :: b in r.value <==> Shown(c, cta, b)
  {
    if cta.hasDashboard && c.plan.None? then None
    else Some(SelectFrom(Candidates(c, cta), 0))
  }

  /** The bar shows each button exactly when its flag is set; Dashboard also needs the plan's `hostDashboard`. */
  lemma ButtonsShown(c: BarCollective, cta: CallsToAction)
    requires Buttons(c, cta).Some?
    ensures var bs := Buttons(c, cta).value;
      && (ContactButton in bs <==> cta.hasContact)
      && (SendMoneyButton in bs <==> cta.hasContribute)
      && (SubmitExpenseButton in bs <==> cta.hasSubmitExpense)
      && (ManageContributionsButton in bs <==> cta.hasManageSubscriptions)
      && (DashboardButton in bs <==> cta.hasDashboard && c.plan.value.hostDashboard)
      && (AddFundsButton in bs <==> cta.addFunds)
      && (cta.hasApply <==> ApplyButton(!HostWithinLimit(c), !HostWithinLimit(c)) in bs)
  {
  }

  /** Candidates none of which is flagged select no button. */
  lemma {:induction false} NothingFlaggedNothingSelected(cands: seq<Candidate>, k: nat)
    requires RankedByPosition(cands) && k <= |cands|
    requires forall i | 0 <= i < |cands| :: !cands[i].flag
    ensures SelectFrom(cands, k) == []
    decreases |cands| - k
  {
    if k < |cands| {
      NothingFlaggedNothingSelected(cands, k + 1);
    }
  }

  /** With the default `callsToAction` of `{}` the bar is empty. */
  lemma NoFlagsNoButtons(c: BarCollective)
    ensures Buttons(c, NoCallsToAction) == Some([])
  {
    NothingFlaggedNothingSelected(Candidates(c, NoCallsToAction), 0);
  }

  /** The Apply button is disabled, and wrapped in the limit tooltip, exactly when the host is over its limit. */
  lemma ApplyDisabledIffOverLimit(c: BarCollective, cta: CallsToAction, d: bool, t: bool)
    requires Buttons(c, cta).Some? && ApplyButton(d, t) in Buttons(c, cta).value
    ensures d <==> !HostWithinLimit(c)
    ensures t <==> d
  {
  }

  /** The add-funds modal's `show` flag (`useState(false)`). */
  class AddFundsModalState {
    var show: bool

    constructor()
      ensures !show
    {
      show := false;
    }

    /** The Add funds button's click: the modal is shown. */
    method OnAddFundsClick()
      modifies this
      ensures show
    {
      show := true;
    }

    /** The `setShow` handed to the modal. */
    method SetShow(v: bool)
      modifies this
      ensures show == v
    {
      show := v;
    }
  }
}
