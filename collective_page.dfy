/**
 * The collective page's rules: the calls to action derived from the collective and the
 * viewer's role, the sticky navbar and the section highlighted while scrolling, and the
 * scroll target of a section link.
 */
module CollectivePage {
  import opened Wrappers
  import opened CallsToActionBar

  /** The collective types the rules distinguish; every other type is carried by name. */
  datatype CollectiveType = CollectiveKind | EventKind | OrganizationKind | OtherCollectiveType(name: string)

  /** A value of the collective's free-form settings. */
  datatype SettingValue = BoolSetting(b: bool) | NumberSetting(n: int) | StringSetting(s: string) | NullSetting

  /** `settings?.fund === true`: only the boolean `true` marks a fund, not a truthy number or string. */
  function IsFund(settings: Option<map<string, SettingValue>>): (b: bool)
    ensures b <==> settings.Some? && "fund" in settings.value && settings.value["fund"] == BoolSetting(true)
  {
    match settings
    case None => false
    case Some(m) => "fund" in m && m["fund"] == BoolSetting(true)
  }

  /** The inputs of `getCallsToAction`; flags that are missing count as false. */
  datatype Roles = Roles(
    collectiveType: CollectiveType,
    isHost: bool,
    isAdmin: bool,
    isRoot: bool,
    canApply: bool,
    canContact: bool,
    isArchived: bool,
    isActive: bool,
    isFund: bool)

  /** `getCallsToAction`: the buttons offered for a collective to a viewer with the given roles. */
  function GetCallsToAction(r: Roles): (cta: CallsToAction)
    ensures cta.hasContact <==> !r.isAdmin && r.canContact
    ensures cta.hasContribute <==> r.isFund && r.isActive
    ensures cta.hasSubmitExpense <==>
      (r.collectiveType == CollectiveKind || r.collectiveType == EventKind || (r.isHost && r.isActive)) && !r.isArchived
    ensures cta.hasApply <==> r.canApply && !r.isAdmin
    ensures cta.hasDashboard <==> r.isHost && r.isAdmin
    ensures cta.hasManageSubscriptions <==>
      r.isAdmin && r.collectiveType != CollectiveKind && r.collectiveType != EventKind
    ensures cta.addFunds <==> r.isRoot && r.collectiveType == OrganizationKind && !(r.isAdmin && r.isHost)
  {
    var isCollective := r.collectiveType == CollectiveKind;
    var isEvent := r.collectiveType == EventKind;
    CallsToAction(
      !r.isAdmin && r.canContact,
      r.isFund && r.isActive,
      (isCollective || isEvent || (r.isHost && r.isActive)) && !r.isArchived,
      r.canApply && !r.isAdmin,
      r.isHost && r.isAdmin,
      r.isAdmin && !isCollective && !isEvent,
      r.isRoot && r.collectiveType == OrganizationKind && !(r.isAdmin && r.isHost))
  }

  /** An admin of the collective never sees Contact or Apply in the bar, whatever else holds. */
  lemma AdminSeesNoContactOrApply(c: BarCollective, r: Roles)
    requires r.isAdmin && Buttons(c, GetCallsToAction(r)).Some?
    ensures ContactButton !in Buttons(c, GetCallsToAction(r)).value
    ensures forall b | b in Buttons(c, GetCallsToAction(r)).value :: !b.ApplyButton?
  {
  }

  /** A non-admin sees none of the admin buttons (Dashboard, Manage Contributions), and an archived collective no Submit Expense. */
  lemma RoleRestrictedButtons(c: BarCollective, r: Roles)
    requires Buttons(c, GetCallsToAction(r)).Some?
    ensures !r.isAdmin ==> DashboardButton !in Buttons(c, GetCallsToAction(r)).value
    ensures !r.isAdmin ==> ManageContributionsButton !in Buttons(c, GetCallsToAction(r)).value
    ensures r.isArchived ==> SubmitExpenseButton !in Buttons(c, GetCallsToAction(r)).value
  {
  }

  /** The bar never fails for a non-host or a non-admin: the Dashboard flag, which reads the plan, is off. */
  lemma BarRendersWithoutDashboard(c: BarCollective, r: Roles)
    requires !(r.isHost && r.isAdmin)
    ensures Buttons(c, GetCallsToAction(r)).Some?
  {
  }

  /** The ref a section container registered: mounted at a vertical offset, or reset to `null` on unmount. */
  datatype SectionRef = Mounted(offsetTop: int) | Detached

  /** How far below the top of the window a section still counts as reached. */
  const DistanceThreshold: int := 200

  /** Section `i` has a mounted ref whose offset is at or above `breakpoint`. */
  predicate Reached(sections: seq<string>, refs: map<string, SectionRef>, breakpoint: int, i: int)
    requires 0 <= i < |sections|
  {
    sections[i] in refs && refs[sections[i]].Mounted? && breakpoint >= refs[sections[i]].offsetTop
  }

  /** The last section in list order that is reached, if any. */
  function LastReached(sections: seq<string>, refs: map<string, SectionRef>, breakpoint: int): (r: Option<nat>)
    ensures r.Some? ==> r.value < |sections| && Reached(sections, refs, breakpoint, r.value)
    ensures r.Some? ==> forall j | r.value < j < |sections| :: !Reached(sections, refs, breakpoint, j)
    ensures r.None? <==> forall j | 0 <= j < |sections| :: !Reached(sections, refs, breakpoint, j)
    decreases |sections|
  {
    if sections == [] then None
    else
      var init := sections[..|sections| - 1];
      assert forall j | 0 <= j < |init| :: Reached(init, refs, breakpoint, j) == Reached(sections, refs, breakpoint, j);
      if Reached(sections, refs, breakpoint, |sections| - 1) then Some(|sections| - 1)
      else LastReached(init, refs, breakpoint)
  }

  /** The selection after a scroll tick: the last reached section, or the previous selection when none is reached. */
  function ScrollSelection(sections: seq<string>, refs: map<string, SectionRef>, scrollY: int, previous: Option<string>): (r: Option<string>)
    ensures LastReached(sections, refs, scrollY + DistanceThreshold).None? ==> r == previous
    ensures LastReached(sections, refs, scrollY + DistanceThreshold).Some? ==> r.Some? && r.value in sections
  {
    match LastReached(sections, refs, scrollY + DistanceThreshold)
    case None => previous
    case Some(i) => Some(sections[i])
  }

  /** The section the navbar highlights: `selectedSection || sections[0]`; the empty name is falsy. */
  function NavbarSelection(selected: Option<string>, sections: seq<string>): (r: Option<string>)
    ensures selected.Some? && selected.value != "" ==> r == selected
    ensures !(selected.Some? && selected.value != "") ==> (r.Some? <==> |sections| > 0)
    ensures !(selected.Some? && selected.value != "") && |sections| > 0 ==> r == Some(sections[0])
  {
    if selected.Some? && selected.value != "" then selected
    else if |sections| > 0 then Some(sections[0])
    else None
  }

  /** Where a section link scrolls to, and the location hash it sets. */
  datatype SectionNavigation = SectionNavigation(scrollTop: int, hash: string)

  /** The extra offset for the mobile menu: 30 below a window height of 640, else 0. */
  function ScrollOffset(innerHeight: int): (r: int)
    ensures innerHeight < 640 ==> r == 30
    ensures innerHeight >= 640 ==> r == 0
  {
    if innerHeight < 640 then 30 else 0
  }

  /** The collective page's scroll state and its registered section refs. */
  class CollectivePageView {
    var isFixed: bool
    var selectedSection: Option<string>
    var sectionsRefs: map<string, SectionRef>
    /** How many times the component state was written. */
    var stateWrites: nat
    var scrollListening: bool

    constructor()
      ensures !isFixed && selectedSection.None? && sectionsRefs == map[]
      ensures stateWrites == 0 && !scrollListening
    {
      isFixed := false;
      selectedSection := None;
      sectionsRefs := map[];
      stateWrites := 0;
      scrollListening := false;
    }

    /** A section container's ref callback. */
    method SetSectionRef(name: string, ref: SectionRef)
      modifies this
      ensures sectionsRefs == old(sectionsRefs)[name := ref]
      ensures isFixed == old(isFixed) && selectedSection == old(selectedSection)
      ensures stateWrites == old(stateWrites) && scrollListening == old(scrollListening)
    {
      sectionsRefs := sectionsRefs[name := ref];
    }

    /**
     * `onScroll`. `navbarTop` is the navbar's distance from the top of the window (`None`
     * when its ref is not set, and nothing happens), `scrollY` the window's scroll position.
     * The navbar is fixed once it reaches the top; the selection is the last reached section,
     * found by scanning the sections backwards; the state is written only when it changes.
     */
    method OnScroll(navbarTop: Option<int>, scrollY: int, sections: seq<string>)
      modifies this
      ensures navbarTop.None? ==>
        isFixed == old(isFixed) && selectedSection == old(selectedSection) && stateWrites == old(stateWrites)
      ensures navbarTop.Some? ==> isFixed == (navbarTop.value <= 0)
      ensures navbarTop.Some? ==>
        selectedSection == ScrollSelection(sections, sectionsRefs, scrollY, old(selectedSection))
      ensures stateWrites == old(stateWrites) +
        (if isFixed != old(isFixed) || selectedSection != old(selectedSection) then 1 else 0)
      ensures sectionsRefs == old(sectionsRefs) && scrollListening == old(scrollListening)
    {
      if navbarTop.None? {
        return;
      }
      var fixed := isFixed;
      var selected := selectedSection;
      if navbarTop.value <= 0 {
        fixed := true;
      } else if fixed {
        fixed := false;
      }
      var breakpoint := scrollY + DistanceThreshold;
      var i := |sections| - 1;
      while i >= 0
        invariant -1 <= i < |sections|
        invariant forall j | i < j < |sections| :: !Reached(sections, sectionsRefs, breakpoint, j)
        invariant selected == selectedSection
        decreases i + 1
      {
        var name := sections[i];
        if name in sectionsRefs && sectionsRefs[name].Mounted? && breakpoint >= sectionsRefs[name].offsetTop {
          selected := Some(name);
          assert Reached(sections, sectionsRefs, breakpoint, i);
          break;
        }
        i := i - 1;
      }
      if isFixed != fixed || selectedSection != selected {
        isFixed := fixed;
        selectedSection := selected;
        stateWrites := stateWrites + 1;
      }
    }

    /** `componentDidMount`: the scroll listener is added and a first tick runs. */
    method ComponentDidMount(navbarTop: Option<int>, scrollY: int, sections: seq<string>)
      modifies this
      ensures scrollListening
      ensures navbarTop.None? ==>
        isFixed == old(isFixed) && selectedSection == old(selectedSection) && stateWrites == old(stateWrites)
      ensures navbarTop.Some? ==> isFixed == (navbarTop.value <= 0)
      ensures navbarTop.Some? ==>
        selectedSection == ScrollSelection(sections, sectionsRefs, scrollY, old(selectedSection))
      ensures stateWrites == old(stateWrites) +
        (if isFixed != old(isFixed) || selectedSection != old(selectedSection) then 1 else 0)
      ensures sectionsRefs == old(sectionsRefs)
    {
      scrollListening := true;
      OnScroll(navbarTop, scrollY, sections);
    }

    /** `componentWillUnmount`: the scroll listener is removed. */
    method ComponentWillUnmount()
      modifies this
      ensures !scrollListening
      ensures isFixed == old(isFixed) && selectedSection == old(selectedSection)
      ensures sectionsRefs == old(sectionsRefs) && stateWrites == old(stateWrites)
    {
      scrollListening := false;
    }

    /**
     * `onSectionClick`: the window scrolls to the section's offset plus the mobile-menu offset,
     * and the hash becomes `#section-<name>`. Without a mounted ref for the section the handler
     * fails before doing anything: `None`.
     */
    function SectionClick(name: string, innerHeight: int): (r: Option<SectionNavigation>)
      reads this
      ensures r.Some? <==> name in sectionsRefs && sectionsRefs[name].Mounted?
      ensures r.Some? ==> r.value.scrollTop == sectionsRefs[name].offsetTop + ScrollOffset(innerHeight)
      ensures r.Some? ==> r.value.hash == "#section-" + name
    {
      if name in sectionsRefs && sectionsRefs[name].Mounted? then
        Some(SectionNavigation(sectionsRefs[name].offsetTop + ScrollOffset(innerHeight), "#section-" + name))
      else None
    }
  }

  /**
   * When the window reaches the target of a section link, the scroll handler selects that
   * section or one listed after it: the target lies at most 30 below the section's top, well
   * within the 200 threshold. Near the bottom of the page the window may stop short of it.
   */
  lemma {:induction false} ClickTargetSelectsSection(
    sections: seq<string>, refs: map<string, SectionRef>, i: nat, innerHeight: int, previous: Option<string>)
    requires i < |sections| && sections[i] in refs && refs[sections[i]].Mounted?
    ensures var target := refs[sections[i]].offsetTop + ScrollOffset(innerHeight);
      var k := LastReached(sections, refs, target + DistanceThreshold);
      k.Some? && i <= k.value
      && ScrollSelection(sections, refs, target, previous) == Some(sections[k.value])
  {
    var target := refs[sections[i]].offsetTop + ScrollOffset(innerHeight);
    assert Reached(sections, refs, target + DistanceThreshold, i);
  }
}
