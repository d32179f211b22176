/**
 * The expense page's background polling: activity pulses (mouse movement, once the debounce
 * has let one through) start polling and re-arm an idle timer; when the idle timer fires,
 * polling stops and is marked paused, so that the next pulse refetches at once.
 * Timers are modelled by the set of pending timer ids and the id the next `setTimeout` returns.
 */
module ExpensePolling {
  import opened Wrappers
  import opened ExpenseData

  type TimerId = nat

  /** The page's `pollingStarted`, `pollingPaused` and `pollingTimeout`, and the runtime's pending timers. */
  datatype PollingState = PollingState(
    started: bool,
    paused: bool,
    timeout: Option<TimerId>,
    pending: set<TimerId>,
    nextTimer: TimerId)

  /** The state the constructor sets: nothing started, nothing paused, no timer. */
  const InitialPolling: PollingState := PollingState(false, false, None, {}, 0)

  /** The polling interval and the idle delay, in milliseconds. */
  const PollingIntervalMs: int := PollingIntervalSeconds * 1000

  /** The new polling state and the remote calls issued, in order. */
  datatype PollingStep = PollingStep(state: PollingState, effects: seq<Effect>)

  function TimerSet(t: Option<TimerId>): set<TimerId>
  {
    if t.Some? then {t.value} else {}
  }

  /**
   * At most the timer the page remembers is pending; polling is started exactly while an idle
   * timer is pending; a paused page is not polling.
   */
  predicate PollingInvariant(s: PollingState)
  {
    && s.pending <= TimerSet(s.timeout)
    && (s.started <==> s.pending != {})
    && (s.paused ==> !s.started)
  }

  /**
   * `handlePolling`: if polling is not started, start it, refetching first if it had been
   * paused; then clear the idle timer and arm a new one.
   */
  function HandlePolling(s: PollingState): (r: PollingStep)
    ensures r.state.started
    ensures r.state.timeout == Some(s.nextTimer) && s.nextTimer in r.state.pending
    ensures PollingInvariant(s) ==> PollingInvariant(r.state) && !r.state.paused && r.state.pending == {s.nextTimer}
    ensures multiset(r.effects)[Refetch] == (if !s.started && s.paused then 1 else 0)
    ensures multiset(r.effects)[StartPolling(PollingIntervalMs)] == (if s.started then 0 else 1)
    ensures multiset(r.effects)[StopPolling] == 0
    ensures s.started ==> r.effects == []
    ensures !s.started ==> r.effects == (if s.paused then [Refetch] else []) + [StartPolling(PollingIntervalMs)]
  {
    var eager := if !s.started && s.paused then [Refetch] else [];
    var start := if !s.started then [StartPolling(PollingIntervalMs)] else [];
    var paused := if !s.started then false else s.paused;
    var id := s.nextTimer;
    var next := PollingState(true, paused, Some(id), (s.pending - TimerSet(s.timeout)) + {id}, id + 1);
    PollingStep(next, eager + start)
  }

  /** The idle timer's callback: stop polling and mark it paused. */
  function IdleTimeout(s: PollingState, t: TimerId): (r: PollingStep)
    requires t in s.pending
    ensures !r.state.started && r.state.paused
    ensures t !in r.state.pending
    ensures r.effects == [StopPolling]
    ensures PollingInvariant(s) ==> PollingInvariant(r.state) && r.state.pending == {}
  {
    PollingStep(s.(started := false, paused := true, pending := s.pending - {t}), [StopPolling])
  }

  /** What reaches the polling logic: a pulse that the debounce let through, or a timer firing. */
  datatype PollingEvent = ActivityPulse | TimerFired(timer: TimerId)

  /** One event; the runtime fires only pending timers, so a non-pending id changes nothing. */
  function PollingApply(s: PollingState, ev: PollingEvent): PollingStep
  {
    match ev
    case ActivityPulse => HandlePolling(s)
    case TimerFired(t) => if t in s.pending then IdleTimeout(s, t) else PollingStep(s, [])
  }

  /** The state and the remote calls after a sequence of events. */
  function PollingRun(s: PollingState, evs: seq<PollingEvent>): PollingStep
    decreases |evs|
  {
    if evs == [] then PollingStep(s, [])
    else
      var first := PollingApply(s, evs[0]);
      var rest := PollingRun(first.state, evs[1..]);
      PollingStep(rest.state, first.effects + rest.effects)
  }

  function Flag(b: bool): nat
  {
    if b then 1 else 0
  }

  /**
   * Over any run, counted from the start state: the starts plus one if polling was running equal
   * the stops plus one if it runs at the end; the eager refetches plus one if polling ends paused
   * equal the idle stops plus one if it started paused.
   */
  lemma {:induction false} PollingRunBalanced(s: PollingState, evs: seq<PollingEvent>)
    requires PollingInvariant(s)
    ensures PollingInvariant(PollingRun(s, evs).state)
    ensures var r := PollingRun(s, evs);
      multiset(r.effects)[StartPolling(PollingIntervalMs)] + Flag(s.started)
        == multiset(r.effects)[StopPolling] + Flag(r.state.started)
    ensures var r := PollingRun(s, evs);
      multiset(r.effects)[Refetch] + Flag(r.state.paused)
        == multiset(r.effects)[StopPolling] + Flag(s.paused)
    decreases |evs|
  {
    if evs != [] {
      var first := PollingApply(s, evs[0]);
      PollingRunBalanced(first.state, evs[1..]);
    }
  }

  /**
   * From a freshly constructed page, over any run: no more refetches than stops, no more stops
   * than starts, and at most one start more than stops.
   */
  lemma PollingFromMount(evs: seq<PollingEvent>)
    ensures var r := PollingRun(InitialPolling, evs);
      && multiset(r.effects)[Refetch] <= multiset(r.effects)[StopPolling]
      && multiset(r.effects)[StopPolling] <= multiset(r.effects)[StartPolling(PollingIntervalMs)]
      && multiset(r.effects)[StartPolling(PollingIntervalMs)] <= multiset(r.effects)[StopPolling] + 1
  {
    PollingRunBalanced(InitialPolling, evs);
  }

  /** Running `a` then `b` is running `a + b`: the effects of `a` come first. */
  lemma {:induction false} PollingRunAppend(s: PollingState, a: seq<PollingEvent>, b: seq<PollingEvent>)
    ensures var ra := PollingRun(s, a);
      && PollingRun(s, a + b).state == PollingRun(ra.state, b).state
      && PollingRun(s, a + b).effects == ra.effects + PollingRun(ra.state, b).effects
    decreases |a|
  {
    if a == [] {
      assert a + b == b;
    } else {
      var first := PollingApply(s, a[0]);
      assert (a + b)[0] == a[0] && (a + b)[1..] == a[1..] + b;
      PollingRunAppend(first.state, a[1..], b);
      var ra := PollingRun(first.state, a[1..]);
      var rb := PollingRun(ra.state, b);
      assert PollingRun(s, a + b).effects == first.effects + (ra.effects + rb.effects);
      assert first.effects + (ra.effects + rb.effects) == (first.effects + ra.effects) + rb.effects;
    }
  }

  /**
   * From a freshly constructed page, in order: the calls made up to any event are a prefix of
   * all the calls, and at that point no refetch is without an earlier stop, no stop is without
   * an earlier start, and no start follows another start without a stop in between.
   */
  lemma PollingFromMountInOrder(evs: seq<PollingEvent>)
    ensures forall k | 0 <= k <= |evs| ::
      var p := PollingRun(InitialPolling, evs[..k]).effects;
      && p <= PollingRun(InitialPolling, evs).effects
      && multiset(p)[Refetch] <= multiset(p)[StopPolling]
      && multiset(p)[StopPolling] <= multiset(p)[StartPolling(PollingIntervalMs)]
      && multiset(p)[StartPolling(PollingIntervalMs)] <= multiset(p)[StopPolling] + 1
  {
    forall k | 0 <= k <= |evs|
      ensures var p := PollingRun(InitialPolling, evs[..k]).effects;
        && p <= PollingRun(InitialPolling, evs).effects
        && multiset(p)[Refetch] <= multiset(p)[StopPolling]
        && multiset(p)[StopPolling] <= multiset(p)[StartPolling(PollingIntervalMs)]
        && multiset(p)[StartPolling(PollingIntervalMs)] <= multiset(p)[StopPolling] + 1
    {
      assert evs[..k] + evs[k..] == evs;
      PollingRunAppend(InitialPolling, evs[..k], evs[k..]);
      PollingFromMount(evs[..k]);
    }
  }

  /**
   * A pulse, then silence until the idle timer fires, then another pulse: polling starts,
   * stops, and the second pulse refetches once before polling starts again.
   */
  lemma IdleThenPulseRefetchesOnce()
    ensures PollingRun(InitialPolling, [ActivityPulse, TimerFired(0), ActivityPulse]).effects
      == [StartPolling(PollingIntervalMs), StopPolling, Refetch, StartPolling(PollingIntervalMs)]
    ensures PollingRun(InitialPolling, [ActivityPulse, TimerFired(0)]).state.paused
  {
    var evs := [ActivityPulse, TimerFired(0), ActivityPulse];
    var s1 := HandlePolling(InitialPolling);
    var s2 := IdleTimeout(s1.state, 0);
    assert evs[1..] == [TimerFired(0), ActivityPulse] && evs[1..][1..] == [ActivityPulse];
    assert PollingRun(s2.state, [ActivityPulse]).effects == [Refetch, StartPolling(PollingIntervalMs)];
    assert [ActivityPulse, TimerFired(0)][1..] == [TimerFired(0)];
  }
}
