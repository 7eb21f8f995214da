// The pending-interaction marker of one session, under every interleaving of runs that suspend, end, settle and leave
// the pool. The guard that clears a left-over marker asks whether the run it names seems alive
// (src/flops_agent/engine/runtime.py). Each access to the marker holds the session's database lock.
module SuspendedMarker {
  import opened Prelude

  type RunId = nat

  /** A run's status, as the store has it. `Dead`: done, stopped or failed. */
  datatype Phase = Running | Suspended | Dead

  /** `pool`: the runs of this process that have not been discarded yet, `current` the pool's entry for the session.
      `marked`: the runs that wrote their marker when they decided to suspend. */
  datatype State = State(
    phase: map<RunId, Phase>, pool: set<RunId>, current: Option<RunId>, marked: set<RunId>, marker: Option<RunId>)

  datatype Action =
    | Start(r: RunId) | Mark(r: RunId) | Answer(r: RunId) | Suspend(r: RunId) | End(r: RunId)
    | Settle(r: RunId) | Discard(r: RunId) | Restart

  /** A run in the pool is alive while it is not done, and a suspended one is done; of any other run the store is
      asked, where only an ended one is dead. */
  predicate SeemsLive(s: State, r: RunId) {
    if r in s.pool then r in s.phase && s.phase[r].Running? else r in s.phase ==> !s.phase[r].Dead?
  }

  predicate AtWork(s: State, r: RunId) { r in s.pool && r in s.phase && s.phase[r].Running? }

  predicate Concluded(s: State, r: RunId) { r in s.pool && r in s.phase && !s.phase[r].Running? }

  predicate Enabled(s: State, a: Action) {
    match a
    case Start(r) => r !in s.phase && (s.current.None? || !AtWork(s, s.current.value))
    case Mark(r) => AtWork(s, r)
    case Answer(r) => AtWork(s, r)
    case Suspend(r) => AtWork(s, r)
    case End(r) => AtWork(s, r)
    case Settle(r) => Concluded(s, r)
    case Discard(r) => Concluded(s, r)
    case Restart => true
  }

  /** The marker after run `r`, which did not suspend, has settled. */
  function Cleared(s: State, r: RunId): (m: Option<RunId>) {
    if s.marker.Some? && s.marker.value != r && SeemsLive(s, s.marker.value) then s.marker else None
  }

  function Do(s: State, a: Action): (t: State)
    requires Enabled(s, a)
  {
    match a
    case Start(r) => s.(phase := s.phase[r := Running], pool := s.pool + {r}, current := Some(r))
    case Mark(r) => s.(marked := s.marked + {r}, marker := Some(r))
    case Answer(r) => s.(marker := None)
    case Suspend(r) => s.(phase := s.phase[r := Suspended])
    case End(r) => s.(phase := s.phase[r := Dead])
    case Settle(r) =>
      if s.phase[r].Dead? then s.(marker := Cleared(s, r))
      else if r in s.marked then s
      else s.(marked := s.marked + {r}, marker := Some(r))
    case Discard(r) => s.(pool := s.pool - {r}, current := if s.current == Some(r) then None else s.current)
    case Restart => s.(pool := {}, current := None)
  }

  ghost predicate IsRun(s: State, actions: seq<Action>)
    decreases |actions|
  {
    actions == [] || (Enabled(s, actions[0]) && IsRun(Do(s, actions[0]), actions[1..]))
  }

  ghost function After(s: State, actions: seq<Action>): (t: State)
    requires IsRun(s, actions)
    decreases |actions|
  {
    if actions == [] then s else After(Do(s, actions[0]), actions[1..])
  }

  /** A run that settles takes a suspended run's marker away iff that run is still in the pool. */
  lemma GuardErasesSuspendedIff(s: State, a: RunId, b: RunId)
    requires Enabled(s, Settle(b)) && s.phase[b].Dead?
    requires s.marker == Some(a) && a in s.phase && s.phase[a].Suspended?
    ensures Do(s, Settle(b)).marker.None? <==> a in s.pool
    ensures a !in s.pool ==> Do(s, Settle(b)) == s
  {
  }

  /** What a run that ended otherwise does to the marker when it settles: it clears its own, and another's exactly if
      that run is in the pool and not running any more, or has left it and ended. A run that crashed keeps it. */
  lemma GuardClearsIff(s: State, a: RunId, b: RunId)
    requires Enabled(s, Settle(b)) && s.phase[b].Dead? && s.marker == Some(a)
    ensures Do(s, Settle(b)).marker.None? <==>
            || a == b
            || (a in s.pool && !(a in s.phase && s.phase[a].Running?))
            || (a !in s.pool && a in s.phase && s.phase[a].Dead?)
    ensures Do(s, Settle(b)).marker.Some? ==> Do(s, Settle(b)) == s
  {
  }

  /** Nobody answers, and no other run leaves a marker of its own. */
  predicate Quiet(s: State, a: Action)
    requires Enabled(s, a)
  {
    !a.Answer? && !a.Mark? && (a.Settle? ==> s.phase[a.r].Dead? || a.r in s.marked)
  }

  ghost predicate IsQuietRun(s: State, actions: seq<Action>)
    decreases |actions|
  {
    actions == [] ||
    (Enabled(s, actions[0]) && Quiet(s, actions[0]) && IsQuietRun(Do(s, actions[0]), actions[1..]))
  }

  /** Once a suspended run has left the pool its marker stays, whatever runs start, end, settle and restart, until it
      is answered or another run suspends. */
  lemma {:induction false} SuspendedKeepsMarker(s: State, actions: seq<Action>, a: RunId)
    requires IsQuietRun(s, actions)
    requires s.marker == Some(a) && a in s.phase && s.phase[a].Suspended? && a !in s.pool
    ensures IsRun(s, actions) && After(s, actions).marker == Some(a)
    decreases |actions|
  {
    if actions != [] { SuspendedKeepsMarker(Do(s, actions[0]), actions[1..], a); }
  }

  /** So a suspension is found again: the run suspends, settles and leaves the pool, whether or not it had left its
      marker itself, and the marker names it after anything quiet that follows. */
  lemma SuspensionIsFound(s: State, r: RunId, actions: seq<Action>)
    requires AtWork(s, r) && (r in s.marked ==> s.marker == Some(r))
    requires IsQuietRun(Do(Do(Do(s, Suspend(r)), Settle(r)), Discard(r)), actions)
    ensures var t := Do(Do(Do(s, Suspend(r)), Settle(r)), Discard(r));
            IsRun(t, actions) && After(t, actions).marker == Some(r)
  {
    SuspendedKeepsMarker(Do(Do(Do(s, Suspend(r)), Settle(r)), Discard(r)), actions, r);
  }

  /** Every run waits until the one before it has left the pool. */
  ghost predicate IsPatientRun(s: State, actions: seq<Action>)
    decreases |actions|
  {
    actions == [] ||
    (Enabled(s, actions[0]) && (actions[0].Start? ==> s.pool == {}) && IsPatientRun(Do(s, actions[0]), actions[1..]))
  }

  predicate OneInPool(s: State) { forall x, y :: x in s.pool && y in s.pool ==> x == y }

  lemma {:induction false} PatientRunKeepsOne(s: State, actions: seq<Action>)
    requires OneInPool(s) && IsPatientRun(s, actions)
    ensures IsRun(s, actions) && OneInPool(After(s, actions))
    decreases |actions|
  {
    if actions != [] { PatientRunKeepsOne(Do(s, actions[0]), actions[1..]); }
  }

  /** Then no settling run ever takes a suspended run's marker away. */
  lemma PatientSettleKeepsSuspended(s: State, actions: seq<Action>, a: RunId, b: RunId)
    requires s.pool == {} && IsPatientRun(s, actions)
    ensures IsRun(s, actions)
    ensures var t := After(s, actions);
            Enabled(t, Settle(b)) && t.phase[b].Dead? ==>
              t.marker == Some(a) && a in t.phase && t.phase[a].Suspended? ==> Do(t, Settle(b)).marker == Some(a)
  {
    PatientRunKeepsOne(s, actions);
  }

  /** Otherwise one can: run 1 suspends, and before it is discarded run 2 starts, ends and settles. */
  lemma QuickRunErasesMarker() returns (s: State, actions: seq<Action>)
    ensures s == State(map[], {}, None, {}, None) && IsRun(s, actions) && |actions| == 6
    ensures var t := After(s, actions); 1 in t.phase && t.phase[1].Suspended? && t.marker.None?
  {
    s := State(map[], {}, None, {}, None);
    actions := [Start(1), Mark(1), Suspend(1), Start(2), End(2), Settle(2)];
    var s1 := Do(s, Start(1));
    var s2 := Do(s1, Mark(1));
    var s3 := Do(s2, Suspend(1));
    var s4 := Do(s3, Start(2));
    var s5 := Do(s4, End(2));
    var s6 := Do(s5, Settle(2));
    assert actions[1..][1..][1..][1..][1..][1..] == [];
    assert IsRun(s5, actions[5..]) && After(s5, actions[5..]) == s6;
    assert actions[4..][1..] == actions[5..] && IsRun(s4, actions[4..]) && After(s4, actions[4..]) == s6;
    assert actions[3..][1..] == actions[4..] && IsRun(s3, actions[3..]) && After(s3, actions[3..]) == s6;
    assert actions[2..][1..] == actions[3..] && IsRun(s2, actions[2..]) && After(s2, actions[2..]) == s6;
    assert actions[1..][1..] == actions[2..] && IsRun(s1, actions[1..]) && After(s1, actions[1..]) == s6;
  }
}
