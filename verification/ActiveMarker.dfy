// The active-run marker of one session, under every interleaving of runs that start, write the marker,
// finish, and settle it (src/flops_agent/engine/runtime.py, engine/execution.py class RunPool).
module ActiveMarker {
  import opened Prelude

  type RunId = nat

  datatype Phase =
    | Starting            // in the pool, marker not written yet
    | Running             // marker written
    | Ended               // concluded, about to settle
    | Checked(seen: RunId) // settling: read `seen` and decided to clear
    | Settled             // left the pool
    | Cancelled           // left the pool without settling

  /** `locked`: the marker is written under the session's database lock, as for every database but the
      in-memory one. `current` is the pool's entry for the session. */
  datatype State = State(
    locked: bool, phase: map<RunId, Phase>, current: Option<RunId>, marker: Option<RunId>, lock: Option<RunId>)
  {
    predicate Live(r: RunId) { r in phase && (phase[r].Starting? || phase[r].Running?) }
    predicate InPoolDone(r: RunId) { r in phase && (phase[r].Ended? || phase[r].Checked?) }
  }

  datatype Action =
    | Start(r: RunId) | Write(r: RunId) | Finish(r: RunId) | Cancel(r: RunId)
    | Check(r: RunId, deemedLive: bool) | Clear(r: RunId)

  predicate Enabled(s: State, a: Action) {
    match a
    case Start(r) => r !in s.phase && (s.current.None? || !s.Live(s.current.value))
    case Write(r) => r in s.phase && s.phase[r].Starting? && s.lock.None?
    case Finish(r) => r in s.phase && s.phase[r].Running?
    case Cancel(r) => r in s.phase && s.phase[r].Running?
    case Check(r, deemedLive) =>
      // a run in the pool is judged by whether it is done; one that left it may be taken for alive
      && r in s.phase && s.phase[r].Ended? && s.lock.None?
      && (s.marker.Some? ==> (s.Live(s.marker.value) ==> deemedLive) && (s.InPoolDone(s.marker.value) ==> !deemedLive))
    case Clear(r) => r in s.phase && s.phase[r].Checked?
  }

  function Do(s: State, a: Action): (t: State)
    requires Enabled(s, a)
  {
    match a
    case Start(r) =>
      if s.locked then s.(phase := s.phase[r := Starting], current := Some(r))
      else s.(phase := s.phase[r := Running], current := Some(r), marker := Some(r))
    case Write(r) => s.(phase := s.phase[r := Running], marker := Some(r))
    case Finish(r) => s.(phase := s.phase[r := Ended])
    case Cancel(r) => s.(phase := s.phase[r := Cancelled])
    case Check(r, deemedLive) =>
      if s.marker.None? || (s.marker.value != r && deemedLive) then s.(phase := s.phase[r := Settled])
      else s.(phase := s.phase[r := Checked(s.marker.value)], lock := Some(r))
    case Clear(r) => s.(phase := s.phase[r := Settled], marker := None, lock := None)
  }

  predicate Init(s: State) { s.phase == map[] && s.current.None? && s.marker.None? && s.lock.None? }

  ghost predicate IsRun(s: State, actions: seq<Action>)
    decreases |actions|
  {
    actions == [] || (Enabled(s, actions[0]) && IsRun(Do(s, actions[0]), actions[1..]))
  }

  ghost function After(s: State, actions: seq<Action>): (t: State)
    requires IsRun(s, actions)
    decreases |actions|
  {
    if actions == [] then s else After(Do(s, actions[0]), actions[1..])
  }

  // ----- Invariant ------------------------------------------------------------------

  /** Holds with or without the lock. */
  ghost predicate PoolInv(s: State) {
    && (forall r: RunId :: s.Live(r) ==> s.current == Some(r))
    && (forall r :: r in s.phase && s.phase[r].Checked? ==>
          s.lock == Some(r) && s.phase[r].seen in s.phase && !s.Live(s.phase[r].seen))
    && (s.marker.Some? ==>
          s.marker.value in s.phase && !s.phase[s.marker.value].Starting? && !s.phase[s.marker.value].Settled?)
  }

  /** A run that wrote the marker and has not ended still has it, and a settling run clears what it read. */
  ghost predicate MarkerInv(s: State) {
    && (forall r :: r in s.phase && s.phase[r].Running? ==> s.marker == Some(r))
    && (forall r :: r in s.phase && s.phase[r].Checked? ==> s.marker == Some(s.phase[r].seen))
  }

  lemma DoKeepsPoolInv(s: State, a: Action)
    requires PoolInv(s) && Enabled(s, a)
    ensures PoolInv(Do(s, a))
  {
  }

  lemma {:induction false} RunKeepsPoolInv(s: State, actions: seq<Action>)
    requires PoolInv(s) && IsRun(s, actions)
    ensures PoolInv(After(s, actions))
    decreases |actions|
  {
    if actions != [] {
      DoKeepsPoolInv(s, actions[0]);
      RunKeepsPoolInv(Do(s, actions[0]), actions[1..]);
    }
  }

  lemma {:induction false} RunKeepsMarkerInv(s: State, actions: seq<Action>)
    requires s.locked && PoolInv(s) && MarkerInv(s) && IsRun(s, actions)
    ensures PoolInv(After(s, actions)) && MarkerInv(After(s, actions)) && After(s, actions).locked
    decreases |actions|
  {
    if actions != [] {
      DoKeepsPoolInv(s, actions[0]);
      RunKeepsMarkerInv(Do(s, actions[0]), actions[1..]);
    }
  }

  // ----- Results --------------------------------------------------------------------

  /** Written under the lock: in every interleaving a live run whose marker was written has it, at most one run
      is live, and no settling run removes the marker of another live run. */
  lemma LiveRunKeepsItsMarker(s: State, actions: seq<Action>, a: Action)
    requires Init(s) && s.locked && IsRun(s, actions) && Enabled(After(s, actions), a)
    ensures var t := After(s, actions);
            && (forall r :: r in t.phase && t.phase[r].Running? ==> t.marker == Some(r))
            && (forall r, q :: t.Live(r) && t.Live(q) ==> r == q)
            && (t.marker.Some? && t.Live(t.marker.value) && !(a.Finish? || a.Cancel?) ==> Do(t, a).marker == t.marker)
  {
    RunKeepsMarkerInv(s, actions);
  }

  /** Only a starting run's write and a settling run's clear ever touch the marker, the first to name that run, the
      second to remove it: a run that ends or is cancelled leaves its marker for a later run to settle. */
  lemma MarkerChangesOnlyBy(s: State, a: Action)
    requires Enabled(s, a) && Do(s, a).marker != s.marker
    ensures a.Write? || (a.Start? && !s.locked) || a.Clear?
    ensures Do(s, a).marker == if a.Clear? then None else Some(a.r)
  {
  }

  /** A run that settles clears its own marker, and any other whose run it takes for dead. */
  lemma SettlingClears(s: State, r: RunId, deemedLive: bool)
    requires Enabled(s, Check(r, deemedLive)) && s.marker.Some? && (s.marker.value == r || !deemedLive)
    ensures Enabled(Do(s, Check(r, deemedLive)), Clear(r))
    ensures Do(Do(s, Check(r, deemedLive)), Clear(r)).marker.None?
  {
  }

  /** With or without the lock: once every run has settled, the marker is gone. */
  lemma SettledSessionHasNoMarker(s: State, actions: seq<Action>)
    requires Init(s) && IsRun(s, actions)
    requires forall r :: r in After(s, actions).phase ==> After(s, actions).phase[r].Settled?
    ensures After(s, actions).marker.None?
  {
    RunKeepsPoolInv(s, actions);
  }

  /** Without the lock: the marker is the live run's unless that run already lost it, and while a run is between
      its read and its clear, a live run still has it. */
  ghost predicate UnlockedInv(s: State) {
    && (forall r: RunId :: s.Live(r) ==> s.phase[r].Running? && (s.marker.Some? ==> s.marker == Some(r)))
    && (forall r, q :: r in s.phase && s.phase[r].Checked? && q in s.phase && s.Live(q) ==> s.marker == Some(q))
  }

  lemma {:induction false} RunKeepsUnlockedInv(s: State, actions: seq<Action>)
    requires !s.locked && PoolInv(s) && UnlockedInv(s) && IsRun(s, actions)
    ensures !After(s, actions).locked && PoolInv(After(s, actions)) && UnlockedInv(After(s, actions))
    decreases |actions|
  {
    if actions != [] {
      DoKeepsPoolInv(s, actions[0]);
      RunKeepsUnlockedInv(Do(s, actions[0]), actions[1..]);
    }
  }

  /** Without the lock a settling run's clear removes a live run's marker exactly when the session has a live run
      by then; none was live when it decided to clear, so that run was started in between. */
  lemma UnlockedClearErasesIff(s: State, actions: seq<Action>, r: RunId)
    requires Init(s) && !s.locked && IsRun(s, actions)
    ensures var t := After(s, actions);
            Enabled(t, Clear(r)) ==>
              (t.marker.Some? && t.Live(t.marker.value) <==> t.current.Some? && t.Live(t.current.value))
    ensures var t := After(s, actions);
            Enabled(t, Check(r, false)) && Do(t, Check(r, false)).phase[r].Checked? ==>
              forall q: RunId :: !t.Live(q)
  {
    RunKeepsUnlockedInv(s, actions);
  }

  lemma RunCons(s: State, a: Action, rest: seq<Action>)
    requires Enabled(s, a) && IsRun(Do(s, a), rest)
    ensures IsRun(s, [a] + rest) && After(s, [a] + rest) == After(Do(s, a), rest)
  {
    assert ([a] + rest)[1..] == rest;
  }

  /** The in-memory database's marker is written without the lock, and a live run can lose it: a run ends and
      reads its own marker; a second run starts and writes its own; the first run's clear removes that one. */
  lemma UnlockedStartLosesMarker() returns (actions: seq<Action>)
    ensures var s := State(false, map[], None, None, None);
            Init(s) && IsRun(s, actions) && After(s, actions).Live(2) && After(s, actions).marker.None?
  {
    var s0 := State(false, map[], None, None, None);
    var s1 := Do(s0, Start(1));
    var s2 := Do(s1, Finish(1));
    var s3 := Do(s2, Check(1, false));
    var s4 := Do(s3, Start(2));
    var none: seq<Action> := [];
    RunCons(s4, Clear(1), none);
    RunCons(s3, Start(2), [Clear(1)] + none);
    RunCons(s2, Check(1, false), [Start(2)] + ([Clear(1)] + none));
    RunCons(s1, Finish(1), [Check(1, false)] + ([Start(2)] + ([Clear(1)] + none)));
    actions := [Start(1)] + ([Finish(1)] + ([Check(1, false)] + ([Start(2)] + ([Clear(1)] + none))));
    RunCons(s0, Start(1), [Finish(1)] + ([Check(1, false)] + ([Start(2)] + ([Clear(1)] + none))));
    var s5 := Do(s4, Clear(1));
    assert s5.Live(2) && s5.marker.None? && After(s5, none) == s5;
  }
}
