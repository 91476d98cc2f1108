/**
 * The per-chat event serializer (apps/api/src/chat-event-serializer.ts).
 *
 * `run` is split at its one `await`: everything before it happens in one turn of the
 * event loop (Arrive), the task starts in a later turn once the awaited promise is
 * settled (Start), and the `finally` block runs in one turn when the task settles
 * (Finish). A System is the serializer together with every call ever made to it; a call
 * is named by its arrival number, which also stands for the identity of its promise.
 */
module ChatSerializer {
  import opened Wrappers

  datatype Phase = Waiting | Running | Finished

  /** One call of `run`: its key, the call whose tail promise it awaits, and its phase. */
  datatype Call = Call(key: Option<string>, prev: Option<nat>, phase: Phase)

  datatype System = System(
    calls: seq<Call>,
    tails: map<string, nat>,
    depths: map<string, int>,
    started: seq<nat>)

  datatype Step =
    | Arrive(key: Option<string>)
    | Start(call: nat)
    | Finish(call: nat, threw: bool)

  const EMPTY := System([], map[], map[], [])

  /** `if (!key)`: neither a missing nor an empty key is serialized. */
  predicate Serialized(key: Option<string>) {
    key.Some? && key.value != ""
  }

  /** A call awaits an earlier promise, so chains of tail promises are finite. */
  predicate WellFormed(calls: seq<Call>) {
    forall t :: 0 <= t < |calls| && calls[t].prev.Some? ==> calls[t].prev.value < t
  }

  /** The tail promise of call `t` settles once `t` released it and the tail before it settled. */
  predicate TailSettled(calls: seq<Call>, t: nat)
    requires WellFormed(calls) && t < |calls|
    decreases t
  {
    calls[t].phase.Finished? && (calls[t].prev.Some? ==> TailSettled(calls, calls[t].prev.value))
  }

  predicate CanStart(s: System, t: nat)
    requires WellFormed(s.calls)
  {
    && t < |s.calls|
    && s.calls[t].phase.Waiting?
    && (s.calls[t].prev.Some? ==> TailSettled(s.calls, s.calls[t].prev.value))
  }

  predicate Enabled(s: System, step: Step) {
    && WellFormed(s.calls)
    && match step
       case Arrive(_) => true
       case Start(t) => CanStart(s, t)
       case Finish(t, _) => t < |s.calls| && s.calls[t].phase.Running?
  }

  /** `(this.depths.get(key) ?? 1) - 1`, kept only while positive. */
  function LeaveDepth(depths: map<string, int>, key: string): map<string, int> {
    var remaining := (if key in depths then depths[key] else 1) - 1;
    if remaining > 0 then depths[key := remaining] else depths - {key}
  }

  function Apply(s: System, step: Step): System
    requires Enabled(s, step)
  {
    match step
    case Arrive(key) =>
      var t := |s.calls|;
      if Serialized(key) then
        var k := key.value;
        var prev := if k in s.tails then Some(s.tails[k]) else None;
        System(
          s.calls + [Call(key, prev, Waiting)],
          s.tails[k := t],
          s.depths[k := (if k in s.depths then s.depths[k] else 0) + 1],
          s.started)
      else
        s.(calls := s.calls + [Call(key, None, Running)], started := s.started + [t])
    case Start(t) =>
      s.(calls := s.calls[t := s.calls[t].(phase := Running)], started := s.started + [t])
    case Finish(t, _) =>
      var calls := s.calls[t := s.calls[t].(phase := Finished)];
      if Serialized(s.calls[t].key) then
        var k := s.calls[t].key.value;
        System(
          calls,
          if k in s.tails && s.tails[k] == t then s.tails - {k} else s.tails,
          LeaveDepth(s.depths, k),
          s.started)
      else
        s.(calls := calls)
  }

  predicate IsRun(s: System, steps: seq<Step>)
    decreases |steps|
  {
    steps == [] || (Enabled(s, steps[0]) && IsRun(Apply(s, steps[0]), steps[1..]))
  }

  function After(s: System, steps: seq<Step>): System
    requires IsRun(s, steps)
    decreases |steps|
  {
    if steps == [] then s else After(Apply(s, steps[0]), steps[1..])
  }

  ghost predicate Reachable(s: System) {
    exists steps :: IsRun(EMPTY, steps) && After(EMPTY, steps) == s
  }

  // ---- What a reachable system looks like ----

  /** Call `i` arrived before call `j` under the same serialized key. */
  predicate Earlier(s: System, i: nat, j: nat) {
    i < j < |s.calls| && s.calls[i].key == s.calls[j].key && Serialized(s.calls[i].key)
  }

  predicate IsFinished(s: System, t: nat) {
    t < |s.calls| && s.calls[t].phase.Finished?
  }

  predicate IsWaiting(s: System, t: nat) {
    t < |s.calls| && s.calls[t].phase.Waiting?
  }

  /** The calls of a key that have not finished, running or not. */
  function Unfinished(calls: seq<Call>, key: string): set<nat> {
    set t | 0 <= t < |calls| && calls[t].key == Some(key) && !calls[t].phase.Finished?
  }

  /** A call is past Waiting only when all earlier calls of its key are done. */
  ghost predicate Fifo(s: System) {
    forall i: nat, j: nat :: Earlier(s, i, j) && !IsWaiting(s, j) ==> IsFinished(s, i)
  }

  /** A call awaits an earlier call of its key, and that one is done once the call starts. */
  ghost predicate PrevIsEarlier(s: System) {
    forall t: nat :: t < |s.calls| && s.calls[t].prev.Some? ==>
      && Earlier(s, s.calls[t].prev.value, t)
      && (IsWaiting(s, t) || IsFinished(s, s.calls[t].prev.value))
  }

  /** No earlier unfinished call of the key escapes the call that is awaited. */
  ghost predicate PrevIsLatest(s: System) {
    forall i: nat, t: nat :: Earlier(s, i, t) ==>
      if s.calls[t].prev.Some? then i <= s.calls[t].prev.value else IsFinished(s, i)
  }

  /**
   * The two maps hold a key exactly while it has unfinished calls; the depth counts them
   * and the tail is that of the last call.
   */
  ghost predicate KeyExact(s: System, k: string) {
    if Unfinished(s.calls, k) == {} || k == "" then
      k !in s.depths && k !in s.tails
    else
      && k in s.depths && s.depths[k] == |Unfinished(s.calls, k)|
      && k in s.tails && s.tails[k] in Unfinished(s.calls, k)
      && (forall t :: t in Unfinished(s.calls, k) ==> t <= s.tails[k])
  }

  ghost predicate MapsExact(s: System) {
    forall k :: KeyExact(s, k)
  }

  /** `started` lists every call past Waiting once. */
  ghost predicate StartedOnce(s: System) {
    && (forall t: nat :: t in s.started <==> t < |s.calls| && !IsWaiting(s, t))
    && (forall a: nat, b: nat :: a < b < |s.started| ==> s.started[a] != s.started[b])
  }

  /** Tasks of one key start in the order in which their calls arrived. */
  ghost predicate StartsInArrivalOrder(s: System) {
    forall a: nat, b: nat :: a < b < |s.started| ==> !Earlier(s, s.started[b], s.started[a])
  }

  ghost predicate Inv(s: System) {
    && PrevIsEarlier(s)
    && PrevIsLatest(s)
    && Fifo(s)
    && MapsExact(s)
    && StartedOnce(s)
    && StartsInArrivalOrder(s)
  }

  /** A finished call's tail promise is settled: everything it waited for is finished too. */
  lemma {:induction false} FinishedIsSettled(s: System, t: nat)
    requires PrevIsEarlier(s) && IsFinished(s, t)
    ensures WellFormed(s.calls) && TailSettled(s.calls, t)
    decreases t
  {
    assert WellFormed(s.calls);
    if s.calls[t].prev.Some? {
      FinishedIsSettled(s, s.calls[t].prev.value);
    }
  }

  lemma UnfinishedAppend(calls: seq<Call>, call: Call, k: string)
    requires !call.phase.Finished?
    ensures |calls| !in Unfinished(calls, k)
    ensures Unfinished(calls + [call], k)
         == Unfinished(calls, k) + if call.key == Some(k) then {|calls|} else {}
  {
  }

  lemma UnfinishedUpdate(calls: seq<Call>, t: nat, phase: Phase, k: string)
    requires t < |calls| && !calls[t].phase.Finished?
    ensures Unfinished(calls[t := calls[t].(phase := phase)], k)
         == Unfinished(calls, k) - if phase.Finished? && calls[t].key == Some(k) then {t} else {}
  {
  }

  lemma ArriveKeepsKeyExact(s: System, key: Option<string>, k: string)
    requires KeyExact(s, k) && Enabled(s, Arrive(key))
    ensures KeyExact(Apply(s, Arrive(key)), k)
  {
    var s' := Apply(s, Arrive(key));
    UnfinishedAppend(s.calls, s'.calls[|s.calls|], k);
    if Serialized(key) && key.value == k {
      assert |Unfinished(s'.calls, k)| == |Unfinished(s.calls, k)| + 1;
    }
  }

  /** The stored tail is that of the last call; without one, every call of the key is done. */
  lemma LastOfKey(s: System, k: string, i: nat)
    requires Fifo(s) && KeyExact(s, k) && k != "" && i < |s.calls| && s.calls[i].key == Some(k)
    ensures if k in s.tails then i <= s.tails[k] else IsFinished(s, i)
  {
    assert IsFinished(s, i) || i in Unfinished(s.calls, k);
    assert k in s.tails && IsFinished(s, i) ==> !Earlier(s, s.tails[k], i);
  }

  lemma ArriveKeepsPrev(s: System, key: Option<string>)
    requires Inv(s) && Enabled(s, Arrive(key))
    ensures PrevIsEarlier(Apply(s, Arrive(key))) && PrevIsLatest(Apply(s, Arrive(key)))
  {
    var s' := Apply(s, Arrive(key));
    var n := |s.calls|;
    assert forall t: nat :: t < n ==> s'.calls[t] == s.calls[t];
    if Serialized(key) {
      assert KeyExact(s, key.value);
    }
    forall i: nat, t: nat | Earlier(s', i, t)
      ensures if s'.calls[t].prev.Some? then i <= s'.calls[t].prev.value else IsFinished(s', i)
    {
      if t < n {
        assert Earlier(s, i, t);
      } else {
        LastOfKey(s, key.value, i);
      }
    }
  }

  lemma ArriveKeepsOrder(s: System, key: Option<string>)
    requires Fifo(s) && StartedOnce(s) && StartsInArrivalOrder(s) && Enabled(s, Arrive(key))
    ensures Fifo(Apply(s, Arrive(key))) && StartedOnce(Apply(s, Arrive(key)))
    ensures StartsInArrivalOrder(Apply(s, Arrive(key)))
  {
    var s' := Apply(s, Arrive(key));
    var n := |s.calls|;
    assert forall t: nat :: t < n ==> s'.calls[t] == s.calls[t];
    assert n !in s.started;
    assert forall a: nat :: a < |s.started| ==> s.started[a] in s.started;
    assert forall t: nat :: t in s'.started <==> t < |s'.calls| && !IsWaiting(s', t);
    forall i: nat, j: nat | Earlier(s', i, j) && !IsWaiting(s', j) ensures IsFinished(s', i) {
      assert Earlier(s, i, j);
    }
  }

  lemma ArriveKeepsInv(s: System, key: Option<string>)
    requires Inv(s) && Enabled(s, Arrive(key))
    ensures Inv(Apply(s, Arrive(key)))
  {
    ArriveKeepsPrev(s, key);
    ArriveKeepsOrder(s, key);
    forall k ensures KeyExact(Apply(s, Arrive(key)), k) {
      assert KeyExact(s, k);
      ArriveKeepsKeyExact(s, key, k);
    }
  }

  lemma StartKeepsInv(s: System, t: nat)
    requires Inv(s) && Enabled(s, Start(t))
    ensures Inv(Apply(s, Start(t)))
  {
    var s' := Apply(s, Start(t));
    assert forall u: nat :: u < |s.calls| && u != t ==> s'.calls[u] == s.calls[u];
    assert forall i: nat, j: nat :: Earlier(s', i, j) == Earlier(s, i, j);
    assert forall i: nat :: IsFinished(s', i) == IsFinished(s, i);
    forall k ensures KeyExact(s', k) {
      assert KeyExact(s, k);
      UnfinishedUpdate(s.calls, t, Running, k);
    }
    forall i: nat | Earlier(s, i, t) ensures IsFinished(s, i) {
      if s.calls[t].prev.Some? {
        var p := s.calls[t].prev.value;
        assert IsFinished(s, p);
        assert i == p || Earlier(s, i, p);
      }
    }
    assert PrevIsEarlier(s');
    assert Fifo(s');
    assert IsWaiting(s, t) && t !in s.started;
    assert forall a: nat :: a < |s.started| ==> s.started[a] in s.started;
    assert StartedOnce(s');
  }

  /** Leaving drops the stored tail exactly when the leaving call is the last one left. */
  lemma FinishKeepsKeyExact(s: System, t: nat, threw: bool, k: string)
    requires Fifo(s) && KeyExact(s, k) && Enabled(s, Finish(t, threw))
    ensures KeyExact(Apply(s, Finish(t, threw)), k)
  {
    var before, after := Unfinished(s.calls, k), Unfinished(Apply(s, Finish(t, threw)).calls, k);
    UnfinishedUpdate(s.calls, t, Finished, k);
    if s.calls[t].key == Some(k) && k != "" {
      assert t in before && after == before - {t} && |after| == |before| - 1;
      if s.tails[k] == t {
        forall u | u in before ensures u == t {
          assert u == t || Earlier(s, u, t);
        }
        assert after == {};
      } else {
        assert s.tails[k] in after;
      }
    }
  }

  lemma FinishKeepsInv(s: System, t: nat, threw: bool)
    requires Inv(s) && Enabled(s, Finish(t, threw))
    ensures Inv(Apply(s, Finish(t, threw)))
  {
    var s' := Apply(s, Finish(t, threw));
    assert forall u: nat :: u < |s.calls| && u != t ==> s'.calls[u] == s.calls[u];
    assert forall i: nat, j: nat :: Earlier(s', i, j) == Earlier(s, i, j);
    assert forall i: nat :: IsFinished(s', i) == (i == t || IsFinished(s, i));
    assert forall i: nat :: IsWaiting(s', i) == IsWaiting(s, i);
    forall k ensures KeyExact(s', k) {
      FinishKeepsKeyExact(s, t, threw, k);
    }
  }

  lemma StepKeepsInv(s: System, step: Step)
    requires Inv(s) && Enabled(s, step)
    ensures Inv(Apply(s, step))
  {
    match step
    case Arrive(key) => ArriveKeepsInv(s, key);
    case Start(t) => StartKeepsInv(s, t);
    case Finish(t, threw) => FinishKeepsInv(s, t, threw);
  }

  lemma {:induction false} RunKeepsInv(s: System, steps: seq<Step>)
    requires Inv(s) && IsRun(s, steps)
    ensures Inv(After(s, steps))
    decreases |steps|
  {
    if steps != [] {
      StepKeepsInv(s, steps[0]);
      RunKeepsInv(Apply(s, steps[0]), steps[1..]);
    }
  }

  lemma ReachableInv(s: System)
    requires Reachable(s)
    ensures Inv(s)
  {
    var steps :| IsRun(EMPTY, steps) && After(EMPTY, steps) == s;
    RunKeepsInv(EMPTY, steps);
  }

  // ---- What every run guarantees ----

  ghost predicate AtMostOneRuns(s: System) {
    forall i: nat, j: nat ::
      Earlier(s, i, j) ==> !(s.calls[i].phase.Running? && s.calls[j].phase.Running?)
  }

  lemma MutualExclusionAndOrder(s: System)
    requires Reachable(s)
    ensures AtMostOneRuns(s)
    ensures StartsInArrivalOrder(s)
    ensures forall i: nat, j: nat :: Earlier(s, i, j) && j in s.started ==> IsFinished(s, i)
  {
    ReachableInv(s);
  }

  /** `getQueueDepth`. */
  function QueueDepth(s: System, key: string): int {
    if key in s.depths then s.depths[key] else 0
  }

  lemma DepthsCountUnfinishedCalls(s: System, key: string)
    requires Reachable(s)
    ensures key != "" ==> QueueDepth(s, key) == |Unfinished(s.calls, key)|
    ensures key == "" ==> QueueDepth(s, key) == 0
    ensures key in s.tails <==> key != "" && Unfinished(s.calls, key) != {}
    ensures key in s.depths <==> key in s.tails
  {
    ReachableInv(s);
    assert KeyExact(s, key);
  }

  lemma MapsEmptyWhenIdle(s: System)
    requires Reachable(s)
    ensures (s.tails == map[] && s.depths == map[])
       <==> (forall t: nat :: t < |s.calls| && Serialized(s.calls[t].key) ==> IsFinished(s, t))
  {
    ReachableInv(s);
    if forall t: nat :: t < |s.calls| && Serialized(s.calls[t].key) ==> IsFinished(s, t) {
      forall k ensures k !in s.tails && k !in s.depths {
        assert KeyExact(s, k);
      }
    }
    if s.tails == map[] && s.depths == map[] {
      forall t: nat | t < |s.calls| && Serialized(s.calls[t].key) ensures IsFinished(s, t) {
        assert KeyExact(s, s.calls[t].key.value);
        assert t !in Unfinished(s.calls, s.calls[t].key.value);
      }
    }
  }

  /** `t` is the call of its key whose turn it is. */
  ghost predicate IsNext(s: System, key: string, t: nat) {
    t in Unfinished(s.calls, key) && forall u :: u in Unfinished(s.calls, key) ==> t <= u
  }

  lemma {:induction false} LeastExists(calls: set<nat>) returns (t: nat)
    requires calls != {}
    ensures t in calls && forall u :: u in calls ==> t <= u
    decreases |calls|
  {
    var any :| any in calls;
    var below := set v | v in calls && v < any;
    if below == {} {
      t := any;
      assert forall u :: u in calls && u < any ==> u in below;
    } else {
      assert any !in below && below < calls;
      SubsetIsSmaller(below, calls);
      t := LeastExists(below);
      assert forall u :: u in calls && u < t ==> u in below;
    }
  }

  lemma SubsetIsSmaller(a: set<nat>, b: set<nat>)
    requires a < b
    ensures |a| < |b|
  {
    assert b == a + (b - a);
  }

  /**
   * No deadlock: a key with unfinished calls has one whose turn it is, which runs or can start
   * at once, however its predecessors ended; all the others wait and cannot start.
   */
  lemma NoDeadlock(s: System, key: string) returns (t: nat)
    requires Reachable(s) && key != "" && Unfinished(s.calls, key) != {}
    ensures WellFormed(s.calls)
    ensures IsNext(s, key, t)
    ensures s.calls[t].phase.Running? || CanStart(s, t)
    ensures forall u :: u in Unfinished(s.calls, key) && u != t ==> IsWaiting(s, u) && !CanStart(s, u)
  {
    ReachableInv(s);
    t := LeastExists(Unfinished(s.calls, key));
    var prev := s.calls[t].prev;
    if prev.Some? {
      assert Earlier(s, prev.value, t) && prev.value !in Unfinished(s.calls, key);
      FinishedIsSettled(s, prev.value);
    }
    forall u | u in Unfinished(s.calls, key) && u != t
      ensures IsWaiting(s, u) && !CanStart(s, u)
    {
      assert Earlier(s, t, u) && !IsFinished(s, t);
      assert s.calls[u].prev.Some?;
      var p := s.calls[u].prev.value;
      if t < p {
        assert Earlier(s, p, u) && Earlier(s, t, p);
      }
      assert !IsFinished(s, p);
    }
  }

  /** Steps that only let existing calls go on; `throws` says which tasks end with an exception. */
  predicate GoesOn(steps: seq<Step>, throws: nat -> bool) {
    forall i :: 0 <= i < |steps| ==>
      steps[i].Start? || (steps[i].Finish? && steps[i].threw == throws(steps[i].call))
  }

  function Alive(s: System): set<nat> {
    set t | 0 <= t < |s.calls| && !s.calls[t].phase.Finished?
  }

  function Parked(s: System): set<nat> {
    set t | 0 <= t < |s.calls| && s.calls[t].phase.Waiting?
  }

  lemma ExtendReachable(s: System, step: Step)
    requires Reachable(s) && Enabled(s, step)
    ensures Reachable(Apply(s, step))
  {
    var steps :| IsRun(EMPTY, steps) && After(EMPTY, steps) == s;
    RunSnoc(EMPTY, steps, step);
  }

  lemma {:induction false} RunSnoc(s: System, steps: seq<Step>, step: Step)
    requires IsRun(s, steps) && Enabled(After(s, steps), step)
    ensures IsRun(s, steps + [step]) && After(s, steps + [step]) == Apply(After(s, steps), step)
    decreases |steps|
  {
    if steps == [] {
      assert steps + [step] == [step];
      assert [step][1..] == [];
    } else {
      RunSnoc(Apply(s, steps[0]), steps[1..], step);
      assert (steps + [step])[1..] == steps[1..] + [step];
    }
  }

  /** Some call can start or end whenever one is alive. */
  lemma SomeCallGoesOn(s: System) returns (t: nat)
    requires Reachable(s) && Alive(s) != {}
    ensures WellFormed(s.calls)
    ensures t in Alive(s) && (s.calls[t].phase.Running? || CanStart(s, t))
  {
    ReachableInv(s);
    assert WellFormed(s.calls);
    t :| t in Alive(s);
    if Serialized(s.calls[t].key) {
      assert t in Unfinished(s.calls, s.calls[t].key.value);
      t := NoDeadlock(s, s.calls[t].key.value);
    }
  }

  lemma NextStep(s: System, throws: nat -> bool) returns (step: Step)
    requires Reachable(s) && Alive(s) != {}
    ensures Enabled(s, step) && GoesOn([step], throws)
    ensures |Alive(Apply(s, step))| + |Parked(Apply(s, step))| < |Alive(s)| + |Parked(s)|
  {
    var t := SomeCallGoesOn(s);
    step := if s.calls[t].phase.Waiting? then Start(t) else Finish(t, throws(t));
    var s' := Apply(s, step);
    assert forall u: nat :: u < |s.calls| && u != t ==> s'.calls[u] == s.calls[u];
    if s.calls[t].phase.Waiting? {
      assert Alive(s') == Alive(s);
      assert Parked(s') == Parked(s) - {t};
    } else {
      assert Alive(s') == Alive(s) - {t};
      assert Parked(s') == Parked(s);
    }
  }

  /**
   * From every reachable state all calls can run to their end, whichever tasks throw,
   * and the serializer then holds nothing.
   */
  lemma {:induction false} Drains(s: System, throws: nat -> bool) returns (steps: seq<Step>)
    requires Reachable(s)
    ensures IsRun(s, steps) && GoesOn(steps, throws)
    ensures Alive(After(s, steps)) == {}
    ensures After(s, steps).tails == map[] && After(s, steps).depths == map[]
    decreases |Alive(s)| + |Parked(s)|
  {
    if Alive(s) == {} {
      steps := [];
      forall t: nat | t < |s.calls| ensures IsFinished(s, t) {
        assert t !in Alive(s);
      }
      MapsEmptyWhenIdle(s);
    } else {
      var step := NextStep(s, throws);
      ExtendReachable(s, step);
      var rest := Drains(Apply(s, step), throws);
      steps := [step] + rest;
      assert steps[1..] == rest;
    }
  }

  /** `n` is the number of keys that have an unfinished call. */
  ghost predicate CountsActiveKeys(n: nat, s: System) {
    exists keys: set<string> ::
      |keys| == n && (forall k :: k in keys <==> k != "" && Unfinished(s.calls, k) != {})
  }

  // ---- The class ----

  /** What a suspended `run` remembers: its key, the tail it awaits and the tail it created. */
  datatype Frame = Frame(key: Option<string>, previousTail: Option<nat>, nextTail: nat)

  /**
   * The serializer object. A promise is named by the number of the call that created it;
   * `sys` is the abstract system the two maps belong to.
   */
  class ChatEventSerializer {
    var tails: map<string, nat>
    var depths: map<string, int>
    var created: nat
    ghost var sys: System

    ghost predicate Valid()
      reads this
    {
      && Reachable(sys)
      && tails == sys.tails
      && depths == sys.depths
      && created == |sys.calls|
    }

    constructor ()
      ensures Valid() && sys == EMPTY
    {
      tails, depths, created := map[], map[], 0;
      sys := EMPTY;
      new;
      assert IsRun(EMPTY, []) && After(EMPTY, []) == EMPTY;
    }

    /** `run` up to its `await`: join the end of the key's chain. */
    method Enter(key: Option<string>) returns (frame: Frame)
      requires Valid()
      modifies this
      ensures Valid()
      ensures Enabled(old(sys), Arrive(key)) && sys == Apply(old(sys), Arrive(key))
      ensures frame.key == key && frame.nextTail == |old(sys).calls|
      ensures frame.previousTail == sys.calls[frame.nextTail].prev
    {
      ReachableInv(sys);
      frame := Frame(key, None, created);
      ExtendReachable(sys, Arrive(key));
      ghost var was := sys;
      sys := Apply(sys, Arrive(key));
      created := created + 1;
      if key.None? || key.value == "" {
        return;
      }
      frame := frame.(previousTail := if key.value in tails then Some(tails[key.value]) else None);
      tails := tails[key.value := frame.nextTail];
      depths := depths[key.value := (if key.value in depths then depths[key.value] else 0) + 1];
    }

    /** The awaited promise has settled and the task starts. */
    ghost method Resume(frame: Frame)
      requires Valid()
      requires Enabled(sys, Start(frame.nextTail))
      modifies this`sys
      ensures Valid()
      ensures sys == Apply(old(sys), Start(frame.nextTail))
      ensures forall t: nat :: Earlier(sys, t, frame.nextTail) ==> IsFinished(sys, t)
    {
      ExtendReachable(sys, Start(frame.nextTail));
      sys := Apply(sys, Start(frame.nextTail));
      ReachableInv(sys);
    }

    /** The `finally` block, reached whether the task returned or threw. */
    method Leave(frame: Frame, threw: bool)
      requires Valid()
      requires Enabled(sys, Finish(frame.nextTail, threw))
      requires sys.calls[frame.nextTail].key == frame.key
      modifies this
      ensures Valid()
      ensures sys == Apply(old(sys), Finish(frame.nextTail, threw))
    {
      ExtendReachable(sys, Finish(frame.nextTail, threw));
      sys := Apply(sys, Finish(frame.nextTail, threw));
      if frame.key.None? || frame.key.value == "" {
        return;
      }
      var key := frame.key.value;
      var remainingDepth := (if key in depths then depths[key] else 1) - 1;
      if remainingDepth > 0 {
        depths := depths[key := remainingDepth];
      } else {
        depths := depths - {key};
      }
      if key in tails && tails[key] == frame.nextTail {
        tails := tails - {key};
      }
    }

    method GetQueueDepth(key: string) returns (depth: int)
      requires Valid()
      ensures depth == if key == "" then 0 else |Unfinished(sys.calls, key)|
    {
      DepthsCountUnfinishedCalls(sys, key);
      depth := if key in depths then depths[key] else 0;
    }

    method ActiveKeyCount() returns (n: nat)
      requires Valid()
      ensures CountsActiveKeys(n, sys)
    {
      n := |tails.Keys|;
      forall k ensures k in tails.Keys <==> k != "" && Unfinished(sys.calls, k) != {} {
        DepthsCountUnfinishedCalls(sys, k);
      }
    }
  }
}
