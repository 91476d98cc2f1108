/**
 * How many waiting acks of a contract become visible (apps/api/src/server.ts:1488-1551): the
 * chat drops a second message with the uuid of the contract while it remembers the first, and
 * a delivery that reads a recorded ack sends none.
 */
module WaitingAcks {
  import opened Wrappers
  import opened MentionOrder
  import opened MentionRouting
  import opened WaitingContracts

  function CountOf(acks: seq<VisibleAck>, id: nat): nat {
    if acks == [] then 0
    else CountOf(acks[..|acks| - 1], id) + (if acks[|acks| - 1].id == id then 1 else 0)
  }

  lemma CountAppend(acks: seq<VisibleAck>, ack: VisibleAck, id: nat)
    ensures CountOf(acks + [ack], id) == CountOf(acks, id) + (if ack.id == id then 1 else 0)
  {
    assert (acks + [ack])[..|acks|] == acks;
  }

  lemma {:induction false} CountZero(acks: seq<VisibleAck>, id: nat)
    ensures CountOf(acks, id) == 0 <==> forall i :: 0 <= i < |acks| ==> acks[i].id != id
  {
    if acks != [] {
      CountZero(acks[..|acks| - 1], id);
    }
  }

  /** A call of a delivery that reaches the chat with the uuid of this contract. */
  predicate SendsFor(w: World, step: Step, id: nat)
    requires Enabled(w, step)
  {
    step.Own? && step.call.SendAck? && step.call.outcome != Lost && w.deliveries[step.d].pc.id == id
  }

  /** When the sends for a contract reach the chat, in order. */
  function Sends(window: nat, w: World, steps: seq<Step>, id: nat): seq<int>
    requires IsRun(window, w, steps)
    decreases |steps|
  {
    if steps == [] then []
    else
      (if SendsFor(w, steps[0], id) then [w.now] else [])
      + Sends(window, Apply(window, w, steps[0]), steps[1..], id)
  }

  ghost predicate Apart(window: nat, sends: seq<int>) {
    exists i, j :: 0 <= i < j < |sends| && sends[j] - sends[i] > window
  }

  ghost predicate LaterThan(sends: seq<int>, t: int) {
    exists i :: 0 <= i < |sends| && sends[i] > t
  }

  lemma {:induction false} SendsAreLater(window: nat, w: World, steps: seq<Step>, id: nat)
    requires IsRun(window, w, steps)
    ensures forall i :: 0 <= i < |Sends(window, w, steps, id)| ==> Sends(window, w, steps, id)[i] >= w.now
    decreases |steps|
  {
    if steps != [] {
      StepGrows(window, w, steps[0]);
      SendsAreLater(window, Apply(window, w, steps[0]), steps[1..], id);
    }
  }

  /** A step shows one more ack of the contract exactly if it sends and the chat knows none. */
  lemma StepCounts(window: nat, w: World, step: Step, id: nat)
    requires Enabled(w, step)
    ensures CountOf(Apply(window, w, step).acks, id) ==
      CountOf(w.acks, id) + (if SendsFor(w, step, id) && LastKnown(window, w.acks, id, w.now).None? then 1 else 0)
  {
    if step.Own? && step.call.SendAck? && step.call.outcome != Lost {
      CountAppend(w.acks, VisibleAck(w.deliveries[step.d].pc.id, w.now), id);
    }
  }

  lemma {:induction false} CountStays(window: nat, w: World, steps: seq<Step>, id: nat)
    requires IsRun(window, w, steps)
    ensures CountOf(After(window, w, steps).acks, id) >= CountOf(w.acks, id)
    decreases |steps|
  {
    if steps != [] {
      StepCounts(window, w, steps[0], id);
      CountStays(window, Apply(window, w, steps[0]), steps[1..], id);
    }
  }

  /** The one ack of a contract. */
  predicate OnlyAck(acks: seq<VisibleAck>, id: nat, i: nat) {
    && i < |acks| && acks[i].id == id
    && forall j :: 0 <= j < |acks| && acks[j].id == id ==> j == i
  }

  lemma OnlyAckStays(window: nat, w: World, step: Step, id: nat, i: nat)
    requires Enabled(w, step) && OnlyAck(w.acks, id, i)
    requires !(SendsFor(w, step, id) && w.now - w.acks[i].at > window)
    ensures OnlyAck(Apply(window, w, step).acks, id, i) && Apply(window, w, step).acks[i] == w.acks[i]
  {
    if SendsFor(w, step, id) {
      assert IsKnown(window, w.acks[i], id, w.now);
    }
  }

  lemma {:induction false} OnlyAckCounts(acks: seq<VisibleAck>, id: nat, i: nat)
    requires OnlyAck(acks, id, i)
    ensures CountOf(acks, id) == 1
    decreases |acks|
  {
    var n := |acks| - 1;
    if i == n {
      CountZero(acks[..n], id);
    } else {
      OnlyAckCounts(acks[..n], id, i);
    }
  }

  /** With one ack there, a second shows up exactly if some send comes after the chat forgot it. */
  lemma {:induction false} SecondAckExactly(window: nat, w: World, steps: seq<Step>, id: nat, i: nat)
    requires IsRun(window, w, steps) && OnlyAck(w.acks, id, i)
    ensures CountOf(After(window, w, steps).acks, id) >= 2 <==>
      LaterThan(Sends(window, w, steps, id), w.acks[i].at + window)
    decreases |steps|
  {
    if steps == [] {
      OnlyAckCounts(w.acks, id, i);
    } else {
      var next := Apply(window, w, steps[0]);
      var rest := Sends(window, next, steps[1..], id);
      var sends := Sends(window, w, steps, id);
      if SendsFor(w, steps[0], id) && w.now - w.acks[i].at > window {
        OnlyAckCounts(w.acks, id, i);
        assert forall j :: 0 <= j < |w.acks| ==> !IsKnown(window, w.acks[j], id, w.now);
        StepCounts(window, w, steps[0], id);
        CountStays(window, next, steps[1..], id);
        assert sends[0] == w.now;
      } else {
        OnlyAckStays(window, w, steps[0], id, i);
        SecondAckExactly(window, next, steps[1..], id, i);
        SameLaterThan(if SendsFor(w, steps[0], id) then [w.now] else [], rest, w.acks[i].at + window);
      }
    }
  }

  lemma SameLaterThan(front: seq<int>, rest: seq<int>, t: int)
    requires forall i :: 0 <= i < |front| ==> front[i] <= t
    ensures LaterThan(front + rest, t) <==> LaterThan(rest, t)
  {
    if i :| 0 <= i < |rest| && rest[i] > t {
      assert (front + rest)[|front| + i] > t;
    }
  }

  /** Among sends that come later, two are apart from each other exactly if one is apart from the first. */
  lemma ApartFromTheFirst(window: nat, first: int, rest: seq<int>)
    requires forall i :: 0 <= i < |rest| ==> rest[i] >= first
    ensures Apart(window, [first] + rest) <==> LaterThan(rest, first + window)
  {
    var sends := [first] + rest;
    if i :| 0 <= i < |rest| && rest[i] > first + window {
      assert sends[i + 1] - sends[0] > window;
    }
    if i, j :| 0 <= i < j < |sends| && sends[j] - sends[i] > window {
      assert rest[j - 1] > first + window;
    }
  }

  /** The first send of a contract. */
  lemma FirstSendCounts(window: nat, w: World, steps: seq<Step>, id: nat)
    requires IsRun(window, w, steps) && steps != [] && CountOf(w.acks, id) == 0 && SendsFor(w, steps[0], id)
    ensures CountOf(After(window, w, steps).acks, id) >= 2 <==> Apart(window, Sends(window, w, steps, id))
  {
    var next := Apply(window, w, steps[0]);
    CountZero(w.acks, id);
    assert next.acks == w.acks + [VisibleAck(id, w.now)];
    SendsAreLater(window, next, steps[1..], id);
    SecondAckExactly(window, next, steps[1..], id, |w.acks|);
    ApartFromTheFirst(window, w.now, Sends(window, next, steps[1..], id));
  }

  lemma {:induction false} AcksExactly(window: nat, w: World, steps: seq<Step>, id: nat)
    requires IsRun(window, w, steps) && CountOf(w.acks, id) == 0
    ensures CountOf(After(window, w, steps).acks, id) >= 2 <==> Apart(window, Sends(window, w, steps, id))
    decreases |steps|
  {
    if steps == [] {
      assert !Apart(window, []);
    } else if SendsFor(w, steps[0], id) {
      FirstSendCounts(window, w, steps, id);
    } else {
      var next := Apply(window, w, steps[0]);
      StepCounts(window, w, steps[0], id);
      AcksExactly(window, next, steps[1..], id);
      assert Sends(window, w, steps, id) == Sends(window, next, steps[1..], id);
    }
  }

  /**
   * Over every run a contract has two visible acks exactly if two of its sends reach the chat
   * further apart than the chat remembers a uuid.
   */
  lemma TwoAcksExactlyIfSendsAreApart(window: nat, now: int, steps: seq<Step>, id: nat)
    requires IsRun(window, Initial(now), steps)
    ensures CountOf(After(window, Initial(now), steps).acks, id) >= 2 <==>
      Apart(window, Sends(window, Initial(now), steps, id))
  {
    AcksExactly(window, Initial(now), steps, id);
  }

  // ---- What the recorded ack is for ----

  /** A deferred delivery between its read and its send. */
  predicate IsSender(m: Delivery, id: nat) {
    (m.pc.AtLookup? || m.pc.AtBind? || m.pc.AtAck?) && m.pc.id == id
  }

  /** Whoever is about to send read that no ack was recorded, at or before the time of any record. */
  lemma SendersReadNoAck(window: nat, w: World, d: nat, id: nat)
    requires Reachable(window, w) && d in w.deliveries && IsSender(w.deliveries[d], id)
    ensures var m := w.deliveries[d];
      && OwnKey(m) in w.contracts
      && m.pc.readAt <= w.now
      && (w.contracts[OwnKey(m)].ack.Some? ==> m.pc.readAt <= w.contracts[OwnKey(m)].ack.value.at)
  {
    ReachableInv(window, w);
    assert DeliverySound(w, w.deliveries[d]);
  }

  /** No delivery of this contract sends later than `lag` after its read. */
  predicate PromptRun(window: nat, w: World, steps: seq<Step>, id: nat, lag: nat)
    requires IsRun(window, w, steps)
    decreases |steps|
  {
    steps == [] || (
      && (SendsFor(w, steps[0], id) ==> w.now - w.deliveries[steps[0].d].pc.readAt <= lag)
      && PromptRun(window, Apply(window, w, steps[0]), steps[1..], id, lag))
  }

  /** All senders of the contract read before its ack was recorded. */
  predicate ReadersBefore(w: World, id: nat, t: int) {
    forall d :: d in w.deliveries && IsSender(w.deliveries[d], id) ==> w.deliveries[d].pc.readAt <= t
  }

  /** A delivery becomes a sender when it wrote its row, or read it without a recorded ack. */
  lemma NextSender(window: nat, w: World, m: Delivery, call: Call, id: nat)
    requires Fits(w, m, call) && IsSender(m.(pc := Next(window, w, m, call)), id)
    ensures var key := OwnKey(m);
      || (IsSender(m, id) && Next(window, w, m, call).readAt == m.pc.readAt)
      || (key in w.contracts && w.contracts[key].id == id && w.contracts[key].ack.None?)
      || id == w.nextId
  {
  }

  /** Whoever is a sender was one before, or read a row without a recorded ack, or just wrote it. */
  lemma SenderSawNoRecord(window: nat, w: World, step: Step, d: nat, id: nat)
    requires Enabled(w, step)
    requires d in Apply(window, w, step).deliveries && IsSender(Apply(window, w, step).deliveries[d], id)
    ensures d in w.deliveries
    ensures var m, key := w.deliveries[d], OwnKey(w.deliveries[d]);
      || (IsSender(m, id) && Apply(window, w, step).deliveries[d].pc.readAt == m.pc.readAt)
      || (key in w.contracts && w.contracts[key].id == id && w.contracts[key].ack.None?)
      || id == w.nextId
  {
    if step.Own? && step.d == d {
      NextSender(window, w, w.deliveries[d], step.call, id);
    }
  }

  /** The guard: with the ack recorded, nobody who reads now becomes a sender. */
  lemma NoNewSenders(window: nat, w: World, step: Step, key: RowKey, t: int)
    requires Inv(window, w) && Enabled(w, step) && key in w.contracts && w.contracts[key].ack.Some?
    requires ReadersBefore(w, w.contracts[key].id, t)
    ensures ReadersBefore(Apply(window, w, step), w.contracts[key].id, t)
  {
    var w', id := Apply(window, w, step), w.contracts[key].id;
    assert RowSound(w, key, w.contracts[key]);
    forall d | d in w'.deliveries && IsSender(w'.deliveries[d], id) ensures w'.deliveries[d].pc.readAt <= t {
      SenderSawNoRecord(window, w, step, d, id);
      var own := OwnKey(w.deliveries[d]);
      assert own in w.contracts && w.contracts[own].id == id ==> own == key;
    }
  }

  lemma {:induction false} NoMoreAcks(
    window: nat, w: World, steps: seq<Step>, key: RowKey, lag: nat, t: int, i: nat)
    requires Inv(window, w) && IsRun(window, w, steps)
    requires key in w.contracts && w.contracts[key].ack.Some? && ReadersBefore(w, w.contracts[key].id, t)
    requires PromptRun(window, w, steps, w.contracts[key].id, lag)
    requires i < |w.acks| && w.acks[i].id == w.contracts[key].id && t + lag <= w.acks[i].at + window
    ensures CountOf(After(window, w, steps).acks, w.contracts[key].id) == CountOf(w.acks, w.contracts[key].id)
    decreases |steps|
  {
    if steps != [] {
      var next, id := Apply(window, w, steps[0]), w.contracts[key].id;
      if SendsFor(w, steps[0], id) {
        assert IsKnown(window, w.acks[i], id, w.now);
      }
      StepCounts(window, w, steps[0], id);
      NoNewSenders(window, w, steps[0], key, t);
      StepGrows(window, w, steps[0]);
      StepKeepsInv(window, w, steps[0]);
      NoMoreAcks(window, next, steps[1..], key, lag, t, i);
    }
  }

  /**
   * Once an ack is recorded so early that everybody who read before still sends while the chat
   * remembers it, no further ack of the contract is ever shown, however late the message is
   * delivered again.
   */
  lemma RecordedInTimeMeansNoMoreAcks(window: nat, w: World, steps: seq<Step>, key: RowKey, lag: nat, i: nat)
    requires Reachable(window, w) && IsRun(window, w, steps)
    requires key in w.contracts && w.contracts[key].ack.Some?
    requires PromptRun(window, w, steps, w.contracts[key].id, lag)
    requires i < |w.acks| && w.acks[i].id == w.contracts[key].id
    requires w.contracts[key].ack.value.at + lag <= w.acks[i].at + window
    ensures CountOf(After(window, w, steps).acks, w.contracts[key].id) == CountOf(w.acks, w.contracts[key].id)
  {
    ReachableInv(window, w);
    var t, id := w.contracts[key].ack.value.at, w.contracts[key].id;
    forall d | d in w.deliveries && IsSender(w.deliveries[d], id) ensures w.deliveries[d].pc.readAt <= t {
      var m := w.deliveries[d];
      assert DeliverySound(w, m);
      assert OwnKey(m) in w.contracts && w.contracts[OwnKey(m)].id == id;
    }
    NoMoreAcks(window, w, steps, key, lag, t, i);
  }

  // ---- A late replay ----

  const LEAD := Participant("A", 0, "", "", "")

  const WAITER := Participant("B", 1, "", "", "")

  const SCOPE := Scope("T", "C", "M")

  const PLAN := Plan(LEAD, [ContractSpec(WAITER, "g")])

  /** The contract of the sample is there, or about to get the first id, without an ack. */
  predicate Unrecorded(w: World) {
    var key := RowKey(SCOPE, "B");
    if key in w.contracts then w.contracts[key].ack.None? && w.contracts[key].id == 0 else w.nextId == 0
  }

  /** A deferred delivery up to its send. */
  lemma ReadyToSend(window: nat, d: nat, w: World) returns (w': World)
    requires Reaches(window, Initial(0), w) && d !in w.deliveries && Unrecorded(w) && w.tasks == {}
    ensures Reaches(window, Initial(0), w') && Stands(w', d, SCOPE, "B", PLAN, AtAck(0, w.now))
    ensures Unrecorded(w') && RowKey(SCOPE, "B") in w'.contracts && w'.acks == w.acks
    ensures w'.now == w.now && w'.tasks == {} && w'.deliveries.Keys == w.deliveries.Keys + {d}
  {
    assert GoalFor(PLAN.contracts, "B") == Some("g");
    w' := Extend(window, Initial(0), w, Deliver(d, SCOPE, "B", PLAN));
    w' := Extend(window, Initial(0), w', Own(d, CreateContract(Works)));
    if w'.deliveries[d].pc.AtReadBack? {
      w' := Extend(window, Initial(0), w', Own(d, ReadContract(true)));
    }
    w' := Extend(window, Initial(0), w', Own(d, FindTask(true)));
  }

  /** It posts its ack, but the record of it is lost. */
  lemma AckWithoutRecord(window: nat, d: nat, w: World) returns (w': World)
    requires Reaches(window, Initial(0), w) && d !in w.deliveries && Unrecorded(w) && w.tasks == {}
    requires LastKnown(window, w.acks, 0, w.now).None?
    ensures Reaches(window, Initial(0), w') && w'.acks == w.acks + [VisibleAck(0, w.now)]
    ensures Unrecorded(w') && RowKey(SCOPE, "B") in w'.contracts
    ensures w'.now == w.now && w'.tasks == {} && w'.deliveries.Keys == w.deliveries.Keys + {d}
  {
    w' := ReadyToSend(window, d, w);
    w' := Extend(window, Initial(0), w', Own(d, SendAck(Works)));
    w' := Extend(window, Initial(0), w', Own(d, RecordAck(Lost)));
  }

  /** If the record is lost, a replay after the chat forgot the uuid acks a second time. */
  lemma ALateReplayAcksTwice(window: nat) returns (w: World)
    ensures Reachable(window, w) && CountOf(w.acks, 0) == 2
    ensures RowKey(SCOPE, "B") in w.contracts && w.contracts[RowKey(SCOPE, "B")].id == 0
  {
    ReachesItself(window, Initial(0));
    var first := AckWithoutRecord(window, 0, Initial(0));
    assert first.acks == [VisibleAck(0, 0)];
    var late := Extend(window, Initial(0), first, Tick(window + 1));
    w := AckWithoutRecord(window, 1, late);
    CountAppend([], VisibleAck(0, 0), 0);
    CountAppend([VisibleAck(0, 0)], VisibleAck(0, window + 1), 0);
    assert [] + [VisibleAck(0, 0)] == [VisibleAck(0, 0)];
  }
}
