/**
 * The stale-thread scanner (apps/api/src/stale-thread-scanner.ts) with its detector
 * (packages/ambient/src/stale-thread.ts): nudge a thread that waits for a human, once per
 * stale episode, at most so many per tick, oldest first.
 *
 * The World is the rows of the waiting tasks, the audit log that doubles as the record of
 * handled episodes, and the scan under way. Scans do not overlap; activity happens and time
 * passes between any two steps of a scan, every call may fail before or after its effect, and
 * the process may crash anywhere.
 */
module StaleThreads {
  import opened Wrappers

  // ---- The detector ----

  /** A waiting task joined to its session. */
  datatype Row = Row(
    taskId: nat,
    chatId: string,
    scope: string,
    status: string,
    taskUpdatedAt: int,
    sessionUpdatedAt: int)

  datatype Thread = Thread(taskId: nat, chatId: string, lastActivityAt: int)

  function LastActivity(row: Row): int {
    if row.taskUpdatedAt >= row.sessionUpdatedAt then row.taskUpdatedAt else row.sessionUpdatedAt
  }

  /** Waiting for a human, in a chat that can be written to, and quiet for long enough. */
  predicate IsStale(row: Row, now: int, idleMs: int) {
    && row.status == "waiting_approval"
    && row.scope in {"p2p", "group-main", "group-manual"}
    && LastActivity(row) <= now - idleMs
  }

  function ThreadOf(row: Row): Thread {
    Thread(row.taskId, row.chatId, LastActivity(row))
  }

  predicate Before(a: Thread, b: Thread) {
    a.lastActivityAt < b.lastActivityAt || (a.lastActivityAt == b.lastActivityAt && a.taskId < b.taskId)
  }

  predicate IsStrict(s: seq<Thread>) {
    forall i, j :: 0 <= i < j < |s| ==> Before(s[i], s[j])
  }

  function Insert(x: Thread, sorted: seq<Thread>): (r: seq<Thread>)
    ensures |r| == |sorted| + 1
  {
    if sorted == [] || !Before(sorted[0], x) then [x] + sorted
    else [sorted[0]] + Insert(x, sorted[1..])
  }

  /** `findStaleThreads` */
  function FindStale(rows: seq<Row>, now: int, idleMs: int): (r: seq<Thread>)
    ensures |r| <= |rows|
  {
    if rows == [] then []
    else if IsStale(rows[0], now, idleMs) then Insert(ThreadOf(rows[0]), FindStale(rows[1..], now, idleMs))
    else FindStale(rows[1..], now, idleMs)
  }

  predicate DistinctTasks(rows: seq<Row>) {
    forall i, j :: 0 <= i < j < |rows| ==> rows[i].taskId != rows[j].taskId
  }

  ghost predicate IsStaleThread(rows: seq<Row>, now: int, idleMs: int, x: Thread) {
    exists i :: 0 <= i < |rows| && IsStale(rows[i], now, idleMs) && x == ThreadOf(rows[i])
  }

  lemma {:induction false} InsertMembers(x: Thread, sorted: seq<Thread>)
    ensures forall y :: y in Insert(x, sorted) <==> y == x || y in sorted
  {
    if sorted != [] && Before(sorted[0], x) {
      InsertMembers(x, sorted[1..]);
    }
  }

  lemma Prepended(x: Thread, rest: seq<Thread>)
    requires IsStrict(rest) && forall y :: y in rest ==> Before(x, y)
    ensures IsStrict([x] + rest)
  {
  }

  lemma {:induction false} InsertKeepsStrict(x: Thread, sorted: seq<Thread>)
    requires IsStrict(sorted) && forall y :: y in sorted ==> y.taskId != x.taskId
    ensures IsStrict(Insert(x, sorted))
  {
    if sorted == [] || !Before(sorted[0], x) {
      Prepended(x, sorted);
    } else {
      InsertKeepsStrict(x, sorted[1..]);
      InsertMembers(x, sorted[1..]);
      Prepended(sorted[0], Insert(x, sorted[1..]));
    }
  }

  /** The detector returns exactly the stale threads. */
  lemma {:induction false} FindStaleMembers(rows: seq<Row>, now: int, idleMs: int, x: Thread)
    ensures x in FindStale(rows, now, idleMs) <==> IsStaleThread(rows, now, idleMs, x)
  {
    if rows != [] {
      FindStaleMembers(rows[1..], now, idleMs, x);
      InsertMembers(ThreadOf(rows[0]), FindStale(rows[1..], now, idleMs));
      assert IsStaleThread(rows[1..], now, idleMs, x) ==> IsStaleThread(rows, now, idleMs, x) by {
        assert forall i :: 0 <= i < |rows[1..]| ==> rows[1..][i] == rows[i + 1];
      }
      if i :| 0 <= i < |rows| && IsStale(rows[i], now, idleMs) && x == ThreadOf(rows[i]) {
        assert i > 0 ==> rows[1..][i - 1] == rows[i];
      }
    }
  }

  /** Oldest first, without repetition. */
  lemma {:induction false} FindStaleIsStrict(rows: seq<Row>, now: int, idleMs: int)
    requires DistinctTasks(rows)
    ensures IsStrict(FindStale(rows, now, idleMs))
  {
    if rows != [] {
      FindStaleIsStrict(rows[1..], now, idleMs);
      var rest := FindStale(rows[1..], now, idleMs);
      if IsStale(rows[0], now, idleMs) {
        forall y | y in rest ensures y.taskId != rows[0].taskId {
          FindStaleMembers(rows[1..], now, idleMs, y);
        }
        InsertKeepsStrict(ThreadOf(rows[0]), rest);
      }
    }
  }

  lemma {:induction false} StrictIsUnique(s: seq<Thread>, t: seq<Thread>)
    requires IsStrict(s) && IsStrict(t) && forall x :: x in s <==> x in t
    ensures s == t
  {
    BothOrNeitherEmpty(s, t);
    if s != [] {
      assert s[0] in t && t[0] in s;
      assert s[0] == t[0];
      forall x ensures x in s[1..] <==> x in t[1..] {
        assert x in s[1..] ==> x in t && x != t[0];
        assert x in t[1..] ==> x in s && x != s[0];
      }
      StrictIsUnique(s[1..], t[1..]);
    }
  }

  lemma BothOrNeitherEmpty(s: seq<Thread>, t: seq<Thread>)
    requires forall x :: x in s <==> x in t
    ensures s == [] <==> t == []
  {
    if s != [] {
      assert s[0] in t;
    }
    if t != [] {
      assert t[0] in s;
    }
  }

  /** Time only adds stale threads, and behind those already stale. */
  lemma LaterScansSeeMore(rows: seq<Row>, now: int, later: int, idleMs: int) returns (more: seq<Thread>)
    requires DistinctTasks(rows) && now <= later
    ensures FindStale(rows, later, idleMs) == FindStale(rows, now, idleMs) + more
  {
    var all, early := FindStale(rows, later, idleMs), FindStale(rows, now, idleMs);
    FindStaleIsStrict(rows, later, idleMs);
    FindStaleIsStrict(rows, now, idleMs);
    forall x ensures x in early <==> x in all && x.lastActivityAt <= now - idleMs {
      FindStaleMembers(rows, now, idleMs, x);
      FindStaleMembers(rows, later, idleMs, x);
    }
    more := SplitByTime(all, early, now - idleMs);
  }

  lemma {:induction false} SplitByTime(all: seq<Thread>, early: seq<Thread>, limit: int) returns (more: seq<Thread>)
    requires IsStrict(all) && IsStrict(early)
    requires forall x :: x in early <==> x in all && x.lastActivityAt <= limit
    ensures all == early + more
  {
    if early == [] {
      more := all;
    } else {
      assert early[0] in all;
      assert all[0] in early;
      assert all[0] == early[0];
      forall x ensures x in early[1..] <==> x in all[1..] && x.lastActivityAt <= limit {
        assert x in early[1..] ==> x in all && x != all[0];
        assert x in all[1..] ==> x in all && x != early[0];
      }
      more := SplitByTime(all[1..], early[1..], limit);
      assert all == [all[0]] + all[1..] && early == [early[0]] + early[1..];
    }
  }

  // ---- The scan as a state machine ----

  datatype Audit = Audit(taskId: nat, createdAt: int)

  /** A visible nudge, with the activity it was sent for and the time of its anchor. */
  datatype Nudge = Nudge(taskId: nat, lastActivityAt: int, anchoredAt: int)

  datatype Pc =
    | Idle
    | AtClock(rows: seq<Row>)
    | Loop(rest: seq<Thread>, handled: nat)
    | AtDecline(thread: Thread, rest: seq<Thread>, handled: nat)
    | AtAnchor(thread: Thread, rest: seq<Thread>, handled: nat)
    | AtDeliver(thread: Thread, rest: seq<Thread>, handled: nat, anchoredAt: int)
    | AtReport(thread: Thread, rest: seq<Thread>, handled: nat)

  datatype Outcome = Works | Lost | Torn

  datatype Step =
    // time and people
    | Tick(ms: nat)
    | Add(row: Row)
    | Touch(i: nat)
    | Move(i: nat, status: string)
    // the scan
    | Load(works: bool)
    | ReadClock
    | Proceed
    | Check(works: bool, withinBudget: bool)
    | Decline(outcome: Outcome)
    | Anchor(outcome: Outcome)
    | Deliver(outcome: Outcome)
    | Report(outcome: Outcome)
    | Crash

  datatype World = World(now: int, rows: seq<Row>, audits: seq<Audit>, nudges: seq<Nudge>, pc: Pc)

  datatype Config = Config(idleMs: nat, allowed: set<string>, maxPerTick: nat)

  function Initial(now: int): World {
    World(now, [], [], [], Idle)
  }

  /** `alreadyHandled`: some audit of the task at or after its last activity. */
  predicate Handled(audits: seq<Audit>, x: Thread) {
    exists i :: 0 <= i < |audits| && audits[i].taskId == x.taskId && audits[i].createdAt >= x.lastActivityAt
  }

  predicate Enabled(c: Config, w: World, step: Step) {
    match step
    case Tick(_) => true
    case Add(row) =>
      && LastActivity(row) <= w.now
      && forall i :: 0 <= i < |w.rows| ==> w.rows[i].taskId != row.taskId
    case Touch(i) => i < |w.rows|
    case Move(i, _) => i < |w.rows|
    case Load(_) => w.pc.Idle?
    case ReadClock => w.pc.AtClock?
    case Proceed =>
      w.pc.Loop? && (w.pc.rest == [] || w.pc.handled >= c.maxPerTick || w.pc.rest[0].chatId !in c.allowed)
    case Check(_, _) =>
      w.pc.Loop? && w.pc.rest != [] && w.pc.handled < c.maxPerTick && w.pc.rest[0].chatId in c.allowed
    case Decline(_) => w.pc.AtDecline?
    case Anchor(_) => w.pc.AtAnchor?
    case Deliver(_) => w.pc.AtDeliver?
    case Report(_) => w.pc.AtReport?
    case Crash => !w.pc.Idle?
  }

  function Audited(w: World, taskId: nat, outcome: Outcome): seq<Audit> {
    if outcome == Lost then w.audits else w.audits + [Audit(taskId, w.now)]
  }

  function Apply(c: Config, w: World, step: Step): World
    requires Enabled(c, w, step)
  {
    match step
    case Tick(ms) => w.(now := w.now + ms)
    case Add(row) => w.(rows := w.rows + [row])
    case Touch(i) => w.(rows := w.rows[i := w.rows[i].(sessionUpdatedAt := w.now)])
    case Move(i, status) => w.(rows := w.rows[i := w.rows[i].(status := status, taskUpdatedAt := w.now)])
    case Load(works) => if works then w.(pc := AtClock(w.rows)) else w
    case ReadClock => w.(pc := Loop(FindStale(w.pc.rows, w.now, c.idleMs), 0))
    case Proceed =>
      if w.pc.rest == [] || w.pc.handled >= c.maxPerTick then w.(pc := Idle)
      else w.(pc := Loop(w.pc.rest[1..], w.pc.handled))
    case Check(works, withinBudget) =>
      var x, rest, handled := w.pc.rest[0], w.pc.rest[1..], w.pc.handled;
      if !works || Handled(w.audits, x) then w.(pc := Loop(rest, handled))
      else if withinBudget then w.(pc := AtAnchor(x, rest, handled + 1))
      else w.(pc := AtDecline(x, rest, handled + 1))
    case Decline(outcome) =>
      w.(audits := Audited(w, w.pc.thread.taskId, outcome), pc := Loop(w.pc.rest, w.pc.handled))
    case Anchor(outcome) =>
      w.(audits := Audited(w, w.pc.thread.taskId, outcome),
         pc := if outcome == Works then AtDeliver(w.pc.thread, w.pc.rest, w.pc.handled, w.now)
               else Loop(w.pc.rest, w.pc.handled))
    case Deliver(outcome) =>
      w.(nudges := if outcome == Lost then w.nudges
                   else w.nudges + [Nudge(w.pc.thread.taskId, w.pc.thread.lastActivityAt, w.pc.anchoredAt)],
         pc := AtReport(w.pc.thread, w.pc.rest, w.pc.handled))
    case Report(outcome) =>
      w.(audits := Audited(w, w.pc.thread.taskId, outcome), pc := Loop(w.pc.rest, w.pc.handled))
    case Crash => w.(pc := Idle)
  }

  predicate IsRun(c: Config, w: World, steps: seq<Step>)
    decreases |steps|
  {
    steps == [] || (Enabled(c, w, steps[0]) && IsRun(c, Apply(c, w, steps[0]), steps[1..]))
  }

  function After(c: Config, w: World, steps: seq<Step>): World
    requires IsRun(c, w, steps)
    decreases |steps|
  {
    if steps == [] then w else After(c, Apply(c, w, steps[0]), steps[1..])
  }

  ghost predicate Reaches(c: Config, w: World, w': World) {
    exists steps :: IsRun(c, w, steps) && After(c, w, steps) == w'
  }

  ghost predicate Reachable(c: Config, w: World) {
    exists now :: Reaches(c, Initial(now), w)
  }

  // ---- Invariant ----

  predicate NotInFuture(now: int, threads: seq<Thread>) {
    forall x :: x in threads ==> x.lastActivityAt <= now
  }

  predicate HasAudit(audits: seq<Audit>, taskId: nat, at: int) {
    exists i :: 0 <= i < |audits| && audits[i] == Audit(taskId, at)
  }

  /** Every earlier nudge of the task was anchored before the activity this one is about. */
  predicate NewEpisode(nudges: seq<Nudge>, x: Thread) {
    forall i :: 0 <= i < |nudges| && nudges[i].taskId == x.taskId ==> nudges[i].anchoredAt < x.lastActivityAt
  }

  predicate KnownBy(rows: seq<Row>, now: int) {
    forall i :: 0 <= i < |rows| ==> LastActivity(rows[i]) <= now
  }

  predicate PcSound(w: World) {
    match w.pc
    case Idle => true
    case AtClock(rows) => KnownBy(rows, w.now)
    case Loop(rest, _) => NotInFuture(w.now, rest)
    case AtDecline(x, rest, _) => NotInFuture(w.now, [x] + rest)
    case AtAnchor(x, rest, _) => NotInFuture(w.now, [x] + rest) && NewEpisode(w.nudges, x)
    case AtDeliver(x, rest, _, at) =>
      && NotInFuture(w.now, [x] + rest)
      && NewEpisode(w.nudges, x)
      && x.lastActivityAt <= at
      && HasAudit(w.audits, x.taskId, at)
    case AtReport(x, rest, _) => NotInFuture(w.now, [x] + rest)
  }

  predicate RowsSound(w: World) {
    DistinctTasks(w.rows) && KnownBy(w.rows, w.now)
  }

  predicate NudgeSound(w: World, n: Nudge) {
    n.lastActivityAt <= n.anchoredAt && HasAudit(w.audits, n.taskId, n.anchoredAt)
  }

  predicate NudgesSound(w: World) {
    forall i :: 0 <= i < |w.nudges| ==> NudgeSound(w, w.nudges[i])
  }

  predicate EpisodesApart(w: World) {
    forall i, j :: 0 <= i < j < |w.nudges| && w.nudges[i].taskId == w.nudges[j].taskId ==>
      w.nudges[i].anchoredAt < w.nudges[j].lastActivityAt
  }

  predicate Inv(w: World) {
    RowsSound(w) && NudgesSound(w) && EpisodesApart(w) && PcSound(w)
  }

  lemma AuditStays(audits: seq<Audit>, audits': seq<Audit>, taskId: nat, at: int)
    requires HasAudit(audits, taskId, at) && audits <= audits'
    ensures HasAudit(audits', taskId, at)
  {
    var i :| 0 <= i < |audits| && audits[i] == Audit(taskId, at);
    assert audits'[i] == Audit(taskId, at);
  }

  lemma DetectionIsSound(c: Config, rows: seq<Row>, now: int)
    requires KnownBy(rows, now)
    ensures NotInFuture(now, FindStale(rows, now, c.idleMs))
  {
    forall x | x in FindStale(rows, now, c.idleMs) ensures x.lastActivityAt <= now {
      FindStaleMembers(rows, now, c.idleMs, x);
    }
  }

  /** An unhandled thread had all its nudges before its last activity. */
  lemma UnhandledMeansNewEpisode(w: World, x: Thread)
    requires NudgesSound(w) && !Handled(w.audits, x)
    ensures NewEpisode(w.nudges, x)
  {
    forall i | 0 <= i < |w.nudges| && w.nudges[i].taskId == x.taskId
      ensures w.nudges[i].anchoredAt < x.lastActivityAt
    {
      assert NudgeSound(w, w.nudges[i]);
      var k :| 0 <= k < |w.audits| && w.audits[k] == Audit(x.taskId, w.nudges[i].anchoredAt);
    }
  }

  lemma StepKeepsRows(c: Config, w: World, step: Step)
    requires RowsSound(w) && Enabled(c, w, step)
    ensures RowsSound(Apply(c, w, step))
  {
  }

  lemma StepKeepsNudges(c: Config, w: World, step: Step)
    requires Inv(w) && Enabled(c, w, step)
    ensures NudgesSound(Apply(c, w, step)) && EpisodesApart(Apply(c, w, step))
  {
    var w' := Apply(c, w, step);
    forall i | 0 <= i < |w'.nudges| ensures NudgeSound(w', w'.nudges[i]) {
      if i < |w.nudges| {
        assert NudgeSound(w, w.nudges[i]);
      }
      AuditStays(w.audits, w'.audits, w'.nudges[i].taskId, w'.nudges[i].anchoredAt);
    }
  }

  lemma StepKeepsPc(c: Config, w: World, step: Step)
    requires Inv(w) && Enabled(c, w, step)
    ensures PcSound(Apply(c, w, step))
  {
    match step {
      case ReadClock =>
        DetectionIsSound(c, w.pc.rows, w.now);
      case Check(_, _) =>
        if !Handled(w.audits, w.pc.rest[0]) {
          UnhandledMeansNewEpisode(w, w.pc.rest[0]);
        }
        assert w.pc.rest == [w.pc.rest[0]] + w.pc.rest[1..];
      case Anchor(outcome) =>
        if outcome == Works {
          assert Audited(w, w.pc.thread.taskId, outcome)[|w.audits|] == Audit(w.pc.thread.taskId, w.now);
        }
      case _ =>
    }
  }

  lemma {:induction false} RunKeepsInv(c: Config, w: World, steps: seq<Step>)
    requires Inv(w) && IsRun(c, w, steps)
    ensures Inv(After(c, w, steps))
    decreases |steps|
  {
    if steps != [] {
      StepKeepsRows(c, w, steps[0]);
      StepKeepsNudges(c, w, steps[0]);
      StepKeepsPc(c, w, steps[0]);
      RunKeepsInv(c, Apply(c, w, steps[0]), steps[1..]);
    }
  }

  lemma ReachableInv(c: Config, w: World)
    requires Reachable(c, w)
    ensures Inv(w)
  {
    var now :| Reaches(c, Initial(now), w);
    var steps :| IsRun(c, Initial(now), steps) && After(c, Initial(now), steps) == w;
    RunKeepsInv(c, Initial(now), steps);
  }

  // ---- Safety over all runs ----

  /**
   * One nudge per stale episode: between any two nudges of a task there was activity, later
   * than the anchor of the first.
   */
  lemma OneNudgePerEpisode(c: Config, w: World, i: nat, j: nat)
    requires Reachable(c, w) && i < j < |w.nudges| && w.nudges[i].taskId == w.nudges[j].taskId
    ensures w.nudges[i].lastActivityAt <= w.nudges[i].anchoredAt < w.nudges[j].lastActivityAt
  {
    ReachableInv(c, w);
    assert NudgeSound(w, w.nudges[i]);
  }

  // ---- Progress of working scans ----

  /** Allowed threads of the list that are not handled yet, in its order. */
  function Due(c: Config, threads: seq<Thread>, audits: seq<Audit>): seq<Thread> {
    if threads == [] then [] else IfDue(c, threads[0], audits) + Due(c, threads[1..], audits)
  }

  function IfDue(c: Config, x: Thread, audits: seq<Audit>): seq<Thread> {
    if x.chatId in c.allowed && !Handled(audits, x) then [x] else []
  }

  function DueNow(c: Config, w: World): seq<Thread> {
    Due(c, FindStale(w.rows, w.now, c.idleMs), w.audits)
  }

  function Take(threads: seq<Thread>, n: nat): seq<Thread> {
    if n <= |threads| then threads[..n] else threads
  }

  function Behead(threads: seq<Thread>, n: nat): seq<Thread> {
    if n <= |threads| then threads[n..] else []
  }

  predicate DistinctThreads(threads: seq<Thread>) {
    forall i, j :: 0 <= i < j < |threads| ==> threads[i].taskId != threads[j].taskId
  }

  /** Exactly the threads of `done` have become handled, of all of `threads`. */
  ghost predicate HandledExactly(threads: seq<Thread>, audits: seq<Audit>, audits': seq<Audit>, done: seq<Thread>) {
    forall x :: x in threads ==> (Handled(audits', x) <==> Handled(audits, x) || x in done)
  }

  /** Audits of other tasks make no difference. */
  predicate SameFor(audits: seq<Audit>, audits': seq<Audit>, x: Thread) {
    Handled(audits', x) <==> Handled(audits, x)
  }

  lemma {:induction false} DueDependsOnHandled(c: Config, threads: seq<Thread>, audits: seq<Audit>, audits': seq<Audit>)
    requires forall x :: x in threads ==> SameFor(audits, audits', x)
    ensures Due(c, threads, audits') == Due(c, threads, audits)
  {
    if threads != [] {
      assert SameFor(audits, audits', threads[0]);
      DueDependsOnHandled(c, threads[1..], audits, audits');
    }
  }

  lemma {:induction false} DueMembers(c: Config, threads: seq<Thread>, audits: seq<Audit>)
    ensures forall x :: x in Due(c, threads, audits) <==> x in threads && x.chatId in c.allowed && !Handled(audits, x)
  {
    if threads != [] {
      DueMembers(c, threads[1..], audits);
    }
  }

  /** What one handled thread adds to the log: an audit of its task, now. */
  lemma MoreAudits(audits: seq<Audit>, more: seq<Audit>, x: Thread, task: nat)
    requires forall k :: 0 <= k < |more| ==> more[k].taskId == task
    ensures x.taskId != task ==> SameFor(audits, audits + more, x)
    ensures Handled(audits, x) ==> Handled(audits + more, x)
    ensures more != [] && more[0] == Audit(x.taskId, more[0].createdAt) && more[0].createdAt >= x.lastActivityAt ==>
      Handled(audits + more, x)
  {
    var all := audits + more;
    if Handled(audits, x) {
      var i :| 0 <= i < |audits| && audits[i].taskId == x.taskId && audits[i].createdAt >= x.lastActivityAt;
      assert all[i] == audits[i];
    }
    if more != [] {
      assert all[|audits|] == more[0];
    }
  }

  /** For which tasks the budget allows a nudge, and for which the send works. */
  datatype Luck = Luck(withinBudget: set<nat>, sent: set<nat>)

  /** The next step of a scan whose queries and audit writes work. */
  function WorkingStep(c: Config, w: World, luck: Luck): Step
    requires !w.pc.Idle?
  {
    match w.pc
    case AtClock(_) => ReadClock
    case Loop(rest, handled) =>
      if rest == [] || handled >= c.maxPerTick || rest[0].chatId !in c.allowed then Proceed
      else Check(true, rest[0].taskId in luck.withinBudget)
    case AtDecline(_, _, _) => Decline(Works)
    case AtAnchor(_, _, _) => Anchor(Works)
    case AtDeliver(x, _, _, _) => Deliver(if x.taskId in luck.sent then Works else Lost)
    case AtReport(_, _, _) => Report(Works)
  }

  function StepsLeft(pc: Pc): nat {
    match pc
    case Idle => 0
    case AtClock(rows) => 5 * |rows| + 2
    case Loop(rest, _) => 5 * |rest| + 1
    case AtDecline(_, rest, _) => 5 * |rest| + 2
    case AtAnchor(_, rest, _) => 5 * |rest| + 4
    case AtDeliver(_, rest, _, _) => 5 * |rest| + 3
    case AtReport(_, rest, _) => 5 * |rest| + 2
  }

  /** The scan runs on alone to its end. */
  function Finish(c: Config, w: World, luck: Luck): World
    decreases StepsLeft(w.pc)
  {
    if w.pc.Idle? then w else Finish(c, Apply(c, w, WorkingStep(c, w, luck)), luck)
  }

  lemma {:induction false} FinishIsARun(c: Config, w: World, luck: Luck)
    ensures Reaches(c, w, Finish(c, w, luck)) && Finish(c, w, luck).pc.Idle?
    decreases StepsLeft(w.pc)
  {
    if w.pc.Idle? {
      assert IsRun(c, w, []) && After(c, w, []) == w;
    } else {
      var step := WorkingStep(c, w, luck);
      FinishIsARun(c, Apply(c, w, step), luck);
      var steps :| IsRun(c, Apply(c, w, step), steps) && After(c, Apply(c, w, step), steps) == Finish(c, w, luck);
      assert ([step] + steps)[1..] == steps;
      assert IsRun(c, w, [step] + steps) && After(c, w, [step] + steps) == Finish(c, w, luck);
    }
  }

  /** A due thread leaves one or more audits of its task, from now, and counts as handled. */
  lemma {:induction false} DueThreadGetsAudited(c: Config, w: World, luck: Luck) returns (w': World, more: seq<Audit>)
    requires w.pc.Loop? && w.pc.rest != [] && w.pc.handled < c.maxPerTick
    requires w.pc.rest[0].chatId in c.allowed && !Handled(w.audits, w.pc.rest[0])
    ensures Finish(c, w, luck) == Finish(c, w', luck)
    ensures w'.now == w.now && w'.rows == w.rows
    ensures w'.pc == Loop(w.pc.rest[1..], w.pc.handled + 1) && w'.audits == w.audits + more
    ensures more != [] && forall k :: 0 <= k < |more| ==> more[k] == Audit(w.pc.rest[0].taskId, w.now)
  {
    var x := w.pc.rest[0];
    var checked := Apply(c, w, WorkingStep(c, w, luck));
    assert Finish(c, w, luck) == Finish(c, checked, luck);
    var second := Apply(c, checked, WorkingStep(c, checked, luck));
    assert Finish(c, checked, luck) == Finish(c, second, luck);
    if x.taskId in luck.withinBudget {
      var third := Apply(c, second, WorkingStep(c, second, luck));
      assert Finish(c, second, luck) == Finish(c, third, luck);
      w' := Apply(c, third, WorkingStep(c, third, luck));
      assert Finish(c, third, luck) == Finish(c, w', luck);
      more := [Audit(x.taskId, w.now), Audit(x.taskId, w.now)];
      assert w.audits + [Audit(x.taskId, w.now)] + [Audit(x.taskId, w.now)] == w.audits + more;
    } else {
      w' := second;
      more := [Audit(x.taskId, w.now)];
    }
  }

  predicate IsOutside(threads: seq<Thread>, x: Thread) {
    forall y :: y in threads ==> y.taskId != x.taskId
  }

  ghost predicate OthersSame(threads: seq<Thread>, audits: seq<Audit>, audits': seq<Audit>) {
    forall x: Thread :: IsOutside(threads, x) ==> SameFor(audits, audits', x)
  }

  /** The loop of a working scan handles the first due threads, as many as the cap still allows. */
  lemma {:induction false} FinishHandles(c: Config, w: World, luck: Luck)
    requires w.pc.Loop? && NotInFuture(w.now, w.pc.rest) && DistinctThreads(w.pc.rest)
    ensures var w', room := Finish(c, w, luck), if w.pc.handled <= c.maxPerTick then c.maxPerTick - w.pc.handled else 0;
      && w'.now == w.now && w'.rows == w.rows
      && HandledExactly(w.pc.rest, w.audits, w'.audits, Take(Due(c, w.pc.rest, w.audits), room))
      && OthersSame(w.pc.rest, w.audits, w'.audits)
    decreases |w.pc.rest|
  {
    var threads := w.pc.rest;
    if threads == [] || w.pc.handled >= c.maxPerTick {
      assert Finish(c, w, luck).audits == w.audits;
    } else if threads[0].chatId !in c.allowed || Handled(w.audits, threads[0]) {
      var w1 := Apply(c, w, WorkingStep(c, w, luck));
      assert w1.pc == Loop(threads[1..], w.pc.handled) && w1.audits == w.audits;
      FinishHandles(c, w1, luck);
      SkippedThread(c, threads, w.audits, Finish(c, w, luck).audits, c.maxPerTick - w.pc.handled);
    } else {
      var w1, more := DueThreadGetsAudited(c, w, luck);
      FinishHandles(c, w1, luck);
      HandledThread(c, threads, w.audits, more, Finish(c, w, luck).audits, w.now, c.maxPerTick - w.pc.handled);
    }
  }

  lemma SkippedThread(c: Config, threads: seq<Thread>, audits: seq<Audit>, audits': seq<Audit>, room: nat)
    requires threads != [] && DistinctThreads(threads)
    requires threads[0].chatId !in c.allowed || Handled(audits, threads[0])
    requires HandledExactly(threads[1..], audits, audits', Take(Due(c, threads[1..], audits), room))
    requires OthersSame(threads[1..], audits, audits')
    ensures HandledExactly(threads, audits, audits', Take(Due(c, threads, audits), room))
    ensures OthersSame(threads, audits, audits')
  {
    DueMembers(c, threads, audits);
    assert Due(c, threads, audits) == Due(c, threads[1..], audits);
    assert forall y :: y in threads[1..] ==> y in threads && y.taskId != threads[0].taskId;
    assert IsOutside(threads[1..], threads[0]) && SameFor(audits, audits', threads[0]);
    assert threads[0] !in Due(c, threads, audits);
    forall x | x in threads
      ensures Handled(audits', x) <==> Handled(audits, x) || x in Take(Due(c, threads, audits), room)
    {
      assert x == threads[0] || x in threads[1..];
    }
  }

  lemma {:induction false} HandledThread(
    c: Config, threads: seq<Thread>, audits: seq<Audit>, more: seq<Audit>, audits': seq<Audit>, now: int, room: nat)
    requires threads != [] && DistinctThreads(threads) && room > 0 && threads[0].lastActivityAt <= now
    requires threads[0].chatId in c.allowed && !Handled(audits, threads[0])
    requires more != [] && forall k :: 0 <= k < |more| ==> more[k] == Audit(threads[0].taskId, now)
    requires HandledExactly(threads[1..], audits + more, audits', Take(Due(c, threads[1..], audits + more), room - 1))
    requires OthersSame(threads[1..], audits + more, audits')
    ensures HandledExactly(threads, audits, audits', Take(Due(c, threads, audits), room))
    ensures OthersSame(threads, audits, audits')
  {
    var first, rest := threads[0], threads[1..];
    forall x: Thread ensures x.taskId != first.taskId ==> SameFor(audits, audits + more, x) {
      MoreAudits(audits, more, x, first.taskId);
    }
    assert forall y :: y in rest ==> y in threads && y.taskId != first.taskId;
    DueDependsOnHandled(c, rest, audits, audits + more);
    MoreAudits(audits, more, first, first.taskId);
    assert IsOutside(rest, first) && SameFor(audits + more, audits', first);
    var due := Due(c, rest, audits);
    assert Take(Due(c, threads, audits), room) == [first] + Take(due, room - 1);
    forall x | x in threads
      ensures Handled(audits', x) <==> Handled(audits, x) || x in [first] + Take(due, room - 1)
    {
      assert x == first || x in rest;
    }
    forall x: Thread | IsOutside(threads, x) ensures SameFor(audits, audits', x) {
      assert first in threads && IsOutside(rest, x);
      assert SameFor(audits + more, audits', x);
    }
  }

  /** A whole scan in which queries and audit writes work. */
  function WorkingScan(c: Config, w: World, luck: Luck): World
    requires w.pc.Idle?
  {
    Finish(c, Apply(c, w, Load(true)), luck)
  }

  lemma StrictIsDistinct(c: Config, w: World)
    requires RowsSound(w)
    ensures DistinctThreads(FindStale(w.rows, w.now, c.idleMs))
  {
    var threads := FindStale(w.rows, w.now, c.idleMs);
    FindStaleIsStrict(w.rows, w.now, c.idleMs);
    forall i, j | 0 <= i < j < |threads| ensures threads[i].taskId != threads[j].taskId {
      assert threads[i] in threads && threads[j] in threads;
      FindStaleMembers(w.rows, w.now, c.idleMs, threads[i]);
      FindStaleMembers(w.rows, w.now, c.idleMs, threads[j]);
      var k :| 0 <= k < |w.rows| && threads[i] == ThreadOf(w.rows[k]);
      var l :| 0 <= l < |w.rows| && threads[j] == ThreadOf(w.rows[l]);
      assert Before(threads[i], threads[j]);
      assert k != l;
    }
  }

  /** Of the due threads without repetition, the first n are no longer due. */
  lemma {:induction false} DueAfter(c: Config, threads: seq<Thread>, audits: seq<Audit>, audits': seq<Audit>, n: nat)
    requires DistinctThreads(threads)
    requires HandledExactly(threads, audits, audits', Take(Due(c, threads, audits), n))
    ensures Due(c, threads, audits') == Behead(Due(c, threads, audits), n)
  {
    if threads != [] {
      var head, head' := IfDue(c, threads[0], audits), IfDue(c, threads[0], audits');
      var m := if head != [] && n > 0 then n - 1 else n;
      TailHandled(c, threads, audits, audits', n, m);
      DueAfter(c, threads[1..], audits, audits', m);
      FirstHandled(c, threads, audits, audits', n);
      BeheadHead(head, head', Due(c, threads[1..], audits), n, m);
    }
  }

  lemma BeheadHead(head: seq<Thread>, head': seq<Thread>, due: seq<Thread>, n: nat, m: nat)
    requires |head| <= 1 && head' == if n > 0 then [] else head
    requires m == if head != [] && n > 0 then n - 1 else n
    ensures head' + Behead(due, m) == Behead(head + due, n)
  {
    if head != [] && 0 < n <= |due| + 1 {
      assert (head + due)[n..] == due[n - 1..];
    }
  }

  /** The first of the list changes exactly if it was due and there is room. */
  lemma {:induction false} FirstHandled(
    c: Config, threads: seq<Thread>, audits: seq<Audit>, audits': seq<Audit>, n: nat)
    requires threads != [] && DistinctThreads(threads)
    requires HandledExactly(threads, audits, audits', Take(Due(c, threads, audits), n))
    ensures threads[0].chatId in c.allowed ==> (Handled(audits', threads[0]) <==> Handled(audits, threads[0]) || n > 0)
  {
    var first := threads[0];
    DueMembers(c, threads[1..], audits);
    assert first in threads && first !in threads[1..];
    if first.chatId in c.allowed && !Handled(audits, first) {
      assert Due(c, threads, audits)[0] == first;
      assert n > 0 ==> Take(Due(c, threads, audits), n)[0] == first;
    }
  }

  lemma {:induction false} TailHandled(
    c: Config, threads: seq<Thread>, audits: seq<Audit>, audits': seq<Audit>, n: nat, m: nat)
    requires threads != [] && DistinctThreads(threads)
    requires HandledExactly(threads, audits, audits', Take(Due(c, threads, audits), n))
    requires m == if threads[0].chatId in c.allowed && !Handled(audits, threads[0]) && n > 0 then n - 1 else n
    ensures HandledExactly(threads[1..], audits, audits', Take(Due(c, threads[1..], audits), m))
  {
    var first, due := threads[0], Due(c, threads[1..], audits);
    forall x | x in threads[1..] ensures Handled(audits', x) <==> Handled(audits, x) || x in Take(due, m) {
      assert x in threads && x != first;
      if first.chatId in c.allowed && !Handled(audits, first) {
        assert n > 0 ==> Take(Due(c, threads, audits), n) == [first] + Take(due, n - 1);
      } else {
        assert Due(c, threads, audits) == due;
      }
    }
  }

  /** A working scan handles the oldest due threads, up to the cap, and leaves the others due. */
  lemma WorkingScanHandlesTheOldest(c: Config, w: World, luck: Luck)
    requires RowsSound(w) && w.pc.Idle?
    ensures DueNow(c, WorkingScan(c, w, luck)) == Behead(DueNow(c, w), c.maxPerTick)
    ensures WorkingScan(c, w, luck).rows == w.rows && WorkingScan(c, w, luck).now == w.now
    ensures WorkingScan(c, w, luck).pc.Idle?
  {
    var loaded := Apply(c, Apply(c, w, Load(true)), ReadClock);
    assert WorkingScan(c, w, luck) == Finish(c, loaded, luck);
    DetectionIsSound(c, w.rows, w.now);
    StrictIsDistinct(c, w);
    FinishHandles(c, loaded, luck);
    FinishIsARun(c, loaded, luck);
    DueAfter(c, loaded.pc.rest, w.audits, Finish(c, loaded, luck).audits, c.maxPerTick);
  }

  lemma {:induction false} DueConcat(c: Config, s: seq<Thread>, t: seq<Thread>, audits: seq<Audit>)
    ensures Due(c, s + t, audits) == Due(c, s, audits) + Due(c, t, audits)
  {
    if s == [] {
      assert s + t == t;
    } else {
      DueConcat(c, s[1..], t, audits);
      assert (s + t)[0] == s[0] && (s + t)[1..] == s[1..] + t;
      Associate(IfDue(c, s[0], audits), Due(c, s[1..], audits), Due(c, t, audits));
    }
  }

  lemma Associate(r: seq<Thread>, s: seq<Thread>, t: seq<Thread>)
    ensures r + (s + t) == (r + s) + t
  {
  }

  /** k working scans, each followed by some quiet time. */
  function WorkingScans(c: Config, w: World, luck: Luck, pauses: seq<nat>): World
    requires w.pc.Idle?
    decreases |pauses|
  {
    if pauses == [] then w
    else
      FinishIsARun(c, Apply(c, w, Load(true)), luck);
      WorkingScans(c, Apply(c, WorkingScan(c, w, luck), Tick(pauses[0])), luck, pauses[1..])
  }

  lemma BeheadFurther(
    due: seq<Thread>, more: seq<Thread>, extra: seq<Thread>, m: nat, n: nat) returns (more': seq<Thread>)
    ensures Behead(Behead(due, m) + more, n) + extra == Behead(due, m + n) + more'
  {
    var rest := Behead(due, m);
    if n <= |rest| {
      assert Behead(rest + more, n) == Behead(rest, n) + more;
      more' := more + extra;
    } else {
      more' := Behead(rest + more, n) + extra;
    }
  }

  /** One working scan and a pause: of a backlog `due` with m handled, the next ones go. */
  lemma {:induction false} OneScanDrains(
    c: Config, w: World, luck: Luck, ms: nat, due: seq<Thread>, m: nat, more: seq<Thread>)
      returns (w': World, more': seq<Thread>)
    requires RowsSound(w) && w.pc.Idle? && DueNow(c, w) == Behead(due, m) + more
    ensures WorkingScan(c, w, luck).pc.Idle? && w' == Apply(c, WorkingScan(c, w, luck), Tick(ms))
    ensures RowsSound(w') && w'.pc.Idle? && DueNow(c, w') == Behead(due, m + c.maxPerTick) + more'
  {
    WorkingScanHandlesTheOldest(c, w, luck);
    var scanned := WorkingScan(c, w, luck);
    w' := Apply(c, scanned, Tick(ms));
    var younger := LaterScansSeeMore(w.rows, scanned.now, w'.now, c.idleMs);
    DueConcat(c, FindStale(w.rows, scanned.now, c.idleMs), younger, scanned.audits);
    more' := BeheadFurther(due, more, Due(c, younger, scanned.audits), m, c.maxPerTick);
  }

  /**
   * n due threads are all handled after n / maxPerTick working scans, rounded up, oldest
   * first: what becomes due meanwhile waits behind them.
   */
  lemma {:induction false} BacklogDrains(
    c: Config, w: World, luck: Luck, pauses: seq<nat>, due: seq<Thread>, m: nat, more: seq<Thread>)
      returns (left: seq<Thread>)
    requires RowsSound(w) && w.pc.Idle? && DueNow(c, w) == Behead(due, m) + more
    ensures DueNow(c, WorkingScans(c, w, luck, pauses)) == Behead(due, m + c.maxPerTick * |pauses|) + left
    decreases |pauses|
  {
    if pauses == [] {
      left := more;
    } else {
      var rested, more' := OneScanDrains(c, w, luck, pauses[0], due, m, more);
      left := BacklogDrains(c, rested, luck, pauses[1..], due, m + c.maxPerTick, more');
      MultiplyByLength(c.maxPerTick, |pauses[1..]|);
    }
  }

  lemma MultiplyByLength(a: nat, n: nat)
    ensures a + a * n == a * (n + 1)
  {
  }

  /** Activity after the last audit makes a quiet, allowed thread due again, however often it was nudged. */
  lemma LaterActivityIsDueAgain(c: Config, w: World, i: nat)
    requires i < |w.rows| && IsStale(w.rows[i], w.now, c.idleMs) && w.rows[i].chatId in c.allowed
    ensures ThreadOf(w.rows[i]) in DueNow(c, w) <==>
      forall k :: 0 <= k < |w.audits| && w.audits[k].taskId == w.rows[i].taskId ==>
        w.audits[k].createdAt < LastActivity(w.rows[i])
  {
    var x := ThreadOf(w.rows[i]);
    FindStaleMembers(w.rows, w.now, c.idleMs, x);
    assert IsStaleThread(w.rows, w.now, c.idleMs, x);
    DueMembers(c, FindStale(w.rows, w.now, c.idleMs), w.audits);
  }
}
