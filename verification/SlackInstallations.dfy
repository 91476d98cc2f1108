/**
 * Which bot identity a Slack team gets (apps/api/src/slack-installation-resolver.ts:56-138):
 * its own enabled installation, or the deployment's default, which may be borrowed only while
 * no installation exists at all. That question is answered by a probe whose answer is cached.
 *
 * Calls interleave at every query, rows come and go in between, queries may fail. A probe reads
 * the table at one moment and is settled, with the time of that moment, up to `lag` later.
 */
module SlackInstallations {
  import opened Wrappers

  /** A row that is not deleted; `token` is what its reference or stored token resolves to. */
  datatype Row = Row(enabled: bool, botUserId: Option<string>, token: Option<string>)

  datatype Config = Config(ttlMs: nat, lag: nat)

  // ---- The cached probe ----

  datatype Cache = Cache(hasInstall: Option<bool>, at: int)

  predicate IsFresh(c: Config, cache: Cache, now: int) {
    cache.hasInstall.Some? && now - cache.at < c.ttlMs
  }

  // ---- Calls ----

  datatype Source = FromRow(row: Row) | EnvDefault | Nobody

  datatype Pc = AtLookup | AtGate | AtProbe | AtSettle(nonEmpty: bool, readAt: int) | Done(source: Source)

  datatype Call = Call(team: string, pc: Pc)

  /** The answer of a call, when it was given and since when there have been rows then. */
  datatype Answer = Answer(team: string, source: Source, at: int, since: Option<int>)

  datatype World = World(
    now: int,
    rows: map<string, Row>,
    since: Option<int>,
    cache: Cache,
    calls: map<nat, Call>,
    answers: seq<Answer>)

  function Initial(now: int): World {
    World(now, map[], None, Cache(None, 0), map[], [])
  }

  datatype Step =
    | Tick(ms: nat)
    | Put(team: string, row: Row)
    | Remove(team: string)
    | Begin(id: nat, team: string)
    | Lookup(id: nat, works: bool)
    | Gate(id: nat)
    | Probe(id: nat, works: bool)
    | Settle(id: nat)

  predicate At(w: World, id: nat, pc: Pc) {
    id in w.calls && w.calls[id].pc == pc
  }

  predicate Enabled(c: Config, w: World, step: Step) {
    match step
    case Tick(_) => true
    case Put(_, _) => true
    case Remove(team) => team in w.rows
    case Begin(id, _) => id !in w.calls
    case Lookup(id, _) => At(w, id, AtLookup)
    case Gate(id) => At(w, id, AtGate)
    case Probe(id, _) => At(w, id, AtProbe)
    case Settle(id) => id in w.calls && w.calls[id].pc.AtSettle? && w.now - w.calls[id].pc.readAt <= c.lag
  }

  function Goto(w: World, id: nat, pc: Pc): World
    requires id in w.calls
  {
    w.(calls := w.calls[id := w.calls[id].(pc := pc)])
  }

  function Answered(w: World, id: nat, source: Source): World
    requires id in w.calls
  {
    Goto(w, id, Done(source)).(answers := w.answers + [Answer(w.calls[id].team, source, w.now, w.since)])
  }

  /** Any row means several workspaces: nobody may borrow the default. */
  function ByProbe(nonEmpty: bool): Source {
    if nonEmpty then Nobody else EnvDefault
  }

  function Apply(c: Config, w: World, step: Step): World
    requires Enabled(c, w, step)
  {
    match step
    case Tick(ms) => w.(now := w.now + ms)
    case Put(team, row) => w.(rows := w.rows[team := row], since := if w.since.None? then Some(w.now) else w.since)
    case Remove(team) =>
      var rows := w.rows - {team};
      w.(rows := rows, since := if rows == map[] then None else w.since)
    case Begin(id, team) => w.(calls := w.calls[id := Call(team, if team == "" then AtGate else AtLookup)])
    case Lookup(id, works) =>
      var team := w.calls[id].team;
      if works && team in w.rows && w.rows[team].enabled then Answered(w, id, FromRow(w.rows[team]))
      else Goto(w, id, AtGate)
    case Gate(id) =>
      if IsFresh(c, w.cache, w.now) then Answered(w, id, ByProbe(w.cache.hasInstall.value))
      else Goto(w, id, AtProbe)
    case Probe(id, works) =>
      if works then Goto(w, id, AtSettle(w.rows != map[], w.now)) else Answered(w, id, Nobody)
    case Settle(id) =>
      var nonEmpty := w.calls[id].pc.nonEmpty;
      Answered(w.(cache := Cache(Some(nonEmpty), w.now)), id, ByProbe(nonEmpty))
  }

  predicate IsRun(c: Config, w: World, steps: seq<Step>)
    decreases |steps|
  {
    steps == [] || (Enabled(c, w, steps[0]) && IsRun(c, Apply(c, w, steps[0]), steps[1..]))
  }

  function After(c: Config, w: World, steps: seq<Step>): World
    requires IsRun(c, w, steps)
    decreases |steps|
  {
    if steps == [] then w else After(c, Apply(c, w, steps[0]), steps[1..])
  }

  // ---- Invariant ----

  predicate SinceSound(w: World) {
    && (w.since.None? <==> w.rows == map[])
    && (w.since.Some? ==> w.since.value <= w.now)
  }

  /** What is believed to be empty was so when it was read, before the rows of today came. */
  predicate CallSound(w: World, call: Call) {
    call.pc.AtSettle? ==>
      && call.pc.readAt <= w.now
      && (!call.pc.nonEmpty && w.since.Some? ==> call.pc.readAt <= w.since.value)
  }

  predicate CallsSound(w: World) {
    forall id :: id in w.calls ==> CallSound(w, w.calls[id])
  }

  predicate CacheSound(c: Config, w: World) {
    w.cache.hasInstall.Some? ==>
      && w.cache.at <= w.now
      && (!w.cache.hasInstall.value && w.since.Some? ==> w.cache.at <= w.since.value + c.lag)
  }

  /** The default is not borrowed once rows have been there for the ttl and the lag. */
  predicate AnswerSound(c: Config, answer: Answer) {
    answer.source.EnvDefault? && answer.since.Some? ==>
      answer.at - answer.since.value < c.ttlMs + c.lag || answer.at - answer.since.value <= c.lag
  }

  predicate AnswersSound(c: Config, w: World) {
    forall i :: 0 <= i < |w.answers| ==> AnswerSound(c, w.answers[i])
  }

  predicate Inv(c: Config, w: World) {
    SinceSound(w) && CallsSound(w) && CacheSound(c, w) && AnswersSound(c, w)
  }

  lemma StepKeepsCalls(c: Config, w: World, step: Step)
    requires Inv(c, w) && Enabled(c, w, step)
    ensures CallsSound(Apply(c, w, step)) && SinceSound(Apply(c, w, step))
  {
    var w' := Apply(c, w, step);
    forall id | id in w'.calls ensures CallSound(w', w'.calls[id]) {
      assert id in w.calls ==> CallSound(w, w.calls[id]);
    }
    if step.Put? {
      assert step.team in w'.rows;
    }
  }

  lemma StepKeepsCache(c: Config, w: World, step: Step)
    requires Inv(c, w) && Enabled(c, w, step)
    ensures CacheSound(c, Apply(c, w, step))
  {
    if step.Settle? {
      assert CallSound(w, w.calls[step.id]);
    }
  }

  lemma StepKeepsAnswers(c: Config, w: World, step: Step)
    requires Inv(c, w) && Enabled(c, w, step)
    ensures AnswersSound(c, Apply(c, w, step))
  {
    if step.Settle? {
      assert CallSound(w, w.calls[step.id]);
    }
  }

  lemma {:induction false} RunKeepsInv(c: Config, w: World, steps: seq<Step>)
    requires Inv(c, w) && IsRun(c, w, steps)
    ensures Inv(c, After(c, w, steps))
    decreases |steps|
  {
    if steps != [] {
      StepKeepsCalls(c, w, steps[0]);
      StepKeepsCache(c, w, steps[0]);
      StepKeepsAnswers(c, w, steps[0]);
      RunKeepsInv(c, Apply(c, w, steps[0]), steps[1..]);
    }
  }

  // ---- Theorems over all runs ----

  ghost predicate Reaches(c: Config, w: World, w': World) {
    exists steps :: IsRun(c, w, steps) && After(c, w, steps) == w'
  }

  /**
   * In any order of calls, cache hits and failures: once a row has existed for the ttl plus the
   * lag of a probe, nobody borrows the default. With probes taken as one step that is the ttl.
   */
  lemma NoBorrowingOnceRowsAreOld(c: Config, now: int, w: World, i: nat)
    requires Reaches(c, Initial(now), w) && i < |w.answers| && c.ttlMs > 0
    requires w.answers[i].since.Some? && w.answers[i].at - w.answers[i].since.value >= c.ttlMs + c.lag
    ensures !w.answers[i].source.EnvDefault?
  {
    var steps :| IsRun(c, Initial(now), steps) && After(c, Initial(now), steps) == w;
    RunKeepsInv(c, Initial(now), steps);
    assert AnswerSound(c, w.answers[i]);
  }

  ghost predicate Reachable(c: Config, w: World) {
    exists now :: Reaches(c, Initial(now), w)
  }

  lemma {:induction false} RunConcat(c: Config, w: World, first: seq<Step>, second: seq<Step>)
    requires IsRun(c, w, first) && IsRun(c, After(c, w, first), second)
    ensures IsRun(c, w, first + second)
    ensures After(c, w, first + second) == After(c, After(c, w, first), second)
    decreases |first|
  {
    if first == [] {
      assert first + second == second;
    } else {
      RunConcat(c, Apply(c, w, first[0]), first[1..], second);
      assert (first + second)[1..] == first[1..] + second;
    }
  }

  lemma ReachesFurther(c: Config, origin: World, w: World, steps: seq<Step>)
    requires Reaches(c, origin, w) && IsRun(c, w, steps)
    ensures Reaches(c, origin, After(c, w, steps))
  {
    var first :| IsRun(c, origin, first) && After(c, origin, first) == w;
    RunConcat(c, origin, first, steps);
  }

  lemma ReachesTransitive(c: Config, a: World, b: World, z: World)
    requires Reaches(c, a, b) && Reaches(c, b, z)
    ensures Reaches(c, a, z)
  {
    var second :| IsRun(c, b, second) && After(c, b, second) == z;
    ReachesFurther(c, a, b, second);
  }

  lemma Extend(c: Config, origin: World, w: World, step: Step) returns (w': World)
    requires Reaches(c, origin, w) && Enabled(c, w, step)
    ensures w' == Apply(c, w, step) && Reaches(c, origin, w')
  {
    w' := Apply(c, w, step);
    assert [step][1..] == [];
    assert IsRun(c, w', []) && After(c, w', []) == w';
    ReachesFurther(c, origin, w, [step]);
  }

  /** A probe that read no rows is settled as late as it may be, after the first row has come. */
  lemma NoneGetsCached(c: Config, row: Row) returns (w: World)
    ensures Reaches(c, Initial(0), w) && w.cache == Cache(Some(false), c.lag)
    ensures w.now == c.lag && w.rows == map["T" := row] && w.since == Some(0) && w.calls.Keys == {0}
  {
    assert IsRun(c, Initial(0), []) && After(c, Initial(0), []) == Initial(0);
    w := Extend(c, Initial(0), Initial(0), Begin(0, ""));
    w := Extend(c, Initial(0), w, Gate(0));
    w := Extend(c, Initial(0), w, Probe(0, true));
    w := Extend(c, Initial(0), w, Put("T", row));
    w := Extend(c, Initial(0), w, Tick(c.lag));
    w := Extend(c, Initial(0), w, Settle(0));
  }

  /**
   * Until the last millisecond before that the default is borrowed: the cached "none" outlives
   * the first row by the lag and the ttl, so the bound of NoBorrowingOnceRowsAreOld is tight.
   */
  lemma BorrowedWithinTheTtl(c: Config, row: Row) returns (w: World)
    requires c.ttlMs > 0
    ensures Reaches(c, Initial(0), w) && w.answers != []
    ensures w.answers[|w.answers| - 1] == Answer("", EnvDefault, c.ttlMs + c.lag - 1, Some(0))
  {
    w := NoneGetsCached(c, row);
    w := Extend(c, Initial(0), w, Tick(c.ttlMs - 1));
    w := Extend(c, Initial(0), w, Begin(1, ""));
    w := Extend(c, Initial(0), w, Gate(1));
  }

  /**
   * Whether a call borrows is decided when it is answered: by a fresh "none" in the cache, or by
   * its own probe, which saw no row. A failed probe never borrows, whatever the cache once said.
   */
  lemma BorrowsExactlyIfNoneWasSeen(c: Config, w: World, step: Step, id: nat)
    requires Enabled(c, w, step) && id in w.calls && !w.calls[id].pc.Done?
    ensures At(Apply(c, w, step), id, Done(EnvDefault)) <==>
      || (step == Gate(id) && IsFresh(c, w.cache, w.now) && !w.cache.hasInstall.value)
      || (step == Settle(id) && !w.calls[id].pc.nonEmpty)
  {
  }
}
