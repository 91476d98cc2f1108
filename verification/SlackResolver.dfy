/**
 * The resolver of bot identities as code (apps/api/src/slack-installation-resolver.ts:45-138),
 * query by query, with its cache of channel objects. Before each query other calls and the
 * admin may move. Its contract: a call is a run of the machine of SlackInstallations, and its
 * result is the identity that the machine's answer stands for.
 */
module SlackResolver {
  import opened Wrappers
  import opened SlackInstallations

  predicate IsOther(id: nat, step: Step) {
    (step.Begin? || step.Lookup? || step.Gate? || step.Probe? || step.Settle?) ==> step.id != id
  }

  predicate OthersOnly(c: Config, w: World, id: nat, steps: seq<Step>) {
    IsRun(c, w, steps) && forall i :: 0 <= i < |steps| ==> IsOther(id, steps[i])
  }

  lemma {:induction false} OthersKeepCall(c: Config, w: World, id: nat, steps: seq<Step>)
    requires OthersOnly(c, w, id, steps) && id in w.calls
    ensures id in After(c, w, steps).calls && After(c, w, steps).calls[id] == w.calls[id]
    decreases |steps|
  {
    if steps != [] {
      assert forall i :: 0 <= i < |steps[1..]| ==> steps[1..][i] == steps[i + 1];
      OthersKeepCall(c, Apply(c, w, steps[0]), id, steps[1..]);
    }
  }

  class SlackChannel {
    const token: string

    constructor (token: string)
      ensures this.token == token
    {
      this.token := token;
    }
  }

  /** A trimmed text that may be empty: empty counts as absent. */
  function NonEmpty(text: Option<string>): Option<string> {
    if text == Some("") then None else text
  }

  class SlackInstallationResolver {
    const config: Config
    const defaultBotUserId: Option<string>
    const defaultBotToken: Option<string>
    var w: World
    var channelsByToken: map<string, SlackChannel>

    constructor (config: Config, defaultBotUserId: Option<string>, defaultBotToken: Option<string>, now: int)
      ensures this.config == config && this.defaultBotUserId == NonEmpty(defaultBotUserId)
      ensures this.defaultBotToken == NonEmpty(defaultBotToken) && w == Initial(now)
      ensures Valid() && fresh(channelsByToken.Values)
    {
      this.config := config;
      this.defaultBotUserId := NonEmpty(defaultBotUserId);
      this.defaultBotToken := NonEmpty(defaultBotToken);
      w := Initial(now);
      channelsByToken := map[];
      new;
      if this.defaultBotToken.Some? {
        var channel := new SlackChannel(this.defaultBotToken.value);
        channelsByToken := map[this.defaultBotToken.value := channel];
      }
    }

    /** Every channel is kept under its own token; the default's channel exists from the start. */
    predicate Valid()
      reads this
    {
      && (forall token :: token in channelsByToken ==> channelsByToken[token].token == token)
      && (defaultBotToken.Some? ==> defaultBotToken.value in channelsByToken)
    }

    /** Channels once made are handed out forever. */
    twostate predicate KeepsChannels()
      reads this
    {
      old(channelsByToken.Keys) <= channelsByToken.Keys
      && forall token :: token in old(channelsByToken) ==> channelsByToken[token] == old(channelsByToken[token])
    }

    predicate Stands(id: nat, team: string, pc: Pc)
      reads this
    {
      id in w.calls && w.calls[id] == Call(team, pc)
    }

    /** The call has just been answered. */
    predicate HasAnswered(id: nat, team: string, source: Source)
      reads this
    {
      && Stands(id, team, Done(source))
      && w.answers != []
      && w.answers[|w.answers| - 1] == Answer(team, source, w.now, w.since)
    }

    method ChannelFor(token: string) returns (channel: SlackChannel)
      requires Valid()
      modifies this`channelsByToken
      ensures Valid() && KeepsChannels()
      ensures token in channelsByToken && channelsByToken[token] == channel
      ensures token in old(channelsByToken) ==> channelsByToken == old(channelsByToken)
    {
      if token in channelsByToken {
        return channelsByToken[token];
      }
      channel := new SlackChannel(token);
      channelsByToken := channelsByToken[token := channel];
    }

    /** Others move, for at most `ms`. */
    method Pause(ghost origin: World, id: nat, ms: nat)
      requires Reaches(config, origin, w) && id in w.calls
      modifies this`w
      ensures Reaches(config, origin, w) && w.now <= old(w.now) + ms
      ensures id in w.calls && w.calls[id] == old(w.calls[id])
    {
      assert OthersOnly(config, w, id, []) && After(config, w, []) == w;
      var steps :| OthersOnly(config, w, id, steps) && After(config, w, steps).now <= w.now + ms;
      OthersKeepCall(config, w, id, steps);
      ReachesFurther(config, origin, w, steps);
      w := After(config, w, steps);
    }

    method Make(ghost origin: World, step: Step)
      requires Reaches(config, origin, w) && Enabled(config, w, step)
      modifies this`w
      ensures Reaches(config, origin, w) && w == Apply(config, old(w), step)
    {
      ghost var next := Extend(config, origin, w, step);
      w := Apply(config, w, step);
    }

    method BeginCall(id: nat, team: string)
      requires id !in w.calls
      modifies this`w
      ensures Reaches(config, old(w), w) && Stands(id, team, if team == "" then AtGate else AtLookup)
    {
      assert IsRun(config, w, []) && After(config, w, []) == w;
      Make(w, Begin(id, team));
    }

    /** An enabled row answers the call; no row, or a query that throws, leads to the gate. */
    method LookupRow(ghost origin: World, id: nat, team: string, ms: nat) returns (row: Option<Row>)
      requires Reaches(config, origin, w) && Stands(id, team, AtLookup)
      modifies this`w
      ensures Reaches(config, origin, w)
      ensures if row.Some? then HasAnswered(id, team, FromRow(row.value)) else Stands(id, team, AtGate)
    {
      Pause(origin, id, ms);
      var works: bool := *;
      row := if works && team in w.rows && w.rows[team].enabled then Some(w.rows[team]) else None;
      Make(origin, Lookup(id, works));
    }

    /** `anyInstallation`: the fresh answer of the cache, else a probe, which fails closed. */
    method AnyInstallation(ghost origin: World, id: nat, team: string, ms: nat) returns (any: bool)
      requires Reaches(config, origin, w) && Stands(id, team, AtGate)
      modifies this`w
      ensures Reaches(config, origin, w) && HasAnswered(id, team, ByProbe(any))
    {
      Pause(origin, id, 0);
      if w.cache.hasInstall.Some? && w.now - w.cache.at < config.ttlMs {
        any := w.cache.hasInstall.value;
        Make(origin, Gate(id));
        return;
      }
      Make(origin, Gate(id));
      Pause(origin, id, ms);
      var works: bool := *;
      var seen := w.rows != map[];
      Make(origin, Probe(id, works));
      if !works {
        return true;
      }
      Pause(origin, id, config.lag);
      Make(origin, Settle(id));
      any := seen;
    }

    /** What the answers of reachable worlds promise, for the one just given. */
    ghost method NoLateBorrowing(origin: World, id: nat, team: string, source: Source)
      requires Reachable(config, origin) && Reaches(config, origin, w) && HasAnswered(id, team, source)
      ensures config.ttlMs > 0 && w.since.Some? && w.now - w.since.value >= config.ttlMs + config.lag ==>
        !source.EnvDefault?
    {
      var now :| Reaches(config, Initial(now), origin);
      ReachesTransitive(config, Initial(now), origin, w);
      if config.ttlMs > 0 && w.since.Some? && w.now - w.since.value >= config.ttlMs + config.lag {
        NoBorrowingOnceRowsAreOld(config, now, w, |w.answers| - 1);
      }
    }

    /** An enabled row alone decides; otherwise the default, exactly if the answer lets it be borrowed. */
    method ResolveBotUserId(id: nat, team: string, ms: nat) returns (userId: Option<string>, ghost source: Source)
      requires Reachable(config, w) && id !in w.calls
      modifies this`w
      ensures Reaches(config, old(w), w) && HasAnswered(id, team, source)
      ensures userId == match source
        case FromRow(row) => NonEmpty(row.botUserId)
        case EnvDefault => defaultBotUserId
        case Nobody => None
      ensures config.ttlMs > 0 && w.since.Some? && w.now - w.since.value >= config.ttlMs + config.lag ==>
        !source.EnvDefault?
    {
      ghost var origin := w;
      BeginCall(id, team);
      var row: Option<Row> := None;
      if team != "" {
        row := LookupRow(origin, id, team, ms);
      }
      if row.Some? {
        userId, source := NonEmpty(row.value.botUserId), FromRow(row.value);
      } else {
        var any := AnyInstallation(origin, id, team, ms);
        userId, source := if any then None else defaultBotUserId, ByProbe(any);
      }
      NoLateBorrowing(origin, id, team, source);
    }

    /**
     * The channel of an enabled row's token, or of the default, exactly if there is one; a row
     * whose token cannot be resolved without throwing is treated like a failed query.
     */
    method ResolveSender(id: nat, team: string, ms: nat) returns (sender: Option<SlackChannel>, ghost source: Source)
      requires Valid() && Reachable(config, w) && id !in w.calls
      modifies this
      ensures Valid() && KeepsChannels() && Reaches(config, old(w), w) && HasAnswered(id, team, source)
      ensures sender.Some? <==> TokenOf(source).Some?
      ensures sender.Some? ==>
        && TokenOf(source).value in channelsByToken
        && sender.value == channelsByToken[TokenOf(source).value]
      ensures config.ttlMs > 0 && w.since.Some? && w.now - w.since.value >= config.ttlMs + config.lag ==>
        !source.EnvDefault?
    {
      ghost var origin := w;
      BeginCall(id, team);
      var row: Option<Row> := None;
      if team != "" {
        row := LookupRow(origin, id, team, ms);
      }
      var token: Option<string>;
      if row.Some? {
        token, source := row.value.token, FromRow(row.value);
      } else {
        var any := AnyInstallation(origin, id, team, ms);
        token, source := if any then None else defaultBotToken, ByProbe(any);
      }
      sender := None;
      if token.Some? {
        var channel := ChannelFor(token.value);
        sender := Some(channel);
      }
      NoLateBorrowing(origin, id, team, source);
    }

    /** The token that an answer stands for. */
    function TokenOf(source: Source): Option<string> {
      match source
      case FromRow(row) => row.token
      case EnvDefault => defaultBotToken
      case Nobody => None
    }
  }
}
