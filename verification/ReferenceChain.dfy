/**
 * Following the chain of quoted messages
 * (apps/api/src/referenced-message-enrichment.ts:20-21, 45-121, 229-303, 372-378): fetch the
 * referenced message, then what it refers to, up to a depth the text may ask for.
 */
module ReferenceChain {
  import opened Wrappers

  // ---- Messages ----

  datatype Message = Message(
    messageId: string,
    referenceId: Option<string>,
    parentId: Option<string>,
    hasImage: bool,
    warnings: seq<string>)

  /** What a fetch of an id gives; every id is fetched at most once. */
  datatype Reply = Found(message: Message) | Missing | Failed(error: string)

  /** The upstream message: the reference if there is one, else the parent, never the message itself. */
  function UpstreamOf(m: Message): Option<string> {
    var id := if m.referenceId.Some? then m.referenceId else m.parentId;
    if id == Some(m.messageId) then None else id
  }

  // ---- Warnings ----

  function WithoutRepeats(warnings: seq<string>, seen: set<string>): seq<string> {
    if warnings == [] then []
    else if warnings[0] == "" || warnings[0] in seen then WithoutRepeats(warnings[1..], seen)
    else [warnings[0]] + WithoutRepeats(warnings[1..], seen + {warnings[0]})
  }

  /** `mergeWarnings`: undefined instead of an empty list. */
  function MergeWarnings(existing: Option<seq<string>>, incoming: seq<string>): Option<seq<string>> {
    var merged := WithoutRepeats((if existing.Some? then existing.value else []) + incoming, {});
    if merged == [] then None else Some(merged)
  }

  predicate Warns(warnings: Option<seq<string>>, text: string) {
    warnings.Some? && text in warnings.value
  }

  predicate Distinct(s: seq<string>) {
    forall i, j :: 0 <= i < j < |s| ==> s[i] != s[j]
  }

  lemma {:induction false} WithoutRepeatsMembers(warnings: seq<string>, seen: set<string>)
    ensures forall x :: x in WithoutRepeats(warnings, seen) <==> x in warnings && x != "" && x !in seen
    ensures Distinct(WithoutRepeats(warnings, seen))
  {
    if warnings != [] {
      if warnings[0] == "" || warnings[0] in seen {
        WithoutRepeatsMembers(warnings[1..], seen);
      } else {
        var rest := WithoutRepeats(warnings[1..], seen + {warnings[0]});
        WithoutRepeatsMembers(warnings[1..], seen + {warnings[0]});
        forall k | 0 <= k < |rest| ensures rest[k] != warnings[0] {
          assert rest[k] in rest;
        }
      }
    }
  }

  /** Merging keeps every non-empty warning of both sides once. */
  lemma {:induction false} MergeKeepsWarnings(existing: Option<seq<string>>, incoming: seq<string>, text: string)
    ensures Warns(MergeWarnings(existing, incoming), text) <==>
      text != "" && (Warns(existing, text) || text in incoming)
    ensures MergeWarnings(existing, incoming).Some? ==> Distinct(MergeWarnings(existing, incoming).value)
  {
    var all := (if existing.Some? then existing.value else []) + incoming;
    WithoutRepeatsMembers(all, {});
    assert text in all <==> Warns(existing, text) || text in incoming;
    assert Warns(MergeWarnings(existing, incoming), text) <==> text in WithoutRepeats(all, {});
  }

  // ---- The depth ----

  const DEFAULT_REFERENCED_MESSAGE_ANCESTOR_DEPTH := 3
  const MAX_REFERENCED_MESSAGE_ANCESTOR_DEPTH := 10

  /** A numeral in the text: decimal digits, or Chinese digits and the sign for ten. */
  datatype Sign = Digit(value: nat) | Ten

  datatype Numeral = Decimal(value: nat) | Chinese(signs: seq<Sign>)

  function DigitAt(signs: seq<Sign>, i: nat): Option<nat>
    requires i < |signs|
  {
    if signs[i].Digit? then Some(signs[i].value) else None
  }

  function IndexOfTen(signs: seq<Sign>): (i: nat)
    ensures i <= |signs|
    ensures i < |signs| ==> signs[i].Ten?
  {
    if signs == [] || signs[0].Ten? then 0 else 1 + IndexOfTen(signs[1..])
  }

  function ParseNaturalNumber(numeral: Numeral): Option<nat> {
    match numeral
    case Decimal(value) => Some(value)
    case Chinese(signs) =>
      var ten := IndexOfTen(signs);
      if ten < |signs| then
        var tens := if ten == 0 then Some(1) else DigitAt(signs, ten - 1);
        var ones := if ten == |signs| - 1 then Some(0) else DigitAt(signs, ten + 1);
        if tens.None? || ones.None? then None else Some(tens.value * 10 + ones.value)
      else if |signs| == 1 then DigitAt(signs, 0)
      else None
  }

  /** How a number below a hundred is written. */
  function WriteChinese(n: nat): seq<Sign>
    requires n < 100
  {
    if n < 10 then [Digit(n)]
    else
      (if n < 20 then [] else [Digit(n / 10)]) + [Ten] + (if n % 10 == 0 then [] else [Digit(n % 10)])
  }

  lemma ChineseNumeralsReadBack(n: nat)
    requires n < 100
    ensures ParseNaturalNumber(Chinese(WriteChinese(n))) == Some(n)
  {
    var signs := WriteChinese(n);
    if 10 <= n < 20 {
      assert IndexOfTen(signs) == 0;
    } else if n >= 20 {
      assert signs[1..][0].Ten?;
      assert IndexOfTen(signs[1..]) == 0;
      assert IndexOfTen(signs) == 1;
    }
  }

  /** The depth of the first numeral found that can be read, within bounds; else the default. */
  function AncestorDepth(numerals: seq<Numeral>): (depth: nat)
    ensures depth <= MAX_REFERENCED_MESSAGE_ANCESTOR_DEPTH
  {
    if numerals == [] then DEFAULT_REFERENCED_MESSAGE_ANCESTOR_DEPTH
    else
      var parsed := ParseNaturalNumber(numerals[0]);
      if parsed.None? then AncestorDepth(numerals[1..])
      else if parsed.value > MAX_REFERENCED_MESSAGE_ANCESTOR_DEPTH then MAX_REFERENCED_MESSAGE_ANCESTOR_DEPTH
      else parsed.value
  }

  // ---- The walk ----

  /** Why the walk ended. */
  datatype Ending =
    | ChainEnds
    | DepthReached
    | NotAnImage
    | Cycle(id: string)
    | Unavailable(id: string)
    | Broken(id: string, error: string)

  /** What the walk fetched and appended. */
  datatype Walk = Walk(fetched: seq<string>, appended: seq<Message>, ending: Ending)

  /**
   * The chain from `next` on, with `left` fetches to go. In the first message of a new topic
   * only one image message is taken (`topic`, and `first` before anything was fetched).
   */
  function WalkFrom(
    client: string -> Reply, topic: bool, first: bool, seen: set<string>, next: Option<string>, left: nat): Walk
    decreases left
  {
    if next.None? then Walk([], [], ChainEnds)
    else if left == 0 then Walk([], [], DepthReached)
    else if next.value in seen then Walk([], [], Cycle(next.value))
    else
      match client(next.value)
      case Missing => Walk([next.value], [], Unavailable(next.value))
      case Failed(error) => Walk([next.value], [], Broken(next.value, error))
      case Found(message) =>
        if topic && first && !message.hasImage then Walk([next.value], [], NotAnImage)
        else
          var upstream := if topic then None else UpstreamOf(message);
          var rest := WalkFrom(client, topic, false, seen + {next.value}, upstream, left - 1);
          Walk([next.value] + rest.fetched, [message] + rest.appended, rest.ending)
  }

  /** A found message is appended and the walk goes on upstream. */
  predicate GoesOn(
    client: string -> Reply, topic: bool, first: bool, seen: set<string>, next: Option<string>, left: nat) {
    && next.Some? && left > 0 && next.value !in seen
    && client(next.value).Found?
    && !(topic && first && !client(next.value).message.hasImage)
  }

  function RestOf(client: string -> Reply, topic: bool, seen: set<string>, id: string, left: nat): Walk
    requires client(id).Found? && left > 0
  {
    WalkFrom(client, topic, false, seen + {id}, if topic then None else UpstreamOf(client(id).message), left - 1)
  }

  lemma WalkGoesOn(
    client: string -> Reply, topic: bool, first: bool, seen: set<string>, next: Option<string>, left: nat)
    requires GoesOn(client, topic, first, seen, next, left)
    ensures var rest := RestOf(client, topic, seen, next.value, left);
      WalkFrom(client, topic, first, seen, next, left) ==
      Walk([next.value] + rest.fetched, [client(next.value).message] + rest.appended, rest.ending)
  {
  }

  /** Why the walk stops where it stands. */
  function StopOf(client: string -> Reply, seen: set<string>, next: Option<string>, left: nat): Ending {
    if next.None? then ChainEnds
    else if left == 0 then DepthReached
    else if next.value in seen then Cycle(next.value)
    else
      match client(next.value)
      case Missing => Unavailable(next.value)
      case Failed(error) => Broken(next.value, error)
      case Found(_) => NotAnImage
  }

  lemma WalkStopsHere(
    client: string -> Reply, topic: bool, first: bool, seen: set<string>, next: Option<string>, left: nat)
    requires !GoesOn(client, topic, first, seen, next, left)
    ensures WalkFrom(client, topic, first, seen, next, left).appended == []
    ensures WalkFrom(client, topic, first, seen, next, left).ending == StopOf(client, seen, next, left)
    ensures WalkFrom(client, topic, first, seen, next, left).fetched ==
      if next.None? || left == 0 || next.value in seen then [] else [next.value]
  {
  }

  const STOPPED := "Referenced message chain stopped before "

  const CYCLE_DETECTED := ": cycle detected"

  const REFERENCED := "Referenced message "

  const UNAVAILABLE := " unavailable"

  function WarningOf(ending: Ending): (text: Option<string>)
    ensures text.Some? <==> ending.Cycle? || ending.Unavailable? || ending.Broken?
  {
    match ending
    case Cycle(id) => Some(STOPPED + id + CYCLE_DETECTED)
    case Unavailable(id) => Some(REFERENCED + id + UNAVAILABLE)
    case Broken(id, error) => Some(REFERENCED + id + UNAVAILABLE + ": " + error)
    case _ => None
  }

  function WarningsAfter(warnings: Option<seq<string>>, appended: seq<Message>, ending: Ending): Option<seq<string>>
    decreases |appended|
  {
    if appended == [] then
      if WarningOf(ending).Some? then MergeWarnings(warnings, [WarningOf(ending).value]) else warnings
    else
      WarningsAfter(MergeWarnings(warnings, appended[0].warnings), appended[1..], ending)
  }

  /** What the loop has gathered, and the rest of the walk, make up the result. */
  datatype Gathered = Gathered(messages: seq<Message>, warnings: Option<seq<string>>, fetched: seq<string>)

  function Complete(sofar: Gathered, rest: Walk): Gathered {
    Gathered(sofar.messages + rest.appended,
             WarningsAfter(sofar.warnings, rest.appended, rest.ending),
             sofar.fetched + rest.fetched)
  }

  /** One round: a found message goes to the end of the list, its warnings after the others. */
  lemma RoundCompletes(sofar: Gathered, id: string, message: Message, rest: Walk)
    ensures Complete(sofar, Walk([id] + rest.fetched, [message] + rest.appended, rest.ending)) ==
      Complete(
        Gathered(sofar.messages + [message], MergeWarnings(sofar.warnings, message.warnings), sofar.fetched + [id]),
        rest)
  {
    assert ([message] + rest.appended)[1..] == rest.appended;
    assert sofar.messages + ([message] + rest.appended) == (sofar.messages + [message]) + rest.appended;
    assert sofar.fetched + ([id] + rest.fetched) == (sofar.fetched + [id]) + rest.fetched;
  }

  /** The last round: what stopped the walk leaves its warning. */
  lemma StopCompletes(sofar: Gathered, rest: Walk)
    requires rest.appended == []
    ensures Complete(sofar, rest)
      == Gathered(sofar.messages, Noted(sofar.warnings, rest.ending), sofar.fetched + rest.fetched)
  {
  }

  function Noted(warnings: Option<seq<string>>, ending: Ending): Option<seq<string>> {
    if WarningOf(ending).Some? then MergeWarnings(warnings, [WarningOf(ending).value]) else warnings
  }

  /** The chain loop of `enrichEventWithReferencedMessage`; `fetched` are the ids it asked for. */
  method FollowChain(
    client: string -> Reply, eventMessageId: string, start: string, depth: nat, topic: bool,
    existing: seq<Message>, existingWarnings: Option<seq<string>>)
    returns (messages: seq<Message>, warnings: Option<seq<string>>, ghost fetched: seq<string>)
    ensures var walk := WalkFrom(client, topic, true, {eventMessageId}, Some(start), depth + 1);
      var result := Complete(Gathered(existing, existingWarnings, []), walk);
      messages == result.messages && warnings == result.warnings && fetched == result.fetched
  {
    ghost var left: nat := depth + 1;
    ghost var result := Complete(Gathered(existing, existingWarnings, []),
      WalkFrom(client, topic, true, {eventMessageId}, Some(start), left));
    messages, warnings, fetched := existing, existingWarnings, [];
    var seenMessageIds := {eventMessageId};
    var next, index, first := Some(start), 0, true;
    while next.Some? && index < depth + 1
      invariant left + index == depth + 1
      invariant Complete(Gathered(messages, warnings, fetched),
                         WalkFrom(client, topic, first, seenMessageIds, next, left)) == result
      decreases left
    {
      var id := next.value;
      var stopped: bool;
      stopped, messages, warnings, fetched, next :=
        Round(client, topic, first, seenMessageIds, id, messages, warnings, fetched, left);
      if stopped {
        return;
      }
      seenMessageIds := seenMessageIds + {id};
      index, first, left := index + 1, false, left - 1;
    }
    WalkStopsHere(client, topic, first, seenMessageIds, next, left);
    StopCompletes(Gathered(messages, warnings, fetched), WalkFrom(client, topic, first, seenMessageIds, next, left));
  }

  /** One round of the loop: what it gathers, and where the walk goes on, unless it stops here. */
  method Round(
    client: string -> Reply, topic: bool, first: bool, seen: set<string>, id: string,
    messages: seq<Message>, warnings: Option<seq<string>>, ghost fetched: seq<string>, ghost left: nat)
    returns (stopped: bool, messages': seq<Message>, warnings': Option<seq<string>>, ghost fetched': seq<string>,
             next: Option<string>)
    requires left > 0
    ensures
      var result := Complete(
        Gathered(messages, warnings, fetched), WalkFrom(client, topic, first, seen, Some(id), left));
      var gathered := Gathered(messages', warnings', fetched');
      if stopped then gathered == result
      else Complete(gathered, WalkFrom(client, topic, false, seen + {id}, next, left - 1)) == result
  {
    ghost var walk := WalkFrom(client, topic, first, seen, Some(id), left);
    ghost var before := Gathered(messages, warnings, fetched);
    var stop, message;
    ghost var asked;
    stop, message, asked := Visit(client, topic, first, seen, id, left);
    fetched' := fetched + asked;
    stopped := stop.Some?;
    if stopped {
      WalkStopsHere(client, topic, first, seen, Some(id), left);
      StopCompletes(before, walk);
      messages', next := messages, None;
      warnings' := Noted(warnings, stop.value);
    } else {
      next := if topic then None else UpstreamOf(message.value);
      WalkGoesOn(client, topic, first, seen, Some(id), left);
      RoundCompletes(before, id, message.value, WalkFrom(client, topic, false, seen + {id}, next, left - 1));
      messages' := messages + [message.value];
      warnings' := MergeWarnings(warnings, message.value.warnings);
    }
  }

  /** One round of the loop up to the appended message: the message, or what stops the walk. */
  method Visit(client: string -> Reply, topic: bool, first: bool, seen: set<string>, id: string, ghost left: nat)
    returns (stop: Option<Ending>, message: Option<Message>, ghost asked: seq<string>)
    requires left > 0
    ensures asked == if id in seen then [] else [id]
    ensures stop.None? <==> GoesOn(client, topic, first, seen, Some(id), left)
    ensures stop.Some? ==> stop.value == StopOf(client, seen, Some(id), left)
    ensures stop.None? ==> message.Some? && client(id) == Found(message.value)
  {
    if id in seen {
      return Some(Cycle(id)), None, [];
    }
    var reply := client(id);
    asked := [id];
    if reply.Missing? {
      return Some(Unavailable(id)), None, asked;
    }
    if reply.Failed? {
      return Some(Broken(id, reply.error)), None, asked;
    }
    if topic && first && !reply.message.hasImage {
      return Some(NotAnImage), None, asked;
    }
    return None, Some(reply.message), asked;
  }

  // ---- What the walk guarantees on every graph, cyclic or not ----

  /** Bounded, and no id is fetched twice or is the event's own. */
  lemma {:induction false} WalkIsBounded(
    client: string -> Reply, topic: bool, first: bool, seen: set<string>, next: Option<string>, left: nat)
    ensures var walk := WalkFrom(client, topic, first, seen, next, left);
      && |walk.fetched| <= left
      && Distinct(walk.fetched)
      && (forall id :: id in walk.fetched ==> id !in seen)
    decreases left
  {
    var walk := WalkFrom(client, topic, first, seen, next, left);
    if |walk.fetched| > 0 && client(next.value).Found? {
      var message := client(next.value).message;
      if !(topic && first && !message.hasImage) {
        var upstream := if topic then None else UpstreamOf(message);
        WalkIsBounded(client, topic, false, seen + {next.value}, upstream, left - 1);
        var rest := WalkFrom(client, topic, false, seen + {next.value}, upstream, left - 1);
        forall k | 0 <= k < |rest.fetched| ensures rest.fetched[k] != next.value {
          assert rest.fetched[k] in rest.fetched;
        }
      }
    }
  }

  /** The ids that the loop asks for, as `FollowChain` reports them: what it starts with plays no part. */
  function Fetched(
    client: string -> Reply, topic: bool, eventMessageId: string, start: string, depth: nat): seq<string> {
    Complete(Gathered([], None, []), WalkFrom(client, topic, true, {eventMessageId}, Some(start), depth + 1)).fetched
  }

  lemma FetchesAreBounded(client: string -> Reply, topic: bool, eventMessageId: string, start: string, depth: nat)
    ensures var fetched := Fetched(client, topic, eventMessageId, start, depth);
      |fetched| <= depth + 1 && Distinct(fetched) && eventMessageId !in fetched
  {
    var walk := WalkFrom(client, topic, true, {eventMessageId}, Some(start), depth + 1);
    WalkIsBounded(client, topic, true, {eventMessageId}, Some(start), depth + 1);
    assert [] + walk.fetched == walk.fetched;
  }

  /** At most eleven ids, whatever depth the text asks for, all distinct, none the event's own. */
  lemma AtMostElevenFetches(
    client: string -> Reply, topic: bool, eventMessageId: string, start: string, numerals: seq<Numeral>)
    ensures var depth := AncestorDepth(numerals);
      var fetched := Fetched(client, topic, eventMessageId, start, depth);
      |fetched| <= depth + 1 <= 11 && Distinct(fetched) && eventMessageId !in fetched
  {
    FetchesAreBounded(client, topic, eventMessageId, start, AncestorDepth(numerals));
  }

  /** The i-th message answers the i-th fetch, and the next fetch is what it refers to. */
  predicate IsPath(client: string -> Reply, fetched: seq<string>, appended: seq<Message>) {
    && |appended| <= |fetched| <= |appended| + 1
    && (forall i :: 0 <= i < |appended| ==> client(fetched[i]) == Found(appended[i]))
    && (forall i :: 0 <= i < |fetched| - 1 ==> UpstreamOf(appended[i]) == Some(fetched[i + 1]))
  }

  /** How the walk went on after its last message. */
  function Frontier(next: Option<string>, topic: bool, appended: seq<Message>): Option<string> {
    if appended == [] then next else if topic then None else UpstreamOf(appended[|appended| - 1])
  }

  /** The last fetch brought no message. */
  predicate EndsWith(walk: Walk, id: string) {
    |walk.fetched| == |walk.appended| + 1 && walk.fetched[|walk.appended|] == id
  }

  /** The ending says exactly what stopped the walk. */
  predicate EndsFor(
    client: string -> Reply, topic: bool, first: bool, seen: set<string>, next: Option<string>, left: nat, walk: Walk)
  {
    var frontier := Frontier(next, topic, walk.appended);
    match walk.ending
    case ChainEnds => frontier.None? && |walk.fetched| == |walk.appended|
    case DepthReached => frontier.Some? && |walk.fetched| == |walk.appended| == left
    case Cycle(id) =>
      && frontier == Some(id)
      && (id in seen || id in walk.fetched)
      && |walk.fetched| == |walk.appended|
    case Unavailable(id) =>
      frontier == Some(id) && client(id).Missing? && EndsWith(walk, id)
    case Broken(id, error) =>
      frontier == Some(id) && client(id) == Failed(error) && EndsWith(walk, id)
    case NotAnImage => topic && first && walk.appended == [] && |walk.fetched| == 1
  }

  lemma WalkStops(client: string -> Reply, topic: bool, first: bool, seen: set<string>, next: Option<string>, left: nat)
    requires !GoesOn(client, topic, first, seen, next, left)
    ensures var walk := WalkFrom(client, topic, first, seen, next, left);
      && walk.appended == []
      && (walk.fetched == [] || (next.Some? && walk.fetched == [next.value]))
      && EndsFor(client, topic, first, seen, next, left, walk)
  {
  }

  lemma {:induction false} WalkIsAPath(
    client: string -> Reply, topic: bool, first: bool, seen: set<string>, next: Option<string>, left: nat)
    ensures var walk := WalkFrom(client, topic, first, seen, next, left);
      && IsPath(client, walk.fetched, walk.appended)
      && (walk.fetched != [] ==> next == Some(walk.fetched[0]))
    decreases left
  {
    if GoesOn(client, topic, first, seen, next, left) {
      var message, rest := client(next.value).message, RestOf(client, topic, seen, next.value, left);
      WalkIsAPath(client, topic, false, seen + {next.value}, if topic then None else UpstreamOf(message), left - 1);
      WalkGoesOn(client, topic, first, seen, next, left);
      PathExtends(client, next.value, message, rest.fetched, rest.appended);
    } else {
      WalkStops(client, topic, first, seen, next, left);
    }
  }

  /** The upstream end of the chain gives the whole chain its ending. */
  lemma EndsLikeItsRest(
    client: string -> Reply, topic: bool, first: bool, seen: set<string>, next: Option<string>, left: nat)
    requires GoesOn(client, topic, first, seen, next, left)
    requires var rest := RestOf(client, topic, seen, next.value, left);
      && |rest.appended| <= |rest.fetched|
      && EndsFor(client, topic, false, seen + {next.value},
                 if topic then None else UpstreamOf(client(next.value).message), left - 1, rest)
    ensures EndsFor(client, topic, first, seen, next, left, WalkFrom(client, topic, first, seen, next, left))
  {
    WalkGoesOn(client, topic, first, seen, next, left);
    EndingExtends(client, topic, first, seen, next.value, left, client(next.value).message,
      RestOf(client, topic, seen, next.value, left));
  }

  /** Each ending means exactly what it says, for every graph. */
  lemma {:induction false} WalkEndsForItsReason(
    client: string -> Reply, topic: bool, first: bool, seen: set<string>, next: Option<string>, left: nat)
    ensures EndsFor(client, topic, first, seen, next, left, WalkFrom(client, topic, first, seen, next, left))
    decreases left
  {
    if GoesOn(client, topic, first, seen, next, left) {
      var upstream := if topic then None else UpstreamOf(client(next.value).message);
      WalkIsAPath(client, topic, false, seen + {next.value}, upstream, left - 1);
      WalkEndsForItsReason(client, topic, false, seen + {next.value}, upstream, left - 1);
      EndsLikeItsRest(client, topic, first, seen, next, left);
    } else {
      WalkStops(client, topic, first, seen, next, left);
    }
  }

  lemma PathExtends(client: string -> Reply, id: string, message: Message, fetched: seq<string>, appended: seq<Message>)
    requires client(id) == Found(message) && IsPath(client, fetched, appended)
    requires fetched != [] ==> UpstreamOf(message) == Some(fetched[0])
    ensures IsPath(client, [id] + fetched, [message] + appended)
  {
  }

  lemma EndingExtends(
    client: string -> Reply, topic: bool, first: bool, seen: set<string>, id: string, left: nat,
    message: Message, rest: Walk)
    requires left > 0 && |rest.appended| <= |rest.fetched|
    requires EndsFor(client, topic, false, seen + {id}, if topic then None else UpstreamOf(message), left - 1, rest)
    ensures EndsFor(client, topic, first, seen, Some(id), left,
      Walk([id] + rest.fetched, [message] + rest.appended, rest.ending))
  {
    if rest.appended != [] {
      assert ([message] + rest.appended)[|rest.appended|] == rest.appended[|rest.appended| - 1];
    }
  }

  /** Warnings only accumulate. */
  lemma {:induction false} WarningsStay(
    warnings: Option<seq<string>>, appended: seq<Message>, ending: Ending, text: string)
    requires Warns(warnings, text) && text != ""
    ensures Warns(WarningsAfter(warnings, appended, ending), text)
    decreases |appended|
  {
    if appended == [] {
      if WarningOf(ending).Some? {
        MergeKeepsWarnings(warnings, [WarningOf(ending).value], text);
      }
    } else {
      MergeKeepsWarnings(warnings, appended[0].warnings, text);
      WarningsStay(MergeWarnings(warnings, appended[0].warnings), appended[1..], ending, text);
    }
  }

  /** A cycle, a missing message and a failed fetch always leave their warning. */
  lemma {:induction false} EarlyStopsWarn(warnings: Option<seq<string>>, appended: seq<Message>, ending: Ending)
    requires ending.Cycle? || ending.Unavailable? || ending.Broken?
    ensures Warns(WarningsAfter(warnings, appended, ending), WarningOf(ending).value)
    decreases |appended|
  {
    if appended == [] {
      assert |WarningOf(ending).value| > 0;
      MergeKeepsWarnings(warnings, [WarningOf(ending).value], WarningOf(ending).value);
    } else {
      EarlyStopsWarn(MergeWarnings(warnings, appended[0].warnings), appended[1..], ending);
    }
  }

  /** What every fetched message warned about is kept. */
  lemma {:induction false} MessageWarningsStay(
    warnings: Option<seq<string>>, appended: seq<Message>, ending: Ending, i: nat, text: string)
    requires i < |appended| && text in appended[i].warnings && text != ""
    ensures Warns(WarningsAfter(warnings, appended, ending), text)
    decreases |appended|
  {
    var merged := MergeWarnings(warnings, appended[0].warnings);
    MergeKeepsWarnings(warnings, appended[0].warnings, text);
    if i == 0 {
      WarningsStay(merged, appended[1..], ending, text);
    } else {
      MessageWarningsStay(merged, appended[1..], ending, i - 1, text);
    }
  }
}
