/**
 * The in-memory dedupe map of card actions (apps/api/src/card-action-handler.ts:69, 161-182):
 * swept on every keyed event, then asked and extended. It refines a rule about the history of
 * events alone.
 */
module CardDedup {
  import opened Wrappers

  const CARD_ACTION_DEDUP_TTL_MS := 15 * 60 * 1000

  /** A card event: its key, if it has a non-empty one, and when it came. */
  datatype Event = Event(key: Option<string>, at: int)

  function NonEmpty(s: Option<string>): Option<string> {
    if s == Some("") then None else s
  }

  /** The header's event id, else the event's, else its token. */
  function GetCardActionDedupKey(
    headerEventId: Option<string>, eventId: Option<string>, token: Option<string>): (r: Option<string>)
    ensures r != Some("")
    ensures r.None? <==> NonEmpty(headerEventId).None? && NonEmpty(eventId).None? && NonEmpty(token).None?
  {
    if NonEmpty(headerEventId).Some? then NonEmpty(headerEventId)
    else if NonEmpty(eventId).Some? then NonEmpty(eventId)
    else NonEmpty(token)
  }

  // ---- The rule ----

  predicate Recent(last: Option<int>, now: int) {
    last.Some? && now - last.value <= CARD_ACTION_DEDUP_TTL_MS
  }

  /** When the key was last accepted: an event is dropped if that was recently. */
  function LastAccepted(events: seq<Event>, key: string): Option<int> {
    if events == [] then None
    else
      var before, last := LastAccepted(events[..|events| - 1], key), events[|events| - 1];
      if last.key == Some(key) && !Recent(before, last.at) then Some(last.at) else before
  }

  predicate IsDropped(events: seq<Event>, i: nat)
    requires i < |events|
  {
    events[i].key.Some? && Recent(LastAccepted(events[..i], events[i].key.value), events[i].at)
  }

  // ---- The map ----

  type Seen = map<string, int>

  function Swept(seen: Seen, now: int): Seen {
    map key | key in seen && now - seen[key] <= CARD_ACTION_DEDUP_TTL_MS :: seen[key]
  }

  predicate Duplicate(seen: Seen, event: Event) {
    event.key.Some? && event.key.value in Swept(seen, event.at)
  }

  function Noted(seen: Seen, event: Event): Seen {
    if event.key.None? then seen
    else
      var swept := Swept(seen, event.at);
      if event.key.value in swept then swept else swept[event.key.value := event.at]
  }

  function After(events: seq<Event>): Seen {
    if events == [] then map[] else Noted(After(events[..|events| - 1]), events[|events| - 1])
  }

  class TaskCardActionHandler {
    var seenActionKeys: Seen

    constructor ()
      ensures seenActionKeys == map[]
    {
      seenActionKeys := map[];
    }

    method IsDuplicateCardAction(dedupKey: Option<string>, now: int) returns (duplicate: bool)
      modifies this
      ensures duplicate == Duplicate(old(seenActionKeys), Event(dedupKey, now))
      ensures seenActionKeys == Noted(old(seenActionKeys), Event(dedupKey, now))
    {
      if dedupKey.None? {
        return false;
      }
      var todo := seenActionKeys.Keys;
      while todo != {}
        invariant todo <= seenActionKeys.Keys <= old(seenActionKeys).Keys
        invariant forall key :: key in seenActionKeys ==> seenActionKeys[key] == old(seenActionKeys)[key]
        invariant forall key :: key in old(seenActionKeys) && key !in todo ==>
          (key in seenActionKeys <==> now - old(seenActionKeys)[key] <= CARD_ACTION_DEDUP_TTL_MS)
        decreases |todo|
      {
        var key :| key in todo;
        if now - seenActionKeys[key] > CARD_ACTION_DEDUP_TTL_MS {
          seenActionKeys := seenActionKeys - {key};
        }
        todo := todo - {key};
      }
      assert seenActionKeys == Swept(old(seenActionKeys), now);
      if dedupKey.value in seenActionKeys {
        return true;
      }
      seenActionKeys := seenActionKeys[dedupKey.value := now];
      duplicate := false;
    }
  }

  // ---- The map refines the rule ----

  predicate IsMonotone(events: seq<Event>) {
    forall i, j :: 0 <= i < j < |events| ==> events[i].at <= events[j].at
  }

  /** A key's entry is its last acceptance; a key without one was not accepted recently. */
  predicate EntrySound(events: seq<Event>, seen: Seen, key: string, now: int) {
    if key in seen then LastAccepted(events, key) == Some(seen[key])
    else !Recent(LastAccepted(events, key), now)
  }

  lemma {:induction false} MapHoldsLastAcceptances(events: seq<Event>, key: string, now: int)
    requires IsMonotone(events) && (events != [] ==> events[|events| - 1].at <= now)
    ensures EntrySound(events, After(events), key, now)
  {
    if events != [] {
      var n := |events| - 1;
      MapHoldsLastAcceptances(events[..n], key, events[n].at);
    }
  }

  /** An event is dropped exactly if its key was last accepted at most fifteen minutes before. */
  lemma DroppedExactlyIfRecentlyAccepted(events: seq<Event>, i: nat)
    requires IsMonotone(events) && i < |events|
    ensures Duplicate(After(events[..i]), events[i]) <==> IsDropped(events, i)
  {
    if events[i].key.Some? {
      MapHoldsLastAcceptances(events[..i], events[i].key.value, events[i].at);
    }
  }

  /** After a keyed event the map holds exactly the keys accepted in the last fifteen minutes. */
  lemma MapHoldsExactlyTheRecentKeys(events: seq<Event>, key: string)
    requires IsMonotone(events) && events != [] && events[|events| - 1].key.Some?
    ensures var now := events[|events| - 1].at;
      && (key in After(events) <==> Recent(LastAccepted(events, key), now))
      && (key in After(events) ==> After(events)[key] == LastAccepted(events, key).value)
  {
    var n := |events| - 1;
    MapHoldsLastAcceptances(events, key, events[n].at);
    MapHoldsLastAcceptances(events[..n], key, events[n].at);
  }

  /** Two accepted events of one key are more than fifteen minutes apart. */
  lemma {:induction false} AcceptedEventsAreApart(events: seq<Event>, i: nat, j: nat)
    requires IsMonotone(events) && i < j < |events|
    requires events[i].key.Some? && events[i].key == events[j].key
    requires !IsDropped(events, i) && !IsDropped(events, j)
    ensures events[j].at - events[i].at > CARD_ACTION_DEDUP_TTL_MS
  {
    AcceptedSince(events, i, j);
  }

  lemma {:induction false} AcceptedSince(events: seq<Event>, i: nat, j: nat)
    requires IsMonotone(events) && i < j <= |events|
    requires events[i].key.Some? && !IsDropped(events, i)
    ensures var last := LastAccepted(events[..j], events[i].key.value); last.Some? && last.value >= events[i].at
  {
    var key := events[i].key.value;
    assert events[..j][..j - 1] == events[..j - 1];
    if j == i + 1 {
      assert LastAccepted(events[..j], key) == Some(events[i].at);
    } else {
      AcceptedSince(events, i, j - 1);
    }
  }
}
