/**
 * One classification per message, shared by all its deliveries
 * (packages/orchestrator/src/mention-routing-classifier.ts:215-248).
 */
module MentionMemo {
  import opened Wrappers
  import opened MentionRouting

  /** The answer a classification settles with, and when it was asked for. */
  datatype Shared = Shared(decision: Option<LlmDecision>, at: int)

  type Memo = map<string, Shared>

  predicate Expired(entry: Shared, now: int, ttlMs: int) {
    now - entry.at > ttlMs
  }

  function Evicted(memo: Memo, now: int, ttlMs: int): Memo {
    map key | key in memo && !Expired(memo[key], now, ttlMs) :: memo[key]
  }

  /** The memo after a call for `key`; `fresh` is what a new classification would answer. */
  function Classified(memo: Memo, key: string, now: int, ttlMs: int, settled: Option<LlmDecision>): Memo {
    var kept := Evicted(memo, now, ttlMs);
    if key in kept then kept else kept[key := Shared(settled, now)]
  }

  class MentionRoutingMemo {
    const ttlMs: int
    var entries: Memo

    constructor (ttlMs: int)
      ensures this.ttlMs == ttlMs && entries == map[]
    {
      this.ttlMs := ttlMs;
      entries := map[];
    }

    method EvictExpired(now: int)
      modifies this
      ensures entries == Evicted(old(entries), now, ttlMs)
    {
      var todo := entries.Keys;
      while todo != {}
        invariant todo <= entries.Keys <= old(entries).Keys
        invariant forall key :: key in entries ==> entries[key] == old(entries)[key]
        invariant forall key :: key in old(entries) && key !in todo ==>
          (key in entries <==> !Expired(old(entries)[key], now, ttlMs))
        decreases |todo|
      {
        var key :| key in todo;
        if now - entries[key].at > ttlMs {
          entries := entries - {key};
        }
        todo := todo - {key};
      }
    }

    method ClassifyOnce(key: string, now: int, settled: Option<LlmDecision>) returns (decision: Option<LlmDecision>)
      modifies this
      ensures entries == Classified(old(entries), key, now, ttlMs, settled)
      ensures decision == entries[key].decision
    {
      EvictExpired(now);
      if key !in entries {
        entries := entries[key := Shared(settled, now)];
      }
      decision := entries[key].decision;
    }
  }

  // ---- Runs ----

  datatype Ask = Ask(key: string, now: int, answer: Option<LlmDecision>)

  function After(memo: Memo, asks: seq<Ask>, ttlMs: int): Memo {
    if asks == [] then memo
    else
      var before := After(memo, asks[..|asks| - 1], ttlMs);
      var last := asks[|asks| - 1];
      Classified(before, last.key, last.now, ttlMs, last.answer)
  }

  /** What the n-th call returns. */
  function Answer(asks: seq<Ask>, ttlMs: int, n: nat): Option<LlmDecision>
    requires n < |asks|
  {
    After(map[], asks[..n + 1], ttlMs)[asks[n].key].decision
  }

  predicate IsMonotone(asks: seq<Ask>) {
    forall i, j :: 0 <= i < j < |asks| ==> asks[i].now <= asks[j].now
  }

  /** A row once made stays the same until it is older than the ttl. */
  lemma {:induction false} RowStays(asks: seq<Ask>, ttlMs: int, key: string, i: nat, j: nat)
    requires IsMonotone(asks) && i <= j < |asks|
    requires key in After(map[], asks[..i + 1], ttlMs)
    requires !Expired(After(map[], asks[..i + 1], ttlMs)[key], asks[j].now, ttlMs)
    ensures key in After(map[], asks[..j + 1], ttlMs)
    ensures After(map[], asks[..j + 1], ttlMs)[key] == After(map[], asks[..i + 1], ttlMs)[key]
  {
    if i < j {
      RowStays(asks, ttlMs, key, i, j - 1);
      assert asks[..j + 1][..j] == asks[..j];
    }
  }

  /**
   * Deliveries of one message share a decision: from the call that classifies it on, every
   * call within the ttl gets the same answer, whatever a new classification would have said.
   */
  lemma DeliveriesShareTheDecision(asks: seq<Ask>, ttlMs: int, i: nat, j: nat)
    requires IsMonotone(asks) && i <= j < |asks| && asks[i].key == asks[j].key
    requires asks[j].now - After(map[], asks[..i + 1], ttlMs)[asks[i].key].at <= ttlMs
    ensures Answer(asks, ttlMs, j) == Answer(asks, ttlMs, i)
  {
    RowStays(asks, ttlMs, asks[i].key, i, j);
  }
}
