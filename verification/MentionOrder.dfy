/**
 * The participants of a message in the order of their mentions
 * (apps/api/src/server.ts:979-1004): a stable sort, and the first and the last participant
 * in that order that pass a test.
 */
module MentionOrder {
  import opened Wrappers

  datatype Participant = Participant(
    agentId: string,
    mentionIndex: int,
    handle: string,
    displayName: string,
    feishuAppId: string)

  /** Before the first participant that is not mentioned earlier: `p` came first in the roster. */
  function Insert(p: Participant, sorted: seq<Participant>): (r: seq<Participant>)
    ensures multiset(r) == multiset{p} + multiset(sorted)
  {
    if sorted == [] || p.mentionIndex <= sorted[0].mentionIndex then
      [p] + sorted
    else
      assert sorted == [sorted[0]] + sorted[1..];
      [sorted[0]] + Insert(p, sorted[1..])
  }

  function SortByMention(roster: seq<Participant>): (r: seq<Participant>)
    ensures multiset(r) == multiset(roster)
  {
    if roster == [] then []
    else
      assert roster == [roster[0]] + roster[1..];
      Insert(roster[0], SortByMention(roster[1..]))
  }

  function FindFirst(s: seq<Participant>, test: Participant -> bool): (r: Option<Participant>)
    ensures r.Some? ==> r.value in s && test(r.value)
    ensures r.None? ==> forall p :: p in s ==> !test(p)
  {
    if s == [] then None
    else if test(s[0]) then Some(s[0])
    else FindFirst(s[1..], test)
  }

  function FindLast(s: seq<Participant>, test: Participant -> bool): (r: Option<Participant>)
    ensures r.Some? ==> r.value in s && test(r.value)
    ensures r.None? ==> forall p :: p in s ==> !test(p)
  {
    if s == [] then None
    else
      var later := FindLast(s[1..], test);
      if later.Some? then later
      else if test(s[0]) then Some(s[0])
      else None
  }

  predicate IsSorted(s: seq<Participant>) {
    forall i, j :: 0 <= i < j < |s| ==> s[i].mentionIndex <= s[j].mentionIndex
  }

  lemma Prepended(p: Participant, rest: seq<Participant>)
    requires IsSorted(rest) && forall q :: q in rest ==> p.mentionIndex <= q.mentionIndex
    ensures IsSorted([p] + rest)
  {
  }

  lemma {:induction false} InsertIsSorted(p: Participant, sorted: seq<Participant>)
    requires IsSorted(sorted)
    ensures IsSorted(Insert(p, sorted))
  {
    if sorted == [] || p.mentionIndex <= sorted[0].mentionIndex {
      Prepended(p, sorted);
    } else {
      var rest := Insert(p, sorted[1..]);
      InsertIsSorted(p, sorted[1..]);
      forall q | q in rest ensures sorted[0].mentionIndex <= q.mentionIndex {
        assert q in multiset(rest);
      }
      Prepended(sorted[0], rest);
    }
  }

  lemma {:induction false} SortIsSorted(roster: seq<Participant>)
    ensures IsSorted(SortByMention(roster))
  {
    if roster != [] {
      SortIsSorted(roster[1..]);
      InsertIsSorted(roster[0], SortByMention(roster[1..]));
    }
  }

  lemma {:induction false} FindFirstAfterInsert(p: Participant, sorted: seq<Participant>, test: Participant -> bool)
    requires IsSorted(sorted)
    ensures var r := FindFirst(sorted, test);
      FindFirst(Insert(p, sorted), test) ==
        if test(p) && (r.None? || p.mentionIndex <= r.value.mentionIndex) then Some(p) else r
  {
    if sorted != [] && p.mentionIndex > sorted[0].mentionIndex {
      FindFirstAfterInsert(p, sorted[1..], test);
    }
  }

  lemma {:induction false} FindLastAfterInsert(p: Participant, sorted: seq<Participant>, test: Participant -> bool)
    requires IsSorted(sorted)
    ensures var r := FindLast(sorted, test);
      FindLast(Insert(p, sorted), test) ==
        if test(p) && (r.None? || p.mentionIndex > r.value.mentionIndex) then Some(p) else r
  {
    if sorted != [] {
      FindLastAfterInsert(p, sorted[1..], test);
      if p.mentionIndex <= sorted[0].mentionIndex {
        assert Insert(p, sorted)[1..] == sorted;
      }
    }
  }

  /** Mentioned first among those that pass; of a tie, first in the roster. */
  predicate IsEarliest(roster: seq<Participant>, test: Participant -> bool, i: nat) {
    && i < |roster|
    && test(roster[i])
    && forall k :: 0 <= k < |roster| && test(roster[k]) ==>
         if k < i then roster[i].mentionIndex < roster[k].mentionIndex
         else roster[i].mentionIndex <= roster[k].mentionIndex
  }

  /** Mentioned last among those that pass; of a tie, last in the roster. */
  predicate IsLatest(roster: seq<Participant>, test: Participant -> bool, i: nat) {
    && i < |roster|
    && test(roster[i])
    && forall k :: 0 <= k < |roster| && test(roster[k]) ==>
         if k <= i then roster[k].mentionIndex <= roster[i].mentionIndex
         else roster[k].mentionIndex < roster[i].mentionIndex
  }

  lemma EarliestWithFront(roster: seq<Participant>, test: Participant -> bool, j: nat) returns (i: nat)
    requires |roster| > 0 && IsEarliest(roster[1..], test, j)
    ensures i == if test(roster[0]) && roster[0].mentionIndex <= roster[j + 1].mentionIndex then 0 else j + 1
    ensures IsEarliest(roster, test, i)
  {
    i := if test(roster[0]) && roster[0].mentionIndex <= roster[j + 1].mentionIndex then 0 else j + 1;
    forall k | 1 <= k < |roster| && test(roster[k])
      ensures if k < j + 1 then roster[j + 1].mentionIndex < roster[k].mentionIndex
              else roster[j + 1].mentionIndex <= roster[k].mentionIndex
    {
      assert roster[k] == roster[1..][k - 1];
    }
  }

  lemma LatestWithFront(roster: seq<Participant>, test: Participant -> bool, j: nat) returns (i: nat)
    requires |roster| > 0 && IsLatest(roster[1..], test, j)
    ensures i == if test(roster[0]) && roster[0].mentionIndex > roster[j + 1].mentionIndex then 0 else j + 1
    ensures IsLatest(roster, test, i)
  {
    i := if test(roster[0]) && roster[0].mentionIndex > roster[j + 1].mentionIndex then 0 else j + 1;
    forall k | 1 <= k < |roster| && test(roster[k])
      ensures if k <= j + 1 then roster[k].mentionIndex <= roster[j + 1].mentionIndex
              else roster[k].mentionIndex < roster[j + 1].mentionIndex
    {
      assert roster[k] == roster[1..][k - 1];
    }
  }

  lemma FindFirstOfRoster(roster: seq<Participant>, test: Participant -> bool)
    requires |roster| > 0
    ensures var p, r := roster[0], FindFirst(SortByMention(roster[1..]), test);
      FindFirst(SortByMention(roster), test) ==
        if test(p) && (r.None? || p.mentionIndex <= r.value.mentionIndex) then Some(p) else r
  {
    SortIsSorted(roster[1..]);
    FindFirstAfterInsert(roster[0], SortByMention(roster[1..]), test);
  }

  lemma FindLastOfRoster(roster: seq<Participant>, test: Participant -> bool)
    requires |roster| > 0
    ensures var p, r := roster[0], FindLast(SortByMention(roster[1..]), test);
      FindLast(SortByMention(roster), test) ==
        if test(p) && (r.None? || p.mentionIndex > r.value.mentionIndex) then Some(p) else r
  {
    SortIsSorted(roster[1..]);
    FindLastAfterInsert(roster[0], SortByMention(roster[1..]), test);
  }

  lemma NoneInTail(roster: seq<Participant>, sorted: seq<Participant>, test: Participant -> bool)
    requires |roster| > 0 && multiset(sorted) == multiset(roster[1..])
    requires forall p :: p in sorted ==> !test(p)
    ensures forall k :: 1 <= k < |roster| ==> !test(roster[k])
  {
    forall k | 1 <= k < |roster| ensures !test(roster[k]) {
      assert roster[k] == roster[1..][k - 1];
      assert roster[k] in multiset(sorted);
    }
  }

  /** The first in the sorted order is the earliest of the roster. */
  lemma {:induction false} FirstIsEarliest(roster: seq<Participant>, test: Participant -> bool) returns (i: nat)
    requires FindFirst(SortByMention(roster), test).Some?
    ensures IsEarliest(roster, test, i) && roster[i] == FindFirst(SortByMention(roster), test).value
  {
    FindFirstOfRoster(roster, test);
    if FindFirst(SortByMention(roster[1..]), test).None? {
      i := 0;
      NoneInTail(roster, SortByMention(roster[1..]), test);
    } else {
      var j := FirstIsEarliest(roster[1..], test);
      i := EarliestWithFront(roster, test, j);
    }
  }

  lemma {:induction false} LastIsLatest(roster: seq<Participant>, test: Participant -> bool) returns (i: nat)
    requires FindLast(SortByMention(roster), test).Some?
    ensures IsLatest(roster, test, i) && roster[i] == FindLast(SortByMention(roster), test).value
  {
    FindLastOfRoster(roster, test);
    if FindLast(SortByMention(roster[1..]), test).None? {
      i := 0;
      NoneInTail(roster, SortByMention(roster[1..]), test);
    } else {
      var j := LastIsLatest(roster[1..], test);
      i := LatestWithFront(roster, test, j);
    }
  }

  /** Both directions: the search answers `p` exactly when `p` is the earliest that passes. */
  lemma FindFirstPicksTheEarliest(roster: seq<Participant>, test: Participant -> bool, p: Participant)
    ensures FindFirst(SortByMention(roster), test) == Some(p) <==>
      exists i: nat :: IsEarliest(roster, test, i) && roster[i] == p
  {
    var found := FindFirst(SortByMention(roster), test);
    if found.Some? {
      var i := FirstIsEarliest(roster, test);
      assert forall j: nat :: IsEarliest(roster, test, j) ==> j == i;
    } else {
      assert forall j: nat :: j < |roster| ==> roster[j] in multiset(SortByMention(roster));
    }
  }

  lemma FindLastPicksTheLatest(roster: seq<Participant>, test: Participant -> bool, p: Participant)
    ensures FindLast(SortByMention(roster), test) == Some(p) <==>
      exists i: nat :: IsLatest(roster, test, i) && roster[i] == p
  {
    var found := FindLast(SortByMention(roster), test);
    if found.Some? {
      var i := LastIsLatest(roster, test);
      assert forall j: nat :: IsLatest(roster, test, j) ==> j == i;
    } else {
      assert forall j: nat :: j < |roster| ==> roster[j] in multiset(SortByMention(roster));
    }
  }
}
