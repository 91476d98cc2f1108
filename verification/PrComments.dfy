/**
 * The batch of comments that one poll hands over (apps/api/src/pr-comment-fetcher.ts:85-101,
 * apps/api/src/pr-polling-service.ts:35-45): the oldest unprocessed ones, at most twenty.
 */
module PrComments {
  import opened Wrappers

  const MAX_COMMENTS := 20

  datatype Comment = Comment(id: nat, at: int, login: string)

  // ---- One batch ----

  function Filter(comments: seq<Comment>, bots: set<string>, since: Option<int>): seq<Comment> {
    if comments == [] then []
    else (if IsNew(comments[0], bots, since) then [comments[0]] else []) + Filter(comments[1..], bots, since)
  }

  predicate IsNew(c: Comment, bots: set<string>, since: Option<int>) {
    c.login !in bots && (since.Some? ==> c.at > since.value)
  }

  /** Stable: a comment goes before the first one that is not older. */
  function InsertByTime(c: Comment, sorted: seq<Comment>): seq<Comment> {
    if sorted == [] || c.at <= sorted[0].at then [c] + sorted
    else [sorted[0]] + InsertByTime(c, sorted[1..])
  }

  function SortByTime(comments: seq<Comment>): seq<Comment> {
    if comments == [] then [] else InsertByTime(comments[0], SortByTime(comments[1..]))
  }

  /** All comments a poll would still hand over, oldest first. */
  function Pending(comments: seq<Comment>, bots: set<string>, since: Option<int>): seq<Comment> {
    SortByTime(Filter(comments, bots, since))
  }

  lemma {:induction false} FilterMembers(comments: seq<Comment>, bots: set<string>, since: Option<int>)
    ensures forall c :: c in Filter(comments, bots, since) <==> c in comments && IsNew(c, bots, since)
  {
    if comments != [] {
      FilterMembers(comments[1..], bots, since);
    }
  }

  lemma PendingMembers(comments: seq<Comment>, bots: set<string>, since: Option<int>)
    ensures forall c :: c in Pending(comments, bots, since) <==> c in comments && IsNew(c, bots, since)
  {
    FilterMembers(comments, bots, since);
    SortMembers(Filter(comments, bots, since));
  }

  function FirstOf(pending: seq<Comment>): seq<Comment> {
    if |pending| > MAX_COMMENTS then pending[..MAX_COMMENTS] else pending
  }

  /** `filterAndSortComments`: without bot logins the first filter is skipped. */
  method FilterAndSortComments(comments: seq<Comment>, since: Option<int>, excludedLogins: set<string>)
    returns (batch: seq<Comment>)
    ensures batch == FirstOf(Pending(comments, excludedLogins, since))
  {
    batch := comments;
    if excludedLogins != {} {
      batch := Filter(batch, excludedLogins, None);
    }
    if since.Some? {
      batch := Filter(batch, {}, since);
    }
    FilterTwice(comments, excludedLogins, since);
    FilterByNothing(comments);
    FilterByNothing(Filter(comments, excludedLogins, None));
    batch := SortByTime(batch);
    batch := FirstOf(batch);
  }

  lemma FilterStep(comments: seq<Comment>, bots: set<string>, since: Option<int>)
    requires comments != []
    ensures var once := Filter(comments, bots, None);
      Filter(once, {}, since) ==
        (if IsNew(comments[0], bots, since) then [comments[0]] else [])
        + Filter(Filter(comments[1..], bots, None), {}, since)
  {
    var once, rest := Filter(comments, bots, None), Filter(comments[1..], bots, None);
    if comments[0].login !in bots {
      assert once == [comments[0]] + rest;
      assert once[1..] == rest;
    } else {
      assert once == rest;
    }
  }

  lemma {:induction false} FilterTwice(comments: seq<Comment>, bots: set<string>, since: Option<int>)
    ensures Filter(Filter(comments, bots, None), {}, since) == Filter(comments, bots, since)
  {
    if comments != [] {
      FilterTwice(comments[1..], bots, since);
      FilterStep(comments, bots, since);
    }
  }

  lemma {:induction false} FilterByNothing(comments: seq<Comment>)
    ensures Filter(comments, {}, None) == comments
  {
    if comments != [] {
      FilterByNothing(comments[1..]);
    }
  }

  /** `computeNextPolledAt`: the reduce over the batch. */
  method ComputeNextPolledAt(comments: seq<Comment>, pollStartedAt: int) returns (next: int)
    ensures comments == [] ==> next == pollStartedAt
    ensures comments != [] ==> (exists c :: c in comments && c.at == next) && forall c :: c in comments ==> c.at <= next
  {
    if comments == [] {
      return pollStartedAt;
    }
    next := comments[0].at;
    for i := 1 to |comments|
      invariant exists c :: c in comments && c.at == next
      invariant forall j :: 0 <= j < i ==> comments[j].at <= next
    {
      if comments[i].at > next {
        next := comments[i].at;
      }
    }
  }

  predicate IsSorted(s: seq<Comment>) {
    forall i, j :: 0 <= i < j < |s| ==> s[i].at <= s[j].at
  }

  predicate IsStrict(s: seq<Comment>) {
    forall i, j :: 0 <= i < j < |s| ==> s[i].at < s[j].at
  }

  predicate DistinctTimes(comments: seq<Comment>) {
    forall i, j :: 0 <= i < j < |comments| ==> comments[i].at != comments[j].at
  }

  lemma {:induction false} InsertMembers(c: Comment, sorted: seq<Comment>)
    ensures forall x :: x in InsertByTime(c, sorted) <==> x == c || x in sorted
  {
    if sorted != [] && c.at > sorted[0].at {
      InsertMembers(c, sorted[1..]);
    }
  }

  lemma {:induction false} SortMembers(comments: seq<Comment>)
    ensures forall c :: c in SortByTime(comments) <==> c in comments
  {
    if comments != [] {
      SortMembers(comments[1..]);
      InsertMembers(comments[0], SortByTime(comments[1..]));
    }
  }

  lemma Prepended(first: Comment, rest: seq<Comment>)
    ensures IsSorted(rest) && (forall x :: x in rest ==> first.at <= x.at) ==> IsSorted([first] + rest)
    ensures IsStrict(rest) && (forall x :: x in rest ==> first.at < x.at) ==> IsStrict([first] + rest)
  {
  }

  lemma {:induction false} InsertKeepsSorted(c: Comment, sorted: seq<Comment>)
    requires IsSorted(sorted)
    ensures IsSorted(InsertByTime(c, sorted))
    ensures IsStrict(sorted) && (forall x :: x in sorted ==> x.at != c.at) ==> IsStrict(InsertByTime(c, sorted))
  {
    if sorted != [] && c.at > sorted[0].at {
      InsertKeepsSorted(c, sorted[1..]);
      InsertMembers(c, sorted[1..]);
      Prepended(sorted[0], InsertByTime(c, sorted[1..]));
    }
  }

  lemma {:induction false} SortSorts(comments: seq<Comment>)
    ensures IsSorted(SortByTime(comments))
    ensures DistinctTimes(comments) ==> IsStrict(SortByTime(comments))
  {
    if comments != [] {
      SortSorts(comments[1..]);
      SortMembers(comments[1..]);
      InsertKeepsSorted(comments[0], SortByTime(comments[1..]));
    }
  }

  lemma {:induction false} FilterKeepsDistinct(comments: seq<Comment>, bots: set<string>, since: Option<int>)
    requires DistinctTimes(comments)
    ensures DistinctTimes(Filter(comments, bots, since))
  {
    if comments != [] {
      FilterKeepsDistinct(comments[1..], bots, since);
      FilterMembers(comments[1..], bots, since);
      var rest := Filter(comments[1..], bots, since);
      forall x | x in rest ensures x.at != comments[0].at {
        assert x in comments[1..];
      }
    }
  }

  lemma PendingIsStrict(comments: seq<Comment>, bots: set<string>, since: Option<int>)
    requires DistinctTimes(comments)
    ensures IsStrict(Pending(comments, bots, since))
  {
    FilterKeepsDistinct(comments, bots, since);
    SortSorts(Filter(comments, bots, since));
  }

  /** The cursor after a batch. */
  function NextPolledAt(batch: seq<Comment>, started: int): int {
    if batch == [] then started else batch[|batch| - 1].at
  }

  /**
   * Moving the cursor past a batch skips a pending comment exactly when the cap cuts between
   * two comments of the same time.
   */
  lemma SkipsExactlyIfCutAtATie(comments: seq<Comment>, bots: set<string>, since: Option<int>)
    ensures var pending := Pending(comments, bots, since);
      (exists k :: MAX_COMMENTS <= k < |pending| && pending[k].at <= NextPolledAt(FirstOf(pending), 0)) <==>
      |pending| > MAX_COMMENTS && pending[MAX_COMMENTS].at == pending[MAX_COMMENTS - 1].at
  {
    SortSorts(Filter(comments, bots, since));
  }

  // ---- Draining ----

  lemma BothOrNeitherEmpty(s: seq<Comment>, t: seq<Comment>)
    requires forall c :: c in s <==> c in t
    ensures s == [] <==> t == []
  {
    if s != [] {
      assert s[0] in t;
    }
    if t != [] {
      assert t[0] in s;
    }
  }

  lemma {:induction false} StrictIsUnique(s: seq<Comment>, t: seq<Comment>)
    requires IsStrict(s) && IsStrict(t) && forall c :: c in s <==> c in t
    ensures s == t
  {
    BothOrNeitherEmpty(s, t);
    if s != [] {
      assert s[0] in t && t[0] in s;
      assert s[0] == t[0];
      forall c ensures c in s[1..] <==> c in t[1..] {
        assert c in s[1..] ==> c in t && c != t[0];
        assert c in t[1..] ==> c in s && c != s[0];
      }
      StrictIsUnique(s[1..], t[1..]);
    }
  }

  /** Of a strict sequence, what is later than its n-th element is the rest. */
  lemma RestByTime(pending: seq<Comment>, rest: seq<Comment>, n: nat)
    requires IsStrict(pending) && IsStrict(rest) && 0 < n <= |pending|
    requires forall c :: c in rest <==> c in pending && c.at > pending[n - 1].at
    ensures rest == pending[n..]
  {
    forall c ensures c in rest <==> c in pending[n..] {
      if c in pending && c.at > pending[n - 1].at {
        var k :| 0 <= k < |pending| && pending[k] == c;
        assert pending[n..][k - n] == c;
      }
    }
    StrictIsUnique(rest, pending[n..]);
  }

  function Behead(pending: seq<Comment>, n: nat): seq<Comment> {
    if n <= |pending| then pending[n..] else []
  }

  lemma PendingLater(comments: seq<Comment>, bots: set<string>, since: Option<int>, next: int)
    requires since.Some? ==> since.value <= next
    ensures forall c :: c in Pending(comments, bots, Some(next)) <==> c in Pending(comments, bots, since) && c.at > next
  {
    PendingMembers(comments, bots, since);
    PendingMembers(comments, bots, Some(next));
  }

  /** Past a batch, what was pending behind it is pending, and nothing else. */
  lemma BatchLeavesTheRest(comments: seq<Comment>, bots: set<string>, since: Option<int>, end: int)
    requires DistinctTimes(comments) && Pending(comments, bots, since) != []
    requires end == NextPolledAt(FirstOf(Pending(comments, bots, since)), 0)
    ensures Pending(comments, bots, Some(end)) == Behead(Pending(comments, bots, since), MAX_COMMENTS)
  {
    var pending := Pending(comments, bots, since);
    var n := |FirstOf(pending)|;
    PendingIsStrict(comments, bots, since);
    PendingIsStrict(comments, bots, Some(end));
    PendingMembers(comments, bots, since);
    assert pending[n - 1] in pending;
    PendingLater(comments, bots, since, end);
    RestByTime(pending, Pending(comments, bots, Some(end)), n);
  }
}
