/**
 * Identifiers that the source builds by joining parts with colons, and what two equal
 * identifiers say about their parts.
 */
module TaskKeys {
  predicate ColonFree(s: string) {
    ':' !in s
  }

  /** `parts.join(':')`. */
  function Join(parts: seq<string>): string
    requires parts != []
  {
    if |parts| == 1 then parts[0] else parts[0] + ":" + Join(parts[1..])
  }

  predicate AllButLastColonFree(parts: seq<string>) {
    forall i :: 0 <= i < |parts| - 1 ==> ColonFree(parts[i])
  }

  /** The first colon tells where a colon-free head ends. */
  lemma HeadIsDetermined(a: string, x: string, b: string, y: string)
    requires ColonFree(a) && ColonFree(b)
    requires a + ":" + x == b + ":" + y
    ensures a == b && x == y
  {
    var s := a + ":" + x;
    assert s == b + ":" + y;
    assert s[|a|] == ':' && forall i :: 0 <= i < |a| ==> s[i] == a[i];
    assert s[|b|] == ':' && forall i :: 0 <= i < |b| ==> s[i] == b[i];
    assert |a| == |b|;
    assert a == s[..|a|] && b == s[..|b|];
    assert x == s[|a| + 1..] && y == s[|b| + 1..];
  }

  lemma {:induction false} JoinIsInjective(p: seq<string>, q: seq<string>)
    requires p != [] && |p| == |q|
    requires AllButLastColonFree(p) && AllButLastColonFree(q)
    requires Join(p) == Join(q)
    ensures p == q
  {
    if |p| > 1 {
      HeadIsDetermined(p[0], Join(p[1..]), q[0], Join(q[1..]));
      JoinIsInjective(p[1..], q[1..]);
      assert p == [p[0]] + p[1..] && q == [q[0]] + q[1..];
    }
  }
}
