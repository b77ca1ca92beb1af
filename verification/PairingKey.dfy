/** The key under which a Session generation is paired, and why no two generations share one. */
module PairingKey {

  const NUL := '\0'

  function Digit(d: nat): char
    requires d < 10
  {
    ['0', '1', '2', '3', '4', '5', '6', '7', '8', '9'][d]
  }

  /** Decimal rendering of a generation number. */
  function Decimal(n: nat): string {
    if n < 10 then [Digit(n)] else Decimal(n / 10) + [Digit(n % 10)]
  }

  function Key(sessionId: string, viewerGeneration: nat): string {
    sessionId + [NUL] + Decimal(viewerGeneration)
  }

  lemma {:induction false} DecimalHasNoNul(n: nat)
    ensures forall i :: 0 <= i < |Decimal(n)| ==> Decimal(n)[i] != NUL
  {
    if n >= 10 {
      DecimalHasNoNul(n / 10);
    }
  }

  lemma {:induction false} DecimalIsInjective(a: nat, b: nat)
    requires Decimal(a) == Decimal(b)
    ensures a == b
  {
    var da, db := Decimal(a), Decimal(b);
    assert da[|da| - 1] == Digit(a % 10) && db[|db| - 1] == Digit(b % 10);
    if a >= 10 && b >= 10 {
      assert Decimal(a / 10) == da[..|da| - 1] && Decimal(b / 10) == db[..|db| - 1];
      DecimalIsInjective(a / 10, b / 10);
    } else if a >= 10 {
      DecimalIsNonEmpty(a / 10);
    } else if b >= 10 {
      DecimalIsNonEmpty(b / 10);
    }
  }

  lemma {:induction false} DecimalIsNonEmpty(n: nat)
    ensures |Decimal(n)| > 0
  {
  }

  /**
   Distinct Session generations never share a pairing key, although a Session identifier may itself
   contain the separator.
   */
  lemma KeysAreInjective(s1: string, g1: nat, s2: string, g2: nat)
    requires Key(s1, g1) == Key(s2, g2)
    ensures s1 == s2 && g1 == g2
  {
    var k1, k2 := Key(s1, g1), Key(s2, g2);
    DecimalHasNoNul(g1);
    DecimalHasNoNul(g2);
    assert k1[|s1|] == NUL && k2[|s2|] == NUL;
    assert forall i :: |s1| < i < |k1| ==> k1[i] == Decimal(g1)[i - |s1| - 1];
    assert forall i :: |s2| < i < |k2| ==> k2[i] == Decimal(g2)[i - |s2| - 1];
    assert |s1| == |s2|;
    assert s1 == k1[..|s1|] && s2 == k2[..|s2|];
    assert Decimal(g1) == k1[|s1| + 1..] && Decimal(g2) == k2[|s2| + 1..];
    DecimalIsInjective(g1, g2);
  }
}
