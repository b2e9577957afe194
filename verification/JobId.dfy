/** The id under which an attempt is offered to Redis, which ignores an id it already holds. */
module JobId {

  function Digit(n: nat): char
    requires n < 10
  {
    '0' + n as char
  }

  function Decimal(n: nat): string {
    if n < 10 then [Digit(n)] else Decimal(n / 10) + [Digit(n % 10)]
  }

  /** The entry's own id, its run key, and the attempts recorded so far. */
  function JobIdFor(entryId: string, runKey: nat, attempts: nat): string {
    entryId + "-" + Decimal(runKey) + "-" + Decimal(attempts)
  }

  /** Entry ids are hexadecimal. */
  predicate IsHex(s: string) {
    forall i :: 0 <= i < |s| ==> '0' <= s[i] <= '9' || 'a' <= s[i] <= 'f'
  }

  lemma {:induction false} DecimalIsHex(n: nat)
    ensures IsHex(Decimal(n)) && Decimal(n) != ""
    decreases n
  {
    if n >= 10 { DecimalIsHex(n / 10); }
  }

  lemma {:induction false} DecimalInjective(m: nat, n: nat)
    requires Decimal(m) == Decimal(n)
    ensures m == n
    decreases m
  {
    var s, t := Decimal(m), Decimal(n);
    DecimalIsHex(m / 10);
    DecimalIsHex(n / 10);
    assert s[|s| - 1] == Digit(m % 10) && t[|t| - 1] == Digit(n % 10);
    assert m % 10 == n % 10;
    if m >= 10 && n >= 10 {
      assert Decimal(m / 10) == s[..|s| - 1] && Decimal(n / 10) == t[..|t| - 1];
      DecimalInjective(m / 10, n / 10);
    }
  }

  /** Where hexadecimal text ends at a dash, the two halves are determined. */
  lemma SplitAtDash(a: string, x: string, b: string, y: string)
    requires IsHex(a) && IsHex(b) && a + "-" + x == b + "-" + y
    ensures a == b && x == y
  {
    var s := a + "-" + x;
    assert s[|a|] == '-' && s[|b|] == '-';
    if |a| < |b| {
      assert false;
    }
    if |b| < |a| {
      assert false;
    }
    assert s[..|a|] == a && s[..|b|] == b && s[|a| + 1..] == x && s[|b| + 1..] == y;
  }

  /** Different attempts never share an id, and no id contains the queue library's separator. */
  lemma JobIdsAreDistinct(id1: string, runKey1: nat, attempts1: nat, id2: string, runKey2: nat, attempts2: nat)
    requires IsHex(id1) && IsHex(id2)
    ensures JobIdFor(id1, runKey1, attempts1) == JobIdFor(id2, runKey2, attempts2) ==>
      id1 == id2 && runKey1 == runKey2 && attempts1 == attempts2
    ensures ':' !in JobIdFor(id1, runKey1, attempts1)
  {
    DecimalIsHex(runKey1);
    DecimalIsHex(attempts1);
    DecimalIsHex(runKey2);
    if JobIdFor(id1, runKey1, attempts1) == JobIdFor(id2, runKey2, attempts2) {
      var x, y := Decimal(runKey1) + "-" + Decimal(attempts1), Decimal(runKey2) + "-" + Decimal(attempts2);
      assert id1 + "-" + x == JobIdFor(id1, runKey1, attempts1) && id2 + "-" + y == JobIdFor(id2, runKey2, attempts2);
      SplitAtDash(id1, x, id2, y);
      SplitAtDash(Decimal(runKey1), Decimal(attempts1), Decimal(runKey2), Decimal(attempts2));
      DecimalInjective(runKey1, runKey2);
      DecimalInjective(attempts1, attempts2);
    }
  }
}
