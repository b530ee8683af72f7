/**
The member strings of a rate log. The scripts write "<cost>:<identifier>" and
read the cost back with the pattern `^(%d+):`; the decoded members the log is
modelled with lose nothing by it, whatever characters the identifier has.
*/
module Members {
  import opened RateLog

  function Digit(d: nat): char
    requires d < 10
  {
    "0123456789"[d]
  }

  predicate IsDigit(c: char) {
    '0' <= c <= '9'
  }

  function Value(c: char): nat
    requires IsDigit(c)
  {
    (c - '0') as nat
  }

  /** Decimal digits, most significant first. */
  function Decimal(n: nat): (s: string)
    ensures |s| >= 1 && forall i :: 0 <= i < |s| ==> IsDigit(s[i])
  {
    if n < 10 then [Digit(n)] else Decimal(n / 10) + [Digit(n % 10)]
  }

  function Number(s: string): nat
    requires forall i :: 0 <= i < |s| ==> IsDigit(s[i])
  {
    if s == [] then 0 else 10 * Number(s[..|s| - 1]) + Value(s[|s| - 1])
  }

  /** How many leading characters are digits. */
  function Digits(s: string): (n: nat)
    ensures n <= |s| && forall i :: 0 <= i < n ==> IsDigit(s[i])
    ensures n < |s| ==> !IsDigit(s[n])
  {
    if s == [] || !IsDigit(s[0]) then 0 else 1 + Digits(s[1..])
  }

  /** What the scripts store. */
  function Encode(m: Member): string {
    Decimal(m.cost) + ":" + m.id
  }

  /** `member_cost`: the number in front of the first colon, or 0 if the pattern does not match. */
  function MemberCost(s: string): nat {
    var n := Digits(s);
    if 0 < n < |s| && s[n] == ':' then Number(s[..n]) else 0
  }

  lemma {:induction false} NumberOfDecimal(n: nat)
    ensures Number(Decimal(n)) == n
  {
    if n < 10 {
      assert Decimal(n)[..0] == [];
    } else {
      NumberOfDecimal(n / 10);
      var s := Decimal(n);
      assert s[..|s| - 1] == Decimal(n / 10);
    }
  }

  lemma {:induction false} DigitsOfPrefix(p: string, rest: string)
    requires forall i :: 0 <= i < |p| ==> IsDigit(p[i])
    requires rest != [] && !IsDigit(rest[0])
    ensures Digits(p + rest) == |p|
  {
    if p == [] {
      assert p + rest == rest;
    } else {
      assert (p + rest)[1..] == p[1..] + rest;
      DigitsOfPrefix(p[1..], rest);
    }
  }

  lemma EncodeSplits(m: Member)
    ensures var s := Encode(m);
            && Digits(s) == |Decimal(m.cost)| < |s|
            && s[..Digits(s)] == Decimal(m.cost) && s[Digits(s)] == ':' && s[Digits(s) + 1..] == m.id
  {
    var p := Decimal(m.cost);
    DigitsOfPrefix(p, ":" + m.id);
    assert Encode(m) == p + (":" + m.id);
  }

  /** The cost read back from a stored member is the cost that was stored. */
  lemma CostRoundTrip(m: Member)
    ensures MemberCost(Encode(m)) == m.cost
  {
    EncodeSplits(m);
    NumberOfDecimal(m.cost);
  }

  /** Different costs or identifiers are different members of the sorted set. */
  lemma EncodeInjective(a: Member, b: Member)
    ensures Encode(a) == Encode(b) <==> a == b
  {
    EncodeSplits(a);
    EncodeSplits(b);
    NumberOfDecimal(a.cost);
    NumberOfDecimal(b.cost);
  }
}
