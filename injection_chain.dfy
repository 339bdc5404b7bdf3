/** The injection chain: a read-only snapshot of the types being built,
    made by flipping the in-progress map (name => ordinal) into
    ordinal => name, and indexed from the root or, with a negative index,
    from the innermost entry. */
module InjectionChains {
  import opened Php

  /** The injector's in-progress map: each type name being built and its ordinal. */
  type InProgress = seq<(string, int)>

  /** The in-progress map as the injector keeps it: each name once, and the
      ordinal of each entry is the number of entries before it. */
  predicate IsStack(ip: InProgress)
  {
    DistinctKeys(ip) && forall i :: 0 <= i < |ip| ==> ip[i].1 == i
  }

  /** ordinal => name, the entries of a stack in ordinal order. */
  function Positions(ip: InProgress): seq<(int, string)>
  {
    seq(|ip|, i requires 0 <= i < |ip| => (i, ip[i].0))
  }

  /** Flipping a stack gives its names in ordinal order, root first. */
  lemma {:induction false} FlipStack(ip: InProgress)
    requires IsStack(ip)
    ensures Flip(ip) == Positions(ip)
  {
    if ip != [] {
      var n := |ip|;
      var prefix := ip[..n - 1];
      assert IsStack(prefix);
      FlipStack(prefix);
      GetAbsent(Positions(prefix), n - 1);
      PutFresh(Positions(prefix), n - 1, ip[n - 1].0);
      assert Positions(prefix) + [(n - 1, ip[n - 1].0)] == Positions(ip);
    }
  }

  /** With distinct ordinals the flip maps each ordinal back to its name. */
  lemma {:induction false} FlipInverts(ip: InProgress, i: nat)
    requires i < |ip|
    requires forall a, b :: 0 <= a < b < |ip| ==> ip[a].1 != ip[b].1
    ensures Get(Flip(ip), ip[i].1) == Some(ip[i].0)
  {
    var n := |ip|;
    var prefix := ip[..n - 1];
    GetPut(Flip(prefix), ip[n - 1].1, ip[n - 1].0, ip[i].1);
    if i < n - 1 {
      FlipInverts(prefix, i);
    }
  }

  datatype InjectionChain = InjectionChain(chain: seq<(int, string)>)

  /** `new InjectionChain($inProgressMakes)`. */
  function NewChain(inProgressMakes: InProgress): InjectionChain
  {
    InjectionChain(Flip(inProgressMakes))
  }

  /** `getChain()`. */
  function GetChain(c: InjectionChain): seq<(int, string)>
  {
    c.chain
  }

  /** getChain answers exactly the flipped input: ordinal => name, with one
      entry per ordinal. */
  lemma GetChainIsFlip(ip: InProgress)
    ensures GetChain(NewChain(ip)) == Flip(ip)
    ensures DistinctKeys(GetChain(NewChain(ip)))
  {
  }

  // ---------------------------------------------------------------------
  // Numeric indices.

  predicate IsDigit(c: char) { '0' <= c <= '9' }

  predicate AllDigits(s: string) { forall i :: 0 <= i < |s| ==> IsDigit(s[i]) }

  /** An integer string: an optional sign and at least one digit. */
  predicate IsIntegerString(s: string)
  {
    if |s| > 0 && (s[0] == '-' || s[0] == '+') then |s| > 1 && AllDigits(s[1..])
    else |s| > 0 && AllDigits(s)
  }

  function DigitsValue(s: string): nat
    requires AllDigits(s)
  {
    if s == [] then 0 else DigitsValue(s[..|s| - 1]) * 10 + (s[|s| - 1] as int - '0' as int)
  }

  /** `(int)$s` on an integer string. */
  function ParseInteger(s: string): int
    requires IsIntegerString(s)
  {
    if s[0] == '-' then 0 - DigitsValue(s[1..]) as int
    else if s[0] == '+' then DigitsValue(s[1..])
    else DigitsValue(s)
  }

  function DigitChar(d: nat): char
    requires d < 10
  {
    ('0' as int + d) as char
  }

  function NatDigits(n: nat): (s: string)
    ensures |s| > 0 && AllDigits(s)
  {
    if n < 10 then [DigitChar(n)] else NatDigits(n / 10) + [DigitChar(n % 10)]
  }

  /** The decimal spelling of an integer. */
  function Decimal(i: int): string
  {
    if i < 0 then "-" + NatDigits(-i) else NatDigits(i)
  }

  lemma {:induction false} NatDigitsValue(n: nat)
    ensures DigitsValue(NatDigits(n)) == n
  {
    if n >= 10 {
      NatDigitsValue(n / 10);
      var s := NatDigits(n);
      assert s[..|s| - 1] == NatDigits(n / 10);
    }
  }

  /** Reading an integer's decimal spelling gives the integer back. */
  lemma DecimalRoundTrip(i: int)
    ensures IsIntegerString(Decimal(i)) && ParseInteger(Decimal(i)) == i
  {
    if i < 0 {
      NatDigitsValue(-i);
      assert Decimal(i)[1..] == NatDigits(-i);
    } else {
      NatDigitsValue(i);
    }
  }

  /** `is_numeric($index)` for the integer and string indices modelled here. */
  predicate IsNumeric(v: Value)
  {
    v.Int? || (v.Str? && IsIntegerString(v.s))
  }

  function IntCast(v: Value): int
    requires IsNumeric(v)
  {
    if v.Int? then v.i else ParseInteger(v.s)
  }

  const NonNumericMessage: string := "Index needs to be a numeric value."

  /** `getByIndex($index)`: the name at that ordinal, counting a negative
      index back from the number of entries, or `false`; a non-numeric index
      throws. */
  function GetByIndex(c: InjectionChain, index: Value): Result<Value, string>
  {
    if !IsNumeric(index) then Err(NonNumericMessage)
    else
      var i := IntCast(index);
      var j := if i < 0 then i + |c.chain| else i;
      match Get(c.chain, j)
      case Some(name) => Ok(Str(name))
      case None => Ok(PhpFalse)
  }

  /** From the start: index i of a stack is the entry with ordinal i. */
  lemma GetByIndexFromRoot(ip: InProgress, i: int)
    requires IsStack(ip) && 0 <= i < |ip|
    ensures GetByIndex(NewChain(ip), Int(i)) == Ok(Str(ip[i].0))
  {
    FlipStack(ip);
    GetPresent(Positions(ip), i);
  }

  /** From the end: index -k is the entry n-k, so -1 is the innermost type. */
  lemma GetByIndexFromEnd(ip: InProgress, k: int)
    requires IsStack(ip) && 1 <= k <= |ip|
    ensures GetByIndex(NewChain(ip), Int(-k)) == Ok(Str(ip[|ip| - k].0))
  {
    FlipStack(ip);
    GetPresent(Positions(ip), |ip| - k);
  }

  /** An index past either end answers `false` instead of failing. */
  lemma GetByIndexOutOfRange(ip: InProgress, i: int)
    requires IsStack(ip) && (i >= |ip| || i < -|ip|)
    ensures GetByIndex(NewChain(ip), Int(i)) == Ok(PhpFalse)
  {
    FlipStack(ip);
    var j := if i < 0 then i + |ip| else i;
    GetAbsent(Positions(ip), j);
  }

  /** A non-numeric index throws, whatever the chain. */
  lemma GetByIndexNonNumeric(c: InjectionChain, index: Value)
    requires !IsNumeric(index)
    ensures GetByIndex(c, index) == Err(NonNumericMessage)
  {
  }

  /** On an empty chain every numeric index answers `false`. */
  lemma GetByIndexEmpty(index: Value)
    requires IsNumeric(index)
    ensures GetByIndex(NewChain([]), index) == Ok(PhpFalse)
  {
  }

  /** A numeric string index behaves as the integer it spells. */
  lemma GetByIndexNumericString(c: InjectionChain, i: int)
    ensures GetByIndex(c, Str(Decimal(i))) == GetByIndex(c, Int(i))
  {
    DecimalRoundTrip(i);
  }
}
