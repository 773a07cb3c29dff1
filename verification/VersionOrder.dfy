/** The order in which upgrade scripts run: version-release strings are compared segment by
    segment with two moving indices, scripts in a range are selected, and the selection is sorted.
    The comparison is shown to be a lexicographic order on token sequences. */
module VersionOrder {

  /** A Python result: a value, or an uncaught IndexError. */
  datatype Outcome<T> = Ok(value: T) | IndexError

  predicate IsDigit(c: char) { '0' <= c <= '9' }

  predicate IsAlpha(c: char) { 'a' <= c <= 'z' || 'A' <= c <= 'Z' }

  predicate IsSeparator(c: char) { !IsDigit(c) && !IsAlpha(c) && c != '~' && c != '^' }

  // ---------------------------------------------------------------- tokens

  datatype Token = Tilde | Caret | Alpha(text: string) | Num(value: nat)

  /** The value of a decimal number. */
  function Number(s: string): nat {
    if s == [] then 0
    else Number(s[..|s| - 1]) * 10 + (if IsDigit(s[|s| - 1]) then s[|s| - 1] as nat - '0' as nat else 0)
  }

  /** The first position from i on that is not a separator. */
  function Skip(s: string, i: nat): (j: nat)
    requires i <= |s|
    ensures i <= j <= |s| && (j < |s| ==> !IsSeparator(s[j]))
    decreases |s| - i
  {
    if i < |s| && IsSeparator(s[i]) then Skip(s, i + 1) else i
  }

  /** The end of the run of digits, or of letters, that goes on at i. */
  function RunEnd(s: string, i: nat, digits: bool): (j: nat)
    requires i <= |s|
    ensures i <= j <= |s|
    ensures i < |s| && (if digits then IsDigit(s[i]) else IsAlpha(s[i])) ==> i < j
    decreases |s| - i
  {
    if i < |s| && (if digits then IsDigit(s[i]) else IsAlpha(s[i])) then RunEnd(s, i + 1, digits) else i
  }

  /** The tokens of s from position i on. */
  function Tokens(s: string, i: nat): seq<Token>
    requires i <= |s|
    decreases |s| - i
  {
    var j := Skip(s, i);
    if j == |s| then []
    else if s[j] == '~' then [Tilde] + Tokens(s, j + 1)
    else if s[j] == '^' then [Caret] + Tokens(s, j + 1)
    else
      var k := RunEnd(s, j, IsDigit(s[j]));
      [if IsDigit(s[j]) then Num(Number(s[j..k])) else Alpha(s[j..k])] + Tokens(s, k)
  }

  function TokensOf(s: string): seq<Token> { Tokens(s, 0) }

  // ---------------------------------------------------------------- order on tokens

  function Sign(a: int, b: int): int { if a < b then -1 else if a == b then 0 else 1 }

  /** Python's order on strings. */
  function CompareText(a: string, b: string): (c: int)
    ensures -1 <= c <= 1
  {
    if a == [] || b == [] then Sign(|a|, |b|)
    else if a[0] != b[0] then (if a[0] < b[0] then -1 else 1)
    else CompareText(a[1..], b[1..])
  }

  /** Tilde, then caret, then letters, then numbers; the end of the string comes between tilde
      and caret. */
  function Rank(t: Token): nat {
    match t
    case Tilde => 0
    case Caret => 2
    case Alpha(_) => 3
    case Num(_) => 4
  }

  const END_RANK: nat := 1

  function CompareToken(a: Token, b: Token): (c: int)
    ensures -1 <= c <= 1
  {
    if a.Alpha? && b.Alpha? then CompareText(a.text, b.text)
    else if a.Num? && b.Num? then Sign(a.value, b.value)
    else Sign(Rank(a), Rank(b))
  }

  /** Lexicographic order of token sequences, with an end mark of its own rank. */
  function Order(a: seq<Token>, b: seq<Token>): (c: int)
    ensures -1 <= c <= 1
  {
    if a == [] && b == [] then 0
    else if a == [] then Sign(END_RANK, Rank(b[0]))
    else if b == [] then Sign(Rank(a[0]), END_RANK)
    else
      var c := CompareToken(a[0], b[0]);
      if c != 0 then c else Order(a[1..], b[1..])
  }

  /** One sequence ends, after a common beginning, where the other has a tilde. */
  predicate TildeAtEnd(a: seq<Token>, b: seq<Token>) {
    || (|a| < |b| && b[..|a|] == a && b[|a|].Tilde?)
    || (|b| < |a| && a[..|b|] == b && a[|b|].Tilde?)
  }

  lemma {:induction false} TextLaws(a: string, b: string)
    ensures CompareText(a, b) == -CompareText(b, a)
    ensures CompareText(a, b) == 0 <==> a == b
    decreases |a|
  {
    if a != [] && b != [] {
      if a[0] == b[0] {
        TextLaws(a[1..], b[1..]);
        assert a == [a[0]] + a[1..] && b == [b[0]] + b[1..];
      }
    }
  }

  lemma {:induction false} TextTransitive(a: string, b: string, c: string)
    requires CompareText(a, b) <= 0 && CompareText(b, c) <= 0
    ensures CompareText(a, c) <= 0
    decreases |a|
  {
    if a != [] && b != [] && c != [] && a[0] == b[0] == c[0] {
      TextTransitive(a[1..], b[1..], c[1..]);
    }
  }

  lemma TokenLaws(a: Token, b: Token)
    ensures CompareToken(a, b) == -CompareToken(b, a)
    ensures CompareToken(a, b) == 0 <==> a == b
  {
    if a.Alpha? && b.Alpha? { TextLaws(a.text, b.text); }
  }

  lemma TokenTransitive(a: Token, b: Token, c: Token)
    requires CompareToken(a, b) <= 0 && CompareToken(b, c) <= 0
    ensures CompareToken(a, c) <= 0
  {
    if a.Alpha? && b.Alpha? && c.Alpha? { TextTransitive(a.text, b.text, c.text); }
  }

  /** Antisymmetric, and zero exactly on equal token sequences. */
  lemma {:induction false} OrderLaws(a: seq<Token>, b: seq<Token>)
    ensures Order(a, b) == -Order(b, a)
    ensures Order(a, b) == 0 <==> a == b
    decreases |a|
  {
    if a != [] && b != [] {
      TokenLaws(a[0], b[0]);
      OrderLaws(a[1..], b[1..]);
      assert a == [a[0]] + a[1..] && b == [b[0]] + b[1..];
    }
  }

  lemma {:induction false} OrderTransitive(a: seq<Token>, b: seq<Token>, c: seq<Token>)
    requires Order(a, b) <= 0 && Order(b, c) <= 0
    ensures Order(a, c) <= 0
    decreases |a|
  {
    if a != [] && b != [] && c != [] {
      TokenTransitive(a[0], b[0], c[0]);
      TokenLaws(a[0], b[0]);
      TokenLaws(b[0], c[0]);
      TokenLaws(a[0], c[0]);
      if a[0] == b[0] == c[0] {
        OrderTransitive(a[1..], b[1..], c[1..]);
      }
    }
  }

  // ---------------------------------------------------------------- compareV

  lemma Peel(a: seq<Token>, b: seq<Token>)
    requires a != [] && b != [] && a[0] == b[0]
    ensures Order(a, b) == Order(a[1..], b[1..])
    ensures TildeAtEnd(a, b) <==> TildeAtEnd(a[1..], b[1..])
  {
    TokenLaws(a[0], b[0]);
    assert |a| < |b| ==> (b[..|a|] == a <==> b[1..][..|a| - 1] == a[1..]);
    assert |b| < |a| ==> (a[..|b|] == b <==> a[1..][..|b| - 1] == b[1..]);
  }

  lemma Differ(a: seq<Token>, b: seq<Token>)
    requires a != [] && b != [] && a[0] != b[0]
    ensures Order(a, b) == CompareToken(a[0], b[0]) && !TildeAtEnd(a, b)
  {
    TokenLaws(a[0], b[0]);
    assert |a| < |b| ==> b[..|a|][0] == b[0];
    assert |b| < |a| ==> a[..|b|][0] == a[0];
  }

  lemma AtEnd(a: seq<Token>)
    requires a != []
    ensures Order([], a) == Sign(END_RANK, Rank(a[0])) && Order(a, []) == Sign(Rank(a[0]), END_RANK)
    ensures (TildeAtEnd([], a) <==> a[0].Tilde?) && (TildeAtEnd(a, []) <==> a[0].Tilde?)
  {
    assert a[..0] == [];
  }

  lemma TokensFromSkip(s: string, i: nat)
    requires i <= |s|
    ensures Tokens(s, Skip(s, i)) == Tokens(s, i)
  {
    SkipTwice(s, i);
  }

  lemma {:induction false} SkipTwice(s: string, i: nat)
    requires i <= |s|
    ensures Skip(s, Skip(s, i)) == Skip(s, i)
    decreases |s| - i
  {
    if i < |s| && IsSeparator(s[i]) { SkipTwice(s, i + 1); }
  }

  lemma SameTokens(a: seq<Token>)
    ensures Order(a, a) == 0 && !TildeAtEnd(a, a)
  {
    OrderLaws(a, a);
  }

  lemma Ended()
    ensures Order([], []) == 0 && !TildeAtEnd([], [])
  {
  }

  /** Where the token that begins at i ends. */
  function After(s: string, i: nat): (k: nat)
    requires i < |s| && !IsSeparator(s[i])
    ensures i < k <= |s|
  {
    if s[i] == '~' || s[i] == '^' then i + 1 else RunEnd(s, i, IsDigit(s[i]))
  }

  function TokenAt(s: string, i: nat): Token
    requires i < |s| && !IsSeparator(s[i])
  {
    if s[i] == '~' then Tilde
    else if s[i] == '^' then Caret
    else if IsDigit(s[i]) then Num(Number(s[i..After(s, i)]))
    else Alpha(s[i..After(s, i)])
  }

  lemma HeadToken(s: string, i: nat)
    requires i <= |s| && (i < |s| ==> !IsSeparator(s[i]))
    ensures Tokens(s, i) == if i == |s| then [] else [TokenAt(s, i)] + Tokens(s, After(s, i))
    ensures i < |s| ==> Tokens(s, i)[1..] == Tokens(s, After(s, i))
  {
    hide Number, Skip, RunEnd;
    SkipNothing(s, i);
  }

  lemma SkipNothing(s: string, i: nat)
    requires i <= |s| && (i < |s| ==> !IsSeparator(s[i]))
    ensures Skip(s, i) == i
  {
  }

  method SkipSeparators(v: string, start: nat) returns (i: nat)
    requires start <= |v|
    ensures i == Skip(v, start)
  {
    i := start;
    while i < |v| && !(IsDigit(v[i]) || IsAlpha(v[i])) && v[i] != '~' && v[i] != '^'
      invariant start <= i <= |v| && Skip(v, i) == Skip(v, start)
    {
      i := i + 1;
    }
  }

  method SegmentEnd(v: string, start: nat, digits: bool) returns (i: nat)
    requires start <= |v|
    ensures i == RunEnd(v, start, digits)
  {
    i := start;
    while i < |v| && (if digits then IsDigit(v[i]) else IsAlpha(v[i]))
      invariant start <= i <= |v| && RunEnd(v, i, digits) == RunEnd(v, start, digits)
    {
      i := i + 1;
    }
  }

  /** compareV: raises IndexError exactly when one version ends where the other has a tilde, and
      otherwise gives the lexicographic order of the token sequences. */
  method CompareV(v1: string, v2: string) returns (r: Outcome<int>)
    ensures r == if TildeAtEnd(TokensOf(v1), TokensOf(v2)) then IndexError else Ok(Order(TokensOf(v1), TokensOf(v2)))
  {
    hide Tokens, Order, TildeAtEnd, Number, Skip, CompareText;
    ghost var t1, t2 := TokensOf(v1), TokensOf(v2);
    SameTokens(t1);
    Ended();
    HeadToken(v1, |v1|);
    HeadToken(v2, |v2|);
    if v1 == v2 {
      return Ok(0);
    }
    var i1, i2 := 0, 0;
    while i1 < |v1| || i2 < |v2|
      invariant i1 <= |v1| && i2 <= |v2|
      invariant Order(t1, t2) == Order(Tokens(v1, i1), Tokens(v2, i2))
      invariant TildeAtEnd(t1, t2) <==> TildeAtEnd(Tokens(v1, i1), Tokens(v2, i2))
      decreases |v1| - i1 + |v2| - i2
    {
      TokensFromSkip(v1, i1);
      TokensFromSkip(v2, i2);
      i1 := SkipSeparators(v1, i1);
      i2 := SkipSeparators(v2, i2);
      ghost var a, b := Tokens(v1, i1), Tokens(v2, i2);
      HeadToken(v1, i1);
      HeadToken(v2, i2);
      if a != [] && b != [] {
        if a[0] == b[0] { Peel(a, b); } else { Differ(a, b); }
      } else if a != [] {
        AtEnd(a);
      } else if b != [] {
        AtEnd(b);
      }
      if (i1 < |v1| && v1[i1] == '~') || (i2 < |v2| && v2[i2] == '~') {
        if i1 == |v1| {
          return IndexError;
        }
        if v1[i1] != '~' {
          return Ok(1);
        }
        if i2 == |v2| {
          return IndexError;
        }
        if v2[i2] != '~' {
          return Ok(-1);
        }
        i1, i2 := i1 + 1, i2 + 1;
        continue;
      }
      if (i1 < |v1| && v1[i1] == '^') || (i2 < |v2| && v2[i2] == '^') {
        if i1 == |v1| {
          return Ok(-1);
        }
        if i2 == |v2| {
          return Ok(1);
        }
        if v1[i1] != '^' {
          return Ok(1);
        }
        if v2[i2] != '^' {
          return Ok(-1);
        }
        i1, i2 := i1 + 1, i2 + 1;
        continue;
      }
      if i1 == |v1| || i2 == |v2| {
        break;
      }
      var isNum := IsDigit(v1[i1]);
      var k1 := SegmentEnd(v1, i1, isNum);
      var k2 := SegmentEnd(v2, i2, isNum);
      assert i1 != k1;
      if i2 == k2 {
        return Ok(if isNum then 1 else -1);
      }
      if isNum {
        var n1, n2 := Number(v1[i1..k1]), Number(v2[i2..k2]);
        if n1 != n2 {
          return Ok(if n1 < n2 then -1 else 1);
        }
      } else if v1[i1..k1] != v2[i2..k2] {
        return Ok(CompareText(v1[i1..k1], v2[i2..k2]));
      }
      i1, i2 := k1, k2;
    }
    if i1 == |v1| && i2 == |v2| {
      return Ok(0);
    }
    return Ok(if i1 == |v1| then -1 else 1);
  }
}
