/** What the comparison of versions means on the strings themselves: how a string falls into tokens,
    that numbers are compared by their decimal value and words letter by letter, which token comes
    first, and how a script name falls into version and release. */
module VersionMeaning {
  import opened VersionOrder
  import opened UpgradeScripts

  // ---------------------------------------------------------------- tokens of strings

  predicate Digits(s: string) { forall k | 0 <= k < |s| :: '0' <= s[k] <= '9' }

  predicate Letters(s: string) { forall k | 0 <= k < |s| :: 'a' <= s[k] <= 'z' || 'A' <= s[k] <= 'Z' }

  /** No number and no word goes on from a into b. */
  predicate Breaks(a: string, b: string) {
    a == [] || b == [] || (!Digits([a[|a| - 1], b[0]]) && !Letters([a[|a| - 1], b[0]]))
  }

  lemma {:induction false} RunShifts(a: string, b: string, j: nat, digits: bool)
    requires j <= |b|
    ensures RunEnd(a + b, |a| + j, digits) == |a| + RunEnd(b, j, digits)
    decreases |b| - j
  {
    if j < |b| { RunShifts(a, b, j + 1, digits); }
  }

  /** The tokens of the second string are those of the whole from there on. */
  lemma {:induction false} TokensShift(a: string, b: string, j: nat)
    requires j <= |b|
    ensures Tokens(a + b, |a| + j) == Tokens(b, j)
    decreases |b| - j
  {
    hide Tokens, TokenAt, After, Skip;
    if j == |b| {
      HeadToken(a + b, |a| + j);
      HeadToken(b, j);
    } else if IsSeparator(b[j]) {
      SkipOne(a + b, |a| + j);
      SkipOne(b, j);
      TokensShift(a, b, j + 1);
    } else {
      HeadToken(a + b, |a| + j);
      HeadToken(b, j);
      HeadShifts(a, b, j);
      TokensShift(a, b, After(b, j));
    }
  }

  lemma HeadShifts(a: string, b: string, j: nat)
    requires j < |b| && !IsSeparator(b[j])
    ensures After(a + b, |a| + j) == |a| + After(b, j) && TokenAt(a + b, |a| + j) == TokenAt(b, j)
  {
    hide Number, RunEnd;
    RunShifts(a, b, j, IsDigit(b[j]));
    SliceShifts(a, b, j, After(b, j));
  }

  lemma SliceShifts(a: string, b: string, j: nat, k: nat)
    requires j <= k <= |b|
    ensures (a + b)[|a| + j..|a| + k] == b[j..k]
  {
  }

  lemma {:induction false} RunStays(a: string, b: string, i: nat, digits: bool)
    requires i < |a| && Breaks(a, b) && (if digits then IsDigit(a[i]) else IsAlpha(a[i]))
    ensures RunEnd(a + b, i, digits) == RunEnd(a, i, digits)
    decreases |a| - i
  {
    if i + 1 < |a| {
      if if digits then IsDigit(a[i + 1]) else IsAlpha(a[i + 1]) { RunStays(a, b, i + 1, digits); }
    } else if b != [] {
      assert (a + b)[i + 1] == b[0];
    }
  }

  lemma SkipOne(s: string, i: nat)
    requires i < |s| && IsSeparator(s[i])
    ensures Tokens(s, i) == Tokens(s, i + 1)
  {
    hide Number, RunEnd;
  }

  lemma {:induction false} TokensFrom(a: string, b: string, i: nat)
    requires i <= |a| && Breaks(a, b)
    ensures Tokens(a + b, i) == Tokens(a, i) + TokensOf(b)
    decreases |a| - i
  {
    hide Tokens, TokenAt, After, Breaks, Skip;
    if i == |a| {
      TokensShift(a, b, 0);
      HeadToken(a, i);
    } else if IsSeparator(a[i]) {
      SkipOne(a, i);
      SkipOne(a + b, i);
      TokensFrom(a, b, i + 1);
    } else {
      HeadToken(a, i);
      HeadToken(a + b, i);
      HeadStays(a, b, i);
      TokensFrom(a, b, After(a, i));
      TokensTogether([TokenAt(a, i)], Tokens(a, After(a, i)), TokensOf(b));
    }
  }

  lemma HeadStays(a: string, b: string, i: nat)
    requires i < |a| && !IsSeparator(a[i]) && Breaks(a, b)
    ensures After(a + b, i) == After(a, i) && TokenAt(a + b, i) == TokenAt(a, i)
  {
    hide Number, RunEnd;
    if a[i] != '~' && a[i] != '^' { RunStays(a, b, i, IsDigit(a[i])); }
    assert (a + b)[i..After(a, i)] == a[i..After(a, i)];
  }

  lemma TokensTogether(x: seq<Token>, y: seq<Token>, z: seq<Token>)
    ensures x + (y + z) == (x + y) + z
  {
  }

  /** The tokens of two strings put together, where no number or word goes on from one into the
      other, are the tokens of the first and then those of the second. */
  lemma TokensJoin(a: string, b: string)
    requires Breaks(a, b)
    ensures TokensOf(a + b) == TokensOf(a) + TokensOf(b)
  {
    hide Tokens;
    TokensFrom(a, b, 0);
  }

  /** The pieces strings are made of: a tilde, a caret, any other character that is no letter or
      digit, and a word. */
  lemma Pieces(c: char, w: string)
    requires w != [] && Letters(w)
    ensures TokensOf("~") == [Tilde] && TokensOf("^") == [Caret] && TokensOf("") == []
    ensures !Digits([c]) && !Letters([c]) && c != '~' && c != '^' ==> TokensOf([c]) == []
    ensures TokensOf(w) == [Alpha(w)]
  {
    HeadToken("~", 0);
    HeadToken("~", 1);
    HeadToken("^", 0);
    HeadToken("^", 1);
    if !Digits([c]) && !Letters([c]) && c != '~' && c != '^' {
      assert [c][0] == c;
      SkipOne([c], 0);
      HeadToken([c], 1);
    }
    LettersEnd(w, 0);
    HeadToken(w, 0);
    HeadToken(w, |w|);
    assert w[0..|w|] == w;
  }

  lemma {:induction false} LettersEnd(s: string, i: nat)
    requires i <= |s| && Letters(s)
    ensures RunEnd(s, i, false) == |s|
    decreases |s| - i
  {
    if i < |s| { LettersEnd(s, i + 1); }
  }

  // ---------------------------------------------------------------- numbers

  function Digit(d: nat): char
    requires d < 10
  {
    "0123456789"[d]
  }

  /** The usual spelling of a number. */
  function Decimal(n: nat): string {
    if n < 10 then [Digit(n)] else Decimal(n / 10) + [Digit(n % 10)]
  }

  lemma {:induction false} DecimalIsNumber(n: nat)
    ensures Decimal(n) != [] && Digits(Decimal(n)) && Number(Decimal(n)) == n
    ensures Decimal(n)[0] == '0' <==> n == 0
  {
    hide Number, Digit;
    if n < 10 {
      DigitIs(n);
      NumberMore([], Digit(n));
      assert [] + [Digit(n)] == [Digit(n)];
      NumberOfNothing();
    } else {
      DecimalIsNumber(n / 10);
      DigitIs(n % 10);
      NumberMore(Decimal(n / 10), Digit(n % 10));
    }
  }

  lemma DigitIs(d: nat)
    requires d < 10
    ensures '0' <= Digit(d) <= '9' && Digit(d) as nat - '0' as nat == d && (Digit(d) == '0' <==> d == 0)
  {
  }

  lemma NumberMore(p: string, c: char)
    requires '0' <= c <= '9'
    ensures Number(p + [c]) == Number(p) * 10 + (c as nat - '0' as nat)
  {
    assert (p + [c])[..|p|] == p;
  }

  lemma NumberOfNothing()
    ensures Number([]) == 0
  {
  }

  /** Every number, however spelt, is one token with its value. */
  lemma {:induction false} NumberToken(n: nat, zeros: nat)
    ensures TokensOf(Zeros(zeros) + Decimal(n)) == [Num(n)]
  {
    DecimalIsNumber(n);
    ZerosChangeNothing(zeros, Decimal(n));
    OneNumber(Zeros(zeros) + Decimal(n), n);
  }

  function Zeros(n: nat): string { if n == 0 then "" else "0" + Zeros(n - 1) }

  lemma {:induction false} ZerosChangeNothing(n: nat, s: string)
    requires Digits(s)
    ensures Digits(Zeros(n) + s) && Number(Zeros(n) + s) == Number(s) && |Zeros(n)| == n
  {
    hide Number, Power;
    if n == 0 {
      assert Zeros(0) + s == s;
    } else {
      ZerosChangeNothing(n - 1, s);
      var t := Zeros(n - 1) + s;
      assert Zeros(n) + s == "0" + t;
      NumberParts("0", t);
      NumberMore([], '0');
      NumberOfNothing();
      assert [] + ['0'] == "0";
    }
  }

  function Power(n: nat): nat { if n == 0 then 1 else 10 * Power(n - 1) }

  lemma {:induction false} NumberParts(a: string, b: string)
    ensures Number(a + b) == Number(a) * Power(|b|) + Number(b)
    decreases |b|
  {
    if b == [] {
      assert a + b == a;
    } else {
      var n := |b| - 1;
      assert (a + b)[..|a + b| - 1] == a + b[..n];
      NumberParts(a, b[..n]);
      Shifted(Number(a), Power(n), Number(b[..n]));
    }
  }

  lemma Shifted(x: nat, p: nat, y: nat)
    ensures (x * p + y) * 10 == x * (10 * p) + y * 10
  {
  }

  lemma {:induction false} NumberIsBelow(s: string)
    requires Digits(s)
    ensures Number(s) < Power(|s|)
  {
    if s != [] { NumberIsBelow(s[..|s| - 1]); }
  }

  lemma FirstDigit(s: string)
    requires s != [] && Digits(s)
    ensures Number(s) == (s[0] as nat - '0' as nat) * Power(|s| - 1) + Number(s[1..])
    ensures Number(s[1..]) < Power(|s| - 1)
  {
    hide Number, Power;
    assert s == [s[0]] + s[1..];
    NumberParts([s[0]], s[1..]);
    NumberMore([], s[0]);
    NumberOfNothing();
    assert [] + [s[0]] == [s[0]];
    NumberIsBelow(s[1..]);
  }

  lemma MoreIsMore(x: nat, y: nat, p: nat, a: nat, b: nat)
    requires x < y && a < p
    ensures x * p + a < y * p + b
  {
    assert (x + 1) * p <= y * p;
  }

  lemma {:induction false} PowerGrows(m: nat, n: nat)
    requires m <= n
    ensures Power(m) <= Power(n)
  {
    if m < n { PowerGrows(m, n - 1); }
  }

  /** The longer of two numbers without leading zeros is the greater one. */
  lemma LongerIsGreater(a: string, b: string)
    requires Digits(a) && Digits(b) && |a| < |b| && b[0] != '0'
    ensures Number(a) < Number(b)
  {
    hide Number, Power;
    NumberIsBelow(a);
    FirstDigit(b);
    PowerGrows(|a|, |b| - 1);
    MoreIsMore(0, b[0] as nat - '0' as nat, Power(|b| - 1), 0, Number(b[1..]));
    assert 1 <= b[0] as nat - '0' as nat;
    AtLeast(b[0] as nat - '0' as nat, Power(|b| - 1));
  }

  lemma AtLeast(x: nat, p: nat)
    requires x >= 1
    ensures x * p >= p
  {
  }

  /** Of two numbers of the same length, the first digit in which they differ decides. */
  lemma FirstDifference(a: string, b: string, i: nat)
    requires Digits(a) && Digits(b) && |a| == |b| && i < |a| && a[..i] == b[..i] && a[i] < b[i]
    ensures Number(a) < Number(b)
  {
    hide Number, Power;
    var p, x, y := a[..i], a[i..], b[i..];
    assert a == p + x && b == p + y;
    NumberParts(p, x);
    NumberParts(p, y);
    FirstDiffers(x, y);
  }

  lemma FirstDiffers(x: string, y: string)
    requires Digits(x) && Digits(y) && |x| == |y| && x != [] && x[0] < y[0]
    ensures Number(x) < Number(y)
  {
    hide Number, Power;
    FirstDigit(x);
    FirstDigit(y);
    MoreIsMore(x[0] as nat - '0' as nat, y[0] as nat - '0' as nat, Power(|x| - 1), Number(x[1..]), Number(y[1..]));
  }

  lemma OneEach(a: string, b: string)
    requires a != [] && b != [] && Digits(a) && Digits(b)
    ensures CompareVersions(a, b) == Ok(if Number(a) < Number(b) then -1 else if Number(a) == Number(b) then 0 else 1)
  {
    hide Number, Tokens;
    OneNumber(a, Number(a));
    OneNumber(b, Number(b));
    hide Order, TildeAtEnd;
    SingleNumbers(Number(a), Number(b));
  }

  lemma SingleNumbers(x: nat, y: nat)
    ensures Order([Num(x)], [Num(y)]) == (if x < y then -1 else if x == y then 0 else 1)
    ensures !TildeAtEnd([Num(x)], [Num(y)])
  {
  }

  /** Comparing two numbers without leading zeros: a shorter one is older; of the same length, the
      first digit in which they differ decides; and only equal ones compare equal. */
  lemma NumbersByDigits(a: string, b: string)
    requires a != [] && b != [] && Digits(a) && Digits(b) && a[0] != '0' && b[0] != '0'
    ensures |a| < |b| ==> CompareVersions(a, b) == Ok(-1) && CompareVersions(b, a) == Ok(1)
    ensures forall i | 0 <= i < |a| && |a| == |b| && a[..i] == b[..i] && a[i] < b[i] ::
              CompareVersions(a, b) == Ok(-1) && CompareVersions(b, a) == Ok(1)
    ensures a == b ==> CompareVersions(a, b) == Ok(0)
  {
    hide Number, CompareVersions;
    OneEach(a, b);
    OneEach(b, a);
    if |a| < |b| { LongerIsGreater(a, b); }
    forall i | 0 <= i < |a| && |a| == |b| && a[..i] == b[..i] && a[i] < b[i]
      ensures CompareVersions(a, b) == Ok(-1) && CompareVersions(b, a) == Ok(1)
    {
      FirstDifference(a, b, i);
    }
  }

  // ---------------------------------------------------------------- words and ranks

  /** Words are compared by the first letter in which they differ, and a beginning comes first. */
  lemma {:induction false} WordsByLetters(a: string, b: string, i: nat)
    requires i <= |a| && i <= |b| && a[..i] == b[..i] && i < |b| && (i == |a| || a[i] < b[i])
    ensures CompareText(a, b) == -1 && CompareText(b, a) == 1
    decreases i
  {
    if i > 0 {
      assert a[0] == a[..i][0] == b[..i][0] == b[0];
      assert a[1..][..i - 1] == a[..i][1..] && b[1..][..i - 1] == b[..i][1..];
      WordsByLetters(a[1..], b[1..], i - 1);
    }
  }

  /** After a common beginning of the tokens, what comes next decides. */
  lemma {:induction false} CommonBeginning(p: seq<Token>, a: seq<Token>, b: seq<Token>)
    ensures Order(p + a, p + b) == Order(a, b)
  {
    if p == [] {
      assert p + a == a && p + b == b;
    } else {
      assert (p + a)[1..] == p[1..] + a && (p + b)[1..] == p[1..] + b;
      Peel(p + a, p + b);
      CommonBeginning(p[1..], a, b);
    }
  }

  /** A tilde comes before the end, the end before a caret, a caret before a word, a word before a
      number; numbers go by value and words by their letters. */
  lemma WhatComesFirst(x: nat, y: nat, v: string, w: string, a: seq<Token>, b: seq<Token>)
    ensures Order([Tilde] + a, []) == -1 && Order([], [Caret] + a) == -1
    ensures Order([], [Alpha(w)] + a) == -1 && Order([], [Num(x)] + a) == -1
    ensures Order([Tilde] + a, [Caret] + b) == -1 && Order([Tilde] + a, [Alpha(w)] + b) == -1
    ensures Order([Tilde] + a, [Num(x)] + b) == -1
    ensures Order([Caret] + a, [Alpha(w)] + b) == -1 && Order([Caret] + a, [Num(x)] + b) == -1
    ensures Order([Alpha(w)] + a, [Num(x)] + b) == -1
    ensures x < y ==> Order([Num(x)] + a, [Num(y)] + b) == -1
    ensures CompareText(v, w) == -1 ==> Order([Alpha(v)] + a, [Alpha(w)] + b) == -1
  {
    hide CompareText;
  }

  // ---------------------------------------------------------------- names of scripts

  predicate NoDash(s: string) { forall k | 0 <= k < |s| :: s[k] != '-' }

  lemma {:induction false} DashIsAt(s: string, i: nat, d: nat)
    requires i <= d <= |s| && (forall k | i <= k < d :: s[k] != '-') && (d < |s| ==> s[d] == '-')
    ensures Dash(s, i) == d
    decreases d - i
  {
    if i < d { DashIsAt(s, i + 1, d); }
  }

  /** A name without a dash raises; otherwise the version is what stands before the first dash and
      the release what stands between it and the next one, or the end. */
  lemma NameParts(v: string, r: string, rest: string)
    requires NoDash(v) && NoDash(r)
    ensures Parts(v) == IndexError
    ensures Parts(v + "-" + r) == Ok((v, r)) && Parts(v + "-" + r + "-" + rest) == Ok((v, r))
  {
    hide Dash;
    DashIsAt(v, 0, |v|);
    PartsOf(v + "-" + r, v, r);
    PartsOf(v + "-" + r + "-" + rest, v, r);
  }

  lemma PartsOf(s: string, v: string, r: string)
    requires NoDash(v) && NoDash(r) && v + "-" + r <= s && (|s| > |v| + 1 + |r| ==> s[|v| + 1 + |r|] == '-')
    ensures Parts(s) == Ok((v, r))
  {
    hide Dash;
    var l := v + "-" + r;
    assert s[..|l|] == l;
    assert s[..|v|] == v && s[|v|] == '-' && s[|v| + 1..|l|] == r;
    assert forall k | 0 <= k < |r| :: s[|v| + 1 + k] == r[k];
    DashIsAt(s, 0, |v|);
    DashIsAt(s, |v| + 1, |l|);
  }

  /** The version decides, and the release only between equal versions. */
  lemma VersionFirst(v: string, r: string, w: string, q: string)
    requires NoDash(v) && NoDash(r) && NoDash(w) && NoDash(q)
    ensures Compare(v + "-" + r, w + "-" + q)
         == if CompareVersions(v, w) == Ok(0) then CompareVersions(r, q) else CompareVersions(v, w)
  {
    hide CompareVersions, Parts;
    NameParts(v, r, "");
    NameParts(w, q, "");
  }
}
