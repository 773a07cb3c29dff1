/** Which upgrade scripts are run, and in which order. Script names are version-release strings. */
module UpgradeScripts {
  import opened VersionOrder

  // ---------------------------------------------------------------- version-release strings

  /** The first position from i on that holds a dash, or the end. */
  function Dash(s: string, i: nat): (j: nat)
    requires i <= |s|
    ensures i <= j <= |s| && (j < |s| ==> s[j] == '-') && forall k | i <= k < j :: s[k] != '-'
    decreases |s| - i
  {
    if i < |s| && s[i] != '-' then Dash(s, i + 1) else i
  }

  /** The first two dash-separated parts; further parts are ignored. */
  function Parts(s: string): Outcome<(string, string)> {
    var d := Dash(s, 0);
    if d == |s| then IndexError else Ok((s[..d], s[d + 1..Dash(s, d + 1)]))
  }

  function CompareVersions(v1: string, v2: string): Outcome<int> {
    if TildeAtEnd(TokensOf(v1), TokensOf(v2)) then IndexError else Ok(Order(TokensOf(v1), TokensOf(v2)))
  }

  function Compare(a: string, b: string): Outcome<int> {
    var p, q := Parts(a), Parts(b);
    if p.IndexError? || q.IndexError? then IndexError
    else
      var c := CompareVersions(p.value.0, q.value.0);
      if c == Ok(0) then CompareVersions(p.value.1, q.value.1) else c
  }

  method CompareVersionRelease(a: string, b: string) returns (r: Outcome<int>)
    ensures r == Compare(a, b)
  {
    var p, q := Parts(a), Parts(b);
    if p.IndexError? || q.IndexError? {
      return IndexError;
    }
    r := CompareV(p.value.0, q.value.0);
    if r == Ok(0) {
      r := CompareV(p.value.1, q.value.1);
    }
  }

  /** A name with a release and without tildes: comparing such names never raises. */
  predicate Plain(s: string) { '-' in s && '~' !in s }

  lemma PlainParts(s: string)
    requires Plain(s)
    ensures Parts(s).Ok? && '~' !in Parts(s).value.0 && '~' !in Parts(s).value.1
  {
    var d := Dash(s, 0);
  }

  lemma {:induction false} NoTildes(s: string, i: nat)
    requires i <= |s| && '~' !in s
    ensures forall k | 0 <= k < |Tokens(s, i)| :: !Tokens(s, i)[k].Tilde?
    decreases |s| - i
  {
    TokensFromSkip(s, i);
    var j := Skip(s, i);
    if j < |s| {
      HeadToken(s, j);
      NoTildes(s, After(s, j));
    }
  }

  function Version(s: string): seq<Token>
    requires Plain(s)
  {
    PlainParts(s);
    TokensOf(Parts(s).value.0)
  }

  function Release(s: string): seq<Token>
    requires Plain(s)
  {
    PlainParts(s);
    TokensOf(Parts(s).value.1)
  }

  /** Versions first, then releases. */
  function ByVersion(a: string, b: string): (c: int)
    requires Plain(a) && Plain(b)
    ensures -1 <= c <= 1
  {
    var c := Order(Version(a), Version(b));
    if c == 0 then Order(Release(a), Release(b)) else c
  }

  lemma PlainCompares(a: string, b: string)
    requires Plain(a) && Plain(b)
    ensures Compare(a, b) == Ok(ByVersion(a, b))
  {
    PlainParts(a);
    PlainParts(b);
    NoTildes(Parts(a).value.0, 0);
    NoTildes(Parts(a).value.1, 0);
    NoTildes(Parts(b).value.0, 0);
    NoTildes(Parts(b).value.1, 0);
  }

  /** The comparison of plain names is an antisymmetric total preorder. */
  lemma ByVersionLaws(a: string, b: string)
    requires Plain(a) && Plain(b)
    ensures ByVersion(a, b) == -ByVersion(b, a)
    ensures ByVersion(a, b) == 0 <==> Version(a) == Version(b) && Release(a) == Release(b)
  {
    OrderLaws(Version(a), Version(b));
    OrderLaws(Release(a), Release(b));
  }

  lemma ByVersionTransitive(a: string, b: string, c: string)
    requires Plain(a) && Plain(b) && Plain(c) && ByVersion(a, b) <= 0 && ByVersion(b, c) <= 0
    ensures ByVersion(a, c) <= 0
    ensures ByVersion(a, c) == 0 ==> ByVersion(a, b) == 0 && ByVersion(b, c) == 0
  {
    hide Version, Release, Order;
    OrderLaws(Version(a), Version(b));
    OrderLaws(Version(b), Version(c));
    OrderLaws(Version(a), Version(c));
    OrderLaws(Release(a), Release(b));
    OrderLaws(Release(b), Release(c));
    OrderLaws(Release(a), Release(c));
    OrderTransitive(Version(a), Version(b), Version(c));
    if Version(a) == Version(b) == Version(c) {
      OrderTransitive(Release(a), Release(b), Release(c));
    }
  }

  // ---------------------------------------------------------------- selection

  /** The test compares with hi only a name that comes after lo, and with neither the name of lo
      itself in inclusive mode; it raises where a comparison it makes raises. */
  predicate Raises(s: string, lo: string, hi: string, inclusive: bool) {
    && !(inclusive && s == lo)
    && (Compare(s, lo).IndexError? || (Compare(s, lo) == Ok(1) && Compare(s, hi).IndexError?))
  }

  predicate Inside(s: string, lo: string, hi: string, inclusive: bool) {
    (inclusive && s == lo) || (Compare(s, lo) == Ok(1) && Compare(s, hi) in {Ok(-1), Ok(0)})
  }

  function InRange(s: string, lo: string, hi: string, inclusive: bool): Outcome<bool> {
    if Raises(s, lo, hi, inclusive) then IndexError else Ok(Inside(s, lo, hi, inclusive))
  }

  method IsInRange(s: string, lo: string, hi: string, inclusive: bool) returns (r: Outcome<bool>)
    ensures r == InRange(s, lo, hi, inclusive)
  {
    if inclusive && s == lo {
      return Ok(true);
    }
    var c := CompareVersionRelease(s, lo);
    if c.IndexError? {
      return IndexError;
    }
    if c.value != 1 {
      return Ok(false);
    }
    var d := CompareVersionRelease(s, hi);
    return if d.IndexError? then IndexError else Ok(d.value <= 0);
  }

  /** lo < s <= hi; in inclusive mode also lo itself. */
  predicate Wanted(s: string, lo: string, hi: string, inclusive: bool)
    requires Plain(s) && Plain(lo) && Plain(hi)
  {
    (inclusive && s == lo) || (ByVersion(lo, s) < 0 && ByVersion(s, hi) <= 0)
  }

  /** With plain names the range test never raises, and exclusive mode means exactly lo < s <= hi. */
  lemma RangeIsExact(s: string, lo: string, hi: string, inclusive: bool)
    requires Plain(s) && Plain(lo) && Plain(hi)
    ensures InRange(s, lo, hi, inclusive) == Ok((inclusive && s == lo) || (ByVersion(lo, s) < 0 && ByVersion(s, hi) <= 0))
  {
    PlainCompares(s, lo);
    PlainCompares(s, hi);
    ByVersionLaws(s, lo);
  }

  lemma RangeIsWanted(s: string, lo: string, hi: string, inclusive: bool)
    requires Plain(s) && Plain(lo) && Plain(hi)
    ensures InRange(s, lo, hi, inclusive) == Ok(Wanted(s, lo, hi, inclusive))
  {
    hide InRange, Plain, ByVersion;
    RangeIsExact(s, lo, hi, inclusive);
  }

  /** Inclusive mode means lo <= s <= hi except where it goes by the spelling of lo: a name that
      compares equal to lo but is spelt differently is left out, and lo itself is taken even when
      it lies beyond hi. */
  lemma InclusiveRange(s: string, lo: string, hi: string)
    requires Plain(s) && Plain(lo) && Plain(hi)
    ensures InRange(s, lo, hi, true) == Ok(ByVersion(lo, s) <= 0 && ByVersion(s, hi) <= 0)
            <==> (if s == lo then ByVersion(lo, hi) <= 0 else ByVersion(s, lo) != 0 || ByVersion(s, hi) > 0)
  {
    PlainCompares(s, lo);
    PlainCompares(s, hi);
    ByVersionLaws(s, lo);
  }

  /** "1-01" is the same version as "1-1" but is not selected with it. */
  lemma InclusiveMissesRespelling()
    ensures Plain("1-01") && Plain("1-1") && ByVersion("1-01", "1-1") == 0
    ensures InRange("1-01", "1-1", "1-1", true) == Ok(false)
  {
    var a, b := "1-01", "1-1";
    assert a[1] == '-' && b[1] == '-';
    assert Dash(a, 0) == 1 && Dash(a, 2) == 4 && Dash(b, 0) == 1 && Dash(b, 2) == 3;
    assert a[..1] == "1" && a[2..4] == "01" && b[..1] == "1" && b[2..3] == "1";
    assert Parts(a) == Ok(("1", "01")) && Parts(b) == Ok(("1", "1"));
    OneNumber("1", 1);
    OneNumber("01", 1);
    ByVersionLaws(a, b);
    PlainCompares(a, b);
  }

  lemma {:induction false} DigitsEnd(s: string, i: nat)
    requires i <= |s| && forall k | i <= k < |s| :: IsDigit(s[k])
    ensures RunEnd(s, i, true) == |s|
    decreases |s| - i
  {
    if i < |s| { DigitsEnd(s, i + 1); }
  }

  lemma OneNumber(s: string, n: nat)
    requires s != [] && Number(s) == n && forall k | 0 <= k < |s| :: IsDigit(s[k])
    ensures TokensOf(s) == [Num(n)]
  {
    DigitsEnd(s, 0);
    HeadToken(s, 0);
    HeadToken(s, |s|);
    assert s[0..|s|] == s;
  }

  /** Comparing "1~", an older version than "1", with "1" raises. */
  lemma TildeRaises()
    ensures TokensOf("1~") == [Num(1), Tilde] && TokensOf("1") == [Num(1)]
    ensures Order(TokensOf("1~"), TokensOf("1")) == -1 && TildeAtEnd(TokensOf("1~"), TokensOf("1"))
    ensures CompareVersions("1~", "1") == CompareVersions("1", "1~") == IndexError
  {
    var v := "1~";
    OneNumber("1", 1);
    assert RunEnd(v, 0, true) == 1 && v[0..1] == "1";
    HeadToken(v, 0);
    HeadToken(v, 1);
    HeadToken(v, 2);
    assert TokensOf(v)[..1] == [Num(1)];
    Peel(TokensOf(v), [Num(1)]);
  }

  function Selected(scripts: seq<string>, lo: string, hi: string, inclusive: bool): Outcome<seq<string>> {
    if scripts == [] then Ok([])
    else
      var rest := Selected(scripts[..|scripts| - 1], lo, hi, inclusive);
      var s := scripts[|scripts| - 1];
      if rest.IndexError? then IndexError
      else
        var c := InRange(s, lo, hi, inclusive);
        if c.IndexError? then IndexError else Ok(if c.value then rest.value + [s] else rest.value)
  }

  method Select(scripts: seq<string>, lo: string, hi: string, inclusive: bool) returns (r: Outcome<seq<string>>)
    ensures r == Selected(scripts, lo, hi, inclusive)
  {
    hide InRange;
    var kept: seq<string> := [];
    for i := 0 to |scripts|
      invariant Selected(scripts[..i], lo, hi, inclusive) == Ok(kept)
    {
      assert scripts[..i + 1][..i] == scripts[..i];
      var c := IsInRange(scripts[i], lo, hi, inclusive);
      if c.IndexError? {
        SelectedRaises(scripts, lo, hi, inclusive, i + 1);
        return IndexError;
      }
      if c.value {
        kept := kept + [scripts[i]];
      }
    }
    assert scripts[..|scripts|] == scripts;
    return Ok(kept);
  }

  lemma {:induction false} SelectedRaises(scripts: seq<string>, lo: string, hi: string, inclusive: bool, i: nat)
    requires i <= |scripts| && Selected(scripts[..i], lo, hi, inclusive).IndexError?
    ensures Selected(scripts, lo, hi, inclusive).IndexError?
    decreases |scripts| - i
  {
    if i == |scripts| {
      assert scripts[..i] == scripts;
    } else {
      assert scripts[..i + 1][..i] == scripts[..i];
      SelectedRaises(scripts, lo, hi, inclusive, i + 1);
    }
  }

  ghost predicate AllPlain(l: seq<string>) { forall i | 0 <= i < |l| :: Plain(l[i]) }

  /** The selection keeps each name as often as it was there if it is in range, and not at all
      otherwise. */
  lemma {:induction false} SelectionIsExact(scripts: seq<string>, lo: string, hi: string, inclusive: bool, x: string)
    requires AllPlain(scripts) && Plain(lo) && Plain(hi)
    ensures var r := Selected(scripts, lo, hi, inclusive);
            && r.Ok? && AllPlain(r.value)
            && multiset(r.value)[x] == if Plain(x) && Wanted(x, lo, hi, inclusive) then multiset(scripts)[x] else 0
    decreases |scripts|
  {
    hide Wanted, Plain, InRange;
    if scripts != [] {
      var n := |scripts| - 1;
      SelectionIsExact(scripts[..n], lo, hi, inclusive, x);
      RangeIsWanted(scripts[n], lo, hi, inclusive);
      assert scripts == scripts[..n] + [scripts[n]];
    }
  }

  lemma SelectedMore(l: seq<string>, x: string, lo: string, hi: string, inclusive: bool)
    requires AllPlain(l) && Plain(x) && Plain(lo) && Plain(hi)
    ensures Selected(l, lo, hi, inclusive).Ok?
    ensures Selected(l + [x], lo, hi, inclusive)
         == Ok(Selected(l, lo, hi, inclusive).value + if Wanted(x, lo, hi, inclusive) then [x] else [])
  {
    hide Wanted, Plain, InRange;
    SelectionIsExact(l, lo, hi, inclusive, lo);
    RangeIsWanted(x, lo, hi, inclusive);
    assert (l + [x])[..|l|] == l;
    var kept := Selected(l, lo, hi, inclusive).value;
    assert kept + [] == kept;
  }

  lemma SelectedNone(a: seq<string>, lo: string, hi: string, inclusive: bool)
    requires AllPlain(a) && Plain(lo) && Plain(hi)
    ensures Selected(a, lo, hi, inclusive).Ok? && Selected([], lo, hi, inclusive) == Ok([])
  {
    hide Plain, InRange, Wanted;
    SelectionIsExact(a, lo, hi, inclusive, lo);
  }

  /** Names are kept in the order they are found in. */
  lemma {:induction false} SelectionKeepsOrder(a: seq<string>, b: seq<string>, lo: string, hi: string, inclusive: bool)
    requires AllPlain(a) && AllPlain(b) && Plain(lo) && Plain(hi)
    ensures Selected(a, lo, hi, inclusive).Ok? && Selected(b, lo, hi, inclusive).Ok?
    ensures Selected(a + b, lo, hi, inclusive) == Ok(Selected(a, lo, hi, inclusive).value + Selected(b, lo, hi, inclusive).value)
    decreases |b|
  {
    hide Plain, Wanted, Selected;
    if b == [] {
      SelectedNone(a, lo, hi, inclusive);
      var kept := Selected(a, lo, hi, inclusive).value;
      assert a + b == a && kept + [] == kept;
    } else {
      var l, x := b[..|b| - 1], b[|b| - 1];
      SelectionKeepsOrder(a, l, lo, hi, inclusive);
      SelectedMore(l, x, lo, hi, inclusive);
      SelectedMore(a + l, x, lo, hi, inclusive);
      assert b == l + [x] && a + b == (a + l) + [x];
      var first, rest := Selected(a, lo, hi, inclusive).value, Selected(l, lo, hi, inclusive).value;
      var more := if Wanted(x, lo, hi, inclusive) then [x] else [];
      assert first + (rest + more) == (first + rest) + more;
    }
  }

  // ---------------------------------------------------------------- sorting

  ghost predicate NonDecreasing(l: seq<string>)
    requires AllPlain(l)
  {
    forall i, j | 0 <= i < j < |l| :: ByVersion(l[i], l[j]) <= 0
  }

  /** The names of l that compare equal to y, in the order they have in l. */
  ghost function Alike(l: seq<string>, y: string): (c: seq<string>)
    requires AllPlain(l) && Plain(y)
    ensures |c| <= |l|
  {
    if l == [] then []
    else
      var n := |l| - 1;
      Alike(l[..n], y) + (if ByVersion(l[n], y) == 0 then [l[n]] else [])
  }

  /** r has the names of l in non-decreasing order, and names that compare equal keep the order
      they had: what Python's sort promises. */
  ghost predicate StablySorted(r: seq<string>, l: seq<string>)
    requires AllPlain(l)
  {
    && AllPlain(r) && NonDecreasing(r) && multiset(r) == multiset(l)
    && forall y | Plain(y) :: Alike(r, y) == Alike(l, y)
  }

  /** Puts x behind everything that does not come after it. */
  function Insert(x: string, l: seq<string>): (r: seq<string>)
    requires AllPlain(l) && Plain(x)
    ensures AllPlain(r) && multiset(r) == multiset(l) + multiset{x}
  {
    if l == [] then [x]
    else
      var n := |l| - 1;
      assert l == l[..n] + [l[n]];
      if ByVersion(l[n], x) <= 0 then l + [x] else Insert(x, l[..n]) + [l[n]]
  }

  /** Every name of l is at most z. */
  ghost predicate Below(l: seq<string>, z: string)
    requires AllPlain(l) && Plain(z)
  {
    forall i | 0 <= i < |l| :: ByVersion(l[i], z) <= 0
  }

  lemma InsertedWhere(x: string, l: seq<string>)
    requires AllPlain(l) && Plain(x) && l != []
    ensures var n := |l| - 1;
            AllPlain(l[..n]) && Plain(l[n]) && l == l[..n] + [l[n]]
            && Insert(x, l) == if ByVersion(l[n], x) <= 0 then l + [x] else Insert(x, l[..n]) + [l[n]]
  {
    hide ByVersion, Plain;
  }

  lemma BelowLast(l: seq<string>, x: string, z: string)
    requires AllPlain(l) && Plain(x) && Plain(z) && Below(l, z) && ByVersion(x, z) <= 0
    ensures AllPlain(l + [x]) && Below(l + [x], z)
  {
    hide ByVersion, Plain;
  }

  lemma BelowCut(l: seq<string>, n: nat, z: string)
    requires AllPlain(l) && Plain(z) && Below(l, z) && n <= |l|
    ensures AllPlain(l[..n]) && Below(l[..n], z)
  {
    hide ByVersion, Plain;
  }

  lemma {:induction false} InsertBelow(x: string, l: seq<string>, z: string)
    requires AllPlain(l) && Plain(x) && Plain(z) && ByVersion(x, z) <= 0 && Below(l, z)
    ensures Below(Insert(x, l), z)
  {
    hide ByVersion, Plain, Below, AllPlain, Insert;
    if l == [] {
      InsertNone(x, z);
    } else {
      var n := |l| - 1;
      InsertedWhere(x, l);
      if ByVersion(l[n], x) <= 0 {
        BelowLast(l, x, z);
      } else {
        BelowCut(l, n, z);
        BelowAt(l, n, z);
        InsertBelow(x, l[..n], z);
        BelowLast(Insert(x, l[..n]), l[n], z);
      }
    }
  }

  lemma BelowAt(l: seq<string>, n: nat, z: string)
    requires AllPlain(l) && Plain(z) && Below(l, z) && n < |l|
    ensures Plain(l[n]) && ByVersion(l[n], z) <= 0
  {
    hide ByVersion, Plain;
  }

  lemma InsertNone(x: string, z: string)
    requires Plain(x) && Plain(z)
    ensures Insert(x, []) == [x] && AllPlain([x]) && NonDecreasing([x]) && (ByVersion(x, z) <= 0 ==> Below([x], z))
  {
    hide ByVersion, Plain;
  }

  lemma SortedLast(l: seq<string>, x: string)
    requires AllPlain(l) && Plain(x) && NonDecreasing(l) && Below(l, x)
    ensures AllPlain(l + [x]) && NonDecreasing(l + [x])
  {
    hide ByVersion, Plain;
  }

  lemma SortedCut(l: seq<string>, x: string)
    requires AllPlain(l) && Plain(x) && NonDecreasing(l) && l != []
    ensures var n := |l| - 1;
            AllPlain(l[..n]) && NonDecreasing(l[..n]) && Plain(l[n]) && Below(l[..n], l[n])
            && (ByVersion(l[n], x) <= 0 ==> Below(l, x))
  {
    hide ByVersion, Plain;
    var n := |l| - 1;
    if ByVersion(l[n], x) <= 0 {
      forall i | 0 <= i < n ensures ByVersion(l[i], x) <= 0 { ByVersionTransitive(l[i], l[n], x); }
    }
  }

  lemma {:induction false} InsertSorted(x: string, l: seq<string>)
    requires AllPlain(l) && Plain(x) && NonDecreasing(l)
    ensures NonDecreasing(Insert(x, l))
  {
    hide ByVersion, Plain, Below, AllPlain, Insert, NonDecreasing;
    if l == [] {
      InsertNone(x, x);
    } else {
      var n := |l| - 1;
      InsertedWhere(x, l);
      SortedCut(l, x);
      if ByVersion(l[n], x) <= 0 {
        SortedLast(l, x);
      } else {
        ByVersionLaws(l[n], x);
        InsertSorted(x, l[..n]);
        InsertBelow(x, l[..n], l[n]);
        SortedLast(Insert(x, l[..n]), l[n]);
      }
    }
  }

  lemma AlikeLast(l: seq<string>, x: string, y: string)
    requires AllPlain(l) && Plain(x) && Plain(y)
    ensures AllPlain(l + [x]) && Alike(l + [x], y) == Alike(l, y) + (if ByVersion(x, y) == 0 then [x] else [])
  {
    hide ByVersion, Plain;
    assert (l + [x])[..|l|] == l;
  }

  lemma AlikeExclusive(x: string, z: string, y: string)
    requires Plain(x) && Plain(z) && Plain(y) && ByVersion(z, x) > 0
    ensures ByVersion(x, y) != 0 || ByVersion(z, y) != 0
  {
    hide ByVersion;
    ByVersionLaws(x, y);
    if ByVersion(x, y) == 0 && ByVersion(z, y) == 0 { ByVersionTransitive(z, y, x); }
  }

  lemma {:induction false} InsertAlike(x: string, l: seq<string>, y: string)
    requires AllPlain(l) && Plain(x) && Plain(y)
    ensures Alike(Insert(x, l), y) == Alike(l, y) + (if ByVersion(x, y) == 0 then [x] else [])
  {
    hide ByVersion, Plain, AllPlain, Insert;
    if l == [] {
      InsertNone(x, y);
      AlikeLast([], x, y);
      assert [] + [x] == [x];
    } else {
      hide Alike;
      var n := |l| - 1;
      InsertedWhere(x, l);
      AlikeLast(l[..n], l[n], y);
      if ByVersion(l[n], x) <= 0 {
        AlikeLast(l, x, y);
      } else {
        InsertAlike(x, l[..n], y);
        AlikeLast(Insert(x, l[..n]), l[n], y);
        AlikeExclusive(x, l[n], y);
      }
    }
  }

  lemma StableNext(r: seq<string>, l: seq<string>, x: string)
    requires AllPlain(l) && Plain(x) && StablySorted(r, l)
    ensures AllPlain(l + [x]) && StablySorted(Insert(x, r), l + [x])
  {
    hide ByVersion, Plain, Insert, NonDecreasing, Alike;
    InsertSorted(x, r);
    forall y | Plain(y) ensures Alike(Insert(x, r), y) == Alike(l + [x], y) {
      InsertAlike(x, r, y);
      AlikeLast(l, x, y);
    }
  }

  method SortScripts(l: seq<string>) returns (r: seq<string>)
    requires AllPlain(l)
    ensures StablySorted(r, l)
    ensures AllPlain(r) && multiset(r) == multiset(l) && forall i, j | 0 <= i < j < |r| :: ByVersion(r[i], r[j]) <= 0
  {
    hide ByVersion, Plain, Insert, NonDecreasing, Alike, StablySorted;
    r := [];
    NoneSorted();
    for k := 0 to |l|
      invariant AllPlain(l[..k]) && AllPlain(r) && StablySorted(r, l[..k])
    {
      assert l[..k + 1] == l[..k] + [l[k]];
      StableNext(r, l[..k], l[k]);
      r := Insert(l[k], r);
    }
    assert l[..|l|] == l;
    SortedMeans(r, l);
  }

  lemma SortedMeans(r: seq<string>, l: seq<string>)
    requires AllPlain(l) && StablySorted(r, l)
    ensures AllPlain(r) && multiset(r) == multiset(l) && forall i, j | 0 <= i < j < |r| :: ByVersion(r[i], r[j]) <= 0
  {
    hide ByVersion, Plain, Alike;
  }

  lemma NoneSorted()
    ensures StablySorted([], [])
  {
  }

  lemma AlikeOne(l: seq<string>, y: string) returns (i: nat)
    requires AllPlain(l) && Plain(y) && Alike(l, y) != []
    ensures i < |l| && ByVersion(l[i], y) == 0
  {
    hide ByVersion, Plain;
    var n := |l| - 1;
    if ByVersion(l[n], y) == 0 { i := n; } else { i := AlikeOne(l[..n], y); }
  }

  lemma AlikeEnd(l: seq<string>, y: string)
    requires AllPlain(l) && l != [] && Plain(y)
    ensures var n := |l| - 1;
            && AllPlain(l[..n]) && Plain(l[n])
            && Alike(l, y) == Alike(l[..n], y) + (if ByVersion(l[n], y) == 0 then [l[n]] else [])
            && ByVersion(l[n], l[n]) == 0
  {
    hide ByVersion, Plain;
    ByVersionLaws(l[|l| - 1], l[|l| - 1]);
  }

  /** If something of b is like the last of a, the last of a does not come after the last of b. */
  lemma LastNotAfter(a: seq<string>, b: seq<string>)
    requires AllPlain(a) && AllPlain(b) && NonDecreasing(b) && a != [] && b != []
    requires Plain(a[|a| - 1]) && Plain(b[|b| - 1]) && Alike(b, a[|a| - 1]) != []
    ensures ByVersion(a[|a| - 1], b[|b| - 1]) <= 0
  {
    hide ByVersion, Plain, Alike;
    var x, z := a[|a| - 1], b[|b| - 1];
    var i := AlikeOne(b, x);
    ByVersionLaws(b[i], x);
    if i < |b| - 1 { ByVersionTransitive(x, b[i], z); }
  }

  lemma CancelEnd(p: seq<string>, q: seq<string>, t: seq<string>)
    requires p + t == q + t
    ensures p == q
  {
    assert (p + t)[..|p|] == p && (q + t)[..|q|] == q;
  }

  lemma AlikeCut(a: seq<string>, b: seq<string>, y: string)
    requires AllPlain(a) && AllPlain(b) && a != [] && b != [] && a[|a| - 1] == b[|b| - 1] && Plain(y) && Alike(a, y) == Alike(b, y)
    ensures AllPlain(a[..|a| - 1]) && AllPlain(b[..|b| - 1]) && Alike(a[..|a| - 1], y) == Alike(b[..|b| - 1], y)
  {
    hide ByVersion, Plain, Alike, AllPlain;
    AlikeEnd(a, y);
    AlikeEnd(b, y);
    CancelEnd(Alike(a[..|a| - 1], y), Alike(b[..|b| - 1], y), if ByVersion(a[|a| - 1], y) == 0 then [a[|a| - 1]] else []);
  }

  lemma SameEnd(a: seq<string>, b: seq<string>)
    requires AllPlain(a) && AllPlain(b) && NonDecreasing(a) && NonDecreasing(b) && a != [] && b != []
    requires Plain(a[|a| - 1]) && Plain(b[|b| - 1])
    requires Alike(a, a[|a| - 1]) == Alike(b, a[|a| - 1]) && Alike(a, b[|b| - 1]) == Alike(b, b[|b| - 1])
    ensures a[|a| - 1] == b[|b| - 1]
  {
    hide ByVersion, Plain, Alike, AllPlain, NonDecreasing;
    var x, z := a[|a| - 1], b[|b| - 1];
    AlikeEnd(a, x);
    AlikeEnd(b, z);
    LastNotAfter(a, b);
    LastNotAfter(b, a);
    ByVersionLaws(x, z);
    AlikeEnd(b, x);
    var l := Alike(a, x);
    assert l[|l| - 1] == x && l[|l| - 1] == z;
  }

  /** Any two stable sorts of the same names agree, whatever algorithm they use. */
  lemma {:induction false} StableSortIsUnique(a: seq<string>, b: seq<string>)
    requires AllPlain(a) && AllPlain(b) && NonDecreasing(a) && NonDecreasing(b)
    requires forall y | Plain(y) :: Alike(a, y) == Alike(b, y)
    ensures a == b
    decreases |a|
  {
    hide ByVersion, Plain, Alike, NonDecreasing;
    if a != [] && b != [] {
      var n, m := |a| - 1, |b| - 1;
      SameEnd(a, b);
      SortedCut(a, a[n]);
      SortedCut(b, b[m]);
      forall y | Plain(y) ensures Alike(a[..n], y) == Alike(b[..m], y) { AlikeCut(a, b, y); }
      StableSortIsUnique(a[..n], b[..m]);
      assert a == a[..n] + [a[n]] && b == b[..m] + [b[m]];
    } else if a != [] {
      AlikeEnd(a, a[|a| - 1]);
      AlikeNone(a[|a| - 1]);
    } else if b != [] {
      AlikeEnd(b, b[|b| - 1]);
      AlikeNone(b[|b| - 1]);
    }
  }

  lemma AlikeNone(y: string)
    requires Plain(y)
    ensures Alike([], y) == []
  {
  }

  /** The scripts that are run: with plain names, exactly those in range, each as often as it is
      in the directory, in non-decreasing order. */
  method ScriptsToRun(scripts: seq<string>, lo: string, hi: string, inclusive: bool) returns (r: seq<string>)
    requires AllPlain(scripts) && Plain(lo) && Plain(hi)
    ensures Selected(scripts, lo, hi, inclusive).Ok? && AllPlain(Selected(scripts, lo, hi, inclusive).value)
    ensures StablySorted(r, Selected(scripts, lo, hi, inclusive).value)
    ensures AllPlain(r) && forall i, j | 0 <= i < j < |r| :: ByVersion(r[i], r[j]) <= 0
    ensures forall x | Plain(x) ::
              multiset(r)[x] == if (inclusive && x == lo) || (ByVersion(lo, x) < 0 && ByVersion(x, hi) <= 0)
                                then multiset(scripts)[x] else 0
  {
    forall x { SelectionIsExact(scripts, lo, hi, inclusive, x); }
    SelectionIsExact(scripts, lo, hi, inclusive, lo);
    var chosen := Select(scripts, lo, hi, inclusive);
    r := SortScripts(chosen.value);
  }
}
