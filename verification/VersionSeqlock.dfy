/** A channel's version, guarded by a sequence counter: serialised writers make the counter odd,
    change version and validity, and make it even again; readers read without a lock and retry
    when the counter has moved. A reader may keep the counter value as a cookie and ask later
    whether anything has changed. */
module VersionSeqlock {
  const WORD32: nat := 0x1_0000_0000
  const WORD64: nat := 0x1_0000_0000_0000_0000
  const RESERVED: nat := 13

  /** The next version tag: never zero and never the reserved value. */
  function IncTag(v: nat): nat {
    var a := (v + 1) % WORD64;
    var b := if a == 0 then 1 else a;
    if b == RESERVED then b + 1 else b
  }

  datatype Commit = Commit(version: nat, valid: bool)

  datatype Writer =
    | Quiet
    | Updating       // counter odd, nothing written yet
    | Versioned      // version written
    | Invalidating   // counter odd, nothing written yet
    | WrittenValid   // valid set, about to make the counter even
    | WrittenInvalid // valid cleared, about to make the counter even

  /** What a reader has so far; `begin` is how often the counter had moved when it read it. */
  datatype Reader =
    | GotSeq(begin: nat)
    | GotValid(begin: nat, valid: bool)
    | GotVersion(begin: nat, version: nat)

  /** `moves` counts every increment; the counter itself is its low 32 bits. `history` holds what
      was committed after every second move. */
  datatype State = State(moves: nat, version: nat, valid: bool, writer: Writer, history: seq<Commit>, readers: map<nat, Reader>)

  function Counter(moves: nat): nat { moves % WORD32 }

  datatype Step =
    | BeginUpdate | WriteVersion | WriteValid | BeginInvalidate | WriteInvalid | End
    | ReadSeq(r: nat) | ReadValid(r: nat) | ReadVersion(r: nat) | Again(r: nat) | Finish(r: nat)

  /** What a reader has read: valid or not, and the version if it was valid. */
  function Seen(x: Reader): Commit
    requires !x.GotSeq? && (x.GotValid? ==> !x.valid)
  {
    match x
    case GotValid(_, _) => Commit(0, false)
    case GotVersion(_, v) => Commit(v, true)
  }

  predicate Ready(x: Reader) { x.GotVersion? || (x.GotValid? && !x.valid) }

  predicate Allowed(s: State, t: Step) {
    match t
    case BeginUpdate => s.writer.Quiet?
    case WriteVersion => s.writer.Updating?
    case WriteValid => s.writer.Versioned?
    case BeginInvalidate => s.writer.Quiet?
    case WriteInvalid => s.writer.Invalidating?
    case End => s.writer.WrittenValid? || s.writer.WrittenInvalid?
    case ReadSeq(r) => r !in s.readers && Counter(s.moves) % 2 == 0
    case ReadValid(r) => r in s.readers && s.readers[r].GotSeq?
    case ReadVersion(r) => r in s.readers && s.readers[r].GotValid? && s.readers[r].valid
    case Again(r) => r in s.readers && Ready(s.readers[r]) && Counter(s.moves) != Counter(s.readers[r].begin)
    case Finish(r) => r in s.readers && Ready(s.readers[r]) && Counter(s.moves) == Counter(s.readers[r].begin)
  }

  function Next(s: State, t: Step): State
    requires Allowed(s, t)
  {
    match t
    case BeginUpdate => s.(moves := s.moves + 1, writer := Updating)
    case WriteVersion => s.(version := IncTag(s.version), writer := Versioned)
    case WriteValid => s.(valid := true, writer := WrittenValid)
    case BeginInvalidate => s.(moves := s.moves + 1, writer := Invalidating)
    case WriteInvalid => s.(valid := false, writer := WrittenInvalid)
    case End => s.(moves := s.moves + 1, writer := Quiet, history := s.history + [Commit(s.version, s.valid)])
    case ReadSeq(r) => s.(readers := s.readers[r := GotSeq(s.moves)])
    case ReadValid(r) => s.(readers := s.readers[r := GotValid(s.readers[r].begin, s.valid)])
    case ReadVersion(r) => s.(readers := s.readers[r := GotVersion(s.readers[r].begin, s.version)])
    case Again(r) => s.(readers := s.readers - {r})
    case Finish(r) => s.(readers := s.readers - {r})
  }

  /** As long as the counter has not moved, what a reader has read is what is there. */
  predicate ReaderOk(s: State, x: Reader) {
    && x.begin <= s.moves && x.begin % 2 == 0
    && (x.begin == s.moves ==>
          match x
          case GotSeq(_) => true
          case GotValid(_, valid) => valid == s.valid
          case GotVersion(_, version) => s.valid && version == s.version)
  }

  /** The version v was committed as valid since the counter stood at begin, or is about to be. */
  ghost predicate WasValid(s: State, begin: nat, v: nat) {
    || (exists k | begin / 2 <= k < |s.history| :: s.history[k] == Commit(v, true))
    || ((s.writer.Versioned? || s.writer.WrittenValid?) && s.version == v)
  }

  ghost predicate WasInvalid(s: State, begin: nat) {
    || (exists k | begin / 2 <= k < |s.history| :: !s.history[k].valid)
    || s.writer.WrittenInvalid?
  }

  /** However often the counter has moved, what a reader has read was so since it began. */
  ghost predicate ReaderPast(s: State, x: Reader) {
    match x
    case GotSeq(_) => true
    case GotValid(begin, valid) => if valid then WasValid(s, begin, s.version) else WasInvalid(s, begin)
    case GotVersion(begin, version) => WasValid(s, begin, version)
  }

  ghost predicate Inv(s: State) {
    && (s.writer.Quiet? <==> s.moves % 2 == 0)
    && |s.history| == s.moves / 2 + 1
    && WriterOk(s)
    && (forall r | r in s.readers :: ReaderOk(s, s.readers[r]))
    && (forall r | r in s.readers :: ReaderPast(s, s.readers[r]))
  }

  /** What the fields are, relative to the last commit, at each point of a write. */
  predicate WriterOk(s: State)
    requires |s.history| > 0
  {
    var last := s.history[|s.history| - 1];
    match s.writer
    case Quiet => last == Commit(s.version, s.valid)
    case Updating => last == Commit(s.version, s.valid)
    case Invalidating => last == Commit(s.version, s.valid)
    case Versioned => last.valid == s.valid
    case WrittenValid => s.valid
    case WrittenInvalid => !s.valid && last.version == s.version
  }

  lemma EvenCounter(m: nat)
    ensures Counter(m) % 2 == m % 2
  {
    assert WORD32 == 2 * 0x8000_0000;
    assert m == WORD32 * (m / WORD32) + m % WORD32;
    assert m == 2 * (0x8000_0000 * (m / WORD32)) + m % WORD32;
  }

  lemma WritePastValid(s: State, t: Step, begin: nat, v: nat)
    requires |s.history| > 0 && WriterOk(s) && Allowed(s, t) && WasValid(s, begin, v) && begin / 2 <= |s.history| - 1
    ensures WasValid(Next(s, t), begin, v)
  {
    var u := Next(s, t);
    if k :| begin / 2 <= k < |s.history| && s.history[k] == Commit(v, true) {
      assert u.history[k] == Commit(v, true);
    } else if t.End? {
      assert u.history[|s.history|] == Commit(v, true);
    }
  }

  lemma WritePastInvalid(s: State, t: Step, begin: nat)
    requires |s.history| > 0 && WriterOk(s) && Allowed(s, t) && WasInvalid(s, begin) && begin / 2 <= |s.history| - 1
    ensures WasInvalid(Next(s, t), begin)
  {
    var u := Next(s, t);
    if k :| begin / 2 <= k < |s.history| && !s.history[k].valid {
      assert !u.history[k].valid;
    } else if t.End? {
      assert !u.history[|s.history|].valid;
    }
  }

  /** Reading the valid flag, at any point of a write. */
  lemma ReadPast(s: State, begin: nat)
    requires |s.history| > 0 && WriterOk(s) && begin / 2 <= |s.history| - 1
    ensures if s.valid then WasValid(s, begin, s.version) else WasInvalid(s, begin)
  {
    assert s.history[|s.history| - 1] == Commit(s.history[|s.history| - 1].version, s.history[|s.history| - 1].valid);
  }

  /** A reader that does not move in this step. */
  lemma ReaderKept(s: State, t: Step, x: Reader)
    requires Inv(s) && Allowed(s, t) && ReaderOk(s, x) && ReaderPast(s, x)
    ensures ReaderOk(Next(s, t), x) && ReaderPast(Next(s, t), x)
  {
    match x
    case GotSeq(_) =>
    case GotValid(begin, valid) =>
      if valid {
        WritePastValid(s, t, begin, s.version);
        if t.WriteVersion? { assert WasValid(Next(s, t), begin, Next(s, t).version); }
      } else {
        WritePastInvalid(s, t, begin);
      }
    case GotVersion(begin, version) => WritePastValid(s, t, begin, version);
  }

  lemma ReaderMoved(s: State, t: Step, r: nat)
    requires Inv(s) && Allowed(s, t) && (t.ReadSeq? || t.ReadValid? || t.ReadVersion?) && t.r == r
    ensures ReaderOk(Next(s, t), Next(s, t).readers[r]) && ReaderPast(Next(s, t), Next(s, t).readers[r])
  {
    EvenCounter(s.moves);
    if t.ReadValid? {
      assert ReaderOk(s, s.readers[r]);
      ReadPast(s, s.readers[r].begin);
    } else if t.ReadVersion? {
      assert ReaderOk(s, s.readers[r]) && ReaderPast(s, s.readers[r]);
    }
  }

  lemma NextKeepsInv(s: State, t: Step)
    requires Inv(s) && Allowed(s, t)
    ensures Inv(Next(s, t))
  {
    var u := Next(s, t);
    forall r | r in u.readers ensures ReaderOk(u, u.readers[r]) && ReaderPast(u, u.readers[r]) {
      if (t.ReadSeq? || t.ReadValid? || t.ReadVersion?) && t.r == r {
        ReaderMoved(s, t, r);
      } else {
        ReaderKept(s, t, s.readers[r]);
      }
    }
  }

  ghost predicate Init(s: State) {
    s.moves == 0 && s.writer.Quiet? && s.history == [Commit(s.version, s.valid)] && s.readers == map[]
  }

  predicate Legal(s: State, ts: seq<Step>)
    decreases |ts|
  {
    ts != [] ==> Allowed(s, ts[0]) && Legal(Next(s, ts[0]), ts[1..])
  }

  function Run(s: State, ts: seq<Step>): State
    requires Legal(s, ts)
    decreases |ts|
  {
    if ts == [] then s else Run(Next(s, ts[0]), ts[1..])
  }

  lemma {:induction false} RunKeepsInv(s: State, ts: seq<Step>)
    requires Inv(s) && Legal(s, ts)
    ensures Inv(Run(s, ts))
    decreases |ts|
  {
    hide Inv, Next, Allowed;
    if ts != [] {
      NextKeepsInv(s, ts[0]);
      RunKeepsInv(Next(s, ts[0]), ts[1..]);
    }
  }

  lemma InitSatisfiesInv(s: State)
    requires Init(s)
    ensures Inv(s)
  {
  }

  /** Since the counter stood at `begin`, this was committed: invalid, or valid with this version. */
  ghost predicate CommittedSince(s: State, begin: nat, x: Commit) {
    exists k | begin / 2 <= k < |s.history| :: s.history[k].valid == x.valid && (x.valid ==> s.history[k].version == x.version)
  }

  lemma ReadWasCommitted(s: State, r: nat)
    requires Inv(s) && Allowed(s, Finish(r))
    ensures CommittedSince(s, s.readers[r].begin, Seen(s.readers[r]))
  {
    var x := s.readers[r];
    EvenCounter(s.moves);
    EvenCounter(x.begin);
    assert ReaderOk(s, x) && ReaderPast(s, x);
    if x.GotVersion? {
      var k :| x.begin / 2 <= k < |s.history| && s.history[k] == Commit(x.version, true);
    } else {
      var k :| x.begin / 2 <= k < |s.history| && !s.history[k].valid;
    }
  }

  /** A read that returns gives something that was committed at one instant during the call: the
      version it returns was committed as valid, or the version was invalid. This holds however
      often the counter moved meanwhile, even if it wrapped around. */
  lemma TrackedReadWasCommitted(s: State, ts: seq<Step>, r: nat)
    requires Init(s) && Legal(s, ts) && Allowed(Run(s, ts), Finish(r))
    ensures var t := Run(s, ts); CommittedSince(t, t.readers[r].begin, Seen(t.readers[r]))
  {
    hide Run, Legal;
    InitSatisfiesInv(s);
    RunKeepsInv(s, ts);
    ReadWasCommitted(Run(s, ts), r);
  }

  // ---------------------------------------------------------------- cookies

  lemma ModDiff(a: nat, b: nat)
    requires b <= a
    ensures a % WORD32 == b % WORD32 <==> (a - b) % WORD32 == 0
  {
    var q, p := a / WORD32, b / WORD32;
    assert a == WORD32 * q + a % WORD32 && b == WORD32 * p + b % WORD32;
    if a % WORD32 == b % WORD32 {
      assert a - b == WORD32 * (q - p);
      MultipleMod(q - p);
    } else if (a - b) % WORD32 == 0 {
      var d := (a - b) / WORD32;
      assert a - b == WORD32 * d;
      assert a == WORD32 * (p + d) + b % WORD32;
      SameRemainder(p + d, b % WORD32);
      assert false;
    }
  }

  lemma MultipleMod(k: int)
    ensures (WORD32 * k) % WORD32 == 0
  {
  }

  lemma SameRemainder(k: int, r: nat)
    requires r < WORD32
    ensures (WORD32 * k + r) % WORD32 == r
  {
  }

  /** nvmeibc_channel_version_tracked_changed of the cookie of a read that began at `begin`. */
  predicate Changed(s: State, begin: nat) { Counter(s.moves) != Counter(begin) }

  /** The cookie looks unchanged exactly when the counter has moved by a multiple of 2^32. */
  lemma CookieIsExact(s: State, begin: nat)
    requires begin <= s.moves
    ensures !Changed(s, begin) <==> (s.moves - begin) % 0x1_0000_0000 == 0
  {
    ModDiff(s.moves, begin);
  }

  predicate Writes(t: Step) {
    t.BeginUpdate? || t.WriteVersion? || t.WriteValid? || t.BeginInvalidate? || t.WriteInvalid? || t.End?
  }

  /** The counter never goes back, and stands still exactly while nobody writes. */
  lemma {:induction false} MovesCountWrites(s: State, ts: seq<Step>)
    requires Legal(s, ts) && s.writer.Quiet?
    ensures Run(s, ts).moves >= s.moves
    ensures Run(s, ts).moves == s.moves <==> forall i | 0 <= i < |ts| :: !Writes(ts[i])
    decreases |ts|
  {
    if ts != [] {
      if Writes(ts[0]) {
        MovesGrow(Next(s, ts[0]), ts[1..]);
      } else {
        MovesCountWrites(Next(s, ts[0]), ts[1..]);
        assert forall i | 0 < i < |ts| :: ts[i] == ts[1..][i - 1];
      }
    }
  }

  lemma {:induction false} MovesGrow(s: State, ts: seq<Step>)
    requires Legal(s, ts)
    ensures Run(s, ts).moves >= s.moves
    decreases |ts|
  {
    if ts != [] { MovesGrow(Next(s, ts[0]), ts[1..]); }
  }

  /** A cookie taken by a read that returned in state s still matches after the run ts exactly when
      nobody has begun an update or an invalidation since, provided the counter has moved fewer
      than 2^32 times. */
  lemma UnchangedMeansNoWrites(s: State, ts: seq<Step>, r: nat)
    requires Inv(s) && Allowed(s, Finish(r)) && s.readers[r].begin == s.moves && Legal(s, ts)
    requires Run(s, ts).moves - s.moves < 0x1_0000_0000
    ensures !Changed(Run(s, ts), s.readers[r].begin) <==> forall i | 0 <= i < |ts| :: !Writes(ts[i])
  {
    hide Run, Legal;
    MovesCountWrites(s, ts);
    CookieIsExact(Run(s, ts), s.moves);
  }

  /** A read during which the counter moved fewer than 2^32 times returns the state as it is when
      it returns, and its cookie stands for that state. */
  lemma TrackedReadIsCurrent(s: State, r: nat)
    requires Inv(s) && Allowed(s, Finish(r)) && s.moves - s.readers[r].begin < 0x1_0000_0000
    ensures var x := s.readers[r];
            && x.begin == s.moves && s.writer.Quiet?
            && Seen(x).valid == s.valid && (s.valid ==> Seen(x).version == s.version)
  {
    var x := s.readers[r];
    assert ReaderOk(s, x);
    ModDiff(s.moves, x.begin);
  }

  lemma {:induction false} ManyUpdates(s: State, k: nat) returns (ts: seq<Step>)
    requires s.writer.Quiet?
    ensures Legal(s, ts) && Run(s, ts).moves == s.moves + 2 * k && Run(s, ts).writer.Quiet?
    ensures |Run(s, ts).history| == |s.history| + k
    decreases k
  {
    if k == 0 {
      ts := [];
    } else {
      var s1 := Next(s, BeginUpdate);
      var s2 := Next(s1, WriteVersion);
      var s3 := Next(s2, WriteValid);
      var s4 := Next(s3, End);
      var rest := ManyUpdates(s4, k - 1);
      OneMore(s3, End, rest);
      OneMore(s2, WriteValid, [End] + rest);
      OneMore(s1, WriteVersion, [WriteValid] + ([End] + rest));
      OneMore(s, BeginUpdate, [WriteVersion] + ([WriteValid] + ([End] + rest)));
      ts := [BeginUpdate] + ([WriteVersion] + ([WriteValid] + ([End] + rest)));
    }
  }

  lemma OneMore(s: State, t: Step, ts: seq<Step>)
    requires Allowed(s, t) && Legal(Next(s, t), ts)
    ensures Legal(s, [t] + ts) && Run(s, [t] + ts) == Run(Next(s, t), ts)
  {
    assert ([t] + ts)[1..] == ts;
  }

  /** Without the proviso it is false: after exactly 2^31 updates the cookie matches again. */
  lemma WrapHidesUpdates(s: State) returns (ts: seq<Step>)
    requires Init(s)
    ensures Legal(s, ts) && !Changed(Run(s, ts), s.moves) && |Run(s, ts).history| == |s.history| + 0x8000_0000
  {
    hide Run, Legal;
    ts := ManyUpdates(s, 0x8000_0000);
    CookieIsExact(Run(s, ts), s.moves);
  }

  // ---------------------------------------------------------------- versions

  /** Versions handed out are 64-bit tags that are never zero or reserved: the next number, except
      that 12 is followed by 14 and the last number by 1. */
  lemma TagsAreUsable(v: nat)
    requires v < 0x1_0000_0000_0000_0000
    ensures IncTag(v) < 0x1_0000_0000_0000_0000 && IncTag(v) != 0 && IncTag(v) != 13 && IncTag(v) != v
    ensures IncTag(v) == if v == 12 then 14 else if v + 1 == 0x1_0000_0000_0000_0000 then 1 else v + 1
  {
  }

  /** There are this many usable tags. */
  const TAGS: nat := 0xFFFF_FFFF_FFFF_FFFE

  predicate Usable(v: nat) { 0 < v < 0x1_0000_0000_0000_0000 && v != 13 }

  /** The place of a usable tag among the usable tags. */
  function Rank(v: nat): nat
    requires Usable(v)
  {
    if v < 13 then v - 1 else v - 2
  }

  lemma RankIsPlace(v: nat, w: nat)
    requires Usable(v) && Usable(w)
    ensures Rank(v) < TAGS && (Rank(v) == Rank(w) <==> v == w)
    ensures Usable(IncTag(v)) && Rank(IncTag(v)) == (Rank(v) + 1) % TAGS
  {
  }

  /** The version after n updates. */
  function Tag(v: nat, n: nat): nat { if n == 0 then v else IncTag(Tag(v, n - 1)) }

  lemma {:induction false} TagIsUsable(v: nat, n: nat)
    requires v < 0x1_0000_0000_0000_0000 && n > 0
    ensures Usable(Tag(v, n))
  {
    hide IncTag;
    if n == 1 {
      TagsAreUsable(v);
    } else {
      TagIsUsable(v, n - 1);
      TagsAreUsable(Tag(v, n - 1));
    }
  }

  lemma {:induction false} RankMoves(v: nat, m: nat, n: nat)
    requires v < 0x1_0000_0000_0000_0000 && 0 < m <= n
    ensures Usable(Tag(v, m)) && Usable(Tag(v, n)) && Rank(Tag(v, n)) == (Rank(Tag(v, m)) + (n - m)) % TAGS
    decreases n - m
  {
    hide IncTag, Rank;
    TagIsUsable(v, m);
    TagIsUsable(v, n);
    RankIsPlace(Tag(v, m), Tag(v, n));
    if m == n {
      Within(Rank(Tag(v, m)));
    } else {
      RankMoves(v, m, n - 1);
      RankIsPlace(Tag(v, n - 1), Tag(v, n - 1));
      OneOn(Rank(Tag(v, m)) + (n - 1 - m));
    }
  }

  lemma Within(x: nat)
    requires x < TAGS
    ensures x % TAGS == x
  {
  }

  lemma OneOn(x: nat)
    ensures (x % TAGS + 1) % TAGS == (x + 1) % TAGS
  {
    var q := x / TAGS;
    assert x == TAGS * q + x % TAGS;
    Around(q, x % TAGS + 1);
  }

  lemma Around(k: int, r: nat)
    ensures (TAGS * k + r) % TAGS == r % TAGS
  {
  }

  lemma AroundTo(x: nat, d: nat)
    requires x < TAGS
    ensures (x + d) % TAGS == x <==> d % TAGS == 0
  {
    var q := d / TAGS;
    assert x + d == TAGS * q + (x + d % TAGS);
    Around(q, x + d % TAGS);
  }

  /** How many of the commits up to k, without the initial one, were made by updates. */
  function Updates(h: seq<Commit>, k: nat): nat
    requires k < |h|
  {
    if k == 0 then 0 else Updates(h, k - 1) + (if h[k].valid then 1 else 0)
  }

  /** Every commit carries the version the updates so far have led to. */
  ghost predicate TagsInOrder(s: State, v: nat) {
    && |s.history| > 0
    && (forall k | 0 <= k < |s.history| :: s.history[k].version == Tag(v, Updates(s.history, k)))
    && (var n := Updates(s.history, |s.history| - 1);
        s.version == if s.writer.Versioned? || s.writer.WrittenValid? then Tag(v, n + 1) else Tag(v, n))
  }

  lemma {:induction false} UpdatesKept(h: seq<Commit>, x: Commit, k: nat)
    requires k < |h|
    ensures Updates(h + [x], k) == Updates(h, k)
  {
    if k > 0 { UpdatesKept(h, x, k - 1); }
  }

  lemma EndKeepsTags(s: State, v: nat)
    requires TagsInOrder(s, v) && Inv(s) && Allowed(s, End)
    ensures TagsInOrder(Next(s, End), v)
  {
    hide Tag, ReaderOk, ReaderPast;
    var t, n := Next(s, End), |s.history|;
    var x := Commit(s.version, s.valid);
    assert t.history == s.history + [x];
    UpdatesKept(s.history, x, n - 1);
    forall k | 0 <= k < |t.history| ensures t.history[k].version == Tag(v, Updates(t.history, k)) {
      if k < n { UpdatesKept(s.history, x, k); }
    }
  }

  lemma NextKeepsTags(s: State, t: Step, v: nat)
    requires TagsInOrder(s, v) && Inv(s) && Allowed(s, t)
    ensures TagsInOrder(Next(s, t), v)
  {
    hide Inv, IncTag, Updates;
    if t.End? { EndKeepsTags(s, v); }
  }

  lemma {:induction false} RunKeepsTags(s: State, ts: seq<Step>, v: nat)
    requires TagsInOrder(s, v) && Inv(s) && Legal(s, ts)
    ensures TagsInOrder(Run(s, ts), v)
    decreases |ts|
  {
    hide Inv, Next, Allowed, TagsInOrder;
    if ts != [] {
      NextKeepsInv(s, ts[0]);
      NextKeepsTags(s, ts[0], v);
      RunKeepsTags(Next(s, ts[0]), ts[1..], v);
    }
  }

  lemma {:induction false} UpdatesGrow(h: seq<Commit>, i: nat, j: nat)
    requires 0 < i < j < |h| && h[i].valid && h[j].valid
    ensures 0 < Updates(h, i) < Updates(h, j)
  {
    if i + 1 < j {
      UpdatesUpTo(h, i, j - 1);
    }
  }

  lemma {:induction false} UpdatesUpTo(h: seq<Commit>, i: nat, j: nat)
    requires i <= j < |h|
    ensures Updates(h, i) <= Updates(h, j)
    decreases j - i
  {
    if i < j { UpdatesUpTo(h, i, j - 1); }
  }

  /** Over any run, two updates committed the same version if and only if the number of updates from
      one to the other is a multiple of 2^64 - 2: with fewer updates all versions are distinct. */
  lemma VersionsAreNew(s: State, ts: seq<Step>, i: nat, j: nat)
    requires Init(s) && s.version < 0x1_0000_0000_0000_0000 && Legal(s, ts)
    requires 0 < i < j < |Run(s, ts).history| && Run(s, ts).history[i].valid && Run(s, ts).history[j].valid
    ensures var h := Run(s, ts).history;
            && Updates(h, i) < Updates(h, j)
            && (h[i].version == h[j].version <==> (Updates(h, j) - Updates(h, i)) % 0xFFFF_FFFF_FFFF_FFFE == 0)
            && (Updates(h, |h| - 1) < 0xFFFF_FFFF_FFFF_FFFE ==> h[i].version != h[j].version)
  {
    hide Run, Legal, Inv, Tag, Updates, Rank;
    InitSatisfiesInv(s);
    InitTags(s);
    RunKeepsTags(s, ts, s.version);
    var h := Run(s, ts).history;
    UpdatesGrow(h, i, j);
    UpdatesUpTo(h, j, |h| - 1);
    var m, n := Updates(h, i), Updates(h, j);
    RankMoves(s.version, m, n);
    RankIsPlace(h[i].version, h[j].version);
    AroundTo(Rank(h[i].version), n - m);
  }

  lemma InitTags(s: State)
    requires Init(s)
    ensures TagsInOrder(s, s.version)
  {
  }

  lemma {:induction false} RunMore(s: State, ts: seq<Step>, t: Step)
    requires Legal(s, ts) && Allowed(Run(s, ts), t)
    ensures Legal(s, ts + [t]) && Run(s, ts + [t]) == Next(Run(s, ts), t)
    decreases |ts|
  {
    hide Next, Allowed;
    if ts == [] {
      assert [t][1..] == [] && ts + [t] == [t];
    } else {
      assert (ts + [t])[1..] == ts[1..] + [t];
      RunMore(Next(s, ts[0]), ts[1..], t);
    }
  }

  lemma {:induction false} RunSplit(s: State, ts: seq<Step>, at: nat)
    requires Legal(s, ts) && at <= |ts|
    ensures Legal(s, ts[..at]) && Legal(Run(s, ts[..at]), ts[at..]) && Run(s, ts) == Run(Run(s, ts[..at]), ts[at..])
    decreases |ts|
  {
    hide Next, Allowed;
    if at == 0 {
      assert ts[..0] == [] && ts[0..] == ts;
    } else {
      assert ts[..at][1..] == ts[1..][..at - 1] && ts[1..][at - 1..] == ts[at..];
      RunSplit(Next(s, ts[0]), ts[1..], at - 1);
    }
  }

  lemma CounterSteps(m: nat)
    ensures Counter(m + 1) == (Counter(m) + 1) % WORD32
  {
  }

  /** How many steps the write under way still takes. */
  function Remaining(w: Writer): nat {
    match w
    case Quiet => 0
    case Updating => 3
    case Versioned => 2
    case Invalidating => 2
    case _ => 1
  }

  lemma OddMeansWriting(s: State)
    requires Inv(s)
    ensures Counter(s.moves) % 2 == 0 <==> s.writer.Quiet?
  {
    EvenCounter(s.moves);
  }

  lemma CommittedEarlier(s: State, begin: nat, since: nat, x: Commit)
    requires CommittedSince(s, begin, x) && since <= begin
    ensures CommittedSince(s, since, x)
  {
    var k :| begin / 2 <= k < |s.history| && s.history[k].valid == x.valid && (x.valid ==> s.history[k].version == x.version);
    assert since / 2 <= k;
  }

  /** The channel's version fields, and where the writer is. */
  class ChannelVersion {
    var seqCount: nat       // 32 bits
    var version: nat
    var valid: bool
    var writer: Writer
    ghost const start: State
    ghost var s: State
    ghost var run: seq<Step>      // everything that has happened since the start

    ghost predicate Valid()
      reads this
    {
      && Init(start) && Legal(start, run) && s == Run(start, run) && Inv(s)
      && seqCount == Counter(s.moves) && version == s.version && valid == s.valid && writer == s.writer
    }

    constructor (v: nat)
      ensures Valid() && s == start && run == [] && writer.Quiet? && !valid && version == v
    {
      seqCount, version, valid, writer := 0, v, false, Quiet;
      start := State(0, v, false, Quiet, [Commit(v, false)], map[]);
      s, run := State(0, v, false, Quiet, [Commit(v, false)], map[]), [];
    }

    ghost method Take(t: Step)
      requires Legal(start, run) && s == Run(start, run) && Inv(s) && Allowed(s, t)
      modifies `s, `run
      ensures Legal(start, run) && s == Run(start, run) && Inv(s) && s == Next(old(s), t) && run == old(run) + [t]
    {
      hide Inv, Legal, Run;
      NextKeepsInv(s, t);
      RunMore(start, run, t);
      s, run := Next(s, t), run + [t];
    }

    /** One step of a writer. */
    method Write(t: Step)
      requires Valid() && Writes(t) && Allowed(s, t)
      modifies this
      ensures Valid() && s == Next(old(s), t) && run == old(run) + [t]
    {
      hide Inv, Legal, Run, Init;
      CounterSteps(s.moves);
      Take(t);
      match t {
        case BeginUpdate => seqCount, writer := (seqCount + 1) % WORD32, Updating;
        case WriteVersion => version, writer := IncTag(version), Versioned;
        case WriteValid => valid, writer := true, WrittenValid;
        case BeginInvalidate => seqCount, writer := (seqCount + 1) % WORD32, Invalidating;
        case WriteInvalid => valid, writer := false, WrittenInvalid;
        case End => seqCount, writer := (seqCount + 1) % WORD32, Quiet;
      }
    }

    /** nvmeibc_channel_version_update_nolock */
    method Update()
      requires Valid() && writer.Quiet?
      modifies this
      ensures Valid() && writer.Quiet? && valid && version == IncTag(old(version))
      ensures old(version) < 0x1_0000_0000_0000_0000 ==>
                version == if old(version) == 12 then 14
                           else if old(version) + 1 == 0x1_0000_0000_0000_0000 then 1
                           else old(version) + 1
      ensures run == old(run) + [BeginUpdate, WriteVersion, WriteValid, End]
      ensures s.history == old(s.history) + [Commit(version, true)] && s.moves == old(s.moves) + 2
    {
      hide Inv, Legal, Run, Init;
      Write(BeginUpdate);
      Write(WriteVersion);
      Write(WriteValid);
      Write(End);
    }

    /** nvmeibc_channel_version_invalidate_nolock */
    method Invalidate()
      requires Valid() && writer.Quiet?
      modifies this
      ensures Valid() && writer.Quiet? && !valid && version == old(version)
      ensures run == old(run) + [BeginInvalidate, WriteInvalid, End]
      ensures s.history == old(s.history) + [Commit(version, false)] && s.moves == old(s.moves) + 2
    {
      hide Inv, Legal, Run, Init;
      Write(BeginInvalidate);
      Write(WriteInvalid);
      Write(End);
    }

    method WriterGoesOn()
      requires Valid()
      modifies this
      ensures Valid() && s.readers == old(s.readers) && old(run) <= run
      ensures old(s.moves) <= s.moves <= old(s.moves) + 1
      ensures !old(writer).Quiet? ==> Remaining(writer) < Remaining(old(writer))
    {
      hide Inv, Legal, Run, Init;
      match writer {
        case Quiet => if * { Write(BeginUpdate); } else { Write(BeginInvalidate); }
        case Updating => Write(WriteVersion);
        case Versioned => Write(WriteValid);
        case Invalidating => Write(WriteInvalid);
        case _ => Write(End);
      }
    }

    /** What the writers do meanwhile: at most `budget` steps. */
    method Others(budget: nat) returns (left: nat)
      requires Valid()
      modifies this
      ensures Valid() && s.readers == old(s.readers) && old(run) <= run
      ensures left <= budget && old(s.moves) <= s.moves <= old(s.moves) + (budget - left)
      ensures left == budget ==> writer == old(writer)
    {
      hide Inv, Legal, Run, Init;
      left := budget;
      var stop: nat :| stop <= budget;
      while left > stop
        invariant stop <= left <= budget && Valid() && s.readers == old(s.readers) && old(run) <= run
        invariant old(s.moves) <= s.moves <= old(s.moves) + (budget - left)
        invariant left == budget ==> writer == old(writer)
      {
        WriterGoesOn();
        left := left - 1;
      }
    }

    /** read_seqcount_begin: reads the counter once no write is under way. */
    method ReadBegin(ghost r: nat, budget: nat) returns (cookie: nat, left: nat)
      requires Valid() && r !in s.readers
      modifies this
      ensures Valid() && old(run) <= run && left <= budget && old(s.moves) <= s.moves
      ensures s.readers == old(s.readers)[r := GotSeq(s.moves)] && cookie == Counter(s.moves)
    {
      hide Inv, Legal, Run, Init;
      left := budget;
      OddMeansWriting(s);
      while seqCount % 2 == 1
        invariant Valid() && s.readers == old(s.readers) && old(run) <= run && left <= budget && old(s.moves) <= s.moves
        invariant seqCount % 2 == 0 <==> writer.Quiet?
        decreases left, Remaining(writer)
      {
        WriterGoesOn();
        left := Others(left);
        OddMeansWriting(s);
      }
      cookie := seqCount;
      Take(ReadSeq(r));
    }

    /** The flag, and the version if it is set. */
    method ReadFields(ghost r: nat, budget: nat) returns (ok: bool, ver: nat, left: nat)
      requires Valid() && r in s.readers && s.readers[r].GotSeq?
      modifies this
      ensures Valid() && old(run) <= run && left <= budget
      ensures old(s.moves) <= s.moves <= old(s.moves) + (budget - left)
      ensures s.readers == old(s.readers)[r := if ok then GotVersion(old(s.readers[r].begin), ver)
                                               else GotValid(old(s.readers[r].begin), false)]
    {
      hide Inv, Legal, Run, Init;
      ver := 0;
      left := Others(budget);
      ok := valid;
      Take(ReadValid(r));
      if ok {
        left := Others(left);
        ver := version;
        Take(ReadVersion(r));
      }
    }

    /** read_seqcount_retry, and the end of the read if it says no. */
    method ReadRetry(ghost r: nat, cookie: nat) returns (again: bool)
      requires Valid() && r in s.readers && Ready(s.readers[r])
      requires cookie == Counter(s.readers[r].begin) && s.readers[r].begin <= s.moves
      modifies `s, `run
      ensures Valid() && old(run) <= run && s.readers == old(s.readers) - {r} && s.moves == old(s.moves)
      ensures again <==> Counter(s.moves) != cookie
      ensures !again ==> CommittedSince(s, old(s.readers[r].begin), old(Seen(s.readers[r])))
      ensures !again && s.moves - old(s.readers[r].begin) < WORD32 ==>
                var x := old(Seen(s.readers[r])); writer.Quiet? && x.valid == valid && (valid ==> x.version == version)
    {
      hide Inv, Legal, Run, Init, CommittedSince;
      again := seqCount != cookie;
      if again {
        Take(Again(r));
      } else {
        ReadWasCommitted(s, r);
        if s.moves - s.readers[r].begin < WORD32 { TrackedReadIsCurrent(s, r); }
        SameCommits(s, Next(s, Finish(r)), s.readers[r].begin, Seen(s.readers[r]));
        Take(Finish(r));
      }
    }

    /** One turn of the loop. */
    method ReadOnce(ghost r: nat, cookie: nat, budget: nat) returns (ok: bool, ver: nat, again: bool, left: nat)
      requires Valid() && r in s.readers && s.readers[r] == GotSeq(s.moves) && cookie == Counter(s.moves)
      modifies this
      ensures Valid() && old(run) <= run && left <= budget && s.readers == old(s.readers) - {r}
      ensures old(s.moves) <= s.moves && (again ==> left < budget)
      ensures !again ==> cookie == Counter(s.moves) && CommittedSince(s, old(s.moves), Commit(ver, ok))
      ensures !again && budget < WORD32 ==> writer.Quiet? && ok == valid && (ok ==> ver == version)
    {
      hide Inv, Legal, Run, Init, CommittedSince, Counter;
      ok, ver, left := ReadFields(r, budget);
      left := Others(left);
      ghost var x := s.readers[r];
      again := ReadRetry(r, cookie);
      if !again { SameCommit(s, old(s.moves), Seen(x), Commit(ver, ok)); }
    }

    /** nvmeibc_channel_version_get_tracked, whatever the writers do meanwhile: if they take finitely
        many steps, it returns, with something committed at one instant during the call; and with
        fewer than 2^32 steps, with what is there when it returns. */
    method GetTracked(ghost r: nat, budget: nat) returns (ok: bool, ver: nat, cookie: nat)
      requires Valid() && r !in s.readers
      modifies this
      ensures Valid() && old(run) <= run && s.readers == old(s.readers)
      ensures CommittedSince(s, old(s.moves), Commit(ver, ok)) && cookie == Counter(s.moves)
      ensures budget < 0x1_0000_0000 ==> writer.Quiet? && ok == valid && (ok ==> ver == version)
    {
      hide Inv, Legal, Run, Init, CommittedSince;
      var again := true;
      var left: nat := budget;
      ok, ver, cookie := false, 0, 0;
      while again
        invariant Valid() && old(run) <= run && s.readers == old(s.readers) && left <= budget && old(s.moves) <= s.moves
        invariant !again ==> CommittedSince(s, old(s.moves), Commit(ver, ok)) && cookie == Counter(s.moves)
        invariant !again && budget < WORD32 ==> writer.Quiet? && ok == valid && (ok ==> ver == version)
        decreases again, left
      {
        cookie, left := ReadBegin(r, left);
        ghost var begin := s.moves;
        ok, ver, again, left := ReadOnce(r, cookie, left);
        if !again { CommittedEarlier(s, begin, old(s.moves), Commit(ver, ok)); }
      }
    }

    /** nvmeibc_channel_version_tracked_changed of a cookie taken when `at` steps had been made and
        nobody was writing: with fewer than 2^32 counter moves since, it tells whether anybody has
        begun a write since. */
    method TrackedChanged(cookie: nat, ghost at: nat) returns (changed: bool)
      requires Valid() && at <= |run| && Legal(start, run[..at])
      requires Run(start, run[..at]).writer.Quiet? && cookie == Counter(Run(start, run[..at]).moves)
      ensures Run(start, run[..at]).moves <= s.moves
      ensures changed <==> (s.moves - Run(start, run[..at]).moves) % 0x1_0000_0000 != 0
      ensures s.moves - Run(start, run[..at]).moves < 0x1_0000_0000 ==>
                (changed <==> exists i | at <= i < |run| :: Writes(run[i]))
    {
      hide Inv, Legal, Run, Init;
      ghost var was := Run(start, run[..at]);
      RunSplit(start, run, at);
      MovesCountWrites(was, run[at..]);
      CookieIsExact(s, was.moves);
      changed := seqCount != cookie;
      assert forall i | 0 <= i < |run[at..]| :: run[at..][i] == run[at + i];
      assert forall i | at <= i < |run| :: run[i] == run[at..][i - at];
    }
  }

  lemma SameCommit(s: State, begin: nat, x: Commit, y: Commit)
    requires CommittedSince(s, begin, x) && x.valid == y.valid && (x.valid ==> x.version == y.version)
    ensures CommittedSince(s, begin, y)
  {
  }

  lemma SameCommits(s: State, t: State, begin: nat, x: Commit)
    requires CommittedSince(s, begin, x) && t.history == s.history
    ensures CommittedSince(t, begin, x)
  {
  }
}
