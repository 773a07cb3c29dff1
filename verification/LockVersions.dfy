/** What the 16-bit version of a slot buys. A completion names the slot and the version it was
    posted with; the version changes whenever the slot is retired. A completion that comes when
    the slot has been retired since can be taken for a later one only if the slot was retired a
    multiple of 65536 times. */
module LockVersions {
  import opened LockEntry
  import opened LockEngine
  import opened LockInvariant
  import opened LockRuns

  // ---------------------------------------------------------------- counting retirals

  /** How often a move retires slot i. */
  function MoveRetires(w: Work, m: Move, i: nat): nat
    requires CanMove(w, m)
  {
    if m.Retire? && w.out[0] == i then 1 else 0
  }

  function MovesRetire(w: Work, ms: seq<Move>, own: set<Req>, i: nat): nat
    requires CanMoveAll(w, ms, own)
    decreases |ms|
  {
    if ms == [] then 0 else MoveRetires(w, ms[0], i) + MovesRetire(Moved(w, ms[0], own), ms[1..], own, i)
  }

  ghost function EventRetires(s: Channel, e: Event, i: nat): nat
    requires Good(s) && Allowed(s, e)
  {
    match e
    case SubmitPosted(r, opr, compare, x) => MovesRetire(Rest(Enqueue(s, r, opr, compare)), x.Moves(), {r}, i)
    case Complete(wc, dying, x) =>
      if IgnoresWc(s, wc, dying) then 0
      else
        LiveWc(s, wc, dying);
        (if wc.idx == i then 1 else 0) + MovesRetire(Rest(Completed(s, wc)), x.Moves(), {}, i)
    case ProcessDeferred(x) => MovesRetire(Rest(s), x.Moves(), {}, i)
    case _ => 0
  }

  /** How often slot i is retired in a run. */
  ghost function Retirals(s: Channel, es: seq<Event>, i: nat): nat
    requires Good(s) && Legal(s, es)
    decreases |es|
  {
    if es == [] then 0
    else
      NextKeepsGood(s, es[0]);
      EventRetires(s, es[0], i) + Retirals(Next(s, es[0]), es[1..], i)
  }

  // ---------------------------------------------------------------- following a slot

  /** The slot still carries the posting x, in progress or aborted. */
  ghost predicate Held(x: Slot, s: Channel, i: nat)
    requires i < |s.slots|
  {
    || (i in s.inProgress && s.slots[i] == x)
    || (i in s.aborted && s.slots[i] == x.(aborted := true, state := Aborted))
  }

  /** Slot i was posted as x and has been retired n times since. */
  ghost predicate Since(x: Slot, s: Channel, i: nat, n: nat) {
    && i < |s.slots|
    && s.slots[i].version % VERSIONS == (x.version + n) % VERSIONS
    && (n == 0 ==> Held(x, s, i))
  }

  lemma NextVersion(v: nat, m: nat)
    requires v % VERSIONS == m % VERSIONS
    ensures ((v + 1) % VERSIONS) % VERSIONS == (m + 1) % VERSIONS
  {
    var a, b := v / VERSIONS, m / VERSIONS;
    assert v == VERSIONS * a + v % VERSIONS && m == VERSIONS * b + m % VERSIONS;
    SameAfter(a, v % VERSIONS + 1);
    SameAfter(b, m % VERSIONS + 1);
  }

  lemma SameAfter(k: int, r: nat)
    ensures (VERSIONS * k + r) % VERSIONS == r % VERSIONS
  {
  }

  lemma SinceExists(x: Slot, t: Channel, i: nat, n: nat)
    requires Since(x, t, i, n)
    ensures i < |t.slots|
  {
  }

  /** Lists that lose no slot, and a slot that is left alone. */
  lemma SinceKept(x: Slot, s: Channel, t: Channel, i: nat, n: nat)
    requires Since(x, s, i, n) && i < |t.slots| && t.slots[i] == s.slots[i]
    requires (i in s.inProgress ==> i in t.inProgress) && (i in s.aborted ==> i in t.aborted)
    ensures Since(x, t, i, n)
  {
  }

  /** A slot on the free list or the chain changes, but not its version. */
  lemma SinceLoose(x: Slot, s: Channel, t: Channel, i: nat, n: nat)
    requires Since(x, s, i, n) && i < |t.slots| && t.slots[i].version == s.slots[i].version
    requires i !in s.inProgress && i !in s.aborted
    ensures Since(x, t, i, n)
  {
  }

  lemma SinceRetired(x: Slot, s: Channel, t: Channel, i: nat, n: nat)
    requires Since(x, s, i, n) && i < |t.slots| && t.slots[i].version == (s.slots[i].version + 1) % VERSIONS
    ensures Since(x, t, i, n + 1)
  {
    NextVersion(s.slots[i].version, x.version + n);
  }

  lemma TakeFollows(w: Work, own: set<Req>, x: Slot, i: nat, n: nat)
    requires WorkApart(w) && CanMove(w, Take) && Since(x, w.ch, i, n)
    ensures Since(x, Moved(w, Take, own).ch, i, n)
  {
    assert w.ch.free[0] in w.ch.free;
    var t := Moved(w, Take, own).ch;
    if i == w.ch.free[0] { SinceLoose(x, w.ch, t, i, n); } else { SinceKept(x, w.ch, t, i, n); }
  }

  lemma ChainFollows(w: Work, m: Move, own: set<Req>, x: Slot, i: nat, n: nat)
    requires WorkApart(w) && CanMove(w, m) && (m.Post? || m.Reject?) && Since(x, w.ch, i, n)
    ensures Since(x, Moved(w, m, own).ch, i, n)
  {
    assert w.out[0] in w.out;
    var t := Moved(w, m, own).ch;
    if i == w.out[0] { SinceLoose(x, w.ch, t, i, n); } else { SinceKept(x, w.ch, t, i, n); }
  }

  lemma UndoFollows(w: Work, from: nat, own: set<Req>, x: Slot, i: nat, n: nat)
    requires WorkApart(w) && CanMove(w, Undo(from)) && Since(x, w.ch, i, n)
    ensures Since(x, Moved(w, Undo(from), own).ch, i, n)
  {
    var t := Moved(w, Undo(from), own).ch;
    if i in w.out[from..] {
      assert i in w.out;
      SinceLoose(x, w.ch, t, i, n);
    } else {
      SinceKept(x, w.ch, t, i, n);
    }
  }

  lemma RetireFollows(w: Work, own: set<Req>, x: Slot, i: nat, n: nat)
    requires WorkApart(w) && SlotsInv(w) && CanMove(w, Retire) && Since(x, w.ch, i, n)
    ensures Since(x, Moved(w, Retire, own).ch, i, n + if w.out[0] == i then 1 else 0)
  {
    assert w.out[0] in w.out;
    InListIs(w.ch.slots, w.out, KChain, w.out[0]);
    var t := Moved(w, Retire, own).ch;
    if i == w.out[0] { SinceRetired(x, w.ch, t, i, n); } else { SinceKept(x, w.ch, t, i, n); }
  }

  lemma MoveFollows(w: Work, m: Move, own: set<Req>, x: Slot, i: nat, n: nat)
    requires Inv(w) && CanMove(w, m) && Since(x, w.ch, i, n)
    ensures Since(x, Moved(w, m, own).ch, i, n + MoveRetires(w, m, i))
  {
    hide WorkApart, CanMove, Moved, Since, ListsInv, SlotsInv, AtomsInv, LedgerInv, QueueInv, CompsInv;
    InvIsApart(w);
    match m
    case Take => TakeFollows(w, own, x, i, n);
    case Post => ChainFollows(w, m, own, x, i, n);
    case Reject => ChainFollows(w, m, own, x, i, n);
    case Undo(from) => UndoFollows(w, from, own, x, i, n);
    case Retire => RetireFollows(w, own, x, i, n);
  }

  lemma {:induction false} MovesFollow(w: Work, ms: seq<Move>, own: set<Req>, x: Slot, i: nat, n: nat)
    requires Inv(w) && CanMoveAll(w, ms, own) && Since(x, w.ch, i, n)
    ensures Since(x, MovedAll(w, ms, own).ch, i, n + MovesRetire(w, ms, own, i))
    decreases |ms|
  {
    hide Inv, CanMove, Moved, Since, MoveRetires;
    if ms != [] {
      MoveFollows(w, ms[0], own, x, i, n);
      MoveKeepsInv(w, ms[0], own);
      MovesFollow(Moved(w, ms[0], own), ms[1..], own, x, i, n + MoveRetires(w, ms[0], i));
    }
  }

  lemma UnlinkKeeps(l: seq<nat>, k: nat, i: nat)
    requires i in l && i != k
    ensures i in Unlink(l, k)
  {
    if k in l { Cut(l, IndexOf(l, k)); }
  }

  /** A busy slot leaves the in-progress list, retired or aborted. */
  lemma DropFollows(s: Channel, t: Channel, k: nat, x: Slot, i: nat, n: nat)
    requires k < |s.slots| && |t.slots| == |s.slots| && Since(x, s, i, n) && i != k
    requires t.slots[i] == s.slots[i] && t.inProgress == Unlink(s.inProgress, k)
    requires forall j | j in s.aborted :: j in t.aborted
    ensures Since(x, t, i, n)
  {
    if i in s.inProgress { UnlinkKeeps(s.inProgress, k, i); }
    SinceKept(x, s, t, i, n);
  }

  lemma CompletedRetires(s: Channel, wc: Wc)
    requires wc.idx < |s.slots| && BusySlot(s.slots[wc.idx])
    requires ReqAt(s.slots[wc.idx]) in s.comps && s.comps[ReqAt(s.slots[wc.idx])].nmcs.Ok()
    ensures var t := Completed(s, wc);
            && |t.slots| == |s.slots| && (forall j | 0 <= j < |s.slots| && j != wc.idx :: t.slots[j] == s.slots[j])
            && t.slots[wc.idx].version == (s.slots[wc.idx].version + 1) % VERSIONS
            && t.inProgress == Unlink(s.inProgress, wc.idx) && t.aborted == s.aborted
  {
    hide Delivered, Resubmits, Unlink, ReqAt;
  }

  lemma CompletedFollows(s: Channel, wc: Wc, dying: bool, x: Slot, i: nat, n: nat)
    requires Good(s) && WcPossible(s, wc) && !IgnoresWc(s, wc, dying) && Since(x, s, i, n)
    ensures ReqAt(s.slots[wc.idx]) in s.comps && s.comps[ReqAt(s.slots[wc.idx])].nmcs.Ok()
    ensures Since(x, Completed(s, wc), i, n + if wc.idx == i then 1 else 0)
  {
    hide Inv, Completed, Since;
    SinceExists(x, s, i, n);
    LiveWc(s, wc, dying);
    CompletedRetires(s, wc);
    var t := Completed(s, wc);
    if wc.idx == i { SinceRetired(x, s, t, i, n); } else { DropFollows(s, t, wc.idx, x, i, n); }
  }

  lemma AbortedOneFollows(s: Channel, x: Slot, i: nat, n: nat)
    requires Good(s) && s.inProgress != [] && Since(x, s, i, n)
    requires s.inProgress[0] < |s.slots| && ReqAt(s.slots[s.inProgress[0]]) in s.comps
    ensures Since(x, AbortedOne(s), i, n)
  {
    var t := AbortedOne(s);
    var k := s.inProgress[0];
    assert k in s.inProgress;
    InListIs(s.slots, s.inProgress, KBusy, k);
    InvIsApart(Rest(s));
    hide Inv;
    if i == k {
      assert t.slots[i] == s.slots[i].(aborted := true, state := Aborted);
    } else {
      DropFollows(s, t, k, x, i, n);
    }
  }

  lemma {:induction false} AbortedAllFollows(s: Channel, x: Slot, i: nat, n: nat)
    requires Good(s) && Since(x, s, i, n)
    ensures Since(x, AbortedAll(s), i, n)
    decreases |s.inProgress|
  {
    hide Inv, Since, AbortedOne;
    if s.inProgress != [] {
      AbortedOneKeepsGood(s);
      AbortedOneFollows(s, x, i, n);
      AbortedAllFollows(AbortedOne(s), x, i, n);
    }
  }

  lemma SentFollows(s: Channel, y: Sending, own: set<Req>, x: Slot, i: nat, n: nat)
    requires Good(s) && CanSend(s, y, own) && Since(x, s, i, n)
    ensures Since(x, Sent(s, y, own), i, n + MovesRetire(Rest(s), y.Moves(), own, i))
  {
    hide Inv, CanMoveAll, MovedAll, MovesRetire, Since;
    MovesFollow(Rest(s), y.Moves(), own, x, i, n);
  }

  lemma SubmitFollows(s: Channel, r: Req, opr: Opr, compare: u32, y: Sending, x: Slot, i: nat, n: nat)
    requires Good(s) && Allowed(s, SubmitPosted(r, opr, compare, y)) && Since(x, s, i, n)
    ensures var e := SubmitPosted(r, opr, compare, y); Since(x, Next(s, e), i, n + EventRetires(s, e, i))
  {
    hide Inv, CanMoveAll, MovedAll, MovesRetire, Since;
    SinceExists(x, s, i, n);
    EnqueueKeepsGood(s, r, opr, compare);
    SinceKept(x, s, Enqueue(s, r, opr, compare), i, n);
    SentFollows(Enqueue(s, r, opr, compare), y, {r}, x, i, n);
  }

  lemma CompleteFollows(s: Channel, wc: Wc, dying: bool, y: Sending, x: Slot, i: nat, n: nat)
    requires Good(s) && Allowed(s, Complete(wc, dying, y)) && Since(x, s, i, n)
    ensures var e := Complete(wc, dying, y); Since(x, Next(s, e), i, n + EventRetires(s, e, i))
  {
    hide Inv, CanMoveAll, MovedAll, Completed, MovesRetire, Since;
    if !IgnoresWc(s, wc, dying) {
      CompletedKeepsGood(s, wc, dying);
      CompletedFollows(s, wc, dying, x, i, n);
      SentFollows(Completed(s, wc), y, {}, x, i, n + if wc.idx == i then 1 else 0);
    }
  }

  lemma EventFollows(s: Channel, e: Event, x: Slot, i: nat, n: nat)
    requires Good(s) && Allowed(s, e) && Since(x, s, i, n)
    ensures Since(x, Next(s, e), i, n + EventRetires(s, e, i))
  {
    hide Inv, CanMoveAll, MovedAll, Completed, AbortedAll, MovesRetire, Since, Enqueue;
    match e
    case SubmitPosted(r, opr, compare, y) => SubmitFollows(s, r, opr, compare, y, x, i, n);
    case Complete(wc, dying, y) => CompleteFollows(s, wc, dying, y, x, i, n);
    case ProcessDeferred(y) => SentFollows(s, y, {}, x, i, n);
    case AbortInProgress => AbortedAllFollows(s, x, i, n);
    case _ =>
      SinceExists(x, s, i, n);
      OthersLeaveSlots(s, e);
      SinceKept(x, s, Next(s, e), i, n);
  }

  lemma OthersLeaveSlots(s: Channel, e: Event)
    requires Good(s) && Allowed(s, e) && !e.SubmitPosted? && !e.Complete? && !e.ProcessDeferred? && !e.AbortInProgress?
    ensures Next(s, e).slots == s.slots && Next(s, e).inProgress == s.inProgress && Next(s, e).aborted == s.aborted
  {
    hide Inv;
  }

  lemma {:induction false} RunFollows(s: Channel, es: seq<Event>, x: Slot, i: nat, n: nat)
    requires Good(s) && Legal(s, es) && Since(x, s, i, n)
    ensures Since(x, Run(s, es), i, n + Retirals(s, es, i))
    decreases |es|
  {
    hide Inv, Allowed, Next, Since, EventRetires;
    if es != [] {
      EventFollows(s, es[0], x, i, n);
      NextKeepsGood(s, es[0]);
      RunFollows(Next(s, es[0]), es[1..], x, i, n + EventRetires(s, es[0], i));
    }
  }

  // ---------------------------------------------------------------- stale completions

  lemma WrapsAround(v: nat, n: nat)
    requires v < VERSIONS
    ensures (v + n) % VERSIONS == v <==> n % VERSIONS == 0
  {
    var q := n / VERSIONS;
    assert v + n == VERSIONS * q + (v + n % VERSIONS);
    SameAfter(q, v + n % VERSIONS);
  }

  /** Slot i is posted in state s and a completion of that posting comes after the run es. Its
      version matches exactly when the slot was retired a multiple of 65536 times. If it was not
      retired at all the slot still carries that posting; if it was retired some other number of
      times the completion is ignored. So a completion that is acted on, or that would lead to
      the poison value of a retired slot, belongs to the posting in progress, or comes after
      65536 retirals or a multiple of that. */
  lemma StaleIsIgnored(s: Channel, es: seq<Event>, wc: Wc, dying: bool)
    requires Good(s) && Legal(s, es) && wc.idx in s.inProgress && wc.idx < |s.slots|
    requires wc.version == s.slots[wc.idx].version
    ensures var i, t, n := wc.idx, Run(s, es), Retirals(s, es, wc.idx);
            && i < |t.slots|
            && (t.slots[i].version == wc.version <==> n % 65536 == 0)
            && (n == 0 ==> Held(s.slots[i], t, i) && WcPossible(t, wc)
                           && (!IgnoresWc(t, wc, dying) <==> i in t.inProgress && !dying))
            && (n % 65536 != 0 ==> WcPossible(t, wc) && IgnoresWc(t, wc, dying))
            && (!WcPossible(t, wc) ==> n > 0 && n % 65536 == 0)
  {
    hide *;
    var i, t, n := wc.idx, Run(s, es), Retirals(s, es, wc.idx);
    NoSlotLeftBehind(s, i);
    PostedIsHeld(s, i);
    RunFollows(s, es, s.slots[i], i, 0);
    RunKeepsGood(s, es);
    SinceExists(s.slots[i], t, i, n);
    NoSlotLeftBehind(t, i);
    Judged(s.slots[i], t, wc, dying, n);
  }

  lemma PostedIsHeld(s: Channel, i: nat)
    requires i in s.inProgress && i < |s.slots|
    ensures Since(s.slots[i], s, i, 0)
  {
  }

  /** A completion of the posting x, at a state t in which the slot was retired n times since. */
  lemma Judged(x: Slot, t: Channel, wc: Wc, dying: bool, n: nat)
    requires BusySlot(x) && wc.version == x.version && Since(x, t, wc.idx, n) && wc.idx < |t.slots|
    requires var y := t.slots[wc.idx];
             && (FreeSlot(y) || BusySlot(y) || DeadSlot(y))
             && (BusySlot(y) <==> wc.idx in t.inProgress) && (DeadSlot(y) <==> wc.idx in t.aborted)
    ensures t.slots[wc.idx].version == wc.version <==> n % 65536 == 0
    ensures n == 0 ==> Held(x, t, wc.idx) && WcPossible(t, wc)
                       && (!IgnoresWc(t, wc, dying) <==> wc.idx in t.inProgress && !dying)
    ensures n % 65536 != 0 ==> WcPossible(t, wc) && IgnoresWc(t, wc, dying)
    ensures !WcPossible(t, wc) ==> n > 0 && n % 65536 == 0
  {
    WrapsAround(x.version, n);
    assert t.slots[wc.idx].version < VERSIONS;
  }
}
