/** Why the engine invariant survives: every move of a send and every entry point of the lock
    channel is followed through the slot lists, the slots, the counters and the ledger. */
module LockInvariant {
  import opened LockEntry
  import opened LockEngine

  // ---------------------------------------------------------------- lists of slots

  /** The four lists have no slot in common or twice, and every slot is in one of them. */
  ghost predicate Apart(free: seq<nat>, busy: seq<nat>, dead: seq<nat>, out: seq<nat>) {
    && (forall i | i in out :: i !in free && i !in busy && i !in dead)
    && (forall i | i in free :: i !in busy && i !in dead && i !in out)
    && (forall i | i in dead :: i !in busy)
    && Distinct(free) && Distinct(busy) && Distinct(out)
  }

  lemma ListsApart(free: seq<nat>, busy: seq<nat>, dead: seq<nat>, out: seq<nat>, n: nat)
    requires multiset(free) + multiset(busy) + multiset(dead) + multiset(out) == AllSlots(n)
    ensures Apart(free, busy, dead, out)
    ensures forall i: nat | i < n :: i in free || i in busy || i in dead || i in out
  {
    var all := AllSlots(n);
    forall i: nat ensures all[i] == if i < n then 1 else 0 { AllSlotsOnce(n, i); }
    OnceIsDistinct(free, all);
    OnceIsDistinct(busy, all);
    OnceIsDistinct(out, all);
    forall i: nat
      ensures i in out ==> i !in free && i !in busy && i !in dead
      ensures i in free ==> i !in busy && i !in dead
      ensures i in dead ==> i !in busy
      ensures i < n ==> i in free || i in busy || i in dead || i in out
    {
      assert all[i] == multiset(free)[i] + multiset(busy)[i] + multiset(dead)[i] + multiset(out)[i];
      assert (i in multiset(free) <==> i in free) && (i in multiset(busy) <==> i in busy);
      assert (i in multiset(dead) <==> i in dead) && (i in multiset(out) <==> i in out);
    }
  }

  ghost predicate WorkApart(w: Work) { Apart(w.ch.free, w.ch.inProgress, w.ch.aborted, w.out) }

  lemma InvIsApart(w: Work)
    requires ListsInv(w)
    ensures WorkApart(w)
    ensures forall i: nat | i < |w.ch.slots| :: i in w.ch.free || i in w.ch.inProgress || i in w.ch.aborted || i in w.out
  {
    ListsApart(w.ch.free, w.ch.inProgress, w.ch.aborted, w.out, |w.ch.slots|);
  }

  /** Changing a slot outside a list changes nothing that is computed from the list. */
  lemma Untouched(slots: seq<Slot>, i: nat, x: Slot, l: seq<nat>, k: Kind)
    requires i < |slots| && i !in l && All(slots, l, k)
    ensures All(slots[i := x], l, k)
    ensures ReqsOf(slots[i := x], l) == ReqsOf(slots, l)
    ensures SlotBits(slots[i := x], l) == SlotBits(slots, l)
  {
  }

  lemma AllAppend(slots: seq<Slot>, a: seq<nat>, b: seq<nat>, k: Kind)
    requires All(slots, a, k) && All(slots, b, k)
    ensures All(slots, a + b, k)
  {
  }

  /** The first slot of a list is not in the rest. */
  lemma HeadIsApart(slots: seq<Slot>, l: seq<nat>, k: Kind)
    requires l != [] && Distinct(l) && All(slots, l, k)
    ensures l[0] !in l[1..] && l[0] in l && Is(slots[l[0]], k)
    ensures All(slots, l[1..], k)
    ensures forall i | i in l[1..] :: i in l
  {
    assert forall j | 0 <= j < |l[1..]| :: l[1..][j] == l[j + 1];
  }

  // ---------------------------------------------------------------- the moves of a send

  lemma HeadTail<T>(l: seq<T>)
    requires l != []
    ensures l == [l[0]] + l[1..]
    ensures multiset(l) == multiset{l[0]} + multiset(l[1..])
  {
    assert l == [l[0]] + l[1..];
  }

  lemma HeadLeaves(rs: seq<Req>, d: seq<Req>, busy: seq<Req>)
    requires rs != []
    ensures (rs + d)[1..] == rs[1..] + d
    ensures multiset(d) + multiset(rs) + multiset(busy) == multiset(d) + multiset(rs[1..]) + multiset(busy) + multiset{rs[0]}
    ensures multiset(d) + multiset(rs) + multiset(busy) == multiset(d) + multiset(rs[1..]) + multiset(busy + [rs[0]])
  {
    HeadTail(rs);
  }

  ghost predicate SameTimes(comps: map<Req, Comp>, comps': map<Req, Comp>) {
    comps'.Keys == comps.Keys && forall r | r in comps :: comps'[r].deferredAt == comps[r].deferredAt
  }

  lemma QueueKept(w: Work, w': Work, d: nat)
    requires Listed(w) && Listed(w') && QueueInv(w) && d <= |Line(w)|
    requires Line(w') == Line(w)[d..] && SameTimes(w.ch.comps, w'.ch.comps) && w'.ch.now == w.ch.now
    ensures QueueInv(w')
  {
    assert Times(w'.ch.comps, Line(w')) == Times(w.ch.comps, Line(w))[d..];
  }

  lemma AccountsKept(w: Work, w': Work)
    requires Listed(w) && Listed(w') && LedgerInv(w) && CompsInv(w)
    requires Queued(w') == Queued(w) && w'.ch.awaiting == w.ch.awaiting
    requires w'.ch.comps == w.ch.comps && w'.ch.accepted == w.ch.accepted && w'.ch.called == w.ch.called
    ensures LedgerInv(w') && CompsInv(w')
  {
  }

  // Each move is shown to keep the lists, the slots (with what it does to the requests named
  // by the lists), and the requests in line.

  lemma TakeKeepsLists(w: Work, own: set<Req>)
    requires ListsInv(w) && CanMove(w, Take)
    ensures ListsInv(Moved(w, Take, own))
  {
    HeadTail(w.ch.free);
  }

  ghost predicate SameBusy(w: Work, w': Work)
    requires Listed(w)
  {
    && Listed(w') && w'.ch.inProgress == w.ch.inProgress
    && ReqsOf(w'.ch.slots, w'.ch.inProgress) == ReqsOf(w.ch.slots, w.ch.inProgress)
    && SlotBits(w'.ch.slots, w'.ch.inProgress) == SlotBits(w.ch.slots, w.ch.inProgress)
  }

  lemma TakeKeepsSlots(w: Work, own: set<Req>)
    requires SlotsInv(w) && CanMove(w, Take) && Distinct(w.ch.free)
    requires forall i | i in w.ch.free :: i !in w.ch.inProgress && i !in w.ch.aborted && i !in w.out
    ensures SlotsInv(Moved(w, Take, own)) && SameBusy(w, Moved(w, Take, own))
    ensures ReqsOf(Moved(w, Take, own).ch.slots, Moved(w, Take, own).out) == ReqsOf(w.ch.slots, w.out) + [w.ch.deferred[0]]
  {
    var s := w.ch;
    var i, x := s.free[0], PreparedSlot(s, s.free[0], s.deferred[0]);
    HeadIsApart(s.slots, s.free, KFree);
    Untouched(s.slots, i, x, s.free[1..], KFree);
    Untouched(s.slots, i, x, s.inProgress, KBusy);
    Untouched(s.slots, i, x, s.aborted, KDead);
    Untouched(s.slots, i, x, w.out, KChain);
  }

  lemma TakeKeepsLine(w: Work, w': Work)
    requires Listed(w) && SameBusy(w, w') && w.ch.deferred != [] && w'.ch.deferred == w.ch.deferred[1..]
    requires ReqsOf(w'.ch.slots, w'.out) == ReqsOf(w.ch.slots, w.out) + [w.ch.deferred[0]]
    ensures Line(w') == Line(w) && Queued(w') == Queued(w)
  {
    var rs, d := ReqsOf(w.ch.slots, w.out), w.ch.deferred;
    HeadTail(d);
    assert (rs + [d[0]]) + d[1..] == rs + d;
    assert multiset(rs + [d[0]]) == multiset(rs) + multiset{d[0]};
  }

  lemma TakeKeepsInv(w: Work, own: set<Req>)
    requires Inv(w) && CanMove(w, Take)
    ensures Inv(Moved(w, Take, own))
  {
    TakeKeepsLists(w, own);
    InvIsApart(w);
    TakeKeepsSlots(w, own);
    TakeKeepsLine(w, Moved(w, Take, own));
    QueueKept(w, Moved(w, Take, own), 0);
    AccountsKept(w, Moved(w, Take, own));
  }

  lemma PostKeepsLists(w: Work, own: set<Req>)
    requires ListsInv(w) && CanMove(w, Post)
    ensures ListsInv(Moved(w, Post, own))
  {
    HeadTail(w.out);
  }

  ghost predicate OneStarted(w: Work, w': Work)
    requires Listed(w) && w.out != []
  {
    && Listed(w')
    && ReqsOf(w'.ch.slots, w'.out) == ReqsOf(w.ch.slots, w.out)[1..]
    && ReqsOf(w'.ch.slots, w'.ch.inProgress) == ReqsOf(w.ch.slots, w.ch.inProgress) + [ReqsOf(w.ch.slots, w.out)[0]]
    && SlotBits(w'.ch.slots, w'.ch.inProgress)
       == SlotBits(w.ch.slots, w.ch.inProgress) + [w.ch.slots[w.out[0]].opcode.AtomOrRead()]
  }

  lemma PostKeepsSlots(w: Work, own: set<Req>)
    requires SlotsInv(w) && CanMove(w, Post)
    requires Distinct(w.out) && forall i | i in w.out :: i !in w.ch.free && i !in w.ch.inProgress && i !in w.ch.aborted
    ensures SlotsInv(Moved(w, Post, own)) && OneStarted(w, Moved(w, Post, own))
  {
    var s, i := w.ch, w.out[0];
    var x := s.slots[i].(state := InProgress);
    HeadIsApart(s.slots, w.out, KChain);
    Untouched(s.slots, i, x, s.free, KFree);
    Untouched(s.slots, i, x, s.inProgress, KBusy);
    Untouched(s.slots, i, x, s.aborted, KDead);
    Untouched(s.slots, i, x, w.out[1..], KChain);
  }

  lemma PostKeepsLine(w: Work, w': Work)
    requires Listed(w) && w.out != [] && OneStarted(w, w') && w'.ch.deferred == w.ch.deferred
    ensures Line(w') == Line(w)[1..] && Queued(w') == Queued(w)
  {
    HeadLeaves(ReqsOf(w.ch.slots, w.out), w.ch.deferred, ReqsOf(w.ch.slots, w.ch.inProgress));
  }

  lemma PostKeepsAtoms(w: Work, w': Work)
    requires Listed(w) && w.out != [] && OneStarted(w, w') && AtomsInv(w) && |w'.out| == |w.out| - 1
    requires w'.ch.cfg == w.ch.cfg
    requires w'.ch.numAtomRead == w.ch.numAtomRead + (if w.ch.slots[w.out[0]].opcode.AtomOrRead() then 1 else 0)
    ensures AtomsInv(w')
  {
    OnesAppend(SlotBits(w.ch.slots, w.ch.inProgress), [w.ch.slots[w.out[0]].opcode.AtomOrRead()]);
  }

  lemma PostKeepsInv(w: Work, own: set<Req>)
    requires Inv(w) && CanMove(w, Post)
    ensures Inv(Moved(w, Post, own))
  {
    PostKeepsLists(w, own);
    InvIsApart(w);
    PostKeepsSlots(w, own);
    PostKeepsAtoms(w, Moved(w, Post, own));
    PostKeepsLine(w, Moved(w, Post, own));
    QueueKept(w, Moved(w, Post, own), 1);
    AccountsKept(w, Moved(w, Post, own));
  }

  lemma RejectKeepsSlots(w: Work, own: set<Req>)
    requires SlotsInv(w) && CanMove(w, Reject)
    requires Distinct(w.out) && forall i | i in w.out :: i !in w.ch.free && i !in w.ch.inProgress && i !in w.ch.aborted
    ensures SlotsInv(Moved(w, Reject, own)) && SameBusy(w, Moved(w, Reject, own))
    ensures ReqsOf(Moved(w, Reject, own).ch.slots, w.out) == ReqsOf(w.ch.slots, w.out)
  {
    var s, i := w.ch, w.out[0];
    var x := s.slots[i].(state := Error);
    HeadIsApart(s.slots, w.out, KChain);
    Untouched(s.slots, i, x, s.free, KFree);
    Untouched(s.slots, i, x, s.inProgress, KBusy);
    Untouched(s.slots, i, x, s.aborted, KDead);
  }

  lemma RejectKeepsInv(w: Work, own: set<Req>)
    requires Inv(w) && CanMove(w, Reject)
    ensures Inv(Moved(w, Reject, own))
  {
    InvIsApart(w);
    RejectKeepsSlots(w, own);
    QueueKept(w, Moved(w, Reject, own), 0);
    AccountsKept(w, Moved(w, Reject, own));
  }

  lemma UndoKeepsLists(w: Work, from: nat, own: set<Req>)
    requires ListsInv(w) && CanMove(w, Undo(from))
    ensures ListsInv(Moved(w, Undo(from), own))
  {
    Split(w.out, from);
  }

  lemma BackElsewhere(slots: seq<Slot>, back: seq<nat>, l: seq<nat>, k: Kind)
    requires All(slots, l, k) && forall i | i in l :: i !in back
    ensures All(BackSlots(slots, back), l, k)
    ensures ReqsOf(BackSlots(slots, back), l) == ReqsOf(slots, l)
    ensures SlotBits(BackSlots(slots, back), l) == SlotBits(slots, l)
  {
    forall j | 0 <= j < |l| ensures l[j] < |slots| && BackSlots(slots, back)[l[j]] == slots[l[j]] {
      assert l[j] in l;
    }
  }

  lemma BackIsFree(slots: seq<Slot>, back: seq<nat>)
    requires All(slots, back, KChain)
    ensures All(BackSlots(slots, back), back, KFree)
  {
  }

  lemma CutIsApart(slots: seq<Slot>, l: seq<nat>, from: nat)
    requires Distinct(l) && from <= |l| && All(slots, l, KChain)
    ensures forall i | i in l[..from] :: i !in l[from..]
    ensures forall i | i in l[from..] :: i in l
    ensures All(slots, l[..from], KChain) && All(slots, l[from..], KChain)
  {
    forall a, b | 0 <= a < from && 0 <= b < |l[from..]| ensures l[..from][a] != l[from..][b] {
      assert l[from..][b] == l[from + b];
    }
  }

  lemma UndoKeepsSlots(w: Work, from: nat, own: set<Req>)
    requires SlotsInv(w) && CanMove(w, Undo(from)) && Distinct(w.out)
    requires forall i | i in w.out :: i !in w.ch.free && i !in w.ch.inProgress && i !in w.ch.aborted
    ensures SlotsInv(Moved(w, Undo(from), own)) && SameBusy(w, Moved(w, Undo(from), own))
    ensures ReqsOf(Moved(w, Undo(from), own).ch.slots, w.out[..from]) == ReqsOf(w.ch.slots, w.out[..from])
  {
    var s, keep, back := w.ch, w.out[..from], w.out[from..];
    CutIsApart(s.slots, w.out, from);
    BackElsewhere(s.slots, back, s.free, KFree);
    BackElsewhere(s.slots, back, s.inProgress, KBusy);
    BackElsewhere(s.slots, back, s.aborted, KDead);
    BackElsewhere(s.slots, back, keep, KChain);
    BackIsFree(s.slots, back);
    AllAppend(BackSlots(s.slots, back), s.free, back, KFree);
  }

  lemma UndoKeepsLine(w: Work, w': Work, from: nat)
    requires Listed(w) && from <= |w.out| && SameBusy(w, w') && w'.out == w.out[..from]
    requires InRange(w.out[from..], |w.ch.slots|) && InRange(w.out[..from], |w.ch.slots|)
    requires ReqsOf(w'.ch.slots, w'.out) == ReqsOf(w.ch.slots, w.out[..from])
    requires w'.ch.deferred == ReqsOf(w.ch.slots, w.out[from..]) + w.ch.deferred
    ensures Line(w') == Line(w) && Queued(w') == Queued(w)
  {
    var rs, d := ReqsOf(w.ch.slots, w.out), w.ch.deferred;
    assert ReqsOf(w.ch.slots, w.out[..from]) == rs[..from] && ReqsOf(w.ch.slots, w.out[from..]) == rs[from..];
    Split(rs, from);
    assert rs[..from] + (rs[from..] + d) == (rs[..from] + rs[from..]) + d;
  }

  lemma UndoKeepsInv(w: Work, from: nat, own: set<Req>)
    requires Inv(w) && CanMove(w, Undo(from))
    ensures Inv(Moved(w, Undo(from), own))
  {
    hide ListsInv, LedgerInv, QueueInv, CompsInv;
    UndoKeepsLists(w, from, own);
    InvIsApart(w);
    UndoKeepsSlots(w, from, own);
    UndoKeepsLine(w, Moved(w, Undo(from), own), from);
    QueueKept(w, Moved(w, Undo(from), own), 0);
    AccountsKept(w, Moved(w, Undo(from), own));
  }

  /** The first slot of the chain becomes the free slot x. */
  ghost predicate Retires(w: Work, w': Work, x: Slot) {
    && w.out != [] && w.out[0] < |w.ch.slots| && w'.out == w.out[1..]
    && FreeSlot(x) && w'.ch.slots == w.ch.slots[w.out[0] := x]
    && w'.ch.free == w.ch.free + [w.out[0]] && w'.ch.numFree == w.ch.numFree + 1
    && w'.ch.inProgress == w.ch.inProgress && w'.ch.numInProgress == w.ch.numInProgress
    && w'.ch.aborted == w.ch.aborted && w'.ch.numAborted == w.ch.numAborted
    && w'.ch.deferred == w.ch.deferred && w'.ch.numDeferred == w.ch.numDeferred
    && w'.ch.numAtomRead == w.ch.numAtomRead && w'.ch.cfg == w.ch.cfg
    && SameTimes(w.ch.comps, w'.ch.comps) && w'.ch.now == w.ch.now && w'.ch.awaiting == w.ch.awaiting
  }

  /** The request r leaves the channel: its submitter is told, or its callback is made. */
  ghost predicate Settles(s: Channel, t: Channel, r: Req, own: set<Req>) {
    && t.awaiting == s.awaiting && r in s.comps && t.comps.Keys == s.comps.Keys
    && (forall x | x in s.comps :: t.comps[x].nmcs == s.comps[x].nmcs && (x != r ==> t.comps[x] == s.comps[x]))
    && t.accepted == (if r in own then s.accepted - multiset{r} else s.accepted)
    && t.called == (if r in own then s.called else s.called + multiset{r})
  }

  lemma RetireRetires(w: Work, own: set<Req>)
    requires CanMove(w, Retire) && ChainSlot(w.ch.slots[w.out[0]])
    ensures Retires(w, Moved(w, Retire, own), Moved(w, Retire, own).ch.slots[w.out[0]])
    ensures Settles(w.ch, Moved(w, Retire, own).ch, ReqAt(w.ch.slots[w.out[0]]), own)
  {
  }

  lemma RetireKeepsLists(w: Work, w': Work, x: Slot)
    requires ListsInv(w) && Retires(w, w', x)
    ensures ListsInv(w')
  {
    HeadTail(w.out);
  }

  lemma RetireKeepsSlots(w: Work, w': Work, x: Slot)
    requires SlotsInv(w) && Retires(w, w', x)
    requires Distinct(w.out) && forall i | i in w.out :: i !in w.ch.free && i !in w.ch.inProgress && i !in w.ch.aborted
    ensures SlotsInv(w') && SameBusy(w, w')
    ensures ReqsOf(w'.ch.slots, w'.out) == ReqsOf(w.ch.slots, w.out)[1..]
  {
    var s, i := w.ch, w.out[0];
    HeadIsApart(s.slots, w.out, KChain);
    Untouched(s.slots, i, x, s.free, KFree);
    Untouched(s.slots, i, x, s.inProgress, KBusy);
    Untouched(s.slots, i, x, s.aborted, KDead);
    Untouched(s.slots, i, x, w.out[1..], KChain);
  }

  lemma RetireKeepsLine(w: Work, w': Work)
    requires Listed(w) && w.out != [] && SameBusy(w, w') && w'.ch.deferred == w.ch.deferred
    requires ReqsOf(w'.ch.slots, w'.out) == ReqsOf(w.ch.slots, w.out)[1..]
    ensures Line(w') == Line(w)[1..]
    ensures Queued(w) == Queued(w') + multiset{ReqAt(w.ch.slots[w.out[0]])}
  {
    HeadLeaves(ReqsOf(w.ch.slots, w.out), w.ch.deferred, ReqsOf(w.ch.slots, w.ch.inProgress));
  }

  lemma Balance(accepted: multiset<Req>, called: multiset<Req>, q: multiset<Req>, q': multiset<Req>,
                a: multiset<Req>, keys: multiset<Req>, r: Req)
    requires q == q' + multiset{r} && accepted == called + (q + a) && q + a <= keys
    ensures accepted - multiset{r} == called + (q' + a)
    ensures accepted == (called + multiset{r}) + (q' + a)
    ensures q' + a <= keys
    ensures forall x | x in q' :: x in q
  {
    assert q + a == (q' + a) + multiset{r};
  }

  lemma SettleKeepsAccounts(w: Work, w': Work, r: Req, own: set<Req>)
    requires Listed(w) && Listed(w') && LedgerInv(w) && CompsInv(w)
    requires Queued(w) == Queued(w') + multiset{r} && Settles(w.ch, w'.ch, r, own)
    ensures LedgerInv(w') && CompsInv(w')
  {
    hide Queued;
    var q, a := Queued(w'), multiset(w.ch.awaiting);
    OnceOnly(q, a, w.ch.comps.Keys, r);
    Balance(w.ch.accepted, w.ch.called, Queued(w), q, a, multiset(w.ch.comps.Keys), r);
  }

  lemma RetireKeepsInv(w: Work, own: set<Req>)
    requires Inv(w) && CanMove(w, Retire)
    ensures Inv(Moved(w, Retire, own))
  {
    hide ListsInv, AtomsInv, LedgerInv, QueueInv, CompsInv, Queued, Moved, Retires, Settles;
    var w' := Moved(w, Retire, own);
    InListIs(w.ch.slots, w.out, KChain, w.out[0]);
    RetireRetires(w, own);
    RetireKeepsEngine(w, w', w'.ch.slots[w.out[0]]);
    SettleKeepsAccounts(w, w', ReqAt(w.ch.slots[w.out[0]]), own);
  }

  lemma RetireKeepsEngine(w: Work, w': Work, x: Slot)
    requires ListsInv(w) && SlotsInv(w) && AtomsInv(w) && QueueInv(w) && Retires(w, w', x)
    ensures ListsInv(w') && SlotsInv(w') && AtomsInv(w') && QueueInv(w')
    ensures Queued(w) == Queued(w') + multiset{ReqAt(w.ch.slots[w.out[0]])}
  {
    InvIsApart(w);
    RetireKeepsSlots(w, w', x);
    RetireKeepsLists(w, w', x);
    RetireKeepsLine(w, w');
    QueueKept(w, w', 1);
  }

  lemma MoveKeepsInv(w: Work, m: Move, own: set<Req>)
    requires Inv(w) && CanMove(w, m)
    ensures Inv(Moved(w, m, own))
  {
    match m
    case Take => TakeKeepsInv(w, own);
    case Post => PostKeepsInv(w, own);
    case Reject => RejectKeepsInv(w, own);
    case Undo(from) => UndoKeepsInv(w, from, own);
    case Retire => RetireKeepsInv(w, own);
  }

  lemma {:induction false} MovesKeepInv(w: Work, ms: seq<Move>, own: set<Req>)
    requires Inv(w) && CanMoveAll(w, ms, own)
    ensures Inv(MovedAll(w, ms, own))
    decreases |ms|
  {
    if ms != [] {
      MoveKeepsInv(w, ms[0], own);
      MovesKeepInv(Moved(w, ms[0], own), ms[1..], own);
    }
  }

  // ---------------------------------------------------------------- freeing a busy slot

  function Rest(s: Channel): Work { Work(s, []) }

  /** The spinlock is free and the invariant holds. */
  ghost predicate Good(s: Channel) { Inv(Rest(s)) }

  lemma UnlinkSeq(l: seq<nat>, i: nat)
    requires Distinct(l) && i in l
    ensures |Unlink(l, i)| == |l| - 1
    ensures multiset(l) == multiset(Unlink(l, i)) + multiset{i}
    ensures i !in Unlink(l, i)
  {
    Cut(l, IndexOf(l, i));
  }

  lemma CutReqs(slots: seq<Slot>, l: seq<nat>, k: nat)
    requires k < |l| && InRange(l, |slots|)
    ensures var m := l[..k] + l[k + 1..];
            && InRange(m, |slots|)
            && ReqsOf(slots, m) == ReqsOf(slots, l)[..k] + ReqsOf(slots, l)[k + 1..]
            && SlotBits(slots, m) == SlotBits(slots, l)[..k] + SlotBits(slots, l)[k + 1..]
  {
    var m := l[..k] + l[k + 1..];
    assert forall j | 0 <= j < |m| :: m[j] == l[if j < k then j else j + 1];
  }

  lemma UnlinkReqs(slots: seq<Slot>, l: seq<nat>, i: nat)
    requires i in l && InRange(l, |slots|)
    ensures InRange(Unlink(l, i), |slots|)
    ensures multiset(ReqsOf(slots, l)) == multiset(ReqsOf(slots, Unlink(l, i))) + multiset{ReqAt(slots[i])}
  {
    hide SlotBits;
    CutReqs(slots, l, IndexOf(l, i));
    Cut(ReqsOf(slots, l), IndexOf(l, i));
  }

  lemma {:induction false} OnesCut(bits: seq<bool>, k: nat)
    requires k < |bits|
    ensures Ones(bits) == Ones(bits[..k] + bits[k + 1..]) + (if bits[k] then 1 else 0)
  {
    var n, m := |bits| - 1, bits[..k] + bits[k + 1..];
    if k == n {
      assert m == bits[..n];
    } else {
      OnesCut(bits[..n], k);
      assert m[..n - 1] == bits[..n][..k] + bits[..n][k + 1..] && m[n - 1] == bits[n];
    }
  }

  lemma UnlinkBits(slots: seq<Slot>, l: seq<nat>, i: nat)
    requires i in l && InRange(l, |slots|)
    ensures InRange(Unlink(l, i), |slots|)
    ensures Ones(SlotBits(slots, l)) == Ones(SlotBits(slots, Unlink(l, i))) + (if slots[i].opcode.AtomOrRead() then 1 else 0)
  {
    hide ReqsOf;
    CutReqs(slots, l, IndexOf(l, i));
    OnesCut(SlotBits(slots, l), IndexOf(l, i));
  }

  /** A busy slot i leaves the in-progress list and becomes x; its request is in nobody's hands. */
  ghost predicate Dropped(s: Channel, t: Channel, i: nat, x: Slot)
    requires i < |s.slots|
  {
    && t.slots == s.slots[i := x] && t.inProgress == Unlink(s.inProgress, i)
    && t.numInProgress == s.numInProgress - 1
    && t.numAtomRead == s.numAtomRead - (if s.slots[i].opcode.AtomOrRead() then 1 else 0)
    && t.cfg == s.cfg && t.deferred == s.deferred && t.numDeferred == s.numDeferred
    && (if x.aborted then
          && DeadSlot(x) && t.aborted == s.aborted + [i] && t.numAborted == s.numAborted + 1
          && t.free == s.free && t.numFree == s.numFree
        else
          && FreeSlot(x) && t.free == s.free + [i] && t.numFree == s.numFree + 1
          && t.aborted == s.aborted && t.numAborted == s.numAborted)
  }

  lemma DropKeepsLists(s: Channel, t: Channel, i: nat, x: Slot)
    requires ListsInv(Rest(s)) && Distinct(s.inProgress) && i in s.inProgress && i < |s.slots| && Dropped(s, t, i, x)
    ensures ListsInv(Rest(t))
  {
    UnlinkSeq(s.inProgress, i);
  }

  lemma DropKeepsSlots(s: Channel, t: Channel, i: nat, x: Slot)
    requires SlotsInv(Rest(s)) && Distinct(s.inProgress) && i in s.inProgress && i < |s.slots| && Dropped(s, t, i, x)
    requires i !in s.free && i !in s.aborted
    ensures SlotsInv(Rest(t))
    ensures ReqsOf(t.slots, t.inProgress) == ReqsOf(s.slots, t.inProgress)
    ensures SlotBits(t.slots, t.inProgress) == SlotBits(s.slots, t.inProgress)
  {
    UnlinkSeq(s.inProgress, i);
    assert All(s.slots, Unlink(s.inProgress, i), KBusy);
    Untouched(s.slots, i, x, s.free, KFree);
    Untouched(s.slots, i, x, Unlink(s.inProgress, i), KBusy);
    Untouched(s.slots, i, x, s.aborted, KDead);
  }

  lemma DropKeepsAtoms(s: Channel, t: Channel, i: nat, x: Slot)
    requires Listed(Rest(s)) && Listed(Rest(t)) && AtomsInv(Rest(s)) && i in s.inProgress && Dropped(s, t, i, x)
    requires InRange(t.inProgress, |s.slots|) && SlotBits(t.slots, t.inProgress) == SlotBits(s.slots, t.inProgress)
    ensures AtomsInv(Rest(t))
  {
    UnlinkBits(s.slots, s.inProgress, i);
  }

  lemma DropKeepsQueued(s: Channel, t: Channel, i: nat, x: Slot)
    requires Listed(Rest(s)) && Listed(Rest(t)) && i in s.inProgress && i < |s.slots| && Dropped(s, t, i, x)
    requires InRange(t.inProgress, |s.slots|) && ReqsOf(t.slots, t.inProgress) == ReqsOf(s.slots, t.inProgress)
    ensures Queued(Rest(s)) == Queued(Rest(t)) + multiset{ReqAt(s.slots[i])}
    ensures Line(Rest(t)) == Line(Rest(s))
  {
    UnlinkReqs(s.slots, s.inProgress, i);
  }

  /** The engine half of the invariant, without the requests. */
  ghost predicate Engine(s: Channel) { ListsInv(Rest(s)) && SlotsInv(Rest(s)) && AtomsInv(Rest(s)) }

  lemma DropKeepsEngine(s: Channel, t: Channel, i: nat, x: Slot)
    requires Engine(s) && i in s.inProgress && i < |s.slots| && Dropped(s, t, i, x)
    ensures Engine(t)
    ensures Queued(Rest(s)) == Queued(Rest(t)) + multiset{ReqAt(s.slots[i])}
    ensures Line(Rest(t)) == Line(Rest(s))
  {
    InvIsApart(Rest(s));
    DropKeepsLists(s, t, i, x);
    DropKeepsSlots(s, t, i, x);
    DropKeepsAtoms(s, t, i, x);
    DropKeepsQueued(s, t, i, x);
  }

  // ---------------------------------------------------------------- entry points keep the invariant

  lemma JoinKeys(m: multiset<Req>, keys: set<Req>, r: Req)
    requires m <= multiset(keys) && r !in m
    ensures m + multiset{r} <= multiset(keys + {r})
  {
  }

  /** t is s with one request added at the tail of the queue. */
  ghost predicate Appended(s: Channel, t: Channel, r: Req, c: Comp) {
    && t.cfg == s.cfg && t.slots == s.slots && t.inProgress == s.inProgress && t.free == s.free && t.aborted == s.aborted
    && t.numInProgress == s.numInProgress && t.numFree == s.numFree && t.numAborted == s.numAborted
    && t.numAtomRead == s.numAtomRead && t.now == s.now
    && t.deferred == s.deferred + [r] && t.numDeferred == s.numDeferred + 1
    && t.comps == s.comps[r := c] && c.deferredAt == s.now
  }

  lemma AppendKeepsTimes(comps: map<Req, Comp>, d: seq<Req>, r: Req, c: Comp, now: nat)
    requires forall j | 0 <= j < |d| :: d[j] in comps && comps[d[j]].deferredAt <= now
    requires Sorted(Times(comps, d)) && r !in d && c.deferredAt == now
    ensures forall j | 0 <= j < |d + [r]| :: (d + [r])[j] in comps[r := c] && comps[r := c][(d + [r])[j]].deferredAt <= now
    ensures Sorted(Times(comps[r := c], d + [r]))
  {
    assert forall j | 0 <= j < |d| :: d[j] in d;
    assert Times(comps[r := c], d + [r]) == Times(comps, d) + [now];
  }

  lemma AppendKeepsQueue(s: Channel, t: Channel, r: Req, c: Comp)
    requires Listed(Rest(s)) && QueueInv(Rest(s)) && r !in s.deferred && Appended(s, t, r, c)
    ensures Listed(Rest(t)) && QueueInv(Rest(t))
  {
    assert Line(Rest(s)) == s.deferred && Line(Rest(t)) == t.deferred;
    AppendKeepsTimes(s.comps, s.deferred, r, c, s.now);
  }

  lemma AppendKeepsEngine(s: Channel, t: Channel, r: Req, c: Comp)
    requires Engine(s) && Appended(s, t, r, c)
    ensures Engine(t)
    ensures Queued(Rest(t)) == Queued(Rest(s)) + multiset{r}
  {
  }

  lemma EnqueueKeepsLedger(s: Channel, t: Channel, r: Req, c: Comp)
    requires Listed(Rest(s)) && Listed(Rest(t)) && LedgerInv(Rest(s)) && r !in Owed(Rest(s))
    requires Queued(Rest(t)) == Queued(Rest(s)) + multiset{r} && t.comps == s.comps[r := c]
    requires t.awaiting == s.awaiting && t.called == s.called && t.accepted == s.accepted + multiset{r}
    ensures LedgerInv(Rest(t))
  {
    var q, a := Queued(Rest(s)), multiset(s.awaiting);
    assert (q + multiset{r}) + a == (q + a) + multiset{r};
    assert t.comps.Keys == s.comps.Keys + {r};
    JoinKeys(q + a, s.comps.Keys, r);
  }

  lemma EnqueueKeepsComps(s: Channel, t: Channel, r: Req, c: Comp)
    requires Listed(Rest(s)) && Listed(Rest(t)) && CompsInv(Rest(s)) && c.nmcs.Ok() && c.status.FailNoComp?
    requires Queued(Rest(t)) == Queued(Rest(s)) + multiset{r} && t.comps == s.comps[r := c]
    ensures CompsInv(Rest(t))
  {
    var q := Queued(Rest(s));
    forall x | x in q + multiset{r} && x != r ensures x in q { }
  }

  lemma NotOwed(s: Channel, r: Req)
    requires Listed(Rest(s)) && r !in Owed(Rest(s))
    ensures r !in s.deferred
  {
    assert r in s.deferred <==> r in multiset(s.deferred);
  }

  lemma EnqueueKeepsGood(s: Channel, r: Req, opr: Opr, compare: u32)
    requires Good(s) && r !in Owed(Rest(s))
    ensures Good(Enqueue(s, r, opr, compare))
  {
    var nmcs := if r in s.comps then s.comps[r].nmcs else FRESH;
    var c := Comp(opr, compare, nmcs, s.now, FailNoComp);
    var t := Enqueue(s, r, opr, compare);
    NotOwed(s, r);
    AppendKeepsEngine(s, t, r, c);
    AppendKeepsQueue(s, t, r, c);
    EnqueueKeepsLedger(s, t, r, c);
    EnqueueKeepsComps(s, t, r, c);
  }

  lemma InListIs(slots: seq<Slot>, l: seq<nat>, k: Kind, i: nat)
    requires All(slots, l, k)
    ensures i in l ==> i < |slots| && Is(slots[i], k)
  {
  }

  /** A live completion names a slot of the in-progress list. */
  lemma LiveWc(s: Channel, wc: Wc, dying: bool)
    requires Good(s) && WcPossible(s, wc) && !IgnoresWc(s, wc, dying)
    ensures wc.idx in s.inProgress && BusySlot(s.slots[wc.idx])
    ensures ReqAt(s.slots[wc.idx]) in s.comps && s.comps[ReqAt(s.slots[wc.idx])].nmcs.Ok()
    ensures ReqAt(s.slots[wc.idx]) in Queued(Rest(s)) && s.comps[ReqAt(s.slots[wc.idx])].status.FailNoComp?
  {
    InvIsApart(Rest(s));
    InListIs(s.slots, s.free, KFree, wc.idx);
    InListIs(s.slots, s.aborted, KDead, wc.idx);
    InListIs(s.slots, s.inProgress, KBusy, wc.idx);
    BusyIsQueued(s, wc.idx);
  }

  lemma BusyIsQueued(s: Channel, i: nat)
    requires Listed(Rest(s)) && LedgerInv(Rest(s)) && i in s.inProgress
    ensures ReqAt(s.slots[i]) in s.comps && ReqAt(s.slots[i]) in Queued(Rest(s))
  {
    var j :| 0 <= j < |s.inProgress| && s.inProgress[j] == i;
    var r := ReqsOf(s.slots, s.inProgress)[j];
    assert r in multiset(ReqsOf(s.slots, s.inProgress));
    assert r in Owed(Rest(s));
    assert Owed(Rest(s))[r] <= multiset(s.comps.Keys)[r];
  }

  /** The requests that are spoken for twice would exceed the keys. */
  lemma OnceOnly(q: multiset<Req>, a: multiset<Req>, keys: set<Req>, r: Req)
    requires (q + multiset{r}) + a <= multiset(keys)
    ensures r in keys && r !in q && r !in a
  {
    assert ((q + multiset{r}) + a)[r] <= multiset(keys)[r] <= 1;
  }

  lemma QueueIgnores(s: Channel, t: Channel, r: Req, c: Comp)
    requires Listed(Rest(s)) && Listed(Rest(t)) && QueueInv(Rest(s)) && r !in multiset(s.deferred)
    requires t.deferred == s.deferred && t.comps == s.comps[r := c] && t.now == s.now
    ensures QueueInv(Rest(t))
  {
    var d := s.deferred;
    assert Line(Rest(s)) == d && Line(Rest(t)) == d;
    forall j | 0 <= j < |d| ensures d[j] != r { assert d[j] in multiset(d); }
    assert Times(t.comps, d) == Times(s.comps, d);
  }

  lemma CompsIgnore(s: Channel, t: Channel, r: Req, c: Comp)
    requires Listed(Rest(s)) && Listed(Rest(t)) && CompsInv(Rest(s)) && Queued(Rest(t)) <= Queued(Rest(s))
    requires t.comps == s.comps[r := c] && c.nmcs.Ok() && (r !in Queued(Rest(t)) || c.status.FailNoComp?)
    ensures CompsInv(Rest(t))
  {
    forall x | x in Queued(Rest(t)) ensures x in Queued(Rest(s)) { }
  }

  /** A busy slot is freed and its request's callback is made. */
  lemma FinishKeepsGood(s: Channel, t: Channel, i: nat, x: Slot, c: Comp)
    requires Good(s) && i in s.inProgress && i < |s.slots| && Dropped(s, t, i, x) && c.nmcs.Ok()
    requires var r := ReqAt(s.slots[i]);
             t.comps == s.comps[r := c] && t.called == s.called + multiset{r}
    requires t.accepted == s.accepted && t.awaiting == s.awaiting && t.now == s.now
    ensures Good(t)
  {
    hide ListsInv, AtomsInv, QueueInv, CompsInv;
    var r := ReqAt(s.slots[i]);
    DropKeepsEngine(s, t, i, x);
    var q, a := Queued(Rest(t)), multiset(s.awaiting);
    OnceOnly(q, a, s.comps.Keys, r);
    Balance(s.accepted, s.called, Queued(Rest(s)), q, a, multiset(s.comps.Keys), r);
    assert t.comps.Keys == s.comps.Keys;
    QueueIgnores(s, t, r, c);
    CompsIgnore(s, t, r, c);
  }

  lemma RequeueKeepsAccounts(s: Channel, t: Channel, r: Req, c: Comp)
    requires Listed(Rest(s)) && Listed(Rest(t)) && LedgerInv(Rest(s)) && CompsInv(Rest(s))
    requires Queued(Rest(t)) == Queued(Rest(s)) && t.comps == s.comps[r := c] && r in s.comps
    requires c.nmcs.Ok() && c.status.FailNoComp?
    requires t.accepted == s.accepted && t.called == s.called && t.awaiting == s.awaiting
    ensures LedgerInv(Rest(t)) && CompsInv(Rest(t))
  {
    assert t.comps.Keys == s.comps.Keys;
    CompsIgnore(s, t, r, c);
  }

  /** A busy slot is freed and its request goes back to the tail of the queue. */
  lemma RequeueKeepsGood(s: Channel, m: Channel, t: Channel, i: nat, x: Slot, c: Comp)
    requires Good(s) && i in s.inProgress && i < |s.slots| && Dropped(s, m, i, x)
    requires m.comps == s.comps && m.now == s.now && m.awaiting == s.awaiting
    requires Appended(m, t, ReqAt(s.slots[i]), c) && c.nmcs.Ok() && c.status.FailNoComp?
    requires t.accepted == s.accepted && t.called == s.called && t.awaiting == s.awaiting
    ensures Good(t)
  {
    var r := ReqAt(s.slots[i]);
    DropKeepsEngine(s, m, i, x);
    var q := Queued(Rest(m));
    OnceOnly(q, multiset(s.awaiting), s.comps.Keys, r);
    assert r !in s.deferred by { assert r in s.deferred <==> r in multiset(s.deferred); }
    QueueKept(Rest(s), Rest(m), 0);
    AppendKeepsEngine(m, t, r, c);
    AppendKeepsQueue(m, t, r, c);
    RequeueKeepsAccounts(s, t, r, c);
  }

  lemma FreeOprDrops(s: Channel, i: nat)
    requires i < |s.slots| && BusySlot(s.slots[i])
    ensures Dropped(s, FreeOpr(s, i, true), i, FreeOpr(s, i, true).slots[i])
  {
  }

  lemma CompletedKeepsGood(s: Channel, wc: Wc, dying: bool)
    requires Good(s) && WcPossible(s, wc) && !IgnoresWc(s, wc, dying)
    ensures ReqAt(s.slots[wc.idx]) in s.comps && s.comps[ReqAt(s.slots[wc.idx])].nmcs.Ok()
    ensures Good(Completed(s, wc))
  {
    LiveWc(s, wc, dying);
    var i := wc.idx;
    var r := ReqAt(s.slots[i]);
    var c := Delivered(s, wc);
    var m, t := FreeOpr(s, i, true), Completed(s, wc);
    FreeOprDrops(s, i);
    if Resubmits(s, wc) {
      RequeueKeepsGood(s, m, t, i, m.slots[i], c.(deferredAt := s.now));
    } else {
      FinishKeepsGood(s, t, i, m.slots[i], c);
    }
  }

  lemma AbortedOneDrops(s: Channel)
    requires s.inProgress != [] && s.inProgress[0] < |s.slots| && ReqAt(s.slots[s.inProgress[0]]) in s.comps
    requires BusySlot(s.slots[s.inProgress[0]])
    ensures Dropped(s, AbortedOne(s), s.inProgress[0], AbortedOne(s).slots[s.inProgress[0]])
  {
  }

  lemma AwaitKeepsAccounts(s: Channel, t: Channel, r: Req, c: Comp)
    requires Listed(Rest(s)) && Listed(Rest(t)) && LedgerInv(Rest(s)) && CompsInv(Rest(s)) && r in s.comps
    requires Queued(Rest(s)) == Queued(Rest(t)) + multiset{r} && t.comps == s.comps[r := c] && c.nmcs.Ok()
    requires t.accepted == s.accepted && t.called == s.called && t.awaiting == s.awaiting + [r]
    ensures LedgerInv(Rest(t)) && CompsInv(Rest(t))
    ensures r !in Queued(Rest(t))
  {
    var q, a := Queued(Rest(t)), multiset(s.awaiting);
    OnceOnly(q, a, s.comps.Keys, r);
    assert (q + multiset{r}) + a == q + (a + multiset{r});
    assert t.comps.Keys == s.comps.Keys;
    CompsIgnore(s, t, r, c);
  }

  lemma AbortedOneKeepsGood(s: Channel)
    requires Good(s) && s.inProgress != []
    ensures s.inProgress[0] < |s.slots| && ReqAt(s.slots[s.inProgress[0]]) in s.comps
    ensures Good(AbortedOne(s))
    ensures |AbortedOne(s).inProgress| == |s.inProgress| - 1
  {
    hide ListsInv, AtomsInv, LedgerInv, QueueInv;
    var i := s.inProgress[0];
    var r := ReqAt(s.slots[i]);
    assert i in s.inProgress && BusySlot(s.slots[i]);
    BusyIsQueued(s, i);
    var t := AbortedOne(s);
    AbortedOneDrops(s);
    DropKeepsEngine(s, t, i, t.slots[i]);
    AwaitKeepsAccounts(s, t, r, t.comps[r]);
    QueueIgnores(s, t, r, t.comps[r]);
  }

  lemma DrainKeepsTimes(comps: map<Req, Comp>, d: seq<Req>, n: nat, now: nat, now': nat)
    requires n <= |d| && now <= now' && forall j | 0 <= j < |d| :: d[j] in comps && comps[d[j]].deferredAt <= now
    requires Sorted(Times(comps, d))
    ensures forall j | 0 <= j < |d[n..]| :: d[n..][j] in comps && comps[d[n..][j]].deferredAt <= now'
    ensures Sorted(Times(comps, d[n..]))
  {
    assert Times(comps, d[n..]) == Times(comps, d)[n..];
  }

  lemma DrainedKeepsEngine(s: Channel, t: Channel, n: nat, now': nat)
    requires Engine(s) && QueueInv(Rest(s)) && n <= |s.deferred| && s.now <= now'
    requires t == Drained(s, n).(now := now')
    ensures Engine(t) && QueueInv(Rest(t))
    ensures Queued(Rest(s)) == Queued(Rest(t)) + multiset(s.deferred[..n])
  {
    DrainedKeepsQueue(s, t, n, now');
    hide QueueInv;
    Split(s.deferred, n);
    DrainLeaves(s.deferred, n, ReqsOf(s.slots, []), ReqsOf(s.slots, s.inProgress));
  }

  lemma DrainedKeepsQueue(s: Channel, t: Channel, n: nat, now': nat)
    requires Listed(Rest(s)) && QueueInv(Rest(s)) && n <= |s.deferred| && s.now <= now'
    requires t == Drained(s, n).(now := now')
    ensures Listed(Rest(t)) && QueueInv(Rest(t))
  {
    assert Line(Rest(s)) == s.deferred && Line(Rest(t)) == t.deferred;
    DrainKeepsTimes(s.comps, s.deferred, n, s.now, now');
  }

  lemma DrainLeaves(d: seq<Req>, n: nat, out: seq<Req>, air: seq<Req>)
    requires n <= |d|
    ensures multiset(d) + multiset(out) + multiset(air)
         == (multiset(d[n..]) + multiset(out) + multiset(air)) + multiset(d[..n])
  {
    Split(d, n);
  }

  lemma DrainKeepsOwed(q: multiset<Req>, q': multiset<Req>, d: seq<Req>, a: seq<Req>)
    requires q == q' + multiset(d)
    ensures q + multiset(a) == q' + multiset(a + d)
    ensures q' <= q
  {
  }

  lemma DrainedKeepsGood(s: Channel, n: nat, now': nat)
    requires Good(s) && n <= |s.deferred| && s.now <= now'
    ensures Good(Drained(s, n).(now := now'))
  {
    var t := Drained(s, n).(now := now');
    DrainedKeepsEngine(s, t, n, now');
    DrainedKeepsAccounts(s, t, s.deferred[..n]);
  }

  lemma DrainedKeepsAccounts(s: Channel, t: Channel, d: seq<Req>)
    requires Listed(Rest(s)) && Listed(Rest(t)) && LedgerInv(Rest(s)) && CompsInv(Rest(s))
    requires Queued(Rest(s)) == Queued(Rest(t)) + multiset(d) && t.awaiting == s.awaiting + d
    requires t.comps == s.comps && t.accepted == s.accepted && t.called == s.called
    ensures LedgerInv(Rest(t)) && CompsInv(Rest(t))
  {
    DrainKeepsOwed(Queued(Rest(s)), Queued(Rest(t)), d, s.awaiting);
    forall x | x in Queued(Rest(t)) ensures x in Queued(Rest(s)) { }
  }

  lemma CallKeepsLedger(q: multiset<Req>, a: seq<Req>, k: nat, accepted: multiset<Req>, called: multiset<Req>, keys: set<Req>)
    requires k < |a| && q + multiset(a) <= multiset(keys) && accepted == called + (q + multiset(a))
    ensures var b := a[..k] + a[k + 1..];
            q + multiset(b) <= multiset(keys) && accepted == (called + multiset{a[k]}) + (q + multiset(b))
    ensures a[k] in keys && a[k] !in q
  {
    Cut(a, k);
    var b := multiset(a[..k] + a[k + 1..]);
    assert q + multiset(a) == (q + multiset{a[k]}) + b == (q + b) + multiset{a[k]};
    OnceOnly(q, b, keys, a[k]);
  }

  lemma CalledBackKeepsGood(s: Channel, k: nat)
    requires Good(s) && k < |s.awaiting|
    ensures s.awaiting[k] in s.comps
    ensures Good(CalledBack(s, k))
  {
    var q, r := Queued(Rest(s)), s.awaiting[k];
    CallKeepsLedger(q, s.awaiting, k, s.accepted, s.called, s.comps.Keys);
    var t := CalledBack(s, k);
    assert t.comps.Keys == s.comps.Keys;
    assert Engine(t) && Queued(Rest(t)) == q;
    QueueIgnores(s, t, r, t.comps[r]);
    CompsIgnore(s, t, r, t.comps[r]);
  }
}
