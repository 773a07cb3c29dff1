/** Whole runs of the lock channel, in any interleaving of its entry points: slots are
    conserved, every accepted request is called back exactly once and every refused one never,
    order is kept, expiry is exact, and an aborted channel stays silent. */
module LockRuns {
  import opened LockEntry
  import opened LockEngine
  import opened LockInvariant

  /** One critical section (or one callback, or the passing of time), with everything the
      environment decides in it. */
  datatype Event =
    | Tick(d: nat)
    | SubmitPosted(r: Req, opr: Opr, compare: u32, x: Sending)   // execute_opr through the queue
    | SubmitBypassed(r: Req)                                     // execute_opr, local bypass succeeded
    | SubmitRefused(r: Req)                                      // paused, not connected, bypass failed
    | Complete(wc: Wc, dying: bool, x: Sending)                  // nvmeibc_disk_locks_on_completion
    | ProcessDeferred(x: Sending)
    | Pause
    | DrainAll
    | DrainExpired(n: nat, until: nat)                           // only_expired, finished at `until`
    | AbortInProgress
    | CallBack(k: nat)                                           // fail_deferred, call_comp_list_cb

  const NOTHING: Sending := Sending([], AllPosted)

  ghost predicate Allowed(s: Channel, e: Event)
    requires Good(s)
  {
    match e
    case Tick(_) => true
    case SubmitPosted(r, opr, compare, x) =>
      !s.paused && r !in Owed(Rest(s)) && CanSend(Enqueue(s, r, opr, compare), x, {r})
    case SubmitBypassed(r) => !s.paused && r !in Owed(Rest(s))
    case SubmitRefused(r) => r !in Owed(Rest(s))
    case Complete(wc, dying, x) =>
      && WcPossible(s, wc)
      && (if IgnoresWc(s, wc, dying) then x == NOTHING
          else LiveWc(s, wc, dying);
               && (Erred(s, wc) ==> x == NOTHING)
               && CanSend(Completed(s, wc), x, {}))
    case ProcessDeferred(x) => CanSend(s, x, {})
    case Pause => true
    case DrainAll => true
    case DrainExpired(n, until) =>
      // each test reads the clock anew, between s.now and `until`
      && s.now <= until && n <= |s.deferred|
      && Known(s, s.deferred)
      && (forall j | 0 <= j < n :: Expired(s, s.deferred[j], until))
      && (n < |s.deferred| ==> !Expired(s, s.deferred[n], s.now))
    case AbortInProgress => true
    case CallBack(k) => k < |s.awaiting|
  }

  /** abort_in_progress_ops: the whole in-progress list, front to back. */
  ghost function AbortedAll(s: Channel): (t: Channel)
    requires Good(s)
    ensures Good(t) && t.inProgress == [] && t.deferred == s.deferred && t.paused == s.paused
    ensures t.accepted == s.accepted && t.called == s.called
    decreases |s.inProgress|
  {
    if s.inProgress == [] then s
    else
      AbortedOneKeepsGood(s);
      AbortedAll(AbortedOne(s))
  }

  ghost function Next(s: Channel, e: Event): Channel
    requires Good(s) && Allowed(s, e)
  {
    match e
    case Tick(d) => s.(now := s.now + d)
    case SubmitPosted(r, opr, compare, x) => Sent(Enqueue(s, r, opr, compare), x, {r})
    case SubmitBypassed(r) => s.(accepted := s.accepted + multiset{r}, called := s.called + multiset{r})
    case SubmitRefused(_) => s
    case Complete(wc, dying, x) =>
      if IgnoresWc(s, wc, dying) then s
      else
        LiveWc(s, wc, dying);
        Sent(Completed(s, wc), x, {})
    case ProcessDeferred(x) => Sent(s, x, {})
    case Pause => s.(paused := true)
    case DrainAll => Drained(s, |s.deferred|)
    case DrainExpired(n, until) => Drained(s, n).(now := until)
    case AbortInProgress => AbortedAll(s)
    case CallBack(k) =>
      CalledBackKeepsGood(s, k);
      CalledBack(s, k)
  }

  lemma InvIsListed(w: Work)
    requires Inv(w)
    ensures Listed(w)
  {
  }

  lemma SentKeepsGood(s: Channel, x: Sending, own: set<Req>)
    requires Good(s) && CanSend(s, x, own)
    ensures Good(Sent(s, x, own))
  {
    MovesKeepInv(Rest(s), x.Moves(), own);
  }

  /** Time, the paused flag, and a request accepted and called back at once do not matter. */
  lemma AsideKeepsGood(s: Channel, t: Channel, m: multiset<Req>)
    requires Good(s) && s.now <= t.now
    requires t == s.(now := t.now, paused := t.paused, accepted := s.accepted + m, called := s.called + m)
    ensures Good(t)
  {
    hide ListsInv, AtomsInv, LedgerInv, QueueInv, CompsInv;
    InvIsListed(Rest(s));
    assert SlotsInv(Rest(t)) && Listed(Rest(t));
    AsideKeepsQueue(s, t, m);
    AsideKeepsLedger(s, t, m);
  }

  lemma AsideKeepsQueue(s: Channel, t: Channel, m: multiset<Req>)
    requires Listed(Rest(s)) && ListsInv(Rest(s)) && AtomsInv(Rest(s)) && QueueInv(Rest(s)) && s.now <= t.now
    requires t == s.(now := t.now, paused := t.paused, accepted := s.accepted + m, called := s.called + m)
    ensures Listed(Rest(t)) && ListsInv(Rest(t)) && AtomsInv(Rest(t)) && QueueInv(Rest(t))
  {
    assert Line(Rest(t)) == Line(Rest(s));
  }

  lemma AsideKeepsLedger(s: Channel, t: Channel, m: multiset<Req>)
    requires Listed(Rest(s)) && LedgerInv(Rest(s)) && CompsInv(Rest(s))
    requires t == s.(now := t.now, paused := t.paused, accepted := s.accepted + m, called := s.called + m)
    ensures Listed(Rest(t)) && LedgerInv(Rest(t)) && CompsInv(Rest(t))
  {
    assert Owed(Rest(t)) == Owed(Rest(s)) && Queued(Rest(t)) == Queued(Rest(s));
  }

  lemma SubmitKeepsGood(s: Channel, r: Req, opr: Opr, compare: u32, x: Sending)
    requires Good(s) && Allowed(s, SubmitPosted(r, opr, compare, x))
    ensures Good(Next(s, SubmitPosted(r, opr, compare, x)))
  {
    EnqueueKeepsGood(s, r, opr, compare);
    SentKeepsGood(Enqueue(s, r, opr, compare), x, {r});
  }

  lemma CompleteKeepsGood(s: Channel, wc: Wc, dying: bool, x: Sending)
    requires Good(s) && Allowed(s, Complete(wc, dying, x))
    ensures Good(Next(s, Complete(wc, dying, x)))
  {
    if !IgnoresWc(s, wc, dying) {
      CompletedKeepsGood(s, wc, dying);
      SentKeepsGood(Completed(s, wc), x, {});
    }
  }

  lemma DrainKeepsGood(s: Channel, e: Event)
    requires Good(s) && Allowed(s, e) && (e.DrainAll? || e.DrainExpired?)
    ensures Good(Next(s, e))
  {
    if e.DrainAll? {
      DrainedKeepsGood(s, |s.deferred|, s.now);
      assert Drained(s, |s.deferred|).(now := s.now) == Drained(s, |s.deferred|);
    } else {
      DrainedKeepsGood(s, e.n, e.until);
    }
  }

  /** Every entry point keeps the invariant: the slot lists partition the slots, all counters are
      exact, the queue is sorted, the atomic budget holds and the ledger balances. */
  lemma NextKeepsGood(s: Channel, e: Event)
    requires Good(s) && Allowed(s, e)
    ensures Good(Next(s, e))
  {
    hide Inv;
    match e
    case Tick(_) => AsideKeepsGood(s, Next(s, e), multiset{});
    case SubmitPosted(r, opr, compare, x) => SubmitKeepsGood(s, r, opr, compare, x);
    case SubmitBypassed(r) => AsideKeepsGood(s, Next(s, e), multiset{r});
    case SubmitRefused(_) =>
    case Complete(wc, dying, x) => CompleteKeepsGood(s, wc, dying, x);
    case ProcessDeferred(x) => SentKeepsGood(s, x, {});
    case Pause => AsideKeepsGood(s, Next(s, e), multiset{});
    case DrainAll => DrainKeepsGood(s, e);
    case DrainExpired(_, _) => DrainKeepsGood(s, e);
    case AbortInProgress =>
    case CallBack(k) => CalledBackKeepsGood(s, k);
  }

  ghost predicate Legal(s: Channel, es: seq<Event>)
    requires Good(s)
    decreases |es|
  {
    es != [] ==>
      && Allowed(s, es[0])
      && (NextKeepsGood(s, es[0]); Legal(Next(s, es[0]), es[1..]))
  }

  /** The state a run ends in. */
  ghost function Run(s: Channel, es: seq<Event>): Channel
    requires Good(s) && Legal(s, es)
    decreases |es|
  {
    if es == [] then s
    else
      NextKeepsGood(s, es[0]);
      Run(Next(s, es[0]), es[1..])
  }

  /** The whole invariant holds after any run. */
  lemma {:induction false} RunKeepsGood(s: Channel, es: seq<Event>)
    requires Good(s) && Legal(s, es)
    ensures Good(Run(s, es))
    decreases |es|
  {
    hide Inv, Allowed, Next;
    if es != [] {
      NextKeepsGood(s, es[0]);
      RunKeepsGood(Next(s, es[0]), es[1..]);
    }
  }

  /** A run that goes on is a run. */
  lemma {:induction false} RunJoin(s: Channel, a: seq<Event>, b: seq<Event>)
    requires Good(s) && Legal(s, a) && Good(Run(s, a)) && Legal(Run(s, a), b)
    ensures Legal(s, a + b) && Run(s, a + b) == Run(Run(s, a), b)
    decreases |a|
  {
    hide Inv, Allowed, Next;
    if a == [] {
      assert a + b == b;
    } else {
      assert (a + b)[1..] == a[1..] + b;
      NextKeepsGood(s, a[0]);
      RunJoin(Next(s, a[0]), a[1..], b);
    }
  }

  lemma RunOne(s: Channel, e: Event)
    requires Good(s) && Allowed(s, e) && Good(Next(s, e))
    ensures Legal(s, [e]) && Run(s, [e]) == Next(s, e)
  {
    hide Inv, Allowed, Next;
    assert [e][1..] == [];
  }

  // ---------------------------------------------------------------- slots and counters

  /** At any point of any run the free, in-progress and aborted lists partition the slots, every
      counter is the length of its list, so the sums the source checks hold, the counter of atomics
      and reads is exact, and on an atomic-capable channel it stays below the limit plus a batch. */
  lemma SlotConservation(s: Channel, es: seq<Event>)
    requires Good(s) && Legal(s, es)
    ensures var t := Run(s, es);
            && multiset(t.free) + multiset(t.inProgress) + multiset(t.aborted) == AllSlots(|t.slots|)
            && t.numFree == |t.free| && t.numInProgress == |t.inProgress| && t.numAborted == |t.aborted|
            && t.numDeferred == |t.deferred| && t.numInProgress + t.numFree + t.numAborted == |t.slots|
            && InRange(t.inProgress, |t.slots|) && t.numAtomRead == Ones(SlotBits(t.slots, t.inProgress))
            && (forall j | 0 <= j < |t.inProgress| ::
                  SlotBits(t.slots, t.inProgress)[j] <==> t.slots[t.inProgress[j]].opcode in {OpCas, OpMaskedCas, OpRead})
            && (t.cfg.caps.atomic ==> t.numAtomRead < t.cfg.maxRdAtomic + 8)
  {
    hide Inv, Run, Legal;
    RunKeepsGood(s, es);
    CountersExact(Run(s, es));
  }

  lemma CountersExact(t: Channel)
    requires Good(t)
    ensures multiset(t.free) + multiset(t.inProgress) + multiset(t.aborted) == AllSlots(|t.slots|)
    ensures t.numFree == |t.free| && t.numInProgress == |t.inProgress| && t.numAborted == |t.aborted|
    ensures t.numDeferred == |t.deferred| && t.numInProgress + t.numFree + t.numAborted == |t.slots|
    ensures InRange(t.inProgress, |t.slots|) && t.numAtomRead == Ones(SlotBits(t.slots, t.inProgress))
    ensures t.cfg.caps.atomic ==> t.numAtomRead < t.cfg.maxRdAtomic + WR_PER_MSG
  {
    hide LedgerInv, QueueInv, CompsInv;
  }

  // ---------------------------------------------------------------- exactly-once completion

  ghost predicate Idle(s: Channel) {
    Good(s) && s.deferred == [] && s.inProgress == [] && s.awaiting == [] && s.accepted == multiset{} && s.called == multiset{}
  }

  /** At any point of any run from a fresh channel, each request's accepted submissions are its
      callbacks plus one if it is still queued, in progress or awaiting its callback; so once it
      is none of these, every accepted submission has had exactly one callback. */
  lemma ExactlyOnce(s: Channel, es: seq<Event>, r: Req)
    requires Idle(s) && Legal(s, es)
    ensures var t := Run(s, es);
            && Listed(Rest(t))
            && t.accepted[r] == t.called[r] + Owed(Rest(t))[r]
            && Owed(Rest(t))[r] <= 1
            && (r !in t.deferred && r !in ReqsOf(t.slots, t.inProgress) && r !in t.awaiting ==> t.accepted[r] == t.called[r])
  {
    hide Inv, Run, Legal;
    var t := Run(s, es);
    RunKeepsGood(s, es);
    InvIsListed(Rest(t));
    LedgerAt(t, r);
    assert r in t.deferred <==> r in multiset(t.deferred);
    assert r in ReqsOf(t.slots, t.inProgress) <==> r in multiset(ReqsOf(t.slots, t.inProgress));
    assert r in t.awaiting <==> r in multiset(t.awaiting);
  }

  lemma LedgerAt(s: Channel, r: Req)
    requires Good(s)
    ensures Listed(Rest(s)) && s.accepted[r] == s.called[r] + Owed(Rest(s))[r] && Owed(Rest(s))[r] <= 1
  {
    assert Owed(Rest(s))[r] <= multiset(s.comps.Keys)[r];
  }

  lemma OwnMove(w: Work, m: Move, r: Req)
    requires CanMove(w, m)
    ensures var v := Moved(w, m, {r});
            v.ch.called[r] == w.ch.called[r] && forall q | q != r :: v.ch.accepted[q] == w.ch.accepted[q]
  {
    hide TakeOne, StartOne, GiveBack, FreeOpr;
    MoveAccounts(w, m, {r});
  }

  /** Only retiring a refused request touches the ledger. */
  lemma MoveAccounts(w: Work, m: Move, own: set<Req>)
    requires CanMove(w, m)
    ensures var v := Moved(w, m, own);
            if m.Retire? && ReqAt(w.ch.slots[w.out[0]]) in own then
              v.ch.accepted == w.ch.accepted - multiset{ReqAt(w.ch.slots[w.out[0]])} && v.ch.called == w.ch.called
            else if m.Retire? then
              v.ch.accepted == w.ch.accepted && v.ch.called == w.ch.called + multiset{ReqAt(w.ch.slots[w.out[0]])}
            else v.ch.accepted == w.ch.accepted && v.ch.called == w.ch.called
  {
    hide *;
    if m == Retire { RetireAccounts(w, own); } else { QuietAccounts(w, m, own); }
  }

  lemma RetireAccounts(w: Work, own: set<Req>)
    requires CanMove(w, Retire)
    ensures var v := Moved(w, Retire, own);
            if ReqAt(w.ch.slots[w.out[0]]) in own then
              v.ch.accepted == w.ch.accepted - multiset{ReqAt(w.ch.slots[w.out[0]])} && v.ch.called == w.ch.called
            else v.ch.accepted == w.ch.accepted && v.ch.called == w.ch.called + multiset{ReqAt(w.ch.slots[w.out[0]])}
  {
    hide ReqAt;
  }

  lemma QuietAccounts(w: Work, m: Move, own: set<Req>)
    requires CanMove(w, m) && !m.Retire?
    ensures Moved(w, m, own).ch.accepted == w.ch.accepted && Moved(w, m, own).ch.called == w.ch.called
  {
    hide ReqsOf, BackSlots, PreparedSlot;
  }

  /** During its own submission a request is not called back, and no other acceptance is undone. */
  lemma {:induction false} OwnIsNotCalled(w: Work, ms: seq<Move>, r: Req)
    requires CanMoveAll(w, ms, {r})
    ensures var w' := MovedAll(w, ms, {r});
            w'.ch.called[r] == w.ch.called[r] && forall q | q != r :: w'.ch.accepted[q] == w.ch.accepted[q]
    decreases |ms|
  {
    if ms != [] {
      OwnMove(w, ms[0], r);
      OwnIsNotCalled(Moved(w, ms[0], {r}), ms[1..], r);
    }
  }

  /** execute_opr's two outcomes: the submission is accepted and the request is owed a callback,
      or it is refused, is nowhere in the channel, and gets no callback. A different request that
      fails in the same send is called back. */
  lemma SubmitOutcome(s: Channel, r: Req, opr: Opr, compare: u32, x: Sending)
    requires Good(s) && Allowed(s, SubmitPosted(r, opr, compare, x))
    ensures var t := Next(s, SubmitPosted(r, opr, compare, x));
            && InRange(t.inProgress, |t.slots|)
            && t.called[r] == s.called[r]
            && (forall q | q != r :: t.accepted[q] == s.accepted[q])
            && (|| (t.accepted[r] == s.accepted[r] + 1 && Owed(Rest(t))[r] == 1)
                || (t.accepted[r] == s.accepted[r] && Owed(Rest(t))[r] == 0))
  {
    hide SlotsInv, ListsInv, AtomsInv, LedgerInv, QueueInv, CompsInv;
    var e := SubmitPosted(r, opr, compare, x);
    var t := Next(s, e);
    NextKeepsGood(s, e);
    InvIsListed(Rest(t));
    OwnIsNotCalled(Rest(Enqueue(s, r, opr, compare)), x.Moves(), r);
    LedgerAt(s, r);
    LedgerAt(t, r);
  }

  /** A completion is delivered with the "no callback will be called" status exactly when a plain
      compare-and-swap wanted to be resubmitted on a paused channel. */
  lemma CallbackStatus(s: Channel, wc: Wc, dying: bool)
    requires Good(s) && WcPossible(s, wc) && !IgnoresWc(s, wc, dying)
    ensures ReqAt(s.slots[wc.idx]) in s.comps && s.comps[ReqAt(s.slots[wc.idx])].nmcs.Ok()
    ensures var r := ReqAt(s.slots[wc.idx]);
            var t := Completed(s, wc);
            && (t.called == s.called <==> Resubmits(s, wc))
            && (t.called != s.called ==> t.called == s.called + multiset{r})
            && (t.called != s.called ==>
                  (t.comps[r].status.FailNoComp? <==> WantsRetry(s.slots[wc.idx], s.comps[r], wc) && s.paused))
  {
    LiveWc(s, wc, dying);
    hide Inv;
    var r := ReqAt(s.slots[wc.idx]);
    assert (s.called + multiset{r})[r] == s.called[r] + 1;
  }

  /** The status each kind of completion delivers, and what the request remembers afterwards. */
  lemma CompletionStatus(s: Channel, wc: Wc, dying: bool)
    requires Good(s) && WcPossible(s, wc) && !IgnoresWc(s, wc, dying)
    ensures ReqAt(s.slots[wc.idx]) in s.comps && s.comps[ReqAt(s.slots[wc.idx])].nmcs.Ok()
    ensures var x, r := s.slots[wc.idx], ReqAt(s.slots[wc.idx]);
            var c := s.comps[r];
            var retry := wc.ok && x.opcode.OpCas? && c.nmcs.attempts < 8 && wc.val.bi != c.nmcs.last;
            var t := Completed(s, wc);
            && r in t.comps
            && (t.called == s.called <==> retry && !s.paused)
            && (t.comps[r].status.FailComp? <==> !wc.ok)
            && (t.comps[r].status.FailNoComp? <==> retry)
            && (wc.ok && x.opcode.OpWrite? ==> t.comps[r].status.StatusTaken?)
            && (wc.ok && x.opcode.OpRead? ==>
                  t.comps[r].status == if wc.val.id == 0 then StatusTaken else StatusContended)
            && (wc.ok && !retry && (x.opcode.OpCas? || x.opcode.OpMaskedCas?) ==>
                  t.comps[r].status == if wc.val.id == c.compare then StatusTaken else StatusContended)
            && t.comps[r].nmcs == (if retry then Nmcs(c.nmcs.attempts + 1, wc.val.bi)
                                   else if wc.ok && !x.opcode.OpWrite? then Nmcs(0, 0)
                                   else c.nmcs)
            && t.comps[r].opr == c.opr && t.comps[r].compare == c.compare
  {
    LiveWc(s, wc, dying);
    hide Inv, FreeOpr;
    FreeOprKeepsRest(s, wc.idx);
    var r := ReqAt(s.slots[wc.idx]);
    assert (s.called + multiset{r})[r] == s.called[r] + 1;
  }

  lemma FreeOprKeepsRest(s: Channel, i: nat)
    requires i < |s.slots|
    ensures FreeOpr(s, i, true).comps == s.comps && FreeOpr(s, i, true).called == s.called
  {
  }

  // ---------------------------------------------------------------- a callback that should not be

  lemma Roll1(w: Work, m: Move, own: set<Req>)
    requires CanMove(w, m)
    ensures CanMoveAll(w, [m], own) && MovedAll(w, [m], own) == Moved(w, m, own)
  {
  }

  lemma Roll2(w: Work, m1: Move, m2: Move, own: set<Req>)
    requires CanMove(w, m1) && CanMove(Moved(w, m1, own), m2)
    ensures CanMoveAll(w, [m1, m2], own) && MovedAll(w, [m1, m2], own) == Moved(Moved(w, m1, own), m2, own)
  {
    hide CanMove, Moved;
    Roll1(Moved(w, m1, own), m2, own);
    assert [m1, m2][1..] == [m2];
  }

  lemma NothingSends(s: Channel)
    ensures CanSend(s, NOTHING, {}) && Sent(s, NOTHING, {}) == s
  {
    assert NOTHING.Moves() == [];
  }

  const IDLE_SLOT: Slot := Slot(0, NoComp, OpWrite, InFreeList, false)

  lemma {:induction false} AllFree(n: nat)
    ensures multiset(seq(n, i requires 0 <= i < n => i)) == AllSlots(n)
  {
    if n != 0 {
      AllFree(n - 1);
      assert seq(n, i requires 0 <= i < n => i) == seq(n - 1, i requires 0 <= i < n - 1 => i) + [n - 1];
    }
  }

  lemma IdleIsGood(s: Channel)
    requires s.deferred == [] && s.inProgress == [] && s.aborted == [] && s.awaiting == []
    requires s.numDeferred == 0 && s.numInProgress == 0 && s.numAborted == 0 && s.numAtomRead == 0
    requires |s.free| == |s.slots| == s.numFree && multiset(s.free) == AllSlots(|s.slots|) && InRange(s.free, |s.slots|)
    requires forall i | 0 <= i < |s.slots| :: FreeSlot(s.slots[i])
    requires s.comps == map[] && s.accepted == s.called == multiset{}
    ensures Good(s)
  {
  }

  /** One request on one slot: free, posted, and answered after the channel was paused. */
  const ONE_FREE: Channel :=
    Channel(Config(Caps(true, false), 1, 0), [IDLE_SLOT], [], [], [0], [], 0, 0, 1, 0, 0, false, map[], 0, [],
            multiset{}, multiset{})

  const ONE_POSTED: Channel :=
    ONE_FREE.(slots := [Slot(0, Live(0), OpCas, InProgress, false)], inProgress := [0], free := [],
              numInProgress := 1, numFree := 0, numAtomRead := 1,
              comps := map[0 := Comp(CmpAndSwap, 0, FRESH, 0, FailNoComp)], accepted := multiset{0})

  const POST_ONE: Sending := Sending([Take, Post], AllPosted)

  lemma OneIsPosted()
    ensures CanSend(Enqueue(ONE_FREE, 0, CmpAndSwap, 0), POST_ONE, {0})
    ensures Sent(Enqueue(ONE_FREE, 0, CmpAndSwap, 0), POST_ONE, {0}) == ONE_POSTED
  {
    var w := Rest(Enqueue(ONE_FREE, 0, CmpAndSwap, 0));
    var v := Moved(w, Take, {0});
    assert v.out == [0] && v.ch.deferred == [] && v.ch.free == [];
    assert v.ch.slots == [Slot(0, Live(0), OpCas, Preparing, false)];
    var u := Moved(v, Post, {0});
    assert u.out == [] && u.ch.slots == ONE_POSTED.slots && u.ch == ONE_POSTED;
    Roll2(w, Take, Post, {0});
    assert POST_ONE.Moves() == [Take, Post];
  }

  lemma OneIsIdle()
    ensures Idle(ONE_FREE) && Owed(Rest(ONE_FREE)) == multiset{}
  {
    assert AllSlots(1) == AllSlots(0) + multiset{0};
    IdleIsGood(ONE_FREE);
    assert ReqsOf(ONE_FREE.slots, []) == [];
  }

  lemma EventFirst(s: Channel, e: Event, es: seq<Event>)
    requires Good(s) && Allowed(s, e) && Good(Next(s, e)) && Legal(Next(s, e), es)
    ensures Legal(s, [e] + es) && Run(s, [e] + es) == Run(Next(s, e), es)
  {
    hide Inv, Allowed, Next;
    assert ([e] + es)[1..] == es;
  }

  /** The promise of FailNoComp, that no callback will come, is broken: a plain compare-and-swap
      is posted, the channel is paused, the reply shows another blkset-info, and the callback is
      made with that very status. */
  lemma PausedRetryIsCalledBack() returns (s: Channel, es: seq<Event>)
    ensures Idle(s) && Legal(s, es) && s.cfg.caps == Caps(true, false)
    ensures |es| == 3 && es[0].SubmitPosted? && es[1].Pause? && es[2].Complete? && es[2].wc.ok
    ensures var t := Run(s, es);
            var r := es[0].r;
            t.called == multiset{r} && r in t.comps && t.comps[r].status.FailNoComp?
  {
    hide Inv, CanSend, Sent, Enqueue;
    s := ONE_FREE;
    var post, wc := SubmitPosted(0, CmpAndSwap, 0, POST_ONE), Wc(0, 0, true, Entry(0, 5));
    var reply := Complete(wc, false, NOTHING);
    OneIsIdle();
    OneIsPosted();
    NextKeepsGood(s, post);
    var p := ONE_POSTED.(paused := true);
    NextKeepsGood(ONE_POSTED, Pause);
    LiveWc(p, wc, false);
    NothingSends(Completed(p, wc));
    NextKeepsGood(p, reply);
    EventFirst(p, reply, []);
    EventFirst(ONE_POSTED, Pause, [reply] + []);
    EventFirst(s, post, [Pause] + ([reply] + []));
    es := [post] + ([Pause] + ([reply] + []));
  }

  // ---------------------------------------------------------------- order

  /** Everything in progress, in the order it was posted, then everything in line. */
  ghost function Course(w: Work): seq<Req>
    requires Listed(w)
  {
    ReqsOf(w.ch.slots, w.ch.inProgress) + Line(w)
  }

  /** While work requests are only chained and posted, the posted requests followed by the line
      are what the queue was. */
  lemma {:induction false} BodyKeepsOrder(w: Work, ms: seq<Move>, own: set<Req>)
    requires Inv(w) && CanMoveAll(w, ms, own) && forall j | 0 <= j < |ms| :: ms[j].Take? || ms[j].Post?
    ensures var w' := MovedAll(w, ms, own);
            && Inv(w')
            && Listed(w) && Listed(w') && Course(w) == Course(w')
    decreases |ms|
  {
    hide ListsInv, SlotsInv, AtomsInv, LedgerInv, QueueInv, CompsInv, ReqsOf, Line, CanMove;
    InvIsListed(w);
    if ms != [] {
      var v := Moved(w, ms[0], own);
      MoveKeepsInv(w, ms[0], own);
      StepKeepsOrder(w, ms[0], own);
      BodyKeepsOrder(v, ms[1..], own);
    }
  }

  lemma StepKeepsOrder(w: Work, m: Move, own: set<Req>)
    requires ListsInv(w) && SlotsInv(w) && CanMove(w, m) && (m.Take? || m.Post?)
    ensures var v := Moved(w, m, own);
            && Listed(v)
            && Course(w) == Course(v)
  {
    hide *;
    if m == Take { TakeKeepsOrder(w, own); } else { PostKeepsOrder(w, own); }
  }

  lemma TakeKeepsOrder(w: Work, own: set<Req>)
    requires ListsInv(w) && SlotsInv(w) && CanMove(w, Take)
    ensures var v := Moved(w, Take, own); Listed(w) && Listed(v) && Course(w) == Course(v)
  {
    InvIsApart(w);
    TakeKeepsSlots(w, own);
    TakeKeepsLine(w, Moved(w, Take, own));
  }

  lemma PostKeepsOrder(w: Work, own: set<Req>)
    requires ListsInv(w) && SlotsInv(w) && CanMove(w, Post)
    ensures var v := Moved(w, Post, own); Listed(w) && Listed(v) && Course(w) == Course(v)
  {
    InvIsApart(w);
    PostKeepsSlots(w, own);
    PostKeepsLine(w, Moved(w, Post, own));
    assert Line(w)[0] == ReqsOf(w.ch.slots, w.out)[0];
    hide ListsInv, SlotsInv, Line, ReqsOf;
    MovesOver(ReqsOf(w.ch.slots, w.ch.inProgress), Line(w));
  }

  lemma MovesOver(a: seq<Req>, l: seq<Req>)
    requires l != []
    ensures a + l == (a + [l[0]]) + l[1..]
  {
  }

  lemma {:induction false} MovedSplit(w: Work, a: seq<Move>, b: seq<Move>, own: set<Req>)
    requires CanMoveAll(w, a + b, own)
    ensures CanMoveAll(w, a, own) && CanMoveAll(MovedAll(w, a, own), b, own)
    ensures MovedAll(w, a + b, own) == MovedAll(MovedAll(w, a, own), b, own)
    decreases |a|
  {
    if a == [] {
      assert a + b == b;
    } else {
      assert (a + b)[1..] == a[1..] + b;
      MovedSplit(Moved(w, a[0], own), a[1..], b, own);
    }
  }

  lemma UndoKeepsOrder(w: Work, from: nat, own: set<Req>)
    requires Listed(w) && Inv(w) && CanMove(w, Undo(from))
    ensures Inv(Moved(w, Undo(from), own))
    ensures var v := Moved(w, Undo(from), own); Listed(v) && Course(v) == Course(w) && v.out == w.out[..from]
  {
    InvIsApart(w);
    UndoKeepsSlots(w, from, own);
    UndoKeepsLine(w, Moved(w, Undo(from), own), from);
    UndoKeepsInv(w, from, own);
  }

  lemma RejectKeepsOrder(w: Work, own: set<Req>)
    requires Listed(w) && Inv(w) && CanMove(w, Reject)
    ensures Inv(Moved(w, Reject, own))
    ensures var v := Moved(w, Reject, own); Listed(v) && Course(v) == Course(w)
  {
    InvIsApart(w);
    RejectKeepsSlots(w, own);
    RejectKeepsInv(w, own);
  }

  lemma RetireKeepsOrder(w: Work, own: set<Req>)
    requires Listed(w) && Inv(w) && CanMove(w, Retire) && |w.out| == 1
    ensures Inv(Moved(w, Retire, own))
    ensures var v := Moved(w, Retire, own);
            && Listed(v) && v.out == []
            && Course(w) == ReqsOf(v.ch.slots, v.ch.inProgress) + [ReqAt(w.ch.slots[w.out[0]])] + v.ch.deferred
  {
    hide ListsInv, AtomsInv, LedgerInv, QueueInv, CompsInv, Moved, Settles;
    var v := Moved(w, Retire, own);
    InvIsApart(w);
    InListIs(w.ch.slots, w.out, KChain, w.out[0]);
    RetireRetires(w, own);
    RetireKeepsSlots(w, v, v.ch.slots[w.out[0]]);
    RetireKeepsInv(w, own);
    assert Line(w) == [ReqAt(w.ch.slots[w.out[0]])] + w.ch.deferred;
  }

  /** Partial post failure preserves order and loses nothing: what is now in progress, then the
      one permanently bad request if any, then the new queue, is what was in progress followed
      by the old queue. */
  lemma SendKeepsOrder(s: Channel, x: Sending, own: set<Req>) returns (bad: seq<Req>)
    requires Good(s) && CanSend(s, x, own)
    ensures |bad| == if x.ending.Refused? then 1 else 0
    ensures var t := Sent(s, x, own);
            && InRange(s.inProgress, |s.slots|) && InRange(t.inProgress, |t.slots|)
            && ReqsOf(s.slots, s.inProgress) + s.deferred == ReqsOf(t.slots, t.inProgress) + bad + t.deferred
  {
    hide Inv, MovedAll, CanMoveAll, Moved, CanMove, ReqsOf, Line, Course;
    var t := Sent(s, x, own);
    SentKeepsGood(s, x, own);
    CourseAtRest(s);
    CourseAtRest(t);
    MovedSplit(Rest(s), x.body, x.Tail(), own);
    BodyKeepsOrder(Rest(s), x.body, own);
    var w := MovedAll(Rest(s), x.body, own);
    bad := [];
    match x.ending
    case AllPosted =>
      assert MovedAll(w, [], own) == w by { Unroll0(w, own); }
    case QueueFull =>
      Unroll1(w, Undo(0), own);
      UndoKeepsOrder(w, 0, own);
    case Refused =>
      Unroll3(w, Reject, Undo(1), Retire, own);
      var b := RefusedKeepsOrder(w, own);
      bad := [b];
  }

  lemma CourseAtRest(s: Channel)
    requires Good(s)
    ensures Listed(Rest(s)) && Course(Rest(s)) == ReqsOf(s.slots, s.inProgress) + s.deferred
  {
  }

  lemma Unroll0(w: Work, own: set<Req>)
    ensures CanMoveAll(w, [], own) && MovedAll(w, [], own) == w
  {
  }

  lemma Unroll1(w: Work, m: Move, own: set<Req>)
    requires CanMoveAll(w, [m], own)
    ensures CanMove(w, m) && MovedAll(w, [m], own) == Moved(w, m, own)
  {
  }

  lemma Unroll3(w: Work, m1: Move, m2: Move, m3: Move, own: set<Req>)
    requires CanMoveAll(w, [m1, m2, m3], own)
    ensures CanMove(w, m1) && CanMove(Moved(w, m1, own), m2) && CanMove(Moved(Moved(w, m1, own), m2, own), m3)
    ensures MovedAll(w, [m1, m2, m3], own) == Moved(Moved(Moved(w, m1, own), m2, own), m3, own)
  {
    hide CanMove, Moved;
    assert [m1, m2, m3][1..] == [m2, m3] && [m2, m3][1..] == [m3];
    Unroll1(Moved(Moved(w, m1, own), m2, own), m3, own);
  }

  lemma RefusedKeepsOrder(w: Work, own: set<Req>) returns (bad: Req)
    requires Listed(w) && Inv(w) && CanMove(w, Reject) && CanMove(Moved(w, Reject, own), Undo(1))
    requires CanMove(Moved(Moved(w, Reject, own), Undo(1), own), Retire)
    ensures var t := Moved(Moved(Moved(w, Reject, own), Undo(1), own), Retire, own);
            && Listed(t) && Inv(t)
            && Course(w) == ReqsOf(t.ch.slots, t.ch.inProgress) + [bad] + t.ch.deferred
  {
    hide Inv, Moved, Course, ReqsOf;
    var a := Moved(w, Reject, own);
    RejectKeepsOrder(w, own);
    var b := Moved(a, Undo(1), own);
    UndoKeepsOrder(a, 1, own);
    RetireKeepsOrder(b, own);
    bad := ReqAt(b.ch.slots[b.out[0]]);
  }

  /** With the spinlock free, no slot is left prepared but unposted, or in error. */
  lemma NoSlotLeftBehind(s: Channel, i: nat)
    requires Good(s) && i < |s.slots|
    ensures FreeSlot(s.slots[i]) || BusySlot(s.slots[i]) || DeadSlot(s.slots[i])
    ensures FreeSlot(s.slots[i]) <==> i in s.free
    ensures BusySlot(s.slots[i]) <==> i in s.inProgress
    ensures DeadSlot(s.slots[i]) <==> i in s.aborted
  {
    InvIsApart(Rest(s));
    InListIs(s.slots, s.free, KFree, i);
    InListIs(s.slots, s.inProgress, KBusy, i);
    InListIs(s.slots, s.aborted, KDead, i);
  }

  // ---------------------------------------------------------------- quiescence

  lemma {:induction false} IdleMoves(w: Work, ms: seq<Move>, own: set<Req>)
    requires w.out == [] && w.ch.deferred == [] && CanMoveAll(w, ms, own)
    ensures var w' := MovedAll(w, ms, own);
            w'.out == [] && w'.ch.deferred == [] && w'.ch.inProgress == w.ch.inProgress
    decreases |ms|
  {
    if ms != [] { IdleMoves(Moved(w, ms[0], own), ms[1..], own); }
  }

  lemma {:induction false} MovesKeepPaused(w: Work, ms: seq<Move>, own: set<Req>)
    requires CanMoveAll(w, ms, own)
    ensures MovedAll(w, ms, own).ch.paused == w.ch.paused
    decreases |ms|
  {
    if ms != [] { MovesKeepPaused(Moved(w, ms[0], own), ms[1..], own); }
  }

  /** Once paused a channel stays paused; a paused channel's queue, once empty, stays empty; and
      then its in-progress list, once empty, stays empty: no event refills either. */
  lemma QuietStays(s: Channel, e: Event)
    requires Good(s) && Allowed(s, e) && s.paused
    ensures Next(s, e).paused
    ensures s.deferred == [] ==> Next(s, e).deferred == []
    ensures s.deferred == [] && s.inProgress == [] ==> Next(s, e).inProgress == []
  {
    hide Inv, CanMoveAll, MovedAll;
    match e
    case ProcessDeferred(x) =>
      MovesKeepPaused(Rest(s), x.Moves(), {});
      if s.deferred == [] { IdleMoves(Rest(s), x.Moves(), {}); }
    case Complete(wc, dying, x) =>
      if !IgnoresWc(s, wc, dying) {
        LiveWc(s, wc, dying);
        var t := Completed(s, wc);
        MovesKeepPaused(Rest(t), x.Moves(), {});
        if s.deferred == [] { IdleMoves(Rest(t), x.Moves(), {}); }
      }
    case _ =>
  }

  lemma {:induction false} MovesKeepAccepted(w: Work, ms: seq<Move>)
    requires CanMoveAll(w, ms, {})
    ensures MovedAll(w, ms, {}).ch.accepted == w.ch.accepted
    decreases |ms|
  {
    hide Moved, CanMove;
    if ms != [] {
      MoveAccounts(w, ms[0], {});
      MovesKeepAccepted(Moved(w, ms[0], {}), ms[1..]);
    }
  }

  lemma CompletedAccepts(s: Channel, wc: Wc)
    requires wc.idx < |s.slots| && ReqAt(s.slots[wc.idx]) in s.comps && s.comps[ReqAt(s.slots[wc.idx])].nmcs.Ok()
    ensures Completed(s, wc).accepted == s.accepted
  {
    hide Delivered, ReqAt;
  }

  /** A paused channel takes no request, by whichever way. */
  lemma PausedTakesNothing(s: Channel, e: Event)
    requires Good(s) && Allowed(s, e) && s.paused
    ensures Next(s, e).accepted == s.accepted
  {
    hide Inv, CanMoveAll, MovedAll, Completed;
    match e
    case ProcessDeferred(x) => MovesKeepAccepted(Rest(s), x.Moves());
    case Complete(wc, dying, x) =>
      if !IgnoresWc(s, wc, dying) {
        LiveWc(s, wc, dying);
        CompletedAccepts(s, wc);
        MovesKeepAccepted(Rest(Completed(s, wc)), x.Moves());
      }
    case _ =>
  }

  lemma {:induction false} QuietForever(s: Channel, es: seq<Event>)
    requires Good(s) && Legal(s, es) && s.paused
    ensures Run(s, es).paused
    ensures s.deferred == [] ==> Run(s, es).deferred == []
    ensures s.deferred == [] && s.inProgress == [] ==> Run(s, es).inProgress == []
    ensures Run(s, es).accepted == s.accepted
    decreases |es|
  {
    hide Inv, Allowed, Next;
    if es != [] {
      QuietStays(s, es[0]);
      PausedTakesNothing(s, es[0]);
      NextKeepsGood(s, es[0]);
      QuietForever(Next(s, es[0]), es[1..]);
    }
  }

  lemma {:induction false} AfterDrain(s: Channel, es: seq<Event>, k: nat)
    requires Good(s) && Legal(s, es) && s.paused && s.deferred == [] && k < |es| && es[k].AbortInProgress?
    ensures Run(s, es).deferred == [] && Run(s, es).inProgress == []
    decreases |es|
  {
    hide Inv, Allowed;
    NextKeepsGood(s, es[0]);
    QuietStays(s, es[0]);
    if k == 0 { QuietForever(Next(s, es[0]), es[1..]); } else { AfterDrain(Next(s, es[0]), es[1..], k - 1); }
  }

  lemma {:induction false} AfterPause(s: Channel, es: seq<Event>, j: nat, k: nat)
    requires Good(s) && Legal(s, es) && s.paused && j < k < |es| && es[j].DrainAll? && es[k].AbortInProgress?
    ensures Run(s, es).deferred == [] && Run(s, es).inProgress == []
    decreases |es|
  {
    hide Inv, Allowed;
    NextKeepsGood(s, es[0]);
    QuietStays(s, es[0]);
    if j == 0 { AfterDrain(Next(s, es[0]), es[1..], k - 1); } else { AfterPause(Next(s, es[0]), es[1..], j - 1, k - 1); }
  }

  /** nvmeibc_disk_locks_abort_all_oprs pauses, drains and aborts in three separate critical
      sections. Whatever submissions, completions and sends run before, between and after them,
      nothing is deferred or in progress at the end, however long the run goes on. */
  lemma {:induction false} AbortReachesQuiescence(s: Channel, es: seq<Event>, i: nat, j: nat, k: nat)
    requires Good(s) && Legal(s, es)
    requires i < j < k < |es| && es[i].Pause? && es[j].DrainAll? && es[k].AbortInProgress?
    ensures Run(s, es).deferred == [] && Run(s, es).inProgress == []
    decreases |es|
  {
    hide Inv, Allowed;
    NextKeepsGood(s, es[0]);
    if i == 0 {
      AfterPause(Next(s, es[0]), es[1..], j - 1, k - 1);
    } else {
      AbortReachesQuiescence(Next(s, es[0]), es[1..], i - 1, j - 1, k - 1);
    }
  }

  // ---------------------------------------------------------------- expiry

  lemma UnexpiredTail(comps: map<Req, Comp>, d: seq<Req>, n: nat, now: nat, limit: nat)
    requires forall j | 0 <= j < |d| :: d[j] in comps
    requires Sorted(Times(comps, d)) && n < |d| && now <= comps[d[n]].deferredAt + limit
    ensures forall j | n <= j < |d| :: now <= comps[d[j]].deferredAt + limit
  {
    forall j | n <= j < |d| ensures comps[d[n]].deferredAt <= comps[d[j]].deferredAt {
      assert Times(comps, d)[n] <= Times(comps, d)[j];
    }
  }

  /** The expired-only drain stops at the first unexpired request, yet because the queue is
      sorted it takes every request that had expired when it began and none that has not by
      the time it ends. */
  lemma ExpiredDrainIsExact(s: Channel, n: nat, until: nat)
    requires Good(s) && Allowed(s, DrainExpired(n, until))
    ensures Known(s, s.deferred)
    ensures forall j | 0 <= j < |s.deferred| && s.now > s.comps[s.deferred[j]].deferredAt + s.cfg.maxLockTime :: j < n
    ensures forall j | 0 <= j < n :: until > s.comps[s.deferred[j]].deferredAt + s.cfg.maxLockTime
    ensures var t := Next(s, DrainExpired(n, until));
            s.deferred == s.deferred[..n] + t.deferred && t.awaiting == s.awaiting + s.deferred[..n]
  {
    hide Inv;
    var d := s.deferred;
    QueueAtRest(s);
    if n < |d| { UnexpiredTail(s.comps, d, n, s.now, s.cfg.maxLockTime); }
  }

  /** Once more than the lock time has passed, a drain takes everything that was waiting. */
  lemma NobodyWaitsLonger(s: Channel, d: nat, n: nat, until: nat)
    requires Good(s) && d > s.cfg.maxLockTime
    requires Good(Next(s, Tick(d))) && Allowed(Next(s, Tick(d)), DrainExpired(n, until))
    ensures n == |s.deferred| && Next(Next(s, Tick(d)), DrainExpired(n, until)).deferred == []
  {
    hide Inv;
    QueueAtRest(s);
  }

  lemma QueueAtRest(s: Channel)
    requires Good(s)
    ensures Known(s, s.deferred) && Sorted(Times(s.comps, s.deferred))
    ensures forall j | 0 <= j < |s.deferred| :: s.comps[s.deferred[j]].deferredAt <= s.now
  {
    assert Line(Rest(s)) == s.deferred;
  }
}
