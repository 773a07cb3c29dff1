/** The lock channel as the driver keeps it: slots and lists updated in place, under the channel
    spinlock, by the routines the event machine of LockRuns describes. Every entry point is proved
    to be an event, or a run of events, of that machine, so the theorems about its runs hold of it. */
module LockChannel {
  import opened LockEntry
  import opened LockEngine
  import opened LockInvariant
  import opened LockRuns

  // ---------------------------------------------------------------- joining moves

  lemma {:induction false} MovedJoin(w: Work, a: seq<Move>, b: seq<Move>, own: set<Req>)
    requires CanMoveAll(w, a, own) && CanMoveAll(MovedAll(w, a, own), b, own)
    ensures CanMoveAll(w, a + b, own) && MovedAll(w, a + b, own) == MovedAll(MovedAll(w, a, own), b, own)
    decreases |a|
  {
    if a == [] {
      assert a + b == b;
    } else {
      assert (a + b)[1..] == a[1..] + b;
      MovedJoin(Moved(w, a[0], own), a[1..], b, own);
    }
  }

  lemma MovedOneMore(w: Work, a: seq<Move>, m: Move, own: set<Req>)
    requires CanMoveAll(w, a, own) && CanMove(MovedAll(w, a, own), m)
    ensures CanMoveAll(w, a + [m], own) && MovedAll(w, a + [m], own) == Moved(MovedAll(w, a, own), m, own)
  {
    MovedJoin(w, a, [m], own);
  }

  lemma ChainIsLive(w: Work)
    requires Inv(w)
    ensures forall j | 0 <= j < |w.out| :: w.out[j] < |w.ch.slots| && w.ch.slots[w.out[j]].comp.Live?
  {
  }

  /** The sums and signs the source checks with BUG_ON. */
  lemma Sums(w: Work)
    requires Inv(w)
    ensures w.ch.numFree == |w.ch.free| && w.ch.numDeferred == |w.ch.deferred| && w.ch.numInProgress == |w.ch.inProgress|
    ensures w.ch.numInProgress + w.ch.numFree + w.ch.numAborted + |w.out| == |w.ch.slots|
    ensures InRange(w.ch.free, |w.ch.slots|) && InRange(w.out, |w.ch.slots|) && InRange(w.ch.inProgress, |w.ch.slots|)
    ensures Distinct(w.out)
  {
    InvIsApart(w);
  }

  lemma HeadIsKnown(w: Work)
    requires Inv(w) && w.ch.deferred != []
    ensures w.ch.deferred[0] in w.ch.comps
  {
    assert Line(w)[|w.out|] == w.ch.deferred[0];
  }

  function Posts(n: nat): seq<Move> {
    if n == 0 then [] else Posts(n - 1) + [Post]
  }

  lemma {:induction false} PostsOk(n: nat)
    ensures Sending(Posts(n), AllPosted).Ok()
  {
    if n != 0 { PostsOk(n - 1); }
  }

  lemma PostNone(w: Work, own: set<Req>)
    ensures CanMoveAll(w, Posts(0), own) && MovedAll(w, Posts(0), own) == w
  {
  }

  /** After the first i work requests of the chain were posted, posting the next one. */
  lemma PostNext(w: Work, i: nat, s: Channel, chain: seq<nat>, own: set<Req>)
    requires i < |chain| && Inv(Work(s, chain[i..]))
    requires CanMoveAll(w, Posts(i), own) && Work(s, chain[i..]) == MovedAll(w, Posts(i), own)
    ensures chain[i] < |s.slots| && s.numInProgress >= 0
    ensures CanMoveAll(w, Posts(i + 1), own)
    ensures Work(StartOne(s, chain[i]), chain[i + 1..]) == MovedAll(w, Posts(i + 1), own)
    ensures Inv(Work(StartOne(s, chain[i]), chain[i + 1..]))
    ensures StartOne(s, chain[i]).deferred == s.deferred && StartOne(s, chain[i]).free == s.free
  {
    hide Inv, CanMoveAll, MovedAll;
    var v := Work(s, chain[i..]);
    Sums(v);
    assert chain[i] == v.out[0] && chain[i..][1..] == chain[i + 1..];
    MovedOneMore(w, Posts(i), Post, own);
    MoveKeepsInv(v, Post, own);
  }

  /** What lock_prepare_and_send itself does about the answer; a refused slot is left to its
      caller. */
  function Clean(answer: Ending): seq<Move> {
    match answer
    case AllPosted => []
    case QueueFull => [Undo(0)]
    case Refused => [Reject, Undo(1)]
  }

  function Left(badOp: int): seq<nat>
    requires -1 <= badOp
  {
    if badOp == -1 then [] else [badOp]
  }

  /** The sending x, apart from the clean-up left to the caller, leads from w to w'. */
  ghost predicate Reaches(w: Work, x: Sending, w': Work, own: set<Req>) {
    x.Ok() && CanMoveAll(w, x.body + Clean(x.ending), own) && w' == MovedAll(w, x.body + Clean(x.ending), own)
  }

  lemma ReachesStart(w: Work, own: set<Req>)
    ensures Reaches(w, Sending([], AllPosted), w, own)
  {
    assert [] + Clean(AllPosted) == [];
  }

  lemma ReachesTake(w0: Work, x: Sending, w: Work, own: set<Req>)
    requires x.ending.AllPosted? && Reaches(w0, x, w, own) && CanMove(w, Take)
    ensures Reaches(w0, Sending(x.body + [Take], AllPosted), Moved(w, Take, own), own)
  {
    hide CanMove, Moved;
    assert x.body + [] == x.body && (x.body + [Take]) + [] == x.body + [Take];
    MovedOneMore(w0, x.body, Take, own);
  }

  lemma ReachesSend(w0: Work, x: Sending, w: Work, n: nat, answer: Ending, own: set<Req>)
    requires x.ending.AllPosted? && Reaches(w0, x, w, own) && CanMoveAll(w, Posts(n) + Clean(answer), own)
    ensures Reaches(w0, Sending(x.body + Posts(n), answer), MovedAll(w, Posts(n) + Clean(answer), own), own)
  {
    hide CanMoveAll, MovedAll, Posts;
    assert x.body + [] == x.body;
    assert x.body + (Posts(n) + Clean(answer)) == (x.body + Posts(n)) + Clean(answer);
    MovedJoin(w0, x.body, Posts(n) + Clean(answer), own);
    PostsOk(n);
  }

  /** The request being submitted, if any. */
  function Own(self: int): set<Req> { if self < 0 then {} else {self} }

  predicate Quiet(ms: seq<Move>) { forall j | 0 <= j < |ms| :: !ms[j].Retire? }

  lemma {:induction false} QuietMoves(w: Work, ms: seq<Move>, own: set<Req>)
    requires CanMoveAll(w, ms, own) && Quiet(ms)
    ensures MovedAll(w, ms, own).ch.accepted == w.ch.accepted && MovedAll(w, ms, own).ch.paused == w.ch.paused
    decreases |ms|
  {
    if ms != [] { QuietMoves(Moved(w, ms[0], own), ms[1..], own); }
  }

  lemma ReachesKeepsAccounts(w: Work, x: Sending, w': Work, own: set<Req>)
    requires Reaches(w, x, w', own)
    ensures w'.ch.accepted == w.ch.accepted && w'.ch.paused == w.ch.paused
  {
    hide CanMoveAll, MovedAll;
    assert Quiet(x.body + Clean(x.ending));
    QuietMoves(w, x.body + Clean(x.ending), own);
  }

  lemma BadIsKnown(w: Work)
    requires Inv(w) && |w.out| == 1
    ensures w.out[0] < |w.ch.slots| && w.ch.slots[w.out[0]].comp.Live? && w.out[0] !in w.ch.inProgress
    ensures CanMove(w, Retire)
  {
    hide AtomsInv, LedgerInv, CompsInv;
    InvIsApart(w);
    assert w.out[0] in w.out;
    assert Line(w)[0] == ReqAt(w.ch.slots[w.out[0]]);
  }

  lemma ReachesRetire(s: Channel, x: Sending, w: Work, own: set<Req>)
    requires Reaches(Rest(s), x, w, own) && x.ending.Refused? && Inv(w) && CanMove(w, Retire) && |w.out| == 1
    ensures CanSend(s, x, own) && Inv(Moved(w, Retire, own)) && Moved(w, Retire, own) == Work(Sent(s, x, own), [])
  {
    hide Inv, CanMoveAll, MovedAll, CanMove, FreeOpr, Settle;
    MoveKeepsInv(w, Retire, own);
    MovedOneMore(Rest(s), x.body + Clean(x.ending), Retire, own);
    assert x.Moves() == (x.body + Clean(x.ending)) + [Retire];
  }

  lemma ReachesEnd(s: Channel, x: Sending, w: Work, own: set<Req>)
    requires Reaches(Rest(s), x, w, own) && !x.ending.Refused? && w.out == []
    ensures CanSend(s, x, own) && w == Work(Sent(s, x, own), [])
  {
    hide CanMoveAll, MovedAll;
    assert x.Moves() == x.body + Clean(x.ending);
  }

  lemma PostedIsEvent(s: Channel, r: Req, opr: Opr, compare: u32, x: Sending)
    requires Good(s) && Listed(Rest(s)) && !s.paused && r !in Owed(Rest(s)) && CanSend(Enqueue(s, r, opr, compare), x, {r})
    ensures Allowed(s, SubmitPosted(r, opr, compare, x))
    ensures Next(s, SubmitPosted(r, opr, compare, x)) == Sent(Enqueue(s, r, opr, compare), x, {r})
  {
    hide Inv, CanSend, Sent, Owed, Enqueue;
  }

  lemma FreeOprKeeps(s: Channel, i: nat)
    requires i < |s.slots|
    ensures var t := FreeOpr(s, i, true);
            && t.comps == s.comps && t.deferred == s.deferred && t.numDeferred == s.numDeferred
            && t.called == s.called && t.paused == s.paused && t.now == s.now
  {
  }

  lemma ListIsLive(w: Work, i: nat)
    requires Inv(w) && i in w.ch.inProgress
    ensures i < |w.ch.slots| && w.ch.slots[i].comp.Live?
  {
  }

  lemma RunNone(s: Channel)
    requires Good(s)
    ensures Legal(s, []) && Run(s, []) == s
  {
  }

  lemma CallBackNext(s: Channel, es: seq<Event>, t: Channel, k: nat)
    requires Good(s) && Legal(s, es) && t == Run(s, es) && Good(t) && k < |t.awaiting|
    ensures t.awaiting[k] in t.comps && Good(CalledBack(t, k))
    ensures Legal(s, es + [CallBack(k)]) && Run(s, es + [CallBack(k)]) == CalledBack(t, k)
  {
    hide Inv, Run, Legal, CalledBack;
    CalledBackKeepsGood(t, k);
    RunOne(t, CallBack(k));
    RunJoin(s, es, [CallBack(k)]);
  }

  /** Taking the next request of the caller's list off the awaiting ones. */
  lemma CutLater(awaiting: seq<Req>, pre: seq<Req>, list: seq<Req>, post: seq<Req>, i: nat)
    requires i < |list| && awaiting == pre + (list[i..] + post)
    ensures |pre| < |awaiting| && awaiting[|pre|] == list[i]
    ensures awaiting[..|pre|] + awaiting[|pre| + 1..] == pre + (list[i + 1..] + post)
    ensures multiset(list[..i + 1]) == multiset(list[..i]) + multiset{list[i]}
  {
    assert list[..i + 1] == list[..i] + [list[i]];
    assert list[i..] == [list[i]] + list[i + 1..];
    assert awaiting == pre + ([list[i]] + (list[i + 1..] + post));
  }

  lemma Cancel(a: multiset<Req>, e: multiset<Req>, b: multiset<Req>, q: multiset<Req>, c: multiset<Req>)
    requires a + (e + c) == b + (q + c) && e == multiset{}
    ensures a == b + q
  {
    forall x: Req ensures a[x] == (b + q)[x] { assert (a + (e + c))[x] == (b + (q + c))[x]; }
  }

  lemma Ledger(s: Channel)
    requires Good(s)
    ensures Listed(Rest(s)) && s.accepted == s.called + (Queued(Rest(s)) + multiset(s.awaiting))
  {
  }

  /** When nothing is queued or in progress any more, everything that was has been called back. */
  lemma AllCalled(s: Channel, t: Channel)
    requires Good(s) && Good(t) && t.accepted == s.accepted && t.awaiting == s.awaiting
    requires t.deferred == [] && t.inProgress == []
    ensures Listed(Rest(s)) && t.called == s.called + Queued(Rest(s))
  {
    hide Inv;
    Ledger(s);
    Ledger(t);
    assert Queued(Rest(t)) == multiset{};
    hide Queued;
    Cancel(t.called, Queued(Rest(t)), s.called, Queued(Rest(s)), multiset(s.awaiting));
  }

  /** The requests of the list, and no others, have been given the status FailComp. */
  ghost predicate AllFailed(was: map<Req, Comp>, now: map<Req, Comp>, list: seq<Req>) {
    && now.Keys == was.Keys
    && forall q | q in was :: now[q] == if q in list then was[q].(status := FailComp) else was[q]
  }

  lemma FailedNone(comps: map<Req, Comp>)
    ensures AllFailed(comps, comps, [])
  {
  }

  lemma FailedAlso(was: map<Req, Comp>, now: map<Req, Comp>, list: seq<Req>, r: Req)
    requires AllFailed(was, now, list) && r in now
    ensures AllFailed(was, now[r := now[r].(status := FailComp)], list + [r])
  {
  }

  lemma FailedMore(was: map<Req, Comp>, now: map<Req, Comp>, list: seq<Req>, i: nat)
    requires i < |list| && AllFailed(was, now, list[..i]) && list[i] in now
    ensures AllFailed(was, now[list[i] := now[list[i]].(status := FailComp)], list[..i + 1])
  {
    assert list[..i + 1] == list[..i] + [list[i]];
    FailedAlso(was, now, list[..i], list[i]);
  }

  lemma FailedAll(was: map<Req, Comp>, now: map<Req, Comp>, list: seq<Req>)
    requires AllFailed(was, now, list) && forall j | 0 <= j < |list| :: list[j] in was
    ensures forall r | r in list :: r in now && now[r].status.FailComp?
  {
  }

  /** The first i requests of the list have been called back. */
  ghost predicate FailedTo(s: Channel, t: Channel, pre: seq<Req>, list: seq<Req>, post: seq<Req>, i: nat)
    requires i <= |list|
  {
    && t.awaiting == pre + (list[i..] + post) && t.called == s.called + multiset(list[..i])
    && AllFailed(s.comps, t.comps, list[..i])
  }

  lemma FailStarts(s: Channel, pre: seq<Req>, list: seq<Req>, post: seq<Req>)
    requires s.awaiting == pre + (list + post)
    ensures FailedTo(s, s, pre, list, post, 0)
  {
    assert list[0..] == list && list[..0] == [];
  }

  lemma FailNext(s: Channel, es: seq<Event>, t: Channel, pre: seq<Req>, list: seq<Req>, post: seq<Req>, i: nat)
    requires Good(s) && Legal(s, es) && t == Run(s, es) && Good(t) && i < |list| && FailedTo(s, t, pre, list, post, i)
    ensures |pre| < |t.awaiting| && t.awaiting[|pre|] == list[i] && list[i] in t.comps
    ensures Good(CalledBack(t, |pre|)) && FailedTo(s, CalledBack(t, |pre|), pre, list, post, i + 1)
    ensures Legal(s, es + [CallBack(|pre|)]) && Run(s, es + [CallBack(|pre|)]) == CalledBack(t, |pre|)
  {
    hide Inv, Run, Legal, AllFailed;
    CutLater(t.awaiting, pre, list, post, i);
    CallBackNext(s, es, t, |pre|);
    FailedMore(s.comps, t.comps, list, i);
  }

  lemma FailEnds(s: Channel, t: Channel, pre: seq<Req>, list: seq<Req>, post: seq<Req>)
    requires Good(s) && s.awaiting == pre + (list + post) && FailedTo(s, t, pre, list, post, |list|)
    ensures t.awaiting == pre + post && t.called == s.called + multiset(list) && AllFailed(s.comps, t.comps, list)
    ensures forall r | r in list :: r in t.comps && t.comps[r].status.FailComp?
  {
    hide Inv;
    assert list[..|list|] == list && list[|list|..] == [];
    forall j | 0 <= j < |list| ensures list[j] in s.comps {
      CalledBackKeepsGood(s, |pre| + j);
      assert s.awaiting[|pre| + j] == list[j];
    }
    FailedAll(s.comps, t.comps, list);
  }

  lemma FailedTwice(a: map<Req, Comp>, b: map<Req, Comp>, c: map<Req, Comp>, list: seq<Req>)
    requires AllFailed(a, b, list) && AllFailed(b, c, list)
    ensures AllFailed(a, c, list)
  {
  }

  /** Everything queued was failed in the drain, and everything in progress by the abort. */
  lemma BothFailed(s: Channel, between: map<Req, Comp>, now: map<Req, Comp>, flying: seq<Req>)
    requires Listed(Rest(s)) && flying == ReqsOf(s.slots, s.inProgress) && AllFailed(between, now, flying)
    requires forall r | r in s.deferred :: r in between && between[r].status.FailComp?
    requires forall r | r in flying :: r in now && now[r].status.FailComp?
    ensures forall r | r in Queued(Rest(s)) :: r in now && now[r].status.FailComp?
  {
    forall r | r in Queued(Rest(s)) ensures r in now && now[r].status.FailComp? {
      assert ReqsOf(s.slots, []) == [];
      assert (r in multiset(s.deferred) <==> r in s.deferred) && (r in multiset(flying) <==> r in flying);
    }
  }

  /** The requests in l had waited longer than the limit by the end of the drain, and those in rest
      had not at its beginning. */
  predicate InTime(comps: map<Req, Comp>, l: seq<Req>, rest: seq<Req>, limit: nat, from: nat, until: nat) {
    && (forall j | 0 <= j < |l| :: l[j] in comps && until > comps[l[j]].deferredAt + limit)
    && (forall j | 0 <= j < |rest| :: rest[j] in comps && from <= comps[rest[j]].deferredAt + limit)
  }

  /** Taking the whole queue is a step. */
  lemma DrainIsWhole(s: Channel)
    requires Good(s)
    ensures Allowed(s, DrainAll) && Good(Next(s, DrainAll))
    ensures Next(s, DrainAll) == s.(deferred := [], numDeferred := 0, awaiting := s.awaiting + s.deferred)
  {
    hide Inv;
    NextKeepsGood(s, DrainAll);
    Sums(Rest(s));
    assert s.deferred[|s.deferred|..] == [] && s.deferred[..|s.deferred|] == s.deferred;
  }

  /** Taking a head that has expired, up to a request that had not, is a step. */
  lemma DrainIsInTime(s: Channel, n: nat, until: nat)
    requires Good(s) && Known(s, s.deferred) && n <= |s.deferred| && s.now <= until
    requires forall j | 0 <= j < n :: until > s.comps[s.deferred[j]].deferredAt + s.cfg.maxLockTime
    requires n < |s.deferred| ==> s.now <= s.comps[s.deferred[n]].deferredAt + s.cfg.maxLockTime
    ensures Allowed(s, DrainExpired(n, until)) && Good(Next(s, DrainExpired(n, until)))
    ensures Next(s, DrainExpired(n, until))
         == s.(deferred := s.deferred[n..], numDeferred := s.numDeferred - n, awaiting := s.awaiting + s.deferred[..n], now := until)
    ensures InTime(s.comps, s.deferred[..n], s.deferred[n..], s.cfg.maxLockTime, s.now, until)
  {
    hide Inv;
    NextKeepsGood(s, DrainExpired(n, until));
    ExpiredDrainIsExact(s, n, until);
  }

  /** Aborting the first operation in progress takes its request off the front. */
  lemma AbortedHead(s: Channel, list: seq<Req>)
    requires Good(s) && Listed(Rest(s)) && s.inProgress != []
    requires s.inProgress[0] < |s.slots| && ReqAt(s.slots[s.inProgress[0]]) in s.comps
    ensures var t := AbortedOne(s);
            && Listed(Rest(t))
            && (list + [ReqAt(s.slots[s.inProgress[0]])]) + ReqsOf(t.slots, t.inProgress) == list + ReqsOf(s.slots, s.inProgress)
  {
    hide Inv, ReqsOf;
    var t, i := AbortedOne(s), s.inProgress[0];
    assert Distinct(s.inProgress) by { Sums(Rest(s)); BusyIsDistinct(s); }
    AbortedSlots(s);
    UnlinkHead(s.inProgress);
    TailReqs(s.slots, t.slots, s.inProgress);
    assert (list + [ReqAt(s.slots[i])]) + ReqsOf(t.slots, t.inProgress) == list + ([ReqAt(s.slots[i])] + ReqsOf(t.slots, t.inProgress));
  }

  lemma BusyIsDistinct(s: Channel)
    requires Good(s)
    ensures Distinct(s.inProgress)
  {
    InvIsApart(Rest(s));
  }

  lemma AbortedSlots(s: Channel)
    requires s.inProgress != [] && s.inProgress[0] < |s.slots| && ReqAt(s.slots[s.inProgress[0]]) in s.comps
    ensures var t := AbortedOne(s);
            && t.inProgress == Unlink(s.inProgress, s.inProgress[0]) && |t.slots| == |s.slots|
            && forall j | 0 <= j < |s.slots| && j != s.inProgress[0] :: t.slots[j] == s.slots[j]
  {
    hide Unlink;
  }

  lemma TailReqs(a: seq<Slot>, b: seq<Slot>, l: seq<nat>)
    requires l != [] && Distinct(l) && InRange(l, |a|) && |b| == |a|
    requires forall j | 0 <= j < |a| && j != l[0] :: b[j] == a[j]
    ensures InRange(l[1..], |b|) && ReqsOf(a, l) == [ReqAt(a[l[0]])] + ReqsOf(b, l[1..])
  {
    assert forall j | 0 <= j < |l[1..]| :: l[1..][j] == l[j + 1] != l[0];
  }

  lemma UnlinkHead(l: seq<nat>)
    requires l != []
    ensures Unlink(l, l[0]) == l[1..]
  {
    assert l[0] in l && IndexOf(l, l[0]) == 0;
  }

  lemma NoneLeft(s: Channel, list: seq<Req>)
    requires Listed(Rest(s)) && s.inProgress == []
    ensures list + ReqsOf(s.slots, s.inProgress) == list
  {
  }

  /** The channel after k of the slots in l have been given back, their requests kept aside. */
  function HalfBack(s: Channel, l: seq<nat>, k: nat): Channel
    requires k <= |l|
  {
    s.(slots := BackSlots(s.slots, l[..k]), free := s.free + l[..k], numFree := s.numFree + k)
  }

  lemma BackOneMore(s: Channel, l: seq<nat>, k: nat)
    requires k < |l| && InRange(l, |s.slots|) && Distinct(l)
    ensures var h := HalfBack(s, l, k);
            && |h.slots| == |s.slots| && h.slots[l[k]] == s.slots[l[k]]
            && HalfBack(s, l, k + 1) == h.(slots := h.slots[l[k] := s.slots[l[k]].(comp := NoComp, state := InFreeList)],
                                           free := h.free + [l[k]], numFree := h.numFree + 1)
            && ReqsOf(s.slots, l)[..k + 1] == ReqsOf(s.slots, l)[..k] + [ReqAt(s.slots[l[k]])]
  {
    assert l[..k + 1] == l[..k] + [l[k]];
    assert l[k] !in l[..k];
    assert HalfBack(s, l, k + 1).slots == HalfBack(s, l, k).slots[l[k] := s.slots[l[k]].(comp := NoComp, state := InFreeList)];
  }

  /** Giving the rest of a chain back leaves its first slot as it is. */
  lemma BackSpares(s: Channel, l: seq<nat>)
    requires l != [] && Distinct(l) && InRange(l, |s.slots|)
    ensures InRange(l[1..], |s.slots|) && |GiveBack(s, l[1..]).slots| == |s.slots|
    ensures GiveBack(s, l[1..]).slots[l[0]] == s.slots[l[0]]
  {
    assert l[0] !in l[1..];
  }

  lemma BackNone(s: Channel, l: seq<nat>)
    ensures HalfBack(s, l, 0) == s
  {
    assert BackSlots(s.slots, l[..0]) == s.slots;
  }

  lemma BackAll(s: Channel, l: seq<nat>)
    requires InRange(l, |s.slots|)
    ensures var h := HalfBack(s, l, |l|); h.deferred == s.deferred && h.numDeferred == s.numDeferred
    ensures GiveBack(s, l) == HalfBack(s, l, |l|).(deferred := ReqsOf(s.slots, l) + s.deferred, numDeferred := s.numDeferred + |l|)
  {
    assert l[..|l|] == l;
  }

  /** Whether local bypass serves this kind of request, and what it returned. */
  datatype Bypass = NotUsed | BypassFailed | BypassDone

  class LocksChannel {
    const cfg: Config
    const slots: array<Slot>
    var deferred: seq<Req>
    var inProgress: seq<nat>
    var free: seq<nat>
    var aborted: seq<nat>
    var numDeferred: int
    var numInProgress: int
    var numFree: int
    var numAborted: int
    var numAtomRead: int
    var paused: bool
    var comps: map<Req, Comp>
    var jiffies: nat
    ghost var awaiting: seq<Req>
    ghost var accepted: multiset<Req>
    ghost var called: multiset<Req>

    ghost function View(): Channel
      reads this, slots
    {
      Channel(cfg, slots[..], deferred, inProgress, free, aborted, numDeferred, numInProgress, numFree, numAborted,
              numAtomRead, paused, comps, jiffies, awaiting, accepted, called)
    }

    /** The channel as locks_channel_try_connect leaves it: n slots, all free. */
    constructor (config: Config, n: nat, time: nat)
      ensures Idle(View()) && slots.Length == n && !paused && cfg == config && fresh(slots)
    {
      cfg := config;
      slots := new Slot[n](_ => IDLE_SLOT);
      deferred, inProgress, free, aborted := [], [], seq(n, i requires 0 <= i < n => i), [];
      numDeferred, numInProgress, numFree, numAborted, numAtomRead := 0, 0, n, 0, 0;
      paused, comps, jiffies := false, map[], time;
      awaiting, accepted, called := [], multiset{}, multiset{};
      new;
      AllFree(n);
      IdleIsGood(View());
    }

    // -------------------------------------------------------------- single operations

    method GetFreeOprIp() returns (i: int)
      requires numFree == |free|
      modifies this
      ensures old(free) == [] ==> i == -1 && View() == old(View())
      ensures old(free) != [] ==> i == old(free)[0] && View() == old(View()).(free := old(free)[1..], numFree := old(numFree) - 1)
    {
      i := -1;
      if free != [] {
        i := free[0];
        free := free[1..];
        assert numFree > 0;
        numFree := numFree - 1;
      }
    }

    method LockOprPrepare(i: nat, r: Req)
      requires i < slots.Length && r in comps
      modifies slots
      ensures View() == old(View()).(slots := old(slots[..])[i := PreparedSlot(old(View()), i, r)])
    {
      slots[i] := slots[i].(comp := Live(r), opcode := OpcodeFor(cfg, comps[r].opr), state := Preparing);
    }

    method SetOprInProgress(i: nat)
      requires i < slots.Length && numInProgress >= 0
      modifies this, slots
      ensures View() == StartOne(old(View()), i) && unchanged(`deferred, `free)
    {
      inProgress := inProgress + [i];
      slots[i] := slots[i].(state := InProgress);
      numInProgress := numInProgress + 1;
      if !slots[i].opcode.OpWrite? {
        numAtomRead := numAtomRead + 1;
      }
    }

    method LocksFreeOpr(i: nat, counted: bool)
      requires i < slots.Length && (counted ==> numInProgress > 0)
      requires !counted ==> i !in inProgress
      modifies this, slots
      ensures View() == FreeOpr(old(View()), i, counted) && unchanged(`comps, `accepted, `called, `paused)
    {
      inProgress := Unlink(inProgress, i);
      if counted {
        numInProgress := numInProgress - 1;
        if !slots[i].opcode.OpWrite? {
          numAtomRead := numAtomRead - 1;
        }
      }
      ghost var s1 := View();
      assert s1 == if counted then OffProgress(old(View()), i) else old(View());
      ParkSlot(i);
    }

    method ParkSlot(i: nat)
      requires i < slots.Length
      modifies this, slots
      ensures View() == Park(old(View()), i) && unchanged(`comps, `accepted, `called, `paused)
    {
      if !slots[i].aborted {
        slots[i] := slots[i].(version := (slots[i].version + 1) % VERSIONS, comp := Poison, state := InFreeList);
        free := free + [i];
        numFree := numFree + 1;
      } else {
        slots[i] := slots[i].(state := Aborted);
        aborted := aborted + [i];
        numAborted := numAborted + 1;
      }
    }

    // -------------------------------------------------------------- lock_prepare_and_send

    /** The device's answer to a chain of work requests: all accepted, or the position of the one
        it could not take, because its queue is full or for good. */
    method PostSend(chain: seq<nat>) returns (answer: Ending, bad: nat)
      requires chain != []
      ensures !answer.AllPosted? ==> bad < |chain|
    {
      bad :| bad < |chain|;
      if * {
        answer := AllPosted;
      } else if * {
        answer := QueueFull;
      } else {
        answer := Refused;
      }
    }

    method StartPosted(chain: seq<nat>, n: nat, ghost own: set<Req>)
      requires n <= |chain| && Inv(Work(View(), chain))
      modifies this, slots
      ensures CanMoveAll(Work(old(View()), chain), Posts(n), own)
      ensures Work(View(), chain[n..]) == MovedAll(Work(old(View()), chain), Posts(n), own)
      ensures Inv(Work(View(), chain[n..])) && unchanged(`deferred, `free)
    {
      hide Inv, StartOne, CanMoveAll, MovedAll, Posts;
      ghost var w := Work(View(), chain);
      PostNone(w, own);
      assert chain[0..] == chain;
      for i := 0 to n
        invariant Inv(Work(View(), chain[i..])) && unchanged(`deferred, `free)
        invariant CanMoveAll(w, Posts(i), own) && Work(View(), chain[i..]) == MovedAll(w, Posts(i), own)
      {
        PostNext(w, i, View(), chain, own);
        SetOprInProgress(chain[i]);
      }
    }

    method FreeOprIp(i: nat) returns (r: Req)
      requires i < slots.Length && slots[i].comp.Live?
      modifies this, slots
      ensures r == ReqAt(old(slots[i]))
      ensures View() == old(View()).(slots := old(slots[..])[i := old(slots[i]).(comp := NoComp, state := InFreeList)],
                                     free := old(free) + [i], numFree := old(numFree) + 1)
    {
      r := slots[i].comp.req;
      slots[i] := slots[i].(comp := NoComp, state := InFreeList);
      free := free + [i];
      numFree := numFree + 1;
    }

    /** Work requests the device did not take: their slots are freed and their requests spliced
        back at the head of the queue in their original order. */
    method ReturnUnposted(l: seq<nat>)
      requires InRange(l, slots.Length) && Distinct(l)
      requires forall j | 0 <= j < |l| :: slots[l[j]].comp.Live?
      modifies this, slots
      ensures View() == GiveBack(old(View()), l)
    {
      hide HalfBack, GiveBack;
      ghost var was := View();
      var retry: seq<Req> := [];
      BackNone(was, l);
      for k := 0 to |l|
        invariant View() == HalfBack(was, l, k)
        invariant retry == ReqsOf(was.slots, l)[..k]
      {
        BackOneMore(was, l, k);
        var r := FreeOprIp(l[k]);
        retry := retry + [r];
      }
      BackAll(was, l);
      assert retry == ReqsOf(was.slots, l);
      deferred := retry + deferred;
      numDeferred := numDeferred + |retry|;
    }

    /** Takes a free slot and the first deferred request and builds the work request. */
    method PrepareNext(ghost chain: seq<nat>, ghost own: set<Req>) returns (i: int)
      requires Inv(Work(View(), chain)) && deferred != [] && HasRoom(View()) && |chain| < WR_PER_MSG
      modifies this, slots
      ensures old(free) == [] ==> i == -1 && View() == old(View())
      ensures old(free) != [] ==>
                && i == old(free)[0] && deferred == old(deferred)[1..]
                && CanMove(Work(old(View()), chain), Take)
                && Work(View(), chain + [i]) == Moved(Work(old(View()), chain), Take, own)
                && Inv(Work(View(), chain + [i]))
      ensures cfg.caps.atomic ==> numAtomRead == old(numAtomRead)
    {
      hide Inv, ReqsOf;
      ghost var w := Work(View(), chain);
      Sums(w);
      i := GetFreeOprIp();
      if i >= 0 {
        HeadIsKnown(w);
        var r := deferred[0];
        deferred := deferred[1..];
        assert numDeferred > 0;
        numDeferred := numDeferred - 1;
        LockOprPrepare(i, r);
        MoveKeepsInv(w, Take, own);
        assert Work(View(), chain + [i]) == Moved(w, Take, own);
      }
    }

    /** The send queue was full: nothing from here on was posted. */
    method RequeueRest(l: seq<nat>, ghost own: set<Req>)
      requires Inv(Work(View(), l))
      modifies this, slots
      ensures CanMove(Work(old(View()), l), Undo(0)) && Work(View(), []) == Moved(Work(old(View()), l), Undo(0), own)
      ensures Inv(Work(View(), []))
    {
      hide Inv, GiveBack;
      ghost var w := Work(View(), l);
      Sums(w);
      ChainIsLive(w);
      assert l[0..] == l && l[..0] == [];
      MoveKeepsInv(w, Undo(0), own);
      ReturnUnposted(l);
    }

    /** The first work request was refused for good; the rest were not posted. */
    method RejectFirst(l: seq<nat>, ghost own: set<Req>)
      requires l != [] && Inv(Work(View(), l))
      modifies this, slots
      ensures CanMove(Work(old(View()), l), Reject) && CanMove(Moved(Work(old(View()), l), Reject, own), Undo(1))
      ensures Work(View(), [l[0]]) == Moved(Moved(Work(old(View()), l), Reject, own), Undo(1), own)
      ensures Inv(Work(View(), [l[0]])) && l[0] < slots.Length && slots[l[0]].state.Error?
    {
      hide Inv, GiveBack;
      ghost var w := Work(View(), l);
      Sums(w);
      MoveKeepsInv(w, Reject, own);
      slots[l[0]] := slots[l[0]].(state := Error);
      ghost var v := Work(View(), l);
      assert v == Moved(w, Reject, own);
      Sums(v);
      ChainIsLive(v);
      MoveKeepsInv(v, Undo(1), own);
      assert l[..1] == [l[0]];
      BackSpares(View(), l);
      ReturnUnposted(l[1..]);
    }

    /** Posts a chain and deals with each of the device's answers. */
    method SendChain(chain: seq<nat>, ghost own: set<Req>) returns (answer: Ending, badOp: int, ghost n: nat)
      requires chain != [] && Inv(Work(View(), chain))
      modifies this, slots
      ensures n <= |chain| && (badOp == -1 <==> !answer.Refused?) && -1 <= badOp < slots.Length
      ensures badOp >= 0 ==> slots[badOp].state.Error?
      ensures CanMoveAll(Work(old(View()), chain), Posts(n) + Clean(answer), own)
      ensures Work(View(), Left(badOp)) == MovedAll(Work(old(View()), chain), Posts(n) + Clean(answer), own)
      ensures Inv(Work(View(), Left(badOp)))
      ensures answer.AllPosted? ==> n == |chain| && unchanged(`deferred, `free)
    {
      hide Inv, Moved, CanMove, CanMoveAll, MovedAll, Posts;
      ghost var w := Work(View(), chain);
      var bad;
      answer, bad := PostSend(chain);
      var posted := if answer.AllPosted? then |chain| else bad;
      n, badOp := posted, -1;
      StartPosted(chain, posted, own);
      ghost var v := Work(View(), chain[posted..]);
      match answer {
        case AllPosted =>
          assert chain[posted..] == [];
          Unroll0(v, own);
        case QueueFull =>
          RequeueRest(chain[posted..], own);
          Roll1(v, Undo(0), own);
        case Refused =>
          RejectFirst(chain[posted..], own);
          badOp := chain[posted];
          Roll2(v, Reject, Undo(1), own);
      }
      MovedJoin(w, Posts(n), Clean(answer), own);
    }

    /** Posts what is deferred, in order, in chains of at most WR_PER_MSG, until the queue or the
        free slots run out or the device may take no more atomics. A refused work request is left
        to the caller in `badOp`. */
    method LockPrepareAndSend(ghost own: set<Req>) returns (badOp: int, ghost x: Sending)
      requires Good(View())
      modifies this, slots
      ensures (badOp == -1 <==> !x.ending.Refused?) && -1 <= badOp < slots.Length
      ensures badOp >= 0 ==> slots[badOp].state.Error?
      ensures Reaches(Rest(old(View())), x, Work(View(), Left(badOp)), own) && Inv(Work(View(), Left(badOp)))
      ensures x.ending.AllPosted? ==> deferred == [] || free == [] || (cfg.caps.atomic && numAtomRead >= cfg.maxRdAtomic)
    {
      hide Inv, Moved, CanMove, CanMoveAll, MovedAll, Posts, Reaches;
      badOp := -1;
      x := Sending([], AllPosted);
      ghost var w0 := Rest(View());
      ReachesStart(w0, own);
      if deferred == [] {
        return;
      }
      Sums(w0);
      assert numInProgress + numFree + numAborted == slots.Length;
      var chain: seq<nat> := [];
      while !cfg.caps.atomic || numAtomRead < cfg.maxRdAtomic
        invariant Inv(Work(View(), chain)) && |chain| < WR_PER_MSG && deferred != [] && badOp == -1
        invariant chain != [] ==> HasRoom(View())
        invariant x.ending.AllPosted? && Reaches(w0, x, Work(View(), chain), own)
        decreases |deferred|, |chain|
      {
        ghost var w := Work(View(), chain);
        var oprIp := PrepareNext(chain, own);
        if oprIp >= 0 {
          ReachesTake(w0, x, w, own);
          x := Sending(x.body + [Take], AllPosted);
          chain := chain + [oprIp];
        }
        if |chain| == WR_PER_MSG || (chain != [] && (deferred == [] || oprIp == -1)) {
          ghost var v := Work(View(), chain);
          var answer;
          ghost var n;
          answer, badOp, n := SendChain(chain, own);
          ReachesSend(w0, x, v, n, answer, own);
          x := Sending(x.body + Posts(n), answer);
          if !answer.AllPosted? {
            return;
          }
          oprIp := chain[|chain| - 1];
          chain := [];
          Sums(Work(View(), chain));
          assert numInProgress + numFree + numAborted == slots.Length;
        }
        if deferred == [] || oprIp == -1 {
          break;
        }
      }
    }

    /** Frees the slot of a refused request. The request is either the one being submitted,
        whose submitter is told, or gets its callback with an error status. */
    method RetireBad(badOp: int, self: int, ghost s0: Channel, ghost x: Sending) returns (told: bool)
      requires -1 <= badOp < slots.Length && (badOp == -1 <==> !x.ending.Refused?)
      requires badOp >= 0 ==> slots[badOp].state.Error?
      requires Reaches(Rest(s0), x, Work(View(), Left(badOp)), Own(self)) && Inv(Work(View(), Left(badOp)))
      modifies this, slots
      ensures CanSend(s0, x, Own(self)) && View() == Sent(s0, x, Own(self)) && Good(View())
      ensures accepted == (if told then s0.accepted - multiset{self} else s0.accepted)
      ensures told ==> self >= 0 && badOp >= 0
      ensures badOp == -1 ==> View() == old(View())
    {
      hide Inv, FreeOpr, Reaches, CanMoveAll, MovedAll, CanSend, Sent;
      told := false;
      ghost var w := Work(View(), Left(badOp));
      ReachesKeepsAccounts(Rest(s0), x, w, Own(self));
      if badOp >= 0 {
        BadIsKnown(w);
        ReachesRetire(s0, x, w, Own(self));
        var r := slots[badOp].comp.req;
        LocksFreeOpr(badOp, false);
        if r == self {
          told := true;
          accepted := accepted - multiset{r};
        } else {
          comps := comps[r := comps[r].(status := FailComp)];
          called := called + multiset{r};
        }
        assert Work(View(), []) == Moved(w, Retire, Own(self));
      } else {
        ReachesEnd(s0, x, w, Own(self));
      }
    }

    // -------------------------------------------------------------- entry points

    method TailInsert(r: Req, c: Comp)
      modifies this
      ensures View() == Append(old(View()), r, c)
    {
      comps := comps[r := c.(deferredAt := jiffies)];
      deferred := deferred + [r];
      numDeferred := numDeferred + 1;
    }

    /** Puts a request in line and serves the line. */
    method QueueAndSend(r: Req, opr: Opr, compare: u32) returns (rv: int, ghost e: Event)
      requires Good(View()) && Listed(Rest(View())) && r !in Owed(Rest(View())) && !paused
      modifies this, slots
      ensures e.SubmitPosted? && e == SubmitPosted(r, opr, compare, e.x)
      ensures Good(View()) && Allowed(old(View()), e) && View() == Next(old(View()), e)
      ensures accepted == if rv == 0 then old(accepted) + multiset{r} else old(accepted)
      ensures e.x.ending.AllPosted? ==> deferred == [] || free == [] || (cfg.caps.atomic && numAtomRead >= cfg.maxRdAtomic)
    {
      hide Inv, CanSend, Sent, Reaches, Owed, Allowed, Next, HasRoom, Clean;
      EnqueueKeepsGood(View(), r, opr, compare);
      TailInsert(r, Comp(opr, compare, if r in comps then comps[r].nmcs else FRESH, jiffies, FailNoComp));
      accepted := accepted + multiset{r};
      ghost var s := View();
      assert s == Enqueue(old(View()), r, opr, compare);
      var badOp;
      ghost var x;
      badOp, x := LockPrepareAndSend(Own(r));
      var told := RetireBad(badOp, r, s, x);
      rv := if told then -5 else 0;
      e := SubmitPosted(r, opr, compare, x);
      PostedIsEvent(old(View()), r, opr, compare, x);
      assert (old(accepted) + multiset{r}) - multiset{r} == old(accepted);
    }

    /** execute_opr: returns 0 exactly when the submission is accepted. `bypass` says whether the
        local server serves this operation and how it answered; `connected`, whether the channel
        has a send queue. */
    method ExecuteOpr(r: Req, opr: Opr, compare: u32, connected: bool, bypass: Bypass) returns (rv: int, ghost e: Event)
      requires Good(View()) && Listed(Rest(View())) && r !in Owed(Rest(View()))
      modifies this, slots
      ensures Good(View()) && Allowed(old(View()), e) && View() == Next(old(View()), e)
      ensures old(paused) || bypass.BypassFailed? || (bypass.NotUsed? && !connected) ==> e == SubmitRefused(r) && rv != 0
      ensures !old(paused) && bypass.BypassDone? ==> e == SubmitBypassed(r) && rv == 0
      ensures !old(paused) && bypass.NotUsed? && connected ==>
                e.SubmitPosted? && e == SubmitPosted(r, opr, compare, e.x)
      ensures e.SubmitPosted? && e.x.ending.AllPosted? ==> deferred == [] || free == [] || (cfg.caps.atomic && numAtomRead >= cfg.maxRdAtomic)
      ensures accepted == if rv == 0 then old(accepted) + multiset{r} else old(accepted)
    {
      hide Inv, CanSend, Sent, Owed;
      rv, e := 0, SubmitRefused(r);
      if paused {
        rv := -5;
      } else if bypass.BypassFailed? {
        rv := -19;
      } else if bypass.BypassDone? {
        e := SubmitBypassed(r);
        accepted := accepted + multiset{r};
        called := called + multiset{r};
        NextKeepsGood(old(View()), e);
      } else if !connected {
        rv := -32;
      } else {
        rv, e := QueueAndSend(r, opr, compare);
      }
    }

    /** disk_locks_on_completion: reads the reply into the request and frees the slot. Returns 0,
        or -11 when the plain compare-and-swap should be tried again, or -1 on an error status. */
    method ReadCompletion(wc: Wc) returns (rv: int)
      requires wc.idx < slots.Length && slots[wc.idx].comp.Live? && numInProgress > 0
      requires ReqAt(slots[wc.idx]) in comps && comps[ReqAt(slots[wc.idx])].nmcs.Ok()
      modifies this, slots
      ensures var s := old(View());
              View() == FreeOpr(s, wc.idx, true).(comps := s.comps[ReqAt(s.slots[wc.idx]) := Delivered(s, wc)])
      ensures rv == -11 <==> WantsRetry(old(slots[wc.idx]), old(comps[ReqAt(slots[wc.idx])]), wc)
      ensures rv == -1 <==> !wc.ok
      ensures rv == 0 || rv == -1 || rv == -11
      ensures rv == -11 <==> wc.ok && old(slots[wc.idx]).opcode.OpCas? && wc.val.bi != old(comps[ReqAt(slots[wc.idx])]).nmcs.last
                             && old(comps[ReqAt(slots[wc.idx])]).nmcs.attempts < 8
      ensures old(ReqAt(slots[wc.idx])) in comps
      ensures rv == -1 ==> comps[old(ReqAt(slots[wc.idx]))].status.FailComp?
      ensures rv == 0 ==>
                comps[old(ReqAt(slots[wc.idx]))].status
                == match old(slots[wc.idx]).opcode
                   case OpWrite => StatusTaken
                   case OpRead => (if wc.val.id == 0 then StatusTaken else StatusContended)
                   case _ => (if wc.val.id == old(comps[ReqAt(slots[wc.idx])]).compare then StatusTaken else StatusContended)
    {
      hide FreeOpr;
      var r := slots[wc.idx].comp.req;
      var opcode, c := slots[wc.idx].opcode, comps[r];
      rv := 0;
      if !opcode.OpWrite? && wc.ok {
        if opcode.OpCas? && c.nmcs.attempts < NMCS_BI_MAX_ATTEMPTS && wc.val.bi != c.nmcs.last {
          LocksFreeOpr(wc.idx, true);
          comps := comps[r := c.(nmcs := Nmcs(c.nmcs.attempts + 1, wc.val.bi))];
          return -11;
        }
        if c.nmcs.attempts != 0 {
          c := c.(nmcs := FRESH);
        }
      }
      if wc.ok {
        match opcode {
          case OpRead => c := c.(status := if wc.val.id != 0 then StatusContended else StatusTaken);
          case OpWrite => c := c.(status := StatusTaken);
          case _ => c := c.(status := if c.compare == wc.val.id then StatusTaken else StatusContended);
        }
      } else {
        c := c.(status := FailComp);
        rv := -1;
      }
      LocksFreeOpr(wc.idx, true);
      comps := comps[r := c];
    }

    /** Resubmits the request at the tail of the queue or makes its callback. */
    method FinishCompletion(wc: Wc) returns (err: bool)
      requires wc.idx < slots.Length && slots[wc.idx].comp.Live? && numInProgress > 0
      requires ReqAt(slots[wc.idx]) in comps && comps[ReqAt(slots[wc.idx])].nmcs.Ok()
      modifies this, slots
      ensures View() == Completed(old(View()), wc)
      ensures err <==> Erred(old(View()), wc)
      ensures err <==> !wc.ok || (old(paused) && old(slots[wc.idx]).opcode.OpCas? && old(comps[ReqAt(slots[wc.idx])]).nmcs.attempts < 8
                                  && old(comps[ReqAt(slots[wc.idx])]).nmcs.last != wc.val.bi)
    {
      hide FreeOpr, Delivered, WantsRetry;
      err := false;
      var r := slots[wc.idx].comp.req;
      FreeOprKeeps(View(), wc.idx);
      var rv := ReadCompletion(wc);
      if rv == -11 && !paused {
        TailInsert(r, comps[r]);
      } else {
        err := rv != 0;
        called := called + multiset{r};
      }
    }

    /** nvmeibc_disk_locks_on_completion. A completion with a stale version, of a slot without a
        request, of an aborted slot or on a dying channel changes nothing. */
    method OnCompletion(wc: Wc, dying: bool, lastInSeries: bool) returns (ghost e: Event)
      requires Good(View()) && WcPossible(View(), wc)
      modifies this, slots
      ensures e.Complete? && e.wc == wc && e.dying == dying
      ensures Good(View()) && Allowed(old(View()), e) && View() == Next(old(View()), e)
      ensures !lastInSeries ==> e.x == NOTHING
      ensures lastInSeries && !IgnoresWc(old(View()), wc, dying) && e.x.ending.AllPosted?
              && ReqAt(old(View()).slots[wc.idx]) in old(comps) && wc.ok
              && (!old(paused) || !old(slots[wc.idx]).opcode.OpCas? || old(comps[ReqAt(slots[wc.idx])]).nmcs.attempts >= 8
                  || old(comps[ReqAt(slots[wc.idx])]).nmcs.last == wc.val.bi) ==>
                deferred == [] || free == [] || (cfg.caps.atomic && numAtomRead >= cfg.maxRdAtomic)
    {
      hide Inv, CanSend, Sent, Reaches, Completed, HasRoom, Clean, Delivered, WantsRetry;
      e := Complete(wc, dying, NOTHING);
      if slots[wc.idx].version != wc.version || slots[wc.idx].comp.NoComp? || dying || slots[wc.idx].aborted {
        return;
      }
      ghost var s := View();
      LiveWc(s, wc, dying);
      Sums(Rest(s));
      CompletedKeepsGood(s, wc, dying);
      assert numInProgress + numFree + numAborted == slots.Length;
      var err := FinishCompletion(wc);
      NothingSends(View());
      if !err && lastInSeries {
        ghost var t := View();
        var badOp;
        ghost var x;
        badOp, x := LockPrepareAndSend(Own(-1));
        var _ := RetireBad(badOp, -1, t, x);
        e := Complete(wc, dying, x);
      }
    }

    method ProcessDeferred() returns (ghost e: Event)
      requires Good(View())
      modifies this, slots
      ensures e.ProcessDeferred? && Good(View()) && Allowed(old(View()), e) && View() == Next(old(View()), e)
      ensures e.x.ending.AllPosted? ==> deferred == [] || free == [] || (cfg.caps.atomic && numAtomRead >= cfg.maxRdAtomic)
    {
      hide Inv, CanSend, Sent, HasRoom, Clean;
      ghost var s := View();
      var badOp;
      ghost var x;
      badOp, x := LockPrepareAndSend(Own(-1));
      var _ := RetireBad(badOp, -1, s, x);
      e := Event.ProcessDeferred(x);
    }

    method Pause() returns (ghost e: Event)
      requires Good(View())
      modifies `paused
      ensures paused && e == Event.Pause && Good(View()) && Allowed(old(View()), e) && View() == Next(old(View()), e)
    {
      hide Inv;
      e := Event.Pause;
      NextKeepsGood(View(), e);
      paused := true;
    }

    /** Reading the clock lets time pass. */
    method ReadJiffies() returns (now: nat)
      modifies `jiffies
      ensures now == jiffies && old(jiffies) <= jiffies
    {
      now :| jiffies <= now;
      jiffies := now;
    }

    /** Takes the head of the queue as long as it has expired by the clock read at each step. */
    method DrainExpiredHead() returns (list: seq<Req>)
      requires Known(View(), deferred)
      modifies `deferred, `numDeferred, `jiffies
      ensures |list| <= |old(deferred)| && list == old(deferred)[..|list|] && old(jiffies) <= jiffies
      ensures deferred == old(deferred)[|list|..] && numDeferred == old(numDeferred) - |list|
      ensures forall j | 0 <= j < |list| :: list[j] in comps && jiffies > comps[list[j]].deferredAt + cfg.maxLockTime
      ensures deferred != [] ==> deferred[0] in comps && old(jiffies) <= comps[deferred[0]].deferredAt + cfg.maxLockTime
    {
      ghost var was := deferred;
      list := [];
      while deferred != []
        invariant |list| <= |was| && list == was[..|list|] && old(jiffies) <= jiffies
        invariant deferred == was[|list|..] && numDeferred == old(numDeferred) - |list|
        invariant forall j | 0 <= j < |list| :: list[j] in comps && jiffies > comps[list[j]].deferredAt + cfg.maxLockTime
        decreases |deferred|
      {
        var now := ReadJiffies();
        assert deferred[0] == was[|list|];
        if now <= comps[deferred[0]].deferredAt + cfg.maxLockTime {
          return;
        }
        list, deferred := list + [deferred[0]], deferred[1..];
        numDeferred := numDeferred - 1;
      }
    }

    /** drain_defered_queue: the whole queue, or only its expired head, goes to the caller's list. */
    method DrainDeferedQueue(onlyExpired: bool) returns (list: seq<Req>, ghost e: Event)
      requires Good(View()) && Known(View(), deferred)
      modifies `deferred, `numDeferred, `jiffies, `awaiting
      ensures Good(View()) && Allowed(old(View()), e) && View() == Next(old(View()), e)
      ensures if onlyExpired then e == DrainExpired(|list|, jiffies) else e.DrainAll? && deferred == []
      ensures old(deferred) == list + deferred && awaiting == old(awaiting) + list
      ensures onlyExpired ==> InTime(comps, list, deferred, cfg.maxLockTime, old(jiffies), jiffies)
    {
      hide Inv, Next, Allowed, InTime;
      ghost var s := View();
      if onlyExpired {
        list := DrainExpiredHead();
        awaiting := awaiting + list;
        e := DrainExpired(|list|, jiffies);
        assert deferred != [] ==> deferred[0] == s.deferred[|list|];
        DrainIsInTime(s, |list|, jiffies);
      } else {
        list, deferred, numDeferred := deferred, [], 0;
        awaiting := awaiting + list;
        e := DrainAll;
        DrainIsWhole(s);
      }
    }

    method CallBackOne(r: Req, ghost k: nat)
      requires k < |awaiting| && awaiting[k] == r && r in comps
      modifies `comps, `awaiting, `called
      ensures View() == CalledBack(old(View()), k) && comps == old(comps)[r := old(comps)[r].(status := FailComp)]
      ensures awaiting == old(awaiting)[..k] + old(awaiting)[k + 1..] && called == old(called) + multiset{r}
    {
      comps := comps[r := comps[r].(status := FailComp)];
      awaiting := awaiting[..k] + awaiting[k + 1..];
      called := called + multiset{r};
    }

    /** fail_deferred, call_comp_list_cb: every request on the caller's list gets its callback.
        `pre` and `post` are on the lists of other callers. */
    method FailDeferred(list: seq<Req>, ghost pre: seq<Req>, ghost post: seq<Req>) returns (ghost es: seq<Event>)
      requires Good(View()) && awaiting == pre + (list + post)
      modifies `comps, `awaiting, `called
      ensures Good(View()) && Legal(old(View()), es) && View() == Run(old(View()), es)
      ensures awaiting == pre + post && called == old(called) + multiset(list)
      ensures AllFailed(old(comps), comps, list)
      ensures forall r | r in list :: r in comps && comps[r].status.FailComp?
    {
      hide Inv, Run, Legal, CalledBack, AllFailed, FailedTo;
      ghost var s := View();
      es := [];
      RunNone(s);
      FailStarts(s, pre, list, post);
      for i := 0 to |list|
        invariant Good(View()) && Legal(s, es) && View() == Run(s, es)
        invariant FailedTo(s, View(), pre, list, post, i)
      {
        FailNext(s, es, View(), pre, list, post, i);
        CallBackOne(list[i], |pre|);
        es := es + [CallBack(|pre|)];
      }
      FailEnds(s, View(), pre, list, post);
    }

    method AbortFirst() returns (r: Req)
      requires inProgress != [] && inProgress[0] < slots.Length && slots[inProgress[0]].comp.Live? && numInProgress > 0
      requires ReqAt(slots[inProgress[0]]) in comps
      modifies this, slots
      ensures View() == AbortedOne(old(View())) && awaiting == old(awaiting) + [r] && r == ReqAt(old(slots[inProgress[0]]))
      ensures comps == old(comps)[r := old(comps)[r].(status := FailComp)]
    {
      hide Unlink;
      var i := inProgress[0];
      r := slots[i].comp.req;
      slots[i] := slots[i].(aborted := true);
      LocksFreeOpr(i, true);
      comps := comps[r := comps[r].(status := FailComp)];
      awaiting := awaiting + [r];
    }

    /** abort_in_progress_ops */
    method AbortInProgressOps() returns (list: seq<Req>, ghost e: Event)
      requires Good(View())
      modifies this, slots
      ensures e == AbortInProgress && Good(View()) && Allowed(old(View()), e) && View() == Next(old(View()), e)
      ensures awaiting == old(awaiting) + list && inProgress == [] && unchanged(`deferred, `paused, `accepted)
      ensures Listed(Rest(old(View()))) && list == ReqsOf(old(slots[..]), old(inProgress))
      ensures AllFailed(old(comps), comps, list)
    {
      hide Inv, AbortedOne, AllFailed, ReqsOf;
      ghost var s := View();
      list := [];
      e := AbortInProgress;
      InvIsListed(Rest(s));
      FailedNone(comps);
      while inProgress != []
        invariant Good(View()) && AbortedAll(View()) == AbortedAll(s)
        invariant awaiting == old(awaiting) + list && AllFailed(old(comps), comps, list)
        invariant Listed(Rest(View())) && list + ReqsOf(View().slots, inProgress) == ReqsOf(s.slots, s.inProgress)
        decreases |inProgress|
      {
        ghost var t := View();
        AbortedOneKeepsGood(t);
        Sums(Rest(t));
        ListIsLive(Rest(t), inProgress[0]);
        AbortedHead(t, list);
        var r := AbortFirst();
        FailedAlso(old(comps), t.comps, list, r);
        list := list + [r];
      }
      NoneLeft(View(), list);
    }

    /** nvmeibc_disk_locks_drain_defered, with nothing running between its two halves. */
    method DrainDefered(onlyExpired: bool) returns (ghost list: seq<Req>, ghost es: seq<Event>)
      requires Good(View())
      modifies `deferred, `numDeferred, `jiffies, `awaiting, `comps, `called
      ensures Good(View()) && Legal(old(View()), es) && View() == Run(old(View()), es)
      ensures es != [] && if onlyExpired then es[0] == DrainExpired(|list|, jiffies) else es[0].DrainAll? && deferred == []
      ensures awaiting == old(awaiting) && old(deferred) == list + deferred && called == old(called) + multiset(list)
      ensures onlyExpired ==> InTime(old(comps), list, deferred, cfg.maxLockTime, old(jiffies), jiffies)
      ensures AllFailed(old(comps), comps, list) && forall r | r in list :: r in comps && comps[r].status.FailComp?
    {
      hide Inv, Next, Allowed, Run, Legal, AllFailed, InTime;
      QueueAtRest(View());
      var drained;
      ghost var e;
      drained, e := DrainDeferedQueue(onlyExpired);
      RunOne(old(View()), e);
      list := drained;
      assert awaiting == old(awaiting) + (list + []);
      es := FailDeferred(drained, old(awaiting), []);
      RunJoin(old(View()), [e], es);
      es := [e] + es;
    }

    /** nvmeibc_disk_locks_abort_in_progress_oprs, with nothing running between its two halves. */
    method AbortInProgressOprs() returns (ghost list: seq<Req>, ghost es: seq<Event>)
      requires Good(View())
      modifies this, slots
      ensures Good(View()) && Legal(old(View()), es) && View() == Run(old(View()), es)
      ensures es != [] && es[0].AbortInProgress?
      ensures awaiting == old(awaiting) && inProgress == [] && unchanged(`deferred, `paused, `accepted)
      ensures Listed(Rest(old(View()))) && list == ReqsOf(old(slots[..]), old(inProgress))
      ensures AllFailed(old(comps), comps, list) && forall r | r in list :: r in comps && comps[r].status.FailComp?
    {
      hide Inv, Next, Allowed, Run, Legal, AllFailed, ReqsOf;
      var aborted;
      ghost var e;
      aborted, e := AbortInProgressOps();
      list := aborted;
      ghost var failed := comps;
      RunOne(old(View()), e);
      es := FailDeferred(aborted, old(awaiting), []);
      FailedTwice(old(comps), failed, comps, list);
      RunJoin(old(View()), [e], es);
      es := [e] + es;
    }

    /** nvmeibc_disk_locks_abort_all_oprs, with nothing running between its three phases:
        everything queued or in progress is called back. */
    method AbortAllOprs() returns (ghost es: seq<Event>)
      requires Good(View())
      modifies this, slots
      ensures Good(View()) && Legal(old(View()), es) && View() == Run(old(View()), es)
      ensures paused && deferred == [] && inProgress == [] && awaiting == old(awaiting)
      ensures Listed(Rest(old(View()))) && called == old(called) + Queued(Rest(old(View())))
      ensures forall r | r in Queued(Rest(old(View()))) :: r in comps && comps[r].status.FailComp?
    {
      hide Inv, Next, Allowed, Queued, Run, Legal, AllFailed, ReqsOf;
      ghost var s := View();
      ghost var e := Pause();
      RunOne(s, e);
      ghost var waiting, drained := DrainDefered(false);
      assert waiting + [] == s.deferred;
      ghost var between := comps;
      RunJoin(s, [e], drained);
      ghost var flying, aborted := AbortInProgressOprs();
      RunJoin(s, [e] + drained, aborted);
      es := [e] + drained + aborted;
      AllCalled(s, View());
      BothFailed(s, between, comps, flying);
    }
  }
}
