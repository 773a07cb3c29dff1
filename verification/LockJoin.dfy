/** The lock channel and the locking protocol are joined here. One compare-and-swap request of a
    channel is one client of the protocol: what a run of the channel does to the request is a run
    of Submit, Post, Reply and Fail steps of that client, with the responder and everybody else
    acting in between. So what is proved of the protocol holds of the statuses the channel
    delivers. */
module LockJoin {
  import opened LockEntry
  import opened LockEngine
  import opened LockInvariant
  import opened LockRuns
  import P = LockProtocol

  // ---------------------------------------------------------------- where a request is

  /** Nowhere, or waiting to be posted, or posted. */
  datatype Place = Nowhere | InLine | InAir

  ghost function PlaceOf(w: Work, r: Req): Place
    requires Listed(w)
  {
    if r in Line(w) then InLine
    else if r in ReqsOf(w.ch.slots, w.ch.inProgress) then InAir
    else Nowhere
  }

  /** The request at the head of the chain. */
  function Head(w: Work): Req
    requires w.out != [] && w.out[0] < |w.ch.slots|
  {
    ReqAt(w.ch.slots[w.out[0]])
  }

  lemma LineIsQueued(w: Work)
    requires Listed(w)
    ensures Queued(w) == multiset(Line(w)) + multiset(ReqsOf(w.ch.slots, w.ch.inProgress))
  {
  }

  /** A request is at most once in the line or in the air. */
  lemma OnlyOnce(w: Work, r: Req)
    requires Listed(w) && LedgerInv(w)
    ensures multiset(Line(w))[r] + multiset(ReqsOf(w.ch.slots, w.ch.inProgress))[r] <= 1
  {
    LineIsQueued(w);
    assert Owed(w)[r] <= multiset(w.ch.comps.Keys)[r];
  }

  lemma HeadOnce(l: seq<Req>, air: seq<Req>, r: Req)
    requires l != [] && multiset(l)[r] + multiset(air)[r] <= 1
    ensures l[0] == r ==> r in l && r !in l[1..] && r !in air
    ensures l[0] != r ==> (r in l[1..] <==> r in l)
  {
    HeadTail(l);
    assert (r in multiset(l[1..]) <==> r in l[1..]) && (r in multiset(air) <==> r in air);
  }

  lemma TakePlaces(w: Work, own: set<Req>, r: Req)
    requires ListsInv(w) && SlotsInv(w) && CanMove(w, Take)
    ensures Listed(w) && Listed(Moved(w, Take, own)) && PlaceOf(Moved(w, Take, own), r) == PlaceOf(w, r)
  {
    InvIsApart(w);
    TakeKeepsSlots(w, own);
    TakeKeepsLine(w, Moved(w, Take, own));
    hide ListsInv, SlotsInv, Line, ReqsOf;
  }

  lemma PostPlaces(w: Work, own: set<Req>, r: Req)
    requires ListsInv(w) && SlotsInv(w) && LedgerInv(w) && CanMove(w, Post)
    ensures Listed(w) && Listed(Moved(w, Post, own))
    ensures PlaceOf(Moved(w, Post, own), r) == if Head(w) == r then InAir else PlaceOf(w, r)
    ensures Head(w) == r ==> PlaceOf(w, r) == InLine
  {
    InvIsApart(w);
    PostKeepsSlots(w, own);
    PostKeepsLine(w, Moved(w, Post, own));
    OnlyOnce(w, r);
    LineStarts(w);
    hide ListsInv, SlotsInv, LedgerInv, Line, ReqsOf;
    HeadOnce(Line(w), ReqsOf(w.ch.slots, w.ch.inProgress), r);
  }

  lemma LineStarts(w: Work)
    requires Listed(w) && w.out != []
    ensures Line(w) != [] && Line(w)[0] == Head(w) && ReqsOf(w.ch.slots, w.out)[0] == Head(w)
  {
  }

  lemma RejectPlaces(w: Work, own: set<Req>, r: Req)
    requires ListsInv(w) && SlotsInv(w) && CanMove(w, Reject)
    ensures Listed(w) && Listed(Moved(w, Reject, own)) && PlaceOf(Moved(w, Reject, own), r) == PlaceOf(w, r)
  {
    InvIsApart(w);
    RejectKeepsSlots(w, own);
    hide ListsInv, SlotsInv, ReqsOf;
  }

  lemma UndoPlaces(w: Work, from: nat, own: set<Req>, r: Req)
    requires ListsInv(w) && SlotsInv(w) && CanMove(w, Undo(from))
    ensures Listed(w) && Listed(Moved(w, Undo(from), own)) && PlaceOf(Moved(w, Undo(from), own), r) == PlaceOf(w, r)
  {
    InvIsApart(w);
    UndoKeepsSlots(w, from, own);
    UndoKeepsLine(w, Moved(w, Undo(from), own), from);
    hide ListsInv, SlotsInv, Line, ReqsOf;
  }

  lemma RetirePlaces(w: Work, own: set<Req>, r: Req)
    requires ListsInv(w) && SlotsInv(w) && LedgerInv(w) && CanMove(w, Retire)
    ensures Listed(w) && Listed(Moved(w, Retire, own))
    ensures PlaceOf(Moved(w, Retire, own), r) == if Head(w) == r then Nowhere else PlaceOf(w, r)
    ensures Head(w) == r ==> PlaceOf(w, r) == InLine
  {
    hide AtomsInv, QueueInv, CompsInv, Moved;
    var v := Moved(w, Retire, own);
    InvIsApart(w);
    InListIs(w.ch.slots, w.out, KChain, w.out[0]);
    RetireRetires(w, own);
    RetireKeepsSlots(w, v, v.ch.slots[w.out[0]]);
    RetireKeepsLine(w, v);
    OnlyOnce(w, r);
    LineStarts(w);
    hide ListsInv, SlotsInv, LedgerInv, Line, ReqsOf;
    HeadOnce(Line(w), ReqsOf(w.ch.slots, w.ch.inProgress), r);
  }

  // ---------------------------------------------------------------- what a request asks for

  /** The memory of plain attempts that the request's next submission starts with. */
  function Memory(s: Channel, r: Req): Nmcs { if r in s.comps then s.comps[r].nmcs else FRESH }

  /** The request asks for the same, and remembers the same. */
  ghost predicate SameRequest(s: Channel, t: Channel, r: Req) {
    && t.cfg == s.cfg && (r in s.comps <==> r in t.comps)
    && (r in s.comps ==>
          t.comps[r].opr == s.comps[r].opr && t.comps[r].compare == s.comps[r].compare && t.comps[r].nmcs == s.comps[r].nmcs)
  }

  /** Slots that hold the request were prepared for a compare-and-swap. */
  ghost predicate CasSlots(s: Channel, r: Req) {
    forall i | 0 <= i < |s.slots| && s.slots[i].comp == Live(r) :: s.slots[i].opcode == OpcodeFor(s.cfg, CmpAndSwap)
  }

  /** A slot for the request is made from another one, or newly for a compare-and-swap. */
  lemma CasSlotsKept(s: Channel, t: Channel, r: Req)
    requires CasSlots(s, r) && t.cfg == s.cfg && |t.slots| == |s.slots|
    requires forall i | 0 <= i < |s.slots| && t.slots[i].comp == Live(r) ::
               t.slots[i].opcode == OpcodeFor(s.cfg, CmpAndSwap)
               || (s.slots[i].comp == Live(r) && t.slots[i].opcode == s.slots[i].opcode)
    ensures CasSlots(t, r)
  {
  }

  lemma TakeKeepsRequest(w: Work, own: set<Req>, r: Req)
    requires CanMove(w, Take) && CasSlots(w.ch, r) && (w.ch.deferred[0] == r ==> w.ch.comps[r].opr.CmpAndSwap?)
    ensures SameRequest(w.ch, Moved(w, Take, own).ch, r) && CasSlots(Moved(w, Take, own).ch, r)
  {
    CasSlotsKept(w.ch, Moved(w, Take, own).ch, r);
  }

  lemma ChainKeepsRequest(w: Work, m: Move, own: set<Req>, r: Req)
    requires CanMove(w, m) && CasSlots(w.ch, r) && (m.Post? || m.Reject? || m.Undo?)
    ensures SameRequest(w.ch, Moved(w, m, own).ch, r) && CasSlots(Moved(w, m, own).ch, r)
  {
    CasSlotsKept(w.ch, Moved(w, m, own).ch, r);
  }

  lemma FreeOprKeepsComps(s: Channel, i: nat, counted: bool)
    requires i < |s.slots| && !s.slots[i].aborted
    ensures var t := FreeOpr(s, i, counted);
            && t.comps == s.comps && t.cfg == s.cfg && |t.slots| == |s.slots| && t.slots[i].comp == Poison
            && forall j | 0 <= j < |s.slots| && j != i :: t.slots[j] == s.slots[j]
  {
    hide Unlink;
  }

  lemma RetireKeepsRequest(w: Work, own: set<Req>, r: Req)
    requires CanMove(w, Retire) && SlotsInv(w) && CasSlots(w.ch, r)
    ensures SameRequest(w.ch, Moved(w, Retire, own).ch, r) && CasSlots(Moved(w, Retire, own).ch, r)
  {
    hide SlotsInv, FreeOpr, Settle, CasSlots;
    RetiredIsWhole(w);
    FreeOprKeepsComps(w.ch, w.out[0], false);
    var f := FreeOpr(w.ch, w.out[0], false);
    CasSlotsKept(w.ch, f, r);
    SettleKeepsRequest(f, Head(w), own, r);
  }

  lemma RetiredIsWhole(w: Work)
    requires SlotsInv(w) && w.out != [] && w.out[0] < |w.ch.slots|
    ensures !w.ch.slots[w.out[0]].aborted
  {
    InListIs(w.ch.slots, w.out, KChain, w.out[0]);
  }

  lemma SettleKeepsRequest(s: Channel, q: Req, own: set<Req>, r: Req)
    requires q in s.comps && CasSlots(s, r)
    ensures SameRequest(s, Settle(s, q, own), r) && CasSlots(Settle(s, q, own), r)
  {
  }

  // ---------------------------------------------------------------- the request as a client

  /** The operation a compare value stands for: NO_OWNER takes the lock, the own id gives it back. */
  function OpOf(compare: u32): P.Op { if compare == NO_OWNER then P.Acquire else P.Release }

  predicate Asks(x: Comp, c: u32, op: P.Op) { x.opr.CmpAndSwap? && x.compare == P.Compare(c, op) }

  /** The request r of the channel is where the client k of the protocol says it is. */
  ghost predicate Fits(s: Channel, at: Place, r: Req, c: u32, k: P.Client) {
    && CasSlots(s, r) && k.nmcs == Memory(s, r)
    && match at
       case Nowhere => k.req.None?
       case InLine => k.req.Some? && k.req.value.stage.Queued? && r in s.comps && Asks(s.comps[r], c, k.req.value.op)
       case InAir =>
         && k.req.Some? && r in s.comps && Asks(s.comps[r], c, k.req.value.op)
         && (k.req.value.stage == P.Flying(s.cfg.caps)
             || (k.req.value.stage.Landed? && k.req.value.stage.caps == s.cfg.caps))
  }

  ghost predicate Joined(w: Work, g: P.State, r: Req, c: u32)
    requires Listed(w)
  {
    P.Inv(g) && c in g.clients && Fits(w.ch, PlaceOf(w, r), r, c, g.clients[c])
  }

  // ---------------------------------------------------------------- steps of the client

  lemma NoSteps(g: P.State)
    requires P.Inv(g)
    ensures P.Legal(g, []) && P.Run(g, []) == g
  {
  }

  lemma OneStep(g: P.State, t: P.Step)
    requires P.Inv(g) && P.Enabled(g, t)
    ensures P.Legal(g, [t]) && P.Run(g, [t]) == P.Next(g, t) && P.Inv(P.Next(g, t))
  {
    hide P.Inv, P.Enabled, P.Next;
    P.NextKeepsInv(g, t);
    assert [t][1..] == [];
  }

  lemma SubmitFits(g: P.State, s: Channel, t: Channel, r: Req, c: u32, compare: u32)
    requires P.Inv(g) && c in g.clients && Fits(s, Nowhere, r, c, g.clients[c]) && (compare == NO_OWNER || compare == c)
    requires CasSlots(t, r) && r in t.comps && t.comps[r].nmcs == Memory(s, r)
    requires t.comps[r].opr.CmpAndSwap? && t.comps[r].compare == compare
    ensures P.Enabled(g, P.Submit(c, OpOf(compare)))
    ensures Fits(t, InLine, r, c, P.Next(g, P.Submit(c, OpOf(compare))).clients[c])
  {
    hide P.ClientInv;
  }

  lemma PostFits(g: P.State, s: Channel, t: Channel, r: Req, c: u32)
    requires P.Inv(g) && c in g.clients && Fits(s, InLine, r, c, g.clients[c]) && SameRequest(s, t, r) && CasSlots(t, r)
    ensures P.Enabled(g, P.Post(c, s.cfg.caps)) && Fits(t, InAir, r, c, P.Next(g, P.Post(c, s.cfg.caps)).clients[c])
  {
    hide P.ClientInv;
  }

  lemma FailFits(g: P.State, s: Channel, at: Place, t: Channel, r: Req, c: u32)
    requires P.Inv(g) && c in g.clients && Fits(s, at, r, c, g.clients[c]) && at != Nowhere
    requires SameRequest(s, t, r) && CasSlots(t, r)
    ensures P.Enabled(g, P.Fail(c)) && Fits(t, Nowhere, r, c, P.Next(g, P.Fail(c)).clients[c])
  {
    hide P.ClientInv;
  }

  lemma StillFits(s: Channel, at: Place, t: Channel, r: Req, c: u32, k: P.Client)
    requires Fits(s, at, r, c, k) && SameRequest(s, t, r) && CasSlots(t, r)
    ensures Fits(t, at, r, c, k)
  {
  }

  // ---------------------------------------------------------------- sending

  /** What a move means for the client. */
  function StepsOfMove(w: Work, m: Move, r: Req, c: u32): seq<P.Step>
    requires CanMove(w, m)
  {
    if m.Post? && Head(w) == r then [P.Post(c, w.ch.cfg.caps)]
    else if m.Retire? && Head(w) == r then [P.Fail(c)]
    else []
  }

  function StepsOfMoves(w: Work, ms: seq<Move>, own: set<Req>, r: Req, c: u32): seq<P.Step>
    requires CanMoveAll(w, ms, own)
    decreases |ms|
  {
    if ms == [] then [] else StepsOfMove(w, ms[0], r, c) + StepsOfMoves(Moved(w, ms[0], own), ms[1..], own, r, c)
  }

  lemma HeadAsks(w: Work, r: Req, c: u32, k: P.Client)
    requires Listed(w) && Fits(w.ch, PlaceOf(w, r), r, c, k) && w.ch.deferred != [] && w.ch.deferred[0] == r
    ensures r in w.ch.comps && w.ch.comps[r].opr.CmpAndSwap?
  {
    assert Line(w)[|w.out|] == r;
  }

  lemma TakeJoins(w: Work, own: set<Req>, g: P.State, r: Req, c: u32)
    requires Inv(w) && CanMove(w, Take) && Listed(w) && Joined(w, g, r, c)
    ensures Listed(Moved(w, Take, own)) && Joined(Moved(w, Take, own), g, r, c)
  {
    hide P.Inv, Fits, PlaceOf, Moved, CasSlots, SameRequest, ListsInv, SlotsInv, AtomsInv, LedgerInv, QueueInv, CompsInv;
    var v := Moved(w, Take, own);
    TakePlaces(w, own, r);
    FitsMeansCas(w.ch, PlaceOf(w, r), r, c, g.clients[c]);
    if w.ch.deferred[0] == r { HeadAsks(w, r, c, g.clients[c]); }
    TakeKeepsRequest(w, own, r);
    StillFits(w.ch, PlaceOf(w, r), v.ch, r, c, g.clients[c]);
  }

  lemma FitsMeansCas(s: Channel, at: Place, r: Req, c: u32, k: P.Client)
    requires Fits(s, at, r, c, k)
    ensures CasSlots(s, r)
  {
  }

  lemma PostJoins(w: Work, own: set<Req>, g: P.State, r: Req, c: u32)
    requires Inv(w) && CanMove(w, Post) && Listed(w) && Joined(w, g, r, c)
    ensures P.Legal(g, StepsOfMove(w, Post, r, c))
    ensures Listed(Moved(w, Post, own)) && Joined(Moved(w, Post, own), P.Run(g, StepsOfMove(w, Post, r, c)), r, c)
  {
    hide P.Inv, P.Legal, P.Run, Fits, PlaceOf, Moved, CasSlots, SameRequest, ListsInv, SlotsInv, AtomsInv, LedgerInv, QueueInv, CompsInv;
    var v := Moved(w, Post, own);
    PostPlaces(w, own, r);
    FitsMeansCas(w.ch, PlaceOf(w, r), r, c, g.clients[c]);
    ChainKeepsRequest(w, Post, own, r);
    if Head(w) == r {
      PostFits(g, w.ch, v.ch, r, c);
      OneStep(g, P.Post(c, w.ch.cfg.caps));
    } else {
      NoSteps(g);
      StillFits(w.ch, PlaceOf(w, r), v.ch, r, c, g.clients[c]);
    }
  }

  lemma BackJoins(w: Work, m: Move, own: set<Req>, g: P.State, r: Req, c: u32)
    requires Inv(w) && CanMove(w, m) && (m.Reject? || m.Undo?) && Listed(w) && Joined(w, g, r, c)
    ensures Listed(Moved(w, m, own)) && Joined(Moved(w, m, own), g, r, c)
  {
    hide P.Inv, Fits, PlaceOf, Moved, CasSlots, SameRequest, ListsInv, SlotsInv, AtomsInv, LedgerInv, QueueInv, CompsInv;
    var v := Moved(w, m, own);
    if m == Reject { RejectPlaces(w, own, r); } else { UndoPlaces(w, m.from, own, r); }
    FitsMeansCas(w.ch, PlaceOf(w, r), r, c, g.clients[c]);
    ChainKeepsRequest(w, m, own, r);
    StillFits(w.ch, PlaceOf(w, r), v.ch, r, c, g.clients[c]);
  }

  lemma RetireJoins(w: Work, own: set<Req>, g: P.State, r: Req, c: u32)
    requires Inv(w) && CanMove(w, Retire) && Listed(w) && Joined(w, g, r, c)
    ensures P.Legal(g, StepsOfMove(w, Retire, r, c))
    ensures Listed(Moved(w, Retire, own)) && Joined(Moved(w, Retire, own), P.Run(g, StepsOfMove(w, Retire, r, c)), r, c)
  {
    hide P.Inv, P.Legal, P.Run, Fits, PlaceOf, Moved, CasSlots, SameRequest, ListsInv, SlotsInv, AtomsInv, LedgerInv, QueueInv, CompsInv;
    var v := Moved(w, Retire, own);
    RetirePlaces(w, own, r);
    FitsMeansCas(w.ch, PlaceOf(w, r), r, c, g.clients[c]);
    RetireKeepsRequest(w, own, r);
    if Head(w) == r {
      FailFits(g, w.ch, InLine, v.ch, r, c);
      OneStep(g, P.Fail(c));
    } else {
      NoSteps(g);
      StillFits(w.ch, PlaceOf(w, r), v.ch, r, c, g.clients[c]);
    }
  }

  lemma MoveJoins(w: Work, m: Move, own: set<Req>, g: P.State, r: Req, c: u32)
    requires Inv(w) && CanMove(w, m) && Listed(w) && Joined(w, g, r, c)
    ensures P.Legal(g, StepsOfMove(w, m, r, c))
    ensures Listed(Moved(w, m, own)) && Joined(Moved(w, m, own), P.Run(g, StepsOfMove(w, m, r, c)), r, c)
  {
    hide P.Inv, P.Legal, P.Run, Fits, PlaceOf, Moved, CanMove, Inv, Listed;
    match m
    case Take =>
      TakeJoins(w, own, g, r, c);
      NoSteps(g);
    case Post => PostJoins(w, own, g, r, c);
    case Retire => RetireJoins(w, own, g, r, c);
    case _ =>
      BackJoins(w, m, own, g, r, c);
      NoSteps(g);
  }

  lemma {:induction false} MovesJoin(w: Work, ms: seq<Move>, own: set<Req>, g: P.State, r: Req, c: u32)
    requires Inv(w) && CanMoveAll(w, ms, own) && Listed(w) && Joined(w, g, r, c)
    ensures P.Legal(g, StepsOfMoves(w, ms, own, r, c)) && Listed(MovedAll(w, ms, own))
    ensures Joined(MovedAll(w, ms, own), P.Run(g, StepsOfMoves(w, ms, own, r, c)), r, c)
    decreases |ms|
  {
    hide P.Inv, P.Legal, P.Run, Fits, PlaceOf, Moved, CanMove, Inv, Listed, StepsOfMove;
    if ms == [] {
      NoSteps(g);
    } else {
      var a := StepsOfMove(w, ms[0], r, c);
      var v := Moved(w, ms[0], own);
      MoveKeepsInv(w, ms[0], own);
      MoveJoins(w, ms[0], own, g, r, c);
      MovesJoin(v, ms[1..], own, P.Run(g, a), r, c);
      P.RunAppend(g, a, StepsOfMoves(v, ms[1..], own, r, c));
    }
  }

  lemma SentJoins(s: Channel, x: Sending, own: set<Req>, g: P.State, r: Req, c: u32)
    requires Good(s) && CanSend(s, x, own) && Listed(Rest(s)) && Joined(Rest(s), g, r, c)
    ensures P.Legal(g, StepsOfMoves(Rest(s), x.Moves(), own, r, c)) && Listed(Rest(Sent(s, x, own)))
    ensures Joined(Rest(Sent(s, x, own)), P.Run(g, StepsOfMoves(Rest(s), x.Moves(), own, r, c)), r, c)
  {
    hide P.Inv, P.Legal, P.Run, Fits, PlaceOf, CanMoveAll, MovedAll, Inv, Listed, StepsOfMoves;
    MovesJoin(Rest(s), x.Moves(), own, g, r, c);
  }

  // ---------------------------------------------------------------- submission

  lemma EnqueuePlaces(s: Channel, q: Req, opr: Opr, compare: u32, r: Req)
    requires Listed(Rest(s)) && q !in Owed(Rest(s))
    ensures Listed(Rest(Enqueue(s, q, opr, compare)))
    ensures PlaceOf(Rest(Enqueue(s, q, opr, compare)), r) == if q == r then InLine else PlaceOf(Rest(s), r)
    ensures PlaceOf(Rest(s), q) == Nowhere
  {
    var t := Enqueue(s, q, opr, compare);
    LineIsQueued(Rest(s));
    assert Line(Rest(s)) == s.deferred && Line(Rest(t)) == s.deferred + [q];
    assert q in multiset(s.deferred) <==> q in s.deferred;
    assert q in multiset(ReqsOf(s.slots, s.inProgress)) <==> q in ReqsOf(s.slots, s.inProgress);
  }

  lemma EnqueueKeepsRequest(s: Channel, q: Req, opr: Opr, compare: u32, r: Req)
    requires CasSlots(s, r)
    ensures CasSlots(Enqueue(s, q, opr, compare), r)
    ensures q != r ==> SameRequest(s, Enqueue(s, q, opr, compare), r)
    ensures q == r ==> var t := Enqueue(s, q, opr, compare);
                       && r in t.comps && t.comps[r].nmcs == Memory(s, r)
                       && t.comps[r].opr == opr && t.comps[r].compare == compare
  {
  }

  /** What a submission means for the client, before anything is sent. */
  function StepsOfSubmit(q: Req, compare: u32, r: Req, c: u32): seq<P.Step> {
    if q == r then [P.Submit(c, OpOf(compare))] else []
  }

  lemma EnqueueJoins(s: Channel, q: Req, opr: Opr, compare: u32, g: P.State, r: Req, c: u32)
    requires Good(s) && Listed(Rest(s)) && q !in Owed(Rest(s)) && Joined(Rest(s), g, r, c)
    requires q == r ==> opr.CmpAndSwap? && (compare == NO_OWNER || compare == c)
    ensures Listed(Rest(Enqueue(s, q, opr, compare))) && P.Legal(g, StepsOfSubmit(q, compare, r, c))
    ensures Joined(Rest(Enqueue(s, q, opr, compare)), P.Run(g, StepsOfSubmit(q, compare, r, c)), r, c)
  {
    hide P.Inv, P.Legal, P.Run, Fits, PlaceOf, CasSlots, SameRequest, Inv, Enqueue, Owed, Memory;
    var t := Enqueue(s, q, opr, compare);
    EnqueuePlaces(s, q, opr, compare, r);
    FitsMeansCas(s, PlaceOf(Rest(s), r), r, c, g.clients[c]);
    EnqueueKeepsRequest(s, q, opr, compare, r);
    if q == r {
      SubmitFits(g, s, t, r, c, compare);
      OneStep(g, P.Submit(c, OpOf(compare)));
    } else {
      NoSteps(g);
      StillFits(s, PlaceOf(Rest(s), r), t, r, c, g.clients[c]);
    }
  }

  // ---------------------------------------------------------------- completion

  /** What a completion that is acted on means for the client, before anything is sent. */
  function StepsOfWc(s: Channel, wc: Wc, r: Req, c: u32): seq<P.Step>
    requires wc.idx < |s.slots| && ReqAt(s.slots[wc.idx]) in s.comps
  {
    if ReqAt(s.slots[wc.idx]) != r then []
    else if !wc.ok then [P.Fail(c)]
    else if WantsRetry(s.slots[wc.idx], s.comps[r], wc) && s.paused then [P.Reply(c), P.Fail(c)]
    else [P.Reply(c)]
  }

  /** A successful completion of the request carries what the responder answered. */
  ghost predicate Truthful(s: Channel, wc: Wc, g: P.State, r: Req, c: u32)
    requires wc.idx < |s.slots|
  {
    wc.ok && ReqAt(s.slots[wc.idx]) == r ==>
      c in g.clients && g.clients[c].req.Some? && g.clients[c].req.value.stage == P.Landed(s.cfg.caps, wc.val)
  }

  lemma AirLoses(air: seq<Req>, air': seq<Req>, d: seq<Req>, q: Req, r: Req)
    requires multiset(air) == multiset(air') + multiset{q} && multiset(d)[q] + multiset(air)[q] <= 1
    ensures q in air && q !in air' && q !in d
    ensures r != q ==> (r in air <==> r in air')
  {
    assert (q in multiset(air) <==> q in air) && (q in multiset(air') <==> q in air') && (q in multiset(d) <==> q in d);
    assert (r in multiset(air) <==> r in air) && (r in multiset(air') <==> r in air');
  }

  /** The busy slot i is freed: its request leaves the air. */
  lemma DropPlaces(s: Channel, m: Channel, i: nat, x: Slot, r: Req)
    requires Good(s) && Listed(Rest(s)) && i in s.inProgress && i < |s.slots| && Dropped(s, m, i, x)
    ensures Listed(Rest(m)) && PlaceOf(Rest(s), ReqAt(s.slots[i])) == InAir
    ensures PlaceOf(Rest(m), r) == if ReqAt(s.slots[i]) == r then Nowhere else PlaceOf(Rest(s), r)
  {
    var q := ReqAt(s.slots[i]);
    InvIsApart(Rest(s));
    DropKeepsSlots(s, m, i, x);
    UnlinkReqs(s.slots, s.inProgress, i);
    OnlyOnce(Rest(s), q);
    hide Inv, ReqsOf, Dropped;
    assert Line(Rest(s)) == s.deferred && Line(Rest(m)) == m.deferred by { LineAtRest(s); LineAtRest(m); }
    assert m.deferred == s.deferred by { DropKeepsLine(s, m, i, x); }
    AirLoses(ReqsOf(s.slots, s.inProgress), ReqsOf(m.slots, m.inProgress), s.deferred, q, r);
  }

  lemma LineAtRest(s: Channel)
    requires Listed(Rest(s))
    ensures Line(Rest(s)) == s.deferred
  {
  }

  lemma DropKeepsLine(s: Channel, m: Channel, i: nat, x: Slot)
    requires i < |s.slots| && Dropped(s, m, i, x)
    ensures m.deferred == s.deferred
  {
  }

  lemma AppendPlaces(m: Channel, t: Channel, q: Req, r: Req)
    requires Listed(Rest(m)) && t.slots == m.slots && t.inProgress == m.inProgress
    requires t.deferred == m.deferred + [q]
    ensures Listed(Rest(t)) && PlaceOf(Rest(t), r) == if q == r then InLine else PlaceOf(Rest(m), r)
  {
    LineAtRest(m);
    LineAtRest(t);
  }

  lemma SamePlaces(m: Channel, t: Channel, r: Req)
    requires Listed(Rest(m)) && t.slots == m.slots && t.inProgress == m.inProgress && t.deferred == m.deferred
    ensures Listed(Rest(t)) && PlaceOf(Rest(t), r) == PlaceOf(Rest(m), r)
  {
    LineAtRest(m);
    LineAtRest(t);
  }

  lemma CompletedPlaces(s: Channel, wc: Wc, dying: bool, r: Req)
    requires Good(s) && WcPossible(s, wc) && !IgnoresWc(s, wc, dying) && Listed(Rest(s))
    ensures ReqAt(s.slots[wc.idx]) in s.comps && s.comps[ReqAt(s.slots[wc.idx])].nmcs.Ok()
    ensures Listed(Rest(Completed(s, wc)))
    ensures PlaceOf(Rest(Completed(s, wc)), r)
         == if ReqAt(s.slots[wc.idx]) != r then PlaceOf(Rest(s), r) else if Resubmits(s, wc) then InLine else Nowhere
    ensures ReqAt(s.slots[wc.idx]) == r ==> PlaceOf(Rest(s), r) == InAir
  {
    hide Inv, FreeOpr, PlaceOf, Dropped, Delivered, Resubmits, ReqAt;
    LiveWc(s, wc, dying);
    var m, t, i := FreeOpr(s, wc.idx, true), Completed(s, wc), wc.idx;
    FreeOprDrops(s, i);
    DropPlaces(s, m, i, m.slots[i], r);
    if Resubmits(s, wc) { AppendPlaces(m, t, ReqAt(s.slots[i]), r); } else { SamePlaces(m, t, r); }
  }

  lemma CompletedKeepsRequest(s: Channel, wc: Wc, r: Req)
    requires wc.idx < |s.slots| && BusySlot(s.slots[wc.idx]) && ReqAt(s.slots[wc.idx]) in s.comps
    requires s.comps[ReqAt(s.slots[wc.idx])].nmcs.Ok() && CasSlots(s, r)
    ensures var t := Completed(s, wc);
            && CasSlots(t, r) && t.cfg == s.cfg
            && (ReqAt(s.slots[wc.idx]) != r ==> SameRequest(s, t, r))
            && (ReqAt(s.slots[wc.idx]) == r ==> r in t.comps && t.comps[r].(deferredAt := 0) == Delivered(s, wc).(deferredAt := 0))
  {
    hide FreeOpr, CasSlots, Delivered, Resubmits, ReqAt;
    FreeOprKeepsComps(s, wc.idx, true);
    CasSlotsKept(s, Completed(s, wc), r);
  }

  /** The client reads the reply as the channel does. */
  lemma ReplyFits(s: Channel, wc: Wc, t: Channel, g: P.State, r: Req, c: u32)
    requires P.Inv(g) && c in g.clients && Fits(s, InAir, r, c, g.clients[c]) && wc.idx < |s.slots| && s.slots[wc.idx].comp == Live(r)
    requires wc.ok && Truthful(s, wc, g, r, c) && t.cfg == s.cfg
    requires r in s.comps && s.comps[r].nmcs.Ok() && s.comps[r].status.FailNoComp?
    requires CasSlots(t, r) && r in t.comps && t.comps[r].(deferredAt := 0) == Delivered(s, wc).(deferredAt := 0)
    ensures P.Enabled(g, P.Reply(c))
    ensures var at := if WantsRetry(s.slots[wc.idx], s.comps[r], wc) then InLine else Nowhere;
            Fits(t, at, r, c, P.Next(g, P.Reply(c)).clients[c])
    ensures var v := P.VerdictOf(c, g.clients[c].req.value, g.clients[c].nmcs);
            && (v.Retry? <==> WantsRetry(s.slots[wc.idx], s.comps[r], wc))
            && (v.Taken? <==> t.comps[r].status.StatusTaken?)
            && (v.Contended? <==> t.comps[r].status.StatusContended?)
    ensures var k := g.clients[c];
            P.Next(g, P.Reply(c)).clients[c].holding
            == (k.holding || (t.comps[r].status.StatusTaken? && k.req.value.op.Acquire?))
  {
    hide P.ClientInv;
  }

  lemma WcPaused(s: Channel, wc: Wc, r: Req)
    requires wc.idx < |s.slots| && ReqAt(s.slots[wc.idx]) == r && r in s.comps
    ensures Resubmits(s, wc) <==> WantsRetry(s.slots[wc.idx], s.comps[r], wc) && !s.paused
  {
  }

  /** The request's own completion. */
  lemma OwnCompletionJoins(s: Channel, wc: Wc, dying: bool, g: P.State, r: Req, c: u32)
    requires Good(s) && WcPossible(s, wc) && !IgnoresWc(s, wc, dying) && Listed(Rest(s)) && Joined(Rest(s), g, r, c)
    requires ReqAt(s.slots[wc.idx]) == r && Truthful(s, wc, g, r, c)
    ensures r in s.comps && s.comps[r].nmcs.Ok() && P.Legal(g, StepsOfWc(s, wc, r, c))
    ensures Listed(Rest(Completed(s, wc)))
    ensures Joined(Rest(Completed(s, wc)), P.Run(g, StepsOfWc(s, wc, r, c)), r, c)
  {
    hide P.Inv, P.Legal, P.Run, P.Enabled, P.Next, Fits, PlaceOf, CasSlots, SameRequest, Inv, Completed, Resubmits, WantsRetry, Truthful, Delivered;
    LiveWc(s, wc, dying);
    var t := Completed(s, wc);
    CompletedPlaces(s, wc, dying, r);
    FitsMeansCas(s, InAir, r, c, g.clients[c]);
    CompletedKeepsRequest(s, wc, r);
    WcPaused(s, wc, r);
    if !wc.ok {
      FailedAsks(s, wc, t, r);
      FailFits(g, s, InAir, t, r, c);
      OneStep(g, P.Fail(c));
      KeepsClients(g, P.Fail(c), c);
    } else {
      ReplyFits(s, wc, t, g, r, c);
      OneStep(g, P.Reply(c));
      KeepsClients(g, P.Reply(c), c);
      var h := P.Next(g, P.Reply(c));
      if WantsRetry(s.slots[wc.idx], s.comps[r], wc) && s.paused {
        SameAsItself(t, r);
        FailFits(h, t, InLine, t, r, c);
        OneStep(h, P.Fail(c));
        KeepsClients(h, P.Fail(c), c);
        P.RunAppend(g, [P.Reply(c)], [P.Fail(c)]);
        assert [P.Reply(c)] + [P.Fail(c)] == [P.Reply(c), P.Fail(c)];
      }
    }
  }

  lemma SameAsItself(s: Channel, r: Req)
    ensures SameRequest(s, s, r)
  {
  }

  lemma KeepsClients(g: P.State, t: P.Step, c: u32)
    requires P.Inv(g) && P.Enabled(g, t) && c in g.clients
    ensures c in P.Next(g, t).clients
  {
    hide P.Inv, Effect;
  }

  /** An error completion changes the status only. */
  lemma FailedAsks(s: Channel, wc: Wc, t: Channel, r: Req)
    requires wc.idx < |s.slots| && ReqAt(s.slots[wc.idx]) == r && r in s.comps && s.comps[r].nmcs.Ok() && !wc.ok
    requires t.cfg == s.cfg && r in t.comps && t.comps[r].(deferredAt := 0) == Delivered(s, wc).(deferredAt := 0)
    ensures SameRequest(s, t, r) && !WantsRetry(s.slots[wc.idx], s.comps[r], wc)
  {
  }

  lemma CompletedJoins(s: Channel, wc: Wc, dying: bool, g: P.State, r: Req, c: u32)
    requires Good(s) && WcPossible(s, wc) && !IgnoresWc(s, wc, dying) && Listed(Rest(s)) && Joined(Rest(s), g, r, c)
    requires Truthful(s, wc, g, r, c)
    ensures ReqAt(s.slots[wc.idx]) in s.comps && s.comps[ReqAt(s.slots[wc.idx])].nmcs.Ok()
    ensures P.Legal(g, StepsOfWc(s, wc, r, c)) && Listed(Rest(Completed(s, wc)))
    ensures Joined(Rest(Completed(s, wc)), P.Run(g, StepsOfWc(s, wc, r, c)), r, c)
  {
    hide P.Inv, P.Legal, P.Run, Fits, PlaceOf, CasSlots, SameRequest, Inv, Completed, Resubmits, Truthful;
    LiveWc(s, wc, dying);
    if ReqAt(s.slots[wc.idx]) == r {
      OwnCompletionJoins(s, wc, dying, g, r, c);
    } else {
      CompletedPlaces(s, wc, dying, r);
      FitsMeansCas(s, PlaceOf(Rest(s), r), r, c, g.clients[c]);
      CompletedKeepsRequest(s, wc, r);
      NoSteps(g);
      StillFits(s, PlaceOf(Rest(s), r), Completed(s, wc), r, c, g.clients[c]);
    }
  }

  // ---------------------------------------------------------------- leaving without an answer

  function StepsOfLeaving(left: bool, c: u32): seq<P.Step> { if left then [P.Fail(c)] else [] }

  /** The request leaves, or what happens does not concern it. */
  lemma LeavingJoins(s: Channel, t: Channel, left: bool, g: P.State, r: Req, c: u32)
    requires Listed(Rest(s)) && Listed(Rest(t)) && Joined(Rest(s), g, r, c) && SameRequest(s, t, r) && CasSlots(t, r)
    requires left ==> PlaceOf(Rest(s), r) != Nowhere
    requires PlaceOf(Rest(t), r) == if left then Nowhere else PlaceOf(Rest(s), r)
    ensures P.Legal(g, StepsOfLeaving(left, c)) && Joined(Rest(t), P.Run(g, StepsOfLeaving(left, c)), r, c)
  {
    hide P.Inv, P.Legal, P.Run, P.Enabled, P.Next, Fits, PlaceOf, CasSlots, SameRequest;
    if left {
      FailFits(g, s, PlaceOf(Rest(s), r), t, r, c);
      OneStep(g, P.Fail(c));
      KeepsClients(g, P.Fail(c), c);
    } else {
      NoSteps(g);
      StillFits(s, PlaceOf(Rest(s), r), t, r, c, g.clients[c]);
    }
  }

  lemma DrainPlaces(s: Channel, n: nat, t: Channel, r: Req)
    requires Good(s) && Listed(Rest(s)) && n <= |s.deferred|
    requires t.slots == s.slots && t.inProgress == s.inProgress && t.deferred == s.deferred[n..]
    ensures Listed(Rest(t))
    ensures PlaceOf(Rest(t), r) == if r in s.deferred[..n] then Nowhere else PlaceOf(Rest(s), r)
    ensures r in s.deferred[..n] ==> PlaceOf(Rest(s), r) == InLine
  {
    LineAtRest(s);
    LineAtRest(t);
    OnlyOnce(Rest(s), r);
    hide Inv, ReqsOf, Line;
    InHalves(s.deferred, n, ReqsOf(s.slots, s.inProgress), r);
  }

  lemma InHalves(d: seq<Req>, n: nat, air: seq<Req>, r: Req)
    requires n <= |d| && multiset(d)[r] + multiset(air)[r] <= 1
    ensures r in d <==> r in d[..n] || r in d[n..]
    ensures r in d[..n] ==> r !in d[n..] && r !in air
  {
    Split(d, n);
    assert (r in multiset(d[..n]) <==> r in d[..n]) && (r in multiset(d[n..]) <==> r in d[n..]) && (r in multiset(air) <==> r in air);
  }

  lemma AbortPlaces(s: Channel, r: Req)
    requires Good(s) && Listed(Rest(s))
    ensures Listed(Rest(AbortedAll(s)))
    ensures PlaceOf(Rest(AbortedAll(s)), r) == if PlaceOf(Rest(s), r) == InAir then Nowhere else PlaceOf(Rest(s), r)
  {
    hide Inv, AbortedAll;
    LineAtRest(s);
    LineAtRest(AbortedAll(s));
  }

  lemma AbortedOneKeepsRequest(s: Channel, r: Req)
    requires s.inProgress != [] && s.inProgress[0] < |s.slots| && ReqAt(s.slots[s.inProgress[0]]) in s.comps && CasSlots(s, r)
    ensures SameRequest(s, AbortedOne(s), r) && CasSlots(AbortedOne(s), r)
  {
    hide Unlink;
    CasSlotsKept(s, AbortedOne(s), r);
  }

  lemma {:induction false} AbortedAllKeepsRequest(s: Channel, r: Req)
    requires Good(s) && CasSlots(s, r)
    ensures SameRequest(s, AbortedAll(s), r) && CasSlots(AbortedAll(s), r)
    decreases |s.inProgress|
  {
    hide Inv, AbortedOne, CasSlots;
    if s.inProgress != [] {
      AbortedOneKeepsGood(s);
      AbortedOneKeepsRequest(s, r);
      AbortedAllKeepsRequest(AbortedOne(s), r);
    }
  }

  // ---------------------------------------------------------------- events

  /** The events concern the request only as a compare-and-swap through the queue, for the lock of
      client c. */
  predicate Proper(e: Event, r: Req, c: u32) {
    && (e.SubmitPosted? && e.r == r ==> e.opr.CmpAndSwap? && (e.compare == NO_OWNER || e.compare == c))
    && (e.SubmitBypassed? ==> e.r != r)
  }

  ghost predicate Answers(s: Channel, e: Event, g: P.State, r: Req, c: u32)
    requires Good(s) && Allowed(s, e)
  {
    e.Complete? && !IgnoresWc(s, e.wc, e.dying) ==> Truthful(s, e.wc, g, r, c)
  }

  /** What an event means for the client. */
  ghost function StepsOf(s: Channel, e: Event, r: Req, c: u32): seq<P.Step>
    requires Good(s) && Allowed(s, e)
  {
    hide Inv, MovedAll;
    InvIsListed(Rest(s));
    match e
    case SubmitPosted(q, opr, compare, x) =>
      StepsOfSubmit(q, compare, r, c) + StepsOfMoves(Rest(Enqueue(s, q, opr, compare)), x.Moves(), {q}, r, c)
    case Complete(wc, dying, x) =>
      if IgnoresWc(s, wc, dying) then []
      else
        LiveWc(s, wc, dying);
        StepsOfWc(s, wc, r, c) + StepsOfMoves(Rest(Completed(s, wc)), x.Moves(), {}, r, c)
    case ProcessDeferred(x) => StepsOfMoves(Rest(s), x.Moves(), {}, r, c)
    case DrainAll => StepsOfLeaving(r in s.deferred, c)
    case DrainExpired(n, _) => StepsOfLeaving(r in s.deferred[..n], c)
    case AbortInProgress => StepsOfLeaving(PlaceOf(Rest(s), r) == InAir, c)
    case _ => []
  }

  /** The request r of the channel and the client c of the protocol are in step. */
  ghost predicate Together(s: Channel, g: P.State, r: Req, c: u32) {
    Good(s) && Listed(Rest(s)) && Joined(Rest(s), g, r, c)
  }

  lemma SubmitTogether(s: Channel, q: Req, opr: Opr, compare: u32, x: Sending, g: P.State, r: Req, c: u32)
    requires Together(s, g, r, c) && Allowed(s, SubmitPosted(q, opr, compare, x))
    requires q == r ==> opr.CmpAndSwap? && (compare == NO_OWNER || compare == c)
    ensures var e := SubmitPosted(q, opr, compare, x);
            P.Legal(g, StepsOf(s, e, r, c)) && Together(Next(s, e), P.Run(g, StepsOf(s, e, r, c)), r, c)
  {
    hide P.Inv, P.Legal, P.Run, Fits, PlaceOf, Inv, Listed, StepsOfMoves, StepsOfSubmit, CanMoveAll, MovedAll, Enqueue, Owed;
    var m := Enqueue(s, q, opr, compare);
    var a := StepsOfSubmit(q, compare, r, c);
    EnqueueJoins(s, q, opr, compare, g, r, c);
    EnqueueKeepsGood(s, q, opr, compare);
    SentJoins(m, x, {q}, P.Run(g, a), r, c);
    SentKeepsGood(m, x, {q});
    P.RunAppend(g, a, StepsOfMoves(Rest(m), x.Moves(), {q}, r, c));
  }

  lemma CompleteTogether(s: Channel, wc: Wc, dying: bool, x: Sending, g: P.State, r: Req, c: u32)
    requires Together(s, g, r, c) && Allowed(s, Complete(wc, dying, x)) && Answers(s, Complete(wc, dying, x), g, r, c)
    ensures var e := Complete(wc, dying, x);
            P.Legal(g, StepsOf(s, e, r, c)) && Together(Next(s, e), P.Run(g, StepsOf(s, e, r, c)), r, c)
  {
    hide P.Inv, P.Legal, P.Run, Fits, PlaceOf, Inv, Listed, StepsOfMoves, StepsOfWc, CanMoveAll, MovedAll, Completed, Truthful;
    if IgnoresWc(s, wc, dying) {
      NoSteps(g);
    } else {
      CompletedJoins(s, wc, dying, g, r, c);
      CompletedKeepsGood(s, wc, dying);
      var m := Completed(s, wc);
      var a := StepsOfWc(s, wc, r, c);
      SentJoins(m, x, {}, P.Run(g, a), r, c);
      SentKeepsGood(m, x, {});
      P.RunAppend(g, a, StepsOfMoves(Rest(m), x.Moves(), {}, r, c));
    }
  }

  lemma LeaveTogether(s: Channel, e: Event, g: P.State, r: Req, c: u32)
    requires Together(s, g, r, c) && Allowed(s, e) && (e.DrainAll? || e.DrainExpired? || e.AbortInProgress?)
    ensures P.Legal(g, StepsOf(s, e, r, c)) && Together(Next(s, e), P.Run(g, StepsOf(s, e, r, c)), r, c)
  {
    hide P.Inv, P.Legal, P.Run, Fits, PlaceOf, Inv, CasSlots, StepsOfLeaving, AbortedAll;
    var t := Next(s, e);
    NextKeepsGood(s, e);
    FitsMeansCas(s, PlaceOf(Rest(s), r), r, c, g.clients[c]);
    match e
    case DrainAll =>
      assert s.deferred[..|s.deferred|] == s.deferred;
      DrainPlaces(s, |s.deferred|, t, r);
      SlotsAlone(s, t, r);
      LeavingJoins(s, t, r in s.deferred, g, r, c);
    case DrainExpired(n, _) =>
      DrainPlaces(s, n, t, r);
      SlotsAlone(s, t, r);
      LeavingJoins(s, t, r in s.deferred[..n], g, r, c);
    case AbortInProgress =>
      AbortPlaces(s, r);
      AbortedAllKeepsRequest(s, r);
      LeavingJoins(s, t, PlaceOf(Rest(s), r) == InAir, g, r, c);
  }

  lemma SlotsAlone(s: Channel, t: Channel, r: Req)
    requires CasSlots(s, r) && t.slots == s.slots && t.cfg == s.cfg
    ensures CasSlots(t, r)
  {
  }

  lemma AsideTogether(s: Channel, e: Event, g: P.State, r: Req, c: u32)
    requires Together(s, g, r, c) && Allowed(s, e)
    requires e.Tick? || e.SubmitBypassed? || e.SubmitRefused? || e.Pause? || e.CallBack?
    ensures P.Legal(g, StepsOf(s, e, r, c)) && Together(Next(s, e), P.Run(g, StepsOf(s, e, r, c)), r, c)
  {
    hide P.Inv, P.Legal, P.Run, Fits, PlaceOf, Inv, CasSlots;
    var t := Next(s, e);
    NextKeepsGood(s, e);
    if e.CallBack? { CalledBackKeepsGood(s, e.k); }
    FitsMeansCas(s, PlaceOf(Rest(s), r), r, c, g.clients[c]);
    SamePlaces(s, t, r);
    SlotsAlone(s, t, r);
    NoSteps(g);
    StillFits(s, PlaceOf(Rest(s), r), t, r, c, g.clients[c]);
  }

  /** Whatever the channel does is a run of the client's steps, and keeps the two in step. */
  lemma EventTogether(s: Channel, e: Event, g: P.State, r: Req, c: u32)
    requires Together(s, g, r, c) && Allowed(s, e) && Proper(e, r, c) && Answers(s, e, g, r, c)
    ensures P.Legal(g, StepsOf(s, e, r, c)) && Together(Next(s, e), P.Run(g, StepsOf(s, e, r, c)), r, c)
  {
    hide P.Inv, P.Legal, P.Run, Fits, PlaceOf, Inv, Listed, Next, Allowed, StepsOf, Joined;
    match e
    case SubmitPosted(q, opr, compare, x) => SubmitTogether(s, q, opr, compare, x, g, r, c);
    case Complete(wc, dying, x) => CompleteTogether(s, wc, dying, x, g, r, c);
    case ProcessDeferred(x) => ProcessTogether(s, x, g, r, c);
    case DrainAll => LeaveTogether(s, e, g, r, c);
    case DrainExpired(_, _) => LeaveTogether(s, e, g, r, c);
    case AbortInProgress => LeaveTogether(s, e, g, r, c);
    case _ => AsideTogether(s, e, g, r, c);
  }

  lemma ProcessTogether(s: Channel, x: Sending, g: P.State, r: Req, c: u32)
    requires Together(s, g, r, c) && Allowed(s, ProcessDeferred(x))
    ensures var e := ProcessDeferred(x);
            P.Legal(g, StepsOf(s, e, r, c)) && Together(Next(s, e), P.Run(g, StepsOf(s, e, r, c)), r, c)
  {
    hide P.Inv, P.Legal, P.Run, Fits, PlaceOf, Inv, Listed, StepsOfMoves, CanSend, Sent;
    SentJoins(s, x, {}, g, r, c);
    SentKeepsGood(s, x, {});
  }

  // ---------------------------------------------------------------- whole runs

  /** One turn: an event of the channel, or a step of the rest of the world. */
  datatype Turn = Ours(e: Event) | Theirs(t: P.Step)

  /** The responder executing the client's work request, another client, or a blkset-info write. */
  predicate Elsewhere(t: P.Step, c: u32) { t.WriteInfo? || t.Land? || t.c != c }

  lemma ElsewhereTogether(s: Channel, g: P.State, t: P.Step, r: Req, c: u32)
    requires Together(s, g, r, c) && P.Enabled(g, t) && Elsewhere(t, c)
    ensures Together(s, P.Next(g, t), r, c)
  {
    hide Inv, PlaceOf, CasSlots, Effect;
    P.NextKeepsInv(g, t);
    hide P.Inv;
  }

  ghost predicate Possible(s: Channel, g: P.State, js: seq<Turn>, r: Req, c: u32)
    requires Together(s, g, r, c)
    decreases |js|
  {
    js != [] ==>
      match js[0]
      case Ours(e) =>
        && Allowed(s, e) && Proper(e, r, c) && Answers(s, e, g, r, c)
        && (EventTogether(s, e, g, r, c); Possible(Next(s, e), P.Run(g, StepsOf(s, e, r, c)), js[1..], r, c))
      case Theirs(t) =>
        && P.Enabled(g, t) && Elsewhere(t, c)
        && (ElsewhereTogether(s, g, t, r, c); Possible(s, P.Next(g, t), js[1..], r, c))
  }

  /** The channel's part of a run. */
  function EventsOf(js: seq<Turn>): seq<Event> {
    if js == [] then [] else (if js[0].Ours? then [js[0].e] else []) + EventsOf(js[1..])
  }

  /** The protocol's part of it. */
  ghost function ProtocolOf(s: Channel, g: P.State, js: seq<Turn>, r: Req, c: u32): seq<P.Step>
    requires Together(s, g, r, c) && Possible(s, g, js, r, c)
    decreases |js|
  {
    if js == [] then []
    else
      match js[0]
      case Ours(e) =>
        EventTogether(s, e, g, r, c);
        StepsOf(s, e, r, c) + ProtocolOf(Next(s, e), P.Run(g, StepsOf(s, e, r, c)), js[1..], r, c)
      case Theirs(t) =>
        ElsewhereTogether(s, g, t, r, c);
        [t] + ProtocolOf(s, P.Next(g, t), js[1..], r, c)
  }

  /** Over any run of the channel, with the responder and the other clients acting in between, what
      happens to the request is a legal run of the protocol, and at its end the two are in step. */
  lemma {:induction false} ChannelIsClient(s: Channel, g: P.State, js: seq<Turn>, r: Req, c: u32)
    requires Together(s, g, r, c) && Possible(s, g, js, r, c)
    ensures Legal(s, EventsOf(js)) && P.Legal(g, ProtocolOf(s, g, js, r, c))
    ensures Together(Run(s, EventsOf(js)), P.Run(g, ProtocolOf(s, g, js, r, c)), r, c)
    decreases |js|
  {
    hide P.Inv, P.Enabled, P.Next, P.Legal, P.Run, Fits, PlaceOf, Inv, Listed, Next, Allowed, Legal, Run, StepsOf, Answers, Proper;
    if js == [] {
      NoSteps(g);
      NoEvents(s);
    } else if js[0].Ours? {
      var e, rest := js[0].e, EventsOf(js[1..]);
      EventTogether(s, e, g, r, c);
      var t, h := Next(s, e), P.Run(g, StepsOf(s, e, r, c));
      ChannelIsClient(t, h, js[1..], r, c);
      EventFirst(s, e, rest);
      P.RunAppend(g, StepsOf(s, e, r, c), ProtocolOf(t, h, js[1..], r, c));
    } else {
      var t := js[0].t;
      ElsewhereTogether(s, g, t, r, c);
      ChannelIsClient(s, P.Next(g, t), js[1..], r, c);
      OneStep(g, t);
      P.RunAppend(g, [t], ProtocolOf(s, P.Next(g, t), js[1..], r, c));
      assert [] + EventsOf(js[1..]) == EventsOf(js[1..]);
    }
  }

  lemma NoEvents(s: Channel)
    requires Good(s)
    ensures Legal(s, []) && Run(s, []) == s
  {
  }

  /** A channel that has not seen the request yet and a client that has not sent one are in step. */
  lemma TogetherAtFirst(s: Channel, g: P.State, r: Req, c: u32)
    requires Idle(s) && r !in s.comps && (forall i | 0 <= i < |s.slots| :: s.slots[i].comp != Live(r))
    requires P.Init(g) && c in g.clients
    ensures Together(s, g, r, c)
  {
    InvIsListed(Rest(s));
    LineAtRest(s);
    hide Inv;
    assert ReqsOf(s.slots, s.inProgress) == [];
  }

  /** So a channel's client that was told TAKEN, and has not asked to release since, is the only
      holder of the lock, its id is in the entry, whatever else went on; as long as no reply of
      anybody was a false grant. */
  lemma ChannelExcludes(s: Channel, g: P.State, js: seq<Turn>, r: Req, c: u32)
    requires Together(s, g, r, c) && Possible(s, g, js, r, c) && P.Owned(g)
    requires P.Legal(g, ProtocolOf(s, g, js, r, c)) && P.NoFalseGrant(g, ProtocolOf(s, g, js, r, c))
    ensures var h := P.Run(g, ProtocolOf(s, g, js, r, c));
            && c in h.clients
            && (h.clients[c].holding ==> h.entry.id == c && forall d | d in h.clients && h.clients[d].holding :: d == c)
  {
    hide P.Inv, P.Owned, P.Legal, P.Run, P.NoFalseGrant, Fits, PlaceOf, Inv, Possible, ProtocolOf;
    ChannelIsClient(s, g, js, r, c);
    P.MutualExclusion(g, ProtocolOf(s, g, js, r, c));
  }

  /** The status a completion delivers is what the request did to the entry: TAKEN exactly if it
      exchanged the id, if and only if the reply is not a misread one. */
  lemma StatusIsTrue(s: Channel, wc: Wc, dying: bool, g: P.State, r: Req, c: u32)
    requires Together(s, g, r, c) && WcPossible(s, wc) && !IgnoresWc(s, wc, dying) && wc.ok
    requires ReqAt(s.slots[wc.idx]) == r && Truthful(s, wc, g, r, c)
    ensures r in s.comps && s.comps[r].nmcs.Ok() && c in g.clients && g.clients[c].req.Some?
    ensures !WantsRetry(s.slots[wc.idx], s.comps[r], wc) ==>
              (Completed(s, wc).comps[r].status.StatusTaken? <==> g.clients[c].req.value.swaps == 1)
              <==> !Misread(s.cfg.caps.UsesMask(), s.comps[r].compare, s.comps[r].nmcs, wc.val)
  {
    hide P.Inv, P.Enabled, P.Next, PlaceOf, CasSlots, Inv, Completed, WantsRetry, Delivered;
    LiveWc(s, wc, dying);
    CompletedPlaces(s, wc, dying, r);
    FitsMeansCas(s, InAir, r, c, g.clients[c]);
    CompletedKeepsRequest(s, wc, r);
    ReplyFits(s, wc, Completed(s, wc), g, r, c);
    P.ReplyIsTruthful(g, c);
  }

  /** The client's reading of a reply. */
  function After(g: P.State, c: u32): P.State
    requires P.Inv(g) && P.Enabled(g, P.Reply(c))
  {
    P.Next(g, P.Reply(c))
  }

  /** A client holds the lock after a reply exactly if it held it or is told TAKEN for taking it. */
  lemma StatusGrants(s: Channel, wc: Wc, dying: bool, g: P.State, r: Req, c: u32)
    requires Together(s, g, r, c) && WcPossible(s, wc) && !IgnoresWc(s, wc, dying) && wc.ok
    requires ReqAt(s.slots[wc.idx]) == r && Truthful(s, wc, g, r, c)
    ensures r in s.comps && s.comps[r].nmcs.Ok() && P.Enabled(g, P.Reply(c)) && c in After(g, c).clients
    ensures After(g, c).clients[c].holding
         == (g.clients[c].holding || (Completed(s, wc).comps[r].status.StatusTaken? && s.comps[r].compare == NO_OWNER))
  {
    hide P.Inv, P.Enabled, P.Next, PlaceOf, CasSlots, Inv, Completed, WantsRetry, Delivered;
    IdIsNoOwner(g, c);
    LiveWc(s, wc, dying);
    CompletedPlaces(s, wc, dying, r);
    FitsMeansCas(s, InAir, r, c, g.clients[c]);
    CompletedKeepsRequest(s, wc, r);
    ReplyFits(s, wc, Completed(s, wc), g, r, c);
    KeepsClients(g, P.Reply(c), c);
  }

  lemma IdIsNoOwner(g: P.State, c: u32)
    requires P.Inv(g) && c in g.clients
    ensures c != NO_OWNER
  {
    hide P.ClientInv;
  }
}
