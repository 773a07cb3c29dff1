/** What requesters are told, and what is posted for them. The status of every callback of every
    run of the lock channel is given here, and with it that TAKEN and CONTENDED are answers of the
    responder and of nobody else; and the kind of work request posted for every kind of request. */
module LockStatus {
  import opened LockEntry
  import opened LockEngine
  import opened LockInvariant
  import opened LockRuns
  import opened LockJoin
  import P = LockProtocol

  // ---------------------------------------------------------------- callbacks while sending

  /** Only a refused request of somebody else is called back, as failed; no other record changes. */
  lemma MoveTells(w: Work, m: Move, own: set<Req>, r: Req)
    requires CanMove(w, m)
    ensures var v := Moved(w, m, own).ch;
            if m.Retire? && Head(w) == r && r !in own then
              && r in w.ch.comps && r in v.comps && v.called[r] == w.ch.called[r] + 1
              && v.comps[r] == w.ch.comps[r].(status := FailComp)
            else
              && v.called[r] == w.ch.called[r] && (r in v.comps <==> r in w.ch.comps)
              && (r in w.ch.comps ==> v.comps[r] == w.ch.comps[r])
  {
    if m == Retire { RetireTells(w, own, r); } else { OthersTellNobody(w, m, own); }
  }

  lemma OthersTellNobody(w: Work, m: Move, own: set<Req>)
    requires CanMove(w, m) && !m.Retire?
    ensures Moved(w, m, own).ch.called == w.ch.called && Moved(w, m, own).ch.comps == w.ch.comps
  {
    hide ReqsOf, BackSlots, PreparedSlot;
  }

  lemma RetireTells(w: Work, own: set<Req>, r: Req)
    requires CanMove(w, Retire)
    ensures var v := Moved(w, Retire, own).ch;
            if Head(w) == r && r !in own then
              && r in w.ch.comps && r in v.comps && v.called[r] == w.ch.called[r] + 1
              && v.comps[r] == w.ch.comps[r].(status := FailComp)
            else
              && v.called[r] == w.ch.called[r] && (r in v.comps <==> r in w.ch.comps)
              && (r in w.ch.comps ==> v.comps[r] == w.ch.comps[r])
  {
    hide FreeOpr;
    FreeOprSlots(w.ch, w.out[0], false);
  }

  lemma MovePlaces(w: Work, m: Move, own: set<Req>, r: Req)
    requires Inv(w) && CanMove(w, m)
    ensures Listed(w) && Listed(Moved(w, m, own))
    ensures PlaceOf(Moved(w, m, own), r) == if m.Post? && Head(w) == r then InAir
                                            else if m.Retire? && Head(w) == r then Nowhere
                                            else PlaceOf(w, r)
    ensures (m.Post? || m.Retire?) && Head(w) == r ==> PlaceOf(w, r) == InLine
  {
    hide PlaceOf, Moved, CanMove, ListsInv, SlotsInv, AtomsInv, LedgerInv, QueueInv, CompsInv, Head;
    match m
    case Take => TakePlaces(w, own, r);
    case Post => PostPlaces(w, own, r);
    case Reject => RejectPlaces(w, own, r);
    case Undo(from) => UndoPlaces(w, from, own, r);
    case Retire => RetirePlaces(w, own, r);
  }

  /** Nothing was told to r and its record is as it was. */
  ghost predicate Untold(s: Channel, t: Channel, r: Req) {
    && t.called[r] == s.called[r] && (r in t.comps <==> r in s.comps) && (r in s.comps ==> t.comps[r] == s.comps[r])
  }

  /** r was called back once, as failed. */
  ghost predicate ToldFailed(s: Channel, t: Channel, r: Req) {
    && r in s.comps && r in t.comps && t.called[r] == s.called[r] + 1 && t.comps[r] == s.comps[r].(status := FailComp)
  }

  lemma {:induction false} MovesTell(w: Work, ms: seq<Move>, own: set<Req>, r: Req)
    requires Inv(w) && CanMoveAll(w, ms, own)
    ensures Listed(w)
    ensures var t := MovedAll(w, ms, own).ch;
            || Untold(w.ch, t, r)
            || (PlaceOf(w, r) == InLine && r !in own && ToldFailed(w.ch, t, r))
    decreases |ms|
  {
    hide Inv, CanMove, Moved, PlaceOf, Head;
    InvIsListed(w);
    if ms != [] {
      MoveKeepsInv(w, ms[0], own);
      MovePlaces(w, ms[0], own, r);
      MoveTells(w, ms[0], own, r);
      MovesTell(Moved(w, ms[0], own), ms[1..], own, r);
    }
  }

  lemma SentTells(s: Channel, x: Sending, own: set<Req>, r: Req)
    requires Good(s) && CanSend(s, x, own)
    ensures Listed(Rest(s))
    ensures var t := Sent(s, x, own);
            Untold(s, t, r) || (PlaceOf(Rest(s), r) == InLine && r !in own && ToldFailed(s, t, r))
  {
    hide Inv, CanMoveAll, MovedAll, PlaceOf, Untold, ToldFailed;
    MovesTell(Rest(s), x.Moves(), own, r);
  }

  // ---------------------------------------------------------------- callbacks of every event

  /** The completion is the request's own. */
  predicate OwnCompletion(s: Channel, e: Event, r: Req) {
    e.Complete? && e.wc.idx < |s.slots| && s.slots[e.wc.idx].comp == Live(r) && !IgnoresWc(s, e.wc, e.dying)
  }

  /** A plain compare-and-swap that met another blkset-info and may be tried again. */
  predicate TriesAgain(s: Channel, wc: Wc, r: Req)
    requires wc.idx < |s.slots| && r in s.comps
  {
    && wc.ok && s.slots[wc.idx].opcode.OpCas?
    && s.comps[r].nmcs.attempts < 8 && wc.val.bi != s.comps[r].nmcs.last
  }

  lemma CompletedTells(s: Channel, wc: Wc, dying: bool, r: Req)
    requires Good(s) && WcPossible(s, wc) && !IgnoresWc(s, wc, dying)
    ensures ReqAt(s.slots[wc.idx]) in s.comps && s.comps[ReqAt(s.slots[wc.idx])].nmcs.Ok()
    ensures s.slots[wc.idx].comp == Live(ReqAt(s.slots[wc.idx]))
    ensures ReqAt(s.slots[wc.idx]) != r ==> Untold(s, Completed(s, wc), r)
    ensures ReqAt(s.slots[wc.idx]) == r ==>
              && Completed(s, wc).called[r] == s.called[r] + (if TriesAgain(s, wc, r) && !s.paused then 0 else 1)
              && r in Completed(s, wc).comps
  {
    hide Inv, Completed;
    LiveWc(s, wc, dying);
    CompletionStatus(s, wc, dying);
    CompletedCalls(s, wc, r);
  }

  lemma CompletedCalls(s: Channel, wc: Wc, r: Req)
    requires wc.idx < |s.slots| && ReqAt(s.slots[wc.idx]) in s.comps && s.comps[ReqAt(s.slots[wc.idx])].nmcs.Ok()
    ensures var q, t := ReqAt(s.slots[wc.idx]), Completed(s, wc);
            && q in t.comps && (q != r ==> Untold(s, t, r))
            && t.called == (if TriesAgain(s, wc, q) && !s.paused then s.called else s.called + multiset{q})
  {
    hide FreeOpr, Delivered, ReqAt;
    FreeOprSlots(s, wc.idx, true);
  }

  lemma CompleteTells(s: Channel, wc: Wc, dying: bool, x: Sending, r: Req)
    requires Good(s) && Allowed(s, Complete(wc, dying, x)) && !IgnoresWc(s, wc, dying)
    ensures OwnCompletion(s, Complete(wc, dying, x), r) ==> r in s.comps
    ensures var e := Complete(wc, dying, x);
            var t := Next(s, e);
            if !OwnCompletion(s, e, r) then Untold(s, t, r) || ToldFailed(s, t, r)
            else if TriesAgain(s, wc, r) && !s.paused then
              t.called[r] == s.called[r] || (t.called[r] == s.called[r] + 1 && r in t.comps && t.comps[r].status.FailComp?)
            else
              && r in t.comps && t.called[r] == s.called[r] + 1
              && t.comps[r].status == AnswerTo(s, wc, r)
  {
    hide Inv, CanMoveAll, MovedAll, PlaceOf, Completed;
    CompletedTells(s, wc, dying, r);
    CompletedKeepsGood(s, wc, dying);
    CompletionStatus(s, wc, dying);
    InvIsListed(Rest(s));
    CompletedPlaces(s, wc, dying, r);
    SentTells(Completed(s, wc), x, {}, r);
    if ReqAt(s.slots[wc.idx]) == r { WcPaused(s, wc, r); }
  }

  /** What the responder's answer means: an error; the request is to be tried again, but the channel
      is paused; a write is done; a read found an owner or none; a compare-and-swap found the id it
      compared with or another one. */
  function AnswerTo(s: Channel, wc: Wc, r: Req): Status
    requires wc.idx < |s.slots| && r in s.comps
  {
    if !wc.ok then FailComp
    else if TriesAgain(s, wc, r) then FailNoComp
    else match s.slots[wc.idx].opcode
      case OpWrite => StatusTaken
      case OpRead => if wc.val.id == 0 then StatusTaken else StatusContended
      case _ => if wc.val.id == s.comps[r].compare then StatusTaken else StatusContended
  }

  lemma SubmitTells(s: Channel, q: Req, opr: Opr, compare: u32, x: Sending, r: Req)
    requires Good(s) && Allowed(s, SubmitPosted(q, opr, compare, x))
    ensures var t := Next(s, SubmitPosted(q, opr, compare, x));
            && (q != r ==> Untold(s, t, r) || ToldFailed(s, t, r))
            && (q == r ==> t.called[r] == s.called[r] && r in t.comps
                           && t.comps[r] == Comp(opr, compare, Memory(s, r), s.now, FailNoComp))
  {
    hide Inv, CanMoveAll, MovedAll, PlaceOf;
    EnqueueKeepsGood(s, q, opr, compare);
    SentTells(Enqueue(s, q, opr, compare), x, {q}, r);
  }

  /** The status of every callback: a request is called back at most once in an event. If the event
      is not its own completion it is told FailComp: it was refused, drained, expired or aborted.
      Its own completion tells it what the responder answered, unless it is tried again; and then
      it may be refused at once. */
  lemma DeliveredStatus(s: Channel, e: Event, r: Req)
    requires Good(s) && Allowed(s, e) && !e.SubmitBypassed? && Next(s, e).called[r] != s.called[r]
    ensures Next(s, e).called[r] == s.called[r] + 1 && r in Next(s, e).comps
    ensures OwnCompletion(s, e, r) ==> r in s.comps
    ensures Next(s, e).comps[r].status
         == if OwnCompletion(s, e, r) && !(TriesAgain(s, e.wc, r) && !s.paused) then AnswerTo(s, e.wc, r) else FailComp
  {
    hide Inv, CanMoveAll, MovedAll, Completed, AbortedAll, TriesAgain, AnswerTo;
    match e
    case SubmitPosted(q, opr, compare, x) => SubmitTells(s, q, opr, compare, x, r);
    case Complete(wc, dying, x) => CompleteTells(s, wc, dying, x, r);
    case ProcessDeferred(x) => SentTells(s, x, {}, r);
    case CallBack(k) => CalledBackKeepsGood(s, k);
    case _ =>
  }

  /** A submission through the queue keeps what was asked for, and when. */
  lemma SubmissionIsRecorded(s: Channel, r: Req, opr: Opr, compare: u32, x: Sending)
    requires Good(s) && Allowed(s, SubmitPosted(r, opr, compare, x))
    ensures var t := Next(s, SubmitPosted(r, opr, compare, x));
            && r in t.comps && t.comps[r].opr == opr && t.comps[r].compare == compare
            && t.comps[r].deferredAt == s.now && t.comps[r].status.FailNoComp?
            && t.comps[r].nmcs == (if r in s.comps then s.comps[r].nmcs else Nmcs(0, 0))
  {
    hide Inv, CanMoveAll, MovedAll;
    SubmitTells(s, r, opr, compare, x, r);
  }

  /** After an error, or a retry that met a paused channel, nothing is posted. */
  lemma ErrorPostsNothing(s: Channel, wc: Wc, dying: bool, x: Sending)
    requires Good(s) && Allowed(s, Complete(wc, dying, x)) && !IgnoresWc(s, wc, dying)
    ensures ReqAt(s.slots[wc.idx]) in s.comps
    ensures !wc.ok || (TriesAgain(s, wc, ReqAt(s.slots[wc.idx])) && s.paused) ==>
              var t := Next(s, Complete(wc, dying, x));
              && t.deferred == s.deferred && t.inProgress == Unlink(s.inProgress, wc.idx)
              && forall i | 0 <= i < |s.slots| && i != wc.idx :: i < |t.slots| && t.slots[i] == s.slots[i]
  {
    hide Inv, Unlink;
    LiveWc(s, wc, dying);
    CompletedSlots(s, wc);
    NothingSends(Completed(s, wc));
    hide FreeOpr, Delivered;
    FreeOprKeepsQueue(s, wc.idx);
  }

  lemma FreeOprKeepsQueue(s: Channel, i: nat)
    requires i < |s.slots|
    ensures FreeOpr(s, i, true).deferred == s.deferred
  {
  }

  // ---------------------------------------------------------------- answers over whole runs

  /** What the event tells the request is what its client reads: TAKEN or CONTENDED only from a
      reply, and then by the client's verdict; otherwise that it failed. */
  ghost predicate Honest(s: Channel, e: Event, g: P.State, r: Req, c: u32)
    requires Together(s, g, r, c) && Allowed(s, e)
  {
    var st := if r in Next(s, e).comps then Next(s, e).comps[r].status else FailComp;
    Next(s, e).called[r] != s.called[r] ==>
      && (st.StatusTaken? || st.StatusContended? ==>
            && StepsOf(s, e, r, c) != [] && StepsOf(s, e, r, c)[0] == P.Reply(c) && P.Enabled(g, P.Reply(c))
            && (st.StatusTaken? <==> P.VerdictOf(c, g.clients[c].req.value, g.clients[c].nmcs).Taken?)
            && (st.StatusContended? <==> P.VerdictOf(c, g.clients[c].req.value, g.clients[c].nmcs).Contended?))
      && (StepsOf(s, e, r, c) == [] || StepsOf(s, e, r, c)[0] != P.Reply(c) ==> st.FailComp?)
  }

  lemma OwnIsReply(s: Channel, wc: Wc, dying: bool, x: Sending, g: P.State, r: Req, c: u32)
    requires Together(s, g, r, c) && Allowed(s, Complete(wc, dying, x)) && Answers(s, Complete(wc, dying, x), g, r, c)
    requires OwnCompletion(s, Complete(wc, dying, x), r)
    ensures r in s.comps
    ensures wc.ok ==> StepsOf(s, Complete(wc, dying, x), r, c) != [] && StepsOf(s, Complete(wc, dying, x), r, c)[0] == P.Reply(c)
    ensures wc.ok ==> P.Enabled(g, P.Reply(c))
    ensures wc.ok ==> var v := P.VerdictOf(c, g.clients[c].req.value, g.clients[c].nmcs);
              && (v.Retry? <==> TriesAgain(s, wc, r))
              && (v.Taken? <==> AnswerTo(s, wc, r).StatusTaken?)
              && (v.Contended? <==> AnswerTo(s, wc, r).StatusContended?)
  {
    hide P.Inv, P.Next, PlaceOf, CasSlots, Inv, Completed, Delivered, StepsOfMoves, CanMoveAll, MovedAll;
    LiveWc(s, wc, dying);
    if wc.ok {
      CompletedPlaces(s, wc, dying, r);
      FitsMeansCas(s, InAir, r, c, g.clients[c]);
      CompletedKeepsRequest(s, wc, r);
      ReplyFits(s, wc, Completed(s, wc), g, r, c);
      CompletionStatus(s, wc, dying);
    }
  }

  lemma EventIsHonest(s: Channel, e: Event, g: P.State, r: Req, c: u32)
    requires Together(s, g, r, c) && Allowed(s, e) && Proper(e, r, c) && Answers(s, e, g, r, c)
    ensures Honest(s, e, g, r, c)
  {
    hide P.Inv, P.Enabled, P.Next, Fits, PlaceOf, Inv, Next, Allowed, StepsOf, Answers, AnswerTo, TriesAgain, P.VerdictOf;
    if Next(s, e).called[r] != s.called[r] {
      if e.SubmitBypassed? {
        BypassTells(s, e, r);
      } else {
        DeliveredStatus(s, e, r);
        if OwnCompletion(s, e, r) {
          OwnIsReply(s, e.wc, e.dying, e.x, g, r, c);
          AnswerKinds(s, e.wc, r);
        }
      }
    }
  }

  lemma BypassTells(s: Channel, e: Event, r: Req)
    requires Good(s) && Allowed(s, e) && e.SubmitBypassed? && e.r != r
    ensures Next(s, e).called[r] == s.called[r]
  {
    hide Inv;
  }

  lemma AnswerKinds(s: Channel, wc: Wc, r: Req)
    requires wc.idx < |s.slots| && r in s.comps
    ensures !wc.ok ==> AnswerTo(s, wc, r).FailComp? && !TriesAgain(s, wc, r)
    ensures wc.ok && TriesAgain(s, wc, r) ==> AnswerTo(s, wc, r).FailNoComp?
  {
  }

  ghost predicate AlwaysHonest(s: Channel, g: P.State, js: seq<Turn>, r: Req, c: u32)
    requires Together(s, g, r, c) && Possible(s, g, js, r, c)
    decreases |js|
  {
    js != [] ==>
      match js[0]
      case Ours(e) =>
        && Honest(s, e, g, r, c)
        && (EventTogether(s, e, g, r, c); AlwaysHonest(Next(s, e), P.Run(g, StepsOf(s, e, r, c)), js[1..], r, c))
      case Theirs(t) =>
        ElsewhereTogether(s, g, t, r, c);
        AlwaysHonest(s, P.Next(g, t), js[1..], r, c)
  }

  /** Over any run, TAKEN and CONTENDED are told only by a reply of the client, as it reads it; a
      request that leaves in any other way is told that it failed. */
  lemma {:induction false} AnswersAreReplies(s: Channel, g: P.State, js: seq<Turn>, r: Req, c: u32)
    requires Together(s, g, r, c) && Possible(s, g, js, r, c)
    ensures AlwaysHonest(s, g, js, r, c)
    decreases |js|
  {
    hide P.Inv, P.Enabled, P.Next, P.Legal, P.Run, Fits, PlaceOf, Inv, Listed, Next, Allowed, StepsOf, Answers, Proper, Honest;
    if js != [] {
      match js[0]
      case Ours(e) =>
        EventTogether(s, e, g, r, c);
        EventIsHonest(s, e, g, r, c);
        AnswersAreReplies(Next(s, e), P.Run(g, StepsOf(s, e, r, c)), js[1..], r, c);
      case Theirs(t) =>
        ElsewhereTogether(s, g, t, r, c);
        AnswersAreReplies(s, P.Next(g, t), js[1..], r, c);
    }
  }

  // ---------------------------------------------------------------- what is posted

  /** The work request for each kind of request: a compare-and-swap, masked if the device can mask it
      or has no plain one; a read; or a write. */
  predicate RightOpcode(opcode: Opcode, opr: Opr, caps: Caps) {
    match opr
    case CmpAndSwap => opcode == if caps.maskedAtomic || !caps.atomic then OpMaskedCas else OpCas
    case LockRead => opcode == OpRead
    case ForceWrite => opcode == OpWrite
    case InfoWrite => opcode == OpWrite
  }

  ghost predicate RightAt(s: Channel, i: nat) {
    i < |s.slots| && s.slots[i].comp.Live? && s.slots[i].comp.req in s.comps ==>
      RightOpcode(s.slots[i].opcode, s.comps[s.slots[i].comp.req].opr, s.cfg.caps)
  }

  ghost predicate AllRight(w: Work) { forall i | i in w.ch.inProgress || i in w.out :: RightAt(w.ch, i) }

  /** The slot is as it was, or a slot of no request; and every request asks for what it asked for. */
  lemma StillRight(s: Channel, t: Channel, i: nat)
    requires RightAt(s, i) && t.cfg == s.cfg && |t.slots| == |s.slots|
    requires i < |s.slots| && t.slots[i].comp.Live? ==> t.slots[i].comp == s.slots[i].comp && t.slots[i].opcode == s.slots[i].opcode
    requires forall q | q in t.comps :: q in s.comps && t.comps[q].opr == s.comps[q].opr
    ensures RightAt(t, i)
  {
  }

  lemma TakeIsRight(w: Work, own: set<Req>)
    requires CanMove(w, Take) && AllRight(w) && WorkApart(w)
    ensures AllRight(Moved(w, Take, own))
  {
    var v := Moved(w, Take, own);
    assert w.ch.free[0] in w.ch.free;
    forall i | i in v.ch.inProgress || i in v.out ensures RightAt(v.ch, i) {
      if i != w.ch.free[0] { StillRight(w.ch, v.ch, i); }
    }
  }

  lemma ChainIsRight(w: Work, m: Move, own: set<Req>)
    requires CanMove(w, m) && !m.Take? && AllRight(w)
    ensures AllRight(Moved(w, m, own))
  {
    var v := Moved(w, m, own);
    MoveKeepsOprs(w, m, own);
    forall i | i in v.ch.inProgress || i in v.out ensures RightAt(v.ch, i) {
      assert i in w.ch.inProgress || i in w.out;
      StillRight(w.ch, v.ch, i);
    }
  }

  /** Freeing a slot touches no other slot and no record. */
  lemma FreeOprSlots(s: Channel, i: nat, counted: bool)
    requires i < |s.slots|
    ensures var t := FreeOpr(s, i, counted);
            && t.cfg == s.cfg && t.comps == s.comps && t.called == s.called && |t.slots| == |s.slots|
            && (forall j | 0 <= j < |s.slots| && j != i :: t.slots[j] == s.slots[j])
            && (t.slots[i].comp.Live? ==> t.slots[i].comp == s.slots[i].comp && t.slots[i].opcode == s.slots[i].opcode)
            && t.inProgress == (if counted then Unlink(s.inProgress, i) else s.inProgress)
  {
    hide Unlink;
  }

  lemma RetireKeepsOprs(w: Work, own: set<Req>)
    requires CanMove(w, Retire)
    ensures var v := Moved(w, Retire, own);
            && v.ch.cfg == w.ch.cfg && |v.ch.slots| == |w.ch.slots|
            && (forall q | q in v.ch.comps :: q in w.ch.comps && v.ch.comps[q].opr == w.ch.comps[q].opr)
            && (forall i | 0 <= i < |w.ch.slots| && v.ch.slots[i].comp.Live? ::
                  v.ch.slots[i].comp == w.ch.slots[i].comp && v.ch.slots[i].opcode == w.ch.slots[i].opcode)
            && v.ch.inProgress == w.ch.inProgress && v.out == w.out[1..]
  {
    hide FreeOpr;
    FreeOprSlots(w.ch, w.out[0], false);
  }

  lemma MoveKeepsOprs(w: Work, m: Move, own: set<Req>)
    requires CanMove(w, m) && !m.Take?
    ensures var v := Moved(w, m, own);
            && v.ch.cfg == w.ch.cfg && |v.ch.slots| == |w.ch.slots|
            && (forall q | q in v.ch.comps :: q in w.ch.comps && v.ch.comps[q].opr == w.ch.comps[q].opr)
            && (forall i | 0 <= i < |w.ch.slots| && v.ch.slots[i].comp.Live? ::
                  v.ch.slots[i].comp == w.ch.slots[i].comp && v.ch.slots[i].opcode == w.ch.slots[i].opcode)
            && (forall i | i in v.ch.inProgress || i in v.out :: i in w.ch.inProgress || i in w.out)
  {
    if m == Retire {
      hide Moved;
      RetireKeepsOprs(w, own);
    } else {
      hide ReqsOf, FreeOpr, Settle;
    }
  }

  lemma {:induction false} MovesAreRight(w: Work, ms: seq<Move>, own: set<Req>)
    requires Inv(w) && CanMoveAll(w, ms, own) && AllRight(w)
    ensures AllRight(MovedAll(w, ms, own))
    decreases |ms|
  {
    hide ListsInv, SlotsInv, AtomsInv, LedgerInv, QueueInv, CompsInv, CanMove, Moved, AllRight, WorkApart;
    if ms != [] {
      MoveKeepsInv(w, ms[0], own);
      InvIsApart(w);
      if ms[0] == Take { TakeIsRight(w, own); } else { ChainIsRight(w, ms[0], own); }
      MovesAreRight(Moved(w, ms[0], own), ms[1..], own);
    }
  }

  lemma SentIsRight(s: Channel, x: Sending, own: set<Req>)
    requires Good(s) && CanSend(s, x, own) && AllRight(Rest(s))
    ensures AllRight(Rest(Sent(s, x, own)))
  {
    hide Inv, CanMoveAll, MovedAll;
    MovesAreRight(Rest(s), x.Moves(), own);
  }

  lemma EnqueueIsRight(s: Channel, q: Req, opr: Opr, compare: u32)
    requires Good(s) && Listed(Rest(s)) && q !in Owed(Rest(s)) && AllRight(Rest(s))
    ensures AllRight(Rest(Enqueue(s, q, opr, compare)))
  {
    var t := Enqueue(s, q, opr, compare);
    forall i | i in t.inProgress ensures RightAt(t, i) {
      assert RightAt(s, i);
      BusyIsQueued(s, i);
      assert ReqAt(s.slots[i]) in Owed(Rest(s));
    }
  }

  lemma DroppedIsRight(s: Channel, t: Channel, i: nat)
    requires AllRight(Rest(s)) && t.cfg == s.cfg && |t.slots| == |s.slots| && t.inProgress == Unlink(s.inProgress, i)
    requires i in s.inProgress && Distinct(s.inProgress)
    requires forall j | 0 <= j < |s.slots| && j != i :: t.slots[j] == s.slots[j]
    requires forall q | q in t.comps :: q in s.comps && t.comps[q].opr == s.comps[q].opr
    ensures AllRight(Rest(t))
  {
    UnlinkSeq(s.inProgress, i);
    forall j | j in t.inProgress ensures RightAt(t, j) {
      assert j in multiset(t.inProgress) && j in multiset(s.inProgress);
      assert RightAt(s, j);
      StillRight(s, t, j);
    }
  }

  lemma CompletedIsRight(s: Channel, wc: Wc, dying: bool)
    requires Good(s) && WcPossible(s, wc) && !IgnoresWc(s, wc, dying) && AllRight(Rest(s))
    ensures ReqAt(s.slots[wc.idx]) in s.comps && s.comps[ReqAt(s.slots[wc.idx])].nmcs.Ok()
    ensures AllRight(Rest(Completed(s, wc)))
  {
    hide ListsInv, SlotsInv, AtomsInv, LedgerInv, QueueInv, CompsInv, Unlink, AllRight, Completed;
    LiveWc(s, wc, dying);
    InvIsApart(Rest(s));
    CompletedSlots(s, wc);
    DroppedIsRight(s, Completed(s, wc), wc.idx);
  }

  lemma CompletedSlots(s: Channel, wc: Wc)
    requires wc.idx < |s.slots| && ReqAt(s.slots[wc.idx]) in s.comps && s.comps[ReqAt(s.slots[wc.idx])].nmcs.Ok()
    ensures var t := Completed(s, wc);
            && t.cfg == s.cfg && |t.slots| == |s.slots| && t.inProgress == Unlink(s.inProgress, wc.idx)
            && (forall j | 0 <= j < |s.slots| && j != wc.idx :: t.slots[j] == s.slots[j])
            && (forall q | q in t.comps :: q in s.comps && t.comps[q].opr == s.comps[q].opr)
  {
    hide FreeOpr, ReqAt, Unlink;
    FreeOprSlots(s, wc.idx, true);
  }

  lemma AbortedOneIsRight(s: Channel)
    requires Good(s) && s.inProgress != [] && AllRight(Rest(s))
    requires s.inProgress[0] < |s.slots| && ReqAt(s.slots[s.inProgress[0]]) in s.comps
    ensures AllRight(Rest(AbortedOne(s)))
  {
    InvIsApart(Rest(s));
    hide Inv, Unlink, AllRight, FreeOpr;
    assert s.inProgress[0] in s.inProgress;
    FreeOprSlots(s.(slots := s.slots[s.inProgress[0] := s.slots[s.inProgress[0]].(aborted := true)]), s.inProgress[0], true);
    DroppedIsRight(s, AbortedOne(s), s.inProgress[0]);
  }

  lemma {:induction false} AbortedAllIsRight(s: Channel)
    requires Good(s) && AllRight(Rest(s))
    ensures AllRight(Rest(AbortedAll(s)))
    decreases |s.inProgress|
  {
    hide Inv, AbortedOne, AllRight;
    if s.inProgress != [] {
      AbortedOneKeepsGood(s);
      AbortedOneIsRight(s);
      AbortedAllIsRight(AbortedOne(s));
    }
  }

  lemma AsideIsRight(s: Channel, t: Channel)
    requires AllRight(Rest(s)) && t.cfg == s.cfg && t.slots == s.slots && t.inProgress == s.inProgress
    requires forall q | q in t.comps :: q in s.comps && t.comps[q].opr == s.comps[q].opr
    ensures AllRight(Rest(t))
  {
    forall i | i in t.inProgress ensures RightAt(t, i) {
      assert RightAt(s, i);
      StillRight(s, t, i);
    }
  }

  lemma EventIsRight(s: Channel, e: Event)
    requires Good(s) && Allowed(s, e) && AllRight(Rest(s))
    ensures AllRight(Rest(Next(s, e)))
  {
    hide Inv, CanMoveAll, MovedAll, Completed, AbortedAll, AllRight, Owed;
    match e
    case SubmitPosted(q, opr, compare, x) =>
      InvIsListed(Rest(s));
      EnqueueIsRight(s, q, opr, compare);
      EnqueueKeepsGood(s, q, opr, compare);
      SentIsRight(Enqueue(s, q, opr, compare), x, {q});
    case Complete(wc, dying, x) =>
      if !IgnoresWc(s, wc, dying) {
        CompletedIsRight(s, wc, dying);
        CompletedKeepsGood(s, wc, dying);
        SentIsRight(Completed(s, wc), x, {});
      }
    case ProcessDeferred(x) => SentIsRight(s, x, {});
    case AbortInProgress => AbortedAllIsRight(s);
    case CallBack(k) =>
      CalledBackKeepsGood(s, k);
      AsideIsRight(s, CalledBack(s, k));
    case _ => AsideIsRight(s, Next(s, e));
  }

  lemma {:induction false} RunIsRight(s: Channel, es: seq<Event>)
    requires Good(s) && Legal(s, es) && AllRight(Rest(s))
    ensures AllRight(Rest(Run(s, es)))
    decreases |es|
  {
    hide Inv, Allowed, Next, AllRight;
    if es != [] {
      EventIsRight(s, es[0]);
      NextKeepsGood(s, es[0]);
      RunIsRight(Next(s, es[0]), es[1..]);
    }
  }

  /** In every state of every run from an idle channel, every operation in progress is the work
      request its request asks for. */
  lemma PostedAsAsked(s: Channel, es: seq<Event>, i: nat)
    requires Idle(s) && Legal(s, es) && i in Run(s, es).inProgress
    ensures var t := Run(s, es);
            && i < |t.slots| && t.slots[i].comp.Live? && t.slots[i].comp.req in t.comps
            && RightOpcode(t.slots[i].opcode, t.comps[t.slots[i].comp.req].opr, t.cfg.caps)
  {
    hide Run, Legal;
    var t := Run(s, es);
    RunKeepsGood(s, es);
    RunIsRight(s, es);
    InListIs(t.slots, t.inProgress, KBusy, i);
    BusyIsQueued(t, i);
    hide Inv;
    assert RightAt(t, i);
  }
}
