/** The reference count that keeps a channel's request table alive. It starts at one; users add
    and drop references; the thread that frees the table drops the initial one and waits for the
    last user to complete it. Any number of users run at once. */
module ReqInfoDrain {

  /** Where the waiting thread is. */
  datatype Waiter =
    | Idle
    | Entered          // has seen a positive count
    | Armed            // has set reqs_comp
    | Waiting          // has dropped the initial reference; others were left
    | Woken            // nobody is left, or the completion has arrived
    | Left             // has cleared reqs_comp and returned

  /** `users` hold a reference; `last` users have dropped the count to zero and are about to
      complete; `done` is the state of the completion on the waiter's stack. */
  datatype State = State(count: int, users: nat, last: nat, comp: bool, done: nat, completes: nat, waiter: Waiter)

  datatype Step = TryUse | EndUse | Complete | Enter | Arm | Drop | Wake | Leave

  const INIT: State := State(1, 0, 0, false, 0, 0, Idle)

  predicate Allowed(s: State, t: Step) {
    match t
    case TryUse => true
    case EndUse => s.users > 0
    case Complete => s.last > 0
    case Enter => s.waiter.Idle?
    case Arm => s.waiter.Entered?
    case Drop => s.waiter.Armed?
    case Wake => s.waiter.Waiting? && s.done > 0
    case Leave => s.waiter.Woken?
  }

  function Next(s: State, t: Step): State
    requires Allowed(s, t)
  {
    match t
    case TryUse => if s.count == 0 then s else s.(count := s.count + 1, users := s.users + 1)
    case EndUse => s.(count := s.count - 1, users := s.users - 1, last := if s.count == 1 then s.last + 1 else s.last)
    case Complete => s.(last := s.last - 1, done := s.done + 1, completes := s.completes + 1)
    case Enter => s.(waiter := if s.count > 0 then Entered else Left)
    case Arm => s.(comp := true, waiter := Armed)
    case Drop => s.(count := s.count - 1, waiter := if s.count == 1 then Woken else Waiting)
    case Wake => s.(done := s.done - 1, waiter := Woken)
    case Leave => s.(comp := false, waiter := Left)
  }

  predicate Before(w: Waiter) { w.Idle? || w.Entered? || w.Armed? }

  /** Nobody has dropped the count to zero yet. */
  predicate Open(s: State) { s.last == 0 && s.done == 0 && s.completes == 0 }

  /** Nobody holds a reference or is about to complete. */
  predicate Over(s: State) { s.count == 0 && s.users == 0 && s.last == 0 && s.done == 0 && s.completes <= 1 }

  /** The initial reference is held until the waiter drops it; after that the last user, and only
      the last user, completes. */
  predicate Inv(s: State) {
    match s.waiter
    case Idle => s.count == s.users + 1 && !s.comp && Open(s)
    case Entered => s.count == s.users + 1 && !s.comp && Open(s)
    case Armed => s.count == s.users + 1 && s.comp && Open(s)
    case Waiting =>
      && s.count == s.users && s.comp
      && if s.count > 0 then Open(s)
         else (s.last == 1 && s.done == 0 && s.completes == 0) || (s.last == 0 && s.done == 1 && s.completes == 1)
    case Woken => s.comp && Over(s)
    case Left => !s.comp && Over(s)
  }

  lemma UserKeepsInv(s: State, t: Step)
    requires Inv(s) && Allowed(s, t) && (t.TryUse? || t.EndUse? || t.Complete?)
    ensures Inv(Next(s, t))
  {
  }

  lemma WaiterKeepsInv(s: State, t: Step)
    requires Inv(s) && Allowed(s, t) && !t.TryUse? && !t.EndUse? && !t.Complete?
    ensures Inv(Next(s, t))
  {
  }

  lemma NextKeepsInv(s: State, t: Step)
    requires Inv(s) && Allowed(s, t)
    ensures Inv(Next(s, t))
  {
    hide Inv, Next, Allowed;
    if t.TryUse? || t.EndUse? || t.Complete? { UserKeepsInv(s, t); } else { WaiterKeepsInv(s, t); }
  }

  predicate Legal(s: State, ts: seq<Step>)
    decreases |ts|
  {
    ts != [] ==> Allowed(s, ts[0]) && Legal(Next(s, ts[0]), ts[1..])
  }

  function Run(s: State, ts: seq<Step>): State
    requires Legal(s, ts)
    decreases |ts|
  {
    if ts == [] then s else Run(Next(s, ts[0]), ts[1..])
  }

  lemma {:induction false} RunKeepsInv(s: State, ts: seq<Step>)
    requires Inv(s) && Legal(s, ts)
    ensures Inv(Run(s, ts))
    decreases |ts|
  {
    hide Inv, Next, Allowed;
    if ts != [] {
      NextKeepsInv(s, ts[0]);
      RunKeepsInv(Next(s, ts[0]), ts[1..]);
    }
  }

  /** In every state of every run: the count is zero only once the waiter has set reqs_comp and
      dropped its reference; whoever is about to complete finds reqs_comp set, and the waiter still
      there; complete() has been called at most once; and a waiter that has stopped waiting leaves
      no user, and nobody about to complete, behind. */
  lemma DrainIsSafe(ts: seq<Step>)
    requires Legal(INIT, ts)
    ensures var t := Run(INIT, ts);
            && (t.count == 0 ==> !Before(t.waiter) && t.users == 0)
            && (t.last > 0 ==> t.comp && t.waiter.Waiting?)
            && t.completes <= 1
            && (t.waiter.Woken? || t.waiter.Left? ==> t.count == 0 && t.users == 0 && t.last == 0)
  {
    hide Run, Legal;
    RunKeepsInv(INIT, ts);
  }

  /** Once the count is zero it stays zero, so no later attempt to use the table succeeds. */
  lemma {:induction false} ZeroIsFinal(s: State, ts: seq<Step>)
    requires Inv(s) && Legal(s, ts) && s.count == 0
    ensures Run(s, ts).count == 0 && Run(s, ts).users == 0
    decreases |ts|
  {
    hide Next, Allowed;
    ZeroMeansUnused(s);
    hide Inv;
    if ts != [] {
      NextKeepsInv(s, ts[0]);
      ZeroStays(s, ts[0]);
      ZeroIsFinal(Next(s, ts[0]), ts[1..]);
    }
  }

  lemma ZeroMeansUnused(s: State)
    requires Inv(s) && s.count == 0
    ensures s.users == 0
  {
  }

  lemma ZeroStays(s: State, t: Step)
    requires Inv(s) && Allowed(s, t) && s.count == 0
    ensures Next(s, t).count == 0
  {
  }

  /** A waiter is never stuck: while it waits, some user holds a reference, or is about to
      complete, or the completion is there. */
  lemma WaiterIsNotForgotten(ts: seq<Step>)
    requires Legal(INIT, ts) && Run(INIT, ts).waiter.Waiting?
    ensures var t := Run(INIT, ts);
            Allowed(t, EndUse) || Allowed(t, Complete) || Allowed(t, Wake)
  {
    hide Run, Legal;
    RunKeepsInv(INIT, ts);
  }

  lemma {:induction false} RunMore(s: State, ts: seq<Step>, t: Step)
    requires Legal(s, ts) && Allowed(Run(s, ts), t)
    ensures Legal(s, ts + [t]) && Run(s, ts + [t]) == Next(Run(s, ts), t)
    decreases |ts|
  {
    hide Next, Allowed;
    if ts == [] {
      assert [t][1..] == [] && ts + [t] == [t];
    } else {
      assert (ts + [t])[1..] == ts[1..] + [t];
      RunMore(Next(s, ts[0]), ts[1..], t);
    }
  }

  lemma BiasHeld(s: State)
    requires Inv(s) && Before(s.waiter)
    ensures s.count == s.users + 1
  {
  }

  lemma WaitsForSomebody(s: State)
    requires Inv(s) && s.waiter.Waiting? && s.done == 0
    ensures s.users > 0 || s.last > 0
  {
  }

  lemma LeftMeansUnused(s: State)
    requires Inv(s) && s.waiter.Left?
    ensures !s.comp && Over(s)
  {
  }

  lemma LastIsAwaited(s: State)
    requires Inv(s) && s.last > 0
    ensures s.comp && s.waiter.Waiting?
  {
  }

  /** The channel's two fields, changed by single atomic operations, the completion on the waiter's
      stack, and how many other threads hold a reference or are about to complete. */
  class ReqInfoRef {
    var nUserReqs: int
    var reqsComp: bool
    var done: nat
    var users: nat
    var last: nat
    ghost var s: State
    ghost var run: seq<Step>      // everything that has happened so far

    ghost predicate Valid()
      reads this
    {
      && Legal(INIT, run) && s == Run(INIT, run) && Inv(s)
      && nUserReqs == s.count && reqsComp == s.comp && done == s.done && users == s.users && last == s.last
    }

    constructor ()
      ensures Valid() && s == INIT && run == []
    {
      nUserReqs, reqsComp, done, users, last := 1, false, 0, 0, 0;
      s, run := INIT, [];
    }

    ghost method Take(t: Step)
      requires Legal(INIT, run) && s == Run(INIT, run) && Inv(s) && Allowed(s, t)
      modifies `s, `run
      ensures Legal(INIT, run) && s == Run(INIT, run) && Inv(s) && s == Next(old(s), t) && run == old(run) + [t]
    {
      hide Inv, Legal, Run;
      NextKeepsInv(s, t);
      RunMore(INIT, run, t);
      s, run := Next(s, t), run + [t];
    }

    /** nvmeibc_channel_try_use_req_info */
    method TryUse() returns (ok: bool)
      requires Valid()
      modifies this
      ensures Valid() && s == Next(old(s), Step.TryUse) && run == old(run) + [Step.TryUse]
      ensures ok <==> old(nUserReqs) != 0
    {
      hide Inv, Legal, Run;
      Take(Step.TryUse);
      ok := nUserReqs != 0;
      if ok {
        nUserReqs, users := nUserReqs + 1, users + 1;
      }
    }

    /** The atomic part of nvmeibc_channel_end_use_req_info; `isLast` tells whether it must
        complete, and then there is something to complete. */
    method EndUse() returns (isLast: bool)
      requires Valid() && users > 0
      modifies this
      ensures Valid() && s == Next(old(s), Step.EndUse) && run == old(run) + [Step.EndUse]
      ensures (isLast <==> nUserReqs == 0) && (isLast ==> reqsComp && s.waiter.Waiting?)
    {
      hide Inv, Legal, Run;
      Take(Step.EndUse);
      nUserReqs, users := nUserReqs - 1, users - 1;
      isLast := nUserReqs == 0;
      if isLast {
        last := last + 1;
        LastIsAwaited(s);
      }
    }

    /** The rest of it, by whoever dropped the last reference. */
    method CompleteReqs()
      requires Valid() && last > 0
      modifies this
      ensures Valid() && s == Next(old(s), Complete) && run == old(run) + [Complete]
    {
      hide Inv, Legal, Run;
      Take(Complete);
      last, done := last - 1, done + 1;
    }

    /** One user, or the last one, goes on. */
    method UserGoesOn()
      requires Valid() && (users > 0 || last > 0)
      modifies this
      ensures Valid() && s.waiter == old(s.waiter) && old(run) <= run && 2 * users + last < old(2 * users + last)
    {
      hide Inv, Legal, Run;
      if
      case users > 0 => var _ := EndUse();
      case last > 0 => CompleteReqs();
    }

    /** Anything other threads may do meanwhile, with at most `budget` new attempts to use the
        table. */
    method Others(budget: nat) returns (left: nat)
      requires Valid()
      modifies this
      ensures Valid() && s.waiter == old(s.waiter) && old(run) <= run
      ensures left <= budget && (left == budget ==> 2 * users + last <= old(2 * users + last))
    {
      hide Inv, Legal, Run;
      left := budget;
      var n: nat :| true;
      for i := 0 to n
        invariant Valid() && s.waiter == old(s.waiter) && old(run) <= run
        invariant left <= budget && (left == budget ==> 2 * users + last <= old(2 * users + last))
      {
        if
        case left > 0 =>
          var _ := TryUse();
          left := left - 1;
        case users > 0 || last > 0 => UserGoesOn();
        case true =>
      }
    }

    method SetComp()
      requires Valid() && Allowed(s, Arm)
      modifies this
      ensures Valid() && s == Next(old(s), Arm) && run == old(run) + [Arm]
    {
      hide Inv, Legal, Run;
      Take(Arm);
      reqsComp := true;
    }

    method DropInitial() returns (others: bool)
      requires Valid() && Allowed(s, Drop)
      modifies this
      ensures Valid() && s == Next(old(s), Drop) && run == old(run) + [Drop]
      ensures if others then s.waiter.Waiting? else s.waiter.Woken?
    {
      hide Inv, Legal, Run;
      Take(Drop);
      nUserReqs := nUserReqs - 1;
      others := nUserReqs != 0;
    }

    /** The wait, repeated as often as it times out. */
    method AwaitLast(budget: nat) returns (left: nat)
      requires Valid() && s.waiter.Waiting?
      modifies this
      ensures Valid() && s.waiter.Woken? && old(run) <= run
    {
      hide Inv, Legal, Run, Next;
      left := budget;
      while done == 0
        invariant Valid() && s.waiter.Waiting? && old(run) <= run
        decreases left, 2 * users + last
      {
        WaitsForSomebody(s);
        UserGoesOn();
        left := Others(left);
      }
      Waken();
    }

    method Waken()
      requires Valid() && Allowed(s, Wake)
      modifies this
      ensures Valid() && s.waiter.Woken? && s == Next(old(s), Wake) && run == old(run) + [Wake]
    {
      hide Inv, Legal, Run;
      Take(Wake);
      done := done - 1;
    }

    method ClearComp()
      requires Valid() && Allowed(s, Leave)
      modifies this
      ensures Valid() && s == Next(old(s), Leave) && run == old(run) + [Leave]
      ensures s.waiter.Left? && nUserReqs == 0 && !reqsComp && done == 0 && users == 0 && last == 0
    {
      hide Inv, Legal, Run;
      Take(Leave);
      reqsComp := false;
      LeftMeansUnused(s);
    }

    method SeeUsed() returns (used: bool)
      requires Valid() && Allowed(s, Enter)
      modifies `s, `run
      ensures Valid() && s == Next(old(s), Enter) && run == old(run) + [Enter] && used && s.waiter.Entered?
    {
      hide Inv, Legal, Run;
      BiasHeld(s);
      Take(Enter);
      used := nUserReqs > 0;
    }

    /** nvmeibc_channel_wait_used_req_infos, whatever the users do meanwhile: if they make finitely
        many new attempts and those that can go on do, it returns, and then nobody uses the table,
        or is about to complete, or ever will. */
    method WaitUsed(budget: nat)
      requires Valid() && s.waiter.Idle?
      modifies this
      ensures Valid() && s.waiter.Left? && old(run) <= run
      ensures nUserReqs == 0 && !reqsComp && done == 0 && users == 0 && last == 0
    {
      hide Inv, Legal, Run;
      var used := SeeUsed();
      if used {
        var left := Others(budget);
        SetComp();
        left := Others(left);
        var others := DropInitial();
        if others {
          left := AwaitLast(left);
        }
        left := Others(left);
        ClearComp();
      }
    }
  }
}
