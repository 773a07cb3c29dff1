/** Dirty-bits commands of a disk all answer into one shared buffer, so they are run one at a
    time: a running flag, a list of waiting requests, and whoever finishes a command starts the
    next one. Threads are followed from one critical section or device call to the next. */
module DirtyBits {
  type Req = nat

  /** Where a thread that deals with the running command is. */
  datatype Pc =
    | Executing(r: Req, direct: bool)   // set the running flag, about to hand the command to the device
    | CallingBack(r: Req, ok: bool)     // in the request's callback; on success it reads the buffer
    | Releasing                         // about to look for the next request

  /** `log` and `taken` record the requests that had to wait, in the order they were queued, and
      in the order they left the queue. `succeeded` counts the commands the device completed
      successfully, and `told` the callbacks that were made with success. */
  datatype State = State(
    running: bool, stopping: bool, pending: seq<Req>,
    inFlight: seq<Req>, threads: seq<Pc>,
    log: seq<Req>, taken: seq<Req>, accepted: multiset<Req>, called: multiset<Req>,
    succeeded: multiset<Req>, told: multiset<Req>)

  datatype Step =
    | Submit(r: Req)
    | ExecOk(i: nat)
    | ExecFail(i: nat)
    | Complete(j: nat, ok: bool)
    | CallbackDone(i: nat)
    | Release(i: nat)
    | Stop
    | Restart                           // rediscovery takes requests again

  const INIT: State := State(false, false, [], [], [], [], [], multiset{}, multiset{}, multiset{}, multiset{})

  function Without<T>(l: seq<T>, i: nat): seq<T>
    requires i < |l|
  {
    l[..i] + l[i + 1..]
  }

  /** The requests that are owed a callback by the thread at pc. */
  function Held(pc: Pc): multiset<Req> {
    match pc
    case Executing(r, direct) => if direct then multiset{} else multiset{r}
    case CallingBack(r, _) => multiset{r}
    case Releasing => multiset{}
  }

  ghost function HeldBy(threads: seq<Pc>): multiset<Req> {
    if threads == [] then multiset{} else Held(threads[0]) + HeldBy(threads[1..])
  }

  ghost function Owed(s: State): multiset<Req> {
    multiset(s.pending) + multiset(s.inFlight) + HeldBy(s.threads)
  }

  predicate Allowed(s: State, t: Step) {
    match t
    case Submit(_) => true
    case ExecOk(i) => i < |s.threads| && s.threads[i].Executing?
    case ExecFail(i) => i < |s.threads| && s.threads[i].Executing?
    case Complete(j, _) => j < |s.inFlight|
    case CallbackDone(i) => i < |s.threads| && s.threads[i].CallingBack?
    case Release(i) => i < |s.threads| && s.threads[i].Releasing?
    case Stop => true
    case Restart => true
  }

  function Submitted(s: State, r: Req): State {
    if s.stopping then s
    else if s.running then s.(pending := s.pending + [r], log := s.log + [r], accepted := s.accepted + multiset{r})
    else s.(running := true, threads := s.threads + [Executing(r, true)])
  }

  function Released(s: State, i: nat): State
    requires i < |s.threads|
  {
    if s.pending == [] then s.(running := false, threads := Without(s.threads, i))
    else s.(pending := s.pending[1..], taken := s.taken + [s.pending[0]],
            threads := s.threads[i := Executing(s.pending[0], false)])
  }

  function Next(s: State, t: Step): State
    requires Allowed(s, t)
  {
    match t
    case Submit(r) => Submitted(s, r)
    case ExecOk(i) =>
      var pc := s.threads[i];
      s.(inFlight := s.inFlight + [pc.r], threads := Without(s.threads, i),
         accepted := if pc.direct then s.accepted + multiset{pc.r} else s.accepted)
    case ExecFail(i) =>
      var pc := s.threads[i];
      s.(threads := s.threads[i := if pc.direct then Releasing else CallingBack(pc.r, false)])
    case Complete(j, ok) =>
      s.(inFlight := Without(s.inFlight, j), threads := s.threads + [CallingBack(s.inFlight[j], ok)],
         succeeded := if ok then s.succeeded + multiset{s.inFlight[j]} else s.succeeded)
    case CallbackDone(i) =>
      var pc := s.threads[i];
      s.(called := s.called + multiset{pc.r}, threads := s.threads[i := Releasing],
         told := if pc.ok then s.told + multiset{pc.r} else s.told)
    case Release(i) => Released(s, i)
    case Stop =>
      s.(stopping := true, called := s.called + multiset(s.pending), taken := s.taken + s.pending, pending := [])
    case Restart => s.(stopping := false)
  }

  predicate Single(s: State) {
    && |s.inFlight| + |s.threads| == (if s.running then 1 else 0)
    && (s.pending != [] ==> s.running && !s.stopping)
  }

  /** The success that is about to be told. */
  ghost function ToTell(s: State): multiset<Req> {
    if s.threads != [] && s.threads[0].CallingBack? && s.threads[0].ok then multiset{s.threads[0].r} else multiset{}
  }

  /** Success is told for exactly the commands that succeeded. */
  ghost predicate Truthful(s: State) { s.succeeded == s.told + ToTell(s) && s.told <= s.called }

  ghost predicate Inv(s: State) {
    && Single(s) && Truthful(s)
    && s.log == s.taken + s.pending
    && s.accepted == s.called + Owed(s)
  }

  lemma NextKeepsSingle(s: State, t: Step)
    requires Single(s) && Allowed(s, t)
    ensures Single(Next(s, t))
  {
  }

  lemma NextKeepsTruthful(s: State, t: Step)
    requires Single(s) && Truthful(s) && Allowed(s, t)
    ensures Truthful(Next(s, t))
  {
    match t
    case Submit(r) => SubmitKeepsTruthful(s, r);
    case ExecOk(i) => SilentKeepsTruthful(s, t, i);
    case ExecFail(i) => SilentKeepsTruthful(s, t, i);
    case Complete(j, ok) => CompleteKeepsTruthful(s, j, ok);
    case CallbackDone(i) => TellKeepsTruthful(s, i);
    case Release(i) => SilentKeepsTruthful(s, t, i);
    case Stop =>
    case Restart =>
  }

  lemma SilentKeepsTruthful(s: State, t: Step, i: nat)
    requires Single(s) && Truthful(s) && Allowed(s, t) && t in {ExecOk(i), ExecFail(i), Release(i)}
    ensures Truthful(Next(s, t))
  {
    assert s.threads == [s.threads[i]] && ToTell(s) == multiset{} && ToTell(Next(s, t)) == multiset{};
  }

  lemma SubmitKeepsTruthful(s: State, r: Req)
    requires Single(s) && Truthful(s)
    ensures Truthful(Submitted(s, r))
  {
  }

  lemma CompleteKeepsTruthful(s: State, j: nat, ok: bool)
    requires Single(s) && Truthful(s) && Allowed(s, Complete(j, ok))
    ensures Truthful(Next(s, Complete(j, ok)))
  {
    assert s.threads == [];
    assert ToTell(s) == multiset{};
  }

  lemma TellKeepsTruthful(s: State, i: nat)
    requires Single(s) && Truthful(s) && Allowed(s, CallbackDone(i))
    ensures Truthful(Next(s, CallbackDone(i)))
  {
    var r := s.threads[i].r;
    assert s.threads[0] == s.threads[i];
    assert s.told + multiset{r} <= s.called + multiset{r};
  }

  lemma NextKeepsOrder(s: State, t: Step)
    requires s.log == s.taken + s.pending && Allowed(s, t)
    ensures Next(s, t).log == Next(s, t).taken + Next(s, t).pending
  {
  }

  /** With at most one command about, what is owed is the queue and that command. */
  ghost function Current(s: State): multiset<Req> {
    if s.threads != [] then Held(s.threads[0])
    else if s.inFlight != [] then multiset{s.inFlight[0]}
    else multiset{}
  }

  lemma OwedIs(s: State)
    requires Single(s)
    ensures Owed(s) == multiset(s.pending) + Current(s)
  {
    if s.threads != [] {
      assert s.threads[1..] == [] && HeldBy(s.threads[1..]) == multiset{} && s.inFlight == [];
      assert HeldBy(s.threads) == Held(s.threads[0]);
    } else if s.inFlight != [] {
      assert s.inFlight == [s.inFlight[0]];
    }
  }

  ghost predicate Balanced(s: State) { s.accepted == s.called + (multiset(s.pending) + Current(s)) }

  lemma SubmitKeepsBalanced(s: State, r: Req)
    requires Single(s) && Balanced(s)
    ensures Balanced(Next(s, Submit(r)))
  {
  }

  lemma HeadOut(a: multiset<Req>, k: multiset<Req>, p: seq<Req>)
    requires p != [] && a == k + (multiset(p) + multiset{})
    ensures a == k + (multiset(p[1..]) + multiset{p[0]})
  {
    assert p == [p[0]] + p[1..];
  }

  lemma ReleaseKeepsBalanced(s: State, i: nat)
    requires Single(s) && Balanced(s) && Allowed(s, Release(i))
    ensures Balanced(Next(s, Release(i)))
  {
    assert Current(s) == multiset{};
    if s.pending != [] {
      HeadOut(s.accepted, s.called, s.pending);
      assert Current(Next(s, Release(i))) == multiset{s.pending[0]};
    }
  }

  lemma CallbackKeepsBalanced(s: State, i: nat)
    requires Single(s) && Balanced(s) && Allowed(s, CallbackDone(i))
    ensures Balanced(Next(s, CallbackDone(i)))
  {
    CallbackIsCurrent(s, i);
  }

  lemma DeviceKeepsCurrent(s: State, t: Step)
    requires Single(s) && Allowed(s, t) && (t.ExecOk? || t.ExecFail? || t.Complete?)
    ensures Current(Next(s, t)) == if t.ExecOk? then multiset{s.threads[t.i].r} else Current(s)
    ensures t.ExecOk? && s.threads[t.i].direct ==> Current(s) == multiset{}
    ensures t.ExecOk? && !s.threads[t.i].direct ==> Current(s) == multiset{s.threads[t.i].r}
  {
  }

  lemma DeviceKeepsBalanced(s: State, t: Step)
    requires Single(s) && Balanced(s) && Allowed(s, t) && (t.ExecOk? || t.ExecFail? || t.Complete?)
    ensures Balanced(Next(s, t))
  {
    hide Current;
    DeviceKeepsCurrent(s, t);
  }

  lemma NextKeepsLedger(s: State, t: Step)
    requires Single(s) && s.accepted == s.called + Owed(s) && Allowed(s, t)
    ensures Next(s, t).accepted == Next(s, t).called + Owed(Next(s, t))
  {
    hide Owed, Current;
    NextKeepsSingle(s, t);
    OwedIs(s);
    OwedIs(Next(s, t));
    assert Balanced(s);
    assert Balanced(Next(s, t)) by {
      match t
      case Submit(r) => SubmitKeepsBalanced(s, r);
      case Release(i) => ReleaseKeepsBalanced(s, i);
      case Stop => StopKeepsBalanced(s);
      case Restart => assert Current(Next(s, t)) == Current(s) by { RestartKeepsCurrent(s); }
      case CallbackDone(i) => CallbackKeepsBalanced(s, i);
      case _ => DeviceKeepsBalanced(s, t);
    }
  }

  lemma StopKeepsBalanced(s: State)
    requires Balanced(s)
    ensures Balanced(Next(s, Stop))
  {
    assert Current(Next(s, Stop)) == Current(s);
  }

  lemma RestartKeepsCurrent(s: State)
    ensures Current(Next(s, Restart)) == Current(s)
  {
  }

  lemma NextKeepsInv(s: State, t: Step)
    requires Inv(s) && Allowed(s, t)
    ensures Inv(Next(s, t))
  {
    hide Owed, Truthful;
    NextKeepsSingle(s, t);
    NextKeepsTruthful(s, t);
    NextKeepsOrder(s, t);
    NextKeepsLedger(s, t);
  }

  predicate Legal(s: State, ts: seq<Step>)
    decreases |ts|
  {
    ts != [] ==> Allowed(s, ts[0]) && Legal(Next(s, ts[0]), ts[1..])
  }

  function Run(s: State, ts: seq<Step>): State
    requires Legal(s, ts)
    decreases |ts|
  {
    if ts == [] then s else Run(Next(s, ts[0]), ts[1..])
  }

  lemma {:induction false} RunKeepsInv(s: State, ts: seq<Step>)
    requires Inv(s) && Legal(s, ts)
    ensures Inv(Run(s, ts))
    decreases |ts|
  {
    hide Inv, Next, Allowed;
    if ts != [] {
      NextKeepsInv(s, ts[0]);
      RunKeepsInv(Next(s, ts[0]), ts[1..]);
    }
  }

  lemma InitSatisfiesInv()
    ensures Inv(INIT)
  {
  }

  /** In every state of every run: at most one command is with the device; while any callback runs,
      none is, and no other thread is about to start one, so nobody writes the buffer it reads;
      whoever waits is waited for by a running command; and requests leave the queue in the order
      they entered it. */
  lemma SingleFlight(ts: seq<Step>)
    requires Legal(INIT, ts)
    ensures var t := Run(INIT, ts);
            && |t.inFlight| <= 1
            && (forall i | 0 <= i < |t.threads| && t.threads[i].CallingBack? :: t.inFlight == [] && |t.threads| == 1)
            && (t.pending != [] ==> t.running && |t.inFlight| + |t.threads| == 1)
            && t.log == t.taken + t.pending
  {
    hide Run, Legal;
    InitSatisfiesInv();
    RunKeepsInv(INIT, ts);
  }

  /** Every accepted request has had its callback once, or is waiting for it; when nothing runs,
      all have. */
  lemma ExactlyOnce(ts: seq<Step>, r: Req)
    requires Legal(INIT, ts)
    ensures var t := Run(INIT, ts);
            && t.accepted[r] == t.called[r] + Owed(t)[r]
            && (!t.running ==> t.accepted == t.called)
  {
    hide Run, Legal;
    InitSatisfiesInv();
    RunKeepsInv(INIT, ts);
    OwedIs(Run(INIT, ts));
  }

  /** In every state of every run, the callbacks made with success are those of the commands that
      the device completed successfully, save one that is about to be told; all other callbacks
      were made with an error. */
  lemma SuccessIsTold(ts: seq<Step>)
    requires Legal(INIT, ts)
    ensures var t := Run(INIT, ts);
            && t.told <= t.called && t.told <= t.succeeded
            && ((forall i | 0 <= i < |t.threads| :: !t.threads[i].CallingBack?) ==> t.told == t.succeeded)
            && (forall i | 0 <= i < |t.threads| && t.threads[i].CallingBack? ::
                  t.succeeded == if t.threads[i].ok then t.told + multiset{t.threads[i].r} else t.told)
  {
    hide Run, Legal, Owed;
    InitSatisfiesInv();
    RunKeepsInv(INIT, ts);
  }

  /** A submission the device refuses at once is not accepted and is owed no callback. */
  lemma RefusedIsForgotten(s: State, i: nat)
    requires Inv(s) && Allowed(s, ExecFail(i)) && s.threads[i].direct
    ensures var t := Next(s, ExecFail(i)); t.accepted == s.accepted && t.called == s.called && Owed(t) == Owed(s)
  {
    NextKeepsSingle(s, ExecFail(i));
    OwedIs(s);
    OwedIs(Next(s, ExecFail(i)));
  }

  lemma {:induction false} RunMore(s: State, ts: seq<Step>, t: Step)
    requires Legal(s, ts) && Allowed(Run(s, ts), t)
    ensures Legal(s, ts + [t]) && Run(s, ts + [t]) == Next(Run(s, ts), t)
    decreases |ts|
  {
    if ts == [] {
      assert [t][1..] == [] && ts + [t] == [t];
    } else {
      assert (ts + [t])[1..] == ts[1..] + [t];
      RunMore(Next(s, ts[0]), ts[1..], t);
    }
  }

  lemma SingleOf(s: State)
    requires Inv(s)
    ensures Single(s)
  {
  }

  /** From a to b, apart from commands started at once: what was accepted was queued, and what left
      the queue was called back or is the current command. */
  ghost predicate Grown(a: State, b: State) {
    && a.log <= b.log && a.taken <= b.taken
    && b.accepted == a.accepted + multiset(b.log[|a.log|..])
    && b.called + Current(b) == a.called + Current(a) + multiset(b.taken[|a.taken|..])
  }

  lemma GrownNot(s: State)
    ensures Grown(s, s)
  {
    assert s.log[|s.log|..] == [] && s.taken[|s.taken|..] == [];
  }

  lemma AddedUp(x: seq<Req>, y: seq<Req>, z: seq<Req>)
    requires x <= y <= z
    ensures x <= z && multiset(z[|x|..]) == multiset(y[|x|..]) + multiset(z[|y|..])
  {
    assert z[|x|..] == z[|x|..|y|] + z[|y|..] && z[|x|..|y|] == y[|x|..];
  }

  lemma GrownOn(a: State, b: State, c: State)
    requires Grown(a, b) && Grown(b, c)
    ensures Grown(a, c)
  {
    hide Current;
    AddedUp(a.log, b.log, c.log);
    AddedUp(a.taken, b.taken, c.taken);
  }

  lemma Longer(l: seq<Req>, x: seq<Req>)
    ensures l <= l + x && (l + x)[|l|..] == x
  {
  }

  /** Every step does so but the device's taking a command started at once. */
  lemma NextGrows(s: State, t: Step)
    requires Single(s) && Allowed(s, t) && (t.ExecOk? ==> !s.threads[t.i].direct)
    ensures Grown(s, Next(s, t))
  {
    hide Current;
    GrownNot(s);
    match t
    case Submit(r) =>
      SubmitKeepsCurrent(s, r);
      Longer(s.log, [r]);
    case Stop =>
      StopKeepsCurrent(s);
      Longer(s.taken, s.pending);
    case Restart => RestartKeepsCurrent(s);
    case Release(i) =>
      ReleaseTakes(s, i);
      if s.pending != [] { Longer(s.taken, [s.pending[0]]); }
    case CallbackDone(i) => CallbackIsCurrent(s, i);
    case _ => DeviceKeepsCurrent(s, t);
  }

  lemma SubmitKeepsCurrent(s: State, r: Req)
    requires Single(s)
    ensures Current(Next(s, Submit(r))) == Current(s)
  {
  }

  lemma StopKeepsCurrent(s: State)
    ensures Current(Next(s, Stop)) == Current(s)
  {
  }

  lemma ReleaseTakes(s: State, i: nat)
    requires Single(s) && Allowed(s, Release(i))
    ensures Current(s) == multiset{}
    ensures Current(Next(s, Release(i))) == if s.pending == [] then multiset{} else multiset{s.pending[0]}
  {
  }

  lemma CallbackIsCurrent(s: State, i: nat)
    requires Single(s) && Allowed(s, CallbackDone(i))
    ensures Current(s) == multiset{s.threads[i].r} && Current(Next(s, CallbackDone(i))) == multiset{}
  {
  }

  /** The device has taken r, which was started at once; apart from that what was accepted was
      queued, and what left the queue was called back. */
  ghost predicate StartedAtOnce(a: State, b: State, r: Req) {
    && b.inFlight == [r] && a.log <= b.log && a.taken <= b.taken
    && b.accepted == a.accepted + multiset(b.log[|a.log|..]) + multiset{r}
    && b.called == a.called + multiset(b.taken[|a.taken|..])
  }

  lemma TakenAtOnce(a: State, b: State, r: Req)
    requires Grown(a, b) && a.threads == b.threads == [Executing(r, true)] && b.inFlight == []
    ensures StartedAtOnce(a, Next(b, ExecOk(0)), r)
  {
    assert Current(a) == Current(b) == multiset{};
    assert b.called + multiset{} == b.called && a.called + multiset{} == a.called;
  }

  lemma StartedOn(a: State, b: State, c: State, r: Req)
    requires Single(a) && !a.running && b == Next(a, Submit(r)) && StartedAtOnce(b, c, r)
    ensures a.stopping || StartedAtOnce(a, c, r)
  {
  }

  datatype Start = Busy | Deferred | Started

  /** The disk's dirty-bits fields, changed in place under dirty_bits_spinlock. */
  class Queue {
    var running: bool
    var stopping: bool
    var pending: seq<Req>
    ghost var s: State
    ghost var run: seq<Step>      // everything that has happened so far

    ghost predicate Valid()
      reads this
    {
      Legal(INIT, run) && s == Run(INIT, run) && Inv(s)
      && running == s.running && stopping == s.stopping && pending == s.pending
    }

    constructor ()
      ensures Valid() && s == INIT
    {
      running, stopping, pending := false, false, [];
      s, run := INIT, [];
      new;
      InitSatisfiesInv();
    }

    /** What happens outside the fields: a device call or a callback. */
    ghost method Happens(t: Step)
      requires Valid() && Allowed(s, t) && (t.ExecOk? || t.ExecFail? || t.Complete? || t.CallbackDone?)
      modifies `s, `run
      ensures Valid() && s == Next(old(s), t) && run == old(run) + [t]
      ensures (t.ExecOk? ==> !old(s).threads[t.i].direct) ==> Grown(old(s), s)
    {
      hide Inv, Legal, Run, Grown;
      SingleOf(s);
      if t.ExecOk? ==> !s.threads[t.i].direct { NextGrows(s, t); }
      NextKeepsInv(s, t);
      RunMore(INIT, run, t);
      s, run := Next(s, t), run + [t];
    }

    /** The critical section of nvmeibc_disk_get_db_ec_rl. */
    method TryStart(r: Req) returns (how: Start)
      requires Valid()
      modifies this
      ensures Valid() && s == Next(old(s), Submit(r)) && run == old(run) + [Submit(r)] && Grown(old(s), s)
      ensures how == if old(stopping) then Busy else if old(running) then Deferred else Started
    {
      hide Inv, Legal, Run, Grown;
      SingleOf(s);
      NextGrows(s, Submit(r));
      NextKeepsInv(s, Submit(r));
      RunMore(INIT, run, Submit(r));
      s, run := Next(s, Submit(r)), run + [Submit(r)];
      if stopping {
        return Busy;
      }
      if running {
        pending := pending + [r];
        return Deferred;
      }
      running := true;
      return Started;
    }

    /** The critical section of get_db_process_pending. */
    method TakeNext() returns (r: int)
      requires Valid() && s.threads == [Releasing]
      modifies this
      ensures Valid() && s == Next(old(s), Release(0)) && run == old(run) + [Release(0)] && Grown(old(s), s)
      ensures if old(pending) == [] then r == -1 && s == old(s).(running := false, threads := [])
              else r == old(pending)[0] && old(pending) == [r] + pending
                   && s == old(s).(pending := pending, taken := old(s).taken + [r], threads := [Executing(r, false)])
    {
      hide Inv, Legal, Run, Grown;
      SingleOf(s);
      NextGrows(s, Release(0));
      NextKeepsInv(s, Release(0));
      RunMore(INIT, run, Release(0));
      s, run := Next(s, Release(0)), run + [Release(0)];
      running := false;
      if pending == [] {
        return -1;
      }
      r := pending[0];
      pending := pending[1..];
      running := true;
    }

    /** cancel_queued_get_ec_db_reqs: all callbacks are made under the lock. */
    method CancelQueued() returns (cancelled: seq<Req>)
      requires Valid()
      modifies this
      ensures Valid() && s == Next(old(s), Stop) && run == old(run) + [Stop] && Grown(old(s), s)
      ensures cancelled == old(pending)
    {
      hide Inv, Legal, Run, Grown, Next;
      SingleOf(s);
      NextGrows(s, Stop);
      NextKeepsInv(s, Stop);
      RunMore(INIT, run, Stop);
      StopClears(s);
      ghost var was := pending;
      stopping := true;
      cancelled := [];
      while pending != []
        invariant was == cancelled + pending && stopping && running == old(running) && s == old(s) && run == old(run)
        decreases |pending|
      {
        cancelled := cancelled + [pending[0]];
        pending := pending[1..];
      }
      s, run := Next(s, Stop), run + [Stop];
    }

    /** The start of alloc_dirty_bits_mem: a rediscovery cancels what still waits and takes requests
        again. A command may be running. */
    method Rediscover() returns (cancelled: seq<Req>)
      requires Valid()
      modifies this
      ensures Valid() && !stopping && pending == [] && running == old(running) && cancelled == old(pending)
      ensures s.called == old(s.called) + multiset(cancelled) && s.accepted == old(s.accepted)
      ensures s.threads == old(s.threads) && s.inFlight == old(s.inFlight) && s.told == old(s.told) && Grown(old(s), s)
      ensures run == old(run) + if cancelled == [] then [Restart] else [Stop, Restart]
    {
      hide Inv, Legal, Run, Grown;
      SingleOf(s);
      GrownNot(s);
      cancelled := [];
      if pending != [] {
        cancelled := CancelQueued();
      }
      SingleOf(s);
      NextGrows(s, Restart);
      GrownOn(old(s), s, Next(s, Restart));
      NextKeepsInv(s, Restart);
      RunMore(INIT, run, Restart);
      s, run := Next(s, Restart), run + [Restart];
      stopping := false;
    }

    /** What other threads may do while ours deals with the running command: queue requests, cancel
        them, rediscover; `budget` bounds how often. */
    method Others(budget: nat) returns (left: nat)
      requires Valid() && s.running && |s.threads| == 1
      modifies this
      ensures Valid() && s.running && s.threads == old(s.threads) && s.inFlight == old(s.inFlight) && s.told == old(s.told)
      ensures left <= budget && old(run) <= run && Grown(old(s), s)
      ensures left == budget ==> s == old(s) && run == old(run)
    {
      hide Inv, Legal, Run, Grown;
      GrownNot(s);
      left := budget;
      var stop: nat :| stop <= budget;
      while left > stop
        invariant stop <= left <= budget && Valid() && s.running
        invariant s.threads == old(s.threads) && s.inFlight == old(s.inFlight) && s.told == old(s.told)
        invariant old(run) <= run && Grown(old(s), s)
        invariant left == budget ==> s == old(s) && run == old(run)
        decreases left
      {
        ghost var was := s;
        if {
          case true =>
            var r: Req :| true;
            var _ := TryStart(r);
          case true => var _ := CancelQueued();
          case true => var _ := Rediscover();
        }
        GrownOn(old(s), was, s);
        left := left - 1;
      }
    }

    /** The device refused a request that had been waiting: its callback tells it so. */
    method FailTaken(r: Req, budget: nat) returns (left: nat)
      requires Valid() && s.running && s.threads == [Executing(r, false)] && s.inFlight == []
      modifies this
      ensures Valid() && s.running && s.threads == [Releasing] && s.inFlight == [] && s.told == old(s.told)
      ensures left <= budget && old(run) <= run && Grown(old(s), s)
      ensures left == budget ==> s == old(s).(threads := [Releasing], called := old(s).called + multiset{r})
    {
      hide Inv, Legal, Run, Grown;
      Happens(ExecFail(0));
      ghost var a := s;
      left := Others(budget);
      GrownOn(old(s), a, s);
      ghost var b := s;
      Happens(CallbackDone(0));
      GrownOn(old(s), b, s);
    }

    ghost method StartTaken(r: Req)
      requires Valid() && s.running && s.threads == [Executing(r, false)] && s.inFlight == []
      modifies `s, `run
      ensures Valid() && s == old(s).(threads := [], inFlight := [r]) && old(run) <= run && Grown(old(s), s)
    {
      hide Inv, Legal, Run, Grown;
      Happens(ExecOk(0));
    }

    /** One turn of get_db_process_pending: the next waiting request, if any, goes to the device. */
    method ServeNext(budget: nat) returns (more: bool, left: nat, ghost taken: seq<Req>)
      requires Valid() && s.running && s.threads == [Releasing] && s.inFlight == []
      modifies this
      ensures Valid() && left <= budget && old(run) <= run && Grown(old(s), s) && s.told == old(s.told)
      ensures more ==> s.running && s.threads == [Releasing] && s.inFlight == []
      ensures !more ==> s.threads == [] && (if taken == [] then s.inFlight == [] && !running && pending == []
                                            else s.running && s.inFlight == taken)
      ensures left == budget ==>
                && old(pending) == taken + pending && s.accepted == old(s.accepted) && stopping == old(stopping)
                && s.called == old(s.called) + (if more then multiset(taken) else multiset{})
      ensures more ==> left < budget || |pending| < old(|pending|)
    {
      hide Inv, Legal, Run, Grown, Next;
      taken, left := [], budget;
      var r := TakeNext();
      if r == -1 {
        return false, left, taken;
      }
      taken := [r];
      ghost var a := s;
      left := Others(left);
      GrownOn(old(s), a, s);
      ghost var b := s;
      if * {
        StartTaken(r);
        more := false;
      } else {
        left := FailTaken(r, left);
        more := true;
      }
      GrownOn(old(s), b, s);
    }

    /** get_db_process_pending, whatever other threads do meanwhile: it starts the next request the
        device accepts, failing those it does not, and gives up the flag only when nothing waits.
        If nobody else did anything, requests were failed in order. */
    method ProcessPending(budget: nat) returns (left: nat, ghost failed: seq<Req>)
      requires Valid() && s.running && s.threads == [Releasing]
      modifies this
      ensures Valid() && s.threads == [] && left <= budget && old(run) <= run && Grown(old(s), s) && s.told == old(s.told)
      ensures s.inFlight == [] ==> !running && pending == []
      ensures s.inFlight != [] ==> running
      ensures left == budget ==>
                && stopping == old(stopping) && s.accepted == old(s.accepted)
                && s.called == old(s.called) + multiset(failed) && failed + s.inFlight + pending == old(pending)
    {
      hide Inv, Legal, Run, Grown, Next;
      SingleOf(s);
      GrownNot(s);
      failed, left := [], budget;
      var more := true;
      while more
        invariant Valid() && left <= budget && old(run) <= run && Grown(old(s), s) && s.told == old(s.told)
        invariant more ==> s.running && s.threads == [Releasing] && s.inFlight == []
        invariant !more ==> s.threads == [] && (if s.inFlight == [] then !running && pending == [] else running)
        invariant left == budget ==>
                    && stopping == old(stopping) && s.accepted == old(s.accepted)
                    && s.called == old(s.called) + multiset(failed) && failed + s.inFlight + pending == old(pending)
        decreases more, left, |pending|
      {
        ghost var a, taken := s, [];
        more, left, taken := ServeNext(left);
        GrownOn(old(s), a, s);
        Regroup(failed, taken, pending);
        if more {
          failed := failed + taken;
        }
      }
    }

    /** A request that set the running flag goes to the device at once. */
    method StartNow(r: Req, budget: nat) returns (ok: bool, left: nat)
      requires Valid() && s.running && s.threads == [Executing(r, true)] && s.inFlight == []
      modifies this
      ensures Valid() && left <= budget && old(run) <= run
      ensures ok ==> StartedAtOnce(old(s), s, r)
      ensures !ok ==> Grown(old(s), s) && s.threads == [] && (s.inFlight == [] ==> !running && pending == [])
      ensures left == budget && ok ==> s == Next(old(s), ExecOk(0))
      ensures left == budget && !ok ==>
                exists failed: seq<Req> ::
                  && s.accepted == old(s.accepted) && s.called == old(s.called) + multiset(failed)
                  && failed + s.inFlight + pending == old(pending)
    {
      hide Inv, Legal, Run, Grown, StartedAtOnce;
      left := Others(budget);
      ghost var a := s;
      if * {
        Happens(ExecOk(0));
        TakenAtOnce(old(s), a, r);
        ok := true;
      } else {
        Happens(ExecFail(0));
        GrownOn(old(s), a, s);
        ghost var b, failed := s, [];
        left, failed := ProcessPending(left);
        GrownOn(old(s), b, s);
        ok := false;
      }
    }

    /** nvmeibc_disk_get_db_ec_rl, whatever other threads do meanwhile: 0 is returned exactly when
        the request was queued or the device took it; otherwise it is not accepted. If nobody else
        did anything, no callback was made. */
    method GetDbEcRl(r: Req, budget: nat) returns (rv: int, left: nat)
      requires Valid()
      modifies this
      ensures Valid() && left <= budget && old(run) + [Submit(r)] <= run
      ensures old(stopping) ==> rv < 0 && s == old(s)
      ensures !old(stopping) && old(running) ==>
                rv == 0 && pending == old(pending) + [r] && s.accepted == old(s.accepted) + multiset{r} && s.called == old(s.called)
      ensures !old(stopping) && !old(running) ==> if rv == 0 then StartedAtOnce(old(s), s, r) else Grown(old(s), s)
      ensures left == budget && !old(stopping) && !old(running) ==>
                && (rv == 0 <==> s.inFlight == [r]) && s.called == old(s.called)
                && s.accepted == if rv == 0 then old(s.accepted) + multiset{r} else old(s.accepted)
    {
      hide Inv, Legal, Run, Grown, StartedAtOnce;
      SingleOf(s);
      left := budget;
      var how := TryStart(r);
      match how {
        case Busy => rv := -16;
        case Deferred => rv := 0;
        case Started =>
          ghost var a := s;
          var ok;
          ok, left := StartNow(r, left);
          if ok {
            StartedOn(old(s), a, s, r);
          } else {
            GrownOn(old(s), a, s);
          }
          rv := if ok then 0 else -5;
      }
    }

    /** nvmeibc_disk_get_ec_db_comp of the command in flight, whatever other threads do meanwhile. */
    method GetEcDbComp(r: Req, ok: bool, budget: nat) returns (left: nat, ghost failed: seq<Req>)
      requires Valid() && s.inFlight == [r]
      modifies this
      ensures Valid() && s.threads == [] && left <= budget && old(run) + [Complete(0, ok)] <= run && Grown(old(s), s)
      ensures s.told == if ok then old(s.told) + multiset{r} else old(s.told)
      ensures s.inFlight == [] ==> !running && pending == []
      ensures s.inFlight != [] ==> running
      ensures left == budget ==>
                && s.accepted == old(s.accepted) && s.called == old(s.called) + multiset{r} + multiset(failed)
                && failed + s.inFlight + pending == old(pending)
    {
      hide Inv, Legal, Run, Grown;
      SingleOf(s);
      Happens(Complete(0, ok));
      ghost var a := s;
      left := Others(budget);
      GrownOn(old(s), a, s);
      ghost var b := s;
      Happens(CallbackDone(0));
      GrownOn(old(s), b, s);
      ghost var c := s;
      left, failed := ProcessPending(left);
      GrownOn(old(s), c, s);
    }
  }

  lemma Regroup(a: seq<Req>, b: seq<Req>, c: seq<Req>)
    ensures a + [] + (b + c) == (a + b) + [] + c == a + b + c
    ensures multiset(a + b) == multiset(a) + multiset(b)
  {
  }

  lemma StopClears(s: State)
    ensures var t := Next(s, Stop); t.stopping && t.pending == [] && t.running == s.running
  {
  }
}
