/** Sending a message on the admin channel: the sender re-arms one shared completion, posts the
    message and waits; the send completion of the message, or a disconnect, wakes it. Everything
    may interleave except that messages are sent one after another. */
module AdminSend {

  /** Where the sender of message m, in transmit buffer u, is. */
  datatype Sender =
    | Idle
    | Reinited(m: nat, u: nat)    // the completion is re-armed
    | Checked(m: nat, u: nat)     // the net was seen not to be dying
    | Armed(m: nat, u: nat)       // the buffer points to the completion
    | Waiting(m: nat, u: nat)     // posted
    | Awake(m: nat, u: nat)       // the wait has returned
    | Failed(m: nat, u: nat)      // about to disconnect and give up

  /** A send completion being processed: it has stored the status, or has also completed. */
  datatype Handler = Statused(m: nat, u: nat) | Nulling(m: nat, u: nat)

  /** How the net came to be dying: not yet; first raised by a path that goes on to complete, which
      has not or has done so; or first raised by one that does not. */
  datatype Disconnect = NotYet | DyingSet | Woke | Silent

  /** `done` is the shared completion; `processed` and `results` record, per message, the status of
      its send completion and what its send returned. */
  datatype State = State(
    next: nat, sender: Sender, disc: Disconnect, done: nat,
    ioDone: set<nat>, status: map<nat, bool>, inFlight: map<nat, nat>, handlers: set<Handler>,
    processed: map<nat, bool>, results: map<nat, bool>)

  datatype Step =
    | Begin(u: nat) | Check | Arm | Post(ok: bool) | Wake | TimeOut | Judge | Cancel
    | SetDying | WakeOnDying       // a disconnect whose callback runs
    | Raise                        // dying is raised, and nothing else
    | Completed(m: nat, ok: bool) | Signal(h: Handler) | Null(h: Handler)

  const INIT: State := State(0, Idle, NotYet, 0, {}, map[], map[], {}, map[], map[])

  function Dying(s: State): bool { !s.disc.NotYet? }

  predicate Allowed(s: State, t: Step) {
    match t
    case Begin(_) => s.sender.Idle?
    case Check => s.sender.Reinited?
    case Arm => s.sender.Checked?
    case Post(_) => s.sender.Armed?
    case Wake => s.sender.Waiting? && s.done > 0
    case TimeOut => s.sender.Waiting?
    case Judge => s.sender.Awake?
    case Cancel => s.sender.Failed? && Dying(s)
    case SetDying => s.disc.NotYet?
    case WakeOnDying => s.disc.DyingSet?
    case Raise => true
    case Completed(m, _) => m in s.inFlight
    case Signal(h) => h in s.handlers && h.Statused?
    case Null(h) => h in s.handlers && h.Nulling?
  }

  function Next(s: State, t: Step): State
    requires Allowed(s, t)
  {
    match t
    case Begin(u) => s.(next := s.next + 1, done := 0, sender := Reinited(s.next, u))
    case Check =>
      s.(sender := if Dying(s) then Failed(s.sender.m, s.sender.u) else Checked(s.sender.m, s.sender.u))
    case Arm => s.(ioDone := s.ioDone + {s.sender.u}, sender := Armed(s.sender.m, s.sender.u))
    case Post(ok) =>
      if ok then s.(inFlight := s.inFlight[s.sender.m := s.sender.u], sender := Waiting(s.sender.m, s.sender.u))
      else s.(sender := Failed(s.sender.m, s.sender.u))
    case Wake => s.(done := s.done - 1, sender := Awake(s.sender.m, s.sender.u))
    case TimeOut => s.(sender := Failed(s.sender.m, s.sender.u))
    case Judge =>
      if Dying(s) then s.(sender := Failed(s.sender.m, s.sender.u))
      else s.(sender := Idle, results := s.results[s.sender.m := s.sender.u in s.status && s.status[s.sender.u]])
    case Cancel =>
      s.(ioDone := s.ioDone - {s.sender.u}, sender := Idle, results := s.results[s.sender.m := false])
    case SetDying => s.(disc := DyingSet)
    case WakeOnDying => s.(disc := Woke, done := s.done + 1)
    case Raise => s.(disc := if s.disc.NotYet? then Silent else s.disc)
    case Completed(m, ok) =>
      var u := s.inFlight[m];
      s.(inFlight := s.inFlight - {m}, status := s.status[u := ok], processed := s.processed[m := ok],
         handlers := s.handlers + {Statused(m, u)})
    case Signal(h) =>
      if h.u in s.ioDone then s.(done := s.done + 1, handlers := s.handlers - {h} + {Nulling(h.m, h.u)})
      else s.(handlers := s.handlers - {h})
    case Null(h) => s.(ioDone := s.ioDone - {h.u}, handlers := s.handlers - {h})
  }

  /** Nothing of an earlier message is still under way, except the clearing of its buffer. */
  ghost predicate Settled(s: State) { s.inFlight == map[] && forall h | h in s.handlers :: h.Nulling? }

  ghost predicate Answered(s: State, m: nat, u: nat) { m in s.processed && u in s.status && s.status[u] == s.processed[m] }

  /** What holds as long as the net is not dying. */
  ghost predicate Live(s: State) {
    match s.sender
    case Idle => Settled(s) && s.done == 0
    case Reinited(_, _) => Settled(s) && s.done == 0
    case Checked(_, _) => Settled(s) && s.done == 0
    case Armed(_, _) => Settled(s) && s.done == 0
    case Waiting(m, u) =>
      || (s.inFlight == map[m := u] && s.done == 0 && forall h | h in s.handlers :: h.Nulling?)
      || (s.inFlight == map[] && s.done == 0 && Answered(s, m, u) && (forall h | h in s.handlers :: h.Nulling? || h == Statused(m, u)))
      || (Settled(s) && s.done <= 1 && Answered(s, m, u))
    case Awake(m, u) => Settled(s) && s.done == 0 && Answered(s, m, u)
    case Failed(_, _) => true
  }

  predicate Watching(x: Sender) { x.Checked? || x.Armed? || x.Waiting? }

  /** A sender that has seen the net alive has not lost the disconnect's wake-up. */
  ghost predicate WakeKept(s: State) { Watching(s.sender) && s.disc.Woke? ==> s.done > 0 }

  /** A message is in flight, or processed, only once it was posted, and not both. */
  ghost predicate Books(s: State) {
    && (forall m | m in s.results :: m < s.next)
    && (forall m | m in s.inFlight :: m < s.next)
    && (forall m | m in s.processed :: m < s.next && m !in s.inFlight)
    && (!s.sender.Idle? ==> s.sender.m + 1 == s.next && s.sender.m !in s.results)
    && (s.sender.Reinited? || s.sender.Checked? || s.sender.Armed? ==> s.sender.m !in s.processed && s.sender.m !in s.inFlight)
  }

  /** A send returned success only for a message whose send completion was processed as such. */
  ghost predicate Honest(s: State) { forall m | m in s.results && s.results[m] :: m in s.processed && s.processed[m] }

  ghost predicate Inv(s: State) { (!Dying(s) ==> Live(s)) && WakeKept(s) && Books(s) && Honest(s) }

  predicate OfHandler(t: Step) { t.Completed? || t.Signal? || t.Null? }

  lemma HandlerKeepsLive(s: State, t: Step)
    requires Allowed(s, t) && OfHandler(t) && Live(s)
    ensures Live(Next(s, t))
  {
  }

  lemma SenderKeepsLive(s: State, t: Step)
    requires Allowed(s, t) && !OfHandler(t) && !Dying(s) && Live(s)
    ensures !Dying(Next(s, t)) ==> Live(Next(s, t))
  {
  }

  lemma NextKeepsLive(s: State, t: Step)
    requires Allowed(s, t) && (!Dying(s) ==> Live(s))
    ensures !Dying(Next(s, t)) ==> Live(Next(s, t))
  {
    hide Live;
    if !Dying(s) {
      if OfHandler(t) { HandlerKeepsLive(s, t); } else { SenderKeepsLive(s, t); }
    }
  }

  lemma HandlerKeepsBooks(s: State, t: Step)
    requires Allowed(s, t) && OfHandler(t) && Books(s)
    ensures Books(Next(s, t))
  {
  }

  lemma SenderKeepsBooks(s: State, t: Step)
    requires Allowed(s, t) && !OfHandler(t) && Books(s)
    ensures Books(Next(s, t))
  {
  }

  lemma NextKeepsBooks(s: State, t: Step)
    requires Allowed(s, t) && Books(s)
    ensures Books(Next(s, t))
  {
    hide *;
    if OfHandler(t) { HandlerKeepsBooks(s, t); } else { SenderKeepsBooks(s, t); }
  }

  lemma NextKeepsHonest(s: State, t: Step)
    requires Allowed(s, t) && Books(s) && Honest(s) && (!Dying(s) ==> Live(s))
    ensures Honest(Next(s, t))
  {
  }

  lemma NextKeepsInv(s: State, t: Step)
    requires Inv(s) && Allowed(s, t)
    ensures Inv(Next(s, t))
  {
    hide Live, Books, Honest;
    NextKeepsLive(s, t);
    NextKeepsBooks(s, t);
    NextKeepsHonest(s, t);
  }

  predicate Legal(s: State, ts: seq<Step>)
    decreases |ts|
  {
    ts != [] ==> Allowed(s, ts[0]) && Legal(Next(s, ts[0]), ts[1..])
  }

  function Run(s: State, ts: seq<Step>): State
    requires Legal(s, ts)
    decreases |ts|
  {
    if ts == [] then s else Run(Next(s, ts[0]), ts[1..])
  }

  lemma {:induction false} RunKeepsInv(s: State, ts: seq<Step>)
    requires Inv(s) && Legal(s, ts)
    ensures Inv(Run(s, ts))
    decreases |ts|
  {
    hide Inv, Next, Allowed;
    if ts != [] {
      NextKeepsInv(s, ts[0]);
      RunKeepsInv(Next(s, ts[0]), ts[1..]);
    }
  }

  lemma InitSatisfiesInv()
    ensures Inv(INIT)
  {
  }

  /** A send returns 0 only if the successful send completion of that same message was processed. */
  lemma ZeroMeansSent(ts: seq<Step>, m: nat)
    requires Legal(INIT, ts) && m in Run(INIT, ts).results && Run(INIT, ts).results[m]
    ensures m in Run(INIT, ts).processed && Run(INIT, ts).processed[m]
  {
    hide Run, Legal;
    InitSatisfiesInv();
    RunKeepsInv(INIT, ts);
  }

  /** A sender that passed the dying check is woken by the disconnect, whenever that comes: once the
      disconnect has completed, a waiting sender can go on, and it then gives up. */
  lemma DisconnectWakes(ts: seq<Step>)
    requires Legal(INIT, ts) && Run(INIT, ts).disc.Woke? && Run(INIT, ts).sender.Waiting?
    ensures var t := Run(INIT, ts);
            Allowed(t, Wake) && Allowed(Next(t, Wake), Judge) && Next(Next(t, Wake), Judge).sender.Failed?
  {
    hide Run, Legal;
    InitSatisfiesInv();
    RunKeepsInv(INIT, ts);
  }

  /** The waiting sender of message m can go on, whenever the disconnect has run its course. */
  ghost predicate Woken(s: State, ts: seq<Step>, m: nat) {
    Legal(s, ts) ==>
      var t := Run(s, ts);
      t.sender.Waiting? && t.sender.m == m && !t.disc.DyingSet? ==> Allowed(t, Wake)
  }

  lemma {:induction false} RunKeepsWake(s: State, ts: seq<Step>)
    requires Inv(s) && (s.disc.DyingSet? || s.disc.Woke?) && Legal(s, ts)
    ensures Inv(Run(s, ts)) && (Run(s, ts).disc.DyingSet? || Run(s, ts).disc.Woke?)
    decreases |ts|
  {
    hide Inv;
    if ts != [] {
      NextKeepsInv(s, ts[0]);
      RunKeepsWake(Next(s, ts[0]), ts[1..]);
    }
  }

  /** On a net that is first raised to dying by a path that does not complete, the sender goes on
      to wait with nothing completed. */
  lemma RaiseLeavesWaiting(s: State) returns (ts: seq<Step>)
    requires Inv(s) && !Dying(s) && Watching(s.sender) && s.done == 0
    ensures !Woken(Next(s, Raise), ts, s.sender.m)
  {
    var u := Next(s, Raise);
    match s.sender
    case Checked(m, b) =>
      var v := Next(u, Arm);
      RunNone(Next(v, Post(true)));
      OneMore(v, Post(true), []);
      OneMore(u, Arm, [Post(true)] + []);
      ts := [Arm] + ([Post(true)] + []);
    case Armed(m, b) =>
      RunNone(Next(u, Post(true)));
      OneMore(u, Post(true), []);
      ts := [Post(true)] + [];
    case _ =>
      RunNone(u);
      ts := [];
  }

  /** A sender that has seen the net alive, and whose message has not been completed, is woken by
      the net's death in every continuation if and only if dying is first raised by a path that
      runs the disconnect callback. */
  lemma DeathWakesIsExact(s: State, d: Step)
    requires Inv(s) && !Dying(s) && Watching(s.sender) && s.done == 0 && (d.SetDying? || d.Raise?)
    ensures (forall ts: seq<Step> :: Woken(Next(s, d), ts, s.sender.m)) <==> d.SetDying?
  {
    hide Run, Legal;
    if d.SetDying? {
      NextKeepsInv(s, d);
      forall ts: seq<Step> ensures Woken(Next(s, d), ts, s.sender.m) {
        if Legal(Next(s, d), ts) { RunKeepsWake(Next(s, d), ts); }
      }
    } else {
      var ts := RaiseLeavesWaiting(s);
    }
  }

  /** The net is dying exactly once somebody has raised it, and the disconnect has woken the sender
      exactly once its callback has run. */
  lemma {:induction false} DyingIsRecorded(s: State, ts: seq<Step>)
    requires Legal(s, ts)
    ensures Dying(Run(s, ts)) <==> Dying(s) || SetDying in ts || Raise in ts
    ensures Run(s, ts).disc.Woke? <==> s.disc.Woke? || WakeOnDying in ts
    decreases |ts|
  {
    hide Next, Allowed;
    if ts != [] {
      DyingIsStep(s, ts[0]);
      DyingIsRecorded(Next(s, ts[0]), ts[1..]);
      assert ts == [ts[0]] + ts[1..];
    }
  }

  lemma DyingIsStep(s: State, t: Step)
    requires Allowed(s, t)
    ensures Dying(Next(s, t)) <==> Dying(s) || t == SetDying || t == Raise
    ensures Next(s, t).disc.Woke? <==> s.disc.Woke? || t == WakeOnDying
  {
  }

  /** The send of m is over without success, or about to be. */
  ghost predicate GivenUp(s: State, m: nat) {
    && m < s.next
    && if !s.sender.Idle? && s.sender.m == m then s.sender.Failed? else m in s.results && !s.results[m]
  }

  lemma NextKeepsGivenUp(s: State, t: Step, m: nat)
    requires Books(s) && GivenUp(s, m) && Allowed(s, t)
    ensures GivenUp(Next(s, t), m)
  {
  }

  lemma {:induction false} RunKeepsGivenUp(s: State, ts: seq<Step>, m: nat)
    requires Books(s) && GivenUp(s, m) && Legal(s, ts)
    ensures GivenUp(Run(s, ts), m)
    decreases |ts|
  {
    hide Books, GivenUp, Next, Allowed;
    if ts != [] {
      NextKeepsBooks(s, ts[0]);
      NextKeepsGivenUp(s, ts[0], m);
      RunKeepsGivenUp(Next(s, ts[0]), ts[1..], m);
    }
  }

  /** A send whose post fails, that times out, or that finds the net dying when it checks or when it
      has been woken, never returns success, whatever happens afterwards. */
  lemma GivenUpIsNoSuccess(s: State, t: Step, ts: seq<Step>)
    requires Inv(s) && Allowed(s, t) && Legal(Next(s, t), ts)
    requires t == Post(false) || t.TimeOut? || (Dying(s) && (t.Check? || t.Judge?))
    ensures var r := Run(Next(s, t), ts).results; s.sender.m in r ==> !r[s.sender.m]
  {
    hide Run, Legal, Live;
    var m := s.sender.m;
    NextKeepsBooks(s, t);
    RunKeepsGivenUp(Next(s, t), ts, m);
    RunKeepsBooks(Next(s, t), ts);
  }

  lemma {:induction false} RunKeepsBooks(s: State, ts: seq<Step>)
    requires Books(s) && Legal(s, ts)
    ensures Books(Run(s, ts))
    decreases |ts|
  {
    hide Books, Next, Allowed;
    if ts != [] {
      NextKeepsBooks(s, ts[0]);
      RunKeepsBooks(Next(s, ts[0]), ts[1..]);
    }
  }

  /** Every send that has begun is under way or has returned, and as long as the net lives it has
      returned the status of its send completion. */
  ghost predicate Fair(s: State) {
    && (forall m | 0 <= m < s.next :: m in s.results || (!s.sender.Idle? && s.sender.m == m))
    && (!Dying(s) ==> forall m | m in s.results :: m in s.processed && s.results[m] == s.processed[m])
  }

  lemma HandlerKeepsFair(s: State, t: Step)
    requires Books(s) && Fair(s) && Allowed(s, t) && OfHandler(t)
    ensures Fair(Next(s, t))
  {
  }

  lemma SenderKeepsFair(s: State, t: Step)
    requires Books(s) && (!Dying(s) ==> Live(s)) && Fair(s) && Allowed(s, t) && !OfHandler(t)
    ensures Fair(Next(s, t))
  {
  }

  lemma NextKeepsFair(s: State, t: Step)
    requires Books(s) && (!Dying(s) ==> Live(s)) && Fair(s) && Allowed(s, t)
    ensures Fair(Next(s, t))
  {
    hide *;
    if OfHandler(t) { HandlerKeepsFair(s, t); } else { SenderKeepsFair(s, t); }
  }

  lemma {:induction false} RunKeepsFair(s: State, ts: seq<Step>)
    requires Inv(s) && Fair(s) && Legal(s, ts)
    ensures Fair(Run(s, ts))
    decreases |ts|
  {
    hide Books, Live, Fair, Next, Allowed;
    if ts != [] {
      NextKeepsInv(s, ts[0]);
      NextKeepsFair(s, ts[0]);
      RunKeepsFair(Next(s, ts[0]), ts[1..]);
    }
  }

  /** In any run of a net that has not died, a send that is not under way has returned success if
      and only if its send completion was processed as one. */
  lemma ResultIsStatus(ts: seq<Step>, m: nat)
    requires Legal(INIT, ts) && m < Run(INIT, ts).next
    ensures var t := Run(INIT, ts);
            && (m in t.results || (!t.sender.Idle? && t.sender.m == m))
            && (!Dying(t) && m in t.results ==> m in t.processed && t.results[m] == t.processed[m])
  {
    hide Run, Legal;
    InitSatisfiesInv();
    RunKeepsFair(INIT, ts);
  }

  /** While the net is alive a woken sender reads the status of its own message. */
  lemma AwakeReadsItsOwn(ts: seq<Step>)
    requires Legal(INIT, ts) && Run(INIT, ts).sender.Awake? && !Dying(Run(INIT, ts))
    ensures var t := Run(INIT, ts);
            && t.sender.m in t.processed
            && Next(t, Judge).results == t.results[t.sender.m := t.processed[t.sender.m]]
  {
    hide Run, Legal;
    InitSatisfiesInv();
    RunKeepsInv(INIT, ts);
  }

  // ---------------------------------------------------------------- a lost wake-up

  /** The sender still waits although its message has been processed, its handler has gone past
      complete(), the net is alive, and nothing was completed. */
  ghost predicate Lost(s: State) {
    && !Dying(s) && s.sender.Waiting? && s.done == 0
    && s.sender.m in s.processed && Statused(s.sender.m, s.sender.u) !in s.handlers
  }

  /** No handler is still about to clear buffer u. */
  ghost predicate Clear(s: State, u: nat) { forall h | h in s.handlers && h.Nulling? :: h.u != u }

  /** Message m, in buffer u, cannot lose its wake-up any more, as long as the net is alive. */
  ghost predicate Guarded(s: State, m: nat, u: nat) {
    || Dying(s)
    || (s.sender == Checked(m, u) && Clear(s, u))
    || (s.sender == Armed(m, u) && Clear(s, u) && u in s.ioDone)
    || (s.sender == Waiting(m, u)
        && if m in s.inFlight || Statused(m, u) in s.handlers then Clear(s, u) && u in s.ioDone else s.done > 0)
    || (m < s.next && (s.sender.Idle? || s.sender.Awake? || s.sender.Failed? || s.sender.m != m))
  }

  lemma HandlerKeepsGuarded(s: State, t: Step, m: nat, u: nat)
    requires Inv(s) && Allowed(s, t) && OfHandler(t) && Guarded(s, m, u)
    ensures Guarded(Next(s, t), m, u)
  {
    hide Honest, WakeKept;
  }

  lemma SenderKeepsGuarded(s: State, t: Step, m: nat, u: nat)
    requires Inv(s) && Allowed(s, t) && !OfHandler(t) && Guarded(s, m, u)
    ensures Guarded(Next(s, t), m, u)
  {
    hide Honest, WakeKept;
  }

  lemma NextKeepsGuarded(s: State, t: Step, m: nat, u: nat)
    requires Inv(s) && Allowed(s, t) && Guarded(s, m, u)
    ensures Guarded(Next(s, t), m, u)
  {
    hide *;
    if OfHandler(t) { HandlerKeepsGuarded(s, t, m, u); } else { SenderKeepsGuarded(s, t, m, u); }
  }

  lemma {:induction false} RunKeepsGuarded(s: State, ts: seq<Step>, m: nat, u: nat)
    requires Inv(s) && Legal(s, ts) && Guarded(s, m, u)
    ensures Guarded(Run(s, ts), m, u)
    decreases |ts|
  {
    hide Inv, Next, Allowed, Guarded;
    if ts != [] {
      NextKeepsInv(s, ts[0]);
      NextKeepsGuarded(s, ts[0], m, u);
      RunKeepsGuarded(Next(s, ts[0]), ts[1..], m, u);
    }
  }

  lemma GuardedIsNotLost(s: State, m: nat, u: nat)
    requires Guarded(s, m, u) && Books(s)
    ensures Lost(s) ==> s.sender.m != m
  {
  }

  lemma OneMore(s: State, t: Step, ts: seq<Step>)
    requires Allowed(s, t) && Legal(Next(s, t), ts)
    ensures Legal(s, [t] + ts) && Run(s, [t] + ts) == Run(Next(s, t), ts)
  {
    hide Next, Allowed;
    assert ([t] + ts)[1..] == ts;
  }

  ghost predicate Loses(s: State, ts: seq<Step>, m: nat) {
    Legal(s, ts) && Lost(Run(s, ts)) && Run(s, ts).sender.m == m
  }

  /** A handler that clears the buffer after it was armed makes the send completion find nothing
      to complete. */
  lemma LateClearLoses(s: State, h: Handler) returns (ts: seq<Step>)
    requires Inv(s) && !Dying(s) && s.sender.Checked? && h in s.handlers && h.u == s.sender.u
    ensures Loses(s, ts, s.sender.m) && Run(s, ts).handlers == s.handlers - {h}
  {
    var m, u := s.sender.m, s.sender.u;
    var own := Statused(m, u);
    var s1 := Next(s, Arm);
    var s2 := Next(s1, Post(true));
    var s3 := Next(s2, Null(h));
    var s4 := Next(s3, Completed(m, true));
    var s5 := Next(s4, Signal(own));
    assert s5.handlers == s.handlers - {h};
    hide Run, Legal, Next, Allowed, Inv;
    RunNone(s5);
    OneMore(s4, Signal(own), []);
    OneMore(s3, Completed(m, true), [Signal(own)] + []);
    OneMore(s2, Null(h), [Completed(m, true)] + ([Signal(own)] + []));
    OneMore(s1, Post(true), [Null(h)] + ([Completed(m, true)] + ([Signal(own)] + [])));
    ts := [Arm] + ([Post(true)] + ([Null(h)] + ([Completed(m, true)] + ([Signal(own)] + []))));
    OneMore(s, Arm, [Post(true)] + ([Null(h)] + ([Completed(m, true)] + ([Signal(own)] + []))));
  }

  lemma RunNone(s: State)
    ensures Legal(s, []) && Run(s, []) == s
  {
  }

  /** On a live net a processed completion wakes its sender, however the rest of the run goes, if
      and only if no handler of an earlier message is still about to clear the buffer when the
      sender arms it. */
  lemma WakeIsExact(s: State)
    requires Inv(s) && !Dying(s) && s.sender.Checked?
    ensures (forall ts: seq<Step> :: !Loses(s, ts, s.sender.m)) <==> forall h | h in s.handlers :: h.u != s.sender.u
  {
    hide Run, Legal, Next, Allowed;
    var m, u := s.sender.m, s.sender.u;
    if h :| h in s.handlers && h.u == u {
      var ts := LateClearLoses(s, h);
    } else {
      forall ts: seq<Step> ensures !Loses(s, ts, m) {
        if Loses(s, ts, m) {
          RunKeepsInv(s, ts);
          RunKeepsGuarded(s, ts, m, u);
          GuardedIsNotLost(Run(s, ts), m, u);
        }
      }
    }
  }

  /** A lost sender stays so until it times out or the net begins to die. */
  lemma LostStays(s: State, t: Step)
    requires Inv(s) && Lost(s) && Allowed(s, t) && !t.TimeOut? && !t.SetDying? && !t.Raise?
    ensures Lost(Next(s, t)) && Next(s, t).sender == s.sender
  {
  }

  /** It happens: the second message is sent in the buffer of the first while the handler of the
      first has yet to clear it. */
  lemma WakeIsLost() returns (ts: seq<Step>)
    ensures Loses(INIT, ts, 1) && Run(INIT, ts).handlers == {}
  {
    var own, h := Statused(0, 0), Nulling(0, 0);
    var s1 := Next(INIT, Begin(0));
    var s2 := Next(s1, Check);
    var s3 := Next(s2, Arm);
    var s4 := Next(s3, Post(true));
    var s5 := Next(s4, Completed(0, true));
    var s6 := Next(s5, Signal(own));
    var s7 := Next(s6, Wake);
    var s8 := Next(s7, Judge);
    var s9 := Next(s8, Begin(0));
    var s10 := Next(s9, Check);
    assert s10.handlers == {h} && s10.sender == Checked(1, 0) && !Dying(s10);
    assert Inv(s10);
    hide Run, Legal, Next, Allowed, Inv;
    ts := LateClearLoses(s10, h);
    OneMore(s9, Check, ts);
    ts := [Check] + ts;
    OneMore(s8, Begin(0), ts);
    ts := [Begin(0)] + ts;
    OneMore(s7, Judge, ts);
    ts := [Judge] + ts;
    OneMore(s6, Wake, ts);
    ts := [Wake] + ts;
    OneMore(s5, Signal(own), ts);
    ts := [Signal(own)] + ts;
    OneMore(s4, Completed(0, true), ts);
    ts := [Completed(0, true)] + ts;
    OneMore(s3, Post(true), ts);
    ts := [Post(true)] + ts;
    OneMore(s2, Arm, ts);
    ts := [Arm] + ts;
    OneMore(s1, Check, ts);
    ts := [Check] + ts;
    OneMore(INIT, Begin(0), ts);
    ts := [Begin(0)] + ts;
  }

  /** Every message is sent in a buffer that nothing points to the completion any more. */
  predicate Pooled(s: State, ts: seq<Step>)
    requires Legal(s, ts)
    decreases |ts|
  {
    ts != [] ==> (ts[0].Begin? ==> ts[0].u !in s.ioDone) && Pooled(Next(s, ts[0]), ts[1..])
  }

  /** Each buffer about to be cleared still points to the completion, and only one handler clears
      it. */
  ghost predicate OneClearer(s: State) {
    && (forall h | h in s.handlers && h.Nulling? :: h.u in s.ioDone)
    && (forall h, k | h in s.handlers && k in s.handlers && h.Nulling? && k.Nulling? && h.u == k.u :: h == k)
  }

  /** Nobody else is about to clear the sender's buffer before it is woken. */
  ghost predicate OwnBuffer(s: State) {
    && (s.sender.Reinited? ==> Clear(s, s.sender.u))
    && (Watching(s.sender) ==> Guarded(s, s.sender.m, s.sender.u))
  }

  ghost predicate Apart(s: State) { Dying(s) || s.sender.Failed? || (OneClearer(s) && OwnBuffer(s)) }

  lemma NextKeepsOneClearer(s: State, t: Step)
    requires Live(s) && OneClearer(s) && OwnBuffer(s) && !Dying(s) && !s.sender.Failed? && Allowed(s, t) && Books(s)
    ensures OneClearer(Next(s, t))
  {
  }

  lemma NextKeepsOwnBuffer(s: State, t: Step)
    requires Inv(s) && OneClearer(s) && OwnBuffer(s) && Allowed(s, t) && (t.Begin? ==> t.u !in s.ioDone)
    ensures OwnBuffer(Next(s, t)) || Dying(Next(s, t))
  {
    if Watching(s.sender) {
      NextKeepsGuarded(s, t, s.sender.m, s.sender.u);
      hide Guarded;
    }
  }

  lemma NextKeepsApart(s: State, t: Step)
    requires Inv(s) && Apart(s) && Allowed(s, t) && (t.Begin? ==> t.u !in s.ioDone)
    ensures Apart(Next(s, t))
  {
    hide OneClearer, OwnBuffer, Live, Books, Honest;
    if !Dying(s) && !s.sender.Failed? {
      NextKeepsOneClearer(s, t);
      NextKeepsOwnBuffer(s, t);
    }
  }

  lemma {:induction false} RunKeepsApart(s: State, ts: seq<Step>)
    requires Inv(s) && Legal(s, ts) && Pooled(s, ts) && Apart(s)
    ensures Apart(Run(s, ts))
    decreases |ts|
  {
    hide Inv, Next, Allowed, Apart;
    if ts != [] {
      NextKeepsInv(s, ts[0]);
      NextKeepsApart(s, ts[0]);
      RunKeepsApart(Next(s, ts[0]), ts[1..]);
    }
  }

  /** With buffers that are set aside as long as they point to the completion, no wake-up is lost. */
  lemma PooledNeverLoses(ts: seq<Step>)
    requires Legal(INIT, ts) && Pooled(INIT, ts)
    ensures !Lost(Run(INIT, ts))
  {
    hide Run, Legal, Pooled;
    InitSatisfiesInv();
    RunKeepsInv(INIT, ts);
    RunKeepsApart(INIT, ts);
  }

  lemma {:induction false} RunMore(s: State, ts: seq<Step>, t: Step)
    requires Legal(s, ts) && Allowed(Run(s, ts), t)
    ensures Legal(s, ts + [t]) && Run(s, ts + [t]) == Next(Run(s, ts), t)
    decreases |ts|
  {
    hide Next, Allowed;
    if ts == [] {
      assert [t][1..] == [] && ts + [t] == [t];
    } else {
      assert (ts + [t])[1..] == ts[1..] + [t];
      RunMore(Next(s, ts[0]), ts[1..], t);
    }
  }

  lemma HonestOf(s: State)
    requires Inv(s)
    ensures Honest(s)
  {
  }

  /** The fields of the channel and of its transmit buffers that the handshake uses. The first
      methods are single steps, which may follow one another in any allowed order; the routines of
      the source are made of them. */
  class AdminChannel {
    var sendDone: nat
    var dying: bool
    var ioDone: set<nat>             // the buffers that point to send_done
    var ioStatus: map<nat, bool>     // true for IB_WC_SUCCESS
    ghost var s: State
    ghost var run: seq<Step>         // everything that has happened so far

    ghost predicate Valid()
      reads this
    {
      && Legal(INIT, run) && s == Run(INIT, run) && Inv(s)
      && sendDone == s.done && dying == Dying(s) && ioDone == s.ioDone && ioStatus == s.status
    }

    constructor ()
      ensures Valid() && s == INIT && run == []
    {
      sendDone, dying, ioDone, ioStatus := 0, false, {}, map[];
      s, run := INIT, [];
      new;
      InitSatisfiesInv();
    }

    ghost method Take(t: Step)
      requires Legal(INIT, run) && s == Run(INIT, run) && Inv(s) && Allowed(s, t)
      modifies `s, `run
      ensures Legal(INIT, run) && s == Run(INIT, run) && Inv(s) && s == Next(old(s), t) && run == old(run) + [t]
    {
      hide Inv, Legal, Run;
      NextKeepsInv(s, t);
      RunMore(INIT, run, t);
      s, run := Next(s, t), run + [t];
    }

    /** What happens outside the fields: the message is posted, or the wait runs out. */
    ghost method Happens(t: Step)
      requires Valid() && Allowed(s, t) && (t.Post? || t.TimeOut?)
      modifies `s, `run
      ensures Valid() && s == Next(old(s), t) && run == old(run) + [t]
    {
      hide Inv, Legal, Run;
      Take(t);
    }

    method Reinit(u: nat)
      requires Valid() && Allowed(s, Begin(u))
      modifies `sendDone, `s, `run
      ensures Valid() && s == Next(old(s), Begin(u)) && run == old(run) + [Begin(u)]
    {
      hide Inv, Legal, Run;
      Take(Begin(u));
      sendDone := 0;
    }

    method SeeDying() returns (seen: bool)
      requires Valid() && Allowed(s, Check)
      modifies `s, `run
      ensures Valid() && s == Next(old(s), Check) && run == old(run) + [Check] && seen == dying
    {
      hide Inv, Legal, Run;
      Take(Check);
      seen := dying;
    }

    method PointTo(u: nat)
      requires Valid() && Allowed(s, Arm) && s.sender.u == u
      modifies `ioDone, `s, `run
      ensures Valid() && s == Next(old(s), Arm) && run == old(run) + [Arm]
    {
      hide Inv, Legal, Run;
      Take(Arm);
      ioDone := ioDone + {u};
    }

    method StoreStatus(m: nat, u: nat, success: bool)
      requires Valid() && Allowed(s, Completed(m, success)) && s.inFlight[m] == u
      modifies `ioStatus, `s, `run
      ensures Valid() && s == Next(old(s), Completed(m, success)) && run == old(run) + [Completed(m, success)]
    {
      hide Inv, Legal, Run;
      Take(Completed(m, success));
      ioStatus := ioStatus[u := success];
    }

    method CompleteIfArmed(m: nat, u: nat) returns (armed: bool)
      requires Valid() && Allowed(s, Signal(Statused(m, u)))
      modifies `sendDone, `s, `run
      ensures Valid() && s == Next(old(s), Signal(Statused(m, u))) && run == old(run) + [Signal(Statused(m, u))]
      ensures armed <==> u in old(ioDone)
    {
      hide Inv, Legal, Run;
      Take(Signal(Statused(m, u)));
      armed := u in ioDone;
      if armed {
        sendDone := sendDone + 1;
      }
    }

    method PointNowhere(m: nat, u: nat)
      requires Valid() && Allowed(s, Null(Nulling(m, u)))
      modifies `ioDone, `s, `run
      ensures Valid() && s == Next(old(s), Null(Nulling(m, u))) && run == old(run) + [Null(Nulling(m, u))]
    {
      hide Inv, Legal, Run;
      Take(Null(Nulling(m, u)));
      ioDone := ioDone - {u};
    }

    method MarkDying()
      requires Valid() && Allowed(s, SetDying)
      modifies `dying, `s, `run
      ensures Valid() && s == Next(old(s), SetDying) && run == old(run) + [SetDying]
    {
      hide Inv, Legal, Run;
      Take(SetDying);
      dying := true;
    }

    method OnDying()
      requires Valid() && Allowed(s, WakeOnDying)
      modifies `sendDone, `s, `run
      ensures Valid() && s == Next(old(s), WakeOnDying) && run == old(run) + [WakeOnDying]
    {
      hide Inv, Legal, Run;
      Take(WakeOnDying);
      sendDone := sendDone + 1;
    }

    /** ach_send_done_on_init, with nothing in between: first re-arm, then look whether the net is
        dying. */
    method OnInit(u: nat) returns (rv: int)
      requires Valid() && s.sender.Idle?
      modifies this
      ensures Valid() && s.next == old(s.next) + 1 && sendDone == 0
      ensures rv == 0 <==> !dying
      ensures run == old(run) + if rv == 0 then [Begin(u), Check, Arm] else [Begin(u), Check]
      ensures if rv == 0 then s.sender == Armed(old(s.next), u) && u in ioDone else s.sender == Failed(old(s.next), u)
    {
      hide Inv, Legal, Run;
      Reinit(u);
      var seen := SeeDying();
      if seen {
        return -1;
      }
      PointTo(u);
      rv := 0;
    }

    /** send_completion_io_done_complete for message m in buffer u, with nothing in between. */
    method OnSendComp(m: nat, u: nat, success: bool)
      requires Valid() && m in s.inFlight && s.inFlight[m] == u
      modifies `sendDone, `ioDone, `ioStatus, `s, `run
      ensures Valid() && m in s.processed && s.processed[m] == success && s.sender == old(s.sender)
      ensures sendDone == old(sendDone) + (if u in old(ioDone) then 1 else 0) && u !in ioDone
      ensures run == old(run) + if u in old(ioDone) then [Completed(m, success), Signal(Statused(m, u)), Null(Nulling(m, u))]
                                else [Completed(m, success), Signal(Statused(m, u))]
    {
      hide Inv, Legal, Run;
      StoreStatus(m, u, success);
      var armed := CompleteIfArmed(m, u);
      if armed {
        PointNowhere(m, u);
      }
    }

    /** Dying is raised by a path that does not complete. */
    method RaiseDying()
      requires Valid()
      modifies `dying, `s, `run
      ensures Valid() && s == Next(old(s), Raise) && run == old(run) + [Raise]
    {
      hide Inv, Legal, Run;
      Take(Raise);
      dying := true;
    }

    /** nvmeibc_ib_net_disconnect_, with nothing in between: set dying, and, the first time and if
        the net was live or connecting, wake whoever waits. */
    method OnDisconnect(connected: bool)
      requires Valid()
      modifies this
      ensures Valid() && dying && s.sender == old(s.sender)
      ensures sendDone == old(sendDone) + (if !old(dying) && connected then 1 else 0)
      ensures run == old(run) + if !old(dying) && connected then [SetDying, WakeOnDying] else [Raise]
    {
      hide Inv, Legal, Run;
      if !dying && connected {
        MarkDying();
        OnDying();
      } else {
        RaiseDying();
      }
    }

    /** ach_send_done_on_cancel; the net is dying by then. */
    method OnCancel(u: nat)
      requires Valid() && s.sender.Failed? && s.sender.u == u && dying
      modifies this
      ensures Valid() && s.sender.Idle? && u !in ioDone && run == old(run) + [Cancel]
      ensures s.results == old(s.results)[old(s.sender.m) := false]
    {
      hide Inv, Legal, Run;
      Take(Cancel);
      ioDone := ioDone - {u};
    }

    /** The rest of nvmeibc_ib_admin_channel_prepare_n_send_msg once the wait has returned. */
    method AfterWait(u: nat) returns (rv: int)
      requires Valid() && s.sender.Waiting? && s.sender.u == u && sendDone > 0
      modifies this
      ensures Valid() && (rv == 0 ==> old(s.sender.m) in s.processed && s.processed[old(s.sender.m)])
      ensures run == old(run) + [Wake, Judge]
      ensures old(dying) ==> rv == -1 && s.sender.Failed?
      ensures !old(dying) ==> s.sender.Idle? && old(s.sender.m) in s.results && (rv == 0 <==> s.results[old(s.sender.m)])
    {
      hide Inv, Legal, Run;
      ghost var m := s.sender.m;
      Take(Wake);
      sendDone := sendDone - 1;
      Take(Judge);
      HonestOf(s);
      if dying {
        return -1;
      }
      rv := if u in ioStatus && ioStatus[u] then 0 else -70;
    }
  }
}
