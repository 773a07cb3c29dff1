/** The distributed locking protocol: any number of clients take and release one lock entry
    with masked, plain-with-retry and local-bypass compare-and-swaps, while anybody may
    overwrite the blkset-info half. It is shown to refine a machine in which every request is
    one indivisible id swap, and mutual exclusion is carried over from that machine. */
module LockProtocol {
  import opened LockEntry

  datatype Option<+T> = None | Some(value: T)

  datatype Op = Acquire | Release

  /** Acquire is (compare 0, exchange own id); Release is (compare own id, exchange 0). */
  function Compare(c: u32, op: Op): u32 { if op.Acquire? then NO_OWNER else c }

  function Exchange(c: u32, op: Op): u32 { if op.Acquire? then c else NO_OWNER }

  // ---------------------------------------------------------------- abstract machine

  /** An abstract request either still waits for its swap or knows the id it met. */
  datatype AbsReq = Pending(op: Op) | Done(op: Op, met: u32)

  datatype AbsClient = AbsClient(holding: bool, req: Option<AbsReq>)

  datatype AbsState = AbsState(entry: Entry, clients: map<u32, AbsClient>)

  datatype AbsStep =
    | ASubmit(c: u32, op: Op)
    | ASwap(c: u32)
    | AReply(c: u32)
    | AFail(c: u32)
    | AWriteInfo(bi: u32)

  predicate AbsEnabled(a: AbsState, t: AbsStep) {
    match t
    case ASubmit(c, _) => c in a.clients && a.clients[c].req.None?
    case ASwap(c) => c in a.clients && a.clients[c].req.Some? && a.clients[c].req.value.Pending?
    case AReply(c) => c in a.clients && a.clients[c].req.Some? && a.clients[c].req.value.Done?
    case AFail(c) => c in a.clients && a.clients[c].req.Some?
    case AWriteInfo(_) => true
  }

  function AbsNext(a: AbsState, t: AbsStep): AbsState
    requires AbsEnabled(a, t)
  {
    match t
    case ASubmit(c, op) =>
      var k := a.clients[c];
      a.(clients := a.clients[c := AbsClient(k.holding && op.Acquire?, Some(Pending(op)))])
    case ASwap(c) =>
      var op := a.clients[c].req.value.op;
      AbsState(SwapId(a.entry, Compare(c, op), Exchange(c, op)),
               a.clients[c := a.clients[c].(req := Some(Done(op, a.entry.id)))])
    case AReply(c) =>
      var r := a.clients[c].req.value;
      var won := r.op.Acquire? && r.met == Compare(c, r.op);
      a.(clients := a.clients[c := AbsClient(a.clients[c].holding || won, None)])
    case AFail(c) => a.(clients := a.clients[c := a.clients[c].(req := None)])
    case AWriteInfo(bi) => a.(entry := a.entry.(bi := bi))
  }

  predicate AbsLegal(a: AbsState, ts: seq<AbsStep>)
    decreases |ts|
  {
    ts != [] ==> AbsEnabled(a, ts[0]) && AbsLegal(AbsNext(a, ts[0]), ts[1..])
  }

  function AbsRun(a: AbsState, ts: seq<AbsStep>): AbsState
    requires AbsLegal(a, ts)
    decreases |ts|
  {
    if ts == [] then a else AbsRun(AbsNext(a, ts[0]), ts[1..])
  }

  /** The client was told TAKEN, or its winning swap has happened and the news is on its way. */
  predicate AbsOwns(c: u32, k: AbsClient) {
    || k.holding
    || (k.req.Some? && k.req.value.Done? && k.req.value.op.Acquire? && k.req.value.met == NO_OWNER)
  }

  ghost predicate AbsInv(a: AbsState) {
    && NO_OWNER !in a.clients
    && (forall c | c in a.clients && a.clients[c].req.Some? && a.clients[c].req.value.op.Release? ::
          !a.clients[c].holding)
    && (forall c | c in a.clients && AbsOwns(c, a.clients[c]) :: a.entry.id == c)
  }

  lemma AbsNextKeepsInv(a: AbsState, t: AbsStep)
    requires AbsInv(a) && AbsEnabled(a, t)
    ensures AbsInv(AbsNext(a, t))
  {
  }

  lemma {:induction false} AbsRunKeepsInv(a: AbsState, ts: seq<AbsStep>)
    requires AbsInv(a) && AbsLegal(a, ts)
    ensures AbsInv(AbsRun(a, ts))
    decreases |ts|
  {
    if ts != [] {
      AbsNextKeepsInv(a, ts[0]);
      AbsRunKeepsInv(AbsNext(a, ts[0]), ts[1..]);
    }
  }

  // ---------------------------------------------------------------- concrete machine

  /** Where the current attempt of a request is: waiting to be posted, posted, or executed by
      the responder with the reply under way. */
  datatype Stage = Queued | Flying(caps: Caps) | Landed(caps: Caps, old_: Entry)

  /** `resubmits` and `swaps` count what happened to the request since it was submitted. */
  datatype Request = Request(op: Op, stage: Stage, resubmits: nat, swaps: nat)

  datatype Client = Client(holding: bool, req: Option<Request>, nmcs: Nmcs)

  /** Clients are named by their lock ids, so ids are distinct. */
  datatype State = State(entry: Entry, clients: map<u32, Client>)

  datatype Step =
    | Submit(c: u32, op: Op)
    | Post(c: u32, caps: Caps)     // work request handed to the channel
    | Land(c: u32)                 // work request takes effect at the responder
    | Reply(c: u32)                // successful completion processed by the client
    | Fail(c: u32)                 // error completion, expiry or abort
    | Bypass(c: u32, op: Op)       // local server executes the whole request at once
    | WriteInfo(bi: u32)           // a 4-byte blkset-info write by anybody

  predicate Enabled(s: State, t: Step) {
    match t
    case Submit(c, _) => c in s.clients && s.clients[c].req.None?
    case Post(c, _) => c in s.clients && s.clients[c].req.Some? && s.clients[c].req.value.stage.Queued?
    case Land(c) => c in s.clients && s.clients[c].req.Some? && s.clients[c].req.value.stage.Flying?
    case Reply(c) => c in s.clients && s.clients[c].req.Some? && s.clients[c].req.value.stage.Landed?
    case Fail(c) => c in s.clients && s.clients[c].req.Some?
    case Bypass(c, _) => c in s.clients && s.clients[c].req.None?
    case WriteInfo(_) => true
  }

  const BYPASS_CAPS: Caps := Caps(false, false)

  /** What the client concludes from the reply in `r`. */
  function VerdictOf(c: u32, r: Request, nmcs: Nmcs): Verdict
    requires r.stage.Landed?
  {
    ReadReply(r.stage.caps.UsesMask(), Compare(c, r.op), nmcs, r.stage.old_)
  }

  function SubmitStep(s: State, c: u32, op: Op): State
    requires Enabled(s, Submit(c, op))
  {
    var k := s.clients[c];
    s.(clients := s.clients[c := k.(holding := k.holding && op.Acquire?, req := Some(Request(op, Queued, 0, 0)))])
  }

  function LandStep(s: State, c: u32): State
    requires Enabled(s, Land(c))
  {
    var k := s.clients[c];
    var r := k.req.value;
    var after := Effect(PrepareCas(r.stage.caps, Compare(c, r.op), Exchange(c, r.op), k.nmcs), s.entry);
    State(after, s.clients[c := k.(req := Some(Request(r.op, Landed(r.stage.caps, s.entry), r.resubmits,
                                                       if after == s.entry then r.swaps else r.swaps + 1)))])
  }

  function ReplyStep(s: State, c: u32): State
    requires Enabled(s, Reply(c)) && s.clients[c].nmcs.Ok()
  {
    var k := s.clients[c];
    var r := k.req.value;
    var nmcs' := NmcsAfter(r.stage.caps.UsesMask(), k.nmcs, r.stage.old_);
    var v := VerdictOf(c, r, k.nmcs);
    var k' := if v.Retry? then k.(req := Some(Request(r.op, Queued, r.resubmits + 1, r.swaps)), nmcs := nmcs')
              else Client(k.holding || (v.Taken? && r.op.Acquire?), None, nmcs');
    s.(clients := s.clients[c := k'])
  }

  /** execute_opr_local_bypass: a masked swap by the local server, answered at once; the
      plain-attempt memory is neither read nor written. */
  function BypassStep(s: State, c: u32, op: Op): State
    requires Enabled(s, Bypass(c, op))
  {
    var k := s.clients[c];
    var won := s.entry.id == Compare(c, op) && op.Acquire?;
    State(Effect(PrepareCas(BYPASS_CAPS, Compare(c, op), Exchange(c, op), k.nmcs), s.entry),
          s.clients[c := k.(holding := (k.holding && op.Acquire?) || won)])
  }

  function Next(s: State, t: Step): State
    requires Enabled(s, t) && Inv(s)
  {
    match t
    case Submit(c, op) => SubmitStep(s, c, op)
    case Post(c, caps) =>
      s.(clients := s.clients[c := s.clients[c].(req := Some(s.clients[c].req.value.(stage := Flying(caps))))])
    case Land(c) => LandStep(s, c)
    case Reply(c) => ReplyStep(s, c)
    case Fail(c) => s.(clients := s.clients[c := s.clients[c].(req := None)])
    case Bypass(c, op) => BypassStep(s, c, op)
    case WriteInfo(bi) => s.(entry := s.entry.(bi := bi))
  }

  /** A request in hand was resubmitted at most as often as its memory says, and has swapped
      only if its reply is on the way and will not be answered with a resubmission. */
  predicate ClientInv(c: u32, k: Client) {
    && k.nmcs.Ok()
    && (k.req.Some? ==>
          var r := k.req.value;
          && r.resubmits <= k.nmcs.attempts
          && (!r.stage.Landed? ==> r.swaps == 0)
          && (r.stage.Landed? ==>
                && (r.swaps == 0 || r.swaps == 1)
                && (r.swaps == 1 <==> SwappedAt(c, r, k.nmcs))))
  }

  /** The attempt whose reply `r` carries has exchanged the id. */
  predicate SwappedAt(c: u32, r: Request, nmcs: Nmcs)
    requires r.stage.Landed?
  {
    && r.stage.old_.id == Compare(c, r.op)
    && (r.stage.caps.UsesMask() || r.stage.old_.bi == nmcs.last)
  }

  ghost predicate Inv(s: State) {
    && NO_OWNER !in s.clients
    && forall c | c in s.clients :: ClientInv(c, s.clients[c])
  }

  ghost predicate Init(s: State) {
    && NO_OWNER !in s.clients
    && s.entry.id == NO_OWNER
    && forall c | c in s.clients :: s.clients[c] == Client(false, None, FRESH)
  }

  lemma LandKeepsInv(s: State, c: u32)
    requires Inv(s) && Enabled(s, Land(c))
    ensures Inv(LandStep(s, c))
  {
    var k := s.clients[c];
    EffectIsSwapId(k.req.value.stage.caps, Compare(c, k.req.value.op), Exchange(c, k.req.value.op), k.nmcs, s.entry);
  }

  /** At most NMCS_BI_MAX_ATTEMPTS resubmissions and at most one swap per request, in every
      reachable state. */
  lemma NextKeepsInv(s: State, t: Step)
    requires Inv(s) && Enabled(s, t)
    ensures Inv(Next(s, t))
  {
    if t.Land? { LandKeepsInv(s, t.c); }
  }

  ghost predicate Legal(s: State, ts: seq<Step>)
    requires Inv(s)
    decreases |ts|
  {
    ts != [] ==> Enabled(s, ts[0]) && (NextKeepsInv(s, ts[0]); Legal(Next(s, ts[0]), ts[1..]))
  }

  /** Where a run ends; the invariant holds there too. */
  ghost function Run(s: State, ts: seq<Step>): (t: State)
    requires Inv(s) && Legal(s, ts)
    ensures Inv(t)
    decreases |ts|
  {
    if ts == [] then s
    else
      NextKeepsInv(s, ts[0]);
      Run(Next(s, ts[0]), ts[1..])
  }

  /** The blkset-info half is changed by blkset-info writes only: no swap alters or loses it. */
  lemma OnlyWritersChangeInfo(s: State, t: Step)
    requires Inv(s) && Enabled(s, t) && !t.WriteInfo?
    ensures Next(s, t).entry.bi == s.entry.bi
  {
    match t
    case Land(c) =>
      var k := s.clients[c];
      EffectIsSwapId(k.req.value.stage.caps, Compare(c, k.req.value.op), Exchange(c, k.req.value.op), k.nmcs, s.entry);
    case Bypass(c, op) =>
      EffectIsSwapId(BYPASS_CAPS, Compare(c, op), Exchange(c, op), s.clients[c].nmcs, s.entry);
    case _ =>
  }

  /** In every state of every run, no request has been resubmitted more often than the budget
      allows, and none has exchanged the id more than once. */
  lemma RequestBounds(s: State, ts: seq<Step>, c: u32)
    requires Inv(s) && Legal(s, ts) && c in Run(s, ts).clients && Run(s, ts).clients[c].req.Some?
    ensures var r := Run(s, ts).clients[c].req.value;
            && r.resubmits <= 8 && r.swaps <= 1
            && (r.swaps == 1 ==> r.stage.Landed? && !VerdictOf(c, r, Run(s, ts).clients[c].nmcs).Retry?)
  {
    hide Run, Legal;
    assert ClientInv(c, Run(s, ts).clients[c]);
  }

  /** What a client is told is what its request did: a resubmitted request has swapped nothing,
      and TAKEN is reported iff the id was exchanged, unless the reply is a misread one. */
  lemma ReplyIsTruthful(s: State, c: u32)
    requires Inv(s) && Enabled(s, Reply(c))
    ensures var k := s.clients[c];
            var r := k.req.value;
            var v := VerdictOf(c, r, k.nmcs);
            && (v.Retry? ==> r.swaps == 0 && r.resubmits < NMCS_BI_MAX_ATTEMPTS)
            && ((v.Taken? <==> r.swaps == 1)
                <==> !Misread(r.stage.caps.UsesMask(), Compare(c, r.op), k.nmcs, r.stage.old_))
  {
    assert ClientInv(c, s.clients[c]);
  }

  // ---------------------------------------------------------------- refinement

  /** A request whose reply will be answered with a resubmission has not happened yet. */
  function AbsReqOf(c: u32, r: Request, nmcs: Nmcs): AbsReq {
    if r.stage.Landed? && !VerdictOf(c, r, nmcs).Retry? then Done(r.op, r.stage.old_.id) else Pending(r.op)
  }

  function AbsClientOf(c: u32, k: Client): AbsClient {
    AbsClient(k.holding, if k.req.None? then None else Some(AbsReqOf(c, k.req.value, k.nmcs)))
  }

  function Abs(s: State): AbsState {
    AbsState(s.entry, map c | c in s.clients :: AbsClientOf(c, s.clients[c]))
  }

  /** The abstract steps a concrete step stands for. */
  function AbsStepsOf(s: State, t: Step): seq<AbsStep>
    requires Enabled(s, t)
  {
    match t
    case Submit(c, op) => [ASubmit(c, op)]
    case Post(_, _) => []
    case Land(c) =>
      var k := s.clients[c];
      var r := k.req.value;
      if ReadReply(r.stage.caps.UsesMask(), Compare(c, r.op), k.nmcs, s.entry).Retry? then [] else [ASwap(c)]
    case Reply(c) => if VerdictOf(c, s.clients[c].req.value, s.clients[c].nmcs).Retry? then [] else [AReply(c)]
    case Fail(c) => [AFail(c)]
    case Bypass(c, op) => [ASubmit(c, op), ASwap(c), AReply(c)]
    case WriteInfo(bi) => [AWriteInfo(bi)]
  }

  /** The one way the protocol departs from an indivisible swap: the retry budget of a plain
      compare-and-swap is spent, the blkset-info has moved once more, and the id is the
      expected one. It can be read off the state before the step. */
  predicate Misreports(s: State, t: Step)
    requires Enabled(s, t)
  {
    t.Land? &&
    var k := s.clients[t.c];
    Misread(k.req.value.stage.caps.UsesMask(), Compare(t.c, k.req.value.op), k.nmcs, s.entry)
  }

  lemma LandRefines(s: State, c: u32)
    requires Inv(s) && Enabled(s, Land(c))
    ensures AbsLegal(Abs(s), AbsStepsOf(s, Land(c)))
    ensures AbsRun(Abs(s), AbsStepsOf(s, Land(c))) == Abs(LandStep(s, c)) <==> !Misreports(s, Land(c))
  {
    var k := s.clients[c];
    var r := k.req.value;
    VerdictTellsEffect(r.stage.caps, Compare(c, r.op), Exchange(c, r.op), k.nmcs, s.entry);
    var a, a' := Abs(s), Abs(LandStep(s, c));
    var ts := AbsStepsOf(s, Land(c));
    if ts == [] {
      assert a'.clients == a.clients;
    } else {
      assert AbsLegal(AbsNext(a, ts[0]), ts[1..]);
      assert AbsRun(a, ts) == AbsNext(a, ts[0]);
      assert a'.clients == AbsNext(a, ts[0]).clients;
    }
  }

  lemma ReplyRefines(s: State, c: u32)
    requires Inv(s) && Enabled(s, Reply(c))
    ensures AbsLegal(Abs(s), AbsStepsOf(s, Reply(c)))
    ensures AbsRun(Abs(s), AbsStepsOf(s, Reply(c))) == Abs(ReplyStep(s, c))
  {
    var a, a' := Abs(s), Abs(ReplyStep(s, c));
    var ts := AbsStepsOf(s, Reply(c));
    if ts == [] {
      assert a'.clients == a.clients;
    } else {
      assert AbsLegal(AbsNext(a, ts[0]), ts[1..]);
      assert a'.clients == AbsNext(a, ts[0]).clients;
    }
  }

  lemma BypassRefines(s: State, c: u32, op: Op)
    requires Inv(s) && Enabled(s, Bypass(c, op))
    ensures AbsLegal(Abs(s), AbsStepsOf(s, Bypass(c, op)))
    ensures AbsRun(Abs(s), AbsStepsOf(s, Bypass(c, op))) == Abs(BypassStep(s, c, op))
  {
    EffectIsSwapId(BYPASS_CAPS, Compare(c, op), Exchange(c, op), s.clients[c].nmcs, s.entry);
    hide Inv, Effect, PrepareCas, AbsLegal, AbsRun;
    var ts := AbsStepsOf(s, Bypass(c, op));
    var a := Abs(s);
    var a1 := AbsNext(a, ts[0]);
    var a2 := AbsNext(a1, ts[1]);
    var a3 := AbsNext(a2, ts[2]);
    AbsThree(a, ts[0], ts[1], ts[2]);
    assert ts == [ts[0]] + ([ts[1]] + ([ts[2]] + []));
    assert a3.clients == Abs(BypassStep(s, c, op)).clients;
  }

  lemma AbsThree(a: AbsState, t: AbsStep, u: AbsStep, v: AbsStep)
    requires AbsEnabled(a, t) && AbsEnabled(AbsNext(a, t), u) && AbsEnabled(AbsNext(AbsNext(a, t), u), v)
    ensures AbsLegal(a, [t] + ([u] + ([v] + []))) && AbsRun(a, [t] + ([u] + ([v] + []))) == AbsNext(AbsNext(AbsNext(a, t), u), v)
  {
    hide AbsEnabled, AbsNext;
    var a1 := AbsNext(a, t);
    AbsOne(AbsNext(a1, u), v, []);
    AbsOne(a1, u, [v] + []);
    AbsOne(a, t, [u] + ([v] + []));
  }

  lemma AbsOne(a: AbsState, t: AbsStep, us: seq<AbsStep>)
    requires AbsEnabled(a, t) && AbsLegal(AbsNext(a, t), us)
    ensures AbsLegal(a, [t] + us) && AbsRun(a, [t] + us) == AbsRun(AbsNext(a, t), us)
    ensures us == [] ==> AbsRun(a, [t] + us) == AbsNext(a, t)
  {
    hide AbsEnabled, AbsNext;
    assert ([t] + us)[1..] == us;
  }

  lemma PostRefines(s: State, c: u32, caps: Caps)
    requires Inv(s) && Enabled(s, Post(c, caps))
    ensures AbsLegal(Abs(s), AbsStepsOf(s, Post(c, caps)))
    ensures AbsRun(Abs(s), AbsStepsOf(s, Post(c, caps))) == Abs(Next(s, Post(c, caps)))
  {
    assert Abs(Next(s, Post(c, caps))).clients == Abs(s).clients;
  }

  lemma OneStepRefines(s: State, t: Step)
    requires Inv(s) && Enabled(s, t) && (t.Submit? || t.Fail? || t.WriteInfo?)
    ensures AbsLegal(Abs(s), AbsStepsOf(s, t))
    ensures AbsRun(Abs(s), AbsStepsOf(s, t)) == Abs(Next(s, t))
  {
    hide Inv;
    var ts := AbsStepsOf(s, t);
    var a1 := AbsNext(Abs(s), ts[0]);
    assert ts == [ts[0]] + [];
    AbsOne(Abs(s), ts[0], []);
    assert a1.clients == Abs(Next(s, t)).clients;
  }

  /** Every step is zero, one or three indivisible-swap steps, except exactly the misreports. */
  lemma StepRefines(s: State, t: Step)
    requires Inv(s) && Enabled(s, t)
    ensures AbsLegal(Abs(s), AbsStepsOf(s, t))
    ensures AbsRun(Abs(s), AbsStepsOf(s, t)) == Abs(Next(s, t)) <==> !Misreports(s, t)
  {
    hide Inv, Abs, AbsRun, AbsLegal, AbsStepsOf, LandStep, ReplyStep, BypassStep;
    match t
    case Land(c) => LandRefines(s, c);
    case Reply(c) => ReplyRefines(s, c);
    case Bypass(c, op) => BypassRefines(s, c, op);
    case Post(c, caps) => PostRefines(s, c, caps);
    case _ => OneStepRefines(s, t);
  }

  /** Nobody's reply is misread in this run. */
  ghost predicate NoMisreport(s: State, ts: seq<Step>)
    requires Inv(s) && Legal(s, ts)
    decreases |ts|
  {
    ts != [] ==> !Misreports(s, ts[0]) && (NextKeepsInv(s, ts[0]); NoMisreport(Next(s, ts[0]), ts[1..]))
  }

  /** The abstract steps a run stands for. */
  ghost function AbsTrace(s: State, ts: seq<Step>): seq<AbsStep>
    requires Inv(s) && Legal(s, ts)
    decreases |ts|
  {
    if ts == [] then []
    else
      NextKeepsInv(s, ts[0]);
      AbsStepsOf(s, ts[0]) + AbsTrace(Next(s, ts[0]), ts[1..])
  }

  lemma {:induction false} AbsRunJoin(a: AbsState, ts: seq<AbsStep>, us: seq<AbsStep>)
    requires AbsLegal(a, ts) && AbsLegal(AbsRun(a, ts), us)
    ensures AbsLegal(a, ts + us) && AbsRun(a, ts + us) == AbsRun(AbsRun(a, ts), us)
    decreases |ts|
  {
    hide AbsNext, AbsEnabled;
    if ts == [] {
      assert ts + us == us;
    } else {
      AbsRunJoin(AbsNext(a, ts[0]), ts[1..], us);
      assert (ts + us)[1..] == ts[1..] + us;
    }
  }

  /** Refinement over whole runs: a run without misreports is a legal run of the machine in which
      every request is one indivisible swap, and ends in the same abstract state. */
  lemma {:induction false} RunRefines(s: State, ts: seq<Step>)
    requires Inv(s) && Legal(s, ts) && NoMisreport(s, ts)
    ensures AbsLegal(Abs(s), AbsTrace(s, ts)) && AbsRun(Abs(s), AbsTrace(s, ts)) == Abs(Run(s, ts))
    decreases |ts|
  {
    hide Inv, Next, Enabled, Misreports, Abs, AbsStepsOf;
    if ts != [] {
      NextKeepsInv(s, ts[0]);
      StepRefines(s, ts[0]);
      RunRefines(Next(s, ts[0]), ts[1..]);
      AbsRunJoin(Abs(s), AbsStepsOf(s, ts[0]), AbsTrace(Next(s, ts[0]), ts[1..]));
    }
  }

  /** A misreported acquire: the client will be told TAKEN for a lock it did not take. A
      misreported release only leaves the lock taken. */
  predicate FalseGrant(s: State, t: Step)
    requires Enabled(s, t)
  {
    Misreports(s, t) && s.clients[t.c].req.value.op.Acquire?
  }

  /** Whoever was told TAKEN, or is about to be, finds its own id in the entry. */
  ghost predicate Owned(s: State) { AbsInv(Abs(s)) }

  lemma MisreportKeepsOwned(s: State, c: u32)
    requires Inv(s) && Owned(s) && Enabled(s, Land(c)) && Misreports(s, Land(c))
    ensures Owned(LandStep(s, c)) <==> s.clients[c].req.value.op.Release?
  {
    var k := s.clients[c];
    var t := LandStep(s, c);
    EffectIsSwapId(k.req.value.stage.caps, Compare(c, k.req.value.op), Exchange(c, k.req.value.op), k.nmcs, s.entry);
    assert t.entry == s.entry;
    assert Abs(t).clients == Abs(s).clients[c := AbsClientOf(c, t.clients[c])];
    if k.req.value.op.Acquire? {
      assert AbsOwns(c, Abs(t).clients[c]) && t.entry.id != c;
    } else {
      assert Abs(s).clients[c].req.value.op.Release? && !Abs(s).clients[c].holding;
      forall d | d in Abs(t).clients ensures !AbsOwns(d, Abs(t).clients[d]) {
        assert d in Abs(s).clients && (AbsOwns(d, Abs(s).clients[d]) ==> s.entry.id == d);
      }
    }
  }

  /** A step keeps ownership unless it is a false grant, and a false grant breaks it. */
  lemma StepKeepsOwned(s: State, t: Step)
    requires Inv(s) && Owned(s) && Enabled(s, t)
    ensures Owned(Next(s, t)) <==> !FalseGrant(s, t)
  {
    if Misreports(s, t) {
      MisreportKeepsOwned(s, t.c);
    } else {
      StepRefines(s, t);
      AbsRunKeepsInv(Abs(s), AbsStepsOf(s, t));
    }
  }

  ghost predicate NoFalseGrant(s: State, ts: seq<Step>)
    requires Inv(s) && Legal(s, ts)
    decreases |ts|
  {
    ts != [] ==> !FalseGrant(s, ts[0]) && (NextKeepsInv(s, ts[0]); NoFalseGrant(Next(s, ts[0]), ts[1..]))
  }

  /** Ownership holds in every state the run goes through. */
  ghost predicate AlwaysOwned(s: State, ts: seq<Step>)
    requires Inv(s) && Legal(s, ts)
    decreases |ts|
  {
    Owned(s) && (ts != [] ==> (NextKeepsInv(s, ts[0]); AlwaysOwned(Next(s, ts[0]), ts[1..])))
  }

  /** Over whole runs, ownership is kept throughout exactly when there is no false grant. */
  lemma {:induction false} OwnershipIsExact(s: State, ts: seq<Step>)
    requires Inv(s) && Owned(s) && Legal(s, ts)
    ensures AlwaysOwned(s, ts) <==> NoFalseGrant(s, ts)
    decreases |ts|
  {
    hide Owned, FalseGrant, Next;
    if ts != [] {
      var s' := Next(s, ts[0]);
      StepKeepsOwned(s, ts[0]);
      NextKeepsInv(s, ts[0]);
      if Owned(s') { OwnershipIsExact(s', ts[1..]); }
    }
  }

  /** Mutual exclusion over whole runs: whoever was told TAKEN and has not asked to release
      finds its own id in the entry, so no two clients hold the lock. */
  lemma {:induction false} MutualExclusion(s: State, ts: seq<Step>)
    requires Inv(s) && Owned(s) && Legal(s, ts) && NoFalseGrant(s, ts)
    ensures var s' := Run(s, ts);
            && Owned(s')
            && (forall c | c in s'.clients && s'.clients[c].holding :: s'.entry.id == c)
            && (forall c, d | c in s'.clients && d in s'.clients && s'.clients[c].holding && s'.clients[d].holding :: c == d)
    decreases |ts|
  {
    if ts == [] {
      forall c | c in s.clients && s.clients[c].holding ensures s.entry.id == c {
        assert AbsOwns(c, Abs(s).clients[c]);
      }
    } else {
      StepKeepsOwned(s, ts[0]);
      NextKeepsInv(s, ts[0]);
      MutualExclusion(Next(s, ts[0]), ts[1..]);
    }
  }

  lemma InitSatisfiesInvariants(s: State)
    requires Init(s)
    ensures Inv(s) && Owned(s)
  {
  }

  // ---------------------------------------------------------------- the misreport is real

  lemma {:induction false} RunAppend(s: State, ts: seq<Step>, us: seq<Step>)
    requires Inv(s) && Legal(s, ts) && Legal(Run(s, ts), us)
    ensures Legal(s, ts + us) && Run(s, ts + us) == Run(Run(s, ts), us)
    decreases |ts|
  {
    if ts == [] {
      assert ts + us == us;
    } else {
      NextKeepsInv(s, ts[0]);
      RunAppend(Next(s, ts[0]), ts[1..], us);
      assert (ts + us)[1..] == ts[1..] + us;
    }
  }

  const PLAIN: Caps := Caps(true, false)

  /** Client 1 is in its k-th resubmission at the given stage; client 2 is idle. */
  function StarvedAt(k: u32, stage: Stage, bi: u32): State {
    State(Entry(NO_OWNER, bi),
          map[1 := Client(false, Some(Request(Acquire, stage, k, 0)), Nmcs(k, k)), 2 := Client(false, None, FRESH)])
  }

  /** Client 1 is about to post its k-th resubmission. */
  function Starved(k: u32): State { StarvedAt(k, Queued, k) }

  /** Client 1 was told TAKEN, though the entry has no owner. */
  function Fooled(bi: u32): State {
    State(Entry(NO_OWNER, bi), map[1 := Client(true, None, FRESH), 2 := Client(false, None, FRESH)])
  }

  lemma FourSteps(s: State, a: Step, b: Step, c: Step, d: Step, s1: State, s2: State, s3: State, s4: State)
    requires Inv(s) && Inv(s1) && Inv(s2) && Inv(s3) && Inv(s4)
    requires Enabled(s, a) && Next(s, a) == s1
    requires Enabled(s1, b) && Next(s1, b) == s2
    requires Enabled(s2, c) && Next(s2, c) == s3
    requires Enabled(s3, d) && Next(s3, d) == s4
    ensures Legal(s, [a, b, c, d]) && Run(s, [a, b, c, d]) == s4
  {
    hide Inv, Next, Enabled;
    assert Legal(s4, []) && Run(s4, []) == s4;
    assert [d][1..] == [] && Legal(s3, [d]) && Run(s3, [d]) == s4;
    assert [c, d][1..] == [d] && Legal(s2, [c, d]) && Run(s2, [c, d]) == s4;
    assert [b, c, d][1..] == [c, d] && Legal(s1, [b, c, d]) && Run(s1, [b, c, d]) == s4;
    assert [a, b, c, d][1..] == [b, c, d];
  }

  lemma StarvedIsInv(k: u32, stage: Stage, bi: u32)
    requires k <= NMCS_BI_MAX_ATTEMPTS
    requires stage.Landed? ==> stage.old_.id == NO_OWNER && !stage.caps.UsesMask() && stage.old_.bi != k
    ensures Inv(StarvedAt(k, stage, bi))
  {
  }

  lemma StarvedPosts(k: u32)
    requires k <= NMCS_BI_MAX_ATTEMPTS
    ensures var s, t, u := Starved(k), StarvedAt(k, Flying(PLAIN), k), StarvedAt(k, Flying(PLAIN), k + 1);
            && Inv(s) && Enabled(s, Post(1, PLAIN)) && Next(s, Post(1, PLAIN)) == t
            && Inv(t) && Enabled(t, WriteInfo(k + 1)) && Next(t, WriteInfo(k + 1)) == u
  {
    hide Inv;
    StarvedIsInv(k, Queued, k);
    StarvedIsInv(k, Flying(PLAIN), k);
  }

  lemma StarvedLands(k: u32)
    requires k <= NMCS_BI_MAX_ATTEMPTS
    ensures var s, t := StarvedAt(k, Flying(PLAIN), k + 1), StarvedAt(k, Landed(PLAIN, Entry(NO_OWNER, k + 1)), k + 1);
            Inv(s) && Enabled(s, Land(1)) && Next(s, Land(1)) == t
  {
    hide Inv;
    StarvedIsInv(k, Flying(PLAIN), k + 1);
  }

  lemma StarvedHears(k: u32)
    requires k <= NMCS_BI_MAX_ATTEMPTS
    ensures var s := StarvedAt(k, Landed(PLAIN, Entry(NO_OWNER, k + 1)), k + 1);
            && Inv(s) && Enabled(s, Reply(1))
            && Next(s, Reply(1)) == if k < NMCS_BI_MAX_ATTEMPTS then Starved(k + 1) else Fooled(k + 1)
  {
    hide Inv;
    StarvedIsInv(k, Landed(PLAIN, Entry(NO_OWNER, k + 1)), k + 1);
  }

  lemma FooledIsInv(bi: u32)
    ensures Inv(Fooled(bi))
  {
  }

  /** One more plain attempt met by one more blkset-info write. */
  lemma StarveOnce(k: u32)
    requires k <= NMCS_BI_MAX_ATTEMPTS
    ensures var ts := [Post(1, PLAIN), WriteInfo(k + 1), Land(1), Reply(1)];
            && Inv(Starved(k))
            && Legal(Starved(k), ts)
            && Run(Starved(k), ts) == if k < NMCS_BI_MAX_ATTEMPTS then Starved(k + 1) else Fooled(k + 1)
  {
    hide Inv, Legal, Run, Next, Enabled, StarvedAt, Fooled;
    var s3 := StarvedAt(k, Landed(PLAIN, Entry(NO_OWNER, k + 1)), k + 1);
    var s4 := if k < NMCS_BI_MAX_ATTEMPTS then Starved(k + 1) else Fooled(k + 1);
    StarvedPosts(k);
    StarvedLands(k);
    StarvedHears(k);
    if k < NMCS_BI_MAX_ATTEMPTS { StarvedIsInv(k + 1, Queued, k + 1); } else { FooledIsInv(k + 1); }
    FourSteps(Starved(k), Post(1, PLAIN), WriteInfo(k + 1), Land(1), Reply(1),
              StarvedAt(k, Flying(PLAIN), k), StarvedAt(k, Flying(PLAIN), k + 1), s3, s4);
  }

  lemma {:induction false} StarveAll(k: u32) returns (ts: seq<Step>)
    requires k <= NMCS_BI_MAX_ATTEMPTS
    ensures Inv(Starved(k)) && Legal(Starved(k), ts)
    ensures Run(Starved(k), ts) == Fooled(NMCS_BI_MAX_ATTEMPTS + 1)
    decreases NMCS_BI_MAX_ATTEMPTS - k
  {
    hide Inv, Legal, Run;
    StarveOnce(k);
    ts := [Post(1, PLAIN), WriteInfo(k + 1), Land(1), Reply(1)];
    if k < NMCS_BI_MAX_ATTEMPTS {
      var rest := StarveAll(k + 1);
      RunAppend(Starved(k), ts, rest);
      ts := ts + rest;
    }
  }

  const SECOND: seq<Step> := [Submit(2, Acquire), Post(2, BYPASS_CAPS), Land(2), Reply(2)]

  lemma SecondWins(m: State)
    requires m.entry.id == NO_OWNER
    requires m.clients == map[1 := Client(true, None, FRESH), 2 := Client(false, None, FRESH)]
    ensures Inv(m) && Legal(m, SECOND)
    ensures Run(m, SECOND).clients == map[1 := Client(true, None, FRESH), 2 := Client(true, None, FRESH)]
  {
    hide Legal, Run;
    var m1 := Next(m, Submit(2, Acquire));
    var m2 := Next(m1, Post(2, BYPASS_CAPS));
    var m3 := Next(m2, Land(2));
    NextKeepsInv(m2, Land(2));
    var m4 := Next(m3, Reply(2));
    NextKeepsInv(m3, Reply(2));
    FourSteps(m, Submit(2, Acquire), Post(2, BYPASS_CAPS), Land(2), Reply(2), m1, m2, m3, m4);
  }

  /** Without the hypothesis mutual exclusion is false: nine blkset-info writes, each between
      the posting and the execution of client 1's attempt, end with both clients holding. */
  lemma SpentBudgetBreaksExclusion() returns (s: State, ts: seq<Step>)
    ensures Init(s) && Inv(s) && Legal(s, ts)
    ensures 1 in Run(s, ts).clients && Run(s, ts).clients[1].holding
    ensures 2 in Run(s, ts).clients && Run(s, ts).clients[2].holding
  {
    s := State(Entry(NO_OWNER, 0), map[1 := Client(false, None, FRESH), 2 := Client(false, None, FRESH)]);
    InitSatisfiesInvariants(s);
    var begin := [Submit(1, Acquire)];
    assert begin[1..] == [];
    var t := Next(s, begin[0]);
    assert t.clients == Starved(0).clients;
    assert Legal(t, begin[1..]) && Run(s, begin) == t;
    hide Legal, Run, Next;
    var ts1 := StarveAll(0);
    RunAppend(s, begin, ts1);
    SecondWins(Run(s, begin + ts1));
    RunAppend(s, begin + ts1, SECOND);
    ts := begin + ts1 + SECOND;
  }
}
