/** The lock channel engine, as values: a pool of operation slots, the deferred queue, the
    lists the slots travel through, and the ledger of accepted and called-back requests.
    Each function or relation here is what one routine does under the channel spinlock. */
module LockEngine {
  import opened LockEntry

  /** Identity of a lock request (the caller's completion object). */
  type Req = nat

  const WR_PER_MSG: nat := 8
  const VERSIONS: nat := 0x1_0000

  datatype Opr = CmpAndSwap | LockRead | ForceWrite | InfoWrite

  datatype Opcode = OpCas | OpMaskedCas | OpRead | OpWrite {
    predicate AtomOrRead() { !OpWrite? }
  }

  datatype Status = FailNoComp | FailComp | StatusTaken | StatusContended

  /** The fields of a request the channel uses. `deferredAt` is when it last entered the queue. */
  datatype Comp = Comp(opr: Opr, compare: u32, nmcs: Nmcs, deferredAt: nat, status: Status)

  /** A slot's reference to its request: null, the poison value of a retired slot, or live. */
  datatype CompRef = NoComp | Poison | Live(req: Req)

  datatype SlotState = InFreeList | Preparing | InProgress | Aborted | Error

  datatype Slot = Slot(version: nat, comp: CompRef, opcode: Opcode, state: SlotState, aborted: bool)

  datatype Config = Config(caps: Caps, maxRdAtomic: nat, maxLockTime: nat)

  datatype Channel = Channel(
    cfg: Config,
    slots: seq<Slot>,
    deferred: seq<Req>, inProgress: seq<nat>, free: seq<nat>, aborted: seq<nat>,
    numDeferred: int, numInProgress: int, numFree: int, numAborted: int, numAtomRead: int,
    paused: bool,
    comps: map<Req, Comp>,
    now: nat,
    awaiting: seq<Req>,         // taken off the lists, callback not made yet
    accepted: multiset<Req>,    // submissions that returned 0
    called: multiset<Req>)      // callbacks made

  function OpcodeFor(cfg: Config, opr: Opr): Opcode {
    match opr
    case CmpAndSwap => if cfg.caps.UsesMask() then OpMaskedCas else OpCas
    case LockRead => OpRead
    case ForceWrite => OpWrite
    case InfoWrite => OpWrite
  }

  // ---------------------------------------------------------------- counting helpers

  predicate InRange(l: seq<nat>, n: nat) { forall j | 0 <= j < |l| :: l[j] < n }

  function ReqAt(slot: Slot): Req { if slot.comp.Live? then slot.comp.req else 0 }

  function ReqsOf(slots: seq<Slot>, l: seq<nat>): seq<Req>
    requires InRange(l, |slots|)
  {
    seq(|l|, j requires 0 <= j < |l| => ReqAt(slots[l[j]]))
  }

  function Ones(bs: seq<bool>): nat {
    if bs == [] then 0 else Ones(bs[..|bs| - 1]) + (if bs[|bs| - 1] then 1 else 0)
  }

  lemma {:induction false} OnesAppend(a: seq<bool>, b: seq<bool>)
    ensures Ones(a + b) == Ones(a) + Ones(b)
  {
    if b == [] {
      assert a + b == a;
    } else {
      OnesAppend(a, b[..|b| - 1]);
      assert (a + b)[..|a + b| - 1] == a + b[..|b| - 1];
    }
  }

  function SlotBits(slots: seq<Slot>, l: seq<nat>): seq<bool>
    requires InRange(l, |slots|)
  {
    seq(|l|, j requires 0 <= j < |l| => slots[l[j]].opcode.AtomOrRead())
  }

  predicate Known(s: Channel, rs: seq<Req>) { forall j | 0 <= j < |rs| :: rs[j] in s.comps }

  function IndexOf<T(==)>(l: seq<T>, x: T): (k: nat)
    requires x in l
    ensures k < |l| && l[k] == x
  {
    if l[0] == x then 0 else 1 + IndexOf(l[1..], x)
  }

  /** list_del: unlink x; a no-op on an element that is not linked. */
  function Unlink<T(==)>(l: seq<T>, x: T): seq<T> {
    if x in l then l[..IndexOf(l, x)] + l[IndexOf(l, x) + 1..] else l
  }

  lemma Split<T>(l: seq<T>, k: nat)
    requires k <= |l|
    ensures l == l[..k] + l[k..]
    ensures multiset(l) == multiset(l[..k]) + multiset(l[k..])
  {
    assert l == l[..k] + l[k..];
  }

  lemma Cut<T>(l: seq<T>, k: nat)
    requires k < |l|
    ensures l == l[..k] + [l[k]] + l[k + 1..]
    ensures multiset(l) == multiset(l[..k] + l[k + 1..]) + multiset{l[k]}
  {
    assert l == l[..k] + [l[k]] + l[k + 1..];
  }

  predicate Distinct(l: seq<nat>) { forall i, j | 0 <= i < j < |l| :: l[i] != l[j] }

  lemma OnceIsDistinct(l: seq<nat>, m: multiset<nat>)
    requires multiset(l) <= m && forall x: nat :: m[x] <= 1
    ensures Distinct(l)
  {
    forall i, j | 0 <= i < j < |l| ensures l[i] != l[j] {
      Cut(l, i);
      var rest := l[..i] + l[i + 1..];
      assert rest[j - 1] == l[j];
      assert l[j] in multiset(rest);
      assert m[l[i]] <= 1 && m[l[j]] <= 1;
    }
  }

  /** The slot numbers below n, each once. */
  ghost function AllSlots(n: nat): multiset<nat> {
    if n == 0 then multiset{} else AllSlots(n - 1) + multiset{n - 1}
  }

  lemma {:induction false} AllSlotsOnce(n: nat, i: nat)
    ensures AllSlots(n)[i] == if i < n then 1 else 0
  {
    if n != 0 { AllSlotsOnce(n - 1, i); }
  }

  // ---------------------------------------------------------------- invariant

  /** The channel as seen inside the critical section: `out` is the chain of slots taken off
      the free list and not yet posted. It is empty whenever the spinlock is free. */
  datatype Work = Work(ch: Channel, out: seq<nat>)

  /** The free, in-progress, aborted (and taken) lists partition the slots and the counters are
      the list lengths: the sums the source checks with BUG_ON. */
  ghost predicate ListsInv(w: Work) {
    var s := w.ch;
    && multiset(s.free) + multiset(s.inProgress) + multiset(s.aborted) + multiset(w.out) == AllSlots(|s.slots|)
    && s.numFree == |s.free| && s.numInProgress == |s.inProgress| && s.numAborted == |s.aborted|
    && s.numDeferred == |s.deferred|
    && s.numInProgress + s.numFree + s.numAborted + |w.out| == |s.slots|
  }

  predicate FreeSlot(x: Slot) { x.state.InFreeList? && !x.comp.Live? && !x.aborted && x.version < VERSIONS }

  predicate BusySlot(x: Slot) { x.state.InProgress? && x.comp.Live? && !x.aborted && x.version < VERSIONS }

  predicate DeadSlot(x: Slot) { x.state.Aborted? && x.comp.Live? && x.aborted && x.version < VERSIONS }

  predicate ChainSlot(x: Slot) { (x.state.Preparing? || x.state.Error?) && x.comp.Live? && !x.aborted && x.version < VERSIONS }

  datatype Kind = KFree | KBusy | KDead | KChain

  predicate Is(x: Slot, k: Kind) {
    match k
    case KFree => FreeSlot(x)
    case KBusy => BusySlot(x)
    case KDead => DeadSlot(x)
    case KChain => ChainSlot(x)
  }

  predicate All(slots: seq<Slot>, l: seq<nat>, k: Kind) {
    forall j | 0 <= j < |l| :: l[j] < |slots| && Is(slots[l[j]], k)
  }

  ghost predicate SlotsInv(w: Work) {
    && All(w.ch.slots, w.ch.free, KFree)
    && All(w.ch.slots, w.ch.inProgress, KBusy)
    && All(w.ch.slots, w.ch.aborted, KDead)
    && All(w.ch.slots, w.out, KChain)
  }

  /** The lists name existing slots. */
  predicate Listed(w: Work) { InRange(w.ch.inProgress, |w.ch.slots|) && InRange(w.out, |w.ch.slots|) }

  /** num_of_atom_read_ip counts the in-progress atomics and reads; together with the chain
      being built it stays below the limit plus one batch. */
  ghost predicate AtomsInv(w: Work)
    requires Listed(w)
  {
    && w.ch.numAtomRead == Ones(SlotBits(w.ch.slots, w.ch.inProgress))
    && (w.ch.cfg.caps.atomic ==> w.ch.numAtomRead + |w.out| < w.ch.cfg.maxRdAtomic + WR_PER_MSG)
  }

  /** Requests queued, being posted or in progress. */
  ghost function Queued(w: Work): multiset<Req>
    requires Listed(w)
  {
    multiset(w.ch.deferred) + multiset(ReqsOf(w.ch.slots, w.out)) + multiset(ReqsOf(w.ch.slots, w.ch.inProgress))
  }

  /** The requests the channel owes a callback. */
  ghost function Owed(w: Work): multiset<Req>
    requires Listed(w)
  {
    Queued(w) + multiset(w.ch.awaiting)
  }

  /** No request is in two places, and every accepted submission has had its callback or is
      owed one. */
  ghost predicate LedgerInv(w: Work)
    requires Listed(w)
  {
    && Owed(w) <= multiset(w.ch.comps.Keys)
    && w.ch.accepted == w.ch.called + Owed(w)
  }

  predicate Sorted(ts: seq<nat>) { forall i, j | 0 <= i < j < |ts| :: ts[i] <= ts[j] }

  function Times(comps: map<Req, Comp>, rs: seq<Req>): seq<nat>
    requires forall j | 0 <= j < |rs| :: rs[j] in comps
  {
    seq(|rs|, j requires 0 <= j < |rs| => comps[rs[j]].deferredAt)
  }

  /** The chain followed by the deferred queue: what a full undo would restore. */
  function Line(w: Work): seq<Req>
    requires Listed(w)
  {
    ReqsOf(w.ch.slots, w.out) + w.ch.deferred
  }

  ghost predicate QueueInv(w: Work)
    requires Listed(w)
  {
    && (forall j | 0 <= j < |Line(w)| :: Line(w)[j] in w.ch.comps)
    && Sorted(Times(w.ch.comps, Line(w)))
    && (forall j | 0 <= j < |Line(w)| :: w.ch.comps[Line(w)[j]].deferredAt <= w.ch.now)
  }

  ghost predicate CompsInv(w: Work)
    requires Listed(w)
  {
    && (forall r | r in w.ch.comps :: w.ch.comps[r].nmcs.Ok())
    && (forall r | r in Queued(w) && r in w.ch.comps :: w.ch.comps[r].status.FailNoComp?)
  }

  ghost predicate Inv(w: Work) {
    ListsInv(w) && SlotsInv(w) && AtomsInv(w) && LedgerInv(w) && QueueInv(w) && CompsInv(w)
  }

  // ---------------------------------------------------------------- single operations

  /** Unlink an operation from the in-progress list. */
  function OffProgress(s: Channel, i: nat): Channel
    requires i < |s.slots|
  {
    s.(inProgress := Unlink(s.inProgress, i), numInProgress := s.numInProgress - 1,
       numAtomRead := s.numAtomRead - (if s.slots[i].opcode.AtomOrRead() then 1 else 0))
  }

  /** Retire an unlinked slot to the free list with a new version, or, when it was aborted,
      park it for good with its version kept. */
  function Park(s: Channel, i: nat): Channel
    requires i < |s.slots|
  {
    var x := s.slots[i];
    if !x.aborted then
      s.(slots := s.slots[i := x.(version := (x.version + 1) % VERSIONS, comp := Poison, state := InFreeList)],
         free := s.free + [i], numFree := s.numFree + 1)
    else
      s.(slots := s.slots[i := x.(state := Aborted)],
         aborted := s.aborted + [i], numAborted := s.numAborted + 1)
  }

  /** locks_free_opr; only a counted operation is on the in-progress list. */
  function FreeOpr(s: Channel, i: nat, counted: bool): Channel
    requires i < |s.slots|
  {
    Park(if counted then OffProgress(s, i) else s, i)
  }

  function PreparedSlot(s: Channel, i: nat, r: Req): Slot
    requires i < |s.slots| && r in s.comps
  {
    s.slots[i].(comp := Live(r), opcode := OpcodeFor(s.cfg, s.comps[r].opr), state := Preparing)
  }

  /** Take the first deferred request and the first free slot and build the work request. */
  function TakeOne(s: Channel): Channel
    requires s.deferred != [] && s.free != [] && s.free[0] < |s.slots| && s.deferred[0] in s.comps
  {
    s.(deferred := s.deferred[1..], numDeferred := s.numDeferred - 1,
       free := s.free[1..], numFree := s.numFree - 1,
       slots := s.slots[s.free[0] := PreparedSlot(s, s.free[0], s.deferred[0])])
  }

  /** set_opr_in_progress */
  function StartOne(s: Channel, i: nat): Channel
    requires i < |s.slots|
  {
    s.(slots := s.slots[i := s.slots[i].(state := InProgress)],
       inProgress := s.inProgress + [i], numInProgress := s.numInProgress + 1,
       numAtomRead := s.numAtomRead + (if s.slots[i].opcode.AtomOrRead() then 1 else 0))
  }

  function BackSlots(slots: seq<Slot>, l: seq<nat>): seq<Slot> {
    seq(|slots|, i requires 0 <= i < |slots| =>
      if i in l then slots[i].(comp := NoComp, state := InFreeList) else slots[i])
  }

  /** Unposted slots go back to the tail of the free list, their requests to the head of the
      queue in their original order. */
  function GiveBack(s: Channel, l: seq<nat>): Channel
    requires InRange(l, |s.slots|)
  {
    s.(slots := BackSlots(s.slots, l),
       free := s.free + l, numFree := s.numFree + |l|,
       deferred := ReqsOf(s.slots, l) + s.deferred, numDeferred := s.numDeferred + |l|)
  }

  // ---------------------------------------------------------------- lock_prepare_and_send

  /** The moves lock_prepare_and_send and the clean-up of its bad slot are made of. */
  datatype Move =
    | Take                 // prepare the next request and append it to the chain
    | Post                 // the first chained work request was accepted by the device
    | Reject               // the first chained work request was refused for good
    | Undo(from: nat)      // the chain from here on goes back
    | Retire               // the refused request's slot is freed; if it is the request being
                           // submitted its submitter is told, otherwise its callback is made

  /** The device may still take one more atomic or read. */
  predicate HasRoom(s: Channel) { s.cfg.caps.atomic ==> s.numAtomRead < s.cfg.maxRdAtomic }

  predicate CanMove(w: Work, m: Move) {
    match m
    case Take =>
      && w.ch.deferred != [] && w.ch.free != [] && w.ch.free[0] < |w.ch.slots| && w.ch.deferred[0] in w.ch.comps
      && HasRoom(w.ch) && |w.out| < WR_PER_MSG
    case Post => w.out != [] && w.out[0] < |w.ch.slots|
    case Reject => w.out != [] && w.out[0] < |w.ch.slots|
    case Undo(from) => from <= |w.out| && InRange(w.out, |w.ch.slots|)
    case Retire => w.out != [] && w.out[0] < |w.ch.slots| && ReqAt(w.ch.slots[w.out[0]]) in w.ch.comps
  }

  /** A request the device refused leaves the channel: if it is the one being submitted its
      submission is not accepted, otherwise its callback is made with an error status. */
  function Settle(s: Channel, r: Req, own: set<Req>): Channel
    requires r in s.comps
  {
    if r in own then s.(accepted := s.accepted - multiset{r})
    else s.(called := s.called + multiset{r}, comps := s.comps[r := s.comps[r].(status := FailComp)])
  }

  /** `own` holds the request being submitted, if any. */
  function Moved(w: Work, m: Move, own: set<Req>): Work
    requires CanMove(w, m)
  {
    match m
    case Take => Work(TakeOne(w.ch), w.out + [w.ch.free[0]])
    case Post => Work(StartOne(w.ch, w.out[0]), w.out[1..])
    case Reject =>
      Work(w.ch.(slots := w.ch.slots[w.out[0] := w.ch.slots[w.out[0]].(state := Error)]), w.out)
    case Undo(from) => Work(GiveBack(w.ch, w.out[from..]), w.out[..from])
    case Retire =>
      Work(Settle(FreeOpr(w.ch, w.out[0], false), ReqAt(w.ch.slots[w.out[0]]), own), w.out[1..])
  }

  predicate CanMoveAll(w: Work, ms: seq<Move>, own: set<Req>)
    decreases |ms|
  {
    ms != [] ==> CanMove(w, ms[0]) && CanMoveAll(Moved(w, ms[0], own), ms[1..], own)
  }

  function MovedAll(w: Work, ms: seq<Move>, own: set<Req>): Work
    requires CanMoveAll(w, ms, own)
    decreases |ms|
  {
    if ms == [] then w else MovedAll(Moved(w, ms[0], own), ms[1..], own)
  }

  /** How a call of lock_prepare_and_send ends: everything chained was posted; the device's send
      queue was full; or it refused one work request for good, whose slot the caller retires. */
  datatype Ending = AllPosted | QueueFull | Refused

  datatype Sending = Sending(body: seq<Move>, ending: Ending) {
    predicate Ok() { forall j | 0 <= j < |body| :: body[j].Take? || body[j].Post? }

    function Tail(): seq<Move> {
      match ending
      case AllPosted => []
      case QueueFull => [Undo(0)]
      case Refused => [Reject, Undo(1), Retire]
    }

    function Moves(): seq<Move> { body + Tail() }
  }

  predicate CanSend(s: Channel, x: Sending, own: set<Req>) {
    x.Ok() && CanMoveAll(Work(s, []), x.Moves(), own) && MovedAll(Work(s, []), x.Moves(), own).out == []
  }

  /** The channel after lock_prepare_and_send and the clean-up of its bad slot. */
  function Sent(s: Channel, x: Sending, own: set<Req>): Channel
    requires CanSend(s, x, own)
  {
    MovedAll(Work(s, []), x.Moves(), own).ch
  }

  // ---------------------------------------------------------------- the other entry points

  /** Tail insert with the current time: a new submission or a resubmission. */
  function Append(s: Channel, r: Req, c: Comp): Channel {
    s.(comps := s.comps[r := c.(deferredAt := s.now)], deferred := s.deferred + [r], numDeferred := s.numDeferred + 1)
  }

  /** execute_opr up to its call of lock_prepare_and_send. The request keeps the memory of plain
      attempts that an earlier, aborted use may have left in it. */
  function Enqueue(s: Channel, r: Req, opr: Opr, compare: u32): Channel {
    var nmcs := if r in s.comps then s.comps[r].nmcs else FRESH;
    Append(s, r, Comp(opr, compare, nmcs, s.now, FailNoComp)).(accepted := s.accepted + multiset{r})
  }

  /** A work completion: slot index and version from the work-request id, status, and the value
      a swap or read returned. */
  datatype Wc = Wc(idx: nat, version: nat, ok: bool, val: Entry)

  predicate IgnoresWc(s: Channel, wc: Wc, dying: bool)
    requires wc.idx < |s.slots|
  {
    var x := s.slots[wc.idx];
    x.version != wc.version || x.comp.NoComp? || dying || x.aborted
  }

  /** The driver follows the slot's reference to its request, so a completion whose version matches must
      not name a retired slot. */
  predicate WcPossible(s: Channel, wc: Wc) {
    wc.idx < |s.slots| && (s.slots[wc.idx].version == wc.version ==> !s.slots[wc.idx].comp.Poison?)
  }

  predicate WantsRetry(x: Slot, c: Comp, wc: Wc) {
    wc.ok && x.opcode.OpCas? && ReadReply(false, c.compare, c.nmcs, wc.val).Retry?
  }

  /** The request after its last reply. */
  function Answered(x: Slot, c: Comp, wc: Wc): Comp {
    if !wc.ok then c.(status := FailComp)
    else match x.opcode
      case OpWrite => c.(status := StatusTaken)
      case OpRead => c.(nmcs := FRESH, status := if wc.val.id != NO_OWNER then StatusContended else StatusTaken)
      case _ => c.(nmcs := FRESH, status := if wc.val.id == c.compare then StatusTaken else StatusContended)
  }

  /** The status with which the completion's callback is made. */
  function Delivered(s: Channel, wc: Wc): Comp
    requires wc.idx < |s.slots| && ReqAt(s.slots[wc.idx]) in s.comps
    requires s.comps[ReqAt(s.slots[wc.idx])].nmcs.Ok()
  {
    var x := s.slots[wc.idx];
    var c := s.comps[ReqAt(x)];
    if WantsRetry(x, c, wc) then c.(nmcs := NmcsAfter(false, c.nmcs, wc.val)) else Answered(x, c, wc)
  }

  predicate Resubmits(s: Channel, wc: Wc)
    requires wc.idx < |s.slots| && ReqAt(s.slots[wc.idx]) in s.comps
  {
    WantsRetry(s.slots[wc.idx], s.comps[ReqAt(s.slots[wc.idx])], wc) && !s.paused
  }

  /** nvmeibc_disk_locks_on_completion before it looks at the deferred queue. */
  function Completed(s: Channel, wc: Wc): Channel
    requires wc.idx < |s.slots| && ReqAt(s.slots[wc.idx]) in s.comps
    requires s.comps[ReqAt(s.slots[wc.idx])].nmcs.Ok()
  {
    var r := ReqAt(s.slots[wc.idx]);
    var c := Delivered(s, wc);
    var t := FreeOpr(s, wc.idx, true);
    if Resubmits(s, wc) then Append(t, r, c)
    else t.(comps := t.comps[r := c], called := t.called + multiset{r})
  }

  /** A completion that ended in an error does not go on to serve the deferred queue. */
  predicate Erred(s: Channel, wc: Wc)
    requires wc.idx < |s.slots| && ReqAt(s.slots[wc.idx]) in s.comps
  {
    !wc.ok || (WantsRetry(s.slots[wc.idx], s.comps[ReqAt(s.slots[wc.idx])], wc) && s.paused)
  }

  predicate Expired(s: Channel, r: Req, at: nat)
    requires r in s.comps
  {
    at > s.comps[r].deferredAt + s.cfg.maxLockTime
  }

  /** drain_defered_queue: the first n requests leave the queue for the caller's list. */
  function Drained(s: Channel, n: nat): Channel
    requires n <= |s.deferred|
  {
    s.(deferred := s.deferred[n..], numDeferred := s.numDeferred - n, awaiting := s.awaiting + s.deferred[..n])
  }

  /** fail_deferred, call_comp_list_cb: the callback of one of the listed requests is made. Each
      caller goes through its own list in order; several callers may do so at once. */
  function CalledBack(s: Channel, k: nat): Channel
    requires k < |s.awaiting| && s.awaiting[k] in s.comps
  {
    var r := s.awaiting[k];
    s.(awaiting := s.awaiting[..k] + s.awaiting[k + 1..], comps := s.comps[r := s.comps[r].(status := FailComp)],
       called := s.called + multiset{r})
  }

  /** abort_in_progress_ops on the first in-progress operation. */
  function AbortedOne(s: Channel): Channel
    requires s.inProgress != [] && s.inProgress[0] < |s.slots| && ReqAt(s.slots[s.inProgress[0]]) in s.comps
  {
    var i := s.inProgress[0];
    var r := ReqAt(s.slots[i]);
    var t := FreeOpr(s.(slots := s.slots[i := s.slots[i].(aborted := true)]), i, true);
    t.(comps := t.comps[r := t.comps[r].(status := FailComp)], awaiting := t.awaiting + [r])
  }
}
