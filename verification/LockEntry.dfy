/** The 8-byte lock entry of one blockset, the compare-and-swap work requests the
    client builds against it, and the client's reading of the reply. */
module LockEntry {

  type u32 = x: int | 0 <= x < 0x1_0000_0000

  /** The two 32-bit halves of the shared entry. */
  datatype Entry = Entry(id: u32, bi: u32)

  const NO_OWNER: u32 := 0

  /** How many times a plain compare-and-swap is resubmitted with a fresher blkset-info. */
  const NMCS_BI_MAX_ATTEMPTS: nat := 8

  /** The request's memory of its earlier plain attempts. */
  datatype Nmcs = Nmcs(attempts: nat, last: u32) {
    predicate Ok() {
      && attempts <= NMCS_BI_MAX_ATTEMPTS
      && (attempts == 0 ==> last == 0)
    }
  }

  const FRESH: Nmcs := Nmcs(0, 0)

  /** A 64-bit mask whose halves are each all ones (true) or all zeros (false). */
  datatype Mask = Mask(id: bool, bi: bool)

  datatype WorkRequest =
    | CmpSwap(compare: Entry, swap: Entry)
    | MaskedCmpSwap(compare: Entry, swap: Entry, compareMask: Mask, swapMask: Mask)

  /** The atomic capabilities a channel negotiated. */
  datatype Caps = Caps(atomic: bool, maskedAtomic: bool) {
    predicate UsesMask() { maskedAtomic || !atomic }
  }

  /** Builds the work request for "swap only the id": the masks select the id half; without
      masks the blkset-info of the last reply is put on both sides. */
  function PrepareCas(caps: Caps, compare: u32, exchange: u32, nmcs: Nmcs): (wr: WorkRequest)
  {
    if caps.UsesMask() then
      MaskedCmpSwap(Entry(compare, 0), Entry(exchange, 0), Mask(true, false), Mask(true, false))
    else if nmcs.attempts != 0 then
      CmpSwap(Entry(compare, nmcs.last), Entry(exchange, nmcs.last))
    else
      CmpSwap(Entry(compare, 0), Entry(exchange, 0))
  }

  /** What the responder's memory holds after the work request took effect; the reply is `mem`. */
  function Effect(wr: WorkRequest, mem: Entry): (after: Entry)
    ensures wr.MaskedCmpSwap? && wr.compareMask == wr.swapMask == Mask(true, true) ==>
              after == if mem == wr.compare then wr.swap else mem
  {
    match wr
    case CmpSwap(compare, swap) => if mem == compare then swap else mem
    case MaskedCmpSwap(compare, swap, cm, sm) =>
      if (cm.id ==> mem.id == compare.id) && (cm.bi ==> mem.bi == compare.bi) then
        Entry(if sm.id then swap.id else mem.id, if sm.bi then swap.bi else mem.bi)
      else mem
  }

  /** The logical operation: exchange the id if it equals `compare`, whatever the blkset-info is. */
  function SwapId(mem: Entry, compare: u32, exchange: u32): Entry {
    if mem.id == compare then mem.(id := exchange) else mem
  }

  /** One work request performs the logical operation exactly when it is masked or the entry
      still carries the blkset-info remembered from the last reply; otherwise it is a no-op. */
  lemma EffectIsSwapId(caps: Caps, compare: u32, exchange: u32, nmcs: Nmcs, mem: Entry)
    requires nmcs.Ok()
    ensures var after := Effect(PrepareCas(caps, compare, exchange, nmcs), mem);
            && after.bi == mem.bi
            && after == (if caps.UsesMask() || mem.bi == nmcs.last
                         then SwapId(mem, compare, exchange) else mem)
  {
  }

  datatype Verdict = Retry | Taken | Contended

  /** The client's reading of a successful reply carrying the entry's previous value. */
  function ReadReply(masked: bool, compare: u32, nmcs: Nmcs, old_: Entry): (v: Verdict)
  {
    if !masked && nmcs.attempts < NMCS_BI_MAX_ATTEMPTS && old_.bi != nmcs.last then Retry
    else if old_.id == compare then Taken
    else Contended
  }

  /** The request's memory after that reply. */
  function NmcsAfter(masked: bool, nmcs: Nmcs, old_: Entry): (n: Nmcs)
    requires nmcs.Ok()
    ensures n.Ok()
    ensures ReadReply(masked, 0, nmcs, old_).Retry? ==> n.attempts == nmcs.attempts + 1 && n.last == old_.bi
    ensures !ReadReply(masked, 0, nmcs, old_).Retry? ==> n == FRESH
  {
    if ReadReply(masked, 0, nmcs, old_).Retry? then Nmcs(nmcs.attempts + 1, old_.bi)
    else if nmcs.attempts != 0 then FRESH
    else nmcs
  }

  /** The reply a client misreads: its budget is spent, the blkset-info moved again, so nothing
      was swapped, and yet the id it compares against is the one it asked for. */
  predicate Misread(masked: bool, compare: u32, nmcs: Nmcs, old_: Entry) {
    && !masked
    && nmcs.attempts == NMCS_BI_MAX_ATTEMPTS
    && old_.bi != nmcs.last
    && old_.id == compare
  }

  /** TAKEN is reported for exactly the replies whose work request swapped the id, unless the
      reply is a misread one; a resubmitted attempt never changed the entry. */
  lemma VerdictTellsEffect(caps: Caps, compare: u32, exchange: u32, nmcs: Nmcs, mem: Entry)
    requires nmcs.Ok() && compare != exchange
    ensures var v := ReadReply(caps.UsesMask(), compare, nmcs, mem);
            var after := Effect(PrepareCas(caps, compare, exchange, nmcs), mem);
            && (v.Retry? ==> after == mem)
            && ((v.Taken? <==> after != mem) <==> !Misread(caps.UsesMask(), compare, nmcs, mem))
            && (after == (if v.Retry? then mem else SwapId(mem, compare, exchange))
                <==> !Misread(caps.UsesMask(), compare, nmcs, mem))
  {
    EffectIsSwapId(caps, compare, exchange, nmcs, mem);
  }
}
