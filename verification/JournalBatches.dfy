/** Freeing journal entries in batches: one command is sent, and its completion sends the next
    batch through the same command until all entries are freed or a batch fails. */
module JournalBatches {

  /** A command as sent: `from` and `len` say which entries, `toma` whether they are passed on. */
  datatype Batch = Batch(from: nat, len: nat, toma: bool)

  function Min(a: nat, b: nat): nat { if a <= b then a else b }

  /** The batches that free the entries from `from` on, when the next one has length len. */
  function Plan(from: nat, len: nat, total: nat, toma: bool): (p: seq<Batch>)
    requires from + len <= total && (len > 0 || from == total)
    ensures |p| >= 1 && p[0].from == from && p[0].len == len
    decreases total - from
  {
    if from + len < total then
      [Batch(from, len, false)] + Plan(from + len, Min(len, total - (from + len)), total, toma)
    else [Batch(from, len, toma)]
  }

  /** Consecutive and disjoint, none longer than max, covering exactly [from, total); only the
      last is passed on. */
  ghost predicate Tiles(p: seq<Batch>, from: nat, total: nat, max: nat, toma: bool) {
    && |p| >= 1
    && p[0].from == from
    && (forall i | 0 <= i < |p| - 1 :: p[i + 1].from == p[i].from + p[i].len)
    && p[|p| - 1].from + p[|p| - 1].len == total
    && (forall i | 0 <= i < |p| :: p[i].len <= max)
    && (forall i | 0 <= i < |p| - 1 :: p[i].len > 0 && !p[i].toma)
    && p[|p| - 1].toma == toma
  }

  lemma TilesFront(b: Batch, q: seq<Batch>, total: nat, max: nat, toma: bool)
    requires Tiles(q, b.from + b.len, total, max, toma) && 0 < b.len <= max && !b.toma
    ensures Tiles([b] + q, b.from, total, max, toma)
  {
    var p := [b] + q;
    assert forall i | 0 < i < |p| :: p[i] == q[i - 1];
    forall i | 0 <= i < |p| - 1 ensures p[i + 1].from == p[i].from + p[i].len {
      if i > 0 { assert q[i - 1 + 1].from == q[i - 1].from + q[i - 1].len; }
    }
  }

  lemma {:induction false} PlanTiles(from: nat, len: nat, total: nat, max: nat, toma: bool)
    requires from + len <= total && (len > 0 || from == total) && len <= max
    ensures Tiles(Plan(from, len, total, toma), from, total, max, toma)
    decreases total - from
  {
    hide Tiles;
    if from + len < total {
      var len' := Min(len, total - (from + len));
      PlanTiles(from + len, len', total, max, toma);
      TilesFront(Batch(from, len, false), Plan(from + len, len', total, toma), total, max, toma);
    } else {
      TilesOne(from, len, max, toma);
    }
  }

  /** Every batch before the last is as long as it may be. */
  ghost predicate Full(p: seq<Batch>, max: nat) { forall i | 0 <= i < |p| - 1 :: p[i].len == max }

  lemma {:induction false} PlanIsFull(from: nat, len: nat, total: nat, toma: bool)
    requires from + len <= total && (len > 0 || from == total)
    ensures Full(Plan(from, len, total, toma), len)
    decreases total - from
  {
    if from + len < total {
      var q := Plan(from + len, Min(len, total - (from + len)), total, toma);
      PlanIsFull(from + len, Min(len, total - (from + len)), total, toma);
      if |q| > 1 { PlanGoesOn(from + len, Min(len, total - (from + len)), total, toma); }
      assert forall i | 0 < i < |[Batch(from, len, false)] + q| :: ([Batch(from, len, false)] + q)[i] == q[i - 1];
    }
  }

  /** A plan of more than one batch has more entries than its first batch. */
  lemma PlanGoesOn(from: nat, len: nat, total: nat, toma: bool)
    requires from + len <= total && (len > 0 || from == total) && |Plan(from, len, total, toma)| > 1
    ensures from + len < total
  {
  }

  lemma TilesOne(from: nat, len: nat, max: nat, toma: bool)
    requires len <= max
    ensures Tiles([Batch(from, len, toma)], from, from + len, max, toma)
  {
  }

  /** Every entry is in exactly one batch of a tiling. */
  lemma {:induction false} TilesCover(p: seq<Batch>, from: nat, total: nat, max: nat, toma: bool, e: nat) returns (k: nat)
    requires Tiles(p, from, total, max, toma) && from <= e < total
    ensures k < |p| && p[k].from <= e < p[k].from + p[k].len
    ensures forall i | 0 <= i < |p| && p[i].from <= e < p[i].from + p[i].len :: i == k
    ensures forall i | 0 <= i < |p| :: p[i].from >= from
    decreases |p|
  {
    hide Tiles;
    k := 0;
    if |p| > 1 {
      var q := p[1..];
      TilesTail(p, from, total, max, toma);
      TilesEnd(q, p[1].from, total, max, toma);
      if e >= p[1].from {
        var j := TilesCover(q, p[1].from, total, max, toma, e);
        k := j + 1;
      }
    } else {
      TilesAlone(p, from, total, max, toma);
    }
  }

  lemma TilesTail(p: seq<Batch>, from: nat, total: nat, max: nat, toma: bool)
    requires Tiles(p, from, total, max, toma) && |p| > 1
    ensures Tiles(p[1..], p[1].from, total, max, toma) && p[0].from == from && p[1].from == from + p[0].len
    ensures forall i | 1 <= i < |p| :: p[i] == p[1..][i - 1]
  {
    assert forall i | 0 <= i < |p[1..]| :: p[1..][i] == p[i + 1];
  }

  lemma TilesAlone(p: seq<Batch>, from: nat, total: nat, max: nat, toma: bool)
    requires Tiles(p, from, total, max, toma) && |p| <= 1
    ensures |p| == 1 && p[0].from == from && from + p[0].len == total
  {
  }

  lemma {:induction false} TilesEnd(p: seq<Batch>, from: nat, total: nat, max: nat, toma: bool)
    requires Tiles(p, from, total, max, toma)
    ensures from <= total && forall i | 0 <= i < |p| :: from <= p[i].from <= total
    decreases |p|
  {
    if |p| > 1 {
      var q := p[1..];
      assert forall i | 0 <= i < |q| :: q[i] == p[i + 1];
      assert Tiles(q, p[1].from, total, max, toma);
      TilesEnd(q, p[1].from, total, max, toma);
      forall i | 0 <= i < |p| ensures from <= p[i].from <= total {
        if i > 0 { assert p[i] == q[i - 1]; }
      }
    }
  }

  /** The progress of one freeing: struct free_jrnl_ents_info and the command's own parameters. */
  class FreeEnts {
    const want: bool          // the caller's pass2toma
    var total: nat
    var maxEnts: nat
    var startEnt: nat
    var ents: nat             // where the command's entries begin
    var numEnts: nat
    var toma: bool
    ghost var plan: seq<Batch>
    ghost var sent: seq<Batch>
    ghost var callbacks: seq<bool>    // true for TAKEN

    constructor (pass2toma: bool)
      ensures want == pass2toma && startEnt == 0 && ents == 0 && !toma && sent == [] && callbacks == []
    {
      want := pass2toma;
      total, maxEnts, startEnt, ents, numEnts, toma := 0, 0, 0, 0, 0, false;
      plan, sent, callbacks := [], [], [];
    }

    /** The command holds the next batch of the plan; every earlier one has been sent. */
    ghost predicate Next(k: nat)
      reads this
    {
      && k < |plan| && plan[k] == Batch(ents, numEnts, toma) && ents == startEnt
      && startEnt + numEnts <= total && (numEnts > 0 || startEnt == total)
      && plan[k..] == Plan(startEnt, numEnts, total, want)
      && (startEnt + numEnts < total ==> !toma)
      && callbacks == []
    }

    /** nvmeibc_disk_fill_free_jrnl_ents_info. `bufSize` is the encoding buffer, clamped to the
        disk's limit; entSize is the encoded size of one entry. */
    method Fill(num: nat, bufSize: nat, maxBb: nat, entSize: nat, local: bool) returns (rv: int)
      requires num < 0x1_0000_0000 && entSize > 0 && startEnt == 0 && ents == 0 && !toma && callbacks == [] && sent == []
      modifies this
      ensures rv == -22 <==> !local && (bufSize < entSize || maxBb < entSize)
      ensures (rv == 0 || rv == -22) && sent == [] && callbacks == []
      ensures rv == 0 ==> Next(0) && total == num && maxEnts >= 1
      ensures rv == 0 ==> Tiles(plan, 0, num, maxEnts, want) && Full(plan, maxEnts)
      ensures rv == 0 && !local ==> maxEnts == (if bufSize <= maxBb then bufSize else maxBb) / entSize
      ensures rv == 0 && local ==> plan == [Batch(0, num, want)]
    {
      hide Tiles;
      total := num;
      if !local {
        var size := if bufSize > maxBb then maxBb else bufSize;
        DivideBelow(size, entSize);
        maxEnts := size / entSize;
        if maxEnts == 0 {
          return -22;
        }
      } else {
        maxEnts := 0xFFFF_FFFF;
      }
      numEnts := Min(num, maxEnts);
      if numEnts == num {
        toma := want;
      }
      plan := Plan(0, numEnts, num, want);
      PlanTiles(0, numEnts, num, maxEnts, want);
      PlanIsFull(0, numEnts, num, want);
      if |plan| > 1 { PlanGoesOn(0, numEnts, num, want); }
      assert plan[0..] == plan;
      rv := 0;
    }

    /** The command is handed to the disk for the first time. */
    method First(rv: int)
      requires Next(0) && sent == []
      modifies `sent
      ensures if rv == 0 then Next(0) && sent == plan[..1] else sent == []
    {
      if rv == 0 {
        sent := [Batch(ents, numEnts, toma)];
      }
    }

    /** nvmeibc_disk_free_jrnl_ents_info_comp. `resend` is what sending the next batch returned,
        if it came to that. */
    method OnCompletion(compCode: int, resend: int, ghost k: nat) returns (finished: bool)
      requires Next(k) && sent == plan[..k + 1]
      modifies this
      ensures plan == old(plan) && total == old(total) && maxEnts == old(maxEnts)
      ensures !finished ==> Next(k + 1) && sent == plan[..k + 2] && startEnt > old(startEnt)
      ensures finished ==> sent == plan[..k + 1] && callbacks == [compCode == 0 && k + 1 == |plan|]
      ensures finished <==> compCode != 0 || k + 1 == |plan| || resend != 0
    {
      hide Plan;
      var code := compCode;
      PlanHead(startEnt, numEnts, total, want);
      TailOfTail(plan, k);
      if code == 0 && startEnt + numEnts < total {
        startEnt := startEnt + numEnts;
        ents := ents + numEnts;
        numEnts := Min(numEnts, total - startEnt);
        if startEnt + numEnts == total {
          toma := want;
        }
        code := resend;
        PlanHead(startEnt, numEnts, total, want);
        if code == 0 {
          sent := sent + [Batch(ents, numEnts, toma)];
          OneLonger(plan, k + 1);
          return false;
        }
      }
      callbacks := callbacks + [code == 0];
      finished := true;
    }

    /** A whole freeing, for every behaviour of the disk: submits(i) and completes(i) say whether
        batch i is accepted and succeeds. What is sent is the plan up to the first failure; the
        callback is made once, with TAKEN exactly when every batch of the plan succeeded. */
    method FreeAll(num: nat, bufSize: nat, maxBb: nat, entSize: nat, local: bool,
                   submits: nat -> bool, completes: nat -> bool) returns (rv: int)
      requires num < 0x1_0000_0000 && entSize > 0 && startEnt == 0 && ents == 0 && !toma && callbacks == [] && sent == []
      modifies this
      ensures rv != 0 ==> sent == [] && callbacks == []
      ensures rv == 0 <==> submits(0) && (local || (bufSize >= entSize && maxBb >= entSize))
      ensures rv == 0 ==> 1 <= |sent| <= |plan| && sent == plan[..|sent|] && Tiles(plan, 0, num, maxEnts, want) && Full(plan, maxEnts)
      ensures rv == 0 && !local ==> maxEnts == (if bufSize <= maxBb then bufSize else maxBb) / entSize
      ensures rv == 0 ==> |callbacks| == 1
                          && (callbacks[0] <==> forall i | 0 <= i < |plan| :: submits(i) && completes(i))
                          && (callbacks[0] ==> sent == plan)
      ensures rv == 0 ==> (forall i | 0 <= i < |sent| :: submits(i) && (i + 1 < |sent| ==> completes(i)))
                          && (|sent| < |plan| ==> !completes(|sent| - 1) || !submits(|sent|))
    {
      hide Tiles, Plan;
      rv := Fill(num, bufSize, maxBb, entSize, local);
      if rv != 0 {
        return;
      }
      First(if submits(0) then 0 else -1);
      if !submits(0) {
        return -1;
      }
      var k, finished := 0, false;
      ghost var max, p0 := maxEnts, plan;
      while !finished
        invariant k < |plan| && sent == plan[..k + 1] && total == num && plan == p0 && maxEnts == max
        invariant !finished ==> Next(k) && forall i | 0 <= i <= k :: submits(i) && (i < k ==> completes(i))
        invariant finished ==>
                    && callbacks == [completes(k) && k + 1 == |plan|]
                    && (forall i | 0 <= i <= k :: submits(i) && (i < k ==> completes(i)))
                    && (!completes(k) || k + 1 == |plan| || !submits(k + 1))
        decreases !finished, total - startEnt
      {
        finished := OnCompletion(if completes(k) then 0 else -1, if submits(k + 1) then 0 else -1, k);
        if !finished {
          k := k + 1;
        }
      }
    }
  }

  lemma OneLonger(l: seq<Batch>, k: nat)
    requires k < |l|
    ensures l[..k + 1] == l[..k] + [l[k]]
  {
  }

  lemma TailOfTail(l: seq<Batch>, k: nat)
    requires k < |l|
    ensures l[k..][0] == l[k] && l[k..][1..] == l[k + 1..] && |l[k..]| == |l| - k
    ensures k + 1 < |l| ==> l[k + 1..][0] == l[k + 1]
  {
  }

  lemma DivideBelow(a: nat, b: nat)
    requires b > 0
    ensures a / b == 0 <==> a < b
  {
  }

  lemma PlanHead(from: nat, len: nat, total: nat, toma: bool)
    requires from + len <= total && (len > 0 || from == total)
    ensures var p := Plan(from, len, total, toma);
            && p[0] == Batch(from, len, from + len == total && toma)
            && (|p| == 1 <==> from + len == total)
            && (from + len < total ==> p[1..] == Plan(from + len, Min(len, total - (from + len)), total, toma))
  {
  }
}
