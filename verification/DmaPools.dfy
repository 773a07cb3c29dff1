/** The per-CPU DMA pools as the driver keeps them: head, last and size words, links inside the
    blocks, and counters, changed in place. Every routine is proved to be one step of the machine
    in DmaMachine, so what is shown there of all runs holds of it. */
module DmaPools {
  import opened DmaMachine
  import opened DmaLinks

  const MAX_FREE_LIST_REQS: nat := 32
  const MAX_JIFFIES_FREE_LIST: nat := 5
  const MAX_FREE_REQS_PER_WORK: nat := 16

  /** A block on its way carries its home in its own words. */
  ghost predicate Labelled(info: map<int, Home>, s: State) {
    forall b | b in s.at && s.at[b].InTransit() && b in s.home :: b in info && info[b] == s.home[b]
  }

  lemma LabelledMoved(info: map<int, Home>, s: State, p: Place, q: Place)
    requires Inv(s) && Labelled(info, s) && p in s.lists && q in s.lists && p.InTransit() && q.InTransit()
    ensures Labelled(info, AllTo(s, p, q))
  {
    assert Holds(s.lists[p], s.at, p);
  }

  lemma LabelledHead(info: map<int, Home>, s: State, p: Place)
    requires Inv(s) && Labelled(info, s) && p in s.lists && p.InTransit() && s.lists[p] != []
    ensures s.lists[p][0] in info && info[s.lists[p][0]] == HomeOf(s, p, 0)
    ensures Labelled(info, ToPool(s, p))
  {
    assert Holds(s.lists[p], s.at, p);
  }

  /** What the kernel's own dma_pool of h has on its free list. */
  ghost predicate Stocked(pools: map<Home, seq<Block>>, s: State) {
    forall h: Home | h.cpu < s.n :: Pool(h) in s.lists && h in pools && pools[h] == s.lists[Pool(h)]
  }

  lemma StockedReturn(pools: map<Home, seq<Block>>, s: State, p: Place)
    requires Inv(s) && Stocked(pools, s) && p in s.lists && !p.Pool? && s.lists[p] != []
    ensures var h := HomeOf(s, p, 0);
            h in pools && Stocked(pools[h := [s.lists[p][0]] + pools[h]], ToPool(s, p))
  {
    hide Inv;
    AtOf(s, p, 0);
  }

  lemma HeadExists(k: Links, s: State, p: Place)
    requires Inv(s) && Tied(k, s) && p in s.lists && p.InTransit()
    ensures p in k.heads && (k.heads[p] == NULL <==> s.lists[p] == [])
  {
    assert ListOk(k, s, p);
  }

  lemma RefillLeavesWorker(s: State, c: nat)
    requires Inv(s) && c < s.n && Worker(c) in s.lists && s.lists[Worker(c)] == []
    ensures Worker(c) in Refilled(s, c).lists && Refilled(s, c).lists[Worker(c)] == []
  {
    hide Inv;
  }

  lemma ReturnedOne(s: State, p: Place, max: nat)
    requires Inv(s) && p in s.lists && p.InTransit() && s.lists[p] != [] && max > 0
    ensures p in ToPool(s, p).lists && Inv(ToPool(s, p)) && Returned(s, p, max) == Returned(ToPool(s, p), p, max - 1)
  {
    hide Inv;
    ToPoolKeepsInv(s, p);
  }

  lemma ReturnedNone(s: State, p: Place, max: nat)
    requires Inv(s) && p in s.lists && p.InTransit() && (s.lists[p] == [] || max == 0)
    ensures Returned(s, p, max) == s
  {
  }

  lemma StockOf(pools: map<Home, seq<Block>>, s: State, h: Home)
    requires Stocked(pools, s) && h.cpu < s.n
    ensures Pool(h) in s.lists && h in pools && pools[h] == s.lists[Pool(h)]
  {
  }

  lemma TiedSame(k: Links, s: State, s': State)
    requires Tied(k, s) && s'.lists.Keys == s.lists.Keys
    requires forall p | p in s.lists && p.InTransit() :: p in s'.lists && s'.lists[p] == s.lists[p]
    ensures Tied(k, s')
  {
    forall p | p in s'.lists && p.InTransit() ensures ListOk(k, s', p) {
      assert p in s.lists.Keys && ListOk(k, s, p);
    }
  }

  lemma TakenKeepsStock(pools: map<Home, seq<Block>>, s: State, h: Home)
    requires Inv(s) && Stocked(pools, s) && h.cpu < s.n && Pool(h) in s.lists && User in s.lists && s.lists[Pool(h)] != []
    ensures h in pools && Stocked(pools[h := s.lists[Pool(h)][1..]], Taken(s, h, 0))
  {
    hide Inv;
    assert s.lists[Pool(h)][..0] + s.lists[Pool(h)][1..] == s.lists[Pool(h)][1..];
  }

  /** Taking a block from its pool is nothing to the lists of blocks on their way. */
  lemma TakenKeepsRest(k: Links, info: map<int, Home>, pools: map<Home, seq<Block>>, s: State, h: Home)
    requires Inv(s) && Tied(k, s) && Labelled(info, s) && Stocked(pools, s)
    requires h.cpu < s.n && Pool(h) in s.lists && User in s.lists && s.lists[Pool(h)] != []
    ensures var t := Taken(s, h, 0);
            h in pools && Tied(k, t) && Labelled(info, t) && Stocked(pools[h := s.lists[Pool(h)][1..]], t)
            && t.inUse == s.inUse && t.at[s.lists[Pool(h)][0]] == User && LocalsKept(s, t)
            && s.lists[Pool(h)][0] in t.home && t.home[s.lists[Pool(h)][0]] == h
  {
    hide Inv, Tied, HomeOf, Stocked;
    var t := Taken(s, h, 0);
    assert HomeOf(s, Pool(h), 0) == h;
    AtOf(s, Pool(h), 0);
    assert t.lists.Keys == s.lists.Keys;
    TiedSame(k, s, t);
    TakenKeepsStock(pools, s, h);
  }

  lemma GrownKeepsRest(k: Links, info: map<int, Home>, pools: map<Home, seq<Block>>, s: State, h: Home, b: Block)
    requires Inv(s) && Tied(k, s) && Labelled(info, s) && Stocked(pools, s) && User in s.lists && b !in s.home
    ensures var t := Grown(s, h, b);
            Tied(k, t) && Labelled(info, t) && Stocked(pools, t) && t.inUse == s.inUse && t.at[b] == User && t.home[b] == h
            && LocalsKept(s, t)
  {
    hide Inv, Tied;
    var t := Grown(s, h, b);
    assert t.lists.Keys == s.lists.Keys;
    TiedSame(k, s, t);
  }

  /** Counting moves no block. */
  lemma CountingKeepsRest(k: Links, info: map<int, Home>, pools: map<Home, seq<Block>>, s: State, t: State)
    requires Tied(k, s) && Labelled(info, s) && Stocked(pools, s)
    requires t.n == s.n && t.home == s.home && t.lists == s.lists && t.at == s.at
    ensures Tied(k, t) && Labelled(info, t) && Stocked(pools, t) && LocalsKept(s, t)
  {
    hide Tied;
    TiedSame(k, s, t);
  }

  lemma HomeIsCounted(s: State, h: Home, up: bool)
    requires Inv(s) && h in (if up then s.allocating else s.freeing)
    ensures h in s.inUse
  {
    hide Placed, Counted, Accounts;
  }

  lemma RunOne(s: State, t: Step)
    requires Inv(s) && Allowed(s, t)
    ensures Legal(s, [t]) && Run(s, [t]) == Next(s, t)
  {
    hide Inv, Allowed, Next;
    NextKeepsInv(s, t);
    assert [t][1..] == [];
  }

  lemma RunThree(s: State, a: Step, b: Step, c: Step)
    requires Inv(s) && Allowed(s, a) && Inv(Next(s, a)) && Allowed(Next(s, a), b) && Inv(Next(Next(s, a), b))
    requires Allowed(Next(Next(s, a), b), c)
    ensures Legal(s, [a, b, c]) && Run(s, [a, b, c]) == Next(Next(Next(s, a), b), c)
  {
    hide Inv, Allowed, Next;
    RunOne(Next(Next(s, a), b), c);
    assert [a, b, c][1..] == [b, c] && [b, c][1..] == [c];
  }

  lemma RunFour(s: State, a: Step, b: Step, c: Step, d: Step)
    requires Inv(s) && Allowed(s, a) && Inv(Next(s, a)) && Allowed(Next(s, a), b) && Inv(Next(Next(s, a), b))
    requires Allowed(Next(Next(s, a), b), c) && Inv(Next(Next(Next(s, a), b), c))
    requires Allowed(Next(Next(Next(s, a), b), c), d)
    ensures Legal(s, [a, b, c, d]) && Run(s, [a, b, c, d]) == Next(Next(Next(Next(s, a), b), c), d)
  {
    hide Inv, Allowed, Next;
    RunThree(Next(s, a), b, c, d);
    assert [a, b, c, d][1..] == [b, c, d];
  }

  /** An update that nothing interrupts puts nothing off. */
  lemma CountedAtOnce(s: State, h: Home, up: bool)
    requires Inv(s) && h in (if up then s.allocating else s.freeing) && h in s.inUse && Inv(Loaded(s, h, up))
    ensures var t := Stored(Loaded(s, h, up), |s.midway|);
            && t.midway == s.midway && t.drift == s.drift && t.at == s.at && t.home == s.home
            && t.allocating == (if up then s.allocating - multiset{h} else s.allocating)
            && t.freeing == (if up then s.freeing else s.freeing - multiset{h})
            && t.inUse == s.inUse[h := s.inUse[h] + (if up then 1 else -1)]
  {
    hide Inv;
    var t := Stored(Loaded(s, h, up), |s.midway|);
    assert t.midway == s.midway;
    forall k: PoolType ensures t.drift.At(k) == s.drift.At(k) { }
    SameDrift(t.drift, s.drift);
  }

  lemma SameDrift(a: PerType, b: PerType)
    requires forall k: PoolType :: a.At(k) == b.At(k)
    ensures a == b
  {
    assert a.At(Prpl) == b.At(Prpl) && a.At(DummyMd) == b.At(DummyMd) && a.At(RdMd) == b.At(RdMd) && a.At(Data) == b.At(Data);
  }

  ghost predicate Timed(first: map<Place, int>, s: State) {
    forall p | p in s.lists && p.Local? :: p in first
  }

  lemma SpliceKeepsRest(info: map<int, Home>, pools: map<Home, seq<Block>>, first: map<Place, int>, s: State, p: Place, q: Place)
    requires Inv(s) && Labelled(info, s) && Stocked(pools, s) && Timed(first, s)
    requires p in s.lists && q in s.lists && p.InTransit() && q.InTransit()
    ensures var t := AllTo(s, p, q); Labelled(info, t) && Stocked(pools, t) && Timed(first, t) && t.inUse == s.inUse
  {
    hide Inv;
    LabelledMoved(info, s, p, q);
  }

  lemma TiedResets(k: Links, s: State, last: map<Place, int>, size: map<Place, int>)
    requires Tied(k, s)
    ensures Tied(Links(k.next, k.heads, last, size), s)
  {
    assert forall p | p in s.lists && p.InTransit() :: ListOk(k, s, p);
  }

  lemma LeaveKeepsRest(info: map<int, Home>, pools: map<Home, seq<Block>>, s: State, i: nat, p: Place)
    requires Inv(s) && Labelled(info, s) && Stocked(pools, s) && User in s.lists && i < |s.lists[User]|
    requires p in s.lists && p.Local? && s.lists[User][i] in info && info[s.lists[User][i]] == HomeOf(s, User, i)
    ensures Labelled(info, Leave(s, i, p)) && Stocked(pools, Leave(s, i, p))
    ensures Leave(s, i, p).lists.Keys == s.lists.Keys && Leave(s, i, p).inUse == s.inUse
  {
    hide Inv;
    assert Leave(s, i, p).lists.Keys == s.lists.Keys;
  }

  lemma TimedAt(first: map<Place, int>, s: State, p: Place, now: nat)
    requires Timed(first, s) && p in s.lists && p.Local?
    ensures p in first && Timed(first[p := now], s)
  {
  }

  lemma TimedKeys(first: map<Place, int>, s: State, t: State)
    requires Timed(first, s) && t.lists.Keys == s.lists.Keys
    ensures Timed(first, t)
  {
    assert forall p | p in t.lists :: p in s.lists.Keys;
  }

  lemma FreeHereKeepsRest(k: Links, info: map<int, Home>, pools: map<Home, seq<Block>>, s: State, i: nat, h: Home)
    requires Inv(s) && Tied(k, s) && Labelled(info, s) && Stocked(pools, s) && User in s.lists && i < |s.lists[User]|
    requires h == HomeOf(s, User, i) && Pool(h) in s.lists
    ensures var t := Leave(s, i, Pool(h));
            Tied(k, t) && Labelled(info, t) && h in pools && Stocked(pools[h := [s.lists[User][i]] + pools[h]], t)
            && LocalsKept(s, t)
  {
    hide Inv, Tied;
    var t := Leave(s, i, Pool(h));
    assert t.lists.Keys == s.lists.Keys;
    TiedSame(k, s, t);
  }

  lemma LabelUser(info: map<int, Home>, s: State, b: Block, h: Home)
    requires Labelled(info, s) && b in s.at && s.at[b] == User
    ensures Labelled(info[b := h], s)
  {
  }

  lemma PairExists(s: State, c: nat, d: nat)
    requires Inv(s) && c < s.n && d < s.n
    ensures Local(c, d) in s.lists && Shared(d) in s.lists
  {
  }

  lemma SizeOf(k: Links, s: State, p: Place)
    requires Tailed(k.last, k.size, s) && p in s.lists && p.Local?
    ensures p in k.size && k.size[p] == |s.lists[p]| && p in k.last
    ensures s.lists[p] != [] ==> k.last[p] == s.lists[p][|s.lists[p]| - 1]
    ensures s.lists[p] == [] <==> k.last[p] == NULL
  {
  }

  /** Handing a whole list over concerns nobody else. */
  lemma HandKeepsRest(info: map<int, Home>, pools: map<Home, seq<Block>>, first: map<Place, int>, s: State, p: Place, q: Place)
    requires Inv(s) && Labelled(info, s) && Stocked(pools, s) && Timed(first, s) && p in s.lists && q in s.lists
    requires p.InTransit() && q.InTransit() && !p.Local? && !q.Local?
    ensures var t := AllTo(s, p, q);
            Labelled(info, t) && Stocked(pools, t) && Timed(first, t) && t.inUse == s.inUse && LocalsKept(s, t)
  {
    hide Inv;
    assert AllTo(s, p, q).lists.Keys == s.lists.Keys;
    LabelledMoved(info, s, p, q);
  }

  lemma ToPoolKeepsRest(first: map<Place, int>, s: State, p: Place)
    requires Inv(s) && Timed(first, s) && p in s.lists && p.InTransit() && !p.Local? && s.lists[p] != []
    ensures LocalsKept(s, ToPool(s, p)) && Timed(first, ToPool(s, p)) && ToPool(s, p).inUse == s.inUse
  {
    hide Inv;
    AtOf(s, p, 0);
    assert ToPool(s, p).lists.Keys == s.lists.Keys;
  }

  ghost function IndexOf(s: State, b: Block): (i: nat)
    requires Inv(s) && b in s.at && s.at[b] == User
    ensures User in s.lists && i < |s.lists[User]| && s.lists[User][i] == b && HomeOf(s, User, i) == s.home[b]
  {
    assert Found(s.lists, s.at[b], b, s.home[b]);
    var i :| 0 <= i < |s.lists[User]| && s.lists[User][i] == b;
    i
  }

  lemma LeftUser(s: State, t: Step, i: nat)
    requires Inv(s) && Allowed(s, t) && User in s.lists && i < |s.lists[User]|
    requires (t.FreeHere? || t.FreeAway?) && t.i == i
    ensures var b := s.lists[User][i]; b in Next(s, t).at && Next(s, t).at[b] != User && Next(s, t).n == s.n
    ensures Next(s, t).allocating == s.allocating && SameCounters(s, Next(s, t))
    ensures Next(s, t).freeing == s.freeing + multiset{Home(t.c, HomeOf(s, User, i).kind)}
  {
    hide Inv;
  }

  lemma RunTwo(s: State, a: Step, b: Step)
    requires Inv(s) && Allowed(s, a) && Inv(Next(s, a)) && Allowed(Next(s, a), b)
    ensures Legal(s, [a, b]) && Run(s, [a, b]) == Next(Next(s, a), b)
  {
    hide Inv, Allowed, Next;
    RunOne(Next(s, a), b);
    assert [a, b][1..] == [b];
  }

  // ---------------------------------------------------------------- what a teardown touches

  predicate Stays(p: Place, c: nat) { !p.Pool? && p != Shared(c) && p != InProgress(c) && p != Worker(c) }

  /** Only the lists of CPU c, and pools, changed. */
  ghost predicate Elsewhere(s: State, t: State, c: nat) {
    && t.n == s.n && t.home == s.home && t.lists.Keys == s.lists.Keys
    && forall p | p in s.lists && Stays(p, c) :: p in t.lists && t.lists[p] == s.lists[p]
  }

  /** Only the worker list of CPU c, and pools, changed. */
  ghost predicate Freed(s: State, t: State, c: nat) {
    && t.n == s.n && t.home == s.home && t.lists.Keys == s.lists.Keys
    && forall p | p in s.lists && !p.Pool? && p != Worker(c) :: p in t.lists && t.lists[p] == s.lists[p]
  }

  ghost predicate Cleared(s: State, c: nat) {
    forall p | p in s.lists && (p == Shared(c) || p == InProgress(c) || p == Worker(c)) :: s.lists[p] == []
  }

  lemma FreedSame(s: State, c: nat)
    ensures Freed(s, s, c)
  {
  }

  lemma ElsewhereSame(s: State, c: nat)
    ensures Elsewhere(s, s, c)
  {
  }

  lemma ReturnFrees(s0: State, s: State, c: nat)
    requires Inv(s) && c < s.n && Freed(s0, s, c) && Worker(c) in s.lists && s.lists[Worker(c)] != [] && Allowed(s, Return(c))
    ensures Freed(s0, Next(s, Return(c)), c) && Next(s, Return(c)).n == s.n
    ensures Worker(c) in Next(s, Return(c)).lists && |Next(s, Return(c)).lists[Worker(c)]| < |s.lists[Worker(c)]|
  {
    hide Inv;
    AtOf(s, Worker(c), 0);
    var t := Next(s, Return(c));
    assert t.lists.Keys == s.lists.Keys;
    assert forall p | p in s0.lists :: p in s.lists.Keys;
  }

  lemma GrabElsewhere(s: State, c: nat)
    requires Inv(s) && c < s.n && Allowed(s, Grab(c)) && Worker(c) in s.lists
    ensures var t := Next(s, Grab(c)); t.n == s.n && Elsewhere(s, t, c) && InProgress(c) in t.lists && t.lists[InProgress(c)] == []
  {
    hide Inv;
    PlacesExist(s, c);
    var t := Next(s, Grab(c));
    assert t.lists.Keys == s.lists.Keys;
  }

  lemma FreedElsewhere(s0: State, s: State, t: State, c: nat)
    requires Elsewhere(s0, s, c) && Freed(s, t, c) && Shared(c) in s.lists && InProgress(c) in s.lists
    ensures Elsewhere(s0, t, c) && Shared(c) in t.lists && InProgress(c) in t.lists
    ensures t.lists[Shared(c)] == s.lists[Shared(c)] && t.lists[InProgress(c)] == s.lists[InProgress(c)]
  {
    assert forall p | p in s0.lists :: p in s.lists.Keys;
  }

  lemma MoreElsewhere(s0: State, s: State, c: nat)
    requires Inv(s) && c < s.n && Elsewhere(s0, s, c) && Allowed(s, More(c)) && Worker(c) in s.lists && Shared(c) in s.lists
    ensures var t := Next(s, More(c));
            && t.n == s.n && Elsewhere(s0, t, c) && Worker(c) in t.lists && Shared(c) in t.lists
            && t.lists[Worker(c)] == s.lists[Shared(c)] && t.lists[Shared(c)] == []
            && (InProgress(c) in s.lists ==> InProgress(c) in t.lists && t.lists[InProgress(c)] == s.lists[InProgress(c)])
  {
    hide Inv;
    var t := Next(s, More(c));
    assert t.lists.Keys == s.lists.Keys;
    assert forall p | p in s0.lists :: p in s.lists.Keys;
  }

  predicate Visited(p: Place, on: nat, target: nat)
    requires p.Local?
  {
    p.on < on || (p.on == on && p.target < target)
  }

  /** The local lists visited so far have been emptied into shared lists; nothing else changed. */
  ghost predicate Emptied(s0: State, s: State, on: nat, target: nat) {
    && s.n == s0.n && s.home == s0.home && s.lists.Keys == s0.lists.Keys
    && (forall p | p in s0.lists && p.Local? :: p in s.lists && s.lists[p] == if Visited(p, on, target) then [] else s0.lists[p])
    && (forall p | p in s0.lists && !p.Local? && !p.Shared? :: p in s.lists && s.lists[p] == s0.lists[p])
  }

  lemma EmptiedNext(s0: State, s: State, on: nat, target: nat)
    requires Emptied(s0, s, on, target) && Local(on, target) in s.lists && Shared(target) in s.lists
    ensures Local(on, target) in s0.lists && s.lists[Local(on, target)] == s0.lists[Local(on, target)]
    ensures Emptied(s0, AllTo(s, Local(on, target), Shared(target)), on, target + 1)
    ensures s.lists[Local(on, target)] == [] ==> Emptied(s0, s, on, target + 1)
  {
    assert Local(on, target) in s0.lists.Keys;
    assert AllTo(s, Local(on, target), Shared(target)).lists.Keys == s.lists.Keys;
  }

  lemma EmptiedStart(s: State)
    ensures Emptied(s, s, 0, 0)
  {
  }

  lemma EmptiedSize(s0: State, s: State, on: nat, target: nat)
    requires Emptied(s0, s, on, target)
    ensures s.n == s0.n
  {
  }

  lemma EmptiedRow(s0: State, s: State, on: nat)
    requires Inv(s) && Emptied(s0, s, on, s.n)
    ensures Emptied(s0, s, on + 1, 0)
  {
    hide Placed, Accounts, Counted;
    forall p | p in s0.lists && p.Local? ensures p in s.lists && s.lists[p] == if Visited(p, on + 1, 0) then [] else s0.lists[p] {
      assert p in s.lists && p.Ok(s.n);
    }
  }

  /** No local or worker list holds a block, nor any other list of a CPU below c. */
  ghost predicate Done(s: State, c: nat) {
    forall p | p in s.lists && (p.Local? || p.Worker? || (p.Shared? && p.cpu < c) || (p.InProgress? && p.cpu < c)) :: s.lists[p] == []
  }

  lemma EmptiedIsDone(s0: State, s: State)
    requires Inv(s) && Emptied(s0, s, s.n, 0) && forall c | 0 <= c < s.n :: Worker(c) in s0.lists && s0.lists[Worker(c)] == []
    ensures s.n == s0.n && Done(s, 0)
  {
    hide Placed, Accounts, Counted;
    forall p | p in s.lists && (p.Local? || p.Worker?) ensures s.lists[p] == [] {
      assert p.Ok(s.n) && p in s0.lists.Keys;
    }
  }

  lemma DoneNext(s: State, t: State, c: nat)
    requires Inv(t) && Done(s, c) && Elsewhere(s, t, c) && Cleared(t, c)
    ensures t.n == s.n && Done(t, c + 1)
    ensures forall b | b in t.at && b in t.home && t.home[b].cpu == c :: !t.at[b].InTransit()
  {
    hide Accounts, Counted;
    forall p | p in t.lists && (p.Local? || p.Worker? || (p.Shared? && p.cpu < c + 1) || (p.InProgress? && p.cpu < c + 1))
      ensures t.lists[p] == []
    {
      assert p in s.lists.Keys;
    }
    forall b | b in t.at && b in t.home && t.home[b].cpu == c ensures !t.at[b].InTransit() {
      assert Found(t.lists, t.at[b], b, t.home[b]);
    }
  }

  lemma DoneIsAll(s: State, k: Links)
    requires Inv(s) && Done(s, s.n) && Tied(k, s)
    ensures forall p | p in s.lists && p.InTransit() :: s.lists[p] == [] && p in k.heads && k.heads[p] == NULL
    ensures forall b | b in s.at :: b in s.home && (s.at[b] == User || s.at[b] == Pool(s.home[b])) && s.freed[b] == s.returned[b]
  {
    hide Counted;
    forall p | p in s.lists && p.InTransit() ensures s.lists[p] == [] && p in k.heads && k.heads[p] == NULL {
      assert p.Ok(s.n) && ListOk(k, s, p);
    }
    forall b | b in s.at ensures s.at[b] == User || s.at[b] == Pool(s.home[b]) {
      assert Found(s.lists, s.at[b], b, s.home[b]);
    }
  }

  function Kinds(): set<PoolType> { {Prpl, DummyMd, RdMd, Data} }

  lemma KindIsKnown(k: PoolType)
    ensures k in Kinds()
  {
    match k
    case Prpl =>
    case DummyMd =>
    case RdMd =>
    case Data =>
  }

  function Homes(n: nat): set<Home> {
    set c, k | 0 <= c < n && k in Kinds() :: Home(c, k)
  }

  function Places(n: nat): set<Place> {
    {User} + (set a, b | 0 <= a < n && 0 <= b < n :: Local(a, b)) + (set c | 0 <= c < n :: Shared(c))
    + (set c | 0 <= c < n :: InProgress(c)) + (set c | 0 <= c < n :: Worker(c)) + (set h | h in Homes(n) :: Pool(h))
  }

  lemma PlacesAreOk(n: nat)
    ensures forall h: Home :: h in Homes(n) <==> h.cpu < n
    ensures forall p: Place :: p in Places(n) <==> p.Ok(n)
  {
    forall h: Home ensures h in Homes(n) <==> h.cpu < n {
      KindIsKnown(h.kind);
      assert h == Home(h.cpu, h.kind);
    }
  }

  function EachPlace(n: nat, x: int): map<Place, int> { map p | p in Places(n) :: x }

  function NoLists(n: nat): map<Place, seq<Block>> { map p | p in Places(n) :: [] }

  function NoUses(n: nat): map<Home, int> { map h | h in Homes(n) :: 0 }

  function NoStock(n: nat): map<Home, seq<Block>> { map h | h in Homes(n) :: [] }

  ghost function Fresh(n: nat): State {
    State(n, map[], NoLists(n), map[], NoUses(n),
          multiset{}, multiset{}, [], NO_DRIFT, multiset{}, multiset{})
  }

  lemma FreshIsInit(n: nat)
    ensures Init(Fresh(n)) && Inv(Fresh(n))
  {
    hide Homes, Places;
    PlacesAreOk(n);
    InitSatisfiesInv(Fresh(n));
  }

  lemma FreshIsTied(n: nat, k: Links, pools: map<Home, seq<Block>>, first: map<Place, int>)
    requires k.heads == k.last == EachPlace(n, NULL) && k.size == EachPlace(n, 0) && first == EachPlace(n, 0)
    requires pools == NoStock(n)
    ensures Tied(k, Fresh(n)) && Tailed(k.last, k.size, Fresh(n)) && Stocked(pools, Fresh(n)) && Timed(first, Fresh(n))
  {
    hide Homes, Places;
    PlacesAreOk(n);
  }

  class PercpuPools {
    var next: map<int, int>
    var heads: map<Place, int>
    var last: map<Place, int>
    var size: map<Place, int>
    var jiffiesFirst: map<Place, int>
    var info: map<int, Home>              // dma_pool_cpu and pool_type in a block freed elsewhere
    var inUse: map<Home, int>
    var pools: map<Home, seq<Block>>
    var destroyed: nat                    // the pools of the CPUs below this are gone
    ghost var s: State

    ghost predicate Kept(head: map<Place, int>)
      reads this
    {
      && Inv(s) && Tied(Links(next, head, last, size), s) && Labelled(info, s) && Stocked(pools, s) && inUse == s.inUse
      && Timed(jiffiesFirst, s)
    }

    ghost predicate Valid()
      reads this
    {
      Kept(heads) && Tailed(last, size, s) && destroyed == 0
    }

    /** alloc_percpu_dma_pools: no block allocated yet, all lists empty. */
    constructor (n: nat)
      ensures Valid() && Init(s) && s.n == n
    {
      hide Inv, Init, Tied, Tailed, Stocked, Timed, EachPlace, NoLists, NoUses, NoStock;
      next, info, destroyed := map[], map[], 0;
      heads, last, size, jiffiesFirst := EachPlace(n, NULL), EachPlace(n, NULL), EachPlace(n, 0), EachPlace(n, 0);
      inUse, pools := NoUses(n), NoStock(n);
      s := Fresh(n);
      new;
      FreshIsInit(n);
      FreshIsTied(n, Links(next, heads, last, size), pools, jiffiesFirst);
    }

    method DmaPoolFree(b: Block, h: Home, ghost p: Place)
      requires Inv(s) && Stocked(pools, s) && p in s.lists && !p.Pool? && s.lists[p] != []
      requires b == s.lists[p][0] && h == HomeOf(s, p, 0) && destroyed <= h.cpu
      modifies `pools, `s
      ensures s == ToPool(old(s), p) && Stocked(pools, s)
    {
      hide Inv, Stocked, ToPool, HomeOf;
      StockedReturn(pools, s, p);
      pools := pools[h := [b] + pools[h]];
      s := ToPool(s, p);
    }

    /** If nothing is left in progress, take the shared list. */
    method Refill(c: nat)
      requires Kept(heads) && c < s.n
      modifies `heads, `s
      ensures Kept(heads) && s == Refilled(old(s), c) && LocalsKept(old(s), s)
    {
      hide Inv, Tied, Labelled, Stocked, Timed, AllTo;
      PlacesExist(s, c);
      ghost var k := Links(next, heads, last, size);
      HeadExists(k, s, InProgress(c));
      if heads[InProgress(c)] == NULL {
        HandKeepsTied(k, s, Shared(c), InProgress(c));
        HandKeepsRest(info, pools, jiffiesFirst, s, Shared(c), InProgress(c));
        heads := heads[InProgress(c) := heads[Shared(c)]][Shared(c) := NULL];
        s := Refilled(s, c);
      }
    }

    /** One turn of the freeing loop: the block at `node` goes back to the pool its words name. */
    method FreeNode(node: int, c: nat, ghost p: Place) returns (node': int)
      requires Kept(heads[p := node]) && p in s.lists && node != NULL && (p == InProgress(c) || p == Worker(c))
      requires destroyed <= c
      modifies `pools, `s
      ensures Kept(heads[p := node']) && old(s).lists[p] != [] && s == ToPool(old(s), p) && LocalsKept(old(s), s)
    {
      hide Inv, Tied, Labelled, Stocked, Timed, ToPool, LocalsKept;
      ghost var k := Links(next, heads[p := node], last, size);
      HeadExists(k, s, p);
      PopKeepsTied(k, s, p);
      LabelledHead(info, s, p);
      ToPoolKeepsInv(s, p);
      ToPoolKeepsRest(jiffiesFirst, s, p);
      assert info[node].cpu == c;
      node' := next[node];
      DmaPoolFree(node, Home(c, info[node].kind), p);
      assert heads[p := node'] == k.heads[p := node'];
    }

    /** The freeing loop, from the head of the in-progress list. */
    method FreeUpTo(c: nat, max: nat)
      requires Kept(heads) && c < s.n && InProgress(c) in s.lists && destroyed <= c
      modifies `heads, `pools, `s
      ensures Kept(heads) && s == Returned(old(s), InProgress(c), max) && LocalsKept(old(s), s)
    {
      hide Inv, Tied, Labelled, Stocked, ToPool, Returned;
      ghost var u := s;
      var p := InProgress(c);
      HeadExists(Links(next, heads, last, size), s, p);
      var node, nFreed := heads[p], 0;
      assert heads[p := node] == heads;
      while node != NULL && nFreed < max
        invariant nFreed <= max && p in s.lists && Kept(heads[p := node]) && LocalsKept(u, s)
        invariant Returned(s, p, max - nFreed) == Returned(u, p, max)
        decreases max - nFreed
      {
        ghost var t := s;
        node := FreeNode(node, c, p);
        ReturnedOne(t, p, max - nFreed);
        nFreed := nFreed + 1;
      }
      HeadExists(Links(next, heads[p := node], last, size), s, p);
      ReturnedNone(s, p, max - nFreed);
      heads := heads[p := node];
    }

    /** __free_llist_nodes with a bound: interrupts are off throughout. */
    method DrainBounded(c: nat)
      requires Valid() && c < s.n
      modifies `heads, `pools, `s
      ensures Valid() && Allowed(old(s), Drain(c, 16))
      ensures s == Next(old(s), Drain(c, 16))
    {
      hide Inv, Tied, Labelled, Stocked, Refilled, Returned;
      Refill(c);
      PlacesExist(s, c);
      FreeUpTo(c, MAX_FREE_REQS_PER_WORK);
      TailedSame(last, size, old(s), s);
    }

    /** The worker's first act: interrupts are off, so that no bounded drain sees the list twice. */
    method WorkerGrab(c: nat)
      requires Kept(heads) && c < s.n && s.lists[Worker(c)] == []
      modifies `heads, `s
      ensures Kept(heads) && LocalsKept(old(s), s) && Allowed(old(s), Grab(c)) && s == Next(old(s), Grab(c))
    {
      hide Inv, Tied, Labelled, Stocked, Timed, AllTo, Refilled;
      PlacesExist(s, c);
      NextKeepsInv(s, Grab(c));
      RefillLeavesWorker(s, c);
      Refill(c);
      HandOver(c, InProgress(c));
    }

    method HandOver(c: nat, p: Place)
      requires Kept(heads) && p in s.lists && Worker(c) in s.lists && s.lists[Worker(c)] == []
      requires (p == InProgress(c) || p == Shared(c)) && Inv(AllTo(s, p, Worker(c)))
      modifies `heads, `s
      ensures Kept(heads) && LocalsKept(old(s), s) && s == AllTo(old(s), p, Worker(c))
    {
      hide Inv, Tied, Labelled, Stocked, Timed, AllTo, LocalsKept;
      HandKeepsTied(Links(next, heads, last, size), s, p, Worker(c));
      HandKeepsRest(info, pools, jiffiesFirst, s, p, Worker(c));
      heads := heads[Worker(c) := heads[p]][p := NULL];
      s := AllTo(s, p, Worker(c));
    }

    method WorkerReturn(c: nat)
      requires Kept(heads) && c < s.n && s.lists[Worker(c)] != [] && destroyed <= c
      modifies `heads, `pools, `s
      ensures Kept(heads) && LocalsKept(old(s), s) && Allowed(old(s), Return(c)) && s == Next(old(s), Return(c))
    {
      hide Inv, Tied, Labelled, Stocked, ToPool;
      var p := Worker(c);
      PlacesExist(s, c);
      HeadExists(Links(next, heads, last, size), s, p);
      assert heads[p := heads[p]] == heads;
      var node := FreeNode(heads[p], c, p);
      heads := heads[p := node];
    }

    method WorkerMore(c: nat)
      requires Kept(heads) && c < s.n && s.lists[Worker(c)] == []
      modifies `heads, `s
      ensures Kept(heads) && LocalsKept(old(s), s) && Allowed(old(s), More(c)) && s == Next(old(s), More(c))
    {
      hide Inv, Tied, Labelled, Stocked, Timed, AllTo;
      PlacesExist(s, c);
      NextKeepsInv(s, More(c));
      HandOver(c, Shared(c));
    }

    /** dma_pool_alloc: a block of the pool, or the new block `page` if there is memory for one. */
    method PoolAlloc(c: nat, k: PoolType, page: int) returns (b: int, ghost t: Step)
      requires Valid() && c < s.n && -1 <= page && page !in s.home
      modifies `pools, `s
      ensures Valid() && -1 <= b
      ensures b == -1 ==> s == old(s)
      ensures b >= 0 ==> Allowed(old(s), t) && s == Next(old(s), t) && (t == Alloc(c, k, 0) || t == Grow(c, k, b))
      ensures b >= 0 ==> b in s.at && s.at[b] == User && b in s.home && s.home[b] == Home(c, k)
      ensures b >= 0 ==> s.allocating == old(s).allocating + multiset{Home(c, k)} && s.freeing == old(s).freeing
      ensures SameCounters(old(s), s)
    {
      hide Inv, Labelled, Tied, Stocked, LocalsKept, Tailed;
      var h := Home(c, k);
      t := Alloc(c, k, 0);
      b := -1;
      PlacesExist(s, c);
      StockOf(pools, s, h);
      ghost var links := Links(next, heads, last, size);
      if pools[h] != [] {
        b := pools[h][0];
        TakenKeepsInv(s, h, 0);
        TakenKeepsRest(links, info, pools, s, h);
        TailedSame(last, size, s, Taken(s, h, 0));
        pools := pools[h := pools[h][1..]];
        s := Taken(s, h, 0);
      } else if page != -1 {
        b := page;
        t := Grow(c, k, b);
        GrownKeepsInv(s, h, b);
        GrownKeepsRest(links, info, pools, s, h, b);
        TailedSame(last, size, s, Grown(s, h, b));
        s := Grown(s, h, b);
      }
    }

    /** The first half of in_use++ or in_use-- of the operation that waits for it on this CPU. */
    method LoadUse(h: Home, up: bool) returns (seen: int)
      requires Valid() && h in (if up then s.allocating else s.freeing)
      modifies `s
      ensures Valid() && s == Loaded(old(s), h, up) && h in inUse && seen == inUse[h]
    {
      hide Inv, Tied, Labelled, Stocked, Tailed, Timed, LocalsKept;
      HomeIsCounted(s, h, up);
      LoadedKeepsInv(s, h, up);
      CountingKeepsRest(Links(next, heads, last, size), info, pools, s, Loaded(s, h, up));
      TailedSame(last, size, s, Loaded(s, h, up));
      TimedKeys(jiffiesFirst, s, Loaded(s, h, up));
      seen := inUse[h];
      s := Loaded(s, h, up);
    }

    /** The second half: the j-th update under way is written back. */
    method StoreUse(h: Home, up: bool, seen: int, ghost j: nat)
      requires Valid() && j < |s.midway| && s.midway[j] == Mid(h, up, seen)
      modifies `inUse, `s
      ensures Valid() && s == Stored(old(s), j)
    {
      hide Inv, Tied, Labelled, Stocked, Tailed, Timed, LocalsKept;
      StoredKeepsInv(s, j);
      CountingKeepsRest(Links(next, heads, last, size), info, pools, s, Stored(s, j));
      TailedSame(last, size, s, Stored(s, j));
      TimedKeys(jiffiesFirst, s, Stored(s, j));
      inUse := inUse[h := if up then seen + 1 else seen - 1];
      s := Stored(s, j);
    }

    /** in_use++ or in_use--, with nothing in between. */
    method Count(h: Home, up: bool)
      requires Valid() && h in (if up then s.allocating else s.freeing)
      modifies `inUse, `s
      ensures Valid() && Allowed(old(s), Load(h.cpu, h.kind, up)) && Inv(Next(old(s), Load(h.cpu, h.kind, up)))
      ensures var n := |old(s).midway|;
              && Allowed(Next(old(s), Load(h.cpu, h.kind, up)), Store(n))
              && s == Next(Next(old(s), Load(h.cpu, h.kind, up)), Store(n))
      ensures s.at == old(s).at && s.home == old(s).home && s.midway == old(s).midway && s.drift == old(s).drift
      ensures s.allocating == (if up then old(s).allocating - multiset{h} else old(s).allocating)
      ensures s.freeing == (if up then old(s).freeing else old(s).freeing - multiset{h})
      ensures h in old(inUse) && inUse == old(inUse)[h := old(inUse)[h] + (if up then 1 else -1)]
    {
      hide Inv, Tied, Labelled, Stocked, Tailed, Timed;
      ghost var s0 := s;
      assert h == Home(h.cpu, h.kind);
      var seen := LoadUse(h, up);
      StoreUse(h, up, seen, |s0.midway|);
      CountedAtOnce(s0, h, up);
    }

    /** nvmeibc_percpu_dma_pool_alloc on CPU c. */
    method PercpuAlloc(c: nat, k: PoolType, page: int) returns (b: int, ghost ts: seq<Step>)
      requires Valid() && c < s.n && -1 <= page && page !in s.home
      modifies `heads, `pools, `inUse, `s
      ensures Valid() && -1 <= b && Legal(old(s), ts) && s == Run(old(s), ts)
      ensures b == -1 ==> ts == [Drain(c, 16)]
      ensures b >= 0 ==> |ts| == 4 && ts[0] == Drain(c, 16)
                         && (ts[1] == Alloc(c, k, 0) || ts[1] == Grow(c, k, b))
                         && ts[2] == Load(c, k, true) && ts[3] == Store(|old(s).midway|)
      ensures b >= 0 ==> b in s.at && s.at[b] == User && b in s.home && s.home[b] == Home(c, k)
      ensures s.allocating == old(s).allocating && s.freeing == old(s).freeing
      ensures s.midway == old(s).midway && s.drift == old(s).drift
    {
      hide Inv, Labelled, Tied, Stocked, Tailed, Timed, Legal, Run, Drained, Loaded, Stored, Taken, Grown;
      ghost var s0 := s;
      DrainBounded(c);
      ghost var s1 := s;
      ghost var t;
      b, t := PoolAlloc(c, k, page);
      ts := [Drain(c, MAX_FREE_REQS_PER_WORK)];
      RunOne(s0, ts[0]);
      if b >= 0 {
        ghost var s2 := s;
        NextKeepsInv(s1, t);
        Count(Home(c, k), true);
        assert (s0.allocating + multiset{Home(c, k)}) - multiset{Home(c, k)} == s0.allocating;
        RunFour(s0, ts[0], t, Load(c, k, true), Store(|s0.midway|));
        ts := [ts[0], t, Load(c, k, true), Store(|s0.midway|)];
      }
    }

    method PushLinks(p: Place, b: Block, jiffies: nat)
      requires p in heads && p in last && p in size
      modifies `next, `heads, `last, `size, `jiffiesFirst
      ensures Links(next, heads, last, size) == Push(old(Links(next, heads, last, size)), p, b)
      ensures jiffiesFirst == if old(last)[p] == NULL then old(jiffiesFirst)[p := jiffies] else old(jiffiesFirst)
    {
      if last[p] == NULL {
        last := last[p := b];
        jiffiesFirst := jiffiesFirst[p := jiffies];
      }
      next := next[b := heads[p]];
      heads := heads[p := b];
      size := size[p := size[p] + 1];
    }

    /** The block goes to the front of the local list for its home CPU. */
    method LocalPush(p: Place, b: Block, jiffies: nat, ghost i: nat)
      requires Valid() && User in s.lists && i < |s.lists[User]| && b == s.lists[User][i]
      requires p in s.lists && p.Local? && p.Fits(HomeOf(s, User, i)) && b in info && info[b] == HomeOf(s, User, i)
      modifies `next, `heads, `last, `size, `jiffiesFirst, `s
      ensures Valid() && s == Leave(old(s), i, p)
      ensures p in jiffiesFirst && jiffiesFirst[p] == if old(s).lists[p] == [] then jiffies else old(jiffiesFirst)[p]
    {
      hide Inv, Tied, Labelled, Stocked, HomeOf, Tailed, Leave, Timed, Push;
      ghost var k := Links(next, heads, last, size);
      SizeOf(k, s, p);
      TimedAt(jiffiesFirst, s, p, jiffies);
      PushKeepsTied(k, s, p, i);
      LeaveKeepsInv(s, i, p);
      LeaveKeepsRest(info, pools, s, i, p);
      PushLinks(p, b, jiffies);
      TimedKeys(jiffiesFirst, s, Leave(s, i, p));
      s := Leave(s, i, p);
    }

    /** llist_add_batch of the whole local list p: one link write in its last block. */
    method Splice(p: Place, q: Place)
      requires Kept(heads) && p in s.lists && q in s.lists && p.Local? && q == Shared(p.target) && s.lists[p] != []
      requires p in last && last[p] == s.lists[p][|s.lists[p]| - 1]
      modifies `next, `heads, `s
      ensures Kept(heads) && s == AllTo(old(s), p, q)
    {
      hide Inv, Tied, Labelled, Stocked, AllTo, Timed;
      ghost var k := Links(next, heads, last, size);
      SpliceKeepsRest(info, pools, jiffiesFirst, s, p, q);
      FlushKeepsTied(k, s, p, q);
      TransitKeepsInv(s, p, q);
      var node := heads[p];
      heads := heads[p := NULL];
      next := next[last[p] := heads[q]];
      heads := heads[q := node];
      TiedResets(Flush(k, p, q), AllTo(s, p, q), last, size);
      s := AllTo(s, p, q);
    }

    /** The whole local list goes to the shared list of its home CPU. */
    method LocalFlush(p: Place, q: Place)
      requires Valid() && p in s.lists && q in s.lists && p.Local? && q == Shared(p.target) && s.lists[p] != []
      modifies `next, `heads, `last, `size, `jiffiesFirst, `s
      ensures Valid() && s == AllTo(old(s), p, q)
    {
      hide Inv, Tied, Labelled, Stocked, AllTo, Tailed;
      SizeOf(Links(next, heads, last, size), s, p);
      FlushKeepsTailed(last, size, s, p, q);
      Splice(p, q);
      TiedResets(Links(next, heads, last, size), s, last[p := NULL], size[p := 0]);
      last, size, jiffiesFirst := last[p := NULL], size[p := 0], jiffiesFirst[p := 0];
    }

    /** __local_free_reqs_llist_add: interrupts are off throughout. The list is sent off once it
        is long enough or its first block has waited long enough. */
    method LocalAdd(c: nat, b: Block, jiffies: nat, ghost i: nat) returns (flush: bool)
      requires Valid() && c < s.n && User in s.lists && i < |s.lists[User]| && b == s.lists[User][i]
      requires b in info && info[b] == HomeOf(s, User, i) && info[b].cpu != c
      modifies `next, `heads, `last, `size, `jiffiesFirst, `s
      ensures Valid() && Allowed(old(s), FreeAway(c, i, flush)) && s == Next(old(s), FreeAway(c, i, flush))
      ensures var p := Local(c, info[b].cpu);
              && p in old(s).lists && (old(s).lists[p] != [] ==> p in old(jiffiesFirst))
              && (flush <==> || |old(s).lists[p]| + 1 >= 32
                             || (old(s).lists[p] != [] && jiffies - old(jiffiesFirst)[p] > 5))
    {
      hide Inv, Tied, Labelled, Stocked, Leave, AllTo, HomeOf;
      var p, q := Local(c, info[b].cpu), Shared(info[b].cpu);
      PairExists(s, c, info[b].cpu);
      LeaveKeepsInv(s, i, p);
      LocalPush(p, b, jiffies, i);
      PairExists(s, c, info[b].cpu);
      SizeOf(Links(next, heads, last, size), s, p);
      flush := size[p] >= MAX_FREE_LIST_REQS || jiffies - jiffiesFirst[p] > MAX_JIFFIES_FREE_LIST;
      if flush {
        LocalFlush(p, q);
      }
    }

    /** nvmeibc_percpu_dma_pool_free on CPU c of a block allocated on CPU `submit`. */
    method PercpuFree(c: nat, b: Block, k: PoolType, submit: nat, jiffies: nat) returns (ghost ts: seq<Step>)
      requires Valid() && c < s.n && b in s.at && s.at[b] == User && b in s.home && s.home[b] == Home(submit, k)
      modifies `next, `heads, `last, `size, `jiffiesFirst, `info, `pools, `inUse, `s
      ensures Valid() && Legal(old(s), ts) && s == Run(old(s), ts)
      ensures |ts| == 3 && ts[1] == Load(c, k, false) && ts[2] == Store(|old(s).midway|)
      ensures submit == c ==> ts[0].FreeHere?
      ensures submit != c ==> ts[0].FreeAway?
      ensures b in s.at && s.at[b] != User
      ensures s.allocating == old(s).allocating && s.freeing == old(s).freeing
      ensures s.midway == old(s).midway && s.drift == old(s).drift
    {
      hide Inv, Tied, Labelled, Stocked, Tailed, Timed, Legal, Run, SentAway, FreedHere, Loaded, Stored;
      ghost var s0 := s;
      ghost var t := GiveUp(c, b, k, submit, jiffies);
      Count(Home(c, k), false);
      assert (s0.freeing + multiset{Home(c, k)}) - multiset{Home(c, k)} == s0.freeing;
      RunThree(s0, t, Load(c, k, false), Store(|s0.midway|));
      ts := [t, Load(c, k, false), Store(|s0.midway|)];
    }

    /** The block leaves its user: to the pool on its home CPU, to the local list elsewhere. */
    method GiveUp(c: nat, b: Block, k: PoolType, submit: nat, jiffies: nat) returns (ghost t: Step)
      requires Valid() && c < s.n && b in s.at && s.at[b] == User && b in s.home && s.home[b] == Home(submit, k)
      modifies `next, `heads, `last, `size, `jiffiesFirst, `info, `pools, `s
      ensures Valid() && Allowed(old(s), t) && s == Next(old(s), t)
      ensures if submit == c then t.FreeHere? else t.FreeAway?
      ensures b in s.at && s.at[b] != User
      ensures s.allocating == old(s).allocating && s.freeing == old(s).freeing + multiset{Home(c, k)}
      ensures SameCounters(old(s), s)
    {
      hide Inv, Tied, Labelled, Stocked, Tailed, Timed, HomeOf, Leave, SentAway, FreedHere;
      ghost var i := IndexOf(s, b);
      ghost var s0 := s;
      if submit == c {
        t := FreeHere(c, i);
        PoolFreeHere(c, b, k, i);
      } else {
        info := info[b := Home(submit, k)];
        LabelUser(old(info), s, b, Home(submit, k));
        ghost var flush := LocalAdd(c, b, jiffies, i);
        t := FreeAway(c, i, flush);
      }
      LeftUser(s0, t, i);
    }

    method PoolFreeHere(c: nat, b: Block, k: PoolType, ghost i: nat)
      requires Valid() && User in s.lists && i < |s.lists[User]| && b == s.lists[User][i] && HomeOf(s, User, i) == Home(c, k)
      modifies `pools, `s
      ensures Valid() && Allowed(old(s), FreeHere(c, i)) && s == Next(old(s), FreeHere(c, i))
    {
      hide Inv, Tied, Labelled, Stocked, HomeOf;
      var h := Home(c, k);
      AtOf(s, User, i);
      LeaveKeepsInv(s, i, Pool(h));
      FreeHereKeepsRest(Links(next, heads, last, size), info, pools, s, i, h);
      TailedSame(last, size, s, Leave(s, i, Pool(h)));
      pools := pools[h := [b] + pools[h]];
      s := Leave(s, i, Pool(h));
    }

    // -------------------------------------------------------------- teardown

    /** The unbounded __free_llist_nodes with nothing running beside it. */
    method FreeAllNodes(c: nat)
      requires Kept(heads) && c < s.n && s.lists[Worker(c)] == [] && destroyed <= c
      modifies `heads, `pools, `s
      ensures Kept(heads) && Elsewhere(old(s), s, c) && Cleared(s, c)
    {
      hide Inv, Tied, Labelled, Stocked, Timed, ToPool, AllTo, Next, Elsewhere, Freed, LocalsKept;
      ghost var s0 := s;
      PlacesExist(s, c);
      ElsewhereSame(s, c);
      WorkerGrab(c);
      GrabElsewhere(s0, c);
      PlacesExist(s, c);
      var more := true;
      while more
        invariant Kept(heads) && c < s.n && Elsewhere(s0, s, c) && Worker(c) in s.lists && Shared(c) in s.lists
        invariant InProgress(c) in s.lists && s.lists[InProgress(c)] == []
        invariant !more ==> s.lists[Worker(c)] == [] && s.lists[Shared(c)] == []
        decreases more, |s.lists[Shared(c)]|
      {
        ghost var before := s;
        EmptyWorker(c);
        FreedElsewhere(s0, before, s, c);
        ghost var s1 := s;
        WorkerMore(c);
        MoreElsewhere(s0, s1, c);
        PlacesExist(s, c);
        HeadExists(Links(next, heads, last, size), s, Worker(c));
        more := heads[Worker(c)] != NULL;
      }
    }

    /** The freeing loop of the unbounded drain. */
    method EmptyWorker(c: nat)
      requires Kept(heads) && c < s.n && Worker(c) in s.lists && destroyed <= c
      modifies `heads, `pools, `s
      ensures Kept(heads) && c < s.n && Worker(c) in s.lists && s.lists[Worker(c)] == []
      ensures Freed(old(s), s, c)
    {
      hide Inv, Tied, Labelled, Stocked, Timed, ToPool, Next, Freed;
      ghost var s0 := s;
      FreedSame(s, c);
      HeadExists(Links(next, heads, last, size), s, Worker(c));
      while heads[Worker(c)] != NULL
        invariant Kept(heads) && c < s.n && Worker(c) in s.lists && Worker(c) in heads && Freed(s0, s, c)
        invariant heads[Worker(c)] == NULL <==> s.lists[Worker(c)] == []
        decreases |s.lists[Worker(c)]|
      {
        ghost var t := s;
        WorkerReturn(c);
        ReturnFrees(s0, t, c);
        PlacesExist(s, c);
        HeadExists(Links(next, heads, last, size), s, Worker(c));
      }
    }

    /** __empty_target_local_llist; `last` and `size` are left as they are. */
    method EmptyTargetLocal(on: nat, target: nat, ghost s0: State)
      requires Kept(heads) && Tailed(last, size, s0) && Emptied(s0, s, on, target)
      requires on < s.n && target < s.n
      modifies `next, `heads, `s
      ensures Kept(heads) && Emptied(s0, s, on, target + 1)
    {
      hide Inv, Tied, Labelled, Stocked, Timed, AllTo, Emptied, Tailed;
      var p, q := Local(on, target), Shared(target);
      PairExists(s, on, target);
      EmptiedNext(s0, s, on, target);
      SizeOf(Links(next, heads, last, size), s0, p);
      HeadExists(Links(next, heads, last, size), s, p);
      if heads[p] != NULL {
        Splice(p, q);
      }
    }

    method EmptyLocals(n: nat)
      requires Valid() && n == s.n
      modifies `next, `heads, `s
      ensures Kept(heads) && Emptied(old(s), s, n, 0)
    {
      hide Inv, Tied, Labelled, Stocked, Timed, Emptied, Tailed;
      ghost var s0 := s;
      EmptiedStart(s);
      for on := 0 to n
        invariant Kept(heads) && s.n == n && Emptied(s0, s, on, 0)
      {
        for target := 0 to n
          invariant Kept(heads) && s.n == n && Emptied(s0, s, on, target)
        {
          EmptyTargetLocal(on, target, s0);
          EmptiedSize(s0, s, on, target + 1);
        }
        EmptiedRow(s0, s, on);
      }
    }

    /** dma_pool_destroy of the pools of CPU c: none of their blocks may still be on its way. */
    method DestroyPools(c: nat)
      requires destroyed == c && forall b | b in s.at && b in s.home && s.home[b].cpu == c :: !s.at[b].InTransit()
      modifies `destroyed
      ensures destroyed == c + 1
    {
      destroyed := c + 1;
    }

    /** free_percpu_pools, with I/O stopped and the workers cancelled: every listed block is back
        in its pool before that pool is destroyed, and all lists are empty. */
    method FreePercpuPools(n: nat)
      requires Valid() && n == s.n && forall c | 0 <= c < n :: Worker(c) in s.lists && s.lists[Worker(c)] == []
      modifies `next, `heads, `pools, `destroyed, `s
      ensures Inv(s) && destroyed == n
      ensures forall p | p in s.lists && p.InTransit() :: s.lists[p] == [] && p in heads && heads[p] == NULL
      ensures forall b | b in s.at :: s.at[b] == User || s.at[b] == Pool(s.home[b])
      ensures forall b | b in s.at :: s.freed[b] == s.returned[b]
    {
      hide Inv, Tied, Labelled, Stocked, Timed, Emptied, Tailed, Elsewhere;
      ghost var s0 := s;
      EmptyLocals(n);
      EmptiedSize(s0, s, n, 0);
      EmptiedIsDone(s0, s);
      for c := 0 to n
        invariant Kept(heads) && s.n == n && destroyed == c && Done(s, c)
      {
        PlacesExist(s, c);
        ghost var t := s;
        FreeAllNodes(c);
        DoneNext(t, s, c);
        DestroyPools(c);
      }
      DoneIsAll(s, Links(next, heads, last, size));
    }
  }
}
