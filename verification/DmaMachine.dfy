/** Where the DMA blocks of a local disk are. Blocks freed on another CPU than they were
    allocated on travel through a per-CPU-pair list and the shared list of their home CPU back
    to their home pool; a bounded drain may interrupt an unbounded one at any point. Every step
    of that traffic moves blocks from one place to another. */
module DmaMachine {
  type Block = nat

  datatype PoolType = Prpl | DummyMd | RdMd | Data

  /** The pool a block was allocated from. */
  datatype Home = Home(cpu: nat, kind: PoolType)

  datatype Place =
    | User
    | Local(on: nat, target: nat)   // freed on CPU `on`, waiting to be sent to its home CPU
    | Shared(cpu: nat)              // reqs_free_list
    | InProgress(cpu: nat)          // reqs_free_list_in_progress
    | Worker(cpu: nat)              // the unbounded drain's own list
    | Pool(home: Home)
  {
    predicate Ok(n: nat) {
      match this
      case User => true
      case Local(on, target) => on < n && target < n
      case Shared(c) => c < n
      case InProgress(c) => c < n
      case Worker(c) => c < n
      case Pool(h) => h.cpu < n
    }

    predicate InTransit() { !User? && !Pool? }

    /** The blocks that may be here. */
    predicate Fits(h: Home) {
      match this
      case User => true
      case Local(on, target) => h.cpu == target && on != target
      case Shared(c) => h.cpu == c
      case InProgress(c) => h.cpu == c
      case Worker(c) => h.cpu == c
      case Pool(p) => h == p
    }
  }

  /** An update of a counter that has read it but not written it back. */
  datatype Mid = Mid(h: Home, up: bool, seen: int) {
    function Delta(): int { if up then 1 else -1 }
  }

  /** One number for each pool type. */
  datatype PerType = PerType(prpl: int, dummyMd: int, rdMd: int, data: int) {
    function At(k: PoolType): int {
      match k
      case Prpl => prpl
      case DummyMd => dummyMd
      case RdMd => rdMd
      case Data => data
    }

    function Plus(k: PoolType, d: int): (r: PerType)
      ensures forall j: PoolType :: r.At(j) == At(j) + (if j == k then d else 0)
    {
      match k
      case Prpl => this.(prpl := prpl + d)
      case DummyMd => this.(dummyMd := dummyMd + d)
      case RdMd => this.(rdMd := rdMd + d)
      case Data => this.(data := data + d)
    }
  }

  const NO_DRIFT: PerType := PerType(0, 0, 0, 0)

  /** `allocating` and `freeing` hold, by CPU and pool type, the operations that have moved their
      block but not yet touched that CPU's counter, and `midway` those that have read it. `drift`
      says how far updates that were interrupted by others have put the counters of a type off.
      `freed` and `returned` count, per block, the frees by users and the returns to its pool. */
  datatype State = State(
    n: nat,
    home: map<Block, Home>,
    lists: map<Place, seq<Block>>,
    at: map<Block, Place>,
    inUse: map<Home, int>,
    allocating: multiset<Home>,
    freeing: multiset<Home>,
    midway: seq<Mid>,
    drift: PerType,
    freed: multiset<Block>,
    returned: multiset<Block>)

  // ---------------------------------------------------------------- invariant

  predicate Distinct(l: seq<Block>) { forall i, j | 0 <= i < j < |l| :: l[i] != l[j] }

  ghost predicate Shape(s: State) {
    && (forall p: Place :: p in s.lists <==> p.Ok(s.n))
    && s.at.Keys == s.home.Keys
    && (forall b | b in s.home :: s.home[b].cpu < s.n)
    && (forall h: Home :: h in s.inUse <==> h.cpu < s.n)
    && Within(s.allocating, s.n) && Within(s.freeing, s.n) && MidWithin(s.midway, s.n)
  }

  ghost predicate MidWithin(l: seq<Mid>, n: nat) { forall j | 0 <= j < |l| :: l[j].h.cpu < n }

  ghost predicate Within(m: multiset<Home>, n: nat) { forall h | h in m :: h.cpu < n }

  /** The blocks of l are at p, each once. */
  predicate Holds(l: seq<Block>, at: map<Block, Place>, p: Place) {
    Distinct(l) && forall i | 0 <= i < |l| :: l[i] in at && at[l[i]] == p
  }

  /** The block b is in the list of a place where it may be. */
  ghost predicate Found(lists: map<Place, seq<Block>>, p: Place, b: Block, h: Home) {
    p in lists && b in lists[p] && p.Fits(h)
  }

  /** Every block is in exactly the list `at` says, and there once. */
  ghost predicate Placed(s: State)
    requires Shape(s)
  {
    && (forall p | p in s.lists :: Holds(s.lists[p], s.at, p))
    && (forall b | b in s.at :: Found(s.lists, s.at[b], b, s.home[b]))
  }

  /** Every free by a user has been answered by one return to the pool, or the block is on its way. */
  ghost predicate Accounts(s: State)
    requires Shape(s)
  {
    && (forall b | b in s.at :: s.freed[b] == s.returned[b] + (if s.at[b].InTransit() then 1 else 0))
    && (forall b | b !in s.at :: s.freed[b] == 0 && s.returned[b] == 0)
  }

  function Count(l: seq<Block>, home: map<Block, Home>, k: PoolType): nat {
    if l == [] then 0
    else Count(l[1..], home, k) + (if l[0] in home && home[l[0]].kind == k then 1 else 0)
  }

  function SumUse(inUse: map<Home, int>, k: PoolType, n: nat): int {
    if n == 0 then 0
    else SumUse(inUse, k, n - 1) + (if Home(n - 1, k) in inUse then inUse[Home(n - 1, k)] else 0)
  }

  /** How many of the operations m are of kind k. */
  ghost function Underway(m: multiset<Home>, k: PoolType, n: nat): nat {
    if n == 0 then 0 else Underway(m, k, n - 1) + m[Home(n - 1, k)]
  }

  function Signed(m: Mid, k: PoolType): int { if m.h.kind == k then m.Delta() else 0 }

  /** The updates of kind k that were begun and not finished, increments less decrements. */
  function Begun(l: seq<Mid>, k: PoolType): int {
    if l == [] then 0 else Begun(l[1..], k) + Signed(l[0], k)
  }

  /** Allocations less frees of kind k that are not counted yet. */
  ghost function Uncounted(s: State, k: PoolType): int {
    Underway(s.allocating, k, s.n) - Underway(s.freeing, k, s.n) + Begun(s.midway, k)
  }

  /** The in_use counters of all CPUs add up to the blocks users hold, save for operations that
      have moved their block and not counted it, and for the drift. */
  ghost predicate Counted(s: State)
    requires Shape(s)
  {
    forall k: PoolType :: SumUse(s.inUse, k, s.n) + Uncounted(s, k) == Count(s.lists[User], s.home, k) + s.drift.At(k)
  }

  ghost predicate Inv(s: State) { Shape(s) && Placed(s) && Accounts(s) && Counted(s) }

  // ---------------------------------------------------------------- moving blocks

  /** The i-th block of p goes to the front of q. */
  function One(s: State, p: Place, i: nat, q: Place): State
    requires p in s.lists && q in s.lists && i < |s.lists[p]|
  {
    var b := s.lists[p][i];
    s.(lists := s.lists[p := s.lists[p][..i] + s.lists[p][i + 1..]][q := [b] + s.lists[q]], at := s.at[b := q])
  }

  /** All of p goes, in order, to the front of q. */
  function AllTo(s: State, p: Place, q: Place): State
    requires p in s.lists && q in s.lists
  {
    s.(lists := s.lists[p := []][q := s.lists[p] + s.lists[q]],
       at := map b | b in s.at :: if b in s.lists[p] then q else s.at[b])
  }

  lemma CutDistinct(l: seq<Block>, i: nat)
    requires Distinct(l) && i < |l|
    ensures var m := l[..i] + l[i + 1..];
            Distinct(m) && l[i] !in m && forall b | b in l && b != l[i] :: b in m
  {
    var m := l[..i] + l[i + 1..];
    assert forall j | 0 <= j < |m| :: m[j] == l[if j < i then j else j + 1];
    forall b | b in l && b != l[i] ensures b in m {
      var j :| 0 <= j < |l| && l[j] == b;
      assert m[if j < i then j else j - 1] == b;
    }
  }

  /** Blocks elsewhere may change places without a list noticing. */
  lemma HoldsElsewhere(l: seq<Block>, at: map<Block, Place>, at': map<Block, Place>, p: Place)
    requires Holds(l, at, p) && forall b | b in at && at[b] == p :: b in at' && at'[b] == p
    ensures Holds(l, at', p)
  {
  }

  lemma HoldsJoined(a: seq<Block>, b: seq<Block>, at: map<Block, Place>, p: Place)
    requires Holds(a, at, p) && Holds(b, at, p) && forall x | x in a :: x !in b
    ensures Holds(a + b, at, p)
  {
    forall i, j | 0 <= i < j < |a + b| ensures (a + b)[i] != (a + b)[j] {
      if i < |a| <= j { assert a[i] !in b; }
    }
  }

  lemma HoldsCut(l: seq<Block>, at: map<Block, Place>, p: Place, i: nat, q: Place)
    requires Holds(l, at, p) && i < |l|
    ensures Holds(l[..i] + l[i + 1..], at[l[i] := q], p)
    ensures forall b | b in l && b != l[i] :: b in l[..i] + l[i + 1..]
  {
    CutDistinct(l, i);
    var m := l[..i] + l[i + 1..];
    assert forall j | 0 <= j < |m| :: m[j] == l[if j < i then j else j + 1];
  }

  lemma HoldsFront(l: seq<Block>, at: map<Block, Place>, b: Block, q: Place)
    requires Holds(l, at, q) && (b in at ==> at[b] != q)
    ensures Holds([b] + l, at[b := q], q)
  {
    HoldsElsewhere(l, at, at[b := q], q);
    HoldsJoined([b], l, at[b := q], q);
  }

  lemma HoldsOf(s: State, p: Place)
    requires Shape(s) && Placed(s) && p in s.lists
    ensures Holds(s.lists[p], s.at, p)
  {
    hide Holds, Found;
  }

  lemma FoundOf(s: State, x: Block)
    requires Shape(s) && Placed(s) && x in s.home
    ensures x in s.at && Found(s.lists, s.at[x], x, s.home[x])
  {
    hide Holds, Found;
  }

  lemma OneHolds(s: State, p: Place, i: nat, q: Place, r: Place)
    requires Shape(s) && Placed(s) && p in s.lists && q in s.lists && p != q && i < |s.lists[p]| && r in s.lists
    ensures Holds(One(s, p, i, q).lists[r], One(s, p, i, q).at, r)
  {
    hide Shape, Placed, Found, Distinct;
    HoldsOf(s, p);
    HoldsOf(s, q);
    HoldsOf(s, r);
    if r == p {
      HoldsCut(s.lists[p], s.at, p, i, q);
    } else if r == q {
      HoldsFront(s.lists[q], s.at, s.lists[p][i], q);
    } else {
      HoldsElsewhere(s.lists[r], s.at, One(s, p, i, q).at, r);
    }
  }

  lemma OneFound(s: State, p: Place, i: nat, q: Place, x: Block)
    requires Shape(s) && Placed(s) && p in s.lists && q in s.lists && p != q && i < |s.lists[p]| && x in s.home
    requires s.lists[p][i] in s.home && q.Fits(s.home[s.lists[p][i]])
    ensures Found(One(s, p, i, q).lists, One(s, p, i, q).at[x], x, s.home[x])
  {
    hide Shape, Placed, Holds;
    HoldsOf(s, p);
    HoldsCut(s.lists[p], s.at, p, i, q);
    FoundOf(s, x);
  }

  lemma OneKeepsPlaced(s: State, p: Place, i: nat, q: Place)
    requires Shape(s) && Placed(s) && p in s.lists && q in s.lists && p != q && i < |s.lists[p]|
    requires s.lists[p][i] in s.home && q.Fits(s.home[s.lists[p][i]])
    ensures Shape(One(s, p, i, q)) && Placed(One(s, p, i, q))
  {
    hide Holds, Found;
    var t := One(s, p, i, q);
    forall r | r in t.lists ensures Holds(t.lists[r], t.at, r) { OneHolds(s, p, i, q, r); }
    forall x | x in t.at ensures Found(t.lists, t.at[x], x, t.home[x]) { OneFound(s, p, i, q, x); }
  }

  lemma AllToHolds(s: State, p: Place, q: Place, r: Place)
    requires Shape(s) && Placed(s) && p in s.lists && q in s.lists && p != q && r in s.lists
    ensures Holds(AllTo(s, p, q).lists[r], AllTo(s, p, q).at, r)
  {
    hide Shape, Placed, Found;
    var t := AllTo(s, p, q);
    HoldsOf(s, p);
    HoldsOf(s, q);
    HoldsOf(s, r);
    assert forall x | x in s.lists[p] :: x in s.at && s.at[x] == p;
    if r == q {
      assert Holds(s.lists[p], t.at, q) by { assert forall x | x in s.lists[p] :: t.at[x] == q; }
      HoldsElsewhere(s.lists[q], s.at, t.at, q);
      HoldsJoined(s.lists[p], s.lists[q], t.at, q);
    } else if r != p {
      HoldsElsewhere(s.lists[r], s.at, t.at, r);
    }
  }

  lemma AllToKeepsPlaced(s: State, p: Place, q: Place)
    requires Shape(s) && Placed(s) && p in s.lists && q in s.lists && p != q
    requires forall b | b in s.lists[p] :: b in s.home && q.Fits(s.home[b])
    ensures Shape(AllTo(s, p, q)) && Placed(AllTo(s, p, q))
  {
    hide Holds, Found;
    var t := AllTo(s, p, q);
    assert t.at.Keys == s.at.Keys;
    assert Shape(t);
    forall r | r in t.lists ensures Holds(t.lists[r], t.at, r) { AllToHolds(s, p, q, r); }
    forall x | x in t.at ensures Found(t.lists, t.at[x], x, t.home[x]) { AllToFound(s, p, q, x); }
  }

  lemma AllToFound(s: State, p: Place, q: Place, x: Block)
    requires Shape(s) && Placed(s) && p in s.lists && q in s.lists && p != q && x in s.home
    requires forall b | b in s.lists[p] :: b in s.home && q.Fits(s.home[b])
    ensures x in s.at && Found(AllTo(s, p, q).lists, AllTo(s, p, q).at[x], x, s.home[x])
  {
    hide Shape, Placed, Holds;
    FoundOf(s, x);
  }

  // ---------------------------------------------------------------- steps

  datatype Step =
    | Grow(c: nat, k: PoolType, b: Block)      // dma_pool_alloc, the pool takes new memory
    | Alloc(c: nat, k: PoolType, i: nat)       // dma_pool_alloc, a block of the pool
    | Load(c: nat, k: PoolType, up: bool)      // in_use++ or in_use-- reads the counter
    | Store(j: nat)                            // and writes it back
    | Drain(c: nat, max: nat)                  // the bounded drain, interrupts off
    | FreeHere(c: nat, i: nat)                 // freed on its home CPU
    | FreeAway(c: nat, i: nat, flush: bool)    // freed elsewhere; the local list may be sent off
    | Grab(c: nat)                             // the worker takes its first list, interrupts off
    | Return(c: nat)                           // the worker frees one block
    | More(c: nat)                             // the worker looks for more

  ghost predicate Allowed(s: State, t: Step)
    requires Inv(s)
  {
    match t
    case Grow(c, _, b) => c < s.n && b !in s.home
    case Alloc(c, k, i) => c < s.n && i < |s.lists[Pool(Home(c, k))]|
    case Load(c, k, up) => Home(c, k) in (if up then s.allocating else s.freeing)
    case Store(j) => j < |s.midway|
    case Drain(c, _) => c < s.n
    case FreeHere(c, i) => User in s.lists && i < |s.lists[User]| && HomeOf(s, User, i).cpu == c
    case FreeAway(c, i, _) => c < s.n && User in s.lists && i < |s.lists[User]| && HomeOf(s, User, i).cpu != c
    case Grab(c) => c < s.n && s.lists[Worker(c)] == []
    case Return(c) => c < s.n && s.lists[Worker(c)] != []
    case More(c) => c < s.n && s.lists[Worker(c)] == []
  }

  ghost function HomeOf(s: State, p: Place, i: nat): (h: Home)
    requires Inv(s) && p in s.lists && i < |s.lists[p]|
    ensures p.Fits(h) && h.cpu < s.n && s.lists[p][i] in s.home && h == s.home[s.lists[p][i]]
  {
    assert Holds(s.lists[p], s.at, p);
    var b := s.lists[p][i];
    assert Found(s.lists, s.at[b], b, s.home[b]);
    s.home[b]
  }

  /** dma_pool_free of the first block of p, to its home. */
  ghost function ToPool(s: State, p: Place): State
    requires Inv(s) && p in s.lists && s.lists[p] != []
  {
    One(s, p, 0, Pool(HomeOf(s, p, 0))).(returned := s.returned + multiset{s.lists[p][0]})
  }

  lemma TransitKeepsAccounts(s: State, p: Place, q: Place)
    requires Shape(s) && Accounts(s) && p in s.lists && q in s.lists && p.InTransit() && q.InTransit() && Shape(AllTo(s, p, q))
    requires forall b | b in s.lists[p] :: b in s.at && s.at[b] == p
    ensures Accounts(AllTo(s, p, q))
  {
    hide Shape;
  }

  lemma AllAt(s: State, p: Place, q: Place)
    requires Inv(s) && p in s.lists && forall i | 0 <= i < |s.lists[p]| :: q.Fits(HomeOf(s, p, i))
    ensures forall b | b in s.lists[p] :: b in s.at && s.at[b] == p && b in s.home && q.Fits(s.home[b])
  {
    hide Inv, HomeOf;
    forall b | b in s.lists[p] ensures b in s.at && s.at[b] == p && b in s.home && q.Fits(s.home[b]) {
      var i :| 0 <= i < |s.lists[p]| && s.lists[p][i] == b;
      AtOf(s, p, i);
      assert q.Fits(HomeOf(s, p, i));
    }
  }

  lemma TransitKeepsInv(s: State, p: Place, q: Place)
    requires Inv(s) && p in s.lists && q in s.lists && p != q && p.InTransit() && q.InTransit()
    requires forall i | 0 <= i < |s.lists[p]| :: q.Fits(HomeOf(s, p, i))
    ensures Inv(AllTo(s, p, q))
  {
    hide Shape, Placed, Accounts, Counted, HomeOf;
    AllAt(s, p, q);
    AllToKeepsPlaced(s, p, q);
    TransitKeepsAccounts(s, p, q);
    UserStays(s, p, q);
    CountedKept(s, AllTo(s, p, q));
  }

  lemma UserStays(s: State, p: Place, q: Place)
    requires Shape(s) && p in s.lists && q in s.lists && p.InTransit() && q.InTransit()
    ensures User in s.lists && User in AllTo(s, p, q).lists && AllTo(s, p, q).lists[User] == s.lists[User]
  {
  }

  function If(c: bool): nat { if c then 1 else 0 }

  /** One block b moves to q, freed by its user (f), returned to its pool (r), or neither. */
  lemma AccountsMoved(s: State, t: State, b: Block, q: Place, f: bool, r: bool)
    requires Shape(s) && Shape(t) && Accounts(s) && t.at == s.at[b := q]
    requires t.freed == (if f then s.freed + multiset{b} else s.freed)
    requires t.returned == (if r then s.returned + multiset{b} else s.returned)
    requires If(f) + If(b in s.at && s.at[b].InTransit()) == If(r) + If(q.InTransit())
    ensures Accounts(t)
  {
  }

  ghost predicate SameUnderway(s: State, t: State) { t.allocating == s.allocating && t.freeing == s.freeing }

  ghost predicate SameCounters(s: State, t: State) { t.inUse == s.inUse && t.midway == s.midway && t.drift == s.drift }

  lemma CountedKept(s: State, t: State)
    requires Shape(s) && Shape(t) && Counted(s) && t.n == s.n && t.home == s.home
    requires t.lists[User] == s.lists[User] && SameCounters(s, t) && SameUnderway(s, t)
    ensures Counted(t)
  {
  }

  lemma PlacedSame(s: State, t: State)
    requires Shape(s) && Placed(s) && t.n == s.n && t.home == s.home && t.lists == s.lists && t.at == s.at
    requires t.inUse.Keys == s.inUse.Keys && Within(t.allocating, t.n) && Within(t.freeing, t.n)
    requires MidWithin(t.midway, t.n)
    ensures Shape(t) && Placed(t)
  {
    assert forall h: Home :: h in t.inUse <==> h in s.inUse.Keys;
  }

  lemma AtOf(s: State, p: Place, i: nat)
    requires Inv(s) && p in s.lists && i < |s.lists[p]|
    ensures s.lists[p][i] in s.at && s.at[s.lists[p][i]] == p
    ensures Pool(HomeOf(s, p, i)) in s.lists && User in s.lists
    ensures Within(s.allocating, s.n) && Within(s.freeing, s.n) && MidWithin(s.midway, s.n)
  {
    assert Holds(s.lists[p], s.at, p);
  }

  lemma ToPoolKeepsInv(s: State, p: Place)
    requires Inv(s) && p in s.lists && s.lists[p] != [] && p.InTransit()
    ensures Inv(ToPool(s, p)) && |ToPool(s, p).lists[p]| == |s.lists[p]| - 1
  {
    hide Placed, Counted, Shape, Accounts, HomeOf;
    var b, h, t := s.lists[p][0], HomeOf(s, p, 0), ToPool(s, p);
    AtOf(s, p, 0);
    OneKeepsPlaced(s, p, 0, Pool(h));
    PlacedSame(One(s, p, 0, Pool(h)), t);
    AccountsMoved(s, t, b, Pool(h), false, true);
    CountedKept(s, t);
  }

  // ---------------------------------------------------------------- counting

  lemma {:induction false} CountCut(l: seq<Block>, home: map<Block, Home>, k: PoolType, i: nat)
    requires i < |l|
    ensures Count(l, home, k) == Count(l[..i] + l[i + 1..], home, k) + If(l[i] in home && home[l[i]].kind == k)
  {
    if i == 0 {
      assert l[..0] + l[1..] == l[1..];
    } else {
      CutTail(l, i);
      CountCut(l[1..], home, k, i - 1);
    }
  }

  lemma {:induction false} CountGrown(l: seq<Block>, home: map<Block, Home>, k: PoolType, b: Block, h: Home)
    requires b !in l
    ensures Count(l, home[b := h], k) == Count(l, home, k)
  {
    if l != [] { CountGrown(l[1..], home, k, b, h); }
  }

  lemma CountFront(l: seq<Block>, home: map<Block, Home>, k: PoolType, b: Block)
    ensures Count([b] + l, home, k) == Count(l, home, k) + If(b in home && home[b].kind == k)
  {
    assert ([b] + l)[1..] == l;
  }

  lemma {:induction false} SumUpdated(inUse: map<Home, int>, k: PoolType, n: nat, h: Home, d: int)
    requires h in inUse
    ensures SumUse(inUse[h := inUse[h] + d], k, n) == SumUse(inUse, k, n) + (if h.kind == k && h.cpu < n then d else 0)
  {
    if n != 0 { SumUpdated(inUse, k, n - 1, h, d); }
  }

  lemma {:induction false} UnderwayOneMore(m: multiset<Home>, k: PoolType, n: nat, h: Home)
    ensures Underway(m + multiset{h}, k, n) == Underway(m, k, n) + If(h.kind == k && h.cpu < n)
  {
    if n != 0 { UnderwayOneMore(m, k, n - 1, h); }
  }

  lemma UnderwayOneLess(m: multiset<Home>, k: PoolType, n: nat, h: Home)
    requires h in m
    ensures Underway(m, k, n) == Underway(m - multiset{h}, k, n) + If(h.kind == k && h.cpu < n)
  {
    assert m == (m - multiset{h}) + multiset{h};
    UnderwayOneMore(m - multiset{h}, k, n, h);
  }

  lemma {:induction false} NoneUnderway(m: multiset<Home>, k: PoolType, n: nat)
    requires forall h | h in m :: h.kind != k
    ensures Underway(m, k, n) == 0
  {
    if n != 0 { NoneUnderway(m, k, n - 1); }
  }

  lemma CountedMoved(s: State, t: State, k: PoolType, d: int)
    requires Shape(s) && Shape(t) && Counted(s) && t.n == s.n && SameCounters(s, t)
    requires forall j: PoolType :: Uncounted(t, j) == Uncounted(s, j) + (if j == k then d else 0)
    requires forall j: PoolType :: Count(t.lists[User], t.home, j) == Count(s.lists[User], s.home, j) + (if j == k then d else 0)
    ensures Counted(t)
  {
  }

  /** The CPU on which a block is freed that goes to q. */
  function FreedOn(q: Place): nat
    requires q.Local? || q.Pool?
  {
    if q.Local? then q.on else q.home.cpu
  }

  /** The i-th block users hold goes to q, freed; it may already be back in its pool. */
  ghost function Leave(s: State, i: nat, q: Place): State
    requires Inv(s) && i < |s.lists[User]| && q in s.lists && (q.Local? || q.Pool?)
  {
    var b, k := s.lists[User][i], HomeOf(s, User, i).kind;
    One(s, User, i, q).(freed := s.freed + multiset{b},
                        returned := if q.InTransit() then s.returned else s.returned + multiset{b},
                        freeing := s.freeing + multiset{Home(FreedOn(q), k)})
  }

  lemma LeaveKeepsInv(s: State, i: nat, q: Place)
    requires Inv(s) && User in s.lists && i < |s.lists[User]| && q in s.lists && (q.Local? || q.Pool?) && q.Fits(HomeOf(s, User, i))
    ensures Inv(Leave(s, i, q)) && Leave(s, i, q).n == s.n && q in Leave(s, i, q).lists
    ensures Leave(s, i, q).lists[q] == [s.lists[User][i]] + s.lists[q]
  {
    hide Placed, Counted, Shape, Accounts, HomeOf, Count;
    var b, k, t := s.lists[User][i], HomeOf(s, User, i).kind, Leave(s, i, q);
    AtOf(s, User, i);
    OneKeepsPlaced(s, User, i, q);
    PlaceIsOk(s, q);
    PlacedSame(One(s, User, i, q), t);
    AccountsMoved(s, t, b, q, true, !q.InTransit());
    forall j: PoolType ensures Count(t.lists[User], t.home, j) == Count(s.lists[User], s.home, j) + (if j == k then -1 else 0) {
      CountCut(s.lists[User], s.home, j, i);
    }
    forall j: PoolType ensures Uncounted(t, j) == Uncounted(s, j) + (if j == k then -1 else 0) {
      UnderwayOneMore(s.freeing, j, s.n, Home(FreedOn(q), k));
    }
    CountedMoved(s, t, k, -1);
  }

  lemma PlaceIsOk(s: State, q: Place)
    requires Inv(s) && q in s.lists
    ensures q.Ok(s.n)
  {
  }

  ghost function Taken(s: State, h: Home, i: nat): (t: State)
    requires Inv(s) && Pool(h) in s.lists && User in s.lists && i < |s.lists[Pool(h)]|
    ensures SameCounters(s, t)
  {
    One(s, Pool(h), i, User).(allocating := s.allocating + multiset{h})
  }

  lemma TakenKeepsInv(s: State, h: Home, i: nat)
    requires Inv(s) && Pool(h) in s.lists && User in s.lists && i < |s.lists[Pool(h)]|
    ensures Inv(Taken(s, h, i))
  {
    hide Placed, Counted, Shape, Accounts, HomeOf, Count;
    var b, t := s.lists[Pool(h)][i], Taken(s, h, i);
    AtOf(s, Pool(h), i);
    assert h == HomeOf(s, Pool(h), i);
    OneKeepsPlaced(s, Pool(h), i, User);
    PlaceIsOk(s, Pool(h));
    PlacedSame(One(s, Pool(h), i, User), t);
    AccountsMoved(s, t, b, User, false, false);
    forall j: PoolType ensures Count(t.lists[User], t.home, j) == Count(s.lists[User], s.home, j) + (if j == h.kind then 1 else 0) {
      CountFront(s.lists[User], s.home, j, b);
    }
    forall j: PoolType ensures Uncounted(t, j) == Uncounted(s, j) + (if j == h.kind then 1 else 0) {
      UnderwayOneMore(s.allocating, j, s.n, h);
    }
    CountedMoved(s, t, h.kind, 1);
  }

  ghost function Grown(s: State, h: Home, b: Block): (t: State)
    requires Inv(s)
    ensures SameCounters(s, t)
  {
    s.(home := s.home[b := h], at := s.at[b := User], lists := s.lists[User := [b] + s.lists[User]],
       allocating := s.allocating + multiset{h})
  }

  lemma GrownHolds(s: State, h: Home, b: Block, r: Place)
    requires Inv(s) && h.cpu < s.n && b !in s.home && r in s.lists
    ensures Holds(Grown(s, h, b).lists[r], Grown(s, h, b).at, r) && b !in s.lists[r]
  {
    hide Counted, Accounts, Placed, Found, Distinct;
    HoldsOf(s, r);
    if r == User { HoldsFront(s.lists[r], s.at, b, r); } else { HoldsElsewhere(s.lists[r], s.at, s.at[b := User], r); }
  }

  lemma GrownKeepsPlaced(s: State, h: Home, b: Block)
    requires Inv(s) && h.cpu < s.n && b !in s.home
    ensures Shape(Grown(s, h, b)) && Placed(Grown(s, h, b)) && b !in s.lists[User]
  {
    hide Holds, Found, Placed, Counted, Accounts;
    var t := Grown(s, h, b);
    GrownHolds(s, h, b, User);
    assert Shape(t);
    GrownIsPlaced(s, h, b);
  }

  lemma GrownFound(s: State, h: Home, b: Block, x: Block)
    requires Inv(s) && b !in s.home && x in s.home
    ensures Found(Grown(s, h, b).lists, s.at[x], x, s.home[x])
  {
    hide Shape, Placed, Holds, Counted, Accounts;
    FoundOf(s, x);
  }

  lemma GrownIsPlaced(s: State, h: Home, b: Block)
    requires Inv(s) && h.cpu < s.n && b !in s.home && Shape(Grown(s, h, b))
    ensures Placed(Grown(s, h, b))
  {
    hide Shape, Placed, Holds, Found, Counted, Accounts;
    var t := Grown(s, h, b);
    BlocksListed(s);
    assert Found(t.lists, User, b, h) by { NewIsFound(t.lists, b, s.lists[User], h); }
    forall r | r in t.lists ensures Holds(t.lists[r], t.at, r) { GrownHolds(s, h, b, r); }
    forall x | x in t.at ensures x in t.home && Found(t.lists, t.at[x], x, t.home[x]) {
      if x != b { GrownFound(s, h, b, x); }
    }
    IsPlaced(t);
  }

  lemma BlocksListed(s: State)
    requires Inv(s)
    ensures User in s.lists && s.at.Keys == s.home.Keys
  {
    hide Placed, Counted, Accounts;
  }

  lemma NewIsFound(lists: map<Place, seq<Block>>, b: Block, l: seq<Block>, h: Home)
    requires User in lists && lists[User] == [b] + l
    ensures Found(lists, User, b, h)
  {
    assert lists[User][0] == b;
  }

  lemma IsPlaced(t: State)
    requires Shape(t) && forall r | r in t.lists :: Holds(t.lists[r], t.at, r)
    requires forall x | x in t.at :: x in t.home && Found(t.lists, t.at[x], x, t.home[x])
    ensures Placed(t)
  {
    hide Holds, Found;
  }

  lemma GrownKeepsInv(s: State, h: Home, b: Block)
    requires Inv(s) && h.cpu < s.n && b !in s.home
    ensures Inv(Grown(s, h, b))
  {
    hide Placed, Counted, Accounts, HomeOf, Count;
    var t := Grown(s, h, b);
    GrownKeepsPlaced(s, h, b);
    AccountsMoved(s, t, b, User, false, false);
    forall j: PoolType ensures Count(t.lists[User], t.home, j) == Count(s.lists[User], s.home, j) + (if j == h.kind then 1 else 0) {
      CountFront(s.lists[User], t.home, j, b);
      CountGrown(s.lists[User], s.home, j, b, h);
    }
    forall j: PoolType ensures Uncounted(t, j) == Uncounted(s, j) + (if j == h.kind then 1 else 0) {
      UnderwayOneMore(s.allocating, j, s.n, h);
    }
    CountedMoved(s, t, h.kind, 1);
  }

  /** in_use++ of an allocation, or in_use-- of a free, that waits for it reads the counter. */
  ghost function Loaded(s: State, h: Home, up: bool): (t: State)
    requires Inv(s) && h in (if up then s.allocating else s.freeing)
    ensures t.inUse == s.inUse && t.drift == s.drift
  {
    var m := Mid(h, up, s.inUse[h]);
    if up then s.(allocating := s.allocating - multiset{h}, midway := s.midway + [m])
    else s.(freeing := s.freeing - multiset{h}, midway := s.midway + [m])
  }

  /** The j-th update under way writes its counter back. */
  ghost function Stored(s: State, j: nat): State
    requires Inv(s) && j < |s.midway|
  {
    var m := s.midway[j];
    s.(inUse := s.inUse[m.h := m.seen + m.Delta()], midway := s.midway[..j] + s.midway[j + 1..],
       drift := s.drift.Plus(m.h.kind, m.seen - s.inUse[m.h]))
  }

  lemma {:induction false} BegunMore(l: seq<Mid>, m: Mid, k: PoolType)
    ensures Begun(l + [m], k) == Begun(l, k) + Signed(m, k)
  {
    hide Signed;
    if l == [] {
      assert l + [m] == [m] && [m][1..] == [];
    } else {
      assert (l + [m])[1..] == l[1..] + [m];
      BegunMore(l[1..], m, k);
    }
  }

  lemma CutTail<T>(l: seq<T>, j: nat)
    requires 0 < j < |l|
    ensures var m := l[..j] + l[j + 1..];
            m != [] && m[0] == l[0] && m[1..] == l[1..][..j - 1] + l[1..][j..] && l[1..][j - 1] == l[j]
  {
  }

  lemma {:induction false} BegunCut(l: seq<Mid>, j: nat, k: PoolType)
    requires j < |l|
    ensures Begun(l, k) == Begun(l[..j] + l[j + 1..], k) + Signed(l[j], k)
    decreases j
  {
    hide Signed;
    if j == 0 {
      assert l[..0] + l[1..] == l[1..];
    } else {
      CutTail(l, j);
      BegunCut(l[1..], j - 1, k);
    }
  }

  lemma LoadedKeepsShape(s: State, h: Home, up: bool)
    requires Inv(s) && h in (if up then s.allocating else s.freeing)
    ensures Shape(Loaded(s, h, up)) && Placed(Loaded(s, h, up)) && h in s.inUse && h.cpu < s.n
  {
    hide Placed, Accounts, Counted;
    PlacedSame(s, Loaded(s, h, up));
  }

  lemma LoadedKeepsInv(s: State, h: Home, up: bool)
    requires Inv(s) && h in (if up then s.allocating else s.freeing)
    ensures Inv(Loaded(s, h, up))
  {
    hide Shape, Placed, Accounts, SumUse, Count, Underway, Begun;
    var t := Loaded(s, h, up);
    LoadedKeepsShape(s, h, up);
    AccountsSame(s, t);
    forall k: PoolType ensures Uncounted(t, k) == Uncounted(s, k) {
      BegunMore(s.midway, Mid(h, up, s.inUse[h]), k);
      UnderwayOneLess(if up then s.allocating else s.freeing, k, s.n, h);
    }
  }

  lemma StoredKeepsShape(s: State, j: nat)
    requires Inv(s) && j < |s.midway|
    ensures Shape(Stored(s, j)) && Placed(Stored(s, j)) && s.midway[j].h in s.inUse && s.midway[j].h.cpu < s.n
  {
    hide Placed, Accounts, Counted;
    assert Stored(s, j).inUse.Keys == s.inUse.Keys;
    PlacedSame(s, Stored(s, j));
  }

  lemma StoredKeepsInv(s: State, j: nat)
    requires Inv(s) && j < |s.midway|
    ensures Inv(Stored(s, j))
  {
    hide Shape, Placed, Accounts, SumUse, Count, Underway, Begun;
    var t, m := Stored(s, j), s.midway[j];
    StoredKeepsShape(s, j);
    AccountsSame(s, t);
    forall k: PoolType
      ensures SumUse(t.inUse, k, t.n) + Uncounted(t, k) - t.drift.At(k) == SumUse(s.inUse, k, s.n) + Uncounted(s, k) - s.drift.At(k)
    {
      SumUpdated(s.inUse, k, s.n, m.h, m.seen + m.Delta() - s.inUse[m.h]);
      BegunCut(s.midway, j, k);
    }
  }

  lemma AccountsSame(s: State, t: State)
    requires Shape(s) && Shape(t) && Accounts(s) && t.at == s.at && t.freed == s.freed && t.returned == s.returned
    ensures Accounts(t)
  {
  }

  // ---------------------------------------------------------------- whole steps

  /** At most max blocks from the front of p go back to their pools. */
  ghost function Returned(s: State, p: Place, max: nat): (t: State)
    requires Inv(s) && p in s.lists && p.InTransit()
    ensures Inv(t) && p in t.lists && t.n == s.n && t.home == s.home && SameUnderway(s, t) && SameCounters(s, t)
    ensures |t.lists[p]| == if max < |s.lists[p]| then |s.lists[p]| - max else 0
    decreases max
  {
    if max == 0 || s.lists[p] == [] then s
    else
      ToPoolKeepsInv(s, p);
      Returned(ToPool(s, p), p, max - 1)
  }

  /** A drain's first act: if nothing is left in progress, take the shared list. */
  ghost function Refilled(s: State, c: nat): (t: State)
    requires Inv(s) && c < s.n
    ensures Inv(t) && t.n == s.n && t.home == s.home && SameUnderway(s, t) && SameCounters(s, t)
  {
    if s.lists[InProgress(c)] == [] then
      TransitKeepsInv(s, Shared(c), InProgress(c));
      AllTo(s, Shared(c), InProgress(c))
    else s
  }

  /** A free on another CPU: onto the local list for the home CPU. */
  ghost function Deposited(s: State, c: nat, i: nat): (t: State)
    requires Inv(s) && c < s.n && User in s.lists && i < |s.lists[User]| && HomeOf(s, User, i).cpu != c
    ensures Inv(t) && t.n == s.n && SameCounters(s, t)
  {
    LeaveKeepsInv(s, i, Local(c, HomeOf(s, User, i).cpu));
    Leave(s, i, Local(c, HomeOf(s, User, i).cpu))
  }

  /** The whole local list is sent off. */
  ghost function Flushed(s: State, c: nat, d: nat): (t: State)
    requires Inv(s) && c < s.n && d < s.n
    ensures Inv(t) && t.n == s.n && SameCounters(s, t)
  {
    TransitKeepsInv(s, Local(c, d), Shared(d));
    AllTo(s, Local(c, d), Shared(d))
  }

  ghost function SentAway(s: State, c: nat, i: nat, flush: bool): (t: State)
    requires Inv(s) && c < s.n && User in s.lists && i < |s.lists[User]| && HomeOf(s, User, i).cpu != c
    ensures Inv(t) && t.n == s.n && SameCounters(s, t)
  {
    if flush then Flushed(Deposited(s, c, i), c, HomeOf(s, User, i).cpu) else Deposited(s, c, i)
  }

  /** The worker's first act. */
  ghost function Grabbed(s: State, c: nat): (t: State)
    requires Inv(s) && c < s.n
    ensures Inv(t) && t.n == s.n && SameCounters(s, t)
  {
    var u := Refilled(s, c);
    TransitKeepsInv(u, InProgress(c), Worker(c));
    AllTo(u, InProgress(c), Worker(c))
  }

  ghost function Drained(s: State, c: nat, max: nat): (t: State)
    requires Inv(s) && c < s.n
    ensures Inv(t) && t.n == s.n && t.home == s.home && SameUnderway(s, t) && SameCounters(s, t)
  {
    Returned(Refilled(s, c), InProgress(c), max)
  }

  ghost function FreedHere(s: State, i: nat): (t: State)
    requires Inv(s) && User in s.lists && i < |s.lists[User]|
    ensures Inv(t) && SameCounters(s, t)
  {
    AtOf(s, User, i);
    LeaveKeepsInv(s, i, Pool(HomeOf(s, User, i)));
    Leave(s, i, Pool(HomeOf(s, User, i)))
  }

  /** Allocations and counters. */
  ghost function NextAlloc(s: State, t: Step): State
    requires Inv(s) && Allowed(s, t) && (t.Grow? || t.Alloc? || t.Load? || t.Store?)
  {
    match t
    case Grow(c, k, b) => Grown(s, Home(c, k), b)
    case Alloc(c, k, i) => Taken(s, Home(c, k), i)
    case Load(c, k, up) => Loaded(s, Home(c, k), up)
    case Store(j) => Stored(s, j)
  }

  /** The worker on a block's home CPU. */
  ghost function NextWorker(s: State, t: Step): State
    requires Inv(s) && Allowed(s, t) && (t.Grab? || t.Return? || t.More?)
  {
    match t
    case Grab(c) => Grabbed(s, c)
    case Return(c) => ToPool(s, Worker(c))
    case More(c) => AllTo(s, Shared(c), Worker(c))
  }

  ghost function Next(s: State, t: Step): State
    requires Inv(s) && Allowed(s, t)
  {
    match t
    case Drain(c, max) => Drained(s, c, max)
    case FreeHere(_, i) => FreedHere(s, i)
    case FreeAway(c, i, flush) => SentAway(s, c, i, flush)
    case Grab(_) => NextWorker(s, t)
    case Return(_) => NextWorker(s, t)
    case More(_) => NextWorker(s, t)
    case _ => NextAlloc(s, t)
  }

  lemma PlacesExist(s: State, c: nat)
    requires Inv(s) && c < s.n
    ensures User in s.lists && Shared(c) in s.lists && InProgress(c) in s.lists && Worker(c) in s.lists
    ensures forall k: PoolType :: Pool(Home(c, k)) in s.lists
  {
  }

  lemma NextKeepsInv(s: State, t: Step)
    requires Inv(s) && Allowed(s, t)
    ensures Inv(Next(s, t))
  {
    hide Inv, Grown, Taken, Loaded, Stored, Leave, ToPool, AllTo, HomeOf, Drained, FreedHere, SentAway, Grabbed;
    match t
    case Grow(c, k, b) => GrownKeepsInv(s, Home(c, k), b);
    case Alloc(c, k, i) => PlacesExist(s, c); TakenKeepsInv(s, Home(c, k), i);
    case Load(c, k, up) => LoadedKeepsInv(s, Home(c, k), up);
    case Store(j) => StoredKeepsInv(s, j);
    case Return(c) => PlacesExist(s, c); ToPoolKeepsInv(s, Worker(c));
    case More(c) => PlacesExist(s, c); TransitKeepsInv(s, Shared(c), Worker(c));
    case _ =>
  }

  /** From s to t the first m blocks of p went each to its own pool, and no other block moved. */
  ghost predicate WentHome(s: State, t: State, p: Place, m: nat)
    requires p in s.lists && m <= |s.lists[p]|
  {
    && t.home == s.home
    && (forall r | r in s.lists && r.InTransit() ::
          r in t.lists && t.lists[r] == if r == p then s.lists[r][m..] else s.lists[r])
    && (forall b | b in s.at ::
          b in t.at && b in s.home && t.at[b] == if b in s.lists[p][..m] then Pool(s.home[b]) else s.at[b])
  }

  lemma OneWentHome(s: State, p: Place)
    requires Inv(s) && p in s.lists && s.lists[p] != [] && p.InTransit()
    ensures p in ToPool(s, p).lists && WentHome(s, ToPool(s, p), p, 1)
  {
    hide Placed, Accounts, Counted, HomeOf;
    var l := s.lists[p];
    assert l[..0] + l[1..] == l[1..] && l[..1] == [l[0]];
  }

  lemma MoreWentHome(s: State, u: State, t: State, p: Place, m: nat)
    requires p in s.lists && p.InTransit() && m < |s.lists[p]| && WentHome(s, u, p, 1)
    requires WentHome(u, t, p, m)
    ensures WentHome(s, t, p, m + 1)
  {
    var l := s.lists[p];
    assert l[1..][m..] == l[m + 1..];
    assert l[..m + 1] == l[..1] + l[1..][..m];
  }

  lemma {:induction false} ReturnedHome(s: State, p: Place, max: nat)
    requires Inv(s) && p in s.lists && p.InTransit()
    ensures WentHome(s, Returned(s, p, max), p, if max < |s.lists[p]| then max else |s.lists[p]|)
    decreases max
  {
    hide WentHome, Inv, ToPool;
    if max == 0 || s.lists[p] == [] {
      NoneWentHome(s, p);
    } else {
      ToPoolKeepsInv(s, p);
      OneWentHome(s, p);
      ReturnedHome(ToPool(s, p), p, max - 1);
      MoreWentHome(s, ToPool(s, p), Returned(s, p, max), p, (if max < |s.lists[p]| then max else |s.lists[p]|) - 1);
    }
  }

  lemma NoneWentHome(s: State, p: Place)
    requires Inv(s) && p in s.lists
    ensures WentHome(s, s, p, 0)
  {
    hide Placed, Accounts, Counted;
    assert s.lists[p][0..] == s.lists[p];
  }

  /** A drain sends the first blocks in progress, at most max, each to its own pool; only when
      nothing is in progress it takes the shared list first, and then all of it. */
  lemma DrainTakes(s: State, c: nat, max: nat)
    requires Inv(s) && Allowed(s, Drain(c, max))
    ensures InProgress(c) in s.lists && Shared(c) in s.lists
    ensures var t := Next(s, Drain(c, max));
            var p, q := InProgress(c), Shared(c);
            var l := if s.lists[p] != [] then s.lists[p] else s.lists[q];
            var m := if max < |l| then max else |l|;
            && p in t.lists && q in t.lists && t.lists[p] == l[m..]
            && t.lists[q] == (if s.lists[p] != [] then s.lists[q] else [])
            && forall b | b in l[..m] :: b in t.at && b in s.home && t.at[b] == Pool(s.home[b])
  {
    hide Inv, HomeOf, Returned;
    PlacesExist(s, c);
    var u := Refilled(s, c);
    PlacesExist(u, c);
    var p, q := InProgress(c), Shared(c);
    assert s.lists[q] + [] == s.lists[q];
    ReturnedHome(u, p, max);
    forall b | b in u.lists[p] ensures b in u.at {
      var i :| 0 <= i < |u.lists[p]| && u.lists[p][i] == b;
      AtOf(u, p, i);
    }
  }

  /** A block freed elsewhere goes to the front of the local list for its home CPU; a list sent off
      goes whole to the front of that CPU's shared list. */
  lemma FreeAwayGoes(s: State, c: nat, i: nat, flush: bool)
    requires Inv(s) && Allowed(s, FreeAway(c, i, flush))
    ensures var t := Next(s, FreeAway(c, i, flush));
            var b := s.lists[User][i];
            b in s.home &&
            var p, q := Local(c, s.home[b].cpu), Shared(s.home[b].cpu);
            && p in s.lists && q in s.lists && p in t.lists && q in t.lists
            && t.lists[p] == (if flush then [] else [b] + s.lists[p])
            && t.lists[q] == (if flush then [b] + s.lists[p] + s.lists[q] else s.lists[q])
  {
    hide Placed, Accounts, Counted, HomeOf;
    var h := HomeOf(s, User, i);
    LeaveKeepsInv(s, i, Local(c, h.cpu));
  }

  ghost predicate Legal(s: State, ts: seq<Step>)
    requires Inv(s)
    decreases |ts|
  {
    ts != [] ==> Allowed(s, ts[0]) && (NextKeepsInv(s, ts[0]); Legal(Next(s, ts[0]), ts[1..]))
  }

  ghost function Run(s: State, ts: seq<Step>): State
    requires Inv(s) && Legal(s, ts)
    decreases |ts|
  {
    if ts == [] then s
    else
      NextKeepsInv(s, ts[0]);
      Run(Next(s, ts[0]), ts[1..])
  }

  lemma {:induction false} RunKeepsInv(s: State, ts: seq<Step>)
    requires Inv(s) && Legal(s, ts)
    ensures Inv(Run(s, ts))
    decreases |ts|
  {
    hide Inv, Allowed, Next;
    if ts != [] {
      NextKeepsInv(s, ts[0]);
      RunKeepsInv(Next(s, ts[0]), ts[1..]);
    }
  }

  // ---------------------------------------------------------------- what it means

  /** A disk whose pools have just been created. */
  ghost predicate Init(s: State) {
    && Shape(s) && s.home == map[] && s.freed == s.returned == multiset{}
    && (forall p | p in s.lists :: s.lists[p] == [])
    && (forall h | h in s.inUse :: s.inUse[h] == 0) && s.allocating == s.freeing == multiset{}
    && s.midway == [] && s.drift == NO_DRIFT
  }

  lemma {:induction false} NoUse(inUse: map<Home, int>, k: PoolType, n: nat)
    requires forall h | h in inUse :: inUse[h] == 0
    ensures SumUse(inUse, k, n) == 0
  {
    if n != 0 { NoUse(inUse, k, n - 1); }
  }

  lemma InitSatisfiesInv(s: State)
    requires Init(s)
    ensures Inv(s)
  {
    forall k: PoolType ensures SumUse(s.inUse, k, s.n) == 0 && Uncounted(s, k) == 0 {
      NoUse(s.inUse, k, s.n);
      NoneUnderway(multiset{}, k, s.n);
    }
  }

  /** The block is in the list of p, once, and in no other list. */
  ghost predicate OnlyAt(lists: map<Place, seq<Block>>, b: Block, p: Place) {
    && p in lists && b in lists[p] && Distinct(lists[p])
    && forall q | q in lists && b in lists[q] :: q == p
  }

  /** In every state of every run, a block that was ever allocated is in exactly one place, once;
      if that is a pool, it is the pool it came from; and every free by its user has been followed
      by exactly one return to that pool, except one that is still on its way. */
  lemma BlockOwnership(s: State, ts: seq<Step>, b: Block)
    requires Init(s) && Inv(s) && Legal(s, ts) && b in Run(s, ts).home
    ensures var t := Run(s, ts);
            && b in t.at && OnlyAt(t.lists, b, t.at[b])
            && (t.at[b].Pool? ==> t.at[b].home == t.home[b])
            && t.freed[b] == t.returned[b] + If(t.at[b].InTransit())
  {
    hide Run, Legal;
    RunKeepsInv(s, ts);
    OwnedAt(Run(s, ts), b);
  }

  lemma OwnedAt(t: State, b: Block)
    requires Inv(t) && b in t.home
    ensures b in t.at && OnlyAt(t.lists, b, t.at[b]) && (t.at[b].Pool? ==> t.at[b].home == t.home[b])
    ensures t.freed[b] == t.returned[b] + If(t.at[b].InTransit())
  {
    assert Found(t.lists, t.at[b], b, t.home[b]);
    forall p | p in t.lists ensures Holds(t.lists[p], t.at, p) { }
  }

  /** In every state of every run the in_use counters of each pool type, added up over the CPUs,
      differ from the number of blocks users hold exactly by the operations that have moved their
      block but not counted it, and by the drift; with no such operation of this type they are
      equal exactly when there is no drift, wherever the blocks were allocated and freed. */
  lemma CountersAddUp(s: State, ts: seq<Step>, k: PoolType)
    requires Init(s) && Inv(s) && Legal(s, ts)
    ensures var t := Run(s, ts);
            && User in t.lists
            && SumUse(t.inUse, k, t.n) + Underway(t.allocating, k, t.n) - Underway(t.freeing, k, t.n) + Begun(t.midway, k)
               == Count(t.lists[User], t.home, k) + t.drift.At(k)
            && (NothingUncounted(t, k) ==>
                  (SumUse(t.inUse, k, t.n) == Count(t.lists[User], t.home, k) <==> t.drift.At(k) == 0))
  {
    hide Run, Legal;
    RunKeepsInv(s, ts);
    var t := Run(s, ts);
    if NothingUncounted(t, k) {
      NoneUnderway(t.allocating, k, t.n);
      NoneUnderway(t.freeing, k, t.n);
      NoneBegun(t.midway, k);
    }
  }

  /** No operation of kind k has moved its block and not finished counting it. */
  ghost predicate NothingUncounted(s: State, k: PoolType) {
    && (forall h | h in s.allocating || h in s.freeing :: h.kind != k)
    && (forall j | 0 <= j < |s.midway| :: s.midway[j].h.kind != k)
  }

  lemma {:induction false} NoneBegun(l: seq<Mid>, k: PoolType)
    requires forall j | 0 <= j < |l| :: l[j].h.kind != k
    ensures Begun(l, k) == 0
  {
    if l != [] { NoneBegun(l[1..], k); }
  }

  // ---------------------------------------------------------------- interrupted updates

  /** The step writes a counter of kind k over another value than it read. */
  ghost predicate Overwrites(s: State, t: Step, k: PoolType)
    requires Inv(s) && Allowed(s, t)
  {
    t.Store? && s.midway[t.j].h.kind == k && s.midway[t.j].seen != s.inUse[s.midway[t.j].h]
  }

  /** Only finished updates touch the counters, and each puts its type off by the difference. */
  lemma OnlyStoresCount(s: State, t: Step)
    requires Inv(s) && Allowed(s, t) && !t.Store?
    ensures Next(s, t).inUse == s.inUse && Next(s, t).drift == s.drift
  {
    hide Inv, Drained, FreedHere, SentAway, Grabbed, HomeOf;
    match t
    case Grow(_, _, _) => AllocsCountNothing(s, t);
    case Alloc(_, _, _) => AllocsCountNothing(s, t);
    case Load(_, _, _) => AllocsCountNothing(s, t);
    case Return(_) => WorkersCountNothing(s, t);
    case More(_) => WorkersCountNothing(s, t);
    case _ =>
  }

  lemma AllocsCountNothing(s: State, t: Step)
    requires Inv(s) && Allowed(s, t) && (t.Grow? || t.Alloc? || t.Load?)
    ensures Next(s, t).inUse == s.inUse && Next(s, t).drift == s.drift
  {
    hide Inv, Grown, Taken, Loaded;
  }

  lemma WorkersCountNothing(s: State, t: Step)
    requires Inv(s) && Allowed(s, t) && (t.Return? || t.More?)
    ensures Next(s, t).inUse == s.inUse && Next(s, t).drift == s.drift
  {
    hide Inv, HomeOf;
  }

  lemma StoreDrifts(s: State, j: nat, k: PoolType)
    requires Inv(s) && Allowed(s, Store(j))
    ensures Next(s, Store(j)).drift.At(k) == s.drift.At(k) <==> !Overwrites(s, Store(j), k)
  {
    hide Placed, Accounts, Counted;
  }

  ghost predicate NeverOverwrites(s: State, ts: seq<Step>, k: PoolType)
    requires Inv(s) && Legal(s, ts)
    decreases |ts|
  {
    ts != [] ==>
      && !Overwrites(s, ts[0], k)
      && (NextKeepsInv(s, ts[0]); NeverOverwrites(Next(s, ts[0]), ts[1..], k))
  }

  ghost predicate NeverDrifts(s: State, ts: seq<Step>, k: PoolType)
    requires Inv(s) && Legal(s, ts)
    decreases |ts|
  {
    && s.drift.At(k) == 0
    && (ts != [] ==> (NextKeepsInv(s, ts[0]); NeverDrifts(Next(s, ts[0]), ts[1..], k)))
  }

  /** The counters of a type are exact throughout a run, save for operations under way, if and only
      if every update writes its counter over the value it read: no update of the same counter
      falls between the two, or those that do cancel out. */
  lemma {:induction false} ExactIffNotOverwritten(s: State, ts: seq<Step>, k: PoolType)
    requires Inv(s) && Legal(s, ts) && s.drift.At(k) == 0
    ensures NeverDrifts(s, ts, k) <==> NeverOverwrites(s, ts, k)
    decreases |ts|
  {
    hide Inv, Allowed, Next, Overwrites;
    if ts != [] {
      var u := Next(s, ts[0]);
      NextKeepsInv(s, ts[0]);
      StepDrifts(s, ts[0], k);
      if u.drift.At(k) == 0 {
        ExactIffNotOverwritten(u, ts[1..], k);
      } else {
        DriftIsSeen(u, ts[1..], k);
      }
    }
  }

  lemma StepDrifts(s: State, t: Step, k: PoolType)
    requires Inv(s) && Allowed(s, t)
    ensures Next(s, t).drift.At(k) == s.drift.At(k) <==> !Overwrites(s, t, k)
  {
    hide Inv, Allowed, Next;
    if t.Store? { StoreDrifts(s, t.j, k); } else { OnlyStoresCount(s, t); }
  }

  lemma DriftIsSeen(s: State, ts: seq<Step>, k: PoolType)
    requires Inv(s) && Legal(s, ts) && s.drift.At(k) != 0
    ensures !NeverDrifts(s, ts, k)
  {
    hide Inv, Allowed, Next;
  }

  /** As long as no other update of the counter is finished, an update has read what is there. */
  lemma {:induction false} AloneReadsCurrent(s: State, ts: seq<Step>, h: Home)
    requires Inv(s) && Legal(s, ts) && h in s.inUse
    requires NoStoreTo(s, ts, h)
    ensures h in Run(s, ts).inUse && Run(s, ts).inUse[h] == s.inUse[h]
    decreases |ts|
  {
    hide Inv, Allowed, Next;
    if ts != [] {
      NextKeepsInv(s, ts[0]);
      if ts[0].Store? { StoreIsAt(s, ts[0].j, h); } else { OnlyStoresCount(s, ts[0]); }
      AloneReadsCurrent(Next(s, ts[0]), ts[1..], h);
    }
  }

  ghost predicate NoStoreTo(s: State, ts: seq<Step>, h: Home)
    requires Inv(s) && Legal(s, ts)
    decreases |ts|
  {
    ts != [] ==>
      && (ts[0].Store? ==> s.midway[ts[0].j].h != h)
      && (NextKeepsInv(s, ts[0]); NoStoreTo(Next(s, ts[0]), ts[1..], h))
  }

  lemma StoreIsAt(s: State, j: nat, h: Home)
    requires Inv(s) && Allowed(s, Store(j)) && h in s.inUse && s.midway[j].h != h
    ensures h in Next(s, Store(j)).inUse && Next(s, Store(j)).inUse[h] == s.inUse[h]
  {
    hide Inv;
  }

  lemma StepFirst(s: State, t: Step, ts: seq<Step>)
    requires Inv(s) && Allowed(s, t) && Inv(Next(s, t)) && Legal(Next(s, t), ts)
    ensures Legal(s, [t] + ts) && Run(s, [t] + ts) == Run(Next(s, t), ts)
  {
    hide Inv, Allowed, Next;
    assert ([t] + ts)[1..] == ts;
  }

  lemma RunNone(s: State)
    requires Inv(s)
    ensures Legal(s, []) && Run(s, []) == s
  {
    hide Inv;
  }

  lemma BothStored(s: State, h: Home)
    requires Inv(s) && s.midway == [Mid(h, true, 0), Mid(h, true, 0)] && h in s.inUse && s.inUse[h] == 0 && s.drift == NO_DRIFT
    ensures var t := Stored(s, 0);
            && Inv(t) && t.midway == [Mid(h, true, 0)] && t.allocating == s.allocating && t.freeing == s.freeing
            && Inv(Stored(t, 0)) && Stored(t, 0).midway == [] && Stored(t, 0).drift.At(h.kind) == -1
            && Stored(t, 0).allocating == s.allocating && Stored(t, 0).freeing == s.freeing
  {
    hide Inv;
    StoredKeepsInv(s, 0);
    StoredKeepsInv(Stored(s, 0), 0);
  }

  lemma InitIsBlank(s: State, h: Home)
    requires Init(s) && Inv(s) && h.cpu < s.n
    ensures s.home == map[] && h in s.inUse && s.inUse[h] == 0 && s.midway == [] && s.drift == NO_DRIFT
    ensures s.allocating == s.freeing == multiset{}
  {
    hide Placed, Accounts, Counted;
  }

  /** A block more for the users of a disk without blocks on their way to be counted. */
  lemma GrownOnce(s: State, h: Home, b: Block)
    requires Inv(s) && h.cpu < s.n && b !in s.home
    ensures var t := Grown(s, h, b);
            && Inv(t) && t.n == s.n && t.home == s.home[b := h] && SameCounters(s, t)
            && t.allocating == s.allocating + multiset{h} && t.freeing == s.freeing
  {
    hide Inv;
    GrownKeepsInv(s, h, b);
  }

  lemma LoadedOnce(s: State, h: Home)
    requires Inv(s) && h in s.allocating && h in s.inUse
    ensures var t := Loaded(s, h, true);
            && Inv(t) && t.allocating == s.allocating - multiset{h} && t.freeing == s.freeing
            && t.midway == s.midway + [Mid(h, true, s.inUse[h])]
  {
    hide Inv;
    LoadedKeepsInv(s, h, true);
  }

  /** Two allocations on one CPU, the counting of the second inside that of the first: users hold
      two blocks and the counters add up to one, with nothing under way. */
  lemma InterruptedCountIsLost(s: State) returns (ts: seq<Step>)
    requires Init(s) && Inv(s) && s.n > 0
    ensures Legal(s, ts) && NothingUncounted(Run(s, ts), Prpl) && User in Run(s, ts).lists
    ensures var t := Run(s, ts); SumUse(t.inUse, Prpl, t.n) + 1 == Count(t.lists[User], t.home, Prpl)
  {
    hide Inv, Init, Run, Legal, Grown, Loaded, Stored, SumUse, Count;
    var h := Home(0, Prpl);
    InitIsBlank(s, h);
    GrownOnce(s, h, 0);
    var a := Grown(s, h, 0);
    GrownOnce(a, h, 1);
    var b := Grown(a, h, 1);
    LoadedOnce(b, h);
    var c := Loaded(b, h, true);
    LoadedOnce(c, h);
    var d := Loaded(c, h, true);
    BothStored(d, h);
    var e := Stored(d, 0);
    var f := Stored(e, 0);
    RunNone(f);
    StepFirst(e, Store(0), []);
    StepFirst(d, Store(0), [Store(0)] + []);
    StepFirst(c, Load(0, Prpl, true), [Store(0)] + ([Store(0)] + []));
    StepFirst(b, Load(0, Prpl, true), [Load(0, Prpl, true)] + ([Store(0)] + ([Store(0)] + [])));
    ts := [Load(0, Prpl, true)] + ([Load(0, Prpl, true)] + ([Store(0)] + ([Store(0)] + [])));
    StepFirst(a, Grow(0, Prpl, 1), ts);
    ts := [Grow(0, Prpl, 1)] + ts;
    StepFirst(s, Grow(0, Prpl, 0), ts);
    ts := [Grow(0, Prpl, 0)] + ts;
    CountersAddUp(s, ts, Prpl);
    NoneUnderway(multiset{}, Prpl, f.n);
  }
}
