/** The linked lists behind the DMA machine: blocks are chained through a link word of their own,
    a list is a head word, and a per-CPU-pair list also keeps its last block and its length so
    that the whole of it can be spliced onto a shared list in one operation. */
module DmaLinks {
  import opened DmaMachine

  const NULL: int := -1

  datatype Links = Links(next: map<int, int>, heads: map<Place, int>, last: map<Place, int>, size: map<Place, int>)

  function After(l: seq<Block>, i: nat): int { if i + 1 < |l| then l[i + 1] else NULL }

  /** Following the links from head goes through exactly l. */
  predicate Chained(next: map<int, int>, head: int, l: seq<Block>) {
    && head == (if l == [] then NULL else l[0])
    && forall i | 0 <= i < |l| :: l[i] in next && next[l[i]] == After(l, i)
  }

  lemma ChainedFrame(next: map<int, int>, next': map<int, int>, head: int, l: seq<Block>)
    requires Chained(next, head, l) && forall b | b in l && b in next :: b in next' && next'[b] == next[b]
    ensures Chained(next', head, l)
  {
  }

  lemma ChainedEmpty(next: map<int, int>)
    ensures Chained(next, NULL, [])
  {
  }

  lemma ChainedFront(next: map<int, int>, head: int, l: seq<Block>, b: Block)
    requires Chained(next, head, l) && b !in l
    ensures Chained(next[b := head], b, [b] + l)
  {
    var m := [b] + l;
    forall i | 0 <= i < |m| ensures m[i] in next[b := head] && next[b := head][m[i]] == After(m, i) {
      if i > 0 { assert m[i] == l[i - 1] && After(m, i) == After(l, i - 1); }
    }
  }

  lemma ChainedPop(next: map<int, int>, head: int, l: seq<Block>)
    requires Chained(next, head, l) && l != []
    ensures head == l[0] && l[0] in next && Chained(next, next[l[0]], l[1..])
  {
    assert next[l[0]] == After(l, 0);
    forall i | 0 <= i < |l[1..]| ensures l[1..][i] in next && next[l[1..][i]] == After(l[1..], i) {
      assert l[1..][i] == l[i + 1] && After(l[1..], i) == After(l, i + 1);
    }
  }

  /** llist_add_batch: one link write joins the two lists, provided it is made in the true last
      block of the first. */
  lemma ChainedSplice(next: map<int, int>, a: seq<Block>, heada: int, b: seq<Block>, headb: int)
    requires Chained(next, heada, a) && Chained(next, headb, b) && a != [] && Distinct(a) && forall x | x in a :: x !in b
    ensures Chained(next[a[|a| - 1] := headb], heada, a + b)
  {
    var l, k := a + b, |a| - 1;
    var next' := next[a[k] := headb];
    forall i | 0 <= i < |l| ensures l[i] in next' && next'[l[i]] == After(l, i) {
      if i < k {
        assert a[i] != a[k] && After(l, i) == After(a, i);
      } else if i > k {
        assert b[i - |a|] in b && a[k] in a && After(l, i) == After(b, i - |a|);
      }
    }
  }

  ghost predicate ListOk(k: Links, s: State, p: Place)
    requires p in s.lists
  {
    p in k.heads && Chained(k.next, k.heads[p], s.lists[p])
  }

  /** The links spell out the lists of the machine. */
  ghost predicate Tied(k: Links, s: State) {
    forall p | p in s.lists && p.InTransit() :: ListOk(k, s, p)
  }

  /** `last` is the true tail and `size` the true length of every local list. */
  ghost predicate Tailed(last: map<Place, int>, size: map<Place, int>, s: State) {
    forall p | p in s.lists && p.Local? ::
      && p in last && p in size && size[p] == |s.lists[p]|
      && last[p] == if s.lists[p] == [] then NULL else s.lists[p][|s.lists[p]| - 1]
  }

  ghost predicate LocalsKept(s: State, t: State) {
    t.lists.Keys == s.lists.Keys && forall p | p in s.lists && p.Local? :: p in t.lists && t.lists[p] == s.lists[p]
  }

  lemma TailedSame(last: map<Place, int>, size: map<Place, int>, s: State, t: State)
    requires Tailed(last, size, s) && LocalsKept(s, t)
    ensures Tailed(last, size, t)
  {
    assert forall p | p in t.lists :: p in s.lists.Keys;
  }

  // ---------------------------------------------------------------- the operations on the links

  /** __llist_add onto a local list, with its last block and length. */
  function Push(k: Links, p: Place, b: Block): Links
    requires p in k.heads && p in k.last && p in k.size
  {
    Links(k.next[b := k.heads[p]], k.heads[p := b],
          if k.last[p] == NULL then k.last[p := b] else k.last, k.size[p := k.size[p] + 1])
  }

  /** __llist_del_all, llist_add_batch and the reset of the local list. */
  function Flush(k: Links, p: Place, q: Place): Links
    requires p in k.heads && q in k.heads && p in k.last && k.last[p] >= 0
  {
    Links(k.next[k.last[p] := k.heads[q]], k.heads[p := NULL][q := k.heads[p]], k.last[p := NULL], k.size[p := 0])
  }

  /** The whole list of p becomes the list of q. */
  function Hand(k: Links, p: Place, q: Place): Links
    requires p in k.heads && q in k.heads
  {
    k.(heads := k.heads[q := k.heads[p]][p := NULL])
  }

  function Pop(k: Links, p: Place): Links
    requires p in k.heads && k.heads[p] >= 0 && k.heads[p] in k.next
  {
    k.(heads := k.heads[p := k.next[k.heads[p]]])
  }

  lemma ListOkFrame(k: Links, s: State, k': Links, s': State, p: Place)
    requires p in s.lists && p in s'.lists && ListOk(k, s, p) && s'.lists[p] == s.lists[p]
    requires p in k'.heads && k'.heads[p] == k.heads[p]
    requires forall b | b in s.lists[p] && b in k.next :: b in k'.next && k'.next[b] == k.next[b]
    ensures ListOk(k', s', p)
  {
    ChainedFrame(k.next, k'.next, k.heads[p], s.lists[p]);
  }

  lemma Disjoint(s: State, p: Place, q: Place)
    requires Inv(s) && p in s.lists && q in s.lists && p != q
    ensures Distinct(s.lists[p]) && forall b | b in s.lists[p] :: b !in s.lists[q]
  {
    assert Holds(s.lists[p], s.at, p) && Holds(s.lists[q], s.at, q);
  }

  lemma PushKeepsTied(k: Links, s: State, p: Place, i: nat)
    requires Inv(s) && Tied(k, s) && Tailed(k.last, k.size, s)
    requires User in s.lists && i < |s.lists[User]| && p in s.lists && p.Local?
    ensures ListOk(k, s, p)
    ensures var k' := Push(k, p, s.lists[User][i]); Tied(k', Leave(s, i, p)) && Tailed(k'.last, k'.size, Leave(s, i, p))
  {
    hide Inv, Chained, Distinct;
    var b, s' := s.lists[User][i], Leave(s, i, p);
    assert ListOk(k, s, p);
    var k' := Push(k, p, b);
    Disjoint(s, User, p);
    ChainedFront(k.next, k.heads[p], s.lists[p], b);
    assert ListOk(k', s', p);
    forall q | q in s'.lists && q.InTransit() && q != p ensures ListOk(k', s', q) {
      Disjoint(s, User, q);
      ListOkFrame(k, s, k', s', q);
    }
  }

  lemma FlushKeepsTied(k: Links, s: State, p: Place, q: Place)
    requires Inv(s) && Tied(k, s) && p in s.lists && q in s.lists && p.Local? && q.Shared? && s.lists[p] != []
    requires p in k.last && k.last[p] == s.lists[p][|s.lists[p]| - 1]
    ensures ListOk(k, s, p) && ListOk(k, s, q) && Tied(Flush(k, p, q), AllTo(s, p, q))
  {
    hide Inv, Chained, Distinct;
    assert ListOk(k, s, p) && ListOk(k, s, q);
    var k', s' := Flush(k, p, q), AllTo(s, p, q);
    Disjoint(s, p, q);
    ChainedSplice(k.next, s.lists[p], k.heads[p], s.lists[q], k.heads[q]);
    ChainedEmpty(k'.next);
    assert ListOk(k', s', q) && ListOk(k', s', p);
    forall r | r in s'.lists && r.InTransit() && r != p && r != q ensures ListOk(k', s', r) {
      Disjoint(s, r, p);
      ListOkFrame(k, s, k', s', r);
    }
  }

  lemma FlushKeepsTailed(last: map<Place, int>, size: map<Place, int>, s: State, p: Place, q: Place)
    requires Tailed(last, size, s) && p in s.lists && q in s.lists && p.Local? && q.Shared?
    ensures Tailed(last[p := NULL], size[p := 0], AllTo(s, p, q))
  {
  }

  lemma HandKeepsTied(k: Links, s: State, p: Place, q: Place)
    requires Inv(s) && Tied(k, s) && p in s.lists && q in s.lists && p != q && s.lists[q] == []
    requires p.InTransit() && q.InTransit() && !p.Local? && !q.Local?
    ensures ListOk(k, s, p) && ListOk(k, s, q) && Tied(Hand(k, p, q), AllTo(s, p, q))
  {
    hide Inv, Distinct;
    assert ListOk(k, s, p) && ListOk(k, s, q);
    var k', s' := Hand(k, p, q), AllTo(s, p, q);
    assert s'.lists[q] == s.lists[p];
    forall r | r in s'.lists && r.InTransit() && r != p && r != q ensures ListOk(k', s', r) {
      ListOkFrame(k, s, k', s', r);
    }
  }

  lemma PopKeepsTied(k: Links, s: State, p: Place)
    requires Inv(s) && Tied(k, s) && p in s.lists && p.InTransit() && !p.Local? && s.lists[p] != []
    ensures ListOk(k, s, p) && k.heads[p] == s.lists[p][0] && s.lists[p][0] in k.next
    ensures Tied(Pop(k, p), ToPool(s, p))
  {
    assert ListOk(k, s, p);
    var k', s' := Pop(k, p), ToPool(s, p);
    ChainedPop(k.next, k.heads[p], s.lists[p]);
    assert s'.lists[p] == s.lists[p][1..];
    forall r | r in s'.lists && r.InTransit() && r != p ensures ListOk(k', s', r) {
      ListOkFrame(k, s, k', s', r);
    }
  }
}
