/** Pairwise netting of a group's directed debt ledger: the "Simplify the
    Ledger" step of getGroupExpenses (convex/groups.js). For every unordered
    pair of members the two opposite debts are collapsed into one
    non-negative debt in the direction of the difference. The netting is
    strictly pairwise: a cycle A -> B -> C -> A with one direction per pair is
    left as it is. */
module Netting {
  import opened Records

  /** `ledger[a][b]`, how much `a` owes `b`, keyed by the ordered pair. */
  type Ledger = map<(UserId, UserId), int>

  /** The ledger holds one entry per ordered pair of distinct members and
      nothing else, as the initialisation loop of getGroupExpenses builds it. */
  ghost predicate Shaped(ids: seq<UserId>, l: Ledger) {
    forall a, b :: (a, b) in l <==> a in ids && b in ids && a != b
  }

  /** Every entry has its reverse entry. */
  ghost predicate Symmetric(l: Ledger) {
    forall k :: k in l ==> (k.1, k.0) in l
  }

  lemma ShapedIsSymmetric(ids: seq<UserId>, l: Ledger)
    requires Shaped(ids, l)
    ensures Symmetric(l)
  {
    forall k | k in l ensures (k.1, k.0) in l {
      assert (k.0, k.1) in l;
    }
  }

  lemma ShapedHasPair(ids: seq<UserId>, l: Ledger, a: UserId, b: UserId)
    requires Shaped(ids, l) && a in ids && b in ids && a != b
    ensures (a, b) in l && (b, a) in l
  {
  }

  function Pos(x: int): int {
    if x > 0 then x else 0
  }

  /** The netted ledger, stated pointwise: `a` owes `b` the positive part of
      `ledger[a][b] - ledger[b][a]`. */
  function Netted(l: Ledger): (r: Ledger)
    requires Symmetric(l)
    ensures r.Keys == l.Keys
    ensures Symmetric(r)
    ensures forall k :: k in r ==> r[k] >= 0
    ensures forall k :: k in r ==> r[k] == 0 || r[(k.1, k.0)] == 0
    ensures forall k :: k in r ==> r[k] - r[(k.1, k.0)] == l[k] - l[(k.1, k.0)]
  {
    map k | k in l :: Pos(l[k] - l[(k.1, k.0)])
  }

  /** After netting: no entry is negative and of two opposite entries at most
      one is positive. */
  ghost predicate OneSided(l: Ledger)
    requires Symmetric(l)
  {
    forall k :: k in l ==> l[k] >= 0 && (l[k] == 0 || l[(k.1, k.0)] == 0)
  }

  /** Whether the pair of positions `p`, `q` of `ids` has been netted once the
      outer loop is at `i` and the inner loop at `j`: the pair is netted when
      the outer loop stands on its lexicographically smaller id. */
  ghost predicate Done(ids: seq<UserId>, i: int, j: int, p: nat, q: nat)
    requires p < |ids| && q < |ids|
  {
    var lo := if LexLess(ids[p], ids[q]) then p else q;
    var hi := if LexLess(ids[p], ids[q]) then q else p;
    lo < i || (lo == i && hi < j)
  }

  /** The invariant of the netting loops: pairs already visited hold their
      netted value, the others their original value. */
  ghost predicate NettedUpTo(ids: seq<UserId>, l0: Ledger, l: Ledger, i: int, j: int)
    requires Shaped(ids, l0)
  {
    && l.Keys == l0.Keys
    && forall p, q :: 0 <= p < |ids| && 0 <= q < |ids| && p != q ==>
         (ids[p], ids[q]) in l0 && (ids[p], ids[q]) in l &&
         l[(ids[p], ids[q])] ==
           if Done(ids, i, j, p, q) then Pos(l0[(ids[p], ids[q])] - l0[(ids[q], ids[p])])
           else l0[(ids[p], ids[q])]
  }

  /** One step of the inner loop: visiting positions `i`, `j` nets that pair
      when `ids[i] < ids[j]` and leaves the ledger alone otherwise. */
  lemma NettedUpToStep(ids: seq<UserId>, l0: Ledger, l: Ledger, i: nat, j: nat, l': Ledger)
    requires Distinct(ids) && Shaped(ids, l0) && i < |ids| && j < |ids|
    requires NettedUpTo(ids, l0, l, i, j)
    requires i != j && LexLess(ids[i], ids[j]) ==> l' == NetPairValue(l, ids[i], ids[j])
    requires !(i != j && LexLess(ids[i], ids[j])) ==> l' == l
    ensures NettedUpTo(ids, l0, l', i, j + 1)
  {
    forall p, q | 0 <= p < |ids| && 0 <= q < |ids| && p != q
      ensures (ids[p], ids[q]) in l'
      ensures l'[(ids[p], ids[q])] ==
                if Done(ids, i, j + 1, p, q) then Pos(l0[(ids[p], ids[q])] - l0[(ids[q], ids[p])])
                else l0[(ids[p], ids[q])]
    {
      StepPair(ids, l0, l, i, j, l', p, q);
    }
  }

  /** `NettedUpToStep` for the single pair of positions `p`, `q`. */
  lemma StepPair(ids: seq<UserId>, l0: Ledger, l: Ledger, i: nat, j: nat, l': Ledger, p: nat, q: nat)
    requires Distinct(ids) && i < |ids| && j < |ids| && p < |ids| && q < |ids| && p != q
    requires l.Keys == l0.Keys
    requires (ids[p], ids[q]) in l0 && (ids[q], ids[p]) in l0 && (i != j ==> (ids[i], ids[j]) in l0 && (ids[j], ids[i]) in l0)
    requires l[(ids[p], ids[q])] ==
               if Done(ids, i, j, p, q) then Pos(l0[(ids[p], ids[q])] - l0[(ids[q], ids[p])])
               else l0[(ids[p], ids[q])]
    requires l[(ids[q], ids[p])] ==
               if Done(ids, i, j, q, p) then Pos(l0[(ids[q], ids[p])] - l0[(ids[p], ids[q])])
               else l0[(ids[q], ids[p])]
    requires i != j && LexLess(ids[i], ids[j]) ==> l' == NetPairValue(l, ids[i], ids[j])
    requires !(i != j && LexLess(ids[i], ids[j])) ==> l' == l
    ensures (ids[p], ids[q]) in l'
    ensures l'[(ids[p], ids[q])] ==
              if Done(ids, i, j + 1, p, q) then Pos(l0[(ids[p], ids[q])] - l0[(ids[q], ids[p])])
              else l0[(ids[p], ids[q])]
  {
    LexLessTotal(ids[p], ids[q]);
    assert Done(ids, i, j, q, p) == Done(ids, i, j, p, q);
    if (p == i && q == j) || (p == j && q == i) {
      LexLessTotal(ids[i], ids[j]);
    } else {
      assert (ids[p], ids[q]) != (ids[i], ids[j]) && (ids[p], ids[q]) != (ids[j], ids[i]);
    }
  }

  /** Before the loops nothing is netted. */
  lemma NettedUpToStart(ids: seq<UserId>, l0: Ledger)
    requires Distinct(ids) && Shaped(ids, l0)
    ensures NettedUpTo(ids, l0, l0, 0, 0)
  {
    forall p, q | 0 <= p < |ids| && 0 <= q < |ids| && p != q
      ensures (ids[p], ids[q]) in l0
    {
      assert ids[p] in ids && ids[q] in ids;
    }
  }

  /** The invariant keeps every pair of distinct positions in the ledger. */
  lemma NettedUpToHasPair(ids: seq<UserId>, l0: Ledger, l: Ledger, i: int, j: int, p: nat, q: nat)
    requires Shaped(ids, l0) && NettedUpTo(ids, l0, l, i, j)
    requires p < |ids| && q < |ids| && p != q
    ensures (ids[p], ids[q]) in l && (ids[q], ids[p]) in l
  {
  }

  /** The end of a row is the start of the next one. */
  lemma NettedUpToNextRow(ids: seq<UserId>, l0: Ledger, l: Ledger, i: int)
    requires Shaped(ids, l0) && NettedUpTo(ids, l0, l, i, |ids|)
    ensures NettedUpTo(ids, l0, l, i + 1, 0)
  {
    forall p, q | 0 <= p < |ids| && 0 <= q < |ids| && p != q
      ensures Done(ids, i, |ids|, p, q) == Done(ids, i + 1, 0, p, q)
    {
    }
  }

  /** Once every row is visited the ledger is the netted ledger. */
  lemma NettedUpToAll(ids: seq<UserId>, l0: Ledger, l: Ledger)
    requires Shaped(ids, l0) && NettedUpTo(ids, l0, l, |ids|, 0)
    ensures Symmetric(l0) && l == Netted(l0)
  {
    ShapedIsSymmetric(ids, l0);
    forall k | k in l0 ensures l[k] == Netted(l0)[k] {
      var p :| 0 <= p < |ids| && ids[p] == k.0;
      var q :| 0 <= q < |ids| && ids[q] == k.1;
      assert Done(ids, |ids|, 0, p, q);
    }
  }

  /** The two entries of one pair after netting: the owing side holds the
      difference, the other side zero. */
  function NetPairValue(l: Ledger, a: UserId, b: UserId): Ledger
    requires (a, b) in l && (b, a) in l
  {
    var d := l[(a, b)] - l[(b, a)];
    l[(a, b) := Pos(d)][(b, a) := Pos(-d)]
  }

  /** The body of the inner loop for one pair `a < b` (lines 139-152): a
      positive difference means `a` owes `b`, a negative one that `b` owes
      `a`, and an even pair has both entries cleared. */
  method NetPair(l0: Ledger, a: UserId, b: UserId) returns (l: Ledger)
    requires (a, b) in l0 && (b, a) in l0 && a != b
    ensures l == NetPairValue(l0, a, b)
    ensures l[(a, b)] >= 0 && l[(b, a)] >= 0 && (l[(a, b)] == 0 || l[(b, a)] == 0)
    ensures l[(a, b)] - l[(b, a)] == l0[(a, b)] - l0[(b, a)]
  {
    var diff := l0[(a, b)] - l0[(b, a)];
    if diff > 0 {
      l := l0[(a, b) := diff][(b, a) := 0];
    } else if diff < 0 {
      l := l0[(b, a) := -diff][(a, b) := 0];
    } else {
      l := l0[(a, b) := 0][(b, a) := 0];
    }
  }

  /** One turn of the inner loop (lines 136-152): `if (a >= b) return`, so
      only the pair with `ids[i] < ids[j]` is netted. */
  method VisitPair(ids: seq<UserId>, ghost l0: Ledger, l: Ledger, i: nat, j: nat) returns (l': Ledger)
    requires Distinct(ids) && Shaped(ids, l0) && i < |ids| && j < |ids|
    requires NettedUpTo(ids, l0, l, i, j)
    ensures NettedUpTo(ids, l0, l', i, j + 1)
  {
    var a, b := ids[i], ids[j];
    LexLessTotal(a, b);
    l' := l;
    if LexLess(a, b) {
      NettedUpToHasPair(ids, l0, l, i, j, i, j);
      l' := NetPair(l, a, b);
    }
    NettedUpToStep(ids, l0, l, i, j, l');
  }

  /** The nested `ids.forEach` loops of lines 134-154. Each unordered pair is
      netted exactly once, when `a < b`; the result is the pointwise `Netted`
      ledger. */
  method Simplify(ids: seq<UserId>, l0: Ledger) returns (l: Ledger)
    requires Distinct(ids) && Shaped(ids, l0)
    ensures Symmetric(l0) && l == Netted(l0)
  {
    l := l0;
    NettedUpToStart(ids, l0);
    var n := |ids|;
    var i := 0;
    while i < n
      invariant 0 <= i <= n
      invariant NettedUpTo(ids, l0, l, i, 0)
    {
      var j := 0;
      while j < n
        invariant 0 <= j <= n
        invariant NettedUpTo(ids, l0, l, i, j)
      {
        l := VisitPair(ids, l0, l, i, j);
        j := j + 1;
      }
      NettedUpToNextRow(ids, l0, l, i);
      i := i + 1;
    }
    NettedUpToAll(ids, l0, l);
  }

  /** Netting a ledger that already has one direction per pair changes
      nothing: such a ledger is its own netted form. */
  lemma NettedFixesOneSided(l: Ledger)
    requires Symmetric(l) && OneSided(l)
    ensures Netted(l) == l
  {
    forall k | k in l ensures Netted(l)[k] == l[k] {
      assert l[k] >= 0 && l[(k.1, k.0)] >= 0;
    }
  }

  /** Netting is idempotent: running the netting on its own output changes
      nothing. */
  lemma NettedIdempotent(l: Ledger)
    requires Symmetric(l)
    ensures Netted(Netted(l)) == Netted(l)
  {
    NettedFixesOneSided(Netted(l));
  }

  /** A settlement of a non-negative amount from `a` to `b` lowers
      `ledger[a][b]` before netting, so after netting `a` never owes `b`
      more than without it, and `b` never owes `a` less. */
  lemma SettlementNeverRaisesNetDebt(l: Ledger, a: UserId, b: UserId, amount: int)
    requires Symmetric(l) && (a, b) in l && a != b && amount >= 0
    ensures Symmetric(l[(a, b) := l[(a, b)] - amount])
    ensures Netted(l[(a, b) := l[(a, b)] - amount])[(a, b)] <= Netted(l)[(a, b)]
    ensures Netted(l[(a, b) := l[(a, b)] - amount])[(b, a)] >= Netted(l)[(b, a)]
  {
    var l' := l[(a, b) := l[(a, b)] - amount];
    assert (b, a) in l;
    assert l'[(b, a)] == l[(b, a)];
  }

  /** Orientation does not matter: whichever of the two opposite entries is
      positive after netting holds the absolute difference of the originals. */
  lemma NettedMagnitude(l: Ledger, a: UserId, b: UserId)
    requires Symmetric(l) && (a, b) in l
    ensures Netted(l)[(a, b)] + Netted(l)[(b, a)] == if l[(a, b)] >= l[(b, a)] then l[(a, b)] - l[(b, a)] else l[(b, a)] - l[(a, b)]
  {
  }

  /** The circular example of lines 124-133 (user1 owes user2 10, user2 owes
      user3 15, user3 owes user1 5): each pair has one direction only, so
      the per-pair netting leaves all three debts as they are; user1 still
      owes user2 10, not 5. */
  lemma CycleIsLeftAsIs()
    ensures var l := map[("user1", "user2") := 10, ("user2", "user1") := 0,
                         ("user2", "user3") := 15, ("user3", "user2") := 0,
                         ("user3", "user1") := 5, ("user1", "user3") := 0];
            && Symmetric(l)
            && Netted(l) == l
            && Netted(l)[("user1", "user2")] == 10
  {
    var l := map[("user1", "user2") := 10, ("user2", "user1") := 0,
                 ("user2", "user3") := 15, ("user3", "user2") := 0,
                 ("user3", "user1") := 5, ("user1", "user3") := 0];
    assert Symmetric(l);
    NettedFixesOneSided(l);
  }
}
