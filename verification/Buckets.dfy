/** The bucketed FIFO pool as a value, and what it means to split it into players
    taken out and players left behind. */
module Buckets {
  import opened Base
  import opened Optimizer

  datatype GridShape = GridShape(width: nat, total: nat)

  /** Startup refuses a bucket width or a number of buckets of zero. */
  type Grid = g: GridShape | g.width > 0 && g.total > 0 witness GridShape(1, 1)

  type Queues = seq<seq<Player>>

  function BucketIndex(g: Grid, rating: u32): (b: nat)
    ensures b < g.total
  {
    Min(rating / g.width, g.total - 1)
  }

  function Home(g: Grid, p: Player): (b: nat)
    ensures b < g.total
  {
    BucketIndex(g, p.rating)
  }

  /** A bucket other than the last holds exactly one band of ratings; the last takes
      everything from its lower edge up. */
  lemma BucketBand(g: Grid, rating: u32, b: nat)
    requires b < g.total
    ensures b < g.total - 1 ==> (BucketIndex(g, rating) == b <==> b * g.width <= rating < (b + 1) * g.width)
    ensures b == g.total - 1 ==> (BucketIndex(g, rating) == b <==> b * g.width <= rating)
  {
    var q := rating / g.width;
    assert q * g.width <= rating < (q + 1) * g.width by {
      assert rating == q * g.width + rating % g.width;
    }
    Scale(b, q, g.width);
    Scale(b + 1, q, g.width);
    Scale(q + 1, b, g.width);
    Scale(q, b, g.width);
  }

  lemma Scale(a: nat, b: nat, w: nat)
    ensures a <= b ==> a * w <= b * w
  {
  }

  /** Every player waits in the bucket of their own rating. */
  ghost predicate Placed(g: Grid, qs: Queues) {
    |qs| == g.total && forall b, i :: 0 <= b < |qs| && 0 <= i < |qs[b]| ==> Home(g, qs[b][i]) == b
  }

  /** The players of `ps` at home in bucket `b`, in order. */
  function From(g: Grid, ps: seq<Player>, b: nat): seq<Player> {
    if ps == [] then [] else (if Home(g, ps[0]) == b then [ps[0]] else []) + From(g, ps[1..], b)
  }

  lemma {:induction false} FromConcat(g: Grid, x: seq<Player>, y: seq<Player>, b: nat)
    ensures From(g, x + y, b) == From(g, x, b) + From(g, y, b)
  {
    if x == [] {
      assert x + y == y;
    } else {
      assert (x + y)[1..] == x[1..] + y;
      FromConcat(g, x[1..], y, b);
    }
  }

  lemma FromNext(g: Grid, ps: seq<Player>, i: nat, b: nat)
    requires i < |ps|
    ensures From(g, ps[..i + 1], b) == From(g, ps[..i], b) + (if Home(g, ps[i]) == b then [ps[i]] else [])
  {
    assert ps[..i + 1] == ps[..i] + [ps[i]];
    FromConcat(g, ps[..i], [ps[i]], b);
    FromSame(g, [ps[i]], Home(g, ps[i]), b);
  }

  lemma {:induction false} FromSame(g: Grid, ps: seq<Player>, home: nat, b: nat)
    requires forall i :: 0 <= i < |ps| ==> Home(g, ps[i]) == home
    ensures From(g, ps, b) == if b == home then ps else []
  {
    if ps != [] {
      FromSame(g, ps[1..], home, b);
    }
  }

  /** Which of the players those are: the places of exactly the ones whose rating names the
      bucket, in order. */
  lemma {:induction false} FromPlaces(g: Grid, ps: seq<Player>, b: nat) returns (at: seq<nat>)
    ensures |at| == |From(g, ps, b)|
    ensures forall k :: 0 <= k < |at| ==> at[k] < |ps| && From(g, ps, b)[k] == ps[at[k]]
    ensures forall j, k :: 0 <= j < k < |at| ==> at[j] < at[k]
    ensures forall i :: 0 <= i < |ps| ==> (BucketIndex(g, ps[i].rating) == b <==> i in at)
    decreases |ps|
  {
    at := [];
    if ps != [] {
      hide *;
      var n := |ps| - 1;
      at := FromPlaces(g, ps[..n], b);
      FromLast(g, ps, b);
      if BucketIndex(g, ps[n].rating) == b {
        at := at + [n];
      }
    }
  }

  lemma FromLast(g: Grid, ps: seq<Player>, b: nat)
    requires ps != []
    ensures var n := |ps| - 1;
            From(g, ps, b) == From(g, ps[..n], b) + if BucketIndex(g, ps[n].rating) == b then [ps[n]] else []
  {
    var n := |ps| - 1;
    assert ps == ps[..n] + [ps[n]];
    FromConcat(g, ps[..n], [ps[n]], b);
    FromSame(g, [ps[n]], Home(g, ps[n]), b);
    hide From;
    hide BucketIndex;
  }

  /** `ps` taken out of `whole` leaves `qs`: bucket by bucket, the taken players are a
      prefix and the rest follow, both in their old order. */
  ghost predicate Divides(g: Grid, whole: Queues, ps: seq<Player>, qs: Queues) {
    |whole| == |qs| == g.total && forall b :: 0 <= b < g.total ==> whole[b] == From(g, ps, b) + qs[b]
  }

  lemma NothingTaken(g: Grid, qs: Queues)
    requires |qs| == g.total
    ensures Divides(g, qs, [], qs)
  {
  }

  /** Popping the front of one bucket. */
  lemma TakeDivides(g: Grid, whole: Queues, ps: seq<Player>, qs: Queues, b: nat, n: nat)
    requires Placed(g, qs) && Divides(g, whole, ps, qs) && b < g.total && n <= |qs[b]|
    ensures Divides(g, whole, ps + qs[b][..n], qs[b := qs[b][n..]])
    ensures Placed(g, qs[b := qs[b][n..]])
  {
    var front, rest := qs[b][..n], qs[b][n..];
    assert qs[b] == front + rest;
    forall c | 0 <= c < g.total
      ensures whole[c] == From(g, ps + front, c) + qs[b := rest][c]
    {
      assert whole[c] == From(g, ps, c) + qs[c];
      TakenAt(g, ps, front, rest, b, c);
    }
  }

  lemma TakenAt(g: Grid, ps: seq<Player>, front: seq<Player>, rest: seq<Player>, b: nat, c: nat)
    requires forall i :: 0 <= i < |front| ==> Home(g, front[i]) == b
    ensures c == b ==> From(g, ps, c) + (front + rest) == From(g, ps + front, c) + rest
    ensures c != b ==> From(g, ps, c) == From(g, ps + front, c)
  {
    FromConcat(g, ps, front, c);
    FromSame(g, front, b, c);
  }

  lemma FromNone(g: Grid, ps: seq<Player>)
    ensures forall b :: From(g, ps[..0], b) == []
  {
  }

  /** Appending the next player of `ps` to their bucket. */
  lemma AppendNext(g: Grid, was: Queues, qs: Queues, ps: seq<Player>, i: nat)
    requires |was| == |qs| == g.total && i < |ps|
    requires forall b :: 0 <= b < g.total ==> qs[b] == was[b] + From(g, ps[..i], b)
    ensures var h := Home(g, ps[i]);
            forall b :: 0 <= b < g.total ==> qs[h := qs[h] + [ps[i]]][b] == was[b] + From(g, ps[..i + 1], b)
  {
    var h := Home(g, ps[i]);
    forall b | 0 <= b < g.total ensures qs[h := qs[h] + [ps[i]]][b] == was[b] + From(g, ps[..i + 1], b) {
      FromNext(g, ps, i, b);
    }
  }

  /** Pushing the last player taken back to the front of their bucket. */
  lemma PutDivides(g: Grid, whole: Queues, ps: seq<Player>, p: Player, qs: Queues)
    requires Placed(g, qs) && Divides(g, whole, ps + [p], qs)
    ensures var b := Home(g, p); Divides(g, whole, ps, qs[b := [p] + qs[b]])
                                 && Placed(g, qs[b := [p] + qs[b]])
  {
    var b := Home(g, p);
    forall c | 0 <= c < g.total
      ensures whole[c] == From(g, ps, c) + qs[b := [p] + qs[b]][c]
    {
      FromConcat(g, ps, [p], c);
      FromSame(g, [p], b, c);
    }
  }

  /** A new arrival at the back of one bucket. */
  lemma ArriveDivides(g: Grid, whole: Queues, ps: seq<Player>, p: Player, qs: Queues)
    requires Placed(g, qs) && Divides(g, whole, ps, qs)
    ensures var b := Home(g, p); Divides(g, whole[b := whole[b] + [p]], ps, qs[b := qs[b] + [p]])
                                 && Placed(g, qs[b := qs[b] + [p]])
  {
  }

  // ---- Concatenating buckets in an order ----

  ghost predicate Indices(order: seq<nat>, total: nat) {
    forall i :: 0 <= i < |order| ==> order[i] < total
  }

  ghost predicate Distinct(order: seq<nat>) {
    forall i, j :: 0 <= i < j < |order| ==> order[i] != order[j]
  }

  /** The queues one after the other in the given order. */
  function Flat(qs: Queues, order: seq<nat>): seq<Player>
    requires Indices(order, |qs|)
  {
    if order == [] then [] else qs[order[0]] + Flat(qs, order[1..])
  }

  lemma {:induction false} FlatConcat(qs: Queues, x: seq<nat>, y: seq<nat>)
    requires Indices(x, |qs|) && Indices(y, |qs|)
    ensures Flat(qs, x + y) == Flat(qs, x) + Flat(qs, y)
  {
    if x == [] {
      assert x + y == y;
    } else {
      assert (x + y)[1..] == x[1..] + y;
      FlatConcat(qs, x[1..], y);
    }
  }

  /** The first occurrence of each bucket of an order. */
  function Firsts(order: seq<nat>): (r: seq<nat>)
    ensures forall b :: b in r <==> b in order
  {
    if order == [] then [] else
    var n := |order| - 1;
    var r := Firsts(order[..n]);
    assert order == order[..n] + [order[n]];
    if order[n] in order[..n] then r else r + [order[n]]
  }

  lemma FirstsIndices(order: seq<nat>, total: nat)
    requires Indices(order, total)
    ensures Indices(Firsts(order), total)
  {
    forall i | 0 <= i < |Firsts(order)| ensures Firsts(order)[i] < total {
      assert Firsts(order)[i] in order;
    }
  }

  lemma {:induction false} FirstsOfDistinct(order: seq<nat>)
    requires Distinct(order)
    ensures Firsts(order) == order
  {
    if order != [] {
      var n := |order| - 1;
      assert order == order[..n] + [order[n]];
      FirstsOfDistinct(order[..n]);
    }
  }

  lemma {:induction false} FirstsDistinct(order: seq<nat>)
    ensures Distinct(Firsts(order))
  {
    if order != [] {
      FirstsDistinct(order[..|order| - 1]);
    }
  }

  lemma {:induction false} FirstsPrefix(x: seq<nat>, y: seq<nat>)
    requires x <= y
    ensures Firsts(x) <= Firsts(y)
    decreases |y|
  {
    if x != y {
      FirstsPrefix(x, y[..|y| - 1]);
    }
  }

  /** What draining the buckets of an order one after the other yields: a bucket met again
      has no more to give. */
  function Visited(qs: Queues, order: seq<nat>): seq<Player>
    requires Indices(order, |qs|)
  {
    FirstsIndices(order, |qs|);
    Flat(qs, Firsts(order))
  }

  lemma VisitedPrefix(qs: Queues, x: seq<nat>, y: seq<nat>)
    requires x <= y && Indices(y, |qs|)
    ensures Visited(qs, x) <= Visited(qs, y)
  {
    FirstsPrefix(x, y);
    FirstsIndices(y, |qs|);
    var fx, fy := Firsts(x), Firsts(y);
    assert fy == fx + fy[|fx|..];
    FlatConcat(qs, fx, fy[|fx|..]);
  }

  lemma VisitedHead(qs: Queues, order: seq<nat>)
    requires order != [] && Indices(order, |qs|)
    ensures qs[order[0]] <= Visited(qs, order)
  {
    VisitedNext(qs, order, 0);
    assert order[..0] == [] && Visited(qs, []) == [];
    VisitedPrefix(qs, order[..1], order);
  }

  lemma VisitedNext(qs: Queues, order: seq<nat>, pos: nat)
    requires Indices(order, |qs|) && pos < |order|
    ensures Visited(qs, order[..pos + 1])
         == Visited(qs, order[..pos]) + (if order[pos] in order[..pos] then [] else qs[order[pos]])
  {
    var seen := order[..pos];
    assert order[..pos + 1][..pos] == seen && order[..pos + 1][pos] == order[pos];
    FirstsIndices(seen, |qs|);
    if order[pos] !in seen {
      FlatConcat(qs, Firsts(seen), [order[pos]]);
      assert Flat(qs, [order[pos]]) == qs[order[pos]];
    }
  }

  /** How many players wait in the listed buckets. */
  function Depth(qs: Queues, order: seq<nat>): nat
    requires Indices(order, |qs|)
  {
    if order == [] then 0 else |qs[order[0]]| + Depth(qs, order[1..])
  }

  lemma {:induction false} DepthConcat(qs: Queues, x: seq<nat>, y: seq<nat>)
    requires Indices(x, |qs|) && Indices(y, |qs|)
    ensures Depth(qs, x + y) == Depth(qs, x) + Depth(qs, y)
  {
    if x == [] {
      assert x + y == y;
    } else {
      assert (x + y)[1..] == x[1..] + y;
      DepthConcat(qs, x[1..], y);
    }
  }

  lemma {:induction false} DepthIsLength(qs: Queues, order: seq<nat>)
    requires Indices(order, |qs|)
    ensures Depth(qs, order) == |Flat(qs, order)|
  {
    if order != [] {
      DepthIsLength(qs, order[1..]);
    }
  }

  lemma DepthWithout(qs: Queues, y: seq<nat>, j: nat)
    requires Indices(y, |qs|) && j < |y|
    ensures Depth(qs, y) == |qs[y[j]]| + Depth(qs, Without(y, j))
  {
    var front, back := y[..j], y[j + 1..];
    CutAt(y, j);
    DepthConcat(qs, front, [y[j]] + back);
    DepthConcat(qs, front, back);
  }

  lemma {:induction false} DepthOfBag(qs: Queues, x: seq<nat>, y: seq<nat>)
    requires Indices(x, |qs|) && Indices(y, |qs|) && multiset(x) == multiset(y)
    ensures Depth(qs, x) == Depth(qs, y)
    decreases |x|
  {
    if x == [] {
      SameLength(x, y);
    } else {
      var j := SamePlace(x, y);
      DropSame(x, y, j);
      DepthOfBag(qs, x[1..], Without(y, j));
      DepthWithout(qs, y, j);
    }
  }

  // ---- The pool as a bag ----

  function Bag(qs: Queues): multiset<Player> {
    if qs == [] then multiset{} else multiset(qs[0]) + Bag(qs[1..])
  }

  lemma {:induction false} BagUpdate(qs: Queues, b: nat, q: seq<Player>)
    requires b < |qs|
    ensures Bag(qs[b := q]) + multiset(qs[b]) == Bag(qs) + multiset(q)
  {
    if b > 0 {
      var rest, rest' := qs[1..], qs[1..][b - 1 := q];
      assert qs[b := q][1..] == rest';
      BagUpdate(rest, b - 1, q);
      Assoc(multiset(qs[0]), Bag(rest'), multiset(qs[b]));
      Assoc(multiset(qs[0]), Bag(rest), multiset(q));
    } else {
      assert qs[b := q][1..] == qs[1..];
    }
  }

  lemma BagUpdateBy(qs: Queues, b: nat, q: seq<Player>, extra: multiset<Player>)
    requires b < |qs|
    ensures multiset(q) == multiset(qs[b]) + extra ==> Bag(qs[b := q]) == Bag(qs) + extra
    ensures multiset(q) + extra == multiset(qs[b]) ==> Bag(qs[b := q]) + extra == Bag(qs)
  {
    BagUpdate(qs, b, q);
    var before, after, m, m' := Bag(qs), Bag(qs[b := q]), multiset(qs[b]), multiset(q);
    if m' == m + extra {
      Shuffle(m, before, extra);
      Cancel(m, after, before + extra);
    }
    if m' + extra == m {
      Shuffle(m', after, extra);
      Cancel(m', after + extra, before);
    }
  }

  lemma DividesShape(g: Grid, whole: Queues, ps: seq<Player>, qs: Queues)
    requires Divides(g, whole, ps, qs)
    ensures |whole| == |qs| == g.total && (ps == [] ==> whole == qs)
  {
    assert ps == [] ==> forall b :: 0 <= b < g.total ==> whole[b] == qs[b];
  }

  /** Nobody is lost or duplicated between the pool and a pair of hands. */
  lemma {:induction false} DividesConserves(g: Grid, whole: Queues, ps: seq<Player>, qs: Queues)
    requires Placed(g, qs) && Divides(g, whole, ps, qs)
    ensures Bag(whole) == multiset(ps) + Bag(qs)
    decreases |ps|
  {
    if ps == [] {
      DividesShape(g, whole, ps, qs);
    } else {
      var n := |ps| - 1;
      var p, b := ps[n], Home(g, ps[n]);
      hide Divides;
      hide Placed;
      assert |qs| == g.total by { DividesShape(g, whole, ps, qs); }
      assert ps == ps[..n] + [p];
      PutDivides(g, whole, ps[..n], p, qs);
      DividesConserves(g, whole, ps[..n], qs[b := [p] + qs[b]]);
      BagUpdateBy(qs, b, [p] + qs[b], multiset{p});
      Assoc(multiset(ps[..n]), multiset{p}, Bag(qs));
    }
  }

  // ---- Counting the pool ----

  function Range(a: nat, b: nat): (r: seq<nat>)
    requires a <= b
    ensures |r| == b - a && forall i :: 0 <= i < |r| ==> r[i] == a + i
  {
    seq(b - a, i requires 0 <= i < b - a => a + i)
  }

  /** How many players wait in all. */
  function Waiting(qs: Queues): nat {
    Depth(qs, Range(0, |qs|))
  }

  lemma {:induction false} BagUpTo(qs: Queues, k: nat)
    requires k <= |qs|
    ensures Indices(Range(0, k), |qs|) && |Bag(qs[..k])| == Depth(qs, Range(0, k))
  {
    if k > 0 {
      RangeNext(qs, k - 1);
      hide *;
      BagUpTo(qs, k - 1);
      BagNext(qs, k - 1);
    }
  }

  lemma BagNext(qs: Queues, k: nat)
    requires k < |qs|
    ensures |Bag(qs[..k + 1])| == |Bag(qs[..k])| + |qs[k]|
  {
    assert qs[..k + 1] == qs[..k] + [qs[k]];
    BagConcat(qs[..k], [qs[k]]);
    assert Bag([qs[k]]) == multiset(qs[k]);
    hide *;
    BagSizes(Bag(qs[..k]), multiset(qs[k]));
  }

  lemma BagSizes(a: multiset<Player>, b: multiset<Player>)
    ensures |a + b| == |a| + |b|
  {
  }

  lemma RangeNext(qs: Queues, k: nat)
    requires k < |qs|
    ensures Indices(Range(0, k), |qs|) && Indices(Range(0, k + 1), |qs|)
    ensures Depth(qs, Range(0, k + 1)) == Depth(qs, Range(0, k)) + |qs[k]|
  {
    assert Range(0, k + 1) == Range(0, k) + [k];
    DepthConcat(qs, Range(0, k), [k]);
  }

  lemma {:induction false} BagConcat(x: Queues, y: Queues)
    ensures Bag(x + y) == Bag(x) + Bag(y)
  {
    if x == [] {
      assert x + y == y;
    } else {
      assert (x + y)[1..] == x[1..] + y;
      BagConcat(x[1..], y);
    }
  }

  lemma WaitingIsBagSize(qs: Queues)
    ensures Waiting(qs) == |Bag(qs)|
  {
    assert qs[..|qs|] == qs;
    BagUpTo(qs, |qs|);
  }
}
