/** src/matcher.rs, the tolerance gate over the windows a worker draws: on which grids a
    harvested group is never refused. */
module Gate {
  import opened Base
  import opened TeamSplit
  import opened Optimizer
  import opened Buckets
  import opened MatchPool
  import opened Worker

  // ---- What a harvest of few queues yields ----

  lemma {:induction false} FlatNone(qs: Queues, order: seq<nat>)
    requires Indices(order, |qs|) && forall i :: 0 <= i < |order| ==> qs[order[i]] == []
    ensures Flat(qs, order) == []
  {
    if order != [] {
      FlatNone(qs, order[1..]);
    }
  }

  lemma {:induction false} FlatOne(qs: Queues, order: seq<nat>, a: nat)
    requires Indices(order, |qs|) && Distinct(order) && a in order
    requires forall i :: 0 <= i < |order| && order[i] != a ==> qs[order[i]] == []
    ensures Flat(qs, order) == qs[a]
  {
    if order[0] == a {
      FlatNone(qs, order[1..]);
    } else {
      FlatOne(qs, order[1..], a);
    }
  }

  lemma {:induction false} FlatTwo(qs: Queues, order: seq<nat>, a: nat, b: nat)
    requires Indices(order, |qs|) && Distinct(order) && a in order && b in order && a != b
    requires forall i :: 0 <= i < |order| && order[i] != a && order[i] != b ==> qs[order[i]] == []
    ensures Flat(qs, order) == qs[a] + qs[b] || Flat(qs, order) == qs[b] + qs[a]
  {
    if order[0] == a {
      FlatOne(qs, order[1..], b);
    } else if order[0] == b {
      FlatOne(qs, order[1..], a);
    } else {
      FlatTwo(qs, order[1..], a, b);
    }
  }

  /** With every border free, a harvest reads each queue of the visiting order once. */
  lemma FreeHarvest(g: Grid, qs: Queues, window: seq<nat>, a: nat)
    requires |qs| == g.total && Indices(window, g.total) && Anchor(qs, window) == Some(a)
    ensures var order := Firsts(DrainOrder(window, a, g.total));
            && Indices(order, g.total) && Distinct(order)
            && (forall b :: b in window || b in Borders(Edge(window), g.total) ==> b in order)
            && (|Flat(qs, order)| == 10 ==> Harvested(g, qs, window, {}) == Some(Flat(qs, order)))
  {
    hide DrainOrder;
    hide Reach;
    hide Edge;
    OrderCovers(window, a, g.total);
    OrderInRange(window, a, g.total);
    FreeReach(window, a, g.total);
    FirstsDistinct(DrainOrder(window, a, g.total));
    FirstsIndices(DrainOrder(window, a, g.total), g.total);
    hide Distinct;
    hide Indices;
    var found := Flat(qs, Firsts(DrainOrder(window, a, g.total)));
    assert |found| == 10 ==> found[..10] == found;
  }

  function Same(n: nat, rating: u32, now: nat): (ps: seq<Player>)
    ensures |ps| == n && forall i :: 0 <= i < n ==> ps[i].rating == rating && ps[i].enqueuedAt == now
  {
    seq(n, i requires 0 <= i < n => Player(i, rating, now, i, i))
  }

  /** Nine players of one rating and one of another, who have just arrived. */
  function Outlier(g: Grid, low: u32, high: u32, now: nat): (qs: Queues)
    ensures |qs| == g.total
  {
    seq(g.total, b requires 0 <= b < g.total =>
      (if b == BucketIndex(g, low) then Same(9, low, now) else [])
      + (if b == BucketIndex(g, high) then Same(1, high, now) else []))
  }

  lemma OutlierPlaced(g: Grid, low: u32, high: u32, now: nat)
    requires low < TWO_31 && high < TWO_31
    ensures Placed(g, Outlier(g, low, high, now)) && Storable(Outlier(g, low, high, now))
    ensures forall b :: 0 <= b < g.total && b != BucketIndex(g, low) && b != BucketIndex(g, high)
                  ==> Outlier(g, low, high, now)[b] == []
  {
    hide BucketIndex;
    var qs: Queues := Outlier(g, low, high, now);
    forall b, i | 0 <= b < |qs| && 0 <= i < |qs[b]| ensures Home(g, qs[b][i]) == b && qs[b][i].rating < TWO_31 {
      var nine: seq<Player> := if b == BucketIndex(g, low) then Same(9, low, now) else [];
      var one: seq<Player> := if b == BucketIndex(g, high) then Same(1, high, now) else [];
      assert qs[b] == nine + one;
      if i < |nine| {
        assert qs[b][i] == nine[i];
      } else {
        assert qs[b][i] == one[i - |nine|];
      }
    }
  }

  /** Ratings that the users table can hold. */
  ghost predicate Storable(qs: Queues) {
    forall b, i :: 0 <= b < |qs| && 0 <= i < |qs[b]| ==> qs[b][i].rating < TWO_31
  }

  lemma OutlierFlat(g: Grid, low: u32, high: u32, now: nat, order: seq<nat>)
    requires Indices(order, g.total) && Distinct(order) && BucketIndex(g, low) in order && BucketIndex(g, high) in order
    ensures var nine, one, found := Same(9, low, now), Same(1, high, now), Flat(Outlier(g, low, high, now), order);
            found == nine + one || found == one + nine
  {
    hide BucketIndex;
    var qs, a, b := Outlier(g, low, high, now), BucketIndex(g, low), BucketIndex(g, high);
    if a == b {
      FlatOne(qs, order, a);
    } else {
      FlatTwo(qs, order, a, b);
      assert Same(9, low, now) + [] == Same(9, low, now) && [] + Same(1, high, now) == Same(1, high, now);
    }
  }

  ghost predicate Refuses(g: Grid, qs: Queues, window: seq<nat>, busy: set<nat>, now: nat)
    requires |qs| == g.total && Indices(window, g.total)
  {
    var r := Harvested(g, qs, window, busy);
    r.Some? && LongestWait(r.value, now) < OVERFLOW_MS && !Admits(r.value, now)
  }

  /** Whatever the window, ten players who have just arrived, one of them 255 above the
      rest, are harvested from it and refused, if it holds the nine and reaches the tenth. */
  lemma OutlierRefused(g: Grid, low: u32, high: u32, now: nat, window: seq<nat>)
    requires low + 255 <= high && window != [] && Indices(window, g.total) && BucketIndex(g, low) in window
    requires BucketIndex(g, high) in window || BucketIndex(g, high) in Borders(Edge(window), g.total)
    ensures Refuses(g, Outlier(g, low, high, now), window, {}, now)
  {
    hide BucketIndex;
    hide Edge;
    hide Admits;
    hide Harvested;
    var qs, nine, one := Outlier(g, low, high, now), Same(9, low, now), Same(1, high, now);
    var i :| 0 <= i < |window| && window[i] == BucketIndex(g, low);
    var anchor := Anchor(qs, window);
    assert anchor.Some? by {
      assert qs[window[i]][0] == nine[0];
    }
    FreeHarvest(g, qs, window, anchor.value);
    var order := Firsts(DrainOrder(window, anchor.value, g.total));
    hide DrainOrder;
    OutlierFlat(g, low, high, now, order);
    OutlierNotAdmitted(low, high, now, Flat(qs, order));
  }

  lemma OutlierNotAdmitted(low: u32, high: u32, now: nat, group: seq<Player>)
    requires low + 255 <= high
    requires group == Same(9, low, now) + Same(1, high, now) || group == Same(1, high, now) + Same(9, low, now)
    ensures |group| == 10 && LongestWait(group, now) < 100 && !Admits(group, now)
  {
    hide Admits;
    assert forall k :: 0 <= k < 10 ==> Elapsed(group[k], now) < 100;
    ShortWait(group, now);
    OutlierIsRejected(group, if group[0].rating == low then 9 else 0, low, now);
  }

  // ---- The windows a worker draws ----

  /** Tickets are multiples of the stride, from zero. */
  function Drawn(g: Grid, stride: nat, k: nat): (w: seq<nat>)
    ensures |w| == stride && Indices(w, g.total)
  {
    Window(k * stride, stride, g.total)
  }

  lemma DrawnAt(g: Grid, stride: nat, k: nat, lo: nat, q: nat, i: nat)
    requires k * stride == q * g.total + lo && lo < g.total && i < stride && i < 2 * g.total - lo
    ensures Drawn(g, stride, k)[i] == if lo + i < g.total then lo + i else lo + i - g.total
  {
    DivOf(k * stride, g.total, q, lo);
    assert (k * stride) % g.total == lo;
    WrapOnce(lo + i, g.total);
  }

  /** Buckets a window reaches are together no wider than the tolerance, and no window
      holds both ends of the ring. */
  ghost predicate Narrow(g: Grid, stride: nat) {
    && Min(stride + 2, g.total - 1) * g.width <= 255
    && (stride < 3 || g.total % stride == 0 || (g.total - 1) * g.width <= 255)
  }

  lemma DividingNeverWraps(k: nat, stride: nat, total: nat)
    requires 0 < stride && 0 < total && total % stride == 0
    ensures (k * stride) % total + stride <= total
  {
    var m, q, lo := total / stride, k * stride / total, (k * stride) % total;
    assert total == m * stride && k * stride == q * total + lo;
    var i := k - q * m;
    assert lo == i * stride by {
      assert q * total == (q * m) * stride;
    }
    assert 0 <= i < m;
    assert (i + 1) * stride <= m * stride;
  }

  /** A window of two that wraps reaches only the two ends of the ring. */
  lemma PairReach(g: Grid, window: seq<nat>, a: nat, busy: set<nat>, b: nat)
    requires g.total > 1 && window == [g.total - 1, 0] && a in window && b in Reach(window, a, g.total, busy)
    ensures b == g.total - 1 || b == 0
  {
    ReachPrefix(window, a, g.total, busy);
    DrainOrderShape(window, a, g.total);
    assert Edge(window) == window[0] by {
      assert window[0] <= Edge(window);
    }
    hide Edge;
    hide Reach;
    var order := DrainOrder(window, a, g.total);
    hide DrainOrder;
    assert order[2..] == [] && order[..2] == order;
    assert b in order;
    assert b in multiset(order[..2]);
    assert b in multiset(window);
  }

  /** A player harvested from a pool with nobody in the last bucket is at home elsewhere. */
  lemma NotFromLast(g: Grid, qs: Queues, window: seq<nat>, busy: set<nat>, i: nat)
    requires Placed(g, qs) && qs[g.total - 1] == [] && Indices(window, g.total)
    requires Harvested(g, qs, window, busy).Some? && i < 10
    ensures Anchor(qs, window).Some?
    ensures var b := Home(g, Harvested(g, qs, window, busy).value[i]);
            b < g.total - 1 && b in Reach(window, Anchor(qs, window).value, g.total, busy)
  {
    hide Reach;
    assert Anchor(qs, window).Some?;
    hide Harvested;
    var b, j := GroupMember(g, qs, window, busy, i);
    hide BucketIndex;
  }

  /** On a narrow grid the gate refuses nobody, if nobody is in the last bucket: any ticket,
      pool and busy borders, and any wait below the overflow. */
  lemma NarrowAdmits(g: Grid, stride: nat, k: nat, qs: Queues, busy: set<nat>, now: nat)
    requires 0 < stride && Narrow(g, stride) && Placed(g, qs) && qs[g.total - 1] == []
    ensures !Refuses(g, qs, Drawn(g, stride, k), busy, now)
  {
    var n, window := g.total, Drawn(g, stride, k);
    var r := Harvested(g, qs, window, busy);
    hide Harvested;
    hide Admits;
    hide Narrow;
    if r.None? || LongestWait(r.value, now) >= OVERFLOW_MS {
      return;
    }
    forall i | 0 <= i < 10 ensures Home(g, r.value[i]) < n - 1 {
      NotFromLast(g, qs, window, busy, i);
    }
    NarrowCases(g, stride, k);
    hide *;
    if (n - 1) * g.width <= 255 {
      SpanAdmits(g, r.value, n - 1, now);
    } else if (k * stride) % n + stride <= n {
      NoWrapAdmits(g, stride, k, qs, busy, now);
    } else {
      PairAdmits(g, k, qs, busy, now);
    }
  }

  lemma NarrowCases(g: Grid, stride: nat, k: nat)
    requires 0 < stride && Narrow(g, stride)
    ensures var n, lo := g.total, (k * stride) % g.total;
            || (n - 1) * g.width <= 255
            || ((stride + 2) * g.width <= 255 && lo + stride <= n)
            || (stride == 2 && lo == n - 1 && n > 1 && g.width <= 255)
  {
    if stride >= 3 && g.total % stride == 0 {
      DividingNeverWraps(k, stride, g.total);
    } else {
      Scale(1, stride + 2, g.width);
    }
  }

  lemma SpanAdmits(g: Grid, group: seq<Player>, span: nat, now: nat)
    requires |group| == 10 && span * g.width <= 255 && LongestWait(group, now) < OVERFLOW_MS
    requires forall i :: 0 <= i < 10 ==> Home(g, group[i]) < span && Home(g, group[i]) < g.total - 1
    ensures Admits(group, now)
  {
    hide Admits;
    forall i | 0 <= i < 10 ensures 0 <= group[i].rating < 255 {
      BandWithinSpan(g, group[i], 0, span);
    }
    CloseIsAdmitted(group, 0, now);
  }

  lemma NoWrapAdmits(g: Grid, stride: nat, k: nat, qs: Queues, busy: set<nat>, now: nat)
    requires 0 < stride && (stride + 2) * g.width <= 255 && Placed(g, qs) && (k * stride) % g.total + stride <= g.total
    requires var r := Harvested(g, qs, Drawn(g, stride, k), busy);
             r.Some? && LongestWait(r.value, now) < OVERFLOW_MS && forall i :: 0 <= i < 10 ==> Home(g, r.value[i]) < g.total - 1
    ensures !Refuses(g, qs, Drawn(g, stride, k), busy, now)
  {
    hide Harvested;
    hide Admits;
    var n, window := g.total, Drawn(g, stride, k);
    var lo := (k * stride) % n;
    forall i | 0 <= i < stride ensures window[i] == lo + i {
      WrapOnce(lo + i, n);
    }
    GateNeverRejects(g, qs, lo, stride, window, busy, now);
  }

  lemma PairAdmits(g: Grid, k: nat, qs: Queues, busy: set<nat>, now: nat)
    requires g.total > 1 && (k * 2) % g.total == g.total - 1 && g.width <= 255 && Placed(g, qs) && qs[g.total - 1] == []
    requires var r := Harvested(g, qs, Drawn(g, 2, k), busy); r.Some? && LongestWait(r.value, now) < OVERFLOW_MS
    ensures !Refuses(g, qs, Drawn(g, 2, k), busy, now)
  {
    hide Harvested;
    hide Admits;
    hide Reach;
    var n, window := g.total, Drawn(g, 2, k);
    assert window == [n - 1, 0] by {
      WrapOnce(n - 1, n);
      WrapOnce(n, n);
    }
    var group := Harvested(g, qs, window, busy).value;
    assert 1 * g.width <= 255;
    forall i | 0 <= i < 10 ensures Home(g, group[i]) < 1 {
      NotFromLast(g, qs, window, busy, i);
      PairReach(g, window, Anchor(qs, window).value, busy, Home(g, group[i]));
    }
    SpanAdmits(g, group, 1, now);
  }

  // ---- Grids on which it refuses ----

  /** Wider reaches than the tolerance: the first window already refuses. */
  lemma WideRefuses(g: Grid, stride: nat, now: nat) returns (qs: Queues)
    requires 0 < stride && Min(stride + 2, g.total - 1) * g.width > 255
    ensures Placed(g, qs) && Storable(qs) && qs[g.total - 1] == []
    ensures Refuses(g, qs, Drawn(g, stride, 0), {}, now)
  {
    qs := Outlier(g, 0, 255, now);
    BelowReach(g, Min(stride + 2, g.total - 1));
    assert BucketIndex(g, 0) == 0 && BucketIndex(g, 255) == 255 / g.width;
    FirstReach(g, stride, BucketIndex(g, 255));
    OutlierPlaced(g, 0, 255, now);
    hide BucketIndex;
    hide Outlier;
    hide Drawn;
    hide Refuses;
    OutlierRefused(g, 0, 255, now, Drawn(g, stride, 0));
  }

  /** The first window and its borders are the first stride + 2 buckets. */
  lemma FirstReach(g: Grid, stride: nat, b: nat)
    requires 0 < stride && b < stride + 2 && b < g.total - 1
    ensures var window := Drawn(g, stride, 0);
            0 in window && (b in window || b in Borders(Edge(window), g.total))
  {
    var n, window := g.total, Drawn(g, stride, 0);
    assert 0 * stride == 0 * n + 0;
    forall i | 0 <= i < stride && i < n ensures window[i] == i {
      hide *;
      DrawnAt(g, stride, 0, 0, 0, i);
    }
    hide Drawn;
    assert window[0] == 0;
    if b < stride {
      assert window[b] == b;
    } else {
      EdgeOfSpan(0, stride, window);
    }
  }

  lemma BelowReach(g: Grid, m: nat)
    requires m * g.width > 255
    ensures 255 / g.width < m
  {
    var b := 255 / g.width;
    assert b * g.width <= 255;
    Scale(m, b, g.width);
  }

  /** When the stride does not divide the ring, some ticket's window wraps and holds the last
      bucket but one. */
  lemma WrapTicket(n: nat, stride: nat) returns (k: nat, q: nat, lo: nat)
    requires 3 <= stride < n && n % stride != 0
    ensures k * stride == q * n + lo && lo <= n - 2 && n < lo + stride
  {
    var m, r := n / stride, n % stride;
    assert n == m * stride + r;
    if r == 1 {
      k, q, lo := 2 * m, 1, n - 2;
      assert k * stride == 2 * (m * stride);
    } else {
      k, q, lo := m, 0, m * stride;
    }
  }

  /** A window that wraps refuses, once the last bucket but one is high enough. */
  lemma WrapRefuses(g: Grid, stride: nat, now: nat) returns (qs: Queues, k: nat)
    requires 3 <= stride < g.total && g.total % stride != 0
    requires (g.total - 1) * g.width > 255 && (g.total - 2) * g.width < TWO_31
    ensures Placed(g, qs) && Storable(qs) && qs[g.total - 1] == []
    ensures Refuses(g, qs, Drawn(g, stride, k), {}, now)
  {
    hide *;
    var n := g.total;
    var q, lo;
    k, q, lo := WrapTicket(n, stride);
    var window := Drawn(g, stride, k);
    DrawnAt(g, stride, k, lo, q, n - 2 - lo);
    DrawnAt(g, stride, k, lo, q, n - lo);
    assert window[n - 2 - lo] == n - 2 && window[n - lo] == 0;
    var high := HighRating(g);
    qs := Outlier(g, 0, high, now);
    OutlierPlaced(g, 0, high, now);
    OutlierRefused(g, 0, high, now, window);
  }

  /** The last bucket but one has a rating of 255 or more; the first has zero. */
  lemma HighRating(g: Grid) returns (high: u32)
    requires g.total > 1 && (g.total - 1) * g.width > 255 && (g.total - 2) * g.width < TWO_31
    ensures 255 <= high < TWO_31 && BucketIndex(g, high) == g.total - 2 && BucketIndex(g, 0) == 0
  {
    hide BucketIndex;
    var edge := (g.total - 2) * g.width;
    high := if edge < 255 then 255 else edge;
    assert (g.total - 1) * g.width == edge + g.width;
    BucketBand(g, high, g.total - 2);
    BucketBand(g, 0, 0);
  }

  /** The last bucket takes every rating from its edge up, so whatever the stride and the
      width some ticket's harvest of it is refused. */
  lemma LastBucketRefuses(g: Grid, stride: nat, now: nat) returns (qs: Queues, k: nat)
    requires 0 < stride && (g.total - 1) * g.width + 255 < TWO_31
    ensures Placed(g, qs) && Storable(qs) && Refuses(g, qs, Drawn(g, stride, k), {}, now)
  {
    hide BucketIndex;
    hide Outlier;
    hide Drawn;
    hide Refuses;
    hide Placed;
    hide Storable;
    k := LastTicket(g, stride);
    LastRoom(g);
    var edge := (g.total - 1) * g.width;
    qs := Outlier(g, edge, edge + 255, now);
    OutlierPlaced(g, edge, edge + 255, now);
    OutlierRefused(g, edge, edge + 255, now, Drawn(g, stride, k));
  }

  /** Some ticket's window holds the last bucket. */
  lemma LastTicket(g: Grid, stride: nat) returns (k: nat)
    requires 0 < stride
    ensures g.total - 1 in Drawn(g, stride, k)
  {
    var n := g.total;
    k := (n - 1) / stride;
    var i := (n - 1) % stride;
    assert k * stride + i == n - 1;
    hide *;
    DrawnAt(g, stride, k, n - 1 - i, 0, i);
    assert Drawn(g, stride, k)[i] == n - 1;
  }

  lemma LastRoom(g: Grid)
    requires (g.total - 1) * g.width + 255 < TWO_31
    ensures var edge := (g.total - 1) * g.width;
            BucketIndex(g, edge) == g.total - 1 && BucketIndex(g, edge + 255) == g.total - 1
  {
    hide BucketIndex;
    var edge := (g.total - 1) * g.width;
    BucketBand(g, edge, g.total - 1);
    BucketBand(g, edge + 255, g.total - 1);
  }

  // ---- The exact condition ----

  /** No ticket harvests a group that the gate refuses, below the overflow, from a pool of
      storable ratings with nobody in the last bucket. */
  ghost predicate NeverRefuses(g: Grid, stride: nat) {
    forall k: nat, qs: Queues, busy: set<nat>, now: nat :: Placed(g, qs) && Storable(qs) && qs[g.total - 1] == []
      ==> !Refuses(g, qs, Drawn(g, stride, k), busy, now)
  }

  /** With a rating for every bucket but the last, that is so exactly on narrow grids. */
  lemma NeverRefusesIffNarrow(g: Grid, stride: nat)
    requires 0 < stride && (g.total - 2) * g.width < TWO_31
    ensures NeverRefuses(g, stride) <==> Narrow(g, stride)
  {
    hide Refuses;
    if Narrow(g, stride) {
      forall k: nat, qs: Queues, busy: set<nat>, now: nat | Placed(g, qs) && Storable(qs) && qs[g.total - 1] == []
        ensures !Refuses(g, qs, Drawn(g, stride, k), busy, now)
      {
        NarrowAdmits(g, stride, k, qs, busy, now);
      }
    } else if Min(stride + 2, g.total - 1) * g.width > 255 {
      var qs := WideRefuses(g, stride, 0);
      assert Refuses(g, qs, Drawn(g, stride, 0), {}, 0);
    } else {
      assert stride < g.total;
      var qs, k := WrapRefuses(g, stride, 0);
      assert Refuses(g, qs, Drawn(g, stride, k), {}, 0);
    }
  }
}
