/** src/matcher.rs, algorithm 1: one round of the match worker, and what a round
    guarantees when a single worker runs over the pool. */
module Worker {
  import opened Base
  import opened TeamSplit
  import opened Optimizer
  import opened Buckets
  import opened MatchPool

  // ---- The window of a ticket ----

  function Window(ticket: nat, stride: nat, total: nat): (w: seq<nat>)
    requires total > 0
    ensures |w| == stride && Indices(w, total)
  {
    seq(stride, k requires 0 <= k < stride => (ticket % total + k) % total)
  }

  lemma WindowAt(ticket: nat, stride: nat, total: nat, k: nat)
    requires 0 < total && k < stride <= total
    ensures var start := ticket % total;
            Window(ticket, stride, total)[k] == if start + k < total then start + k else start + k - total
  {
    WrapOnce(ticket % total + k, total);
  }

  /** A stride no longer than the ring of buckets visits no bucket twice. */
  lemma WindowDistinct(ticket: nat, stride: nat, total: nat)
    requires 0 < stride <= total
    ensures Distinct(Window(ticket, stride, total))
  {
    var w := Window(ticket, stride, total);
    forall i, j | 0 <= i < j < |w| ensures w[i] != w[j] {
      WindowAt(ticket, stride, total, i);
      WindowAt(ticket, stride, total, j);
    }
  }

  lemma WrapOnce(x: nat, n: nat)
    requires 0 < n && x < 2 * n
    ensures x % n == if x < n then x else x - n
  {
    if x >= n {
      assert x == 1 * n + (x - n);
      DivOf(x, n, 1, x - n);
    }
  }

  // ---- One round ----

  datatype RoundResult =
    | Sparse
    | Missed
    | Rejected(group: seq<Player>)
    | Formed(match_: MatchResult, group: seq<Player>)

  function Elapsed(p: Player, now: nat): nat {
    if now >= p.enqueuedAt then now - p.enqueuedAt else 0
  }

  function LongestWait(ps: seq<Player>, now: nat): (w: nat)
    ensures forall i :: 0 <= i < |ps| ==> Elapsed(ps[i], now) <= w
    ensures ps != [] ==> exists i :: 0 <= i < |ps| && w == Elapsed(ps[i], now)
  {
    if ps == [] then 0 else
    var w := LongestWait(ps[1..], now);
    assert forall i :: 1 <= i < |ps| ==> ps[i] == ps[1..][i - 1];
    if w >= Elapsed(ps[0], now) && |ps| > 1 then
      var i :| 0 <= i < |ps[1..]| && w == Elapsed(ps[1..][i], now);
      assert w == Elapsed(ps[i + 1], now);
      w
    else Elapsed(ps[0], now)
  }

  /** The wait of a group is the time since its first enqueue, nothing if that is to come. */
  lemma {:induction false} WaitIsSinceFirst(ps: seq<Player>, now: nat, first: nat)
    requires (exists i :: 0 <= i < |ps| && ps[i].enqueuedAt == first) && forall i :: 0 <= i < |ps| ==> first <= ps[i].enqueuedAt
    ensures LongestWait(ps, now) == if first <= now then now - first else 0
  {
    var i :| 0 <= i < |ps| && ps[i].enqueuedAt == first;
    assert Elapsed(ps[i], now) <= LongestWait(ps, now);
    var k :| 0 <= k < |ps| && LongestWait(ps, now) == Elapsed(ps[k], now);
  }

  /** The players the window and its borders hold, as the density test counts them. */
  function Density(qs: Queues, window: seq<nat>): nat
    requires window != [] && Indices(window, |qs|)
  {
    Depth(qs, window) + Depth(qs, Borders(Edge(window), |qs|))
  }

  ghost predicate Admits(group: seq<Player>, now: nat)
    requires |group| == 10
  {
    Spread(group) <= MaxTeamGap(LongestWait(group, now))
  }

  /** What a round must do: the fast-fail test, the harvest, the gate. */
  ghost function Decide(g: Grid, qs: Queues, window: seq<nat>, busy: set<nat>, now: nat, mid: nat): RoundResult
    requires |qs| == g.total && window != [] && Indices(window, g.total)
  {
    if Density(qs, window) < 10 then Sparse else
    match Harvested(g, qs, window, busy)
    case None => Missed
    case Some(group) => if Admits(group, now) then Formed(Outcome(group, mid), group) else Rejected(group)
  }

  /** A group harvested when its first member has waited short of the overflow is formed into a
      match exactly when the spread is within 50 and ten for each full tenth of a second
      since that member was enqueued. */
  lemma RoundIffTolerance(g: Grid, qs: Queues, window: seq<nat>, busy: set<nat>, now: nat, mid: nat, first: nat)
    requires |qs| == g.total && window != [] && Indices(window, g.total)
    requires Density(qs, window) >= 10 && Harvested(g, qs, window, busy).Some?
    requires var group := Harvested(g, qs, window, busy).value;
             && (exists i :: 0 <= i < 10 && group[i].enqueuedAt == first)
             && (forall i :: 0 <= i < 10 ==> first <= group[i].enqueuedAt)
    requires first <= now < first + OVERFLOW_MS
    ensures var group, r := Harvested(g, qs, window, busy).value, Decide(g, qs, window, busy, now, mid);
            if Spread(group) <= 50 + 10 * ((now - first) / 100)
            then r.Formed? && r.group == group && r.match_ == Outcome(group, mid)
            else r == Rejected(group)
  {
    hide Density;
    hide Spread;
    hide Harvested;
    hide MaxTeamGap;
    WaitIsSinceFirst(Harvested(g, qs, window, busy).value, now, first);
    ToleranceIsLinear(now - first);
  }

  lemma BorderDepth(qs: Queues, edge: nat)
    ensures Depth(qs, Borders(edge, |qs|)) == (if edge + 1 < |qs| then |qs[edge + 1]| else 0)
                                              + (if edge + 2 < |qs| then |qs[edge + 2]| else 0)
  {
    if edge + 2 < |qs| {
      DepthConcat(qs, [edge + 1], [edge + 2]);
    }
  }

  method MeasureDensity(pool: Pool, window: seq<nat>) returns (approx: nat)
    requires pool.Valid() && window != [] && Indices(window, pool.grid.total)
    ensures approx == Density(pool.buckets[..], window)
  {
    ghost var qs := pool.buckets[..];
    approx := 0;
    for k := 0 to |window|
      invariant approx == Depth(qs, window[..k])
    {
      assert window[..k + 1] == window[..k] + [window[k]];
      DepthConcat(qs, window[..k], [window[k]]);
      approx := approx + |pool.buckets[window[k]]|;
    }
    assert window[..|window|] == window;
    var edge := Edge(window);
    BorderDepth(qs, edge);
    for step := 1 to 3
      invariant step == 1 ==> approx == Depth(qs, window)
      invariant step == 2 ==> approx == Depth(qs, window) + (if edge + 1 < |qs| then |qs[edge + 1]| else 0)
      invariant step == 3 ==> approx == Density(qs, window)
    {
      var b := edge + step;
      if b < pool.buckets.Length {
        approx := approx + |pool.buckets[b]|;
      }
    }
  }

  /** One pass of the worker loop: a formed match consumes its ten players, anything else
      leaves the pool exactly as it was. */
  method Round(pool: Pool, window: seq<nat>, busy: set<nat>, now: nat, mid: nat) returns (r: RoundResult)
    requires pool.Valid() && window != [] && Indices(window, pool.grid.total)
    modifies pool.buckets
    ensures pool.Valid()
    ensures r == Decide(pool.grid, old(pool.buckets[..]), window, busy, now, mid)
    ensures !r.Formed? ==> pool.buckets[..] == old(pool.buckets[..])
    ensures r.Formed? ==> Divides(pool.grid, old(pool.buckets[..]), r.group, pool.buckets[..])
  {
    hide Harvested;
    hide Density;
    hide Outcome;
    hide Spread;
    ghost var whole := pool.buckets[..];
    var approx := MeasureDensity(pool, window);
    if approx < 10 {
      return Sparse;
    }
    var harvested := pool.Harvest(window, busy);
    if harvested.None? {
      return Missed;
    }
    var group := harvested.value;
    var tMax := MaxTeamGap(LongestWait(group, now));
    var m, gap := OptimizeSplit(group, mid);
    SpreadOfOutcome(group, mid);
    if gap <= tMax {
      r := Formed(m, group);
    } else {
      pool.ReturnGroup(group);
      r := Rejected(group);
    }
  }

  lemma SpreadOfOutcome(group: seq<Player>, mid: nat)
    requires |group| == 10
    ensures Outcome(group, mid).spread == Spread(group)
  {
  }

  // ---- The fast-fail test is exact ----

  /** Whatever the anchor, the visiting order holds as many players as the density test
      counts. */
  lemma OrderDensity(qs: Queues, window: seq<nat>, a: nat)
    requires Distinct(window) && Indices(window, |qs|) && a in window
    ensures Indices(DrainOrder(window, a, |qs|), |qs|)
    ensures |Visited(qs, DrainOrder(window, a, |qs|))| == Density(qs, window)
  {
    var order := DrainOrder(window, a, |qs|);
    DrainOrderShape(window, a, |qs|);
    var own, borders := order[..|window|], order[|window|..];
    assert order == own + borders;
    FirstsOfDistinct(order);
    DepthIsLength(qs, order);
    DepthConcat(qs, own, borders);
    DepthOfBag(qs, own, window);
  }

  /** A harvest that meets no busy border succeeds exactly when the density test passes. */
  lemma FastFailIsExact(g: Grid, qs: Queues, window: seq<nat>)
    requires |qs| == g.total && window != [] && Distinct(window) && Indices(window, g.total)
    ensures Harvested(g, qs, window, {}).Some? <==> Density(qs, window) >= 10 && Anchor(qs, window).Some?
    ensures Anchor(qs, window) == None ==> Depth(qs, window) == 0
  {
    match Anchor(qs, window)
    case None =>
      NoDepth(qs, window);
    case Some(a) =>
      OrderDensity(qs, window, a);
      FreeReach(window, a, g.total);
  }

  lemma {:induction false} NoDepth(qs: Queues, window: seq<nat>)
    requires Indices(window, |qs|) && forall i :: 0 <= i < |window| ==> qs[window[i]] == []
    ensures Depth(qs, window) == 0
  {
    if window != [] {
      NoDepth(qs, window[1..]);
    }
  }

  lemma FreeReach(window: seq<nat>, a: nat, total: nat)
    requires window != []
    ensures Reach(window, a, total, {}) == DrainOrder(window, a, total)
  {
    hide DrainOrder;
    var order := DrainOrder(window, a, total);
    NoneBusy(order[Min(|window|, |order|)..]);
  }

  lemma {:induction false} NoneBusy(borders: seq<nat>)
    ensures UntilBusy(borders, {}) == borders
  {
    if borders != [] {
      NoneBusy(borders[1..]);
    }
  }

  /** Whatever borders are locked, a harvest succeeds exactly when its window holds somebody
      and, with the border buckets up to the first locked one, ten. */
  lemma HarvestIffTen(g: Grid, qs: Queues, window: seq<nat>, busy: set<nat>)
    requires |qs| == g.total && window != [] && Distinct(window) && Indices(window, g.total)
    ensures var top := Edge(window);
            var next := if top + 1 < g.total && top + 1 !in busy then |qs[top + 1]| else 0;
            var last := if top + 2 < g.total && top + 1 !in busy && top + 2 !in busy then |qs[top + 2]| else 0;
            Harvested(g, qs, window, busy).Some? <==>
              Anchor(qs, window).Some? && Depth(qs, window) + next + last >= 10
  {
    match Anchor(qs, window)
    case None =>
    case Some(a) =>
      ReachDepth(g, qs, window, a, busy);
      ReachIndices(window, a, g.total, busy);
      hide Reach;
      hide Visited;
      hide Edge;
  }

  lemma ReachDepth(g: Grid, qs: Queues, window: seq<nat>, a: nat, busy: set<nat>)
    requires |qs| == g.total && Distinct(window) && Indices(window, g.total) && a in window
    ensures var top := Edge(window);
            var next := if top + 1 < g.total && top + 1 !in busy then |qs[top + 1]| else 0;
            var last := if top + 2 < g.total && top + 1 !in busy && top + 2 !in busy then |qs[top + 2]| else 0;
            Indices(Reach(window, a, g.total, busy), g.total)
            && |Visited(qs, Reach(window, a, g.total, busy))| == Depth(qs, window) + next + last
  {
    hide *;
    var own := ReachParts(window, a, g.total, busy);
    var free := UntilBusy(Borders(Edge(window), g.total), busy);
    FreeDepth(qs, Edge(window), busy);
    VisitedDepth(qs, own + free);
    DepthConcat(qs, own, free);
    DepthOfBag(qs, own, window);
  }

  lemma VisitedDepth(qs: Queues, order: seq<nat>)
    requires Distinct(order) && Indices(order, |qs|)
    ensures |Visited(qs, order)| == Depth(qs, order)
  {
    FirstsOfDistinct(order);
    DepthIsLength(qs, order);
    hide Flat;
  }

  lemma ReachParts(window: seq<nat>, a: nat, total: nat, busy: set<nat>) returns (own: seq<nat>)
    requires Distinct(window) && Indices(window, total) && a in window
    ensures var free, reach := UntilBusy(Borders(Edge(window), total), busy), Reach(window, a, total, busy);
            && reach == own + free && Distinct(own + free) && Indices(own + free, total) && Indices(reach, total)
            && Indices(own, total) && multiset(own) == multiset(window)
  {
    DrainOrderShape(window, a, total);
    ReachIndices(window, a, total, busy);
    ReachPrefix(window, a, total, busy);
    hide DrainOrder;
    hide UntilBusy;
    hide Edge;
    own := DrainOrder(window, a, total)[..|window|];
  }

  lemma FreeDepth(qs: Queues, top: nat, busy: set<nat>)
    ensures var free := UntilBusy(Borders(top, |qs|), busy);
            var next := if top + 1 < |qs| && top + 1 !in busy then |qs[top + 1]| else 0;
            var last := if top + 2 < |qs| && top + 1 !in busy && top + 2 !in busy then |qs[top + 2]| else 0;
            Indices(free, |qs|) && Depth(qs, free) == next + last
  {
    var borders := Borders(top, |qs|);
    if top + 2 < |qs| {
      assert borders == [top + 1] + [top + 2] && borders[1..] == [top + 2];
      assert UntilBusy([top + 2], busy) == if top + 2 in busy then [] else [top + 2];
      DepthConcat(qs, [top + 1], [top + 2]);
    } else if top + 1 < |qs| {
      assert borders == [top + 1] && borders[1..] == [];
    }
  }

  // ---- The anchor guarantee ----

  /** Every bucket is in order of arrival. */
  ghost predicate TimeOrdered(qs: Queues) {
    forall b, i, j :: 0 <= b < |qs| && 0 <= i < j < |qs[b]| ==> qs[b][i].enqueuedAt <= qs[b][j].enqueuedAt
  }

  lemma ArrivalKeepsOrder(g: Grid, qs: Queues, p: Player)
    requires Placed(g, qs) && TimeOrdered(qs)
    requires forall b, i :: 0 <= b < |qs| && 0 <= i < |qs[b]| ==> qs[b][i].enqueuedAt <= p.enqueuedAt
    ensures var b := Home(g, p); TimeOrdered(qs[b := qs[b] + [p]])
  {
  }

  lemma TakingKeepsOrder(g: Grid, whole: Queues, ps: seq<Player>, qs: Queues)
    requires Divides(g, whole, ps, qs) && TimeOrdered(whole)
    ensures TimeOrdered(qs)
  {
    forall b, i, j | 0 <= b < |qs| && 0 <= i < j < |qs[b]|
      ensures qs[b][i].enqueuedAt <= qs[b][j].enqueuedAt
    {
      var n := |From(g, ps, b)|;
      assert qs[b][i] == whole[b][n + i] && qs[b][j] == whole[b][n + j];
    }
  }

  /** The player who has waited longest in the window leads every group harvested from
      it, and the wait the gate sees is at least that of anyone waiting there. */
  lemma OldestIsHarvested(g: Grid, qs: Queues, window: seq<nat>, busy: set<nat>, now: nat)
    requires |qs| == g.total && TimeOrdered(qs) && Indices(window, g.total)
    requires Harvested(g, qs, window, busy).Some?
    ensures var group := Harvested(g, qs, window, busy).value;
            && (exists b :: b in window && qs[b] != [] && qs[b][0] == group[0])
            && (forall k, i :: 0 <= k < |window| && 0 <= i < |qs[window[k]]| ==>
                  && group[0].enqueuedAt <= qs[window[k]][i].enqueuedAt
                  && Elapsed(qs[window[k]][i], now) <= LongestWait(group, now))
  {
    var group := Harvested(g, qs, window, busy).value;
    var a := Anchor(qs, window).value;
    ReachIndices(window, a, g.total, busy);
    var reach := Reach(window, a, g.total, busy);
    OrderInRange(window, a, g.total);
    VisitedHead(qs, reach);
    hide Visited;
    assert group[0] == Visited(qs, reach)[0] == qs[a][0];
    forall k, i | 0 <= k < |window| && 0 <= i < |qs[window[k]]|
      ensures group[0].enqueuedAt <= qs[window[k]][i].enqueuedAt
      ensures Elapsed(qs[window[k]][i], now) <= LongestWait(group, now)
    {
      assert qs[window[k]][0].enqueuedAt <= qs[window[k]][i].enqueuedAt;
      assert Elapsed(group[0], now) <= LongestWait(group, now);
    }
  }

  // ---- When the gate cannot refuse ----

  /** Everyone in the queues of `order` is at home in one of its buckets. */
  lemma {:induction false} FlatHomes(g: Grid, qs: Queues, order: seq<nat>, i: nat)
    requires Placed(g, qs) && Indices(order, g.total) && i < |Flat(qs, order)|
    ensures Home(g, Flat(qs, order)[i]) in order
  {
    if i >= |qs[order[0]]| {
      FlatHomes(g, qs, order[1..], i - |qs[order[0]]|);
    }
  }

  lemma {:induction false} FlatMember(qs: Queues, order: seq<nat>, i: nat) returns (b: nat, j: nat)
    requires Indices(order, |qs|) && i < |Flat(qs, order)|
    ensures b in order && b < |qs| && j < |qs[b]| && qs[b][j] == Flat(qs, order)[i]
  {
    if i < |qs[order[0]]| {
      b, j := order[0], i;
    } else {
      b, j := FlatMember(qs, order[1..], i - |qs[order[0]]|);
    }
  }

  /** A harvested player was waiting in a bucket the harvest reaches. */
  lemma GroupMember(g: Grid, qs: Queues, window: seq<nat>, busy: set<nat>, i: nat) returns (b: nat, j: nat)
    requires |qs| == g.total && Indices(window, g.total)
    requires Harvested(g, qs, window, busy).Some? && i < 10
    ensures b < |qs| && j < |qs[b]| && qs[b][j] == Harvested(g, qs, window, busy).value[i]
    ensures b in Reach(window, Anchor(qs, window).value, g.total, busy)
  {
    var a := Anchor(qs, window).value;
    hide Reach;
    ReachIndices(window, a, g.total, busy);
    FirstsIndices(Reach(window, a, g.total, busy), g.total);
    b, j := FlatMember(qs, Firsts(Reach(window, a, g.total, busy)), i);
  }

  // ---- The order of a group ----

  lemma {:induction false} FlatBefore(g: Grid, qs: Queues, f: seq<nat>, i: nat, j: nat, k: nat) returns (off: nat)
    requires Placed(g, qs) && Indices(f, g.total) && Distinct(f) && i < j < |f|
    requires k < |Flat(qs, f)| && Home(g, Flat(qs, f)[k]) == f[j]
    ensures off + |qs[f[i]]| <= k && Flat(qs, f)[off..off + |qs[f[i]]|] == qs[f[i]]
  {
    hide BucketIndex;
    var q, rest := qs[f[0]], Flat(qs, f[1..]);
    assert Flat(qs, f) == q + rest;
    assert forall x :: 0 <= x < |q| ==> Home(g, q[x]) == f[0] && (q + rest)[x] == q[x];
    assert k >= |q|;
    if i == 0 {
      off := 0;
    } else {
      var o := FlatBefore(g, qs, f[1..], i - 1, j - 1, k - |q|);
      off := |q| + o;
      assert (q + rest)[off..off + |qs[f[i]]|] == rest[o..o + |qs[f[i]]|];
    }
  }

  /** In the list of first visits a bucket met by some point comes before one not met by
      then. */
  lemma FirstsBefore(order: seq<nat>, n: nat, b: nat, c: nat) returns (i: nat, j: nat)
    requires n <= |order| && b in order[..n] && c !in order[..n] && c in order
    ensures i < j < |Firsts(order)| && Firsts(order)[i] == b && Firsts(order)[j] == c
  {
    var f, early := Firsts(order), Firsts(order[..n]);
    FirstsPrefix(order[..n], order);
    assert b in early && c in f && c !in early;
    i :| 0 <= i < |early| && early[i] == b;
    j :| 0 <= j < |f| && f[j] == c;
    assert forall x :: 0 <= x < |early| ==> f[x] == early[x] && early[x] in early;
  }

  /** A harvest exhausts a bucket before it takes from a later one. */
  lemma HarvestFollows(g: Grid, qs: Queues, window: seq<nat>, busy: set<nat>, n: nat, b: nat, c: nat, k: nat)
    returns (off: nat)
    requires Placed(g, qs) && Indices(window, g.total) && Harvested(g, qs, window, busy).Some? && k < 10
    requires var order := DrainOrder(window, Anchor(qs, window).value, g.total);
             n <= |order| && b in order[..n] && c !in order[..n]
    requires Home(g, Harvested(g, qs, window, busy).value[k]) == c
    ensures b < g.total && off + |qs[b]| <= k && Harvested(g, qs, window, busy).value[off..off + |qs[b]|] == qs[b]
  {
    hide *;
    var reach := GroupReach(g, qs, window, busy, c, k);
    PlacedCount(g, qs);
    ReachPasses(reach, DrainOrder(window, Anchor(qs, window).value, g.total), n, c);
    FirstsDistinct(reach);
    FirstsIndices(reach, g.total);
    var i, j := FirstsBefore(reach, n, b, c);
    off := FlatBefore(g, qs, Firsts(reach), i, j, k);
    Within(Flat(qs, Firsts(reach)), off, |qs[b]|);
  }

  lemma PlacedCount(g: Grid, qs: Queues)
    requires Placed(g, qs)
    ensures |qs| == g.total
  {
  }

  lemma GroupReach(g: Grid, qs: Queues, window: seq<nat>, busy: set<nat>, c: nat, k: nat) returns (reach: seq<nat>)
    requires Placed(g, qs) && Indices(window, g.total) && Harvested(g, qs, window, busy).Some? && k < 10
    requires Home(g, Harvested(g, qs, window, busy).value[k]) == c
    ensures Anchor(qs, window).Some? && c in reach && Indices(reach, g.total) && Indices(Firsts(reach), g.total)
    ensures reach <= DrainOrder(window, Anchor(qs, window).value, g.total)
    ensures |Flat(qs, Firsts(reach))| >= 10 && Harvested(g, qs, window, busy).value == Flat(qs, Firsts(reach))[..10]
  {
    hide *;
    PlacedCount(g, qs);
    HarvestedIs(g, qs, window, busy);
    var a := Anchor(qs, window).value;
    reach := Reach(window, a, g.total, busy);
    var b, j := GroupMember(g, qs, window, busy, k);
    HomeOf(g, qs, b, j);
    ReachPrefix(window, a, g.total, busy);
  }

  lemma HomeOf(g: Grid, qs: Queues, b: nat, j: nat)
    requires Placed(g, qs) && b < |qs| && j < |qs[b]|
    ensures Home(g, qs[b][j]) == b && |qs| == g.total
  {
    hide BucketIndex;
  }

  lemma HarvestedIs(g: Grid, qs: Queues, window: seq<nat>, busy: set<nat>)
    requires |qs| == g.total && Indices(window, g.total) && Harvested(g, qs, window, busy).Some?
    ensures Anchor(qs, window).Some? && window != []
    ensures var reach := Reach(window, Anchor(qs, window).value, g.total, busy);
            && Indices(reach, g.total) && Indices(Firsts(reach), g.total) && |Flat(qs, Firsts(reach))| >= 10
            && Harvested(g, qs, window, busy).value == Flat(qs, Firsts(reach))[..10]
  {
    var a := Anchor(qs, window).value;
    ReachIndices(window, a, g.total, busy);
    FirstsIndices(Reach(window, a, g.total, busy), g.total);
    hide Reach;
    hide Flat;
    hide Firsts;
  }

  lemma ReachPasses(reach: seq<nat>, order: seq<nat>, n: nat, c: nat)
    requires reach <= order && n <= |order| && c in reach && c !in order[..n]
    ensures n <= |reach| && reach[..n] == order[..n]
  {
    var at :| 0 <= at < |reach| && reach[at] == c;
    assert order[at] == c;
    assert forall x :: 0 <= x < n ==> order[x] in order[..n];
  }

  lemma Within(all: seq<Player>, off: nat, n: nat)
    requires |all| >= 10 && off + n <= 10
    ensures all[..10][off..off + n] == all[off..off + n]
  {
  }

  /** Whoever is harvested from a bucket other than the anchor comes after the whole queue of
      the anchor, of every lower bucket of the window, and, from past the window, of the
      whole window and of the bucket just past it. */
  lemma HarvestInOrder(g: Grid, qs: Queues, window: seq<nat>, busy: set<nat>, b: nat, c: nat, k: nat) returns (off: nat)
    requires Placed(g, qs) && Indices(window, g.total) && Harvested(g, qs, window, busy).Some? && k < 10
    requires Home(g, Harvested(g, qs, window, busy).value[k]) == c && c != Anchor(qs, window).value && b != c
    requires b == Anchor(qs, window).value || (b in window && (c !in window || b < c))
          || (b < c && forall w :: w in window ==> w < b)
    ensures b < g.total && off + |qs[b]| <= k && Harvested(g, qs, window, busy).value[off..off + |qs[b]|] == qs[b]
  {
    var a := Anchor(qs, window).value;
    var order := DrainOrder(window, a, g.total);
    var b', j' := GroupMember(g, qs, window, busy, k);
    ReachPrefix(window, a, g.total, busy);
    assert b' == c && c in order;
    var own, top := VisitingOrder(window, a, g.total);
    hide *;
    var n := PlaceOf(window, order, own, top, a, b, c);
    off := HarvestFollows(g, qs, window, busy, n, b, c, k);
  }

  lemma PlaceOf(window: seq<nat>, order: seq<nat>, own: nat, top: nat, a: nat, b: nat, c: nat) returns (n: nat)
    requires a in window && c in order && c != a && b != c && 1 <= own <= |order| && order[0] == a
    requires top in window && forall w :: w in window ==> w <= top
    requires forall i :: 1 <= i < own ==> order[i] in window
    requires forall i, j :: 1 <= i < j < own ==> order[i] <= order[j]
    requires forall w :: w in window ==> w in order[..own]
    requires forall i :: own <= i < |order| ==> order[i] == top + 1 + (i - own)
    requires b == a || (b in window && (c !in window || b < c)) || (b < c && forall w :: w in window ==> w < b)
    ensures n <= |order| && b in order[..n] && c !in order[..n]
  {
    if b == a {
      n := 1;
    } else if b in window {
      n := PlaceInWindow(window, order, own, a, b, c);
    } else {
      n := PlacePast(window, order, own, top, b, c);
    }
  }

  lemma PlaceInWindow(window: seq<nat>, order: seq<nat>, own: nat, a: nat, b: nat, c: nat) returns (n: nat)
    requires 1 <= own <= |order| && order[0] == a && c != a && b != a && b in order[..own]
    requires forall i :: 1 <= i < own ==> order[i] in window
    requires forall i, j :: 1 <= i < j < own ==> order[i] <= order[j]
    requires c !in window || b < c
    ensures n <= |order| && b in order[..n] && c !in order[..n]
  {
    var i :| 0 <= i < own && order[..own][i] == b;
    n := i + 1;
    assert order[..n][i] == b;
    forall x | 0 <= x < n ensures order[..n][x] != c {
      assert order[..n][x] == order[x];
      assert x == 0 || x == i || order[x] <= order[i];
    }
  }

  lemma PlacePast(window: seq<nat>, order: seq<nat>, own: nat, top: nat, b: nat, c: nat) returns (n: nat)
    requires 1 <= own <= |order| && c in order && top in window && order[0] in window
    requires forall i :: 1 <= i < own ==> order[i] in window
    requires forall i :: own <= i < |order| ==> order[i] == top + 1 + (i - own)
    requires b < c && forall w :: w in window ==> w < b
    ensures n <= |order| && b in order[..n] && c !in order[..n]
  {
    var at :| 0 <= at < |order| && order[at] == c;
    assert at >= own;
    n := own + (b - top);
    assert order[..n][n - 1] == order[n - 1] == b;
    forall x | 0 <= x < n ensures order[..n][x] != c {
      assert order[..n][x] == order[x];
      assert x == 0 || x < own || order[x] <= b;
    }
  }

  lemma VisitedHomes(g: Grid, qs: Queues, order: seq<nat>, i: nat)
    requires Placed(g, qs) && Indices(order, g.total) && i < |Visited(qs, order)|
    ensures Home(g, Visited(qs, order)[i]) in order
  {
    FirstsIndices(order, g.total);
    FlatHomes(g, qs, Firsts(order), i);
  }

  /** A window that does not wrap around reaches at most stride + 2 neighbouring buckets. */
  lemma ReachSpan(lo: nat, stride: nat, window: seq<nat>, a: nat, total: nat, busy: set<nat>)
    requires 0 < stride && lo + stride <= total && |window| == stride
    requires forall k :: 0 <= k < stride ==> window[k] == lo + k
    requires a in window
    ensures forall b :: b in Reach(window, a, total, busy) ==> lo <= b < lo + stride + 2
  {
    hide Edge;
    hide Ascending;
    hide DrainOrder;
    var reach, order := Reach(window, a, total, busy), DrainOrder(window, a, total);
    assert Distinct(window) && Indices(window, total);
    DrainOrderShape(window, a, total);
    ReachPrefix(window, a, total, busy);
    EdgeOfSpan(lo, stride, window);
    forall b | b in reach ensures lo <= b < lo + stride + 2 {
      var i :| 0 <= i < |reach| && reach[i] == b;
      assert order[i] == b;
      if i < stride {
        assert order[..stride][i] in multiset(window);
      } else {
        assert order[stride..][i - stride] == b;
      }
    }
  }

  lemma EdgeOfSpan(lo: nat, stride: nat, window: seq<nat>)
    requires 0 < stride == |window| && forall k :: 0 <= k < stride ==> window[k] == lo + k
    ensures Edge(window) == lo + stride - 1
  {
    assert window[stride - 1] <= Edge(window);
    var k :| 0 <= k < stride && window[k] == Edge(window);
  }

  lemma BandWithinSpan(g: Grid, p: Player, lo: nat, span: nat)
    requires lo <= Home(g, p) < lo + span && Home(g, p) < g.total - 1 && span * g.width <= 255
    ensures lo * g.width <= p.rating < lo * g.width + 255
  {
    var b := Home(g, p);
    BucketBand(g, p.rating, b);
    Scale(lo, b, g.width);
    Scale(b + 1, lo + span, g.width);
    assert (lo + span) * g.width == lo * g.width + span * g.width;
  }

  /** Ratings within 254 of each other pass the gate until the tolerance overflows. */
  lemma CloseIsAdmitted(group: seq<Player>, low: nat, now: nat)
    requires |group| == 10 && forall i :: 0 <= i < 10 ==> low <= group[i].rating < low + 255
    requires LongestWait(group, now) < OVERFLOW_MS
    ensures Admits(group, now)
  {
    hide Spread;
    hide MaxTeamGap;
    forall p, q | p in group && q in group ensures p.rating - q.rating <= 254 {
    }
    SpreadWithinRange(group, 254);
    ToleranceIsLinear(LongestWait(group, now));
  }

  /** With narrow buckets a group from a window that does not wrap around, none of it
      from the catch-all last bucket, passes the gate whatever it has waited, up to the
      wait at which the tolerance overflows. */
  lemma GateNeverRejects(g: Grid, qs: Queues, lo: nat, stride: nat, window: seq<nat>, busy: set<nat>, now: nat)
    requires Placed(g, qs) && 0 < stride && lo + stride <= g.total && |window| == stride
    requires forall k :: 0 <= k < stride ==> window[k] == lo + k
    requires (stride + 2) * g.width <= 255
    requires Indices(window, g.total) && Harvested(g, qs, window, busy).Some?
    requires var group := Harvested(g, qs, window, busy).value;
             && (forall i :: 0 <= i < 10 ==> Home(g, group[i]) < g.total - 1)
             && LongestWait(group, now) < OVERFLOW_MS
    ensures Admits(Harvested(g, qs, window, busy).value, now)
  {
    hide Spread;
    hide Reach;
    hide MaxTeamGap;
    var group := Harvested(g, qs, window, busy).value;
    var a := Anchor(qs, window).value;
    var reach := Reach(window, a, g.total, busy);
    ReachIndices(window, a, g.total, busy);
    ReachSpan(lo, stride, window, a, g.total, busy);
    forall i | 0 <= i < 10
      ensures lo * g.width <= group[i].rating < lo * g.width + 255
    {
      VisitedHomes(g, qs, reach, i);
      BandWithinSpan(g, group[i], lo, stride + 2);
    }
    CloseIsAdmitted(group, lo * g.width, now);
  }

  lemma {:induction false} SumSame(s: seq<int>, x: int)
    requires forall i :: 0 <= i < |s| ==> s[i] == x
    ensures Sum(s) == |s| * x
  {
    if s != [] {
      SumSame(s[1..], x);
    }
  }

  lemma {:induction false} PickSame(s: seq<int>, bs: seq<bool>, side: bool, x: int)
    requires |s| == |bs| && forall i :: 0 <= i < |s| ==> s[i] == x
    ensures forall i :: 0 <= i < |Pick(s, bs, side)| ==> Pick(s, bs, side)[i] == x
  {
    if s != [] {
      PickSame(s[1..], bs[1..], side, x);
    }
  }

  /** Changing one rating changes the sum of its own side only, by as much. */
  lemma {:induction false} PickUpdate(v: seq<int>, bs: seq<bool>, side: bool, k: nat, y: int)
    requires |v| == |bs| && k < |v|
    ensures Sum(Pick(v[k := y], bs, side)) == Sum(Pick(v, bs, side)) + (if bs[k] == side then y - v[k] else 0)
  {
    if k == 0 {
      assert v[k := y][1..] == v[1..];
      SumHead(v[0], Pick(v[1..], bs[1..], side));
      SumHead(y, Pick(v[1..], bs[1..], side));
    } else {
      assert v[k := y][1..] == v[1..][k - 1 := y];
      PickUpdate(v[1..], bs[1..], side, k - 1, y);
      SumHead(v[0], Pick(v[1..], bs[1..], side));
      SumHead(v[0], Pick(v[1..][k - 1 := y], bs[1..], side));
    }
  }

  lemma SumHead(x: int, s: seq<int>)
    ensures Sum([x] + s) == x + Sum(s) && [] + s == s
  {
    assert ([x] + s)[1..] == s;
  }

  lemma OutlierGap(v: seq<int>, bs: seq<bool>, k: nat, x: int)
    requires Balanced(v, bs) && k < |v| && forall i :: 0 <= i < |v| && i != k ==> v[i] == x
    ensures SplitGap(v, bs) == Abs(v[k] - x)
  {
    var u := v[k := x];
    PickUpdate(v, bs, true, k, x);
    PickUpdate(v, bs, false, k, x);
    PickSame(u, bs, true, x);
    PickSame(u, bs, false, x);
    PickLength(u, bs);
    SumSame(Pick(u, bs, true), x);
    SumSame(Pick(u, bs, false), x);
  }

  /** Nine equal ratings and an outlier 255 above them are refused in the first tenth of a
      second, whichever of the ten the outlier is. */
  lemma OutlierIsRejected(group: seq<Player>, k: nat, x: nat, now: nat)
    requires |group| == 10 && k < 10
    requires forall i :: 0 <= i < 10 && i != k ==> group[i].rating == x
    requires group[k].rating >= x + 255
    requires LongestWait(group, now) < 100
    ensures Spread(group) == (group[k].rating - x) / 5 && !Admits(group, now)
  {
    hide MaskGap;
    hide MaxTeamGap;
    hide IsChosen;
    var v := Ratings(group);
    OutlierSpread(v, Chosen(v), k, x);
    ToleranceIsLinear(LongestWait(group, now));
  }

  lemma OutlierSpread(v: seq<int>, mask: nat, k: nat, x: int)
    requires |v| == 10 && IsChosen(v, mask) && k < 10
    requires forall i :: 0 <= i < 10 && i != k ==> v[i] == x
    ensures MaskGap(v, mask) == Abs(v[k] - x)
  {
    SplitIsBalanced(v, mask);
    OutlierGap(v, Bits(mask, 10), k, x);
  }

  lemma ShortWait(group: seq<Player>, now: nat)
    requires forall i :: 0 <= i < |group| ==> Elapsed(group[i], now) < 100
    ensures group != [] ==> LongestWait(group, now) < 100
  {
  }
}
