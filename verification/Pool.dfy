/** src/matcher.rs, the pool and algorithm 2: peek, border harvest and rollback, run by
    one thread over an array of FIFO buckets. */
module MatchPool {
  import opened Base
  import opened Optimizer
  import opened Buckets

  /** A player in a worker's hands, with the bucket they were popped from. */
  datatype Taken = Taken(origin: nat, player: Player)

  function Players(ts: seq<Taken>): (r: seq<Player>)
    ensures |r| == |ts|
  {
    seq(|ts|, i requires 0 <= i < |ts| => ts[i].player)
  }

  function Tag(b: nat, ps: seq<Player>): (r: seq<Taken>)
    ensures |r| == |ps| && Players(r) == ps
  {
    seq(|ps|, i requires 0 <= i < |ps| => Taken(b, ps[i]))
  }

  lemma TagNone(b: nat, q: seq<Player>)
    ensures Tag(b, q[..0]) == []
  {
  }

  lemma TagNext(b: nat, q: seq<Player>, k: nat)
    requires k < |q|
    ensures Tag(b, q[..k + 1]) == Tag(b, q[..k]) + [Taken(b, q[k])]
    ensures q[k..][0] == q[k] && q[k..][1..] == q[k + 1..]
  {
  }

  ghost predicate AtHome(g: Grid, ts: seq<Taken>) {
    forall i :: 0 <= i < |ts| ==> ts[i].origin == Home(g, ts[i].player)
  }

  // ---- The order of the harvest ----

  /** The first window bucket whose front player has waited longest. */
  function Anchor(qs: Queues, window: seq<nat>): (a: Option<nat>)
    requires Indices(window, |qs|)
    ensures a.None? ==> forall i :: 0 <= i < |window| ==> qs[window[i]] == []
    ensures a.Some? ==> a.value in window && qs[a.value] != []
                        && forall i :: 0 <= i < |window| && qs[window[i]] != []
                             ==> qs[a.value][0].enqueuedAt <= qs[window[i]][0].enqueuedAt
  {
    if window == [] then None else
    var n := |window| - 1;
    var a, q := Anchor(qs, window[..n]), qs[window[n]];
    if q != [] && (a.None? || q[0].enqueuedAt < qs[a.value][0].enqueuedAt) then Some(window[n]) else a
  }

  /** Among fronts of one time the anchor is the one the window lists first. */
  lemma {:induction false} AnchorIsFirst(qs: Queues, window: seq<nat>) returns (k: nat)
    requires Indices(window, |qs|) && Anchor(qs, window).Some?
    ensures k < |window| && window[k] == Anchor(qs, window).value
    ensures forall i :: 0 <= i < k && qs[window[i]] != [] ==> qs[window[k]][0].enqueuedAt < qs[window[i]][0].enqueuedAt
    decreases |window|
  {
    var n := |window| - 1;
    var a, q := Anchor(qs, window[..n]), qs[window[n]];
    if q != [] && (a.None? || q[0].enqueuedAt < qs[a.value][0].enqueuedAt) {
      k := n;
    } else {
      k := AnchorIsFirst(qs, window[..n]);
    }
  }

  /** The window in ascending order. */
  function Ascending(window: seq<nat>): (r: seq<nat>)
    ensures multiset(r) == multiset(window) && |r| == |window|
    ensures forall i, j :: 0 <= i < j < |r| ==> r[i] <= r[j]
    ensures Sorted(r)
  {
    var r: seq<int> := Sort(window);
    assert forall i :: 0 <= i < |r| ==> r[i] in multiset(window);
    r
  }

  function Others(s: seq<nat>, a: nat): seq<nat> {
    if s == [] then [] else (if s[0] != a then [s[0]] else []) + Others(s[1..], a)
  }

  /** At most two buckets just past the highest of the window, when they exist. */
  function Borders(edge: nat, total: nat): seq<nat> {
    (if edge + 1 < total then [edge + 1] else []) + (if edge + 2 < total then [edge + 2] else [])
  }

  function Edge(window: seq<nat>): (e: nat)
    requires window != []
    ensures e in window && forall i :: 0 <= i < |window| ==> window[i] <= e
  {
    var r := Ascending(window);
    var e := r[|r| - 1];
    assert e in multiset(window);
    assert forall i :: 0 <= i < |window| ==> window[i] in multiset(r);
    e
  }

  /** Anchor first, the rest of the window ascending, then the borders. */
  function DrainOrder(window: seq<nat>, anchor: nat, total: nat): seq<nat>
    requires window != []
  {
    [anchor] + Others(Ascending(window), anchor) + Borders(Edge(window), total)
  }

  lemma {:induction false} OthersBag(s: seq<nat>, a: nat)
    requires Distinct(s)
    ensures multiset(Others(s, a)) == multiset(s) - multiset{a}
  {
    if s != [] {
      TailBag(s);
      OthersBag(s[1..], a);
      assert s[0] !in s[1..];
    }
  }

  lemma DistinctBag(x: seq<nat>, y: seq<nat>)
    requires Distinct(x) && multiset(x) == multiset(y)
    ensures Distinct(y)
  {
    forall i, j | 0 <= i < j < |y| ensures y[i] != y[j] {
      DistinctCount(x, y[i]);
      WithoutBag(y, i);
      assert Without(y, i)[j - 1] == y[j];
      assert y[j] in multiset(Without(y, i));
    }
  }

  lemma {:induction false} DistinctCount(x: seq<nat>, v: nat)
    requires Distinct(x)
    ensures multiset(x)[v] <= 1
  {
    if x != [] {
      TailBag(x);
      DistinctCount(x[1..], v);
      assert x[0] !in x[1..];
    }
  }

  lemma OwnBuckets(window: seq<nat>, anchor: nat)
    requires Distinct(window) && anchor in window
    ensures var own := [anchor] + Others(Ascending(window), anchor);
            && multiset(own) == multiset(window) && |own| == |window| && Distinct(own)
            && forall i :: 0 <= i < |own| ==> own[i] in window
  {
    var w := Ascending(window);
    DistinctBag(window, w);
    OthersBag(w, anchor);
    assert anchor in multiset(window);
    var own := [anchor] + Others(w, anchor);
    assert multiset(own) == multiset(window);
    SameLength(own, window);
    DistinctBag(window, own);
    forall i | 0 <= i < |own| ensures own[i] in window {
      assert own[i] in multiset(window);
    }
  }

  /** Each window bucket is visited exactly once, the anchor first, and only then the
      borders, which lie in range and beyond the whole window. */
  lemma DrainOrderShape(window: seq<nat>, anchor: nat, total: nat)
    requires Distinct(window) && Indices(window, total) && anchor in window
    ensures var order := DrainOrder(window, anchor, total);
            && |window| <= |order| && order[0] == anchor
            && multiset(order[..|window|]) == multiset(window)
            && order[|window|..] == Borders(Edge(window), total)
            && Indices(order, total) && Distinct(order)
            && forall i, j :: |window| <= i < |order| && 0 <= j < |window| ==> window[j] < order[i]
  {
    hide Edge;
    hide Ascending;
    OwnBuckets(window, anchor);
    var own, borders := [anchor] + Others(Ascending(window), anchor), Borders(Edge(window), total);
    var order := DrainOrder(window, anchor, total);
    assert order == own + borders;
    assert order[..|window|] == own && order[|window|..] == borders;
  }

  /** The visiting order from the window alone, which may repeat buckets: the anchor, the
      other buckets of the window from the lowest up, then the one or two buckets past its
      highest that exist, in this order. */
  lemma VisitingOrder(window: seq<nat>, anchor: nat, total: nat) returns (n: nat, top: nat)
    requires Indices(window, total) && anchor in window
    ensures top in window && forall b :: b in window ==> b <= top
    ensures var order := DrainOrder(window, anchor, total);
            && 1 <= n <= |window| && n <= |order| && order[0] == anchor
            && (forall i :: 1 <= i < n ==> order[i] in window && order[i] != anchor)
            && (forall i, j :: 1 <= i < j < n ==> order[i] <= order[j])
            && (forall b :: b in window ==> b in order[..n])
            && (forall i :: n <= i < |order| ==> order[i] == top + 1 + (i - n))
            && |order| == n + (if top + 2 < total then 2 else if top + 1 < total then 1 else 0)
    ensures Distinct(window) ==>
              n == |window|
              && forall i, j :: 1 <= i < j < n ==> DrainOrder(window, anchor, total)[i] < DrainOrder(window, anchor, total)[j]
  {
    top := Edge(window);
    var rest := WindowRest(window, anchor);
    n := 1 + |rest|;
    OrderIsParts(window, anchor, total);
    hide *;
    BordersAre(top, total);
    PartsInOrder(anchor, rest, Borders(top, total), top);
    forall b | b in window ensures b in DrainOrder(window, anchor, total)[..n] {
      assert b == anchor || b in rest;
    }
    if Distinct(window) {
      DrainOrderShape(window, anchor, total);
      PartsDistinct(window, anchor, rest);
    }
  }

  lemma OrderIsParts(window: seq<nat>, anchor: nat, total: nat)
    requires window != []
    ensures DrainOrder(window, anchor, total) == [anchor] + Others(Ascending(window), anchor) + Borders(Edge(window), total)
  {
  }

  lemma BordersAre(top: nat, total: nat)
    ensures |Borders(top, total)| == if top + 2 < total then 2 else if top + 1 < total then 1 else 0
    ensures forall i :: 0 <= i < |Borders(top, total)| ==> Borders(top, total)[i] == top + 1 + i
  {
  }

  lemma PartsInOrder(anchor: nat, rest: seq<nat>, borders: seq<nat>, top: nat)
    requires Ascends(rest) && forall i :: 0 <= i < |borders| ==> borders[i] == top + 1 + i
    ensures var n, order := 1 + |rest|, [anchor] + rest + borders;
            && order[0] == anchor && order[..n] == [anchor] + rest
            && (forall i :: 1 <= i < n ==> order[i] == rest[i - 1])
            && (forall i, j :: 1 <= i < j < n ==> order[i] <= order[j])
            && (forall i :: n <= i < |order| ==> order[i] == top + 1 + (i - n))
  {
  }

  lemma PartsDistinct(window: seq<nat>, anchor: nat, rest: seq<nat>)
    requires Distinct(window) && anchor in window && rest == Others(Ascending(window), anchor)
    ensures 1 + |rest| == |window| && Distinct([anchor] + rest)
  {
    OwnBuckets(window, anchor);
  }

  /** The window without its anchor, from the lowest up. */
  lemma WindowRest(window: seq<nat>, anchor: nat) returns (rest: seq<nat>)
    requires anchor in window
    ensures rest == Others(Ascending(window), anchor) && |rest| < |window| && Ascends(rest)
    ensures forall i :: 0 <= i < |rest| ==> rest[i] in window && rest[i] != anchor
    ensures forall b :: b in window && b != anchor ==> b in rest
  {
    var w := Ascending(window);
    rest := Others(w, anchor);
    assert forall b :: b in multiset(w) <==> b in multiset(window);
    assert forall b :: b in w <==> b in multiset(w);
    assert forall b :: b in window <==> b in multiset(window);
    hide *;
    OthersAscend(w, anchor);
    OthersMembers(w, anchor);
    OthersKeep(w, anchor);
    OthersShorter(w, anchor);
    OthersSkip(w, anchor);
    AscendingAscends(window);
    forall i | 0 <= i < |rest| ensures rest[i] in window && rest[i] != anchor {
      assert rest[i] in rest;
    }
  }

  lemma AscendingAscends(window: seq<nat>)
    ensures Ascends(Ascending(window))
  {
  }

  lemma {:induction false} OthersSkip(s: seq<nat>, a: nat)
    ensures a !in Others(s, a)
  {
    if s != [] {
      OthersSkip(s[1..], a);
    }
  }

  lemma {:induction false} OthersShorter(s: seq<nat>, a: nat)
    ensures |Others(s, a)| <= |s|
    ensures a in multiset(s) ==> |Others(s, a)| < |s|
  {
    if s != [] {
      TailBag(s);
      OthersShorter(s[1..], a);
    }
  }

  lemma {:induction false} OthersMembers(s: seq<nat>, a: nat)
    ensures forall b :: b in Others(s, a) ==> b in s
  {
    if s != [] {
      OthersMembers(s[1..], a);
    }
  }

  ghost predicate Ascends(s: seq<nat>) {
    forall i, j :: 0 <= i < j < |s| ==> s[i] <= s[j]
  }

  lemma {:induction false} OthersAscend(s: seq<nat>, a: nat)
    requires Ascends(s)
    ensures Ascends(Others(s, a))
  {
    if s != [] {
      OthersAscend(s[1..], a);
      OthersMembers(s[1..], a);
      var r := Others(s[1..], a);
      forall k | 0 <= k < |r| ensures s[0] <= r[k] {
        assert r[k] in s[1..];
        var j :| 0 <= j < |s[1..]| && s[1..][j] == r[k];
        assert s[j + 1] == r[k];
      }
      AscendsFrom(s[0], r);
    }
  }

  lemma AscendsFrom(x: nat, s: seq<nat>)
    requires Ascends(s) && forall k :: 0 <= k < |s| ==> x <= s[k]
    ensures Ascends([x] + s) && [] + s == s
  {
  }

  lemma {:induction false} OthersKeep(s: seq<nat>, a: nat)
    ensures forall b :: b in s && b != a ==> b in Others(s, a)
  {
    if s != [] {
      OthersKeep(s[1..], a);
    }
  }

  /** Every bucket of the window and every border is somewhere in the order. */
  lemma OrderCovers(window: seq<nat>, anchor: nat, total: nat)
    requires window != []
    ensures forall b :: b in window || b in Borders(Edge(window), total) ==> b in DrainOrder(window, anchor, total)
  {
    hide Edge;
    var w := Ascending(window);
    OthersKeep(w, anchor);
    forall b | b in window ensures b in w {
      assert b in multiset(window);
      assert b in multiset(w);
    }
  }

  /** Even when a window repeats buckets, the order starts at the anchor and stays in range. */
  lemma OrderInRange(window: seq<nat>, anchor: nat, total: nat)
    requires Indices(window, total) && anchor in window
    ensures var order := DrainOrder(window, anchor, total); order[0] == anchor && Indices(order, total)
  {
    hide Edge;
    var w := Ascending(window);
    OthersMembers(w, anchor);
    forall b | b in Others(w, anchor) ensures b < total {
      assert b in multiset(w);
    }
    forall i | 0 <= i < |Others(w, anchor)| ensures Others(w, anchor)[i] < total {
      assert Others(w, anchor)[i] in Others(w, anchor);
    }
  }

  // ---- What a harvest finds ----

  /** The buckets up to the first whose lock somebody else holds. */
  function UntilBusy(borders: seq<nat>, busy: set<nat>): seq<nat> {
    if borders == [] || borders[0] in busy then [] else [borders[0]] + UntilBusy(borders[1..], busy)
  }

  /** The buckets a harvest may drain. From the position of the window's length on, the
      lock is only tried. */
  function Reach(window: seq<nat>, anchor: nat, total: nat, busy: set<nat>): seq<nat>
    requires window != []
  {
    var order := DrainOrder(window, anchor, total);
    var cut := Min(|window|, |order|);
    order[..cut] + UntilBusy(order[cut..], busy)
  }

  /** The group a harvest must return: the first ten players of the reachable queues,
      provided there are ten. */
  function Harvested(g: Grid, qs: Queues, window: seq<nat>, busy: set<nat>): (r: Option<seq<Player>>)
    requires |qs| == g.total && Indices(window, g.total)
    ensures r.Some? ==> |r.value| == 10
  {
    match Anchor(qs, window)
    case None => None
    case Some(a) =>
      ReachIndices(window, a, g.total, busy);
      var found := Visited(qs, Reach(window, a, g.total, busy));
      if |found| >= 10 then Some(found[..10]) else None
  }

  lemma {:induction false} UntilBusyPrefix(borders: seq<nat>, busy: set<nat>)
    ensures UntilBusy(borders, busy) <= borders
    ensures forall i :: 0 <= i < |UntilBusy(borders, busy)| ==> borders[i] !in busy
    ensures |UntilBusy(borders, busy)| < |borders| ==> borders[|UntilBusy(borders, busy)|] in busy
  {
    if borders != [] && borders[0] !in busy {
      UntilBusyPrefix(borders[1..], busy);
      assert borders == [borders[0]] + borders[1..];
    }
  }

  lemma ReachPrefix(window: seq<nat>, anchor: nat, total: nat, busy: set<nat>)
    requires window != []
    ensures Reach(window, anchor, total, busy) <= DrainOrder(window, anchor, total)
  {
    hide DrainOrder;
    var order := DrainOrder(window, anchor, total);
    UntilBusyPrefix(order[Min(|window|, |order|)..], busy);
  }

  lemma ReachIndices(window: seq<nat>, anchor: nat, total: nat, busy: set<nat>)
    requires Indices(window, total) && anchor in window
    ensures Indices(Reach(window, anchor, total, busy), total)
  {
    hide Reach;
    OrderInRange(window, anchor, total);
    ReachPrefix(window, anchor, total, busy);
  }

  function FirstTen(ps: seq<Player>): seq<Player> {
    ps[..Min(10, |ps|)]
  }

  /** The buckets seen are empty and the others untouched. */
  ghost predicate Emptied(whole: Queues, qs: Queues, seen: seq<nat>) {
    |whole| == |qs| && forall b :: 0 <= b < |qs| ==> qs[b] == if b in seen then [] else whole[b]
  }

  /** State of a harvest that has visited the first `pos` buckets of its order. */
  ghost predicate Gathered(g: Grid, whole: Queues, qs: Queues, order: seq<nat>, pos: nat, taken: seq<Taken>) {
    && |whole| == g.total && Indices(order, g.total) && pos <= |order|
    && Placed(g, qs) && AtHome(g, taken) && Divides(g, whole, Players(taken), qs)
    && Players(taken) == FirstTen(Visited(whole, order[..pos]))
    && (|taken| < 10 ==> Emptied(whole, qs, order[..pos]))
  }

  lemma GatherStart(g: Grid, whole: Queues, order: seq<nat>)
    requires Placed(g, whole) && Indices(order, g.total)
    ensures Gathered(g, whole, whole, order, 0, [])
  {
    NothingTaken(g, whole);
  }

  lemma GatherOpen(g: Grid, whole: Queues, qs: Queues, order: seq<nat>, pos: nat, taken: seq<Taken>)
    requires Gathered(g, whole, qs, order, pos, taken)
    ensures Placed(g, qs) && AtHome(g, taken) && Divides(g, whole, Players(taken), qs)
    ensures pos <= |order| && Indices(order, g.total) && |whole| == |qs| == g.total && |taken| <= 10
    ensures Players(taken) == FirstTen(Visited(whole, order[..pos]))
  {
  }

  lemma TagAtHome(g: Grid, qs: Queues, taken: seq<Taken>, b: nat, n: nat)
    requires Placed(g, qs) && AtHome(g, taken) && b < g.total && n <= |qs[b]|
    ensures AtHome(g, taken + Tag(b, qs[b][..n]))
    ensures Players(taken + Tag(b, qs[b][..n])) == Players(taken) + qs[b][..n]
  {
  }

  lemma VisitStep(whole: Queues, qs: Queues, order: seq<nat>, pos: nat)
    requires Indices(order, |whole|) && pos < |order| && Emptied(whole, qs, order[..pos])
    requires |Visited(whole, order[..pos])| < 10
    ensures var seen, b := Visited(whole, order[..pos]), order[pos];
            && FirstTen(Visited(whole, order[..pos])) == seen
            && FirstTen(Visited(whole, order[..pos + 1])) == seen + qs[b][..Min(10 - |seen|, |qs[b]|)]
  {
    hide Visited;
    VisitedNext(whole, order, pos);
  }

  lemma EmptyStep(whole: Queues, qs: Queues, order: seq<nat>, pos: nat)
    requires pos < |order| && order[pos] < |qs| && Emptied(whole, qs, order[..pos])
    ensures Emptied(whole, qs[order[pos] := qs[order[pos]][|qs[order[pos]]|..]], order[..pos + 1])
  {
    assert order[..pos + 1] == order[..pos] + [order[pos]];
  }

  lemma GatherStep(g: Grid, whole: Queues, qs: Queues, order: seq<nat>, pos: nat, taken: seq<Taken>)
    requires Gathered(g, whole, qs, order, pos, taken) && pos < |order| && |taken| < 10
    ensures var b := order[pos];
            var n := Min(10 - |taken|, |qs[b]|);
            Gathered(g, whole, qs[b := qs[b][n..]], order, pos + 1, taken + Tag(b, qs[b][..n]))
  {
    hide Divides;
    hide AtHome;
    hide Placed;
    hide Visited;
    GatherOpen(g, whole, qs, order, pos, taken);
    var b := order[pos];
    var n := Min(10 - |taken|, |qs[b]|);
    TakeDivides(g, whole, Players(taken), qs, b, n);
    TagAtHome(g, qs, taken, b, n);
    VisitStep(whole, qs, order, pos);
    EmptyStep(whole, qs, order, pos);
    hide Emptied;
    hide Tag;
    hide Players;
  }

  lemma QueueCount(g: Grid, qs: Queues)
    requires Placed(g, qs)
    ensures |qs| == g.total
  {
  }

  /** As long as no busy border was met, what was visited is a prefix of the reach, and
      all of it once the order ends or a busy border stops the harvest. */
  lemma VisitedReach(window: seq<nat>, a: nat, total: nat, busy: set<nat>, pos: nat)
    requires window != [] && pos <= |DrainOrder(window, a, total)|
    requires forall i :: |window| <= i < pos ==> DrainOrder(window, a, total)[i] !in busy
    ensures var order, reach := DrainOrder(window, a, total), Reach(window, a, total, busy);
            && order[..pos] <= reach
            && (pos == |order| || (pos >= |window| && order[pos] in busy) ==> order[..pos] == reach)
  {
    hide DrainOrder;
    var order, reach := DrainOrder(window, a, total), Reach(window, a, total, busy);
    var cut := Min(|window|, |order|);
    var rest := order[cut..];
    UntilBusyPrefix(rest, busy);
    var n := |UntilBusy(rest, busy)|;
    assert reach == order[..cut + n];
    if n < |rest| {
      assert order[cut + n] == rest[n];
    }
    if pos >= |window| && pos < |order| && order[pos] in busy {
      assert rest[pos - cut] == order[pos];
    }
  }

  lemma FirstTenOf(x: seq<Player>, y: seq<Player>)
    requires x <= y && |FirstTen(x)| == 10
    ensures |y| >= 10 && y[..10] == FirstTen(x)
  {
  }

  lemma GatherFound(g: Grid, qs: Queues, window: seq<nat>, a: nat, busy: set<nat>, pos: nat)
    requires |qs| == g.total && Indices(window, g.total)
    requires Anchor(qs, window) == Some(a)
    requires pos <= |DrainOrder(window, a, g.total)| && Indices(DrainOrder(window, a, g.total), g.total)
    requires forall i :: |window| <= i < pos ==> DrainOrder(window, a, g.total)[i] !in busy
    ensures var order := DrainOrder(window, a, g.total);
            var found := FirstTen(Visited(qs, order[..pos]));
            && (|found| == 10 ==> Harvested(g, qs, window, busy) == Some(found))
            && (|found| < 10 && (pos == |order| || (pos >= |window| && order[pos] in busy))
                ==> Harvested(g, qs, window, busy) == None)
  {
    hide DrainOrder;
    hide Reach;
    hide Visited;
    VisitedReach(window, a, g.total, busy, pos);
    ReachIndices(window, a, g.total, busy);
    var seen, all := DrainOrder(window, a, g.total)[..pos], Reach(window, a, g.total, busy);
    VisitedPrefix(qs, seen, all);
    if |FirstTen(Visited(qs, seen))| == 10 {
      FirstTenOf(Visited(qs, seen), Visited(qs, all));
    }
  }

  lemma NothingFound(g: Grid, qs: Queues, window: seq<nat>, busy: set<nat>)
    requires |qs| == g.total && Indices(window, g.total)
    requires Anchor(qs, window) == None
    ensures Harvested(g, qs, window, busy) == None
  {
  }

  /** The players of `ts` popped from bucket `b`, in order. */
  function Back(ts: seq<Taken>, b: nat): seq<Player> {
    if ts == [] then [] else (if ts[0].origin == b then [ts[0].player] else []) + Back(ts[1..], b)
  }

  /** Going back by origin and going back by rating are the same for players popped from
      their own bucket. */
  lemma {:induction false} BackIsFrom(g: Grid, ts: seq<Taken>, b: nat)
    requires AtHome(g, ts)
    ensures Back(ts, b) == From(g, Players(ts), b)
  {
    if ts != [] {
      assert Players(ts)[1..] == Players(ts[1..]);
      BackIsFrom(g, ts[1..], b);
    }
  }

  // ---- Snapshots of the pool ----

  /** What a snapshot keeps of a player; `event` is the model's name for the stream entry. */
  datatype Saved = Saved(id: int, rating: u32, event: nat)

  function Saves(ps: seq<Player>): (r: seq<Saved>)
    ensures |r| == |ps|
  {
    seq(|ps|, i requires 0 <= i < |ps| => Saved(ps[i].id, ps[i].rating, ps[i].event))
  }

  /** Every waiting player, bucket after bucket. */
  function AllSaved(qs: Queues): seq<Saved> {
    if qs == [] then [] else Saves(qs[0]) + AllSaved(qs[1..])
  }

  /** Saved players as fresh enqueues: a new waiting time and a new token each. */
  function Revive(saved: seq<Saved>, now: nat, token: nat): (r: seq<Player>)
    ensures |r| == |saved|
  {
    seq(|saved|, i requires 0 <= i < |saved| =>
      Player(saved[i].id, saved[i].rating, now, token + i, saved[i].event))
  }

  lemma ReviveConcat(x: seq<Saved>, y: seq<Saved>, now: nat, token: nat)
    ensures Revive(x + y, now, token) == Revive(x, now, token) + Revive(y, now, token + |x|)
  {
  }

  lemma SavesOfRevive(g: Grid, q: seq<Player>, home: nat, b: nat, now: nat, token: nat)
    requires forall i :: 0 <= i < |q| ==> Home(g, q[i]) == home
    ensures Saves(From(g, Revive(Saves(q), now, token), b)) == if b == home then Saves(q) else []
  {
    FromSame(g, Revive(Saves(q), now, token), home, b);
  }

  lemma RestoreStep(g: Grid, q: seq<Player>, rest: seq<Saved>, b: nat, now: nat, token: nat)
    ensures Saves(From(g, Revive(Saves(q) + rest, now, token), b))
         == Saves(From(g, Revive(Saves(q), now, token), b)) + Saves(From(g, Revive(rest, now, token + |q|), b))
  {
    ReviveConcat(Saves(q), rest, now, token);
    FromConcat(g, Revive(Saves(q), now, token), Revive(rest, now, token + |q|), b);
  }

  lemma {:induction false} RestoreFrom(g: Grid, qs: Queues, k: nat, b: nat, now: nat, token: nat)
    requires Placed(g, qs) && k <= g.total && b < g.total
    ensures Restored(g, AllSaved(qs[k..]), b, now, token) == if k <= b then Saves(qs[b]) else []
    decreases g.total - k
  {
    assert |qs| == g.total;
    if k == g.total {
      assert qs[k..] == [];
      RestoreNone(g, b, now, token);
    } else {
      hide Restored;
      RestoreFrom(g, qs, k + 1, b, now, token + |qs[k]|);
      RestoreBucket(g, qs, k, b, now, token);
    }
  }

  /** What a restore of `saved` puts in bucket `b`. */
  function Restored(g: Grid, saved: seq<Saved>, b: nat, now: nat, token: nat): seq<Saved> {
    Saves(From(g, Revive(saved, now, token), b))
  }

  lemma RestoreBucket(g: Grid, qs: Queues, k: nat, b: nat, now: nat, token: nat)
    requires Placed(g, qs) && k < g.total
    ensures Restored(g, AllSaved(qs[k..]), b, now, token)
         == (if b == k then Saves(qs[k]) else []) + Restored(g, AllSaved(qs[k + 1..]), b, now, token + |qs[k]|)
  {
    assert forall i :: 0 <= i < |qs[k]| ==> Home(g, qs[k][i]) == k;
    hide From;
    hide Placed;
    SavesOfRevive(g, qs[k], k, b, now, token);
    AllSavedAt(qs, k);
    RestoreStep(g, qs[k], AllSaved(qs[k + 1..]), b, now, token);
  }

  lemma RestoreNone(g: Grid, b: nat, now: nat, token: nat)
    ensures Restored(g, AllSaved([]), b, now, token) == []
  {
  }

  lemma AllSavedAt(qs: Queues, k: nat)
    requires k < |qs|
    ensures AllSaved(qs[k..]) == Saves(qs[k]) + AllSaved(qs[k + 1..])
  {
    assert qs[k..][0] == qs[k] && qs[k..][1..] == qs[k + 1..];
  }

  /** Who a restore puts behind bucket `b`: the saved players whose rating names it, in the
      order of the snapshot, their wait starting now. */
  lemma RestoredAre(g: Grid, saved: seq<Saved>, b: nat, now: nat, token: nat) returns (at: seq<nat>)
    ensures var r := From(g, Revive(saved, now, token), b);
            && |at| == |r|
            && (forall k :: 0 <= k < |at| ==>
                  && at[k] < |saved| && r[k].id == saved[at[k]].id && r[k].rating == saved[at[k]].rating
                  && r[k].event == saved[at[k]].event && r[k].enqueuedAt == now)
    ensures forall j, k :: 0 <= j < k < |at| ==> at[j] < at[k]
    ensures forall i :: 0 <= i < |saved| ==> (BucketIndex(g, saved[i].rating) == b <==> i in at)
  {
    hide BucketIndex;
    at := FromPlaces(g, Revive(saved, now, token), b);
    hide From;
    var all: seq<Player> := Revive(saved, now, token);
    assert forall i :: 0 <= i < |saved| ==> all[i].rating == saved[i].rating;
  }

  /** Restoring a snapshot into an empty pool of the same shape gives every bucket the
      same users and ratings in the same order, their wait starting at the restart. */
  lemma SnapshotRoundTrip(g: Grid, qs: Queues, now: nat, token: nat)
    requires Placed(g, qs)
    ensures forall b :: 0 <= b < g.total ==> SameAgain(qs[b], From(g, Revive(AllSaved(qs), now, token), b), now)
  {
    forall b | 0 <= b < g.total
      ensures SameAgain(qs[b], From(g, Revive(AllSaved(qs), now, token), b), now)
    {
      var at := RestoredAre(g, AllSaved(qs), b, now, token);
      SavesRoundTrip(g, qs, now, token);
      var r := From(g, Revive(AllSaved(qs), now, token), b);
      assert Saves(r) == Saves(qs[b]);
      hide *;
      SavesSame(qs[b], r, now);
    }
  }

  /** The same users, ratings and events in the same order, enqueued now. */
  ghost predicate SameAgain(q: seq<Player>, r: seq<Player>, now: nat) {
    |r| == |q| && forall k :: 0 <= k < |q| ==>
      r[k].id == q[k].id && r[k].rating == q[k].rating && r[k].event == q[k].event && r[k].enqueuedAt == now
  }

  lemma SavesSame(q: seq<Player>, r: seq<Player>, now: nat)
    requires Saves(r) == Saves(q) && forall k :: 0 <= k < |r| ==> r[k].enqueuedAt == now
    ensures SameAgain(q, r, now)
  {
    forall k | 0 <= k < |q| ensures r[k].id == q[k].id && r[k].rating == q[k].rating && r[k].event == q[k].event {
      assert Saves(r)[k] == Saves(q)[k];
    }
  }

  lemma SavesRoundTrip(g: Grid, qs: Queues, now: nat, token: nat)
    requires Placed(g, qs)
    ensures forall b :: 0 <= b < g.total ==> Saves(From(g, Revive(AllSaved(qs), now, token), b)) == Saves(qs[b])
  {
    forall b | 0 <= b < g.total
      ensures Saves(From(g, Revive(AllSaved(qs), now, token), b)) == Saves(qs[b])
    {
      assert qs[0..] == qs;
      RestoreFrom(g, qs, 0, b, now, token);
    }
  }

  lemma {:induction false} AllSavedConcat(x: Queues, y: Queues)
    ensures AllSaved(x + y) == AllSaved(x) + AllSaved(y)
  {
    if x == [] {
      assert x + y == y;
    } else {
      assert (x + y)[1..] == x[1..] + y;
      AllSavedConcat(x[1..], y);
    }
  }

  // ---- The pool itself ----

  class Pool {
    const grid: Grid
    const buckets: array<seq<Player>>

    ghost predicate Valid()
      reads buckets
    {
      Placed(grid, buckets[..])
    }

    constructor (numBuckets: nat, bucketWidth: nat)
      requires numBuckets > 0 && bucketWidth > 0
      ensures Valid() && fresh(buckets)
      ensures grid == GridShape(bucketWidth, numBuckets)
      ensures forall b :: 0 <= b < numBuckets ==> buckets[b] == []
    {
      grid := GridShape(bucketWidth, numBuckets);
      buckets := new seq<Player>[numBuckets](_ => []);
    }

    method Enqueue(p: Player)
      requires Valid()
      modifies buckets
      ensures Valid()
      ensures var b := Home(grid, p); buckets[..] == old(buckets[..])[b := old(buckets[b]) + [p]]
    {
      var idx := BucketIndex(grid, p.rating);
      buckets[idx] := buckets[idx] + [p];
    }

    method PeekOldest(window: seq<nat>) returns (anchor: Option<nat>)
      requires Valid() && Indices(window, grid.total)
      ensures anchor == Anchor(buckets[..], window)
    {
      anchor := None;
      var oldest := 0;
      for k := 0 to |window|
        invariant anchor == Anchor(buckets[..], window[..k])
        invariant anchor.Some? ==> oldest == buckets[anchor.value][0].enqueuedAt
      {
        assert window[..k + 1][..k] == window[..k];
        var q := buckets[window[k]];
        if q != [] {
          if anchor.None? || q[0].enqueuedAt < oldest {
            oldest, anchor := q[0].enqueuedAt, Some(window[k]);
          }
        }
      }
      assert window[..|window|] == window;
    }

    /** Lay out the visiting order: anchor, rest of the window, borders. */
    method PlanDrain(window: seq<nat>, anchor: nat) returns (order: seq<nat>)
      requires Indices(window, grid.total) && anchor in window
      ensures order == DrainOrder(window, anchor, grid.total)
    {
      var sorted := Ascending(window);
      var own := AddOthers(sorted, anchor);
      order := AddBorders(own, Edge(window));
    }

    method AddOthers(sorted: seq<nat>, anchor: nat) returns (own: seq<nat>)
      ensures own == [anchor] + Others(sorted, anchor)
    {
      own := [anchor];
      for k := 0 to |sorted|
        invariant own + Others(sorted[k..], anchor) == [anchor] + Others(sorted, anchor)
      {
        assert sorted[k..][1..] == sorted[k + 1..];
        if sorted[k] != anchor {
          own := own + [sorted[k]];
        }
      }
    }

    method AddBorders(own: seq<nat>, maxIdx: nat) returns (order: seq<nat>)
      ensures order == own + Borders(maxIdx, grid.total)
    {
      order := own;
      for step := 1 to 3
        invariant step == 1 ==> order == own
        invariant step == 2 ==> order == own + (if maxIdx + 1 < grid.total then [maxIdx + 1] else [])
        invariant step == 3 ==> order == own + Borders(maxIdx, grid.total)
      {
        if maxIdx + step < grid.total {
          order := order + [maxIdx + step];
        }
      }
    }

    /** Pop from the front of one bucket until ten are in hand or the bucket is empty. */
    method DrainBucket(b: nat, taken: seq<Taken>) returns (more: seq<Taken>)
      requires b < buckets.Length && |taken| <= 10
      modifies buckets
      ensures var n := Min(10 - |taken|, |old(buckets[b])|);
              && more == taken + Tag(b, old(buckets[b])[..n])
              && buckets[..] == old(buckets[..])[b := old(buckets[b])[n..]]
    {
      hide Tag;
      more := taken;
      ghost var k, q := 0, buckets[b];
      TagNone(b, q);
      while |more| < 10 && buckets[b] != []
        invariant 0 <= k <= |q| && |more| == |taken| + k <= 10
        invariant more == taken + Tag(b, q[..k])
        invariant buckets[b] == q[k..]
        invariant forall c :: 0 <= c < buckets.Length && c != b ==> buckets[c] == old(buckets[c])
        decreases |buckets[b]|
      {
        TagNext(b, q, k);
        more := more + [Taken(b, buckets[b][0])];
        buckets[b] := buckets[b][1..];
        k := k + 1;
      }
    }

    /** Return players to the fronts of the buckets they were popped from. */
    method Rollback(taken: seq<Taken>)
      requires forall i :: 0 <= i < |taken| ==> taken[i].origin < buckets.Length
      modifies buckets
      ensures forall b :: 0 <= b < buckets.Length ==> buckets[b] == Back(taken, b) + old(buckets[b])
    {
      for i := |taken| downto 0
        invariant forall b :: 0 <= b < buckets.Length ==> buckets[b] == Back(taken[i..], b) + old(buckets[b])
      {
        var t := taken[i];
        assert taken[i..][1..] == taken[i + 1..];
        buckets[t.origin] := [t.player] + buckets[t.origin];
      }
    }

    /** Return a rejected group to the fronts of the buckets their ratings name. */
    method ReturnGroup(group: seq<Player>)
      requires Valid()
      modifies buckets
      ensures Valid()
      ensures forall b :: 0 <= b < buckets.Length ==> buckets[b] == From(grid, group, b) + old(buckets[b])
    {
      for i := |group| downto 0
        invariant Valid()
        invariant forall b :: 0 <= b < buckets.Length ==> buckets[b] == From(grid, group[i..], b) + old(buckets[b])
      {
        var p := group[i];
        assert group[i..][1..] == group[i + 1..];
        var idx := BucketIndex(grid, p.rating);
        buckets[idx] := [p] + buckets[idx];
      }
    }

    /** Rolling back a partial harvest restores the pool. */
    method Abort(taken: seq<Taken>, ghost whole: Queues)
      requires Valid() && AtHome(grid, taken) && Divides(grid, whole, Players(taken), buckets[..])
      modifies buckets
      ensures buckets[..] == whole
    {
      ghost var left := buckets[..];
      Rollback(taken);
      forall b | 0 <= b < grid.total ensures buckets[b] == whole[b] {
        BackIsFrom(grid, taken, b);
        assert whole[b] == From(grid, Players(taken), b) + left[b];
      }
    }

    /** Visit the buckets of the order until ten are in hand, the order ends, or a border
        bucket turns out to be busy. */
    method Gather(order: seq<nat>, windowLen: nat, busy: set<nat>, ghost whole: Queues)
      returns (taken: seq<Taken>, ghost pos: nat, blocked: bool)
      requires Valid() && whole == buckets[..] && Indices(order, grid.total)
      modifies buckets
      ensures pos <= |order| && Gathered(grid, whole, buckets[..], order, pos, taken)
      ensures forall i :: windowLen <= i < pos ==> order[i] !in busy
      ensures if blocked then |taken| < 10 && windowLen <= pos < |order| && order[pos] in busy
              else |taken| == 10 || pos == |order|
    {
      hide Gathered;
      hide Divides;
      hide Placed;
      GatherStart(grid, whole, order);
      taken, pos, blocked := [], 0, false;
      for k := 0 to |order|
        invariant pos == k && Gathered(grid, whole, buckets[..], order, k, taken)
        invariant forall i :: windowLen <= i < k ==> order[i] !in busy
      {
        GatherOpen(grid, whole, buckets[..], order, k, taken);
        if |taken| == 10 {
          return;
        }
        var isBorder := k >= windowLen;
        if isBorder && order[k] in busy {
          blocked := true;
          return;
        }
        GatherStep(grid, whole, buckets[..], order, k, taken);
        taken := DrainBucket(order[k], taken);
        pos := k + 1;
      }
    }

    /** Harvest exactly ten, or nothing. `busy` names the border buckets whose lock
        another thread holds when this one tries it. */
    method Harvest(window: seq<nat>, busy: set<nat>) returns (r: Option<seq<Player>>)
      requires Valid() && Indices(window, grid.total)
      modifies buckets
      ensures Valid()
      ensures r == Harvested(grid, old(buckets[..]), window, busy)
      ensures r.None? ==> buckets[..] == old(buckets[..])
      ensures r.Some? ==> Divides(grid, old(buckets[..]), r.value, buckets[..])
    {
      hide Harvested;
      hide DrainOrder;
      hide Gathered;
      hide Divides;
      hide Placed;
      hide FirstTen;
      hide Visited;
      ghost var whole := buckets[..];
      QueueCount(grid, whole);
      var anchor := PeekOldest(window);
      if anchor.None? {
        NothingFound(grid, whole, window, busy);
        return None;
      }
      var order := PlanDrain(window, anchor.value);
      OrderInRange(window, anchor.value, grid.total);
      var taken, pos, blocked := Gather(order, |window|, busy, whole);
      GatherOpen(grid, whole, buckets[..], order, pos, taken);
      GatherFound(grid, whole, window, anchor.value, busy, pos);
      if blocked || |taken| < 10 {
        Abort(taken, whole);
        return None;
      }
      r := Some(Players(taken));
    }

    /** Copy out every waiting player, one bucket at a time. */
    method SnapshotPlayers() returns (out: seq<Saved>)
      requires Valid()
      ensures out == AllSaved(buckets[..])
    {
      out := [];
      for b := 0 to buckets.Length
        invariant out == AllSaved(buckets[..b])
      {
        var guarded := buckets[b];
        ghost var before := out;
        for i := 0 to |guarded|
          invariant out == before + Saves(guarded[..i])
        {
          var p := guarded[i];
          out := out + [Saved(p.id, p.rating, p.event)];
        }
        assert guarded[..|guarded|] == guarded;
        assert buckets[..b + 1] == buckets[..b] + [guarded];
        AllSavedConcat(buckets[..b], [guarded]);
        assert AllSaved([guarded]) == Saves(guarded);
      }
      assert buckets[..buckets.Length] == buckets[..];
    }

    /** Boot recovery: enqueue the saved players in the order of the snapshot. */
    method RestorePlayers(players: seq<Saved>, now: nat, token: nat)
      requires Valid()
      modifies buckets
      ensures Valid()
      ensures forall b :: 0 <= b < buckets.Length ==>
                buckets[b] == old(buckets[b]) + From(grid, Revive(players, now, token), b)
    {
      hide From;
      ghost var all, was := Revive(players, now, token), buckets[..];
      FromNone(grid, all);
      for i := 0 to |players|
        invariant Valid()
        invariant forall b :: 0 <= b < buckets.Length ==> buckets[..][b] == was[b] + From(grid, all[..i], b)
      {
        var p := Player(players[i].id, players[i].rating, now, token + i, players[i].event);
        assert all[i] == p;
        AppendNext(grid, was, buckets[..], all, i);
        Enqueue(p);
      }
      assert all[..|players|] == all;
    }
  }
}
