/** The drain bound over the threads: with one worker and nobody arriving, each pass of its
    loop in the thread machine, whatever the other threads do in between, is one turn of the
    sequential run. */
module Carousel {
  import opened Base
  import opened Optimizer
  import opened Buckets
  import opened MatchPool
  import Worker
  import Drain
  import Custody
  import opened Engine

  // ---- One pass, step by step ----

  /** What a pass began with, and the border it found locked, the time and the match id at
      its gate. */
  datatype Mark = Mark(qs: Queues, ticket: nat, busy: set<nat>, at: nat, mid: nat)

  function Window(c: Config, m: Mark): (window: seq<nat>)
    ensures |window| == c.stride && Indices(window, c.g.total)
  {
    Worker.Window(m.ticket, c.stride, c.g.total)
  }

  ghost predicate Refused(c: Config, m: Mark)
    requires |m.qs| == c.g.total && c.stride > 0
  {
    !Worker.Decide(c.g, m.qs, Window(c, m), m.busy, m.at, m.mid).Formed?
  }

  ghost predicate MidScan(c: Config, m: Mark, w: seq<nat>, k: nat, approx: nat, qs: Queues)
    requires |m.qs| == c.g.total && c.stride > 0
  {
    w == Window(c, m) && qs == m.qs && k <= |Targets(c, w)|
    && Indices(Targets(c, w), c.g.total) && approx == Depth(m.qs, Targets(c, w)[..k])
  }

  ghost predicate MidPeek(c: Config, m: Mark, w: seq<nat>, k: nat, anchor: Option<nat>, oldest: nat, qs: Queues)
    requires |m.qs| == c.g.total && c.stride > 0
  {
    w == Window(c, m) && qs == m.qs && k <= |w| && Worker.Density(m.qs, w) >= 10
    && anchor == Anchor(m.qs, w[..k]) && (anchor.Some? ==> oldest == m.qs[anchor.value][0].enqueuedAt)
  }

  ghost predicate MidHarvest(c: Config, m: Mark, w: seq<nat>, order: seq<nat>, pos: nat, qs: Queues, hand: seq<Taken>)
    requires |m.qs| == c.g.total && c.stride > 0
  {
    w == Window(c, m) && Worker.Density(m.qs, w) >= 10 && order != [] && Anchor(m.qs, w) == Some(order[0])
    && order == DrainOrder(w, order[0], c.g.total) && Gathered(c.g, m.qs, qs, order, pos, hand)
  }

  ghost predicate AtGate(c: Config, m: Mark, w: seq<nat>, qs: Queues, hand: seq<Taken>)
    requires |m.qs| == c.g.total && c.stride > 0
  {
    w == Window(c, m) && Worker.Density(m.qs, w) >= 10
    && Harvested(c.g, m.qs, w, {}) == Some(Players(hand)) && Returning(c.g, m.qs, qs, hand)
  }

  /** How far the pass that began with `m` has come; a locked border is met only to give up. */
  ghost predicate Midway(c: Config, m: Mark, pc: Pc, qs: Queues, hand: seq<Taken>)
    requires |m.qs| == c.g.total && c.stride > 0
  {
    && (pc != Undo && pc != Claim ==> m.busy == {})
    && match pc
       case Claim => Done(c, m, qs)
       case Scan(w, k, approx) => MidScan(c, m, w, k, approx, qs)
       case Peek(w, k, anchor, oldest, _) => MidPeek(c, m, w, k, anchor, oldest, qs)
       case Harvest(w, order, pos, _) => MidHarvest(c, m, w, order, pos, qs, hand)
       case Undo => Refused(c, m) && Returning(c.g, m.qs, qs, hand)
       case Gate(w, _) => AtGate(c, m, w, qs, hand)
       case _ => Done(c, m, qs)
  }

  /** The pass has ended, with the pool as a turn of the sequential run leaves it. */
  ghost predicate Done(c: Config, m: Mark, qs: Queues)
    requires |m.qs| == c.g.total && c.stride > 0
  {
    Drain.Passes(c.g, m.qs, qs, Window(c, m), m.busy, m.at, m.mid)
  }

  /** What is in hand comes from the front of the buckets. */
  ghost predicate Returning(g: Grid, whole: Queues, qs: Queues, hand: seq<Taken>) {
    Placed(g, qs) && AtHome(g, hand) && Divides(g, whole, Players(hand), qs)
  }

  // ---- The scan ----

  lemma ScanOn(c: Config, m: Mark, w: seq<nat>, k: nat, approx: nat, qs: Queues, hand: seq<Taken>)
    requires |m.qs| == c.g.total && c.stride > 0 && Midway(c, m, Scan(w, k, approx), qs, hand) && k < |Targets(c, w)|
    ensures Targets(c, w)[k] < |qs|
    ensures Midway(c, m, Scan(w, k + 1, approx + |qs[Targets(c, w)[k]]|), qs, hand)
  {
    hide Targets;
    var ts := Targets(c, w);
    assert ts[..k + 1] == ts[..k] + [ts[k]];
    DepthConcat(qs, ts[..k], [ts[k]]);
  }

  lemma ScanStarts(c: Config, m: Mark, hand: seq<Taken>)
    requires |m.qs| == c.g.total && c.stride > 0 && m.busy == {}
    ensures Midway(c, m, Scan(Window(c, m), 0, 0), m.qs, hand)
  {
    hide Edge;
  }

  lemma DensityIsDepth(c: Config, qs: Queues, w: seq<nat>)
    requires |qs| == c.g.total && w != [] && Indices(w, c.g.total) && Indices(Targets(c, w), c.g.total)
    ensures Worker.Density(qs, w) == Depth(qs, Targets(c, w))
  {
    TargetParts(c, w);
    hide Targets;
    hide Edge;
    hide Indices;
    hide Depth;
    DepthConcat(qs, w, Borders(Edge(w), c.g.total));
  }

  lemma TargetParts(c: Config, w: seq<nat>)
    requires w != []
    ensures Targets(c, w) == w + Borders(Edge(w), c.g.total)
    ensures Indices(Targets(c, w), c.g.total) ==> Indices(Borders(Edge(w), c.g.total), c.g.total)
  {
    hide Edge;
    var borders := Borders(Edge(w), c.g.total);
    assert forall i :: 0 <= i < |borders| ==> (w + borders)[|w| + i] == borders[i];
  }

  lemma NothingFormed(c: Config, m: Mark)
    requires |m.qs| == c.g.total && c.stride > 0 && Placed(c.g, m.qs)
    requires Refused(c, m)
    ensures Done(c, m, m.qs)
  {
    hide Worker.Decide;
  }

  lemma ScanDone(c: Config, m: Mark, w: seq<nat>, k: nat, approx: nat, qs: Queues, hand: seq<Taken>, since: nat)
    requires |m.qs| == c.g.total && c.stride > 0 && Placed(c.g, m.qs)
    requires Midway(c, m, Scan(w, k, approx), qs, hand) && k >= |Targets(c, w)|
    ensures approx < 10 ==> Done(c, m, qs)
    ensures approx >= 10 ==> Midway(c, m, Peek(w, 0, None, 0, since), qs, hand)
  {
    DensityIsDepth(c, qs, w);
    hide Targets;
    assert Targets(c, w)[..k] == Targets(c, w);
    hide Worker.Density;
    if approx < 10 {
      NothingFormed(c, m);
    }
  }

  // ---- The peek ----

  lemma PeekOn(c: Config, m: Mark, w: seq<nat>, k: nat, anchor: Option<nat>, oldest: nat, since: nat, qs: Queues, hand: seq<Taken>)
    requires |m.qs| == c.g.total && c.stride > 0 && k < |w|
    requires Midway(c, m, Peek(w, k, anchor, oldest, since), qs, hand)
    ensures w[k] < |qs|
    ensures var q := qs[w[k]];
            Midway(c, m, if q != [] && (anchor.None? || q[0].enqueuedAt < oldest)
                         then Peek(w, k + 1, Some(w[k]), q[0].enqueuedAt, since)
                         else Peek(w, k + 1, anchor, oldest, since), qs, hand)
  {
    hide Worker.Density;
    assert w[..k + 1][..k] == w[..k] && w[..k + 1][k] == w[k];
  }

  lemma PeekDone(c: Config, m: Mark, w: seq<nat>, k: nat, anchor: Option<nat>, oldest: nat, since: nat, qs: Queues)
    requires |m.qs| == c.g.total && c.stride > 0 && Placed(c.g, m.qs)
    requires Midway(c, m, Peek(w, k, anchor, oldest, since), qs, []) && k >= |w|
    ensures anchor.None? ==> Done(c, m, qs)
    ensures anchor.Some? ==> Midway(c, m, Harvest(w, DrainOrder(w, anchor.value, c.g.total), 0, since), qs, [])
  {
    hide *;
    PeekOpen(c, m, w, k, anchor, oldest, since, qs);
    assert w[..k] == w;
    if anchor.None? {
      NothingFound(c.g, m.qs, w, m.busy);
      MissedIsRefused(c, m);
      NothingFormed(c, m);
    } else {
      var order := DrainOrder(w, anchor.value, c.g.total);
      OrderInRange(w, anchor.value, c.g.total);
      GatherStart(c.g, m.qs, order);
      HarvestStarts(c, m, w, anchor.value, order, since);
    }
  }

  lemma PeekOpen(c: Config, m: Mark, w: seq<nat>, k: nat, anchor: Option<nat>, oldest: nat, since: nat, qs: Queues)
    requires |m.qs| == c.g.total && c.stride > 0 && Midway(c, m, Peek(w, k, anchor, oldest, since), qs, [])
    ensures w == Window(c, m) && w != [] && Indices(w, c.g.total) && qs == m.qs && m.busy == {} && k <= |w|
    ensures Worker.Density(m.qs, w) >= 10 && anchor == Anchor(m.qs, w[..k]) && Indices(w[..k], c.g.total)
  {
    hide Worker.Density;
  }

  lemma HarvestStarts(c: Config, m: Mark, w: seq<nat>, a: nat, order: seq<nat>, since: nat)
    requires |m.qs| == c.g.total && c.stride > 0 && w == Window(c, m) && w != [] && m.busy == {}
    requires Worker.Density(m.qs, w) >= 10 && Anchor(m.qs, w) == Some(a) && order == DrainOrder(w, a, c.g.total)
    requires Gathered(c.g, m.qs, m.qs, order, 0, [])
    ensures Midway(c, m, Harvest(w, order, 0, since), m.qs, [])
  {
    hide Worker.Density;
    hide Gathered;
    hide Edge;
    hide Ascending;
  }

  // ---- The harvest ----

  lemma HarvestOn(c: Config, m: Mark, w: seq<nat>, order: seq<nat>, pos: nat, since: nat, qs: Queues, hand: seq<Taken>)
    requires |m.qs| == c.g.total && c.stride > 0
    requires Midway(c, m, Harvest(w, order, pos, since), qs, hand) && pos < |order| && |hand| < 10 && order[pos] < |qs|
    ensures var b := order[pos];
            var n := Min(10 - |hand|, |qs[b]|);
            Midway(c, m, Harvest(w, order, pos + 1, since), qs[b := qs[b][n..]], hand + Tag(b, qs[b][..n]))
  {
    GatherStep(c.g, m.qs, qs, order, pos, hand);
    hide Gathered;
    hide DrainOrder;
  }

  lemma GatherReturns(g: Grid, whole: Queues, qs: Queues, order: seq<nat>, pos: nat, hand: seq<Taken>)
    requires Gathered(g, whole, qs, order, pos, hand)
    ensures Returning(g, whole, qs, hand) && |hand| <= 10 && pos <= |order| && Indices(order, g.total)
    ensures Players(hand) == FirstTen(Visited(whole, order[..pos]))
  {
    GatherOpen(g, whole, qs, order, pos, hand);
    hide Gathered;
    hide Divides;
    hide AtHome;
    hide Placed;
  }

  /** Borders are the only buckets visited from the window's length on, each once. */
  lemma BorderOnce(w: seq<nat>, a: nat, total: nat, i: nat, j: nat)
    requires Indices(w, total) && a in w && |w| <= i < j < |DrainOrder(w, a, total)|
    ensures DrainOrder(w, a, total)[i] != DrainOrder(w, a, total)[j]
  {
    OthersShorter(Ascending(w), a);
    var own, borders := [a] + Others(Ascending(w), a), Borders(Edge(w), total);
    assert a in multiset(Ascending(w)) by {
      assert a in multiset(w);
    }
    hide Edge;
    hide Ascending;
    assert DrainOrder(w, a, total) == own + borders;
    assert |own| <= |w|;
  }

  lemma HarvestOpen(c: Config, m: Mark, w: seq<nat>, order: seq<nat>, pos: nat, since: nat, qs: Queues, hand: seq<Taken>)
    requires |m.qs| == c.g.total && c.stride > 0 && Midway(c, m, Harvest(w, order, pos, since), qs, hand)
    ensures w == Window(c, m) && Indices(w, c.g.total) && m.busy == {} && order != [] && w != []
    ensures Anchor(m.qs, w) == Some(order[0]) && Worker.Density(m.qs, w) >= 10
    ensures order == DrainOrder(w, order[0], c.g.total) && Gathered(c.g, m.qs, qs, order, pos, hand)
  {
    hide DrainOrder;
    hide Worker.Density;
    hide Gathered;
  }

  lemma MissedIsRefused(c: Config, m: Mark)
    requires |m.qs| == c.g.total && c.stride > 0 && Harvested(c.g, m.qs, Window(c, m), m.busy) == None
    ensures Refused(c, m)
  {
    hide Worker.Density;
    hide Harvested;
  }

  lemma HarvestFails(c: Config, m: Mark, w: seq<nat>, order: seq<nat>, pos: nat, since: nat, qs: Queues, hand: seq<Taken>)
    requires |m.qs| == c.g.total && c.stride > 0 && |hand| < 10
    requires Midway(c, m, Harvest(w, order, pos, since), qs, hand)
    ensures pos >= |order| ==> Midway(c, m, Undo, qs, hand)
    ensures |w| <= pos < |order| ==> Midway(c, m.(busy := {order[pos]}), Undo, qs, hand)
  {
    hide *;
    HarvestOpen(c, m, w, order, pos, since, qs, hand);
    GatherReturns(c.g, m.qs, qs, order, pos, hand);
    PlayersCount(hand);
    if pos >= |order| {
      GatherFound(c.g, m.qs, w, order[0], {}, pos);
      MissedIsRefused(c, m);
      IsUndo(c, m, qs, hand);
    } else if |w| <= pos {
      PrefixIndices(order, pos, c.g.total);
      MetLocked(c.g, m.qs, w, order, pos);
      var m' := m.(busy := {order[pos]});
      SameWindow(c, m, m');
      MissedIsRefused(c, m');
      IsUndo(c, m', qs, hand);
    }
  }

  lemma PrefixIndices(order: seq<nat>, n: nat, total: nat)
    requires Indices(order, total) && n <= |order|
    ensures Indices(order[..n], total)
  {
  }

  /** A harvest stopped short at a locked border has found nothing. */
  lemma MetLocked(g: Grid, qs: Queues, w: seq<nat>, order: seq<nat>, pos: nat)
    requires |qs| == g.total && Indices(w, g.total) && w != [] && order != [] && Indices(order, g.total)
    requires Anchor(qs, w) == Some(order[0]) && order == DrainOrder(w, order[0], g.total)
    requires |w| <= pos < |order| && Indices(order[..pos], g.total) && |FirstTen(Visited(qs, order[..pos]))| < 10
    ensures Harvested(g, qs, w, {order[pos]}) == None
  {
    hide *;
    forall i | |w| <= i < pos ensures order[i] !in {order[pos]} {
      BorderOnce(w, order[0], g.total, i, pos);
    }
    GatherFound(g, qs, w, order[0], {order[pos]}, pos);
  }

  lemma PlayersCount(hand: seq<Taken>)
    ensures |Players(hand)| == |hand|
  {
  }

  lemma SameWindow(c: Config, m: Mark, m': Mark)
    requires c.stride > 0 && m'.ticket == m.ticket
    ensures Window(c, m') == Window(c, m)
  {
  }

  lemma IsUndo(c: Config, m: Mark, qs: Queues, hand: seq<Taken>)
    requires |m.qs| == c.g.total && c.stride > 0 && Refused(c, m) && Returning(c.g, m.qs, qs, hand)
    ensures Midway(c, m, Undo, qs, hand)
  {
    hide Refused;
    hide Returning;
  }

  lemma HarvestFull(c: Config, m: Mark, w: seq<nat>, order: seq<nat>, pos: nat, since: nat, qs: Queues, hand: seq<Taken>)
    requires |m.qs| == c.g.total && c.stride > 0 && |hand| >= 10
    requires Midway(c, m, Harvest(w, order, pos, since), qs, hand)
    ensures Midway(c, m, Gate(w, since), qs, hand)
  {
    HarvestOpen(c, m, w, order, pos, since, qs, hand);
    hide *;
    GatherReturns(c.g, m.qs, qs, order, pos, hand);
    PlayersCount(hand);
    GatherFound(c.g, m.qs, w, order[0], {}, pos);
    IsGate(c, m, w, since, qs, hand);
  }

  lemma IsGate(c: Config, m: Mark, w: seq<nat>, since: nat, qs: Queues, hand: seq<Taken>)
    requires |m.qs| == c.g.total && c.stride > 0 && w == Window(c, m) && m.busy == {}
    requires w != [] && Worker.Density(m.qs, w) >= 10
    requires Harvested(c.g, m.qs, w, {}) == Some(Players(hand)) && Returning(c.g, m.qs, qs, hand)
    ensures Midway(c, m, Gate(w, since), qs, hand)
  {
    hide Harvested;
    hide Worker.Density;
    hide Returning;
  }

  // ---- The gate, and putting back ----

  /** The gate decides as the sequential round does. */
  lemma GateDone(c: Config, m: Mark, w: seq<nat>, since: nat, qs: Queues, hand: seq<Taken>, at: nat, mid: nat)
    requires |m.qs| == c.g.total && c.stride > 0 && Midway(c, m, Gate(w, since), qs, hand) && |hand| == 10
    ensures var m' := m.(at := at, mid := mid);
            if Worker.Admits(Players(hand), at) then Done(c, m', qs) && m.busy == {}
            else Midway(c, m', Undo, qs, Custody.AllHome(c.g, hand))
  {
    hide Worker.Admits;
    hide Worker.Density;
    hide Harvested;
    hide Outcome;
    hide Divides;
    hide Placed;
  }

  lemma UndoOn(c: Config, m: Mark, qs: Queues, hand: seq<Taken>)
    requires |m.qs| == c.g.total && c.stride > 0 && Midway(c, m, Undo, qs, hand) && hand != []
    ensures var k := |hand| - 1;
            var t := hand[k];
            t.origin < |qs| && Midway(c, m, Undo, qs[t.origin := [t.player] + qs[t.origin]], hand[..k])
  {
    hide Refused;
    var k := |hand| - 1;
    assert Players(hand) == Players(hand[..k]) + [hand[k].player];
    PutDivides(c.g, m.qs, Players(hand[..k]), hand[k].player, qs);
    hide Divides;
    hide Placed;
    assert hand[k].origin == Home(c.g, hand[k].player);
  }

  lemma UndoDone(c: Config, m: Mark, qs: Queues)
    requires |m.qs| == c.g.total && c.stride > 0 && Placed(c.g, m.qs) && Midway(c, m, Undo, qs, [])
    ensures Done(c, m, qs)
  {
    hide *;
    UndoOpen(c, m, qs, []);
    AllReturned(c.g, m.qs, qs);
    NothingFormed(c, m);
  }

  lemma UndoOpen(c: Config, m: Mark, qs: Queues, hand: seq<Taken>)
    requires |m.qs| == c.g.total && c.stride > 0 && Midway(c, m, Undo, qs, hand)
    ensures Refused(c, m) && Returning(c.g, m.qs, qs, hand)
  {
    hide Refused;
    hide Returning;
  }

  lemma AllReturned(g: Grid, whole: Queues, qs: Queues)
    requires Returning(g, whole, qs, [])
    ensures qs == whole
  {
    hide Placed;
    assert Players([]) == [];
    forall b | 0 <= b < g.total ensures whole[b] == qs[b] {
      assert whole[b] == From(g, [], b) + qs[b];
    }
  }

  // ---- The worker's own steps ----

  /** A lone worker inside the pass that began with `m`. */
  ghost predicate Follows(c: Config, s: State, m: Mark) {
    && |m.qs| == c.g.total && c.stride > 0 && Placed(c.g, m.qs) && |s.pcs| == |s.core.hands| == 1
    && Midway(c, m, s.pcs[0], s.core.queues, s.core.hands[0])
  }

  lemma FollowsOpen(c: Config, s: State, m: Mark)
    requires Follows(c, s, m)
    ensures |m.qs| == c.g.total && c.stride > 0 && Placed(c.g, m.qs) && |s.pcs| == |s.core.hands| == 1
    ensures Midway(c, m, s.pcs[0], s.core.queues, s.core.hands[0])
  {
    hide Midway;
    hide Placed;
  }

  lemma FollowsBy(c: Config, s: State, m: Mark, pc: Pc, qs: Queues, hand: seq<Taken>)
    requires |m.qs| == c.g.total && c.stride > 0 && Placed(c.g, m.qs) && Midway(c, m, pc, qs, hand)
    requires |s.pcs| == |s.core.hands| == 1 && s.pcs[0] == pc && s.core.queues == qs && s.core.hands[0] == hand
    ensures Follows(c, s, m)
  {
    hide Midway;
    hide Placed;
  }

  lemma ActOnScan(c: Config, s: State, m: Mark)
    requires ControlOk(c, s) && c.workers == 1 && Follows(c, s, m) && s.pcs[0].Scan? && Enabled(c, s, Act(Matcher(0)))
    ensures Follows(c, Next(c, s, Act(Matcher(0))), m)
  {
    hide *;
    CustodyHolds(c, s);
    FollowsOpen(c, s, m);
    ScanEffect(c, s);
    ActKeepsShape(c, s);
    var pc, qs := s.pcs[0], s.core.queues;
    ScanOn(c, m, pc.window, pc.k, pc.approx, qs, s.core.hands[0]);
    ScanActs(c, s, pc);
    FollowsBy(c, Next(c, s, Act(Matcher(0))), m, WorkerActs(c, s, 0), qs, s.core.hands[0]);
  }

  lemma ScanActs(c: Config, s: State, pc: Pc)
    requires |s.pcs| > 0 && s.pcs[0] == pc && pc.Scan? && pc.k < |Targets(c, pc.window)|
    requires Targets(c, pc.window)[pc.k] < |s.core.queues|
    ensures WorkerActs(c, s, 0) == Scan(pc.window, pc.k + 1, pc.approx + |s.core.queues[Targets(c, pc.window)[pc.k]]|)
  {
    hide Targets;
  }

  lemma ActOnPeek(c: Config, s: State, m: Mark)
    requires ControlOk(c, s) && c.workers == 1 && Follows(c, s, m) && s.pcs[0].Peek? && Enabled(c, s, Act(Matcher(0)))
    ensures Follows(c, Next(c, s, Act(Matcher(0))), m)
  {
    hide *;
    CustodyHolds(c, s);
    FollowsOpen(c, s, m);
    PeekEffect(c, s);
    ActKeepsShape(c, s);
    var pc, qs := s.pcs[0], s.core.queues;
    PeekOn(c, m, pc.window, pc.k, pc.anchor, pc.oldest, pc.since, qs, s.core.hands[0]);
    PeekNext(c, s);
    FollowsBy(c, Next(c, s, Act(Matcher(0))), m, WorkerActs(c, s, 0), qs, s.core.hands[0]);
  }

  lemma ActOnHarvest(c: Config, s: State, m: Mark)
    requires ControlOk(c, s) && ClockOk(s) && c.workers == 1 && Follows(c, s, m) && s.pcs[0].Harvest?
    requires Enabled(c, s, Act(Matcher(0)))
    ensures Follows(c, Next(c, s, Act(Matcher(0))), m)
  {
    hide *;
    CustodyHolds(c, s);
    FollowsOpen(c, s, m);
    HarvestEffect(c, s);
    ActKeepsShape(c, s);
    HarvestWants(c, s);
    var pc, qs, hand := s.pcs[0], s.core.queues, s.core.hands[0];
    HarvestOn(c, m, pc.window, pc.order, pc.pos, pc.since, qs, hand);
    var core := NewCore(c, s, Act(Matcher(0)));
    FollowsBy(c, Next(c, s, Act(Matcher(0))), m, WorkerActs(c, s, 0), core.queues, core.hands[0]);
  }

  lemma HarvestWants(c: Config, s: State)
    requires |s.pcs| == |s.core.hands| == 1 && s.pcs[0].Harvest? && Enabled(c, s, Act(Matcher(0)))
    ensures |s.core.hands[0]| < 10
    ensures var pc := s.pcs[0]; WorkerActs(c, s, 0) == Harvest(pc.window, pc.order, pc.pos + 1, pc.since)
  {
  }

  lemma UndoEffect(c: Config, s: State)
    requires ControlOk(c, s) && ClockOk(s) && c.workers == 1 && s.pcs[0] == Undo && Enabled(c, s, Act(Matcher(0)))
    ensures var hand, core, k := s.core.hands[0], NewCore(c, s, Act(Matcher(0))), |s.core.hands[0]| - 1;
            && hand != [] && |core.hands| == 1 && core.hands[0] == hand[..k] && hand[k].origin < |s.core.queues|
            && core.queues == s.core.queues[hand[k].origin := [hand[k].player] + s.core.queues[hand[k].origin]]
            && WorkerActs(c, s, 0) == Undo
  {
    hide Custody.Inv;
    var step := Act(Matcher(0));
    OpEnabled(c, s, step);
    assert Wants(c, s, Matcher(0)).Some?;
    assert StepOp(c, s, step) == Some(Custody.PutBack(0));
    hide StepOp;
    hide Wants;
    hide Enabled;
    hide ClockOk;
  }

  lemma ActOnUndo(c: Config, s: State, m: Mark)
    requires ControlOk(c, s) && ClockOk(s) && c.workers == 1 && Follows(c, s, m) && s.pcs[0] == Undo
    requires Enabled(c, s, Act(Matcher(0)))
    ensures Follows(c, Next(c, s, Act(Matcher(0))), m)
  {
    hide *;
    CustodyHolds(c, s);
    FollowsOpen(c, s, m);
    UndoEffect(c, s);
    ActKeepsShape(c, s);
    UndoOn(c, m, s.core.queues, s.core.hands[0]);
    var core := NewCore(c, s, Act(Matcher(0)));
    FollowsBy(c, Next(c, s, Act(Matcher(0))), m, Undo, core.queues, core.hands[0]);
  }

  lemma DeferEffect(c: Config, s: State)
    requires ControlOk(c, s) && c.workers == 1 && s.pcs[0] == Defer
    ensures NewCore(c, s, Act(Matcher(0))) == s.core && WorkerActs(c, s, 0) == Claim
  {
    hide Custody.Inv;
  }

  lemma StillDone(c: Config, m: Mark, pc: Pc, pc': Pc, qs: Queues, hand: seq<Taken>, hand': seq<Taken>)
    requires |m.qs| == c.g.total && c.stride > 0 && Midway(c, m, pc, qs, hand)
    requires pc == Settle || pc == Commit || pc == Defer
    requires pc' == Commit || pc' == Defer || pc' == Claim
    ensures Midway(c, m, pc', qs, hand')
  {
    hide Done;
  }

  lemma ActOnDefer(c: Config, s: State, m: Mark)
    requires ControlOk(c, s) && c.workers == 1 && Follows(c, s, m) && s.pcs[0] == Defer && Enabled(c, s, Act(Matcher(0)))
    ensures Follows(c, Next(c, s, Act(Matcher(0))), m)
  {
    hide *;
    CustodyHolds(c, s);
    FollowsOpen(c, s, m);
    DeferEffect(c, s);
    ActKeepsShape(c, s);
    StillDone(c, m, Defer, Claim, s.core.queues, s.core.hands[0], s.core.hands[0]);
    FollowsBy(c, Next(c, s, Act(Matcher(0))), m, Claim, s.core.queues, s.core.hands[0]);
  }

  lemma ActNeedsLock(c: Config, s: State)
    requires ControlOk(c, s) && c.workers == 1 && Enabled(c, s, Act(Matcher(0)))
    ensures var pc := s.pcs[0]; pc.Scan? || pc.Peek? || pc.Harvest? || pc == Undo || pc == Defer
  {
    CustodyHolds(c, s);
    hide ControlOk;
  }

  lemma OwnAct(c: Config, s: State, m: Mark)
    requires ControlOk(c, s) && ClockOk(s) && c.workers == 1 && Follows(c, s, m) && Enabled(c, s, Act(Matcher(0)))
    ensures Follows(c, Next(c, s, Act(Matcher(0))), m)
  {
    hide *;
    CustodyHolds(c, s);
    FollowsOpen(c, s, m);
    ActNeedsLock(c, s);
    match s.pcs[0]
    case Scan(_, _, _) => ActOnScan(c, s, m);
    case Peek(_, _, _, _, _) => ActOnPeek(c, s, m);
    case Harvest(_, _, _, _) => ActOnHarvest(c, s, m);
    case Undo => ActOnUndo(c, s, m);
    case Defer => ActOnDefer(c, s, m);
  }

  lemma ScanMoves(c: Config, s: State, choice: nat)
    requires ControlOk(c, s) && c.workers == 1 && s.pcs[0].Scan? && Enabled(c, s, Local(Matcher(0), choice))
    ensures ValidConfig(c) && s.pcs[0].k >= |Targets(c, s.pcs[0].window)|
    ensures var pc := s.pcs[0];
            WorkerMoves(c, s, 0, choice) == if pc.approx < 10 then Claim else Peek(pc.window, 0, None, 0, s.core.nextToken)
  {
    CustodyHolds(c, s);
    hide ControlOk;
    hide Targets;
    hide Accepts;
    hide DrainOrder;
    hide Worker.Window;
  }

  lemma LocalOnScan(c: Config, s: State, choice: nat, m: Mark)
    requires ControlOk(c, s) && c.workers == 1 && Follows(c, s, m) && s.pcs[0].Scan?
    requires Enabled(c, s, Local(Matcher(0), choice))
    ensures Follows(c, Next(c, s, Local(Matcher(0), choice)), m)
  {
    hide *;
    CustodyHolds(c, s);
    FollowsOpen(c, s, m);
    ScanMoves(c, s, choice);
    LocalKeepsShape(c, s, choice);
    var pc, qs, hand := s.pcs[0], s.core.queues, s.core.hands[0];
    ScanDone(c, m, pc.window, pc.k, pc.approx, qs, hand, s.core.nextToken);
    ScanIdle(c, m, pc, qs, hand);
    FollowsBy(c, Next(c, s, Local(Matcher(0), choice)), m, WorkerMoves(c, s, 0, choice), qs, hand);
  }

  lemma ScanIdle(c: Config, m: Mark, pc: Pc, qs: Queues, hand: seq<Taken>)
    requires |m.qs| == c.g.total && c.stride > 0 && pc.Scan? && Midway(c, m, pc, qs, hand)
    ensures Done(c, m, qs) ==> Midway(c, m, Claim, qs, hand)
  {
    hide Done;
    hide MidScan;
  }

  lemma PeekMoves(c: Config, s: State, choice: nat)
    requires ControlOk(c, s) && c.workers == 1 && s.pcs[0].Peek? && Enabled(c, s, Local(Matcher(0), choice))
    ensures ValidConfig(c) && s.pcs[0].k >= |s.pcs[0].window| && s.pcs[0].window != [] && s.core.hands[0] == []
    ensures var pc := s.pcs[0];
            WorkerMoves(c, s, 0, choice) == if pc.anchor.None? then Claim
                                            else Harvest(pc.window, DrainOrder(pc.window, pc.anchor.value, c.g.total), 0, pc.since)
  {
    CustodyHolds(c, s);
    assert PcOk(c, s.pcs[0], s.core.hands[0]);
    hide ControlOk;
    hide Targets;
    hide Accepts;
    hide DrainOrder;
    hide Worker.Window;
  }

  lemma LocalOnPeek(c: Config, s: State, choice: nat, m: Mark)
    requires ControlOk(c, s) && c.workers == 1 && Follows(c, s, m) && s.pcs[0].Peek?
    requires Enabled(c, s, Local(Matcher(0), choice))
    ensures Follows(c, Next(c, s, Local(Matcher(0), choice)), m)
  {
    hide *;
    CustodyHolds(c, s);
    FollowsOpen(c, s, m);
    PeekMoves(c, s, choice);
    LocalKeepsShape(c, s, choice);
    var pc, qs := s.pcs[0], s.core.queues;
    PeekDone(c, m, pc.window, pc.k, pc.anchor, pc.oldest, pc.since, qs);
    PeekIdle(c, m, qs);
    FollowsBy(c, Next(c, s, Local(Matcher(0), choice)), m, WorkerMoves(c, s, 0, choice), qs, []);
  }

  lemma PeekIdle(c: Config, m: Mark, qs: Queues)
    requires |m.qs| == c.g.total && c.stride > 0
    ensures Done(c, m, qs) ==> Midway(c, m, Claim, qs, [])
  {
    hide Done;
  }

  lemma HarvestMoves(c: Config, s: State, choice: nat)
    requires ControlOk(c, s) && c.workers == 1 && s.pcs[0].Harvest? && Enabled(c, s, Local(Matcher(0), choice))
    ensures ValidConfig(c)
    ensures var pc, hand := s.pcs[0], s.core.hands[0];
            && (|hand| < 10 ==> pc.pos >= |pc.order|)
            && WorkerMoves(c, s, 0, choice) == if |hand| < 10 then Undo else Gate(pc.window, pc.since)
  {
    CustodyHolds(c, s);
    hide ControlOk;
    hide Targets;
    hide Accepts;
    hide DrainOrder;
    hide Worker.Window;
  }

  lemma LocalOnHarvest(c: Config, s: State, choice: nat, m: Mark)
    requires ControlOk(c, s) && c.workers == 1 && Follows(c, s, m) && s.pcs[0].Harvest?
    requires Enabled(c, s, Local(Matcher(0), choice))
    ensures Follows(c, Next(c, s, Local(Matcher(0), choice)), m)
  {
    hide *;
    CustodyHolds(c, s);
    FollowsOpen(c, s, m);
    HarvestMoves(c, s, choice);
    LocalKeepsShape(c, s, choice);
    var pc, qs, hand := s.pcs[0], s.core.queues, s.core.hands[0];
    if |hand| < 10 {
      HarvestFails(c, m, pc.window, pc.order, pc.pos, pc.since, qs, hand);
    } else {
      HarvestFull(c, m, pc.window, pc.order, pc.pos, pc.since, qs, hand);
    }
    FollowsBy(c, Next(c, s, Local(Matcher(0), choice)), m, WorkerMoves(c, s, 0, choice), qs, hand);
  }

  lemma UndoMoves(c: Config, s: State, choice: nat)
    requires ControlOk(c, s) && c.workers == 1 && s.pcs[0] == Undo && Enabled(c, s, Local(Matcher(0), choice))
    ensures ValidConfig(c) && s.core.hands[0] == [] && WorkerMoves(c, s, 0, choice) == Claim
  {
    CustodyHolds(c, s);
    hide ControlOk;
  }

  lemma LocalOnUndo(c: Config, s: State, choice: nat, m: Mark)
    requires ControlOk(c, s) && c.workers == 1 && Follows(c, s, m) && s.pcs[0] == Undo
    requires Enabled(c, s, Local(Matcher(0), choice))
    ensures Follows(c, Next(c, s, Local(Matcher(0), choice)), m)
  {
    hide *;
    CustodyHolds(c, s);
    FollowsOpen(c, s, m);
    UndoMoves(c, s, choice);
    LocalKeepsShape(c, s, choice);
    UndoDone(c, m, s.core.queues);
    PeekIdle(c, m, s.core.queues);
    FollowsBy(c, Next(c, s, Local(Matcher(0), choice)), m, Claim, s.core.queues, []);
  }

  lemma LastMoves(c: Config, s: State, choice: nat)
    requires ValidConfig(c) && |s.pcs| > 0 && (s.pcs[0] == Settle || s.pcs[0] == Commit)
    ensures var pc' := WorkerMoves(c, s, 0, choice); pc' == Commit || pc' == Defer || pc' == Claim
  {
  }

  lemma LocalOnLast(c: Config, s: State, choice: nat, m: Mark)
    requires ControlOk(c, s) && c.workers == 1 && Follows(c, s, m) && (s.pcs[0] == Settle || s.pcs[0] == Commit)
    requires Enabled(c, s, Local(Matcher(0), choice))
    ensures Follows(c, Next(c, s, Local(Matcher(0), choice)), m)
  {
    hide *;
    CustodyHolds(c, s);
    FollowsOpen(c, s, m);
    LastMoves(c, s, choice);
    LocalKeepsShape(c, s, choice);
    var qs, hand := s.core.queues, s.core.hands[0];
    StillDone(c, m, s.pcs[0], WorkerMoves(c, s, 0, choice), qs, hand, hand);
    FollowsBy(c, Next(c, s, Local(Matcher(0), choice)), m, WorkerMoves(c, s, 0, choice), qs, hand);
  }

  lemma GateMoves(c: Config, s: State, choice: nat)
    requires ControlOk(c, s) && ClockOk(s) && c.workers == 1 && s.pcs[0].Gate? && Enabled(c, s, Local(Matcher(0), choice))
    ensures ValidConfig(c) && |s.core.hands[0]| == 10
    ensures var s', ok := Next(c, s, Local(Matcher(0), choice)), Worker.Admits(Players(s.core.hands[0]), s.clock);
            && |s'.pcs| == |s'.core.hands| == 1 && s'.pcs[0] == (if ok then Settle else Undo)
            && s'.core.queues == s.core.queues
            && s'.core.hands[0] == if ok then [] else Custody.AllHome(c.g, s.core.hands[0])
  {
    hide *;
    CustodyHolds(c, s);
    GateHand(c, s);
    OpEnabled(c, s, Local(Matcher(0), choice));
    CoreStep(c, s, Local(Matcher(0), choice));
    NewCoreIs(c, s, Local(Matcher(0), choice));
    GateCore(c, s, choice);
    GateShape(c, s, choice);
  }

  lemma GateHand(c: Config, s: State)
    requires ControlOk(c, s) && c.workers == 1 && s.pcs[0].Gate?
    ensures |s.core.hands[0]| == 10
  {
    hide Custody.Inv;
    assert PcOk(c, s.pcs[0], s.core.hands[0]);
  }

  lemma GateCore(c: Config, s: State, choice: nat)
    requires |s.pcs| == |s.core.hands| == 1 && s.pcs[0].Gate? && |s.core.hands[0]| == 10
    ensures var op, ok := StepOp(c, s, Local(Matcher(0), choice)), Worker.Admits(Players(s.core.hands[0]), s.clock);
            && op.Some? && op.value == (if ok then Custody.Form(0) else Custody.Rehome(0))
            && (Custody.Enabled(c.g, s.core, op.value) ==>
                  var core := Custody.Apply(c.g, s.core, op.value);
                  && core.queues == s.core.queues && |core.hands| == 1
                  && core.hands[0] == if ok then [] else Custody.AllHome(c.g, s.core.hands[0]))
  {
    hide Worker.Admits;
    hide Custody.AllHome;
    assert Hand(s, 0) == s.core.hands[0];
  }

  lemma GateShape(c: Config, s: State, choice: nat)
    requires ValidConfig(c) && |s.pcs| == |s.core.hands| == 1 && s.pcs[0].Gate? && |s.core.hands[0]| == 10
    requires Enabled(c, s, Local(Matcher(0), choice))
    ensures var s', ok := Next(c, s, Local(Matcher(0), choice)), Worker.Admits(Players(s.core.hands[0]), s.clock);
            |s'.pcs| == 1 && s'.pcs[0] == if ok then Settle else Undo
  {
    hide Worker.Admits;
    hide NewCore;
    assert Hand(s, 0) == s.core.hands[0];
  }

  lemma SettleIsDone(c: Config, m: Mark, qs: Queues)
    requires |m.qs| == c.g.total && c.stride > 0 && Done(c, m, qs) && m.busy == {}
    ensures Midway(c, m, Settle, qs, [])
  {
    hide Done;
  }

  lemma GateOpen(c: Config, m: Mark, pc: Pc, qs: Queues, hand: seq<Taken>)
    requires |m.qs| == c.g.total && c.stride > 0 && pc.Gate? && Midway(c, m, pc, qs, hand)
    ensures Midway(c, m, Gate(pc.window, pc.since), qs, hand)
  {
    hide AtGate;
  }

  lemma LocalOnGate(c: Config, s: State, choice: nat, m: Mark)
    requires ControlOk(c, s) && ClockOk(s) && c.workers == 1 && Follows(c, s, m) && s.pcs[0].Gate?
    requires Enabled(c, s, Local(Matcher(0), choice))
    ensures Follows(c, Next(c, s, Local(Matcher(0), choice)), m.(at := s.clock, mid := s.nextMid))
  {
    hide *;
    CustodyHolds(c, s);
    FollowsOpen(c, s, m);
    GateMoves(c, s, choice);
    var pc, qs, hand := s.pcs[0], s.core.queues, s.core.hands[0];
    var m' := m.(at := s.clock, mid := s.nextMid);
    var s' := Next(c, s, Local(Matcher(0), choice));
    GateDone(c, m, pc.window, pc.since, qs, hand, s.clock, s.nextMid);
    if Worker.Admits(Players(hand), s.clock) {
      SettleIsDone(c, m', qs);
      FollowsBy(c, s', m', Settle, qs, []);
    } else {
      FollowsBy(c, s', m', Undo, qs, Custody.AllHome(c.g, hand));
    }
  }

  lemma OwnLocal(c: Config, s: State, choice: nat, m: Mark) returns (m': Mark)
    requires ControlOk(c, s) && ClockOk(s) && c.workers == 1 && Follows(c, s, m) && !s.pcs[0].Claim?
    requires Enabled(c, s, Local(Matcher(0), choice))
    ensures Follows(c, Next(c, s, Local(Matcher(0), choice)), m')
    ensures m' == m || m' == m.(at := s.clock, mid := s.nextMid)
  {
    hide *;
    CustodyHolds(c, s);
    FollowsOpen(c, s, m);
    m' := m;
    match s.pcs[0]
    case Scan(_, _, _) => LocalOnScan(c, s, choice, m);
    case Peek(_, _, _, _, _) => LocalOnPeek(c, s, choice, m);
    case Harvest(_, _, _, _) => LocalOnHarvest(c, s, choice, m);
    case Undo => LocalOnUndo(c, s, choice, m);
    case Gate(_, _) =>
      m' := m.(at := s.clock, mid := s.nextMid);
      LocalOnGate(c, s, choice, m);
    case Settle => LocalOnLast(c, s, choice, m);
    case Commit => LocalOnLast(c, s, choice, m);
    case Defer => DeferWaits(c, s, choice);
  }

  lemma DeferWaits(c: Config, s: State, choice: nat)
    requires |s.pcs| > 0 && s.pcs[0] == Defer
    ensures !Enabled(c, s, Local(Matcher(0), choice))
  {
  }

  lemma TryShape(c: Config, s: State)
    requires ValidConfig(c) && |s.pcs| == |s.core.hands| == 1 && Enabled(c, s, TryFails(0))
    ensures var s', pc := Next(c, s, TryFails(0)), s.pcs[0];
            && pc.Harvest? && |pc.window| <= pc.pos < |pc.order| && |s.core.hands[0]| < 10
            && s'.pcs == [Undo] && s'.core == s.core
  {
  }

  /** A locked border ends the harvest. */
  lemma OwnTry(c: Config, s: State, m: Mark) returns (m': Mark)
    requires ControlOk(c, s) && c.workers == 1 && Follows(c, s, m) && Enabled(c, s, TryFails(0))
    ensures Follows(c, Next(c, s, TryFails(0)), m') && m' == m.(busy := m'.busy) && m.busy == {}
  {
    hide *;
    CustodyHolds(c, s);
    FollowsOpen(c, s, m);
    TryShape(c, s);
    var pc, qs, hand := s.pcs[0], s.core.queues, s.core.hands[0];
    HarvestOpen(c, m, pc.window, pc.order, pc.pos, pc.since, qs, hand);
    HarvestFails(c, m, pc.window, pc.order, pc.pos, pc.since, qs, hand);
    m' := m.(busy := {pc.order[pc.pos]});
    FollowsBy(c, Next(c, s, TryFails(0)), m', Undo, qs, hand);
  }

  // ---- The others' steps, and the start of a pass ----

  lemma QueuesKept(g: Grid, core: Custody.State, op: Custody.Op)
    requires Custody.Enabled(g, core, op) && Handler(op) == None && !op.Restart? && !op.Enqueue?
    ensures Custody.Apply(g, core, op).queues == core.queues
  {
    hide Custody.Held;
    hide Custody.EventsAt;
  }

  lemma EnqueueAdvances(g: Grid, core: Custody.State, op: Custody.Op)
    requires Custody.Enabled(g, core, op) && op.Enqueue?
    ensures Custody.Apply(g, core, op).frontier == core.frontier + 1
  {
  }

  lemma TicketFrame(c: Config, s: State, step: Step)
    requires ValidConfig(c) && Enabled(c, s, step) && !step.Crash?
    ensures var s' := Next(c, s, step);
            s'.ticket == if step.Local? && step.t.Matcher? && s.pcs[step.t.w].Claim? then s.ticket + c.stride else s.ticket
    ensures s.clock <= Next(c, s, step).clock
  {
    hide *;
    TicketAfter(c, s, step);
    ClockGrows(c, s, step);
  }

  /** Another thread, with nobody arriving, leaves the worker and the pool alone. */
  lemma OthersKeep(c: Config, s: State, step: Step)
    requires ControlOk(c, s) && ClockOk(s) && Enabled(c, s, step) && c.workers == 1
    requires Mover(step) != Some(Matcher(0)) && !step.Crash?
    requires Next(c, s, step).core.frontier == s.core.frontier
    ensures var s' := Next(c, s, step);
            |s'.pcs| == |s'.core.hands| == 1 && s'.pcs[0] == s.pcs[0] && s'.core.hands[0] == s.core.hands[0]
            && s'.core.queues == s.core.queues && s'.ticket == s.ticket
  {
    hide *;
    CustodyHolds(c, s);
    OthersOp(c, s, step);
    CoreStep(c, s, step);
    HandsFrame(c, s, step, 0);
    PcFrame(c, s, step, 0);
    TicketFrame(c, s, step);
    TicketsMine(c, s, step);
    OnlyHand(s);
    OnlyHand(Next(c, s, step));
    var op := StepOp(c, s, step);
    if op.Some? {
      if op.value.Enqueue? {
        EnqueueAdvances(c.g, s.core, op.value);
      } else {
        QueuesKept(c.g, s.core, op.value);
      }
    }
  }

  lemma OnlyHand(s: State)
    ensures |s.core.hands| > 0 ==> Hand(s, 0) == s.core.hands[0]
  {
  }

  lemma TicketsMine(c: Config, s: State, step: Step)
    requires |s.pcs| == 1 && Enabled(c, s, step)
    ensures step.Local? && step.t.Matcher? ==> Mover(step) == Some(Matcher(0))
  {
  }

  lemma AcquireKeeps(c: Config, s: State)
    requires ValidConfig(c) && Enabled(c, s, Acquire(Matcher(0)))
    ensures var s' := Next(c, s, Acquire(Matcher(0)));
            s'.core == s.core && s'.pcs == s.pcs && s'.ticket == s.ticket && s'.clock == s.clock
  {
    hide Wants;
  }

  lemma ClaimShape(c: Config, s: State, choice: nat)
    requires ControlOk(c, s) && c.workers == 1 && s.pcs[0] == Claim && Enabled(c, s, Local(Matcher(0), choice))
    ensures ValidConfig(c)
    ensures WorkerMoves(c, s, 0, choice) == Scan(Worker.Window(s.ticket, c.stride, c.g.total), 0, 0)
  {
    CustodyHolds(c, s);
    hide ControlOk;
  }

  /** Drawing a ticket begins a pass over the pool as it is. */
  lemma ClaimStarts(c: Config, s: State, choice: nat) returns (m: Mark)
    requires ControlOk(c, s) && c.workers == 1 && s.pcs[0] == Claim && Enabled(c, s, Local(Matcher(0), choice))
    ensures m == Mark(s.core.queues, s.ticket, {}, s.clock, 0)
    ensures var s' := Next(c, s, Local(Matcher(0), choice)); Follows(c, s', m) && s'.pcs[0] != Claim
  {
    hide *;
    CustodyHolds(c, s);
    CoreFacts(c.g, s.core);
    PoolPlaced(c.g, s.core);
    ClaimShape(c, s, choice);
    LocalKeepsShape(c, s, choice);
    m := Mark(s.core.queues, s.ticket, {}, s.clock, 0);
    Positive(c);
    ScanStarts(c, m, s.core.hands[0]);
    MarkWindow(c, m);
    FollowsBy(c, Next(c, s, Local(Matcher(0), choice)), m, WorkerMoves(c, s, 0, choice), s.core.queues, s.core.hands[0]);
  }

  lemma Positive(c: Config)
    requires ValidConfig(c)
    ensures c.stride > 0
  {
  }

  lemma MarkWindow(c: Config, m: Mark)
    ensures Window(c, m) == Worker.Window(m.ticket, c.stride, c.g.total)
  {
  }

  lemma PoolPlaced(g: Grid, core: Custody.State)
    requires Custody.Inv(g, core)
    ensures Placed(g, core.queues)
  {
  }

  // ---- Whole runs ----

  /** The finished passes so far are the run; the one under way, if any, began with `m`. */
  ghost predicate Tracks(c: Config, s: State, r: Drain.Run, m: Mark) {
    && Drain.IsRun(c.g, r) && r.stride == c.stride && |s.pcs| == 1
    && if s.pcs[0] == Claim
       then s.core.queues == r.st[|r.nows|] && s.ticket == Drain.TicketAt(r.ticket, r.stride, |r.nows|)
       else Follows(c, s, m) && m.qs == r.st[|r.nows|] && m.ticket == Drain.TicketAt(r.ticket, r.stride, |r.nows|)
            && s.ticket == m.ticket + c.stride
  }

  /** All gates so far were between `from` and now. */
  ghost predicate Timed(s: State, r: Drain.Run, m: Mark, from: nat) {
    && (forall i :: 0 <= i < |r.nows| ==> from <= r.nows[i] <= s.clock)
    && from <= s.clock && (|s.pcs| == 1 && s.pcs[0] != Claim ==> from <= m.at <= s.clock)
  }

  /** Passes that met a locked border, the one under way included. */
  function Spoilt(s: State, r: Drain.Run, m: Mark): nat {
    Drain.Spoilt(r.busies) + if |s.pcs| == 1 && s.pcs[0] != Claim && m.busy != {} then 1 else 0
  }

  /** The state after a step of the worker inside a pass: the pass goes on, or is one more
      turn of the run. */
  lemma PassGoesOn(c: Config, s: State, s': State, r: Drain.Run, m: Mark, m': Mark, from: nat) returns (r': Drain.Run)
    requires Tracks(c, s, r, m) && Timed(s, r, m, from) && s.pcs[0] != Claim && Follows(c, s', m')
    requires m'.qs == m.qs && m'.ticket == m.ticket && s'.ticket == s.ticket && s.clock <= s'.clock
    requires m'.at == m.at || m'.at == s.clock
    ensures Tracks(c, s', r', m') && Timed(s', r', m', from) && r'.st[0] == r.st[0] && r'.ticket == r.ticket
    ensures Spoilt(s', r', m') == Drain.Spoilt(r.busies) + if m'.busy != {} then 1 else 0
  {
    hide *;
    FollowsOpen(c, s', m');
    TracksInside(c, s, r, m);
    r' := r;
    if s'.pcs[0] == Claim {
      DoneAtClaim(c, m', s'.core.queues, s'.core.hands[0]);
      r' := PassEnds(c, r, m', s'.core.queues);
      PassOver(c, s, s', r, r', m, m', from);
    } else {
      PassOn(c, s, s', r, m, m', from);
    }
  }

  lemma TracksInside(c: Config, s: State, r: Drain.Run, m: Mark)
    requires Tracks(c, s, r, m) && s.pcs[0] != Claim
    ensures Drain.IsRun(c.g, r) && r.stride == c.stride && |r.st| == |r.nows| + 1
    ensures m.qs == r.st[|r.nows|] && m.ticket == Drain.TicketAt(r.ticket, r.stride, |r.nows|)
    ensures |s.pcs| == 1 && s.ticket == m.ticket + c.stride
  {
    hide Follows;
    hide Drain.TurnAt;
  }

  lemma DoneAtClaim(c: Config, m: Mark, qs: Queues, hand: seq<Taken>)
    requires |m.qs| == c.g.total && c.stride > 0 && Midway(c, m, Claim, qs, hand)
    ensures Done(c, m, qs)
  {
    hide Done;
  }

  lemma PassOver(c: Config, s: State, s': State, r: Drain.Run, r': Drain.Run, m: Mark, m': Mark, from: nat)
    requires Timed(s, r, m, from) && |s.pcs| == |s'.pcs| == 1 && s.pcs[0] != Claim && s'.pcs[0] == Claim
    requires s.clock <= s'.clock && s'.ticket == s.ticket == m.ticket + c.stride && (m'.at == m.at || m'.at == s.clock)
    requires Drain.IsRun(c.g, r') && r'.stride == c.stride && r'.st[|r'.nows|] == s'.core.queues
    requires m.ticket + c.stride == Drain.TicketAt(r'.ticket, r'.stride, |r'.nows|) && r'.nows == r.nows + [m'.at]
    ensures Tracks(c, s', r', m') && Timed(s', r', m', from) && Spoilt(s', r', m') == Drain.Spoilt(r'.busies)
  {
    hide Follows;
    hide Drain.IsRun;
    hide Drain.Spoilt;
  }

  lemma PassOn(c: Config, s: State, s': State, r: Drain.Run, m: Mark, m': Mark, from: nat)
    requires Tracks(c, s, r, m) && Timed(s, r, m, from) && s.pcs[0] != Claim && Follows(c, s', m')
    requires |s'.pcs| == 1 && s'.pcs[0] != Claim
    requires m'.qs == m.qs && m'.ticket == m.ticket && s'.ticket == s.ticket && s.clock <= s'.clock
    requires m'.at == m.at || m'.at == s.clock
    ensures Tracks(c, s', r, m') && Timed(s', r, m', from)
    ensures Spoilt(s', r, m') == Drain.Spoilt(r.busies) + if m'.busy != {} then 1 else 0
  {
    hide Follows;
    hide Drain.IsRun;
    hide Drain.Spoilt;
  }

  lemma PassEnds(c: Config, r: Drain.Run, m: Mark, qs: Queues) returns (r': Drain.Run)
    requires Drain.IsRun(c.g, r) && r.stride == c.stride && |m.qs| == c.g.total && c.stride > 0
    requires Placed(c.g, m.qs) && Done(c, m, qs)
    requires m.qs == r.st[|r.nows|] && m.ticket == Drain.TicketAt(r.ticket, r.stride, |r.nows|)
    ensures Drain.IsRun(c.g, r') && r' == Drain.Extend(r, qs, m.busy, m.at, m.mid) && |r'.nows| == |r.nows| + 1
    ensures m.ticket + c.stride == Drain.TicketAt(r'.ticket, r'.stride, |r'.nows|)
    ensures r'.st[0] == r.st[0] && r'.st[|r'.nows|] == qs && r'.nows == r.nows + [m.at]
    ensures r'.ticket == r.ticket && r'.stride == r.stride
    ensures Drain.Spoilt(r'.busies) == Drain.Spoilt(r.busies) + if m.busy != {} then 1 else 0
  {
    hide Placed;
    MarkWindow(c, m);
    assert Drain.Turn(c.g, m.qs, qs, m.ticket, c.stride, m.busy, m.at, m.mid);
    hide Drain.Turn;
    Drain.RunExtends(c.g, r, qs, m.busy, m.at, m.mid);
    r' := Drain.Extend(r, qs, m.busy, m.at, m.mid);
    Drain.TicketAdd(r.ticket, r.stride, |r.nows|, 0);
  }

  /** A state that differs for the worker in nothing but the clock. */
  lemma Unmoved(c: Config, s: State, s': State, r: Drain.Run, m: Mark, from: nat)
    requires Tracks(c, s, r, m) && Timed(s, r, m, from) && s.clock <= s'.clock && s'.ticket == s.ticket
    requires |s'.pcs| == |s.core.hands| == |s'.core.hands| == 1 && s'.pcs[0] == s.pcs[0]
    requires s'.core.queues == s.core.queues && s'.core.hands[0] == s.core.hands[0]
    ensures Tracks(c, s', r, m) && Timed(s', r, m, from) && Spoilt(s', r, m) == Spoilt(s, r, m)
  {
    hide Midway;
    hide Drain.IsRun;
    hide Drain.Spoilt;
    hide Placed;
  }

  lemma OwnStep(c: Config, s: State, step: Step, r: Drain.Run, m: Mark, from: nat) returns (r': Drain.Run, m': Mark)
    requires Inv(c, s) && c.workers == 1 && Tracks(c, s, r, m) && Timed(s, r, m, from)
    requires Enabled(c, s, step) && Mover(step) == Some(Matcher(0)) && !step.Acquire?
    ensures var s' := Next(c, s, step);
            && Tracks(c, s', r', m') && Timed(s', r', m', from) && r'.st[0] == r.st[0] && r'.ticket == r.ticket
            && Spoilt(s', r', m') <= Spoilt(s, r, m) + if step.TryFails? then 1 else 0
  {
    hide *;
    InvOpen(c, s);
    CustodyHolds(c, s);
    OwnKinds(step);
    TicketFrame(c, s, step);
    TicketMoves(c, s, step);
    TracksOpen(c, s, r, m);
    var s' := Next(c, s, step);
    if s.pcs[0] == Claim {
      OnlyClaims(c, s, step);
      m' := ClaimStarts(c, s, step.choice);
      r' := r;
      PassBegins(c, s, s', r, m, m', from);
    } else {
      match step {
        case Act(_) =>
          m' := m;
          OwnAct(c, s, m);
        case Local(_, choice) =>
          m' := OwnLocal(c, s, choice, m);
        case TryFails(_) =>
          m' := OwnTry(c, s, m);
      }
      r' := PassGoesOn(c, s, s', r, m, m', from);
      SpoiltNow(s, r, m);
    }
  }

  lemma TicketMoves(c: Config, s: State, step: Step)
    requires |s.pcs| == 1 && Enabled(c, s, step)
    ensures step.Local? && step.t.Matcher? ==> step.t == Matcher(0)
  {
  }

  lemma OwnKinds(step: Step)
    requires Mover(step) == Some(Matcher(0)) && !step.Acquire?
    ensures step == Act(Matcher(0)) || step == TryFails(0) || (step.Local? && step.t == Matcher(0))
  {
  }

  lemma SpoiltNow(s: State, r: Drain.Run, m: Mark)
    requires |s.pcs| == 1 && s.pcs[0] != Claim
    ensures Spoilt(s, r, m) == Drain.Spoilt(r.busies) + if m.busy != {} then 1 else 0
  {
    hide Drain.Spoilt;
  }

  lemma InvOpen(c: Config, s: State)
    requires Inv(c, s)
    ensures ControlOk(c, s) && ClockOk(s)
  {
    hide ControlOk;
    hide ClockOk;
  }

  lemma TracksOpen(c: Config, s: State, r: Drain.Run, m: Mark)
    requires Tracks(c, s, r, m)
    ensures |s.pcs| == 1 && (s.pcs[0] != Claim ==> Follows(c, s, m))
  {
    hide Follows;
    hide Drain.IsRun;
  }

  lemma OnlyClaims(c: Config, s: State, step: Step)
    requires |s.pcs| == 1 && s.pcs[0] == Claim && Enabled(c, s, step) && Mover(step) == Some(Matcher(0))
    ensures step.Local? && step.t == Matcher(0)
  {
  }

  lemma PassBegins(c: Config, s: State, s': State, r: Drain.Run, m: Mark, m': Mark, from: nat)
    requires Tracks(c, s, r, m) && Timed(s, r, m, from) && s.pcs[0] == Claim && Follows(c, s', m') && s'.pcs[0] != Claim
    requires m' == Mark(s.core.queues, s.ticket, {}, s.clock, 0) && s'.ticket == s.ticket + c.stride && s.clock <= s'.clock
    ensures Tracks(c, s', r, m') && Timed(s', r, m', from) && Spoilt(s', r, m') == Spoilt(s, r, m)
  {
    hide *;
    FollowsOpen(c, s', m');
    TracksAtClaim(c, s, r, m);
    TracksIntro(c, s', r, m');
    TimedOn(s, s', r, m, m', from);
  }

  lemma TracksAtClaim(c: Config, s: State, r: Drain.Run, m: Mark)
    requires Tracks(c, s, r, m) && s.pcs[0] == Claim
    ensures Drain.IsRun(c.g, r) && r.stride == c.stride && |r.st| == |r.nows| + 1 && |s.pcs| == 1
    ensures s.core.queues == r.st[|r.nows|] && s.ticket == Drain.TicketAt(r.ticket, r.stride, |r.nows|)
  {
    hide Follows;
    hide Drain.TurnAt;
  }

  lemma TracksIntro(c: Config, s: State, r: Drain.Run, m: Mark)
    requires Drain.IsRun(c.g, r) && r.stride == c.stride && |r.st| == |r.nows| + 1 && |s.pcs| == 1 && s.pcs[0] != Claim
    requires Follows(c, s, m) && m.qs == r.st[|r.nows|] && m.ticket == Drain.TicketAt(r.ticket, r.stride, |r.nows|)
    requires s.ticket == m.ticket + c.stride
    ensures Tracks(c, s, r, m)
  {
    hide Follows;
    hide Drain.IsRun;
  }

  lemma TimedOn(s: State, s': State, r: Drain.Run, m: Mark, m': Mark, from: nat)
    requires Timed(s, r, m, from) && |s.pcs| == |s'.pcs| == 1 && s.pcs[0] == Claim && s'.pcs[0] != Claim
    requires s.clock <= s'.clock && m'.at == s.clock && m'.busy == {}
    ensures Timed(s', r, m', from) && Spoilt(s', r, m') == Spoilt(s, r, m)
  {
    hide Drain.Spoilt;
  }

  /** Any step of any thread, with nobody arriving. */
  lemma TrackStep(c: Config, s: State, step: Step, r: Drain.Run, m: Mark, from: nat) returns (r': Drain.Run, m': Mark)
    requires Inv(c, s) && c.workers == 1 && Tracks(c, s, r, m) && Timed(s, r, m, from)
    requires Enabled(c, s, step) && !step.Crash? && ValidConfig(c) && Next(c, s, step).core.frontier == s.core.frontier
    ensures var s' := Next(c, s, step);
            && Tracks(c, s', r', m') && Timed(s', r', m', from) && r'.st[0] == r.st[0] && r'.ticket == r.ticket
            && Spoilt(s', r', m') <= Spoilt(s, r, m) + if step.TryFails? then 1 else 0
  {
    hide *;
    InvOpen(c, s);
    CustodyHolds(c, s);
    TracksShape(c, s, r, m);
    r', m' := r, m;
    if Mover(step) != Some(Matcher(0)) {
      OthersKeep(c, s, step);
      TicketFrame(c, s, step);
      Unmoved(c, s, Next(c, s, step), r, m, from);
    } else if step.Acquire? {
      MoverOf(step);
      AcquireKeeps(c, s);
      Unmoved(c, s, Next(c, s, step), r, m, from);
    } else {
      r', m' := OwnStep(c, s, step, r, m, from);
    }
  }

  lemma TracksShape(c: Config, s: State, r: Drain.Run, m: Mark)
    requires Tracks(c, s, r, m)
    ensures |s.pcs| == 1 && |r.st| > 0
  {
    hide Follows;
  }

  lemma MoverOf(step: Step)
    requires step.Acquire? && Mover(step) == Some(Matcher(0))
    ensures step == Acquire(Matcher(0))
  {
  }

  lemma FrontierStep(c: Config, s: State, step: Step)
    requires Inv(c, s) && Enabled(c, s, step) && !step.Crash?
    ensures ValidConfig(c) && s.core.frontier <= Next(c, s, step).core.frontier
  {
    hide *;
    InvOpen(c, s);
    CustodyHolds(c, s);
    CursorFrame(c, s, step);
    CoreStep(c, s, step);
  }

  lemma {:induction false} FrontierGrows(c: Config, s: State, steps: seq<Step>, t: State)
    requires ValidConfig(c) && Inv(c, s) && Runs(c, s, steps, t) && NoCrash(steps)
    ensures s.core.frontier <= t.core.frontier
    decreases |steps|
  {
    hide Inv;
    hide Enabled;
    hide Next;
    if steps != [] {
      InvStep(c, s, steps[0]);
      FrontierStep(c, s, steps[0]);
      assert NoCrash(steps[1..]);
      FrontierGrows(c, Next(c, s, steps[0]), steps[1..], t);
    }
  }

  /** How often a border was found locked. */
  function Tries(steps: seq<Step>): (n: nat)
    ensures n <= |steps| && (n == 0 <==> forall i :: 0 <= i < |steps| ==> !steps[i].TryFails?)
  {
    if steps == [] then 0 else (if steps[0].TryFails? then 1 else 0) + Tries(steps[1..])
  }

  lemma {:induction false} TrackRuns(c: Config, s: State, steps: seq<Step>, t: State, r: Drain.Run, m: Mark, from: nat)
    returns (r': Drain.Run, m': Mark)
    requires ValidConfig(c) && Inv(c, s) && Runs(c, s, steps, t) && NoCrash(steps) && c.workers == 1
    requires t.core.frontier == s.core.frontier && Tracks(c, s, r, m) && Timed(s, r, m, from)
    ensures Tracks(c, t, r', m') && Timed(t, r', m', from) && r'.st[0] == r.st[0] && r'.ticket == r.ticket
    ensures Spoilt(t, r', m') <= Spoilt(s, r, m) + Tries(steps)
    decreases |steps|
  {
    hide Inv;
    hide Enabled;
    hide Next;
    hide Tracks;
    hide Timed;
    hide Spoilt;
    r', m' := r, m;
    if steps != [] {
      var s1 := Next(c, s, steps[0]);
      InvStep(c, s, steps[0]);
      FrontierStep(c, s, steps[0]);
      assert NoCrash(steps[1..]);
      FrontierGrows(c, s1, steps[1..], t);
      var r1, m1 := TrackStep(c, s, steps[0], r, m, from);
      r', m' := TrackRuns(c, s1, steps[1..], t, r1, m1, from);
    }
  }

  /** A tolerance that covers the pool at two times covers it at any time between. */
  lemma PatientBetween(qs: Queues, range: nat, from: nat, at: nat, to: nat)
    requires Drain.Patient(qs, range, from) && Drain.Patient(qs, range, to) && from <= at <= to
    ensures Drain.Patient(qs, range, at)
  {
  }

  /** In the thread machine with one worker, between two ticket draws without a crash or an
      arrival, `n` passes are `n` turns of the sequential worker, whatever else happened;
      at most one of them is spoilt for each time a border was found locked. So a tenth of
      the pool's laps, one more and one for each locked border leave at most nine players
      waiting per ticket of a lap. */
  lemma ThreadsDrain(c: Config, s: State, steps: seq<Step>, t: State, n: nat, range: nat)
    requires ValidConfig(c) && Inv(c, s) && Runs(c, s, steps, t) && NoCrash(steps) && c.workers == 1
    requires |s.pcs| > 0 && |t.pcs| > 0 && s.pcs[0] == t.pcs[0] == Claim
    requires t.core.frontier == s.core.frontier && t.ticket == s.ticket + n * c.stride
    requires Drain.Patient(s.core.queues, range, s.clock) && Drain.Patient(s.core.queues, range, t.clock)
    requires n >= (Waiting(s.core.queues) / 10 + 1 + Tries(steps)) * Drain.Lap(c.g.total, c.stride)
    ensures Waiting(t.core.queues) <= 9 * Drain.Lap(c.g.total, c.stride)
  {
    hide Inv;
    hide Runs;
    hide Waiting;
    hide Drain.Lap;
    hide Drain.Patient;
    var m := Mark(s.core.queues, s.ticket, {}, s.clock, 0);
    var r := Drain.Run([s.core.queues], s.ticket, c.stride, [], [], []);
    InvShape(c, s);
    assert Drain.TicketAt(s.ticket, c.stride, 0) == s.ticket;
    assert Tracks(c, s, r, m);
    assert Timed(s, r, m, s.clock);
    var r', m' := TrackRuns(c, s, steps, t, r, m, s.clock);
    PassCount(r'.stride, |r'.nows|, n);
    forall i | 0 <= i < |r'.nows| ensures Drain.Patient(r'.st[0], range, r'.nows[i]) {
      PatientBetween(s.core.queues, range, s.clock, r'.nows[i], t.clock);
    }
    var spoilt, lap := Drain.Spoilt(r'.busies), Drain.Lap(c.g.total, c.stride);
    var w := Waiting(s.core.queues) / 10 + 1;
    Scale(w + spoilt, w + Tries(steps), lap);
    hide Drain.IsRun;
    Drain.DrainTheorem(c.g, r', range);
  }

  lemma InvShape(c: Config, s: State)
    requires Inv(c, s)
    ensures |s.pcs| == |s.core.hands| == c.workers && |s.core.queues| == c.g.total
  {
    hide *;
    InvOpen(c, s);
    CustodyHolds(c, s);
    CoreFacts(c.g, s.core);
  }

  lemma PassCount(stride: nat, a: nat, b: nat)
    requires 0 < stride && a * stride == b * stride
    ensures a == b
  {
  }
}
