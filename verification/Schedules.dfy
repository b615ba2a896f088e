/** Concrete schedules of the thread machine, on any grid, that show where the program's own
    claims stop: a bucket reordered by two workers, and waiting players lost by a snapshot. */
module Schedules {
  import opened Base
  import opened Optimizer
  import opened Buckets
  import opened MatchPool
  import Worker
  import Drain
  import Custody
  import opened Engine

  // ---- Reaching one state from another ----

  ghost predicate Leads(c: Config, s: State, t: State)
    requires ValidConfig(c)
  {
    exists steps :: Runs(c, s, steps, t)
  }

  lemma LeadsHere(c: Config, s: State)
    requires ValidConfig(c)
    ensures Leads(c, s, s)
  {
    hide Enabled;
    hide Next;
    assert Runs(c, s, [], s);
  }

  lemma LeadsBy(c: Config, s: State, step: Step)
    requires ValidConfig(c) && Enabled(c, s, step)
    ensures Leads(c, s, Next(c, s, step))
  {
    hide Enabled;
    hide Next;
    var t := Next(c, s, step);
    assert [step][1..] == [];
    assert Runs(c, t, [], t);
    assert Runs(c, s, [step], t);
  }

  lemma {:induction false} RunsOn(c: Config, s: State, x: seq<Step>, t: State, y: seq<Step>, u: State)
    requires ValidConfig(c) && Runs(c, s, x, t) && Runs(c, t, y, u)
    ensures Runs(c, s, x + y, u)
    decreases |x|
  {
    hide Enabled;
    hide Next;
    if x == [] {
      assert x + y == y;
    } else {
      assert (x + y)[0] == x[0] && (x + y)[1..] == x[1..] + y;
      RunsOn(c, Next(c, s, x[0]), x[1..], t, y, u);
    }
  }

  lemma LeadsOn(c: Config, s: State, t: State, u: State)
    requires ValidConfig(c) && Leads(c, s, t) && Leads(c, t, u)
    ensures Leads(c, s, u)
  {
    hide Runs;
    var x :| Runs(c, s, x, t);
    var y :| Runs(c, t, y, u);
    RunsOn(c, s, x, t, y, u);
  }

  /** A thread takes the mutex it needs, acts and releases it, with nobody in between. */
  lemma Section(c: Config, s: State, t: Tid, m: Mutex)
    requires ValidConfig(c) && s.holder == map[] && Wants(c, s, t) == Some(m)
    ensures var held := s.(holder := map[m := t]);
            Enabled(c, held, Act(t)) && Leads(c, s, Next(c, held, Act(t)))
  {
    var held := s.(holder := map[m := t]);
    assert s.holder[m := t] == map[m := t];
    SameWants(c, s, held, t);
    LeadsBy(c, s, Acquire(t));
    LeadsBy(c, held, Act(t));
    LeadsOn(c, s, held, Next(c, held, Act(t)));
  }

  lemma SameWants(c: Config, s: State, held: State, t: Tid)
    requires held == s.(holder := held.holder)
    ensures Wants(c, held, t) == Wants(c, s, t)
  {
    if t.Matcher? && t.w < |s.pcs| {
      SameWorkerWants(c, s, held, t.w);
    }
  }

  // ---- Everybody in one bucket ----

  predicate LastHasRoom(c: Config) {
    (c.g.total - 1) * c.g.width + 255 < TWO_31
  }

  /** The last bucket or the first holds ratings 255 apart that fit an i32. */
  ghost predicate Roomy(c: Config) {
    ValidConfig(c) && (LastHasRoom(c) || c.g.width >= 256)
  }

  /** The bucket of everybody in these schedules: the last if it has room, else the first. */
  function Spot(c: Config): (b: nat)
    ensures b < c.g.total
  {
    if LastHasRoom(c) then c.g.total - 1 else 0
  }

  function Stack(c: Config, q: seq<Player>): (qs: Queues)
    ensures |qs| == c.g.total
  {
    seq(c.g.total, b requires 0 <= b < c.g.total => if b == Spot(c) then q else [])
  }

  lemma StackUpdate(c: Config, q: seq<Player>, q': seq<Player>)
    ensures Stack(c, q)[Spot(c) := q'] == Stack(c, q')
    ensures Stack(c, q)[Spot(c)] == q
  {
  }

  ghost function Moved(s: State, w: nat, pc: Pc): State
    requires w < |s.pcs|
  {
    s.(pcs := s.pcs[w := pc])
  }

  /** A worker's step that touches nothing but its counter. */
  lemma Thinks(c: Config, s: State, w: nat, choice: nat)
    requires ValidConfig(c) && w < |s.pcs| && Wants(c, s, Matcher(w)) == None
    requires !s.pcs[w].Claim? && !s.pcs[w].Gate? && !s.pcs[w].Settle?
    ensures Leads(c, s, Moved(s, w, WorkerMoves(c, s, w, choice)))
  {
    hide WorkerMoves;
    hide Wants;
    LeadsBy(c, s, Local(Matcher(w), choice));
  }

  /** A worker's critical section that only looks at a bucket. */
  lemma Looks(c: Config, s: State, w: nat, m: Mutex)
    requires ValidConfig(c) && w < |s.pcs| && s.holder == map[] && Wants(c, s, Matcher(w)) == Some(m)
    requires s.pcs[w].Scan? || s.pcs[w].Peek?
    ensures Leads(c, s, Moved(s, w, WorkerActs(c, s, w)))
  {
    var t := Matcher(w);
    var held := s.(holder := map[m := t]);
    Section(c, s, t, m);
    SameWants(c, s, held, t);
    assert held.holder - {m} == map[];
    hide Wants;
    hide WorkerActs;
    SameActs(c, s, held, w);
    assert Next(c, held, Act(t)) == Moved(s, w, WorkerActs(c, s, w));
  }

  lemma SameActs(c: Config, s: State, held: State, w: nat)
    requires w < |s.pcs| && held == s.(holder := held.holder)
    ensures WorkerActs(c, held, w) == WorkerActs(c, s, w)
  {
  }

  ghost function Window(c: Config, ticket: nat): seq<nat>
    requires ValidConfig(c)
  {
    Worker.Window(ticket, c.stride, c.g.total)
  }

  lemma Claims(c: Config, s: State, w: nat)
    requires ValidConfig(c) && w < |s.pcs| && s.pcs[w] == Claim
    ensures Leads(c, s, Moved(s, w, Scan(Window(c, s.ticket), 0, 0)).(ticket := s.ticket + c.stride))
  {
    hide Worker.Window;
    hide Accepts;
    hide Custody.Apply;
    var step := Local(Matcher(w), 0);
    assert WorkerMoves(c, s, w, 0) == Scan(Window(c, s.ticket), 0, 0);
    assert Enabled(c, s, step) && NewCore(c, s, step) == s.core;
    hide WorkerMoves;
    hide NewCore;
    hide Enabled;
    assert Next(c, s, step) == Moved(s, w, Scan(Window(c, s.ticket), 0, 0)).(ticket := s.ticket + c.stride);
    hide *;
    LeadsBy(c, s, step);
  }

  // ---- Scanning and peeking ----

  lemma TargetsInRange(c: Config, window: seq<nat>)
    requires Indices(window, c.g.total)
    ensures Indices(Targets(c, window), c.g.total) && window <= Targets(c, window)
  {
    hide Edge;
  }

  lemma ScanActs(c: Config, s: State, w: nat, window: seq<nat>, k: nat, approx: nat)
    requires w < |s.pcs| && s.pcs[w] == Scan(window, k, approx) && k < |Targets(c, window)|
    requires Targets(c, window)[k] < |s.core.queues|
    ensures Wants(c, s, Matcher(w)) == Some(BucketLock(Targets(c, window)[k]))
    ensures WorkerActs(c, s, w) == Scan(window, k + 1, approx + |s.core.queues[Targets(c, window)[k]]|)
  {
    hide Targets;
  }

  lemma DepthNext(qs: Queues, order: seq<nat>, k: nat)
    requires Indices(order, |qs|) && k < |order|
    ensures Indices(order[..k], |qs|) && Indices(order[..k + 1], |qs|) && order[k] < |qs|
    ensures Depth(qs, order[..k + 1]) == Depth(qs, order[..k]) + |qs[order[k]]|
  {
    assert order[..k + 1] == order[..k] + [order[k]];
    DepthConcat(qs, order[..k], [order[k]]);
  }

  lemma ScansNone(c: Config, s: State, w: nat, window: seq<nat>, ts: seq<nat>)
    requires ValidConfig(c) && w < |s.pcs| && s.pcs[w] == Scan(window, 0, 0)
    ensures Indices(ts[..0], |s.core.queues|)
    ensures Leads(c, s, Moved(s, w, Scan(window, 0, Depth(s.core.queues, ts[..0]))))
  {
    hide Leads;
    assert Moved(s, w, s.pcs[w]) == s;
    LeadsHere(c, s);
  }

  lemma ScansOne(c: Config, s: State, w: nat, window: seq<nat>, k: nat, approx: nat)
    requires ValidConfig(c) && w < |s.pcs| && s.holder == map[] && k < |Targets(c, window)|
    requires Targets(c, window)[k] < |s.core.queues| && Leads(c, s, Moved(s, w, Scan(window, k, approx)))
    ensures Leads(c, s, Moved(s, w, Scan(window, k + 1, approx + |s.core.queues[Targets(c, window)[k]]|)))
  {
    hide Targets;
    hide Leads;
    var s1 := Moved(s, w, Scan(window, k, approx));
    var next := Scan(window, k + 1, approx + |s.core.queues[Targets(c, window)[k]]|);
    ScanActs(c, s1, w, window, k, approx);
    assert Moved(s1, w, next) == Moved(s, w, next);
    hide Wants;
    hide WorkerActs;
    Looks(c, s1, w, BucketLock(Targets(c, window)[k]));
    LeadsOn(c, s, s1, Moved(s, w, next));
  }

  lemma {:induction false} ScansTo(c: Config, s: State, w: nat, window: seq<nat>, k: nat)
    requires ValidConfig(c) && w < |s.pcs| && s.holder == map[] && |s.core.queues| == c.g.total
    requires Indices(window, c.g.total) && s.pcs[w] == Scan(window, 0, 0) && k <= |Targets(c, window)|
    ensures Indices(Targets(c, window)[..k], c.g.total)
    ensures Leads(c, s, Moved(s, w, Scan(window, k, Depth(s.core.queues, Targets(c, window)[..k]))))
  {
    hide *;
    TargetsInRange(c, window);
    var qs, ts := s.core.queues, Targets(c, window);
    if k == 0 {
      ScansNone(c, s, w, window, ts);
    } else {
      ScansTo(c, s, w, window, k - 1);
      DepthNext(qs, ts, k - 1);
      ScansOne(c, s, w, window, k - 1, Depth(qs, ts[..k - 1]));
    }
  }

  lemma ScanMoves(c: Config, s: State, w: nat, window: seq<nat>, approx: nat)
    requires ValidConfig(c) && w < |s.pcs| && s.pcs[w] == Scan(window, |Targets(c, window)|, approx)
    ensures Wants(c, s, Matcher(w)) == None
    ensures WorkerMoves(c, s, w, 0) == if approx < 10 then Claim else Peek(window, 0, None, 0, s.core.nextToken)
  {
    hide Targets;
    hide Accepts;
    hide DrainOrder;
    hide Worker.Window;
  }

  /** The whole scan: on to the peek when the buckets counted hold ten, else back. */
  lemma Scans(c: Config, s: State, w: nat, window: seq<nat>)
    requires ValidConfig(c) && w < |s.pcs| && s.holder == map[] && |s.core.queues| == c.g.total
    requires Indices(window, c.g.total) && s.pcs[w] == Scan(window, 0, 0)
    ensures Indices(Targets(c, window), c.g.total)
    ensures Leads(c, s, Moved(s, w, if Depth(s.core.queues, Targets(c, window)) < 10 then Claim
                                    else Peek(window, 0, None, 0, s.core.nextToken)))
  {
    hide Targets;
    hide Leads;
    hide Depth;
    var qs, ts := s.core.queues, Targets(c, window);
    ScansTo(c, s, w, window, |ts|);
    assert ts[..|ts|] == ts;
    var s1 := Moved(s, w, Scan(window, |ts|, Depth(qs, ts)));
    ScanMoves(c, s1, w, window, Depth(qs, ts));
    Thinks(c, s1, w, 0);
    var pc := if Depth(qs, ts) < 10 then Claim else Peek(window, 0, None, 0, s.core.nextToken);
    assert Moved(s1, w, pc) == Moved(s, w, pc);
    hide *;
    LeadsOn(c, s, s1, Moved(s, w, pc));
  }

  /** What a peek has found after `k` buckets when only the spot holds anybody. */
  ghost function Found(c: Config, s: State, window: seq<nat>, k: nat, q: seq<Player>): Pc
    requires q != [] && k <= |window|
  {
    if Spot(c) in window[..k] then Peek(window, k, Some(Spot(c)), q[0].enqueuedAt, s.core.nextToken)
    else Peek(window, k, None, 0, s.core.nextToken)
  }

  lemma PeekActs(c: Config, s: State, s1: State, w: nat, window: seq<nat>, k: nat, q: seq<Player>)
    requires q != [] && k < |window| && window[k] < c.g.total && s1.core.queues == Stack(c, q)
    requires w < |s1.pcs| && s1.pcs[w] == Found(c, s, window, k, q)
    ensures Wants(c, s1, Matcher(w)) == Some(BucketLock(window[k]))
    ensures WorkerActs(c, s1, w) == Found(c, s, window, k + 1, q)
  {
    hide Targets;
    assert window[..k + 1] == window[..k] + [window[k]];
  }

  lemma {:induction false} PeeksTo(c: Config, s: State, w: nat, window: seq<nat>, k: nat, q: seq<Player>)
    requires ValidConfig(c) && w < |s.pcs| && s.holder == map[] && s.core.queues == Stack(c, q) && q != []
    requires Indices(window, c.g.total) && s.pcs[w] == Peek(window, 0, None, 0, s.core.nextToken) && k <= |window|
    ensures Leads(c, s, Moved(s, w, Found(c, s, window, k, q)))
  {
    hide Leads;
    if k == 0 {
      assert Moved(s, w, s.pcs[w]) == s && Found(c, s, window, 0, q) == s.pcs[w];
      LeadsHere(c, s);
    } else {
      PeeksTo(c, s, w, window, k - 1, q);
      var s1 := Moved(s, w, Found(c, s, window, k - 1, q));
      PeekActs(c, s, s1, w, window, k - 1, q);
      assert Found(c, s, window, k - 1, q).Peek?;
      var s2 := Moved(s, w, Found(c, s, window, k, q));
      assert Moved(s1, w, Found(c, s, window, k, q)) == s2;
      hide Found;
      Looks(c, s1, w, BucketLock(window[k - 1]));
      LeadsOn(c, s, s1, s2);
    }
  }

  lemma PeekMoves(c: Config, s: State, w: nat, window: seq<nat>, anchor: Option<nat>, oldest: nat, since: nat)
    requires ValidConfig(c) && w < |s.pcs| && s.pcs[w] == Peek(window, |window|, anchor, oldest, since) && window != []
    ensures Wants(c, s, Matcher(w)) == None
    ensures WorkerMoves(c, s, w, 0) == if anchor.None? then Claim
                                       else Harvest(window, DrainOrder(window, anchor.value, c.g.total), 0, since)
  {
    hide Targets;
    hide Accepts;
    hide DrainOrder;
    hide Worker.Window;
  }

  ghost function Ready(c: Config, s: State, window: seq<nat>): (pc: Pc)
    requires window != []
    ensures pc.Harvest? && pc.pos == 0 && pc.order != [] && pc.order[0] == Spot(c) && pc.since == s.core.nextToken
  {
    Harvest(window, DrainOrder(window, Spot(c), c.g.total), 0, s.core.nextToken)
  }

  ghost function Started(c: Config, s: State, window: seq<nat>): (pc: Pc)
    requires window != []
    ensures pc.Harvest? && pc.pos == 1 && |pc.order| >= 1
  {
    Harvest(window, DrainOrder(window, Spot(c), c.g.total), 1, s.core.nextToken)
  }

  /** The whole peek: a harvest if the window holds the spot, else back. */
  lemma Peeks(c: Config, s: State, w: nat, window: seq<nat>, q: seq<Player>)
    requires ValidConfig(c) && w < |s.pcs| && s.holder == map[] && s.core.queues == Stack(c, q) && q != []
    requires Indices(window, c.g.total) && window != [] && s.pcs[w] == Peek(window, 0, None, 0, s.core.nextToken)
    ensures Leads(c, s, Moved(s, w, if Spot(c) in window then Ready(c, s, window) else Claim))
  {
    hide Leads;
    hide DrainOrder;
    var n := |window|;
    var pc := Found(c, s, window, n, q);
    assert window[..n] == window;
    PeeksTo(c, s, w, window, n, q);
    var s1 := Moved(s, w, pc);
    PeekMoves(c, s1, w, window, pc.anchor, pc.oldest, pc.since);
    var next := if Spot(c) in window then Ready(c, s, window) else Claim;
    assert WorkerMoves(c, s1, w, 0) == next && Moved(s1, w, next) == Moved(s, w, next);
    hide WorkerMoves;
    Thinks(c, s1, w, 0);
    hide *;
    LeadsOn(c, s, s1, Moved(s, w, next));
  }

  // ---- Walking the carousel ----

  lemma WindowIndices(c: Config, ticket: nat)
    requires ValidConfig(c)
    ensures |Window(c, ticket)| == c.stride && Indices(Window(c, ticket), c.g.total)
  {
  }

  /** A worker at the start of its loop, whatever the window: the spot is in it and
      holds ten, and a harvest begins; or it is not, and nothing but the ticket changes. */
  lemma OneTicket(c: Config, s: State, w: nat, q: seq<Player>)
    requires ValidConfig(c) && w < |s.pcs| && s.holder == map[] && s.core.queues == Stack(c, q) && |q| >= 10
    requires s.pcs[w] == Claim
    ensures var window := Window(c, s.ticket);
            window != [] && Leads(c, s, Moved(s, w, if Spot(c) in window then Ready(c, s, window) else Claim)
                                          .(ticket := s.ticket + c.stride))
  {
    hide Leads;
    hide DrainOrder;
    var window := Window(c, s.ticket);
    WindowIndices(c, s.ticket);
    hide Window;
    var s1 := Moved(s, w, Scan(window, 0, 0)).(ticket := s.ticket + c.stride);
    var next := if Spot(c) in window then Ready(c, s, window) else Claim;
    var t := Moved(s, w, next).(ticket := s.ticket + c.stride);
    assert Moved(s1, w, next) == t && s1.core.nextToken == s.core.nextToken;
    assert Ready(c, s1, window) == Ready(c, s, window);
    hide *;
    Positive(c);
    Claims(c, s, w);
    ScansAndPeeks(c, s1, w, window, q);
    LeadsOn(c, s, s1, t);
  }

  lemma Positive(c: Config)
    requires ValidConfig(c)
    ensures c.stride > 0
  {
  }

  lemma ScansAndPeeks(c: Config, s: State, w: nat, window: seq<nat>, q: seq<Player>)
    requires ValidConfig(c) && w < |s.pcs| && s.holder == map[] && s.core.queues == Stack(c, q) && |q| >= 10
    requires Indices(window, c.g.total) && window != [] && s.pcs[w] == Scan(window, 0, 0)
    ensures Leads(c, s, Moved(s, w, if Spot(c) in window then Ready(c, s, window) else Claim))
  {
    hide Leads;
    hide DrainOrder;
    Scans(c, s, w, window);
    FullDepth(c, q, window);
    hide Indices;
    if Depth(s.core.queues, Targets(c, window)) >= 10 {
      hide Depth;
      hide Targets;
      var s1 := Moved(s, w, Peek(window, 0, None, 0, s.core.nextToken));
      var next := if Spot(c) in window then Ready(c, s, window) else Claim;
      Peeks(c, s1, w, window, q);
      assert Ready(c, s1, window) == Ready(c, s, window);
      assert Moved(s1, w, next) == Moved(s, w, next);
      LeadsOn(c, s, s1, Moved(s, w, next));
    }
  }

  lemma FullDepth(c: Config, q: seq<Player>, window: seq<nat>)
    requires Indices(window, c.g.total) && Indices(Targets(c, window), c.g.total)
    ensures Spot(c) in window ==> Depth(Stack(c, q), Targets(c, window)) >= |q|
  {
    TargetsInRange(c, window);
    hide Targets;
    if Spot(c) in window {
      var i :| 0 <= i < |window| && window[i] == Spot(c);
      DepthWithout(Stack(c, q), Targets(c, window), i);
    }
  }

  /** How many buckets the spot lies ahead of a ticket, around the ring. */
  function Distance(c: Config, ticket: nat): nat {
    var lo := ticket % c.g.total;
    if lo <= Spot(c) then Spot(c) - lo else Spot(c) + c.g.total - lo
  }

  lemma SpotAhead(c: Config, ticket: nat)
    requires ValidConfig(c)
    ensures Distance(c, ticket) < c.stride ==> Spot(c) in Window(c, ticket)
    ensures Distance(c, ticket) >= c.stride ==> Distance(c, ticket + c.stride) == Distance(c, ticket) - c.stride
  {
    var n, lo, d := c.g.total, ticket % c.g.total, Distance(c, ticket);
    hide Spot;
    Worker.WrapOnce(lo + d, n);
    if d < c.stride {
      assert Window(c, ticket)[d] == Spot(c);
    } else {
      Drain.ModAdd(ticket, c.stride, n);
      Worker.WrapOnce(lo + c.stride, n);
    }
  }

  /** A worker walks the carousel until its window holds the spot. */
  lemma {:induction false} Walks(c: Config, s: State, w: nat, q: seq<Player>) returns (t: State, window: seq<nat>)
    requires ValidConfig(c) && w < |s.pcs| && s.holder == map[]
    requires s.core.queues == Stack(c, q) && |q| >= 10 && s.pcs[w] == Claim
    ensures window != [] && t == Moved(s, w, Ready(c, s, window)).(ticket := t.ticket) && Leads(c, s, t)
    ensures Spot(c) in window && Indices(window, c.g.total)
    decreases Distance(c, s.ticket)
  {
    hide Leads;
    hide Ready;
    Positive(c);
    SpotAhead(c, s.ticket);
    OneTicket(c, s, w, q);
    if Spot(c) in Window(c, s.ticket) {
      window := Window(c, s.ticket);
      WindowIndices(c, s.ticket);
      t := Moved(s, w, Ready(c, s, window)).(ticket := s.ticket + c.stride);
    } else {
      var s1 := Moved(s, w, Claim).(ticket := s.ticket + c.stride);
      t, window := Walks(c, s1, w, q);
      assert Moved(s1, w, Ready(c, s1, window)) == Moved(s, w, Ready(c, s, window)).(ticket := s1.ticket) by {
        SameReady(c, s, s1, window);
      }
      LeadsOn(c, s, s1, t);
    }
  }

  lemma SameReady(c: Config, s: State, s1: State, window: seq<nat>)
    requires window != [] && s1.core.nextToken == s.core.nextToken
    ensures Ready(c, s1, window) == Ready(c, s, window)
  {
  }

  // ---- Taking and putting back ----

  ghost function Handed(s: State, w: nat, queues: Queues, hand: seq<Taken>, pc: Pc): State
    requires w < |s.pcs| && w < |s.core.hands|
  {
    s.(core := s.core.(queues := queues, hands := s.core.hands[w := hand]), pcs := s.pcs[w := pc])
  }

  /** The worker's pops from one bucket. */
  lemma TakesAt(c: Config, s: State, w: nat)
    requires ValidConfig(c) && s.holder == map[] && w < |s.pcs| == |s.core.hands| && |s.core.queues| == c.g.total
    requires s.pcs[w].Harvest? && s.pcs[w].pos < |s.pcs[w].order| && s.pcs[w].order[s.pcs[w].pos] < c.g.total
    requires |s.core.hands[w]| < 10
    ensures var pc, hand := s.pcs[w], s.core.hands[w];
            var b := pc.order[pc.pos];
            var q := s.core.queues[b];
            var n := Min(10 - |hand|, |q|);
            Leads(c, s, Handed(s, w, s.core.queues[b := q[n..]], hand + Tag(b, q[..n]), pc.(pos := pc.pos + 1)))
  {
    var pc, hand := s.pcs[w], s.core.hands[w];
    var b := pc.order[pc.pos];
    var q := s.core.queues[b];
    var n := Min(10 - |hand|, |q|);
    var t, m := Matcher(w), BucketLock(b);
    var held := s.(holder := map[m := t]);
    assert Wants(c, s, t) == Some(m);
    Section(c, s, t, m);
    SameWants(c, s, held, t);
    assert held.holder - {m} == map[];
    assert CoreOp(c, held, Act(t)) == Some(Custody.TakeFront(w, b, n));
    hide Wants;
    hide Tag;
    assert Next(c, held, Act(t)) == Handed(s, w, s.core.queues[b := q[n..]], hand + Tag(b, q[..n]), pc.(pos := pc.pos + 1));
  }

  /** The first pops of a harvest that is ready, from the spot. */
  lemma Takes(c: Config, s: State, w: nat, q: seq<Player>, window: seq<nat>)
    requires ValidConfig(c) && s.holder == map[] && w < |s.pcs| == |s.core.hands| && window != []
    requires s.pcs[w] == Ready(c, s, window) && s.core.queues == Stack(c, q) && s.core.hands[w] == []
    ensures var n := Min(10, |q|);
            Leads(c, s, Handed(s, w, Stack(c, q[n..]), Tag(Spot(c), q[..n]), Started(c, s, window)))
  {
    var n := Min(10, |q|);
    TakesAt(c, s, w);
    StackUpdate(c, q, q[n..]);
    hide Leads;
    assert [] + Tag(Spot(c), q[..n]) == Tag(Spot(c), q[..n]);
  }

  /** Visiting the rest of the order finds nobody. */
  lemma {:induction false} FindsNobody(c: Config, s: State, w: nat, k: nat)
    requires ValidConfig(c) && s.holder == map[] && w < |s.pcs| == |s.core.hands| && s.core.queues == Stack(c, [])
    requires s.pcs[w].Harvest? && s.pcs[w].pos <= k <= |s.pcs[w].order| && Indices(s.pcs[w].order, c.g.total)
    requires |s.core.hands[w]| < 10
    ensures Leads(c, s, Moved(s, w, s.pcs[w].(pos := k)))
    decreases k
  {
    hide Leads;
    var pc := s.pcs[w];
    if k == pc.pos {
      assert Moved(s, w, pc) == s;
      LeadsHere(c, s);
    } else {
      FindsNobody(c, s, w, k - 1);
      var s1 := Moved(s, w, pc.(pos := k - 1));
      TakesAt(c, s1, w);
      var b, hand := pc.order[k - 1], s.core.hands[w];
      assert Stack(c, [])[b] == [] && Stack(c, [])[b := []] == Stack(c, []);
      assert hand + Tag(b, []) == hand && s.core.hands[w := hand] == s.core.hands;
      var s2 := Moved(s, w, pc.(pos := k));
      assert Handed(s1, w, Stack(c, []), hand, pc.(pos := k)) == s2;
      LeadsOn(c, s, s1, s2);
    }
  }

  /** A full pair of hands goes to the gate, a short one at the end of the order back. */
  lemma AfterTaking(c: Config, s: State, w: nat)
    requires ValidConfig(c) && w < |s.pcs| && s.pcs[w].Harvest?
    requires |Hand(s, w)| >= 10 || s.pcs[w].pos == |s.pcs[w].order|
    ensures Leads(c, s, Moved(s, w, if |Hand(s, w)| < 10 then Undo else Gate(s.pcs[w].window, s.pcs[w].since)))
  {
    hide Leads;
    hide DrainOrder;
    Thinks(c, s, w, 0);
  }

  lemma Refused(c: Config, s: State, w: nat, group: seq<Player>)
    requires ValidConfig(c) && w < |s.pcs| == |s.core.hands| && s.pcs[w].Gate?
    requires Players(s.core.hands[w]) == group && |group| == 10 && !Worker.Admits(group, s.clock)
    requires AtHome(c.g, s.core.hands[w]) && |s.core.queues| == c.g.total
    ensures Leads(c, s, Moved(s, w, Undo).(nextMid := s.nextMid + 1))
  {
    hide Worker.Admits;
    hide Leads;
    var step := Local(Matcher(w), 0);
    assert !Accepts(s, w) && Enabled(c, s, step);
    assert Custody.AllHome(c.g, s.core.hands[w]) == s.core.hands[w];
    assert s.core.hands[w := s.core.hands[w]] == s.core.hands;
    assert NewCore(c, s, step) == s.core;
    hide NewCore;
    hide Accepts;
    assert Next(c, s, step) == Moved(s, w, Undo).(nextMid := s.nextMid + 1);
    LeadsBy(c, s, step);
  }

  /** One player put back at the front. */
  lemma PutsOne(c: Config, s: State, w: nat, q: seq<Player>, ts: seq<Taken>, p: Player)
    requires ValidConfig(c) && s.holder == map[] && w < |s.pcs| == |s.core.hands|
    requires s.pcs[w] == Undo && s.core.queues == Stack(c, q) && s.core.hands[w] == ts + [Taken(Spot(c), p)]
    ensures Leads(c, s, Handed(s, w, Stack(c, [p] + q), ts, Undo))
  {
    var t, m := Matcher(w), BucketLock(Spot(c));
    var held := s.(holder := map[m := t]);
    assert Wants(c, s, t) == Some(m);
    Section(c, s, t, m);
    SameWants(c, s, held, t);
    assert held.holder - {m} == map[];
    assert CoreOp(c, held, Act(t)) == Some(Custody.PutBack(w));
    hide Wants;
    assert (ts + [Taken(Spot(c), p)])[..|ts|] == ts;
    StackUpdate(c, q, [p] + q);
    assert Next(c, held, Act(t)) == Handed(s, w, Stack(c, [p] + q), ts, Undo);
  }

  lemma {:induction false} PutsAll(c: Config, s: State, w: nat, q: seq<Player>, ps: seq<Player>)
    requires ValidConfig(c) && s.holder == map[] && w < |s.pcs| == |s.core.hands|
    requires s.pcs[w] == Undo && s.core.queues == Stack(c, q) && s.core.hands[w] == Tag(Spot(c), ps)
    ensures Leads(c, s, Handed(s, w, Stack(c, ps + q), [], Undo))
    decreases |ps|
  {
    hide Leads;
    if ps == [] {
      assert ps + q == q && Handed(s, w, Stack(c, ps + q), [], Undo) == s;
      LeadsHere(c, s);
    } else {
      var n := |ps| - 1;
      assert Tag(Spot(c), ps) == Tag(Spot(c), ps[..n]) + [Taken(Spot(c), ps[n])];
      PutsOne(c, s, w, q, Tag(Spot(c), ps[..n]), ps[n]);
      var s1 := Handed(s, w, Stack(c, [ps[n]] + q), Tag(Spot(c), ps[..n]), Undo);
      PutsAll(c, s1, w, [ps[n]] + q, ps[..n]);
      assert ps[..n] + ([ps[n]] + q) == ps + q;
      var t := Handed(s, w, Stack(c, ps + q), [], Undo);
      assert Handed(s1, w, Stack(c, ps + q), [], Undo) == t;
      hide *;
      LeadsOn(c, s, s1, t);
    }
  }

  // ---- Arrivals ----

  lemma {:induction false} PublishAll(c: Config, s: State, evs: seq<Event>)
    requires ValidConfig(c)
    ensures Leads(c, s, s.(stream := s.stream + evs))
    decreases |evs|
  {
    if evs == [] {
      assert s.stream + evs == s.stream;
      LeadsHere(c, s);
    } else {
      var s1 := s.(stream := s.stream + [evs[0]]);
      assert Next(c, s, Publish(evs[0])) == s1;
      LeadsBy(c, s, Publish(evs[0]));
      hide Leads;
      PublishAll(c, s1, evs[1..]);
      assert (s.stream + [evs[0]]) + evs[1..] == s.stream + evs;
      LeadsOn(c, s, s1, s.(stream := s.stream + evs));
    }
  }

  function Arrived(evs: seq<Event>): (r: seq<Player>)
    ensures |r| == |evs|
  {
    seq(|evs|, i requires 0 <= i < |evs| => Player(evs[i].id, evs[i].rating, 0, i, i))
  }

  /** Events whose players all belong in the spot. */
  ghost predicate ForSpot(c: Config, evs: seq<Event>) {
    0 < |evs| <= 100 && forall i :: 0 <= i < |evs| ==> BucketIndex(c.g, evs[i].rating) == Spot(c)
  }

  /** After `i` of the events were enqueued at time zero, nothing else having happened. */
  ghost function Loaded(c: Config, evs: seq<Event>, i: nat): State
    requires i <= |evs|
  {
    var init := Init(c);
    var ps := Arrived(evs[..i]);
    init.(core := init.core.(queues := Stack(c, ps), enqueued := ps, nextToken := i, frontier := i),
          ingest := if i < |evs| then Load(0, |evs|, i) else Advance(|evs|),
          stream := evs, waiting := i, playersEnqueued := i)
  }

  lemma Fetches(c: Config, evs: seq<Event>)
    requires ValidConfig(c) && 0 < |evs| <= 100
    ensures Leads(c, Init(c), Loaded(c, evs, 0))
  {
    var s := Init(c);
    var s1 := s.(stream := evs);
    assert [] + evs == evs;
    PublishAll(c, s, evs);
    var held := s1.(holder := map[CursorLock := Ingestor]);
    Section(c, s1, Ingestor, CursorLock);
    var s2 := s1.(ingest := Fetch(0));
    assert held.holder - {CursorLock} == map[];
    assert Next(c, held, Act(Ingestor)) == s2;
    LeadsBy(c, s2, Local(Ingestor, |evs|));
    assert s.core.queues == Stack(c, []) && Arrived(evs[..0]) == [];
    assert Next(c, s2, Local(Ingestor, |evs|)) == Loaded(c, evs, 0);
    hide *;
    LeadsOn(c, s, s1, s2);
    LeadsOn(c, s, s2, Loaded(c, evs, 0));
  }

  lemma ArrivedNext(evs: seq<Event>, i: nat)
    requires i < |evs|
    ensures Arrived(evs[..i + 1]) == Arrived(evs[..i]) + [Player(evs[i].id, evs[i].rating, 0, i, i)]
  {
  }

  ghost function Enqueued(c: Config, evs: seq<Event>, i: nat): State
    requires i < |evs|
  {
    Loaded(c, evs, i + 1).(ingest := CountEnqueued(0, |evs|, i), waiting := i, playersEnqueued := i)
  }

  lemma EnqueuesOne(c: Config, evs: seq<Event>, i: nat)
    requires ValidConfig(c) && ForSpot(c, evs) && i < |evs|
    ensures Leads(c, Loaded(c, evs, i), Enqueued(c, evs, i))
  {
    var s := Loaded(c, evs, i);
    var m := BucketLock(Spot(c));
    var held := s.(holder := map[m := Ingestor]);
    var ps, p := Arrived(evs[..i]), Player(evs[i].id, evs[i].rating, 0, i, i);
    hide BucketIndex;
    assert Wants(c, s, Ingestor) == Some(m);
    Section(c, s, Ingestor, m);
    assert held.holder - {m} == map[];
    assert CoreOp(c, held, Act(Ingestor)) == Some(Custody.Enqueue(p));
    StackUpdate(c, ps, ps + [p]);
    assert Custody.Enabled(c.g, s.core, Custody.Enqueue(p));
    ArrivedNext(evs, i);
    hide Arrived;
    hide Stack;
    assert Next(c, held, Act(Ingestor)) == Enqueued(c, evs, i);
  }

  lemma CountsOne(c: Config, evs: seq<Event>, i: nat)
    requires ValidConfig(c) && i < |evs|
    ensures Leads(c, Enqueued(c, evs, i), Loaded(c, evs, i + 1))
  {
    hide Arrived;
    hide Stack;
    var s := Enqueued(c, evs, i);
    var s1 := s.(ingest := CountWaiting(0, |evs|, i), playersEnqueued := i + 1);
    LeadsBy(c, s, Local(Ingestor, 0));
    assert Next(c, s, Local(Ingestor, 0)) == s1;
    LeadsBy(c, s1, Local(Ingestor, 0));
    assert Next(c, s1, Local(Ingestor, 0)) == Loaded(c, evs, i + 1);
    hide *;
    LeadsOn(c, s, s1, Loaded(c, evs, i + 1));
  }

  /** Up to a hundred events, published and enqueued in one batch. */
  lemma {:induction false} LoadsAll(c: Config, evs: seq<Event>, i: nat)
    requires ValidConfig(c) && ForSpot(c, evs) && i <= |evs|
    ensures Leads(c, Init(c), Loaded(c, evs, i))
  {
    hide Leads;
    hide Loaded;
    hide Init;
    if i == 0 {
      Fetches(c, evs);
    } else {
      LoadsAll(c, evs, i - 1);
      EnqueuesOne(c, evs, i - 1);
      CountsOne(c, evs, i - 1);
      LeadsOn(c, Init(c), Loaded(c, evs, i - 1), Enqueued(c, evs, i - 1));
      LeadsOn(c, Init(c), Enqueued(c, evs, i - 1), Loaded(c, evs, i));
    }
  }

  lemma SpotBase(c: Config)
    ensures Spot(c) * c.g.width < TWO_31 && BucketIndex(c.g, Spot(c) * c.g.width) == Spot(c)
  {
    BucketBand(c.g, Spot(c) * c.g.width, Spot(c));
  }

  /** Ten events for the spot, all of one rating. */
  function Alike(c: Config): (evs: seq<Event>)
    ensures |evs| == 10
  {
    SpotBase(c);
    seq(10, i requires 0 <= i < 10 => Event(i, Spot(c) * c.g.width))
  }

  /** Eleven events for the spot, the tenth an outlier by rating. */
  function Crowd(c: Config): (evs: seq<Event>)
    requires Spot(c) * c.g.width + 255 < TWO_31
    ensures |evs| == 11
  {
    var base := Spot(c) * c.g.width;
    seq(11, i requires 0 <= i < 11 => Event(i, if i == 9 then base + 255 else base))
  }

  lemma CrowdBelongs(c: Config)
    requires Roomy(c)
    ensures Spot(c) * c.g.width + 255 < TWO_31 && ForSpot(c, Crowd(c))
  {
    var base := Spot(c) * c.g.width;
    BucketBand(c.g, base, Spot(c));
    BucketBand(c.g, base + 255, Spot(c));
    assert BucketIndex(c.g, base) == Spot(c) && BucketIndex(c.g, base + 255) == Spot(c);
    hide BucketIndex;
  }

  lemma AlikeBelongs(c: Config)
    ensures ForSpot(c, Alike(c))
  {
    SpotBase(c);
    hide BucketIndex;
  }

  // ---- Two workers reorder a bucket ----

  /** Two workers, idle, with nobody in hand. */
  ghost predicate Idle(s: State) {
    s.holder == map[] && |s.pcs| == |s.core.hands| >= 2 && s.pcs[0] == s.pcs[1] == Claim
    && s.core.hands[0] == s.core.hands[1] == []
  }

  /** Both walk to the spot and see eleven players; the first takes ten, the second
      the eleventh and finds nobody else. */
  lemma BothTake(c: Config, s: State, q: seq<Player>) returns (t: State)
    requires ValidConfig(c) && Idle(s) && s.core.queues == Stack(c, q) && |q| == 11
    ensures Leads(c, s, t) && t.holder == map[] && |t.pcs| == |t.core.hands| == |s.pcs| && t.clock == s.clock
    ensures t.pcs[0].Harvest? && t.pcs[1].Harvest? && t.pcs[1].pos == |t.pcs[1].order|
    ensures t.core.queues == Stack(c, []) && t.core.hands[0] == Tag(Spot(c), q[..10])
    ensures t.core.hands[1] == Tag(Spot(c), q[10..])
  {
    hide Leads;
    hide DrainOrder;
    var s1, x := Walks(c, s, 0, q);
    var s2, y := Walks(c, s1, 1, q);
    OrderInRange(y, Spot(c), c.g.total);
    var s3 := Handed(s2, 0, Stack(c, q[10..]), Tag(Spot(c), q[..10]), Started(c, s2, x));
    assert s2.pcs[0] == Ready(c, s2, x);
    Takes(c, s2, 0, q, x);
    assert s3.pcs[1] == Ready(c, s3, y);
    assert q[10..][..1] == q[10..] && q[10..][1..] == [];
    var s4 := Handed(s3, 1, Stack(c, []), Tag(Spot(c), q[10..]), Started(c, s3, y));
    Takes(c, s3, 1, q[10..], y);
    t := Moved(s4, 1, s4.pcs[1].(pos := |s4.pcs[1].order|));
    FindsNobody(c, s4, 1, |s4.pcs[1].order|);
    LeadsOn(c, s, s1, s2);
    LeadsOn(c, s, s2, s3);
    LeadsOn(c, s, s3, s4);
    LeadsOn(c, s, s4, t);
  }

  /** The first group is refused and returned; only then does the second worker return
      the eleventh player, in front of them. */
  lemma BothReturn(c: Config, s: State, q: seq<Player>) returns (t: State)
    requires ValidConfig(c) && s.holder == map[] && |s.pcs| == |s.core.hands| >= 2 && |q| == 11
    requires s.pcs[0].Harvest? && s.pcs[1].Harvest? && s.pcs[1].pos == |s.pcs[1].order|
    requires s.core.queues == Stack(c, []) && s.core.hands[0] == Tag(Spot(c), q[..10])
    requires s.core.hands[1] == Tag(Spot(c), q[10..]) && AtHome(c.g, s.core.hands[0])
    requires !Worker.Admits(q[..10], s.clock)
    ensures Leads(c, s, t) && t.core.queues == Stack(c, q[10..] + q[..10])
  {
    hide Worker.Admits;
    hide Leads;
    hide AtHome;
    hide Stack;
    var s1 := Moved(s, 0, Gate(s.pcs[0].window, s.pcs[0].since));
    AfterTaking(c, s, 0);
    var s2 := Moved(s1, 0, Undo).(nextMid := s1.nextMid + 1);
    Refused(c, s1, 0, q[..10]);
    var s3 := Moved(s2, 1, Undo);
    AfterTaking(c, s2, 1);
    var s4 := Handed(s3, 0, Stack(c, q[..10] + []), [], Undo);
    PutsAll(c, s3, 0, [], q[..10]);
    t := Handed(s4, 1, Stack(c, q[10..] + (q[..10] + [])), [], Undo);
    PutsAll(c, s4, 1, q[..10] + [], q[10..]);
    assert q[..10] + [] == q[..10];
    LeadsOn(c, s, s1, s2);
    LeadsOn(c, s, s2, s3);
    LeadsOn(c, s, s3, s4);
    LeadsOn(c, s, s4, t);
  }

  lemma CrowdIsRefused(c: Config)
    requires Roomy(c)
    ensures Spot(c) * c.g.width + 255 < TWO_31 && !Worker.Admits(Arrived(Crowd(c))[..10], 0)
    ensures forall i :: 0 <= i < 11 ==> Home(c.g, Arrived(Crowd(c))[i]) == Spot(c)
  {
    CrowdBelongs(c);
    hide BucketIndex;
    var group := Arrived(Crowd(c))[..10];
    hide Worker.Admits;
    Worker.ShortWait(group, 0);
    Worker.OutlierIsRejected(group, 9, Spot(c) * c.g.width, 0);
  }

  /** Eleven players in one bucket, the tenth an outlier: two workers leave the last
      of them in front, whatever the grid and the stride. */
  lemma TwoWorkersReorder(c: Config) returns (t: State)
    requires Roomy(c) && c.workers >= 2
    ensures Leads(c, Init(c), t) && !Custody.FirstInFirst(t.core)
  {
    hide Leads;
    hide Worker.Admits;
    CrowdBelongs(c);
    CrowdIsRefused(c);
    var evs := Crowd(c);
    var q := Arrived(evs);
    assert evs[..11] == evs;
    var s := Loaded(c, evs, 11);
    LoadsAll(c, evs, 11);
    var mid := BothTake(c, s, q);
    assert AtHome(c.g, mid.core.hands[0]) by {
      hide BucketIndex;
    }
    t := BothReturn(c, mid, q);
    OutOfOrder(c, t, q);
    LeadsOn(c, Init(c), s, mid);
    LeadsOn(c, Init(c), mid, t);
  }

  lemma OutOfOrder(c: Config, t: State, q: seq<Player>)
    requires |q| == 11 && t.core.queues == Stack(c, q[10..] + q[..10])
    requires q[10].token > q[0].token
    ensures !Custody.FirstInFirst(t.core)
  {
    var b := Spot(c);
    assert t.core.queues[b][0] == q[10] && t.core.queues[b][1] == q[0];
  }

  /** With one worker every bucket stays first in, first out, whatever the grid. */
  lemma OneWorkerIsFifo(c: Config, s: State)
    requires ValidConfig(c) && c.workers == 1 && Leads(c, Init(c), s)
    ensures Custody.FirstInFirst(s.core)
  {
    var steps :| Runs(c, Init(c), steps, s);
    Reachable(c, steps, s);
    Custody.OneWorkerKeepsOrder(c.g, s.core);
  }

  /** Buckets stay first in, first out over every run exactly when there is one worker. */
  lemma FifoIffOneWorker(c: Config)
    requires Roomy(c) && c.workers > 0
    ensures (forall s :: Leads(c, Init(c), s) ==> Custody.FirstInFirst(s.core)) <==> c.workers == 1
  {
    hide Leads;
    hide Custody.FirstInFirst;
    if c.workers == 1 {
      forall s | Leads(c, Init(c), s) ensures Custody.FirstInFirst(s.core) {
        OneWorkerIsFifo(c, s);
      }
    } else {
      var t := TwoWorkersReorder(c);
    }
  }

  // ---- A snapshot misses players in hand ----

  lemma Publishes(c: Config, evs: seq<Event>)
    requires ValidConfig(c) && evs != []
    ensures var s, n := Loaded(c, evs, |evs|), |evs|;
            Leads(c, s, s.(core := s.core.(cursor := n), ingest := ReadCursor))
  {
    hide Arrived;
    hide Stack;
    var s := Loaded(c, evs, |evs|);
    var held := s.(holder := map[CursorLock := Ingestor]);
    Section(c, s, Ingestor, CursorLock);
    assert held.holder - {CursorLock} == map[];
    assert Next(c, held, Act(Ingestor)) == s.(core := s.core.(cursor := |evs|), ingest := ReadCursor);
  }

  lemma BeginsCopy(c: Config, s: State)
    requires ValidConfig(c) && s.holder == map[] && s.snap == Asleep && s.core.copy.None? && |s.core.queues| == c.g.total
    ensures Leads(c, s, s.(snap := Copying, core := s.core.(copy := Some(Custody.Copy(s.core.cursor, 0, [], {})))))
  {
    var s1 := s.(snap := Begin);
    assert Next(c, s, Local(Snapshotter, 0)) == s1;
    LeadsBy(c, s, Local(Snapshotter, 0));
    var held := s1.(holder := map[CursorLock := Snapshotter]);
    Section(c, s1, Snapshotter, CursorLock);
    assert held.holder - {CursorLock} == map[];
    var t := s.(snap := Copying, core := s.core.(copy := Some(Custody.Copy(s.core.cursor, 0, [], {}))));
    assert Next(c, held, Act(Snapshotter)) == t;
    hide *;
    LeadsOn(c, s, s1, t);
  }

  /** Part of a copy that has found nobody. */
  ghost predicate Copied(s: State, t: State, k: nat) {
    && t.snap == Copying && t.holder == map[] && t.core == s.core.(copy := t.core.copy)
    && s.core.copy.Some? && t.core.copy.Some? && t.core.copy.value.next == k && t.core.copy.value.out == []
    && t.core.copy.value.cursor == s.core.copy.value.cursor
  }

  lemma CopiesOne(c: Config, s: State, t: State, k: nat) returns (u: State)
    requires ValidConfig(c) && k < c.g.total && s.core.queues == Stack(c, []) && Copied(s, t, k)
    ensures Leads(c, t, u) && Copied(s, u, k + 1)
  {
    hide Custody.EventsAt;
    hide Custody.Held;
    hide Custody.Below;
    var m := BucketLock(k);
    var held := t.(holder := map[m := Snapshotter]);
    Section(c, t, Snapshotter, m);
    assert held.holder - {m} == map[];
    u := Next(c, held, Act(Snapshotter));
    hide Leads;
  }

  lemma {:induction false} CopiesEmpty(c: Config, s: State, k: nat) returns (t: State)
    requires ValidConfig(c) && k <= c.g.total && s.core.queues == Stack(c, []) && Copied(s, s, 0)
    ensures Leads(c, s, t) && Copied(s, t, k)
  {
    hide Leads;
    hide Copied;
    if k == 0 {
      t := s;
      LeadsHere(c, s);
    } else {
      var u := CopiesEmpty(c, s, k - 1);
      t := CopiesOne(c, s, u, k - 1);
      LeadsOn(c, s, u, t);
    }
  }

  lemma WritesOut(c: Config, s: State) returns (t: State)
    requires ValidConfig(c) && s.snap == Copying && |s.core.queues| == c.g.total
    requires s.core.copy.Some? && s.core.copy.value.next == c.g.total && s.core.copy.value.out == []
    ensures Leads(c, s, t) && t.core.queues == s.core.queues && t.core.matched == s.core.matched
    ensures t.core.disk.saved == [] && t.core.disk.cursor == s.core.copy.value.cursor
  {
    var s1 := s.(snap := Writing);
    assert Next(c, s, Local(Snapshotter, 0)) == s1;
    LeadsBy(c, s, Local(Snapshotter, 0));
    t := Next(c, s1, Local(Snapshotter, 0));
    LeadsBy(c, s1, Local(Snapshotter, 0));
    hide Leads;
    LeadsOn(c, s, s1, t);
  }

  lemma RestartsEmpty(c: Config, s: State)
    requires ValidConfig(c) && s.core.disk.saved == [] && |s.core.queues| == c.g.total
    ensures var t := Next(c, s, Crash);
            Leads(c, s, t) && Custody.Live(t.core) == multiset{}
            && t.core.frontier == t.core.cursor == s.core.disk.cursor && t.core.matched == s.core.matched
  {
    Custody.LiveBoot(c.g, s.core, s.clock);
    hide Custody.Live;
    LeadsBy(c, s, Crash);
  }

  /** Ten players are enqueued and the cursor published past them, a worker takes all ten,
      a snapshot is written, and the process restarts from it: all ten are lost. */
  lemma HeldPlayersAreLost(c: Config) returns (t: State)
    requires ValidConfig(c) && c.workers > 0
    ensures Leads(c, Init(c), t) && forall e: nat :: e < 10 ==> Custody.IsLost(t.core, e)
  {
    hide Leads;
    hide DrainOrder;
    var evs := Alike(c);
    var q := Arrived(evs);
    AlikeBelongs(c);
    assert evs[..10] == evs;
    var s := Loaded(c, evs, 10);
    LoadsAll(c, evs, 10);
    var s1 := s.(core := s.core.(cursor := 10), ingest := ReadCursor);
    Publishes(c, evs);
    var s2, x := Walks(c, s1, 0, q);
    var s3 := Handed(s2, 0, Stack(c, q[10..]), Tag(Spot(c), q[..10]), Started(c, s2, x));
    Takes(c, s2, 0, q, x);
    assert q[10..] == [];
    var s4 := s3.(snap := Copying, core := s3.core.(copy := Some(Custody.Copy(10, 0, [], {}))));
    BeginsCopy(c, s3);
    var s5 := CopiesEmpty(c, s4, c.g.total);
    var s6 := WritesOut(c, s5);
    t := Next(c, s6, Crash);
    RestartsEmpty(c, s6);
    hide *;
    LeadsOn(c, Init(c), s, s1);
    LeadsOn(c, Init(c), s1, s2);
    LeadsOn(c, Init(c), s2, s3);
    LeadsOn(c, Init(c), s3, s4);
    LeadsOn(c, Init(c), s4, s5);
    LeadsOn(c, Init(c), s5, s6);
    LeadsOn(c, Init(c), s6, t);
    NobodyLeft(t.core);
  }

  lemma NobodyLeft(s: Custody.State)
    requires Custody.Live(s) == multiset{} && s.matched == {} && s.frontier == 10
    ensures forall e: nat :: e < 10 ==> Custody.IsLost(s, e)
  {
  }
}
