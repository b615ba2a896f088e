/** The peek of a lone worker locks one bucket after another, so players may join behind it.
    When the first player it takes is still the oldest of its window, and when not. */
module Anchors {
  import opened Base
  import opened Optimizer
  import opened Buckets
  import opened MatchPool
  import TeamSplit
  import Worker
  import Custody
  import opened Engine
  import opened Schedules

  // ---- Arrivals while a worker is at work ----

  /** The ingestion thread is about to enqueue the next event of its batch. */
  ghost predicate Loading(c: Config, s: State) {
    && s.holder == map[] && |s.core.queues| == c.g.total && ClockOk(s)
    && s.ingest.Load? && s.ingest.i < s.ingest.n && s.ingest.start + s.ingest.n <= |s.stream|
    && s.ingest.start + s.ingest.i == s.core.frontier
  }

  ghost function Joined(c: Config, s: State): State
    requires Loading(c, s)
  {
    var p, x := Arrival(s, s.core.frontier), s.ingest;
    s.(core := s.core.(queues := Behind(s.core.queues, Home(c.g, p), p), enqueued := s.core.enqueued + [p],
                       nextToken := s.core.nextToken + 1, frontier := s.core.frontier + 1),
       ingest := if x.i + 1 < x.n then Load(x.start, x.n, x.i + 1) else Advance(x.start + x.n),
       waiting := s.waiting + 1, playersEnqueued := s.playersEnqueued + 1)
  }

  lemma JoinsOne(c: Config, s: State)
    requires ValidConfig(c) && Loading(c, s)
    ensures Leads(c, s, Joined(c, s))
  {
    var p, x := Arrival(s, s.core.frontier), s.ingest;
    var m := BucketLock(EventBucket(c, s, s.core.frontier));
    var held := s.(holder := map[m := Ingestor]);
    Section(c, s, Ingestor, m);
    assert held.holder - {m} == map[];
    assert CoreOp(c, held, Act(Ingestor)) == Some(Custody.Enqueue(p));
    assert Custody.Enabled(c.g, s.core, Custody.Enqueue(p));
    var t := Joined(c, s);
    var s1 := t.(ingest := CountEnqueued(x.start, x.n, x.i), waiting := s.waiting, playersEnqueued := s.playersEnqueued);
    hide Home;
    assert Next(c, held, Act(Ingestor)) == s1;
    assert After(s1) == t;
    hide *;
    CountsArrival(c, s1);
    LeadsOn(c, s, s1, t);
  }

  /** The ingestion thread counts the arrival and turns to the next. */
  function After(s: State): State
    requires s.ingest.CountEnqueued?
  {
    var x := s.ingest;
    s.(ingest := if x.i + 1 < x.n then Load(x.start, x.n, x.i + 1) else Advance(x.start + x.n),
       waiting := s.waiting + 1, playersEnqueued := s.playersEnqueued + 1)
  }

  lemma CountsArrival(c: Config, s: State)
    requires ValidConfig(c) && s.ingest.CountEnqueued?
    ensures Leads(c, s, After(s))
  {
    var x := s.ingest;
    var s1 := s.(ingest := CountWaiting(x.start, x.n, x.i), playersEnqueued := s.playersEnqueued + 1);
    LeadsBy(c, s, Local(Ingestor, 0));
    assert Next(c, s, Local(Ingestor, 0)) == s1;
    LeadsBy(c, s1, Local(Ingestor, 0));
    assert Next(c, s1, Local(Ingestor, 0)) == After(s);
    hide *;
    LeadsOn(c, s, s1, After(s));
  }

  /** From `s` to `t`, `k` players joined bucket `b` now, and nothing else happened. */
  ghost predicate Gained(c: Config, s: State, t: State, b: nat, k: nat) {
    && s.ingest.Load? && b < |s.core.queues| == |t.core.queues|
    && t.core.queues == s.core.queues[b := t.core.queues[b]]
    && |t.core.queues[b]| == |s.core.queues[b]| + k && s.core.queues[b] <= t.core.queues[b]
    && (forall j :: |s.core.queues[b]| <= j < |t.core.queues[b]| ==> t.core.queues[b][j].enqueuedAt == s.clock)
    && t.core.hands == s.core.hands && t.pcs == s.pcs && t.holder == map[]
    && t.clock == s.clock && t.ticket == s.ticket && t.stream == s.stream
    && (s.ingest.i + k < s.ingest.n ==> Loading(c, t) && t.ingest == Load(s.ingest.start, s.ingest.n, s.ingest.i + k))
  }

  lemma GainsOne(c: Config, s: State, t: State, b: nat, k: nat)
    requires Loading(c, s) && Gained(c, s, t, b, k) && s.ingest.i + k < s.ingest.n
    requires EventBucket(c, s, s.core.frontier + k) == b
    ensures Gained(c, s, Joined(c, t), b, k + 1)
  {
    hide BucketIndex;
    assert Home(c.g, Arrival(t, t.core.frontier)) == EventBucket(c, t, t.core.frontier) == b;
  }

  lemma {:induction false} JoinsMany(c: Config, s: State, b: nat, k: nat) returns (t: State)
    requires ValidConfig(c) && Loading(c, s) && b < c.g.total && s.ingest.i + k <= s.ingest.n
    requires forall e :: s.core.frontier <= e < s.core.frontier + k ==> EventBucket(c, s, e) == b
    ensures Leads(c, s, t) && Gained(c, s, t, b, k)
  {
    hide Leads;
    hide EventBucket;
    if k == 0 {
      t := s;
      LeadsHere(c, s);
    } else {
      var u := JoinsMany(c, s, b, k - 1);
      t := Joined(c, u);
      JoinsOne(c, u);
      GainsOne(c, s, u, b, k - 1);
      LeadsOn(c, s, u, t);
    }
  }

  // ---- Arrivals behind the peek ----

  /** Windows of several buckets, not the whole ring, and a rating past the first of them. */
  ghost predicate Open(c: Config) {
    ValidConfig(c) && !Closed(c)
  }

  /** Ten players for the bucket past the first window, one for its first bucket and ten for
      its second. */
  function Latecomers(c: Config): (evs: seq<Event>)
    requires c.stride > 0 && c.stride * c.g.width < TWO_31
    ensures |evs| == 21
  {
    Scale(1, c.stride, c.g.width);
    seq(21, i requires 0 <= i < 21 =>
      Event(i, if i < 10 then c.stride * c.g.width else if i == 10 then 0 else c.g.width))
  }

  function Meant(c: Config, e: nat): nat {
    if e < 10 then c.stride else if e == 10 then 0 else 1
  }

  lemma LatecomersBelong(c: Config, s: State, e: nat)
    requires Open(c) && s.stream == Latecomers(c) && e < 21
    ensures EventBucket(c, s, e) == Meant(c, e)
  {
    var rating := s.stream[e].rating;
    assert rating == Meant(c, e) * c.g.width;
    assert Meant(c, e) < c.g.total;
    hide Meant;
    TeamSplit.DivOf(rating, c.g.width, Meant(c, e), 0);
  }

  lemma FirstWindow(c: Config)
    requires Open(c)
    ensures var window := Window(c, 0);
            && |window| == c.stride && Indices(window, c.g.total)
            && (forall k :: 0 <= k < |window| ==> window[k] == k)
            && |Targets(c, window)| > c.stride && Targets(c, window)[c.stride] == c.stride
  {
    var window := Window(c, 0);
    forall k | 0 <= k < |window| ensures window[k] == k {
      Worker.WindowAt(0, c.stride, c.g.total, k);
    }
    assert window[c.stride - 1] == c.stride - 1;
    assert Edge(window) == c.stride - 1;
  }

  /** A worker at the second bucket of its peek, nobody in its window, eleven to come. */
  ghost predicate Ahead(c: Config, s: State) {
    && Open(c) && Loading(c, s) && s.ingest == Load(0, 21, 10) && s.stream == Latecomers(c)
    && s.clock == 0
    && |s.pcs| > 0 && |s.core.hands| == |s.pcs| && s.core.hands[0] == []
    && (forall b :: 0 <= b < c.stride ==> s.core.queues[b] == [])
    && s.pcs[0].Peek? && s.pcs[0] == Peek(Window(c, 0), 1, None, 0, s.pcs[0].since)
  }

  lemma StartsLoading(c: Config)
    requires Open(c)
    ensures var s := Loaded(c, Latecomers(c), 0);
            && Leads(c, Init(c), s) && Loading(c, s) && s.ingest == Load(0, 21, 0) && s.stream == Latecomers(c)
            && s.pcs == Init(c).pcs && s.core.hands == Init(c).core.hands && s.ticket == s.clock == 0
            && forall b :: 0 <= b < c.g.total ==> s.core.queues[b] == []
  {
    Fetches(c, Latecomers(c));
    hide Leads;
  }

  lemma GetsAhead(c: Config) returns (t: State)
    requires Open(c) && c.workers > 0
    ensures Leads(c, Init(c), t) && Ahead(c, t)
  {
    hide Leads;
    var s := Loaded(c, Latecomers(c), 0);
    StartsLoading(c);
    forall e: nat | e < 21 ensures EventBucket(c, s, e) == Meant(c, e) {
      LatecomersBelong(c, s, e);
    }
    var s1 := JoinsMany(c, s, c.stride, 10);
    t := SeesNobody(c, s1);
    LeadsOn(c, Init(c), s, s1);
    LeadsOn(c, Init(c), s1, t);
  }

  /** The scan counts the ten in the border; the peek finds nobody in the first bucket. */
  lemma SeesNobody(c: Config, s: State) returns (t: State)
    requires Open(c) && Loading(c, s) && |s.pcs| > 0 && s.pcs[0] == Claim && s.ticket == 0
    requires c.stride < |s.core.queues| && |s.core.queues[c.stride]| == 10 && s.core.queues[0] == []
    ensures Leads(c, s, t) && |t.pcs| == |s.pcs| && t == s.(pcs := t.pcs, ticket := t.ticket)
    ensures t.pcs[0].Peek? && t.pcs[0] == Peek(Window(c, 0), 1, None, 0, t.pcs[0].since)
  {
    hide Leads;
    var window, qs := Window(c, 0), s.core.queues;
    FirstWindow(c);
    hide Window;
    var since := s.core.nextToken;
    var s1 := Moved(s, 0, Scan(window, 0, 0)).(ticket := c.stride);
    Claims(c, s, 0);
    Scans(c, s1, 0, window);
    DepthWithout(qs, Targets(c, window), c.stride);
    var s2 := Moved(s1, 0, Peek(window, 0, None, 0, since));
    LooksAt(c, s2, 0);
    t := Moved(s2, 0, Peek(window, 1, None, 0, since));
    LeadsOn(c, s, s1, s2);
    LeadsOn(c, s, s2, t);
  }

  function Past(pc: Pc, k: nat): Pc
    requires pc.Peek?
  {
    Peek(pc.window, k, pc.anchor, pc.oldest, pc.since)
  }

  /** The next bucket of the peek: nobody better in it, or somebody. */
  lemma LooksAt(c: Config, s: State, b: nat)
    requires ValidConfig(c) && s.holder == map[] && |s.pcs| > 0 && s.pcs[0].Peek?
    requires s.pcs[0].k < |s.pcs[0].window| && s.pcs[0].window[s.pcs[0].k] == b < |s.core.queues|
    ensures var pc, q := s.pcs[0], s.core.queues[b];
            Leads(c, s, Moved(s, 0, if q != [] && (pc.anchor.None? || q[0].enqueuedAt < pc.oldest)
                                    then Peek(pc.window, pc.k + 1, Some(b), q[0].enqueuedAt, pc.since)
                                    else Past(pc, pc.k + 1)))
  {
    hide Leads;
    Looks(c, s, 0, BucketLock(b));
  }

  /** One joins the bucket already looked at; a moment later ten join the next. */
  lemma JoinBehind(c: Config, s: State) returns (t: State)
    requires Ahead(c, s)
    ensures Leads(c, s, t) && t.pcs == s.pcs && t.core.hands == s.core.hands && t.holder == map[]
    ensures |t.core.queues| == c.g.total && |t.core.queues[0]| == 1 && |t.core.queues[1]| == 10
    ensures t.core.queues[0][0].enqueuedAt == 1
    ensures forall j :: 0 <= j < 10 ==> t.core.queues[1][j].enqueuedAt == 2
    ensures forall b :: 2 <= b < c.stride ==> t.core.queues[b] == []
  {
    hide Leads;
    hide Window;
    var s1 := s.(clock := s.clock + 1);
    LeadsBy(c, s, Tick);
    MeantFor(c, s);
    assert Loading(c, s1) && Next(c, s, Tick) == s1;
    hide Loading;
    SameBuckets(c, s, s1);
    var s2 := JoinsMany(c, s1, 0, 1);
    TickAfter(c, s1, s2);
    var s3 := s2.(clock := s2.clock + 1);
    SameBuckets(c, s, s3);
    t := JoinsMany(c, s3, 1, 10);
    BothJoined(c, s, s2, t);
    hide *;
    LeadsOn(c, s, s1, s2);
    LeadsOn(c, s, s2, s3);
    LeadsOn(c, s, s3, t);
  }

  lemma MeantFor(c: Config, s: State)
    requires Open(c) && s.stream == Latecomers(c)
    ensures forall e: nat :: e < 21 ==> EventBucket(c, s, e) == Meant(c, e)
  {
    forall e: nat | e < 21 ensures EventBucket(c, s, e) == Meant(c, e) {
      LatecomersBelong(c, s, e);
    }
  }

  lemma SameBuckets(c: Config, s: State, s': State)
    requires s'.stream == s.stream
    ensures forall e: nat :: EventBucket(c, s', e) == EventBucket(c, s, e)
  {
    hide BucketIndex;
  }

  lemma TickAfter(c: Config, s: State, s2: State)
    requires ValidConfig(c) && Gained(c, s, s2, 0, 1) && s.ingest.i + 1 < s.ingest.n
    ensures var s3 := s2.(clock := s2.clock + 1); Leads(c, s2, s3) && Loading(c, s3)
  {
    LeadsBy(c, s2, Tick);
    hide Leads;
  }

  lemma BothJoined(c: Config, s: State, s2: State, t: State)
    requires Ahead(c, s) && Gained(c, s.(clock := 1), s2, 0, 1) && Gained(c, s2.(clock := 2), t, 1, 10)
    ensures t.pcs == s.pcs && t.core.hands == s.core.hands && t.holder == map[]
    ensures |t.core.queues| == c.g.total && |t.core.queues[0]| == 1 && |t.core.queues[1]| == 10
    ensures t.core.queues[0][0].enqueuedAt == 1
    ensures forall j :: 0 <= j < 10 ==> t.core.queues[1][j].enqueuedAt == 2
    ensures forall b :: 2 <= b < c.stride ==> t.core.queues[b] == []
  {
    hide Window;
  }

  // ---- The anchor is no longer the oldest ----

  lemma {:induction false} LooksOn(c: Config, s: State, k: nat)
    requires ValidConfig(c) && s.holder == map[] && |s.pcs| > 0 && s.pcs[0].Peek? && |s.core.queues| == c.g.total
    requires s.pcs[0].k <= k <= |s.pcs[0].window| && Indices(s.pcs[0].window, c.g.total)
    requires forall i :: s.pcs[0].k <= i < |s.pcs[0].window| ==> s.core.queues[s.pcs[0].window[i]] == []
    ensures Leads(c, s, Moved(s, 0, Past(s.pcs[0], k)))
  {
    hide Leads;
    var pc := s.pcs[0];
    if k == pc.k {
      assert Moved(s, 0, pc) == s;
      LeadsHere(c, s);
    } else {
      LooksOn(c, s, k - 1);
      var s1 := Moved(s, 0, Past(pc, k - 1));
      LooksAt(c, s1, pc.window[k - 1]);
      assert Moved(s1, 0, Past(pc, k)) == Moved(s, 0, Past(pc, k));
      LeadsOn(c, s, s1, Moved(s, 0, Past(pc, k)));
    }
  }

  /** The rest of the peek: the second bucket is the anchor. */
  lemma FindsSecond(c: Config, s: State) returns (order: seq<nat>)
    requires Open(c) && s.holder == map[] && |s.pcs| > 0 && |s.core.queues| == c.g.total
    requires s.pcs[0].Peek? && s.pcs[0] == Peek(Window(c, 0), 1, None, 0, s.pcs[0].since)
    requires s.core.queues[1] != [] && forall b :: 2 <= b < c.stride ==> s.core.queues[b] == []
    ensures order != [] && order[0] == 1
    ensures Leads(c, s, Moved(s, 0, Harvest(Window(c, 0), order, 0, s.pcs[0].since)))
  {
    FirstWindow(c);
    var window, oldest, since := Window(c, 0), s.core.queues[1][0].enqueuedAt, s.pcs[0].since;
    order := DrainOrder(window, 1, c.g.total);
    hide Leads;
    hide DrainOrder;
    hide Window;
    hide Targets;
    var s1 := Moved(s, 0, Peek(window, 2, Some(1), oldest, since));
    LooksAt(c, s, 1);
    var s2 := Moved(s, 0, Peek(window, |window|, Some(1), oldest, since));
    LooksOn(c, s1, |window|);
    assert Moved(s1, 0, s2.pcs[0]) == s2;
    PeekMoves(c, s2, 0, window, Some(1), oldest, since);
    Thinks(c, s2, 0, 0);
    var t := Moved(s, 0, Harvest(window, order, 0, since));
    assert Moved(s2, 0, t.pcs[0]) == t;
    LeadsOn(c, s, s1, s2);
    LeadsOn(c, s, s2, t);
  }

  /** The harvest takes its ten from there and reaches the gate. */
  lemma TakesSecond(c: Config, s: State) returns (t: State)
    requires ValidConfig(c) && s.holder == map[] && |s.core.queues| == c.g.total > 1 && |s.pcs| == |s.core.hands| > 0
    requires s.pcs[0].Harvest? && s.pcs[0].pos == 0 && s.pcs[0].order != [] && s.pcs[0].order[0] == 1
    requires s.core.hands[0] == [] && |s.core.queues[1]| == 10
    ensures Leads(c, s, t) && |t.pcs| == |t.core.hands| == |s.pcs| && |t.core.queues| == c.g.total
    ensures t.pcs[0] == Gate(s.pcs[0].window, s.pcs[0].since) && |t.core.hands[0]| == 10
    ensures t.core.hands[0][0].player == s.core.queues[1][0] && t.core.queues[0] == s.core.queues[0]
  {
    hide Leads;
    var q := s.core.queues[1];
    TakesAt(c, s, 0);
    var s1 := Handed(s, 0, s.core.queues[1 := q[10..]], [] + Tag(1, q[..10]), s.pcs[0].(pos := 1));
    AfterTaking(c, s1, 0);
    t := Moved(s1, 0, Gate(s.pcs[0].window, s.pcs[0].since));
    LeadsOn(c, s, s1, t);
  }

  /** A lone worker is at the gate with ten players while one who entered before all of them
      still waits in its window. */
  lemma AnchorIsOvertaken(c: Config) returns (t: State)
    requires Open(c) && c.workers > 0
    ensures Leads(c, Init(c), t) && !AnchorHolds(t)
  {
    hide Leads;
    var s := GetsAhead(c);
    var s1 := JoinBehind(c, s);
    FirstWindow(c);
    hide Window;
    var order := FindsSecond(c, s1);
    var s2 := Moved(s1, 0, Harvest(Window(c, 0), order, 0, s1.pcs[0].since));
    t := TakesSecond(c, s2);
    LeadsOn(c, Init(c), s, s1);
    LeadsOn(c, Init(c), s1, s2);
    LeadsOn(c, Init(c), s2, t);
    assert t.pcs[0].window[0] == 0 && 0 in t.pcs[0].window;
    assert t.core.hands[0][0].player.enqueuedAt == 2 && t.core.queues[0][0].enqueuedAt == 1;
  }

  /** With one worker, the first player in hand at the gate is the oldest of the window over
      every run exactly when windows are one bucket or the whole ring, or no rating lies
      in a border. */
  lemma AnchorIffClosed(c: Config)
    requires ValidConfig(c) && c.workers == 1
    ensures (forall s :: Leads(c, Init(c), s) ==> AnchorHolds(s)) <==> Closed(c)
  {
    hide AnchorHolds;
    if Closed(c) {
      forall s | Leads(c, Init(c), s) ensures AnchorHolds(s) {
        var steps :| Runs(c, Init(c), steps, s);
        Reachable(c, steps, s);
        ClosedAnchorHolds(c, s);
      }
    } else {
      var t := AnchorIsOvertaken(c);
    }
  }
}
