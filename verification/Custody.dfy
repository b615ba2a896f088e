/** Who holds each enqueued player: the pool, a worker's hands, a formed match, or the
    snapshot a restart will read. Any number of workers, the ingestion thread and the
    snapshotter take turns, one critical section at a time, across crashes. */
module Custody {
  import opened Base
  import opened Optimizer
  import opened Buckets
  import opened MatchPool

  /** A snapshot being taken: the cursor read at its start and the buckets below `next`
      copied. `missed` records the events below that cursor whose players were in some
      worker's hands, at home in a bucket, at the moment that bucket was copied; events
      from the cursor on will be replayed. */
  datatype Copy = Copy(cursor: nat, next: nat, out: seq<Player>, missed: set<nat>)

  datatype Snapshot = Snapshot(cursor: nat, saved: seq<Saved>, missed: set<nat>)

  datatype State = State(
    queues: Queues,
    hands: seq<seq<Taken>>,
    formed: seq<seq<Player>>,   // matches formed since boot, oldest first
    enqueued: seq<Player>,      // every enqueue since boot, oldest first
    nextToken: nat,
    frontier: nat,              // the next ingest event to enqueue
    cursor: nat,                // the published read cursor
    copy: Option<Copy>,
    disk: Snapshot,             // what a restart would load
    matched: set<nat>,          // events whose player was put in a match, in any lifetime
    lost: set<nat>)          // events left behind at restarts

  datatype Op =
    | Enqueue(p: Player)
    | Publish
    | TakeFront(w: nat, b: nat, n: nat)
    | PutBack(w: nat)
    | Rehome(w: nat)
    | Form(w: nat)
    | BeginCopy
    | CopyBucket
    | Save
    | Drop
    | Restart(now: nat)

  function Held(s: State): (r: seq<seq<Player>>)
    ensures |r| == |s.hands|
  {
    seq(|s.hands|, w requires 0 <= w < |s.hands| => Players(s.hands[w]))
  }

  /** Everyone enqueued since boot and not yet matched. */
  function Live(s: State): multiset<Player> {
    Bag(s.queues) + Bag(Held(s))
  }

  function Events(m: multiset<Player>): set<nat> {
    set p | p in m :: p.event
  }

  /** The events of those at home in bucket `b`, or in any bucket from `b` on. */
  function EventsAt(g: Grid, m: multiset<Player>, b: nat): set<nat> {
    set p | p in m && Home(g, p) == b :: p.event
  }

  function EventsFrom(g: Grid, m: multiset<Player>, b: nat): set<nat> {
    set p | p in m && Home(g, p) >= b :: p.event
  }

  function Below(events: set<nat>, cursor: nat): set<nat> {
    set e | e in events && e < cursor
  }

  /** Every player in the queue of their own bucket, in order. */
  function Distribute(g: Grid, ps: seq<Player>): (qs: Queues)
    ensures |qs| == g.total
  {
    seq(g.total, b requires 0 <= b < g.total => From(g, ps, b))
  }

  /** The events a restart from the snapshot on disk leaves behind: missed by it, not saved
      under another enqueue, and not matched. */
  function LeftBehind(s: State): set<nat> {
    s.disk.missed - SavedEvents(s.disk.saved) - s.matched
  }

  function Boot(g: Grid, s: State, now: nat): State {
    var ps := Revive(s.disk.saved, now, s.nextToken);
    State(Distribute(g, ps), seq(|s.hands|, _ => []), [], ps, s.nextToken + |ps|,
          s.disk.cursor, s.disk.cursor, None, s.disk, s.matched, s.lost + LeftBehind(s))
  }

  /** A first start with `workers` workers and nothing on disk. */
  function Init(g: Grid, workers: nat): State {
    State(seq(g.total, _ => []), seq(workers, _ => []), [], [], 0, 0, 0, None, Snapshot(0, [], {}), {}, {})
  }

  ghost predicate Enabled(g: Grid, s: State, op: Op) {
    && |s.queues| == g.total
    && match op
    case Enqueue(p) =>
      p.event == s.frontier && p.token == s.nextToken
      && (s.enqueued != [] ==> s.enqueued[|s.enqueued| - 1].enqueuedAt <= p.enqueuedAt)
    case Publish => true
    case TakeFront(w, b, n) => w < |s.hands| && b < g.total && b < |s.queues| && n <= |s.queues[b]|
    case PutBack(w) => w < |s.hands| && s.hands[w] != [] && s.hands[w][|s.hands[w]| - 1].origin < |s.queues|
    case Rehome(w) => w < |s.hands|
    case Form(w) => w < |s.hands|
    case BeginCopy => s.copy.None?
    case CopyBucket => s.copy.Some? && s.copy.value.next < |s.queues|
    case Save => s.copy.Some? && s.copy.value.next == |s.queues|
    case Drop => s.copy.Some?
    case Restart(_) => true
  }

  ghost function Apply(g: Grid, s: State, op: Op): State
    requires Enabled(g, s, op)
  {
    match op
    case Enqueue(p) =>
      var b := Home(g, p);
      s.(queues := s.queues[b := s.queues[b] + [p]], enqueued := s.enqueued + [p],
         nextToken := s.nextToken + 1, frontier := s.frontier + 1)
    case Publish => s.(cursor := s.frontier)
    case TakeFront(w, b, n) =>
      var q := s.queues[b];
      s.(queues := s.queues[b := q[n..]], hands := s.hands[w := s.hands[w] + Tag(b, q[..n])])
    case PutBack(w) =>
      var k := |s.hands[w]| - 1;
      var t := s.hands[w][k];
      s.(queues := s.queues[t.origin := [t.player] + s.queues[t.origin]], hands := s.hands[w := s.hands[w][..k]])
    case Rehome(w) => s.(hands := s.hands[w := AllHome(g, s.hands[w])])
    case Form(w) =>
      var group := Players(s.hands[w]);
      s.(hands := s.hands[w := []], formed := s.formed + [group], matched := s.matched + Events(multiset(group)))
    case BeginCopy => s.(copy := Some(Copy(s.cursor, 0, [], {})))
    case CopyBucket =>
      var c := s.copy.value;
      s.(copy := Some(Copy(c.cursor, c.next + 1, c.out + s.queues[c.next],
                           c.missed + Below(EventsAt(g, Bag(Held(s)), c.next), c.cursor))))
    case Save => s.(disk := Snapshot(s.copy.value.cursor, Saves(s.copy.value.out), s.copy.value.missed), copy := None)
    case Drop => s.(copy := None)
    case Restart(now) => Boot(g, s, now)
  }

  /** The hands of a worker about to return a group by rating rather than by origin. */
  function AllHome(g: Grid, ts: seq<Taken>): (r: seq<Taken>)
    ensures |r| == |ts| && Players(r) == Players(ts) && AtHome(g, r)
  {
    seq(|ts|, i requires 0 <= i < |ts| => Taken(Home(g, ts[i].player), ts[i].player))
  }

  // ---- Placement and conservation ----

  ghost predicate InPlace(g: Grid, s: State) {
    Placed(g, s.queues) && forall w :: 0 <= w < |s.hands| ==> AtHome(g, s.hands[w])
  }

  /** Each enqueue since boot has a token of its own, and pool, hands and matches together
      are exactly those enqueues. */
  ghost predicate Conserved(s: State) {
    && Live(s) + Bag(s.formed) == multiset(s.enqueued)
    && FreshTokens(s.enqueued, s.nextToken)
  }

  ghost predicate FreshTokens(ps: seq<Player>, bound: nat) {
    && (forall i, j :: 0 <= i < j < |ps| ==> ps[i].token < ps[j].token)
    && (forall i :: 0 <= i < |ps| ==> ps[i].token < bound)
  }

  lemma InPlaceStep(g: Grid, s: State, op: Op)
    requires InPlace(g, s) && Enabled(g, s, op)
    ensures InPlace(g, Apply(g, s, op))
  {
    if op.Restart? {
      DistributePlaced(g, Revive(s.disk.saved, op.now, s.nextToken));
    }
  }

  lemma {:induction false} FromHomes(g: Grid, ps: seq<Player>, b: nat)
    ensures forall i :: 0 <= i < |From(g, ps, b)| ==> Home(g, From(g, ps, b)[i]) == b
  {
    if ps != [] {
      FromHomes(g, ps[1..], b);
    }
  }

  lemma DistributePlaced(g: Grid, ps: seq<Player>)
    ensures Placed(g, Distribute(g, ps))
    ensures Bag(Distribute(g, ps)) == multiset(ps)
  {
    forall b | 0 <= b < g.total ensures forall i :: 0 <= i < |From(g, ps, b)| ==> Home(g, From(g, ps, b)[i]) == b {
      FromHomes(g, ps, b);
    }
    var empty := seq(g.total, _ => []);
    assert Divides(g, Distribute(g, ps), ps, empty);
    DividesConserves(g, Distribute(g, ps), ps, empty);
    EmptyBag(empty);
  }

  lemma {:induction false} EmptyBag(qs: Queues)
    requires forall b :: 0 <= b < |qs| ==> qs[b] == []
    ensures Bag(qs) == multiset{}
  {
    if qs != [] {
      EmptyBag(qs[1..]);
    }
  }

  /** Moving players from the front of a bucket to the end of a pair of hands. */
  lemma MoveKeepsLive(s: State, s': State, w: nat, b: nat, moved: seq<Player>)
    requires w < |s.hands| && b < |s.queues|
    requires |s'.queues| == |s.queues| && s'.queues == s.queues[b := s'.queues[b]]
    requires |s'.hands| == |s.hands| && s'.hands == s.hands[w := s'.hands[w]]
    requires s.queues[b] == moved + s'.queues[b] && Players(s'.hands[w]) == Players(s.hands[w]) + moved
    ensures Live(s') == Live(s)
  {
    var m, x, y := multiset(moved), Bag(s'.queues), Bag(Held(s));
    assert Held(s') == Held(s)[w := Players(s'.hands[w])];
    assert multiset(s.queues[b]) == multiset(s'.queues[b]) + m;
    BagUpdateBy(s.queues, b, s'.queues[b], m);
    BagUpdateBy(Held(s), w, Players(s'.hands[w]), m);
    hide *;
    assert Bag(s.queues) == x + m && Bag(Held(s')) == y + m;
    Shuffle(x, y, m);
    SameLive(s, s', x, y, m);
  }

  lemma SameLive(s: State, s': State, x: multiset<Player>, y: multiset<Player>, m: multiset<Player>)
    requires Bag(s.queues) == x + m && Bag(Held(s)) == y && Bag(s'.queues) == x && Bag(Held(s')) == y + m
    ensures Live(s') == Live(s)
  {
    Swap3(x, m, y);
    Assoc(x, y, m);
  }

  lemma LiveTake(g: Grid, s: State, w: nat, b: nat, n: nat)
    requires Enabled(g, s, TakeFront(w, b, n))
    ensures Live(Apply(g, s, TakeFront(w, b, n))) == Live(s)
  {
    hide Live;
    TakenPlayers(s.hands[w], b, s.queues[b][..n]);
    MoveKeepsLive(s, Apply(g, s, TakeFront(w, b, n)), w, b, s.queues[b][..n]);
  }

  lemma LivePut(g: Grid, s: State, w: nat)
    requires Enabled(g, s, PutBack(w))
    ensures Live(Apply(g, s, PutBack(w))) == Live(s)
  {
    hide Live;
    var k := |s.hands[w]| - 1;
    var t := s.hands[w][k];
    assert Players(s.hands[w]) == Players(s.hands[w][..k]) + [t.player];
    MoveKeepsLive(Apply(g, s, PutBack(w)), s, w, t.origin, [t.player]);
  }

  lemma LiveForm(g: Grid, s: State, w: nat)
    requires Enabled(g, s, Form(w))
    ensures Live(Apply(g, s, Form(w))) + multiset(Players(s.hands[w])) == Live(s)
  {
    var s' := Apply(g, s, Form(w));
    var m := multiset(Players(s.hands[w]));
    assert Held(s') == Held(s)[w := []];
    BagUpdateBy(Held(s), w, [], m);
    assert Bag(Held(s')) + m == Bag(Held(s));
    Assoc(Bag(s.queues), Bag(Held(s')), m);
  }

  lemma LiveEnqueue(g: Grid, s: State, p: Player)
    requires Enabled(g, s, Enqueue(p))
    ensures Live(Apply(g, s, Enqueue(p))) == Live(s) + multiset{p}
  {
    var s' := Apply(g, s, Enqueue(p));
    BagUpdateBy(s.queues, Home(g, p), s.queues[Home(g, p)] + [p], multiset{p});
    assert Held(s') == Held(s);
    assert Bag(s'.queues) == Bag(s.queues) + multiset{p};
  }

  lemma LiveBoot(g: Grid, s: State, now: nat)
    requires |s.queues| == g.total
    ensures Live(Boot(g, s, now)) == multiset(Revive(s.disk.saved, now, s.nextToken))
  {
    DistributePlaced(g, Revive(s.disk.saved, now, s.nextToken));
    EmptyBag(Held(Boot(g, s, now)));
  }

  /** Only an arrival, a match and a restart change who is waiting or in hand. */
  lemma LiveStep(g: Grid, s: State, op: Op)
    requires InPlace(g, s) && Enabled(g, s, op)
    ensures var s' := Apply(g, s, op);
            match op
            case Enqueue(p) => Live(s') == Live(s) + multiset{p}
            case Form(w) => Live(s') + multiset(Players(s.hands[w])) == Live(s)
            case Restart(now) => Live(s') == multiset(Revive(s.disk.saved, now, s.nextToken))
            case _ => Live(s') == Live(s)
  {
    match op
    case Enqueue(p) => LiveEnqueue(g, s, p);
    case TakeFront(w, b, n) => LiveTake(g, s, w, b, n);
    case PutBack(w) => LivePut(g, s, w);
    case Rehome(w) => assert Held(Apply(g, s, op)) == Held(s);
    case Form(w) => LiveForm(g, s, w);
    case Restart(now) => LiveBoot(g, s, now);
    case _ => assert Held(Apply(g, s, op)) == Held(s);
  }

  lemma TakenPlayers(ts: seq<Taken>, b: nat, ps: seq<Player>)
    ensures Players(ts + Tag(b, ps)) == Players(ts) + ps
  {
  }

  lemma ConservedEnqueue(g: Grid, s: State, p: Player)
    requires Conserved(s) && Enabled(g, s, Enqueue(p))
    ensures Conserved(Apply(g, s, Enqueue(p)))
  {
    var s' := Apply(g, s, Enqueue(p));
    LiveEnqueue(g, s, p);
    FreshSnoc(s.enqueued, s.nextToken, p);
    assert s'.enqueued == s.enqueued + [p] && s'.nextToken == s.nextToken + 1 && s'.formed == s.formed;
    hide Live;
    hide Apply;
    hide Enabled;
    hide FreshTokens;
    Swap3(Live(s), multiset{p}, Bag(s.formed));
    assert multiset(s'.enqueued) == multiset(s.enqueued) + multiset{p};
  }

  lemma FreshSnoc(ps: seq<Player>, bound: nat, p: Player)
    requires FreshTokens(ps, bound) && p.token == bound
    ensures FreshTokens(ps + [p], bound + 1)
  {
  }

  lemma ConservedForm(g: Grid, s: State, w: nat)
    requires Conserved(s) && Enabled(g, s, Form(w))
    ensures Conserved(Apply(g, s, Form(w)))
  {
    var s', group := Apply(g, s, Form(w)), Players(s.hands[w]);
    LiveForm(g, s, w);
    BagConcat(s.formed, [group]);
    assert Bag([group]) == multiset(group);
    assert s'.formed == s.formed + [group] && s'.enqueued == s.enqueued && s'.nextToken == s.nextToken;
    hide Live;
    hide Apply;
    Swap3(Live(s'), multiset(group), Bag(s.formed));
    Assoc(Live(s'), Bag(s.formed), multiset(group));
  }

  lemma ConservedBoot(g: Grid, s: State, now: nat)
    requires |s.queues| == g.total
    ensures Conserved(Boot(g, s, now))
  {
    LiveBoot(g, s, now);
    hide Live;
    hide Distribute;
    var t := Boot(g, s, now);
    assert Live(t) + Bag(t.formed) == multiset(t.enqueued);
  }

  lemma ConservedStep(g: Grid, s: State, op: Op)
    requires InPlace(g, s) && Conserved(s) && Enabled(g, s, op)
    ensures Conserved(Apply(g, s, op))
  {
    hide InPlace;
    if op.Enqueue? {
      ConservedEnqueue(g, s, op.p);
    } else if op.Form? {
      ConservedForm(g, s, op.w);
    } else if op.Restart? {
      assert |s.queues| == g.total by { PlaceShape(g, s); }
      ConservedBoot(g, s, op.now);
    } else {
      LiveStep(g, s, op);
      hide Live;
      hide FreshTokens;
    }
  }

  lemma PlaceShape(g: Grid, s: State)
    requires InPlace(g, s)
    ensures |s.queues| == g.total
  {
  }

  lemma Swap3(a: multiset<Player>, b: multiset<Player>, c: multiset<Player>)
    ensures a + b + c == a + c + b
  {
  }

  /** No enqueue is matched twice, or matched while still waiting or in hand. */
  lemma MatchedOnce(s: State, p: Player)
    requires Conserved(s)
    ensures Live(s)[p] + Bag(s.formed)[p] == multiset(s.enqueued)[p] <= 1
  {
    TokenCount(s.enqueued, s.nextToken, p);
    assert (Live(s) + Bag(s.formed))[p] == Live(s)[p] + Bag(s.formed)[p];
  }

  lemma {:induction false} TokenCount(ps: seq<Player>, bound: nat, p: Player)
    requires FreshTokens(ps, bound)
    ensures multiset(ps)[p] <= 1
  {
    if ps != [] {
      var n := |ps| - 1;
      assert ps == ps[..n] + [ps[n]];
      TokenCount(ps[..n], bound, p);
      assert ps[n] !in ps[..n];
    }
  }

  // ---- Recovery ----

  function SavedEvents(saved: seq<Saved>): set<nat> {
    set i | 0 <= i < |saved| :: saved[i].event
  }

  /** The event's player was matched, or was given up at a restart. */
  predicate Settled(s: State, e: nat) {
    e in s.matched || e in s.lost
  }

  /** A snapshot in progress accounts for every event below the cursor it read: copied
      already, missed, matched, lost, or still at home in a bucket to come. */
  ghost predicate CopyCovers(g: Grid, s: State, c: Copy) {
    && s.disk.cursor <= c.cursor <= s.cursor && c.next <= g.total
    && forall e: nat :: e < c.cursor ==>
         Settled(s, e) || e in c.missed || e in Events(multiset(c.out))
         || e in EventsFrom(g, Live(s), c.next)
  }

  /** The snapshot on disk accounts for every event below its cursor. */
  ghost predicate DiskCovers(s: State) {
    && s.disk.cursor <= s.cursor
    && forall e: nat :: e < s.disk.cursor ==>
         Settled(s, e) || e in s.disk.missed || e in SavedEvents(s.disk.saved)
  }

  /** Every event consumed is waiting, in hand, matched or lost; every other event lies
      beyond the frontier and the published cursor never passes it. */
  ghost predicate Covered(s: State) {
    && s.cursor <= s.frontier
    && forall e: nat :: e < s.frontier ==> Settled(s, e) || e in Events(Live(s))
  }

  ghost predicate Recoverable(g: Grid, s: State) {
    && Covered(s) && DiskCovers(s)
    && (s.copy.Some? ==> CopyCovers(g, s, s.copy.value))
  }

  lemma EventsUnion(a: multiset<Player>, b: multiset<Player>)
    ensures Events(a + b) == Events(a) + Events(b)
  {
  }

  lemma RevivedEvents(saved: seq<Saved>, now: nat, token: nat)
    ensures Events(multiset(Revive(saved, now, token))) == SavedEvents(saved)
  {
    var ps := Revive(saved, now, token);
    forall e | e in SavedEvents(saved) ensures e in Events(multiset(ps)) {
      var i :| 0 <= i < |saved| && saved[i].event == e;
      assert ps[i] in multiset(ps);
    }
  }

  lemma OutEvents(out: seq<Player>)
    ensures SavedEvents(Saves(out)) == Events(multiset(out))
  {
    forall e | e in Events(multiset(out)) ensures e in SavedEvents(Saves(out)) {
      var p :| p in out && p.event == e;
      var i :| 0 <= i < |out| && out[i] == p;
      assert Saves(out)[i].event == e;
    }
    forall e | e in SavedEvents(Saves(out)) ensures e in Events(multiset(out)) {
      var i :| 0 <= i < |out| && Saves(out)[i].event == e;
      assert out[i] in multiset(out);
    }
  }

  lemma {:induction false} BagMember(qs: Queues, p: Player)
    requires p in Bag(qs)
    ensures exists b :: 0 <= b < |qs| && p in qs[b]
  {
    if p in qs[0] {
    } else {
      BagMember(qs[1..], p);
      var b :| 0 <= b < |qs[1..]| && p in qs[1..][b];
      assert p in qs[b + 1];
    }
  }

  lemma MemberAtHome(g: Grid, qs: Queues, p: Player)
    requires Placed(g, qs) && p in Bag(qs)
    ensures p in qs[Home(g, p)]
  {
    BagMember(qs, p);
  }

  /** Copying bucket `k` under its lock captures everyone at home there, except those in
      hand at that moment. */
  lemma CopyStep(g: Grid, s: State, k: nat)
    requires InPlace(g, s) && k < g.total
    ensures EventsFrom(g, Live(s), k)
         <= EventsFrom(g, Live(s), k + 1) + Events(multiset(s.queues[k])) + EventsAt(g, Bag(Held(s)), k)
  {
    forall e | e in EventsFrom(g, Live(s), k)
      ensures e in EventsFrom(g, Live(s), k + 1) + Events(multiset(s.queues[k])) + EventsAt(g, Bag(Held(s)), k)
    {
      var p :| p in Live(s) && Home(g, p) >= k && p.event == e;
      if Home(g, p) == k && p in Bag(s.queues) {
        MemberAtHome(g, s.queues, p);
      }
    }
  }

  lemma CoveredStep(g: Grid, s: State, op: Op)
    requires InPlace(g, s) && Recoverable(g, s) && Enabled(g, s, op)
    ensures Covered(Apply(g, s, op))
  {
    hide InPlace;
    hide CopyCovers;
    hide Live;
    hide Events;
    LiveStep(g, s, op);
    var s' := Apply(g, s, op);
    assert forall e: nat :: Settled(s, e) ==> Settled(s', e);
    match op
    case Enqueue(p) =>
      EventsUnion(Live(s), multiset{p});
      SingleEvent(p);
    case Form(w) =>
      EventsUnion(Live(s'), multiset(Players(s.hands[w])));
      assert forall e: nat :: e in Events(multiset(Players(s.hands[w]))) ==> Settled(s', e);
    case Restart(now) =>
      RevivedEvents(s.disk.saved, now, s.nextToken);
    case _ =>
  }

  lemma SingleEvent(p: Player)
    ensures Events(multiset{p}) == {p.event}
  {
  }

  lemma DiskStep(g: Grid, s: State, op: Op)
    requires InPlace(g, s) && Recoverable(g, s) && Enabled(g, s, op)
    ensures DiskCovers(Apply(g, s, op))
  {
    hide InPlace;
    hide Live;
    hide Events;
    if op.Save? {
      var c := s.copy.value;
      OutEvents(c.out);
      assert EventsFrom(g, Live(s), g.total) == {};
    }
  }

  lemma FromUnion(g: Grid, a: multiset<Player>, b: multiset<Player>, k: nat)
    ensures EventsFrom(g, a + b, k) == EventsFrom(g, a, k) + EventsFrom(g, b, k)
    ensures EventsFrom(g, a, k) <= Events(a)
    ensures EventsFrom(g, a, 0) == Events(a)
  {
  }

  lemma CopyCoversStep(g: Grid, s: State, op: Op)
    requires InPlace(g, s) && Recoverable(g, s) && Enabled(g, s, op)
    ensures Apply(g, s, op).copy.Some? ==> CopyCovers(g, Apply(g, s, op), Apply(g, s, op).copy.value)
  {
    hide InPlace;
    hide Live;
    hide Events;
    hide EventsFrom;
    hide EventsAt;
    LiveStep(g, s, op);
    var s' := Apply(g, s, op);
    match op
    case Enqueue(p) =>
      if s.copy.Some? { FromUnion(g, Live(s), multiset{p}, s.copy.value.next); }
    case Form(w) =>
      if s.copy.Some? {
        var m := multiset(Players(s.hands[w]));
        FromUnion(g, Live(s'), m, s.copy.value.next);
        FromUnion(g, m, m, s.copy.value.next);
      }
    case BeginCopy =>
      FromUnion(g, Live(s), multiset{}, 0);
    case CopyBucket =>
      var c := s.copy.value;
      CopyStep(g, s, c.next);
      EventsUnion(multiset(c.out), multiset(s.queues[c.next]));
      assert multiset(c.out + s.queues[c.next]) == multiset(c.out) + multiset(s.queues[c.next]);
    case _ =>
  }

  /** A copy taken while no worker holds anybody misses nobody. */
  lemma QuietCopyMissesNobody(g: Grid, s: State)
    requires Enabled(g, s, CopyBucket) && forall w :: 0 <= w < |s.hands| ==> s.hands[w] == []
    ensures Apply(g, s, CopyBucket).copy.value.missed == s.copy.value.missed
  {
    EmptyBag(Held(s));
  }

  // ---- One snapshot never captures an enqueue twice ----

  ghost predicate CapturedOnce(g: Grid, s: State) {
    s.copy.Some? ==>
      var c := s.copy.value;
      && (forall i, j :: 0 <= i < j < |c.out| ==> c.out[i].token != c.out[j].token)
      && (forall i :: 0 <= i < |c.out| ==> c.out[i] in s.enqueued && Home(g, c.out[i]) < c.next)
  }

  lemma {:induction false} BagContains(qs: Queues, b: nat)
    requires b < |qs|
    ensures multiset(qs[b]) <= Bag(qs)
  {
    if b > 0 {
      BagContains(qs[1..], b - 1);
      assert qs[b] == qs[1..][b - 1];
    }
  }

  lemma QueueTokens(g: Grid, s: State, b: nat)
    requires InPlace(g, s) && Conserved(s) && b < g.total
    ensures forall i, j :: 0 <= i < j < |s.queues[b]| ==> s.queues[b][i].token != s.queues[b][j].token
    ensures forall i :: 0 <= i < |s.queues[b]| ==> s.queues[b][i] in s.enqueued
  {
    BagContains(s.queues, b);
    assert multiset(s.queues[b]) <= Live(s) + Bag(s.formed);
    PartTokens(s.queues[b], s.enqueued, s.nextToken);
  }

  lemma PartTokens(q: seq<Player>, ps: seq<Player>, bound: nat)
    requires FreshTokens(ps, bound) && multiset(q) <= multiset(ps)
    ensures forall i, j :: 0 <= i < j < |q| ==> q[i].token != q[j].token
    ensures forall i :: 0 <= i < |q| ==> q[i] in ps
  {
    forall i | 0 <= i < |q| ensures q[i] in ps {
      assert q[i] in multiset(q);
    }
    forall i, j | 0 <= i < j < |q| ensures q[i].token != q[j].token {
      TokenCount(ps, bound, q[i]);
      WithoutBag(q, i);
      assert Without(q, i)[j - 1] == q[j];
      assert q[j] in multiset(Without(q, i));
      TokenNames(ps, bound, q[i], q[j]);
    }
  }

  lemma TokenNames(ps: seq<Player>, bound: nat, p: Player, q: Player)
    requires FreshTokens(ps, bound) && p in ps && q in ps && p != q
    ensures p.token != q.token
  {
  }

  lemma CapturedStep(g: Grid, s: State, op: Op)
    requires InPlace(g, s) && Conserved(s) && CapturedOnce(g, s) && Enabled(g, s, op)
    ensures CapturedOnce(g, Apply(g, s, op))
  {
    match op
    case CopyBucket =>
      CaptureBucket(g, s);
    case _ =>
  }

  lemma CaptureBucket(g: Grid, s: State)
    requires InPlace(g, s) && Conserved(s) && CapturedOnce(g, s) && Enabled(g, s, CopyBucket)
    ensures CapturedOnce(g, Apply(g, s, CopyBucket))
  {
    var c, q := s.copy.value, s.queues[s.copy.value.next];
    QueueTokens(g, s, c.next);
    forall i, j | 0 <= i < |c.out| && 0 <= j < |q| ensures c.out[i].token != q[j].token {
      assert Home(g, c.out[i]) != Home(g, q[j]);
      TokenNames(s.enqueued, s.nextToken, c.out[i], q[j]);
    }
  }

  // ---- One worker: first come, first matched ----

  function Join(groups: seq<seq<Player>>): seq<Player> {
    if groups == [] then [] else groups[0] + Join(groups[1..])
  }

  lemma {:induction false} JoinConcat(x: seq<seq<Player>>, y: seq<seq<Player>>)
    ensures Join(x + y) == Join(x) + Join(y)
  {
    if x == [] {
      assert x + y == y;
    } else {
      assert (x + y)[1..] == x[1..] + y;
      JoinConcat(x[1..], y);
    }
  }

  /** Bucket by bucket, the arrivals since boot are the matched, then those in the
      worker's hands, then the queue. */
  ghost predicate InOrder(g: Grid, s: State) {
    |s.hands| == 1 && Divides(g, Distribute(g, s.enqueued), Join(s.formed) + Players(s.hands[0]), s.queues)
  }

  lemma DistributeSnoc(g: Grid, ps: seq<Player>, p: Player)
    ensures var b := Home(g, p);
            Distribute(g, ps + [p]) == Distribute(g, ps)[b := Distribute(g, ps)[b] + [p]]
  {
    var home := Home(g, p);
    forall b | 0 <= b < g.total
      ensures Distribute(g, ps + [p])[b] == Distribute(g, ps)[home := Distribute(g, ps)[home] + [p]][b]
    {
      FromConcat(g, ps, [p], b);
      FromSame(g, [p], home, b);
    }
  }

  lemma InOrderTake(g: Grid, s: State, w: nat, b: nat, n: nat)
    requires InPlace(g, s) && InOrder(g, s) && Enabled(g, s, TakeFront(w, b, n))
    ensures InOrder(g, Apply(g, s, TakeFront(w, b, n)))
  {
    hide Divides;
    hide Distribute;
    var whole, done, hand, front := Distribute(g, s.enqueued), Join(s.formed), s.hands[0], s.queues[b][..n];
    TakenPlayers(hand, b, front);
    TakeDivides(g, whole, done + Players(hand), s.queues, b, n);
    assert done + Players(hand) + front == done + (Players(hand) + front);
  }

  lemma InOrderPut(g: Grid, s: State, w: nat)
    requires InPlace(g, s) && InOrder(g, s) && Enabled(g, s, PutBack(w))
    ensures InOrder(g, Apply(g, s, PutBack(w)))
  {
    hide Divides;
    hide Distribute;
    var whole, done, hand := Distribute(g, s.enqueued), Join(s.formed), s.hands[0];
    var k := |hand| - 1;
    assert done + Players(hand) == (done + Players(hand[..k])) + [hand[k].player];
    PutDivides(g, whole, done + Players(hand[..k]), hand[k].player, s.queues);
  }

  lemma InOrderForm(g: Grid, s: State, w: nat)
    requires InOrder(g, s) && Enabled(g, s, Form(w))
    ensures InOrder(g, Apply(g, s, Form(w)))
  {
    hide Divides;
    hide Distribute;
    var group := Players(s.hands[0]);
    JoinConcat(s.formed, [group]);
    assert Join([group]) == group;
    assert Join(s.formed) + group == Join(s.formed) + group + Players([]);
  }

  lemma InOrderStep(g: Grid, s: State, op: Op)
    requires InPlace(g, s) && InOrder(g, s) && Enabled(g, s, op)
    ensures InOrder(g, Apply(g, s, op))
  {
    if op.TakeFront? {
      InOrderTake(g, s, op.w, op.b, op.n);
    } else if op.PutBack? {
      InOrderPut(g, s, op.w);
    } else if op.Form? {
      InOrderForm(g, s, op.w);
    } else {
      hide Divides;
      hide Distribute;
      if op.Enqueue? {
        DistributeSnoc(g, s.enqueued, op.p);
        ArriveDivides(g, Distribute(g, s.enqueued), Join(s.formed) + Players(s.hands[0]), op.p, s.queues);
      } else if op.Restart? {
        RestartDivides(g, Revive(s.disk.saved, op.now, s.nextToken));
        assert Join([]) + Players([]) == [];
      }
    }
  }

  lemma RestartDivides(g: Grid, ps: seq<Player>)
    ensures Divides(g, Distribute(g, ps), [], Distribute(g, ps))
  {
    NothingTaken(g, Distribute(g, ps));
  }

  /** Whatever failed harvests and rejections came between, a pool with the worker's hands
      empty is the earlier pool with the new arrivals behind it, bucket by bucket. */
  lemma RestoredPlusArrivals(g: Grid, s: State, s': State, arrivals: seq<Player>)
    requires InOrder(g, s) && InOrder(g, s') && s.hands[0] == [] && s'.hands[0] == []
    requires s'.formed == s.formed && s'.enqueued == s.enqueued + arrivals
    ensures forall b :: 0 <= b < g.total ==> s'.queues[b] == s.queues[b] + From(g, arrivals, b)
  {
    var done := Join(s.formed);
    assert done + Players([]) == done;
    forall b | 0 <= b < g.total ensures s'.queues[b] == s.queues[b] + From(g, arrivals, b) {
      FromConcat(g, s.enqueued, arrivals, b);
      assert From(g, done, b) + s'.queues[b] == From(g, done, b) + (s.queues[b] + From(g, arrivals, b));
      assert (From(g, done, b) + s'.queues[b])[|From(g, done, b)|..] == s'.queues[b];
    }
  }

  /** The order of a bucket is the order of arrival. */
  lemma {:induction false} FromIndex(g: Grid, ps: seq<Player>, b: nat, i: nat, j: nat) returns (x: nat, y: nat)
    requires i < j < |ps| && Home(g, ps[i]) == b && Home(g, ps[j]) == b
    ensures x < y < |From(g, ps, b)| && From(g, ps, b)[x] == ps[i] && From(g, ps, b)[y] == ps[j]
  {
    var front, rest := ps[..i], ps[i + 1..];
    assert ps == front + ([ps[i]] + rest);
    FromConcat(g, front, [ps[i]] + rest, b);
    FromConcat(g, [ps[i]], rest, b);
    FromSame(g, [ps[i]], b, b);
    x := |From(g, front, b)|;
    assert rest[j - i - 1] == ps[j];
    var z := FromHas(g, rest, b, j - i - 1);
    y := x + 1 + z;
  }

  lemma {:induction false} FromHas(g: Grid, ps: seq<Player>, b: nat, j: nat) returns (y: nat)
    requires j < |ps| && Home(g, ps[j]) == b
    ensures y < |From(g, ps, b)| && From(g, ps, b)[y] == ps[j]
  {
    if j == 0 {
      y := 0;
    } else {
      var z := FromHas(g, ps[1..], b, j - 1);
      y := z + (if Home(g, ps[0]) == b then 1 else 0);
    }
  }

  lemma {:induction false} FromSubset(g: Grid, ps: seq<Player>, b: nat)
    ensures multiset(From(g, ps, b)) <= multiset(ps)
  {
    if ps != [] {
      FromSubset(g, ps[1..], b);
      TailBag(ps);
    }
  }

  lemma {:induction false} JoinMember(groups: seq<seq<Player>>, p: Player) returns (m: nat)
    requires p in Join(groups)
    ensures m < |groups| && p in groups[m]
  {
    if p in groups[0] {
      m := 0;
    } else {
      var k := JoinMember(groups[1..], p);
      m := k + 1;
    }
  }

  lemma {:induction false} MemberJoins(groups: seq<seq<Player>>, m: nat, p: Player)
    requires m < |groups| && p in groups[m]
    ensures p in Join(groups)
  {
    if m > 0 {
      MemberJoins(groups[1..], m - 1, p);
    }
  }

  /** The arrivals of a bucket begin with those of its players matched so far. */
  lemma MatchedArePrefix(g: Grid, s: State, m: nat, b: nat)
    requires InOrder(g, s) && m < |s.formed| && b < g.total
    ensures From(g, Join(s.formed[..m + 1]), b) <= From(g, s.enqueued, b)
  {
    var early, late := s.formed[..m + 1], s.formed[m + 1..];
    assert s.formed == early + late;
    JoinConcat(early, late);
    var rest := Join(late) + Players(s.hands[0]);
    assert Join(s.formed) + Players(s.hands[0]) == Join(early) + rest;
    FromConcat(g, Join(early), rest, b);
    assert Distribute(g, s.enqueued)[b] == From(g, s.enqueued, b);
  }

  /** Nobody is matched in an earlier match than someone who joined the same bucket
      before them. */
  lemma FirstComeFirstMatched(g: Grid, s: State, i: nat, j: nat, m: nat)
    requires InOrder(g, s) && FreshTokens(s.enqueued, s.nextToken)
    requires i < j < |s.enqueued| && Home(g, s.enqueued[i]) == Home(g, s.enqueued[j])
    requires m < |s.formed| && s.enqueued[j] in s.formed[m]
    ensures exists k :: 0 <= k <= m && s.enqueued[i] in s.formed[k]
  {
    hide Divides;
    var b := Home(g, s.enqueued[i]);
    var early := s.formed[..m + 1];
    var x, y := FromIndex(g, s.enqueued, b, i, j);
    var all, matched := From(g, s.enqueued, b), From(g, Join(early), b);
    MatchedArePrefix(g, s, m, b);
    MemberJoins(early, m, s.enqueued[j]);
    var k :| 0 <= k < |Join(early)| && Join(early)[k] == s.enqueued[j];
    var z := FromHas(g, Join(early), b, k);
    FromSubset(g, s.enqueued, b);
    PartTokens(all, s.enqueued, s.nextToken);
    assert all[z] == all[y];
    assert z == y;
    assert matched[x] == s.enqueued[i];
    FromSubset(g, Join(early), b);
    assert matched[x] in multiset(matched);
    var l := JoinMember(early, s.enqueued[i]);
    assert s.formed[l] == early[l];
  }

  // ---- Time order ----

  ghost predicate ArrivedInTime(ps: seq<Player>) {
    forall i, j :: 0 <= i < j < |ps| ==> ps[i].enqueuedAt <= ps[j].enqueuedAt
  }

  lemma ArrivedStep(g: Grid, s: State, op: Op)
    requires Enabled(g, s, op) && ArrivedInTime(s.enqueued)
    ensures ArrivedInTime(Apply(g, s, op).enqueued)
  {
  }

  lemma {:induction false} FromInTime(g: Grid, ps: seq<Player>, b: nat)
    requires ArrivedInTime(ps)
    ensures ArrivedInTime(From(g, ps, b))
  {
    if ps != [] {
      FromInTime(g, ps[1..], b);
      var q := From(g, ps[1..], b);
      FromSubset(g, ps[1..], b);
      forall i | 0 <= i < |q| ensures ps[0].enqueuedAt <= q[i].enqueuedAt {
        assert q[i] in multiset(q);
        var k :| 0 <= k < |ps[1..]| && ps[1..][k] == q[i];
        assert ps[k + 1] == q[i];
      }
    }
  }

  /** With one worker the front of every bucket is its longest waiting player. */
  lemma QueuesInTime(g: Grid, s: State, b: nat)
    requires InOrder(g, s) && ArrivedInTime(s.enqueued) && b < g.total
    ensures ArrivedInTime(s.queues[b])
  {
    FromInTime(g, s.enqueued, b);
    var n := |From(g, Join(s.formed) + Players(s.hands[0]), b)|;
    var all := From(g, s.enqueued, b);
    assert Distribute(g, s.enqueued)[b] == all;
    forall i, j | 0 <= i < j < |s.queues[b]| ensures s.queues[b][i].enqueuedAt <= s.queues[b][j].enqueuedAt {
      assert s.queues[b][i] == all[n + i] && s.queues[b][j] == all[n + j];
    }
  }

  // ---- What is lost stays lost ----

  /** A lost event is behind every cursor a restart may read, and nobody answers to it:
      not waiting, in hand, matched, copied or saved. */
  ghost predicate Gone(s: State, e: nat) {
    && e < s.disk.cursor && e !in s.matched && e !in Events(Live(s)) && e !in SavedEvents(s.disk.saved)
    && (s.copy.Some? ==> e !in Events(multiset(s.copy.value.out)))
  }

  ghost predicate LostOk(s: State) {
    && (forall e :: e in s.lost ==> Gone(s, e))
    && (forall e :: e in s.disk.missed ==> e < s.disk.cursor)
    && (s.copy.Some? ==> forall e :: e in s.copy.value.missed ==> e < s.copy.value.cursor)
  }

  lemma HandLives(s: State, w: nat)
    requires w < |s.hands|
    ensures Events(multiset(Players(s.hands[w]))) <= Events(Live(s))
  {
    BagContains(Held(s), w);
    assert multiset(Held(s)[w]) <= Live(s);
  }

  lemma QueueLives(s: State, b: nat)
    requires b < |s.queues|
    ensures Events(multiset(s.queues[b])) <= Events(Live(s))
  {
    BagContains(s.queues, b);
    assert multiset(s.queues[b]) <= Live(s);
  }

  lemma GoneStep(g: Grid, s: State, op: Op, e: nat)
    requires InPlace(g, s) && Recoverable(g, s) && Enabled(g, s, op) && Gone(s, e)
    ensures Gone(Apply(g, s, op), e)
  {
    hide InPlace;
    hide Live;
    hide Events;
    LiveStep(g, s, op);
    var s' := Apply(g, s, op);
    match op
    case Enqueue(p) =>
      EventsUnion(Live(s), multiset{p});
      SingleEvent(p);
    case Form(w) =>
      HandLives(s, w);
      EventsUnion(Live(s'), multiset(Players(s.hands[w])));
    case CopyBucket =>
      var c := s.copy.value;
      QueueLives(s, c.next);
      EventsUnion(multiset(c.out), multiset(s.queues[c.next]));
      assert multiset(c.out + s.queues[c.next]) == multiset(c.out) + multiset(s.queues[c.next]);
    case BeginCopy =>
      NoEvents();
    case Save =>
      OutEvents(s.copy.value.out);
    case Restart(now) =>
      RevivedEvents(s.disk.saved, now, s.nextToken);
    case _ =>
  }

  lemma NoEvents()
    ensures Events(multiset([])) == {}
  {
  }

  lemma LostStep(g: Grid, s: State, op: Op)
    requires InPlace(g, s) && Recoverable(g, s) && LostOk(s) && Enabled(g, s, op)
    ensures LostOk(Apply(g, s, op))
  {
    hide InPlace;
    hide Live;
    hide Gone;
    var s' := Apply(g, s, op);
    forall e | e in s'.lost ensures Gone(s', e) {
      if e in s.lost {
        GoneStep(g, s, op, e);
      } else {
        NewlyLost(g, s, op.now, e);
      }
    }
  }

  lemma NewlyLost(g: Grid, s: State, now: nat, e: nat)
    requires |s.queues| == g.total && LostOk(s) && e in LeftBehind(s)
    ensures Gone(Boot(g, s, now), e)
  {
    hide Live;
    hide Events;
    LiveBoot(g, s, now);
    RevivedEvents(s.disk.saved, now, s.nextToken);
  }

  /** The event was consumed and nobody answers to it any more. */
  ghost predicate IsLost(s: State, e: nat) {
    e < s.frontier && e !in s.matched && e !in Events(Live(s))
  }

  lemma LostExactly(s: State, e: nat)
    requires Covered(s) && DiskCovers(s) && LostOk(s)
    ensures IsLost(s, e) <==> e in s.lost
  {
    hide Live;
    hide Events;
  }

  // ---- Runs ----

  ghost predicate Inv(g: Grid, s: State) {
    && InPlace(g, s) && Conserved(s) && Recoverable(g, s) && CapturedOnce(g, s) && ArrivedInTime(s.enqueued)
    && LostOk(s)
    && (|s.hands| == 1 ==> InOrder(g, s))
  }

  lemma InvInit(g: Grid, workers: nat)
    ensures Inv(g, Init(g, workers))
  {
    var s := Init(g, workers);
    EmptyBag(s.queues);
    EmptyBag(Held(s));
    if workers == 1 {
      assert Distribute(g, []) == s.queues;
      RestartDivides(g, []);
      assert Join([]) + Players([]) == [];
    }
  }

  lemma InvStep(g: Grid, s: State, op: Op)
    requires Inv(g, s) && Enabled(g, s, op)
    ensures Inv(g, Apply(g, s, op)) && |Apply(g, s, op).hands| == |s.hands|
  {
    hide InPlace;
    hide Conserved;
    hide Covered;
    hide DiskCovers;
    hide CopyCovers;
    hide CapturedOnce;
    hide InOrder;
    hide ArrivedInTime;
    hide LostOk;
    InPlaceStep(g, s, op);
    ConservedStep(g, s, op);
    CoveredStep(g, s, op);
    DiskStep(g, s, op);
    CopyCoversStep(g, s, op);
    CapturedStep(g, s, op);
    ArrivedStep(g, s, op);
    LostStep(g, s, op);
    if |s.hands| == 1 {
      InOrderStep(g, s, op);
    }
  }

  ghost predicate Reaches(g: Grid, s: State, ops: seq<Op>, t: State)
    decreases |ops|
  {
    if ops == [] then s == t else Enabled(g, s, ops[0]) && Reaches(g, Apply(g, s, ops[0]), ops[1..], t)
  }

  lemma {:induction false} InvReaches(g: Grid, s: State, ops: seq<Op>, t: State)
    requires Inv(g, s) && Reaches(g, s, ops, t)
    ensures Inv(g, t) && |t.hands| == |s.hands|
    decreases |ops|
  {
    hide Inv;
    hide Enabled;
    hide Apply;
    if ops != [] {
      InvStep(g, s, ops[0]);
      InvReaches(g, Apply(g, s, ops[0]), ops[1..], t);
    }
  }

  /** Over any run with any number of workers, crashes and restarts, an event the ingestion
      thread has consumed is waiting, in a worker's hands or matched, unless it was left
      behind at a restart; and an event left behind never comes back. */
  lemma NobodyElseIsLost(g: Grid, workers: nat, ops: seq<Op>, t: State, e: nat)
    requires Reaches(g, Init(g, workers), ops, t)
    ensures IsLost(t, e) <==> e in t.lost
    ensures t.cursor <= t.frontier
  {
    InvInit(g, workers);
    InvReaches(g, Init(g, workers), ops, t);
    LostExactly(t, e);
  }

  /** A restart, whenever it comes, loses exactly the events lost before it and those the
      snapshot on disk missed in a worker's hands, did not save under another enqueue, and
      that were not matched since. */
  lemma RestartLoses(g: Grid, workers: nat, ops: seq<Op>, s: State, now: nat, e: nat)
    requires Reaches(g, Init(g, workers), ops, s)
    ensures IsLost(Boot(g, s, now), e) <==>
              e in s.lost || (e in s.disk.missed && e !in SavedEvents(s.disk.saved) && e !in s.matched)
  {
    InvInit(g, workers);
    InvReaches(g, Init(g, workers), ops, s);
    var t := Boot(g, s, now);
    assert Enabled(g, s, Restart(now)) && Apply(g, s, Restart(now)) == t;
    InvStep(g, s, Restart(now));
    hide Inv;
    hide IsLost;
    InvLost(g, t, e);
  }

  lemma InvLost(g: Grid, s: State, e: nat)
    requires Inv(g, s)
    ensures IsLost(s, e) <==> e in s.lost
  {
    LostExactly(s, e);
  }

  // ---- The first lifetime ----

  /** Until the first restart every enqueue has an event of its own. */
  ghost predicate OwnEvents(ps: seq<Player>, frontier: nat) {
    && (forall i, j :: 0 <= i < j < |ps| ==> ps[i].event < ps[j].event)
    && (forall i :: 0 <= i < |ps| ==> ps[i].event < frontier)
  }

  /** A missed event is that of somebody at home in a bucket already copied, and not copied. */
  ghost predicate MissedOnly(g: Grid, s: State, c: Copy, e: nat) {
    e !in Events(multiset(c.out)) && exists p :: p in s.enqueued && p.event == e && Home(g, p) < c.next
  }

  ghost predicate FirstLife(g: Grid, s: State) {
    && s.lost == {} && OwnEvents(s.enqueued, s.frontier)
    && (s.copy.Some? ==> forall e :: e in s.copy.value.missed ==> MissedOnly(g, s, s.copy.value, e))
    && s.disk.missed !! SavedEvents(s.disk.saved)
  }

  lemma OtherEvent(s: State, p: Player, q: Player)
    requires OwnEvents(s.enqueued, s.frontier) && p in s.enqueued && q in s.enqueued && p != q
    ensures p.event != q.event
  {
  }

  lemma NotAmong(s: State, p: Player, ps: seq<Player>)
    requires OwnEvents(s.enqueued, s.frontier) && p in s.enqueued
    requires forall i :: 0 <= i < |ps| ==> ps[i] in s.enqueued && ps[i] != p
    ensures p.event !in Events(multiset(ps))
  {
    forall q | q in multiset(ps) ensures q.event != p.event {
      var i :| 0 <= i < |ps| && ps[i] == q;
      OtherEvent(s, p, q);
    }
  }

  /** Somebody in hand is in no queue. */
  lemma HeldNotQueued(g: Grid, s: State, p: Player, b: nat)
    requires InPlace(g, s) && Conserved(s) && b < g.total && p in Bag(Held(s))
    ensures p !in s.queues[b] && p in s.enqueued
  {
    MatchedOnce(s, p);
    BagContains(s.queues, b);
    assert Live(s)[p] == Bag(s.queues)[p] + Bag(Held(s))[p];
    assert p in multiset(s.enqueued);
    assert p in s.queues[b] <==> p in multiset(s.queues[b]);
  }

  lemma QueueEvents(g: Grid, s: State, b: nat, p: Player)
    requires InPlace(g, s) && Conserved(s) && OwnEvents(s.enqueued, s.frontier) && b < g.total
    requires p in s.enqueued && p !in s.queues[b]
    ensures p.event !in Events(multiset(s.queues[b]))
  {
    QueueTokens(g, s, b);
    NotAmong(s, p, s.queues[b]);
  }

  /** What was missed before bucket `next` was copied is not copied with it. */
  lemma StillMissed(g: Grid, s: State, e: nat)
    requires InPlace(g, s) && Conserved(s) && FirstLife(g, s) && Enabled(g, s, CopyBucket)
    requires e in s.copy.value.missed
    ensures e !in Events(multiset(s.queues[s.copy.value.next]))
  {
    var c := s.copy.value;
    var p :| p in s.enqueued && p.event == e && Home(g, p) < c.next;
    assert p !in s.queues[c.next];
    QueueEvents(g, s, c.next, p);
  }

  lemma NowMissed(g: Grid, s: State, e: nat)
    requires InPlace(g, s) && Conserved(s) && CapturedOnce(g, s) && FirstLife(g, s) && Enabled(g, s, CopyBucket)
    requires e in EventsAt(g, Bag(Held(s)), s.copy.value.next)
    ensures e !in Events(multiset(s.copy.value.out)) && e !in Events(multiset(s.queues[s.copy.value.next]))
    ensures exists p :: p in s.enqueued && p.event == e && Home(g, p) < s.copy.value.next + 1
  {
    var c := s.copy.value;
    var p :| p in Bag(Held(s)) && Home(g, p) == c.next && p.event == e;
    HeldNotQueued(g, s, p, c.next);
    QueueEvents(g, s, c.next, p);
    NotAmong(s, p, c.out);
  }

  lemma MissStep(g: Grid, s: State, e: nat)
    requires InPlace(g, s) && Conserved(s) && CapturedOnce(g, s) && FirstLife(g, s) && Enabled(g, s, CopyBucket)
    ensures var s' := Apply(g, s, CopyBucket);
            e in s'.copy.value.missed ==> MissedOnly(g, s', s'.copy.value, e)
  {
    var c := s.copy.value;
    var q := s.queues[c.next];
    assert multiset(c.out + q) == multiset(c.out) + multiset(q);
    EventsUnion(multiset(c.out), multiset(q));
    hide Events;
    if e in c.missed {
      StillMissed(g, s, e);
    } else if e in EventsAt(g, Bag(Held(s)), c.next) {
      NowMissed(g, s, e);
    }
  }

  lemma FirstLifeStep(g: Grid, s: State, op: Op)
    requires InPlace(g, s) && Conserved(s) && CapturedOnce(g, s) && FirstLife(g, s) && Enabled(g, s, op)
    requires !op.Restart?
    ensures FirstLife(g, Apply(g, s, op))
  {
    var s' := Apply(g, s, op);
    if op.CopyBucket? {
      forall e | e in s'.copy.value.missed ensures MissedOnly(g, s', s'.copy.value, e) {
        MissStep(g, s, e);
      }
    } else if op.Save? {
      OutEvents(s.copy.value.out);
    } else if op.Enqueue? {
      MissedMore(g, s, s');
    }
  }

  lemma MissedMore(g: Grid, s: State, s': State)
    requires FirstLife(g, s) && s'.copy == s.copy && s.enqueued <= s'.enqueued
    ensures s.copy.Some? ==> forall e :: e in s.copy.value.missed ==> MissedOnly(g, s', s.copy.value, e)
  {
  }

  lemma InvFirstLife(g: Grid, s: State, op: Op)
    requires Inv(g, s) && FirstLife(g, s) && Enabled(g, s, op) && !op.Restart?
    ensures FirstLife(g, Apply(g, s, op))
  {
    FirstLifeStep(g, s, op);
  }

  lemma {:induction false} FirstLifeReaches(g: Grid, s: State, ops: seq<Op>, t: State)
    requires Inv(g, s) && FirstLife(g, s) && Reaches(g, s, ops, t)
    requires forall i :: 0 <= i < |ops| ==> !ops[i].Restart?
    ensures Inv(g, t) && FirstLife(g, t)
    decreases |ops|
  {
    hide FirstLife;
    hide Enabled;
    hide Apply;
    if ops != [] {
      InvStep(g, s, ops[0]);
      InvFirstLife(g, s, ops[0]);
      hide Inv;
      FirstLifeReaches(g, Apply(g, s, ops[0]), ops[1..], t);
    }
  }

  /** The first restart loses exactly the unmatched players who were in a worker's hands
      when their bucket was copied, their events behind the snapshot's cursor. */
  lemma FirstRestartLoses(g: Grid, workers: nat, ops: seq<Op>, s: State, now: nat, e: nat)
    requires Reaches(g, Init(g, workers), ops, s)
    requires forall i :: 0 <= i < |ops| ==> !ops[i].Restart?
    ensures IsLost(Boot(g, s, now), e) <==> e in s.disk.missed && e !in s.matched
  {
    InvInit(g, workers);
    FirstLifeReaches(g, Init(g, workers), ops, s);
    RestartLoses(g, workers, ops, s, now, e);
  }

  /** A run in which no copy ever meets a player in hand loses nobody. */
  lemma {:induction false} QuietRunsLoseNobody(g: Grid, s: State, ops: seq<Op>, t: State)
    requires Reaches(g, s, ops, t) && QuietCopies(g, s, ops)
    requires s.lost == {} && s.disk.missed == {} && (s.copy.Some? ==> s.copy.value.missed == {})
    ensures t.lost == {} && t.disk.missed == {} && (t.copy.Some? ==> t.copy.value.missed == {})
    decreases |ops|
  {
    if ops != [] {
      if ops[0].CopyBucket? {
        QuietCopyMissesNobody(g, s);
      }
      QuietRunsLoseNobody(g, Apply(g, s, ops[0]), ops[1..], t);
    }
  }

  ghost predicate QuietCopies(g: Grid, s: State, ops: seq<Op>)
    decreases |ops|
  {
    ops != [] ==>
      && (ops[0].CopyBucket? ==> forall w :: 0 <= w < |s.hands| ==> s.hands[w] == [])
      && (Enabled(g, s, ops[0]) ==> QuietCopies(g, Apply(g, s, ops[0]), ops[1..]))
  }

  // ---- First in, first out ----

  /** Every bucket is in the order its players were enqueued. */
  ghost predicate FirstInFirst(s: State) {
    forall b, i, j :: 0 <= b < |s.queues| && 0 <= i < j < |s.queues[b]| ==> s.queues[b][i].token < s.queues[b][j].token
  }

  lemma {:induction false} FromFresh(g: Grid, ps: seq<Player>, bound: nat, b: nat)
    requires FreshTokens(ps, bound)
    ensures FreshTokens(From(g, ps, b), bound)
  {
    if ps != [] {
      assert FreshTokens(ps[1..], bound);
      hide FreshTokens;
      FromFresh(g, ps[1..], bound, b);
      FromSubset(g, ps[1..], b);
      FreshHead(ps, From(g, ps[1..], b), bound);
    }
  }

  lemma FreshHead(ps: seq<Player>, q: seq<Player>, bound: nat)
    requires ps != [] && FreshTokens(ps, bound) && FreshTokens(q, bound) && multiset(q) <= multiset(ps[1..])
    ensures FreshTokens([ps[0]] + q, bound) && [] + q == q
  {
    assert ps[0].token < bound;
    forall i | 0 <= i < |q| ensures ps[0].token < q[i].token {
      assert q[i] in multiset(q);
      var k := AfterHead(ps, q[i]);
    }
    FreshCons(ps[0], q, bound);
  }

  lemma AfterHead(ps: seq<Player>, p: Player) returns (k: nat)
    requires ps != [] && p in multiset(ps[1..])
    ensures 0 < k < |ps| && ps[k] == p
  {
    var i :| 0 <= i < |ps[1..]| && ps[1..][i] == p;
    k := i + 1;
  }

  lemma FreshCons(p: Player, q: seq<Player>, bound: nat)
    requires FreshTokens(q, bound) && p.token < bound && forall i :: 0 <= i < |q| ==> p.token < q[i].token
    ensures FreshTokens([p] + q, bound) && [] + q == q
  {
    var all := [p] + q;
    forall i | 0 <= i < |all| ensures all[i] == if i == 0 then p else q[i - 1] {
    }
    forall i, j | 0 <= i < j < |all| ensures all[i].token < all[j].token {
      assert i > 0 ==> q[i - 1].token < q[j - 1].token;
    }
  }

  lemma OneWorkerKeepsOrder(g: Grid, s: State)
    requires InPlace(g, s) && InOrder(g, s) && FreshTokens(s.enqueued, s.nextToken)
    ensures FirstInFirst(s)
  {
    forall b, i, j | 0 <= b < |s.queues| && 0 <= i < j < |s.queues[b]|
      ensures s.queues[b][i].token < s.queues[b][j].token
    {
      var n := |From(g, Join(s.formed) + Players(s.hands[0]), b)|;
      var all := From(g, s.enqueued, b);
      FromFresh(g, s.enqueued, s.nextToken, b);
      assert Distribute(g, s.enqueued)[b] == all;
      assert s.queues[b][i] == all[n + i] && s.queues[b][j] == all[n + j];
    }
  }
}
