/** The carousel drains the pool: a bound on how many rounds a single worker needs. */
module Drain {
  import opened Base
  import opened TeamSplit
  import opened Optimizer
  import opened Buckets
  import opened MatchPool
  import opened Worker

  // ---- The carousel visits every bucket ----

  /** `n` consecutive places on the ring of buckets. */
  function Ring(ticket: nat, n: nat, total: nat): (r: seq<nat>)
    requires total > 0
    ensures |r| == n && Indices(r, total)
  {
    seq(n, m requires 0 <= m < n => (ticket + m) % total)
  }

  lemma ModOf(x: nat, n: nat, q: nat, r: nat)
    requires n > 0 && r < n && x == q * n + r
    ensures x % n == r
  {
    DivOf(x, n, q, r);
  }

  lemma ModAdd(x: nat, k: nat, n: nat)
    requires n > 0
    ensures (x % n + k) % n == (x + k) % n
  {
    var q, r := x / n, x % n;
    var q', r' := (r + k) / n, (r + k) % n;
    assert x == q * n + r;
    assert r + k == q' * n + r';
    assert x + k == (q + q') * n + r';
    ModOf(x + k, n, q + q', r');
  }

  /** Consecutive tickets lay their windows end to end around the ring. */
  lemma RingGrows(ticket: nat, c: nat, stride: nat, total: nat)
    requires total > 0
    ensures Ring(ticket, (c + 1) * stride, total)
         == Ring(ticket, c * stride, total) + Window(ticket + c * stride, stride, total)
  {
    var x := ticket + c * stride;
    var w := Window(x, stride, total);
    assert (c + 1) * stride == c * stride + stride;
    forall k | 0 <= k < stride ensures w[k] == (x + k) % total {
      ModAdd(x, k, total);
    }
  }

  /** The window of a ticket is the arc of the ring that begins there. */
  lemma WindowIsArc(ticket: nat, stride: nat, total: nat)
    requires total > 0
    ensures forall k :: 0 <= k < stride ==> Window(ticket, stride, total)[k] == (ticket + k) % total
  {
    forall k | 0 <= k < stride ensures Window(ticket, stride, total)[k] == (ticket + k) % total {
      ModAdd(ticket, k, total);
    }
  }

  /** A full turn of the ring meets every bucket once. */
  lemma FullTurn(qs: Queues, ticket: nat)
    requires |qs| > 0
    ensures Depth(qs, Ring(ticket, |qs|, |qs|)) == Waiting(qs)
  {
    var n := |qs|;
    var s := ticket % n;
    TurnSplits(ticket, n);
    DepthConcat(qs, Range(s, n), Range(0, s));
    DepthConcat(qs, Range(0, s), Range(s, n));
  }

  lemma TurnSplits(ticket: nat, n: nat)
    requires n > 0
    ensures var s := ticket % n;
            Ring(ticket, n, n) == Range(s, n) + Range(0, s) && Range(0, n) == Range(0, s) + Range(s, n)
  {
    var s := ticket % n;
    var turn := Ring(ticket, n, n);
    forall m | 0 <= m < n ensures turn[m] == if s + m < n then s + m else s + m - n {
      ModAdd(ticket, m, n);
      WrapOnce(s + m, n);
    }
  }

  /** The ticket drawn `i` draws after `ticket`. */
  function TicketAt(ticket: nat, stride: nat, i: nat): nat {
    ticket + i * stride
  }

  lemma TicketAdd(ticket: nat, stride: nat, i: nat, j: nat)
    ensures TicketAt(TicketAt(ticket, stride, i), stride, j) == TicketAt(ticket, stride, i + j)
    ensures TicketAt(ticket, stride, i + 1) == TicketAt(ticket, stride, i) + stride
    ensures TicketAt(ticket, stride, 0) == ticket
  {
  }

  /** Each of the next `c` windows holds fewer than ten players. */
  ghost predicate Thin(qs: Queues, ticket: nat, stride: nat, c: nat)
    requires |qs| > 0
  {
    forall j: nat :: j < c ==> Depth(qs, Window(TicketAt(ticket, stride, j), stride, |qs|)) <= 9
  }

  lemma {:induction false} ThinArc(qs: Queues, ticket: nat, c: nat, stride: nat)
    requires |qs| > 0 && Thin(qs, ticket, stride, c)
    ensures Depth(qs, Ring(ticket, c * stride, |qs|)) <= 9 * c
  {
    if c > 0 {
      ThinArc(qs, ticket, c - 1, stride);
      RingGrows(ticket, c - 1, stride, |qs|);
      DepthConcat(qs, Ring(ticket, (c - 1) * stride, |qs|), Window(TicketAt(ticket, stride, c - 1), stride, |qs|));
    } else {
      assert c * stride == 0;
    }
  }

  /** Tickets in one lap of the carousel. */
  function Lap(total: nat, stride: nat): (c: nat)
    requires stride > 0 && total > 0
    ensures c > 0 && (c - 1) * stride < total <= c * stride
  {
    var c := (total + stride - 1) / stride;
    assert total + stride - 1 == c * stride + (total + stride - 1) % stride;
    c
  }

  lemma ThinLap(qs: Queues, ticket: nat, stride: nat)
    requires |qs| > 0 && stride > 0 && Thin(qs, ticket, stride, Lap(|qs|, stride))
    ensures Waiting(qs) <= 9 * Lap(|qs|, stride)
  {
    hide Lap;
    hide Thin;
    var c, n := Lap(|qs|, stride), |qs|;
    ThinArc(qs, ticket, c, stride);
    FullTurn(qs, ticket);
    RingPrefix(qs, ticket, n, c * stride);
  }

  lemma RingPrefix(qs: Queues, ticket: nat, m: nat, n: nat)
    requires |qs| > 0 && m <= n
    ensures Depth(qs, Ring(ticket, m, |qs|)) <= Depth(qs, Ring(ticket, n, |qs|))
  {
    var arc, turn := Ring(ticket, n, |qs|), Ring(ticket, m, |qs|);
    assert arc == turn + arc[m..];
    DepthConcat(qs, turn, arc[m..]);
  }

  // ---- Rounds of a single worker ----

  /** What one round does to the pool when nobody else touches it; a border in `busy` is
      locked when it is tried. */
  ghost predicate Passes(g: Grid, qs: Queues, qs': Queues, window: seq<nat>, busy: set<nat>, now: nat, mid: nat)
    requires |qs| == g.total && window != [] && Indices(window, g.total)
  {
    var r := Decide(g, qs, window, busy, now, mid);
    && Placed(g, qs')
    && (!r.Formed? ==> qs' == qs)
    && (r.Formed? ==> Divides(g, qs, r.group, qs'))
  }

  /** Ratings within `range` of each other, and waits long enough for the tolerance to
      cover a fifth of it without overflowing. */
  ghost predicate Patient(qs: Queues, range: nat, now: nat) {
    && (forall b, i, c, j :: 0 <= b < |qs| && 0 <= i < |qs[b]| && 0 <= c < |qs| && 0 <= j < |qs[c]|
          ==> qs[b][i].rating - qs[c][j].rating <= range)
    && (forall b, i :: 0 <= b < |qs| && 0 <= i < |qs[b]|
          ==> Elapsed(qs[b][i], now) < OVERFLOW_MS && range / 5 <= 50 + 10 * (Elapsed(qs[b][i], now) / 100))
  }

  /** A pool is patient when nobody was enqueued later than now, everyone's rating is within
      `range` of everyone's, and each has waited a tenth of a second for every ten of a
      fifth of it beyond the first fifty, short of the overflow. */
  lemma PatientWhen(qs: Queues, range: nat, now: nat)
    requires forall b, i, c, j :: 0 <= b < |qs| && 0 <= i < |qs[b]| && 0 <= c < |qs| && 0 <= j < |qs[c]|
               ==> qs[b][i].rating - qs[c][j].rating <= range
    requires forall b, i :: 0 <= b < |qs| && 0 <= i < |qs[b]| ==>
               && qs[b][i].enqueuedAt <= now < qs[b][i].enqueuedAt + OVERFLOW_MS
               && range / 5 <= 50 + 10 * ((now - qs[b][i].enqueuedAt) / 100)
    ensures Patient(qs, range, now)
  {
    forall b, i | 0 <= b < |qs| && 0 <= i < |qs[b]| ensures Elapsed(qs[b][i], now) == now - qs[b][i].enqueuedAt {
    }
  }

  lemma PatientRest(g: Grid, whole: Queues, ps: seq<Player>, qs: Queues, range: nat, now: nat)
    requires Patient(whole, range, now) && Divides(g, whole, ps, qs)
    ensures Patient(qs, range, now)
  {
    forall b, i | 0 <= b < |qs| && 0 <= i < |qs[b]|
      ensures |From(g, ps, b)| + i < |whole[b]| && qs[b][i] == whole[b][|From(g, ps, b)| + i]
    {
    }
  }

  lemma PatientAdmits(g: Grid, qs: Queues, window: seq<nat>, range: nat, now: nat)
    requires |qs| == g.total && Indices(window, g.total)
    requires Harvested(g, qs, window, {}).Some? && Patient(qs, range, now)
    ensures Admits(Harvested(g, qs, window, {}).value, now)
  {
    hide Harvested;
    hide Spread;
    var group := Harvested(g, qs, window, {}).value;
    forall i, k | 0 <= i < 10 && 0 <= k < 10 ensures group[i].rating - group[k].rating <= range {
      var b, j := GroupMember(g, qs, window, {}, i);
      var c, l := GroupMember(g, qs, window, {}, k);
    }
    SpreadWithinRange(group, range);
    var i :| 0 <= i < 10 && LongestWait(group, now) == Elapsed(group[i], now);
    var b, j := GroupMember(g, qs, window, {}, i);
    ToleranceIsLinear(LongestWait(group, now));
  }

  lemma GroupCount(g: Grid, qs: Queues, group: seq<Player>, qs': Queues)
    requires Placed(g, qs') && Divides(g, qs, group, qs')
    ensures Waiting(qs') + |group| == Waiting(qs)
  {
    hide *;
    DividesConserves(g, qs, group, qs');
    WaitingIsBagSize(qs);
    WaitingIsBagSize(qs');
  }

  /** A round removes ten players exactly when it forms a match. */
  lemma RoundCount(g: Grid, qs: Queues, qs': Queues, window: seq<nat>, busy: set<nat>, now: nat, mid: nat)
    requires |qs| == g.total && window != [] && Indices(window, g.total)
    requires Passes(g, qs, qs', window, busy, now, mid)
    ensures Waiting(qs') + (if Decide(g, qs, window, busy, now, mid).Formed? then 10 else 0) == Waiting(qs)
  {
    hide Harvested;
    hide Waiting;
    hide Placed;
    hide Divides;
    hide Outcome;
    hide Admits;
    hide Density;
    var r := Decide(g, qs, window, busy, now, mid);
    if r.Formed? {
      GroupCount(g, qs, r.group, qs');
    }
  }

  /** With a patient pool and free borders, a round either removes ten players or shows a thin window. */
  lemma RoundProgress(g: Grid, qs: Queues, qs': Queues, window: seq<nat>, range: nat, now: nat, mid: nat)
    requires Placed(g, qs) && window != [] && Distinct(window) && Indices(window, g.total)
    requires Passes(g, qs, qs', window, {}, now, mid) && Patient(qs, range, now)
    ensures (Waiting(qs') + 10 == Waiting(qs)) || (qs' == qs && Depth(qs, window) <= 9)
  {
    hide Harvested;
    hide Admits;
    FastFailIsExact(g, qs, window);
    hide Waiting;
    hide Patient;
    hide Divides;
    hide Placed;
    RoundCount(g, qs, qs', window, {}, now, mid);
    if Harvested(g, qs, window, {}).Some? {
      PatientAdmits(g, qs, window, range, now);
    }
  }

  // ---- A window longer than the ring ----

  lemma CoversAll(order: seq<nat>, n: nat)
    requires Distinct(order) && Indices(order, n) && forall b :: 0 <= b < n ==> b in order
    ensures multiset(order) == multiset(Range(0, n))
  {
    var all: seq<nat> := Range(0, n);
    forall v: nat ensures multiset(order)[v] == multiset(all)[v] {
      DistinctCount(order, v);
      DistinctCount(all, v);
      assert v < n ==> all[v] == v;
      assert v in order <==> v in multiset(order);
      assert v in all <==> v in multiset(all);
    }
  }

  /** It holds every bucket, so the visiting order holds the whole pool. */
  lemma WideOrder(qs: Queues, ticket: nat, stride: nat, a: nat)
    requires 0 < |qs| < stride && a < |qs|
    ensures var window := Window(ticket, stride, |qs|);
            && a in window && Waiting(qs) <= Depth(qs, window)
            && Indices(DrainOrder(window, a, |qs|), |qs|)
            && |Visited(qs, DrainOrder(window, a, |qs|))| == Waiting(qs)
  {
    var n, window := |qs|, Window(ticket, stride, |qs|);
    WideWindow(ticket, stride, n);
    FullTurn(qs, ticket);
    RingPrefix(qs, ticket, n, stride);
    hide Window;
    var order := DrainOrder(window, a, n);
    OrderCovers(window, a, n);
    OrderInRange(window, a, n);
    FirstsDistinct(order);
    FirstsIndices(order, n);
    hide DrainOrder;
    hide Edge;
    CoversAll(Firsts(order), n);
    DepthIsLength(qs, Firsts(order));
    DepthOfBag(qs, Firsts(order), Range(0, n));
  }

  lemma WideWindow(ticket: nat, stride: nat, n: nat)
    requires 0 < n < stride
    ensures Window(ticket, stride, n) == Ring(ticket, stride, n)
    ensures forall b :: 0 <= b < n ==> b in Window(ticket, stride, n)
  {
    var w, lo := Window(ticket, stride, n), ticket % n;
    forall k | 0 <= k < stride ensures w[k] == (ticket + k) % n {
      ModAdd(ticket, k, n);
    }
    forall b | 0 <= b < n ensures b in w {
      var k := if lo <= b then b - lo else b + n - lo;
      WrapOnce(lo + k, n);
      assert w[k] == b;
    }
  }

  /** A round removes ten players unless at most nine are left in the whole pool. */
  lemma WideProgress(g: Grid, qs: Queues, qs': Queues, ticket: nat, stride: nat, now: nat, mid: nat, range: nat)
    requires g.total < stride && Placed(g, qs)
    requires Passes(g, qs, qs', Window(ticket, stride, g.total), {}, now, mid) && Patient(qs, range, now)
    ensures (Waiting(qs') + 10 == Waiting(qs)) || (Waiting(qs') == Waiting(qs) <= 9)
  {
    var window := Window(ticket, stride, g.total);
    WideFound(g, qs, ticket, stride);
    RoundCount(g, qs, qs', window, {}, now, mid);
    hide Harvested;
    hide Admits;
    hide Waiting;
    hide Patient;
    hide Divides;
    hide Placed;
    hide Window;
    if Harvested(g, qs, window, {}).Some? {
      PatientAdmits(g, qs, window, range, now);
    }
  }

  lemma WideFound(g: Grid, qs: Queues, ticket: nat, stride: nat)
    requires g.total < stride && |qs| == g.total
    ensures var window := Window(ticket, stride, g.total);
            Waiting(qs) > 9 ==> Density(qs, window) >= 10 && Harvested(g, qs, window, {}).Some?
  {
    var window := Window(ticket, stride, g.total);
    WideOrder(qs, ticket, stride, 0);
    match Anchor(qs, window)
    case None =>
      NoDepth(qs, window);
    case Some(a) =>
      WideOrder(qs, ticket, stride, a);
      FreeReach(window, a, g.total);
  }

  // ---- Runs ----

  /** The round of one ticket takes pool `qs` to pool `qs'`. */
  ghost predicate Turn(g: Grid, qs: Queues, qs': Queues, ticket: nat, stride: nat, busy: set<nat>, now: nat, mid: nat)
    requires 0 < stride
  {
    Placed(g, qs) && Passes(g, qs, qs', Window(ticket, stride, g.total), busy, now, mid)
  }

  /** A run of a single worker with nobody arriving: pool states, and for each round the
      borders found locked, the time and the next match id. */
  datatype Run = Run(st: seq<Queues>, ticket: nat, stride: nat, busies: seq<set<nat>>, nows: seq<nat>, mids: seq<nat>)

  ghost predicate IsRun(g: Grid, r: Run) {
    && 0 < r.stride && |r.st| == |r.nows| + 1 && |r.mids| == |r.busies| == |r.nows|
    && forall i: nat :: i < |r.nows| ==> TurnAt(g, r, i)
  }

  ghost predicate TurnAt(g: Grid, r: Run, i: nat)
    requires 0 < r.stride && |r.st| == |r.nows| + 1 && |r.mids| == |r.busies| == |r.nows| && i < |r.nows|
  {
    Turn(g, r.st[i], r.st[i + 1], TicketAt(r.ticket, r.stride, i), r.stride, r.busies[i], r.nows[i], r.mids[i])
  }

  /** The rounds in which some border was locked. */
  function Spoilt(busies: seq<set<nat>>): (n: nat)
    ensures n <= |busies|
  {
    if busies == [] then 0 else Spoilt(busies[..|busies| - 1]) + (if busies[|busies| - 1] == {} then 0 else 1)
  }

  /** None of the `k` rounds from `i` on met a locked border. */
  ghost predicate Clear(busies: seq<set<nat>>, i: nat, k: nat) {
    forall j :: i <= j < i + k && j < |busies| ==> busies[j] == {}
  }

  lemma {:induction false} SpoiltMore(busies: seq<set<nat>>, i: nat, k: nat)
    requires i + k <= |busies|
    ensures Spoilt(busies[..i]) <= Spoilt(busies[..i + k])
    ensures !Clear(busies, i, k) ==> Spoilt(busies[..i]) < Spoilt(busies[..i + k])
  {
    if k > 0 {
      SpoiltMore(busies, i, k - 1);
      assert busies[..i + k][..i + k - 1] == busies[..i + k - 1];
    }
  }

  /** Throughout the run the tolerance covers the ratings of those who waited at its start. */
  ghost predicate PatientRun(r: Run, range: nat) {
    |r.st| > 0 && forall i :: 0 <= i < |r.nows| ==> Patient(r.st[0], range, r.nows[i])
  }

  lemma TurnStaysPatient(g: Grid, qs: Queues, qs': Queues, ticket: nat, stride: nat, busy: set<nat>, at: nat, mid: nat,
                         range: nat, now: nat)
    requires 0 < stride && Turn(g, qs, qs', ticket, stride, busy, at, mid)
    requires Patient(qs, range, now)
    ensures Patient(qs', range, now)
  {
    hide Decide;
    hide Patient;
    var r := Decide(g, qs, Window(ticket, stride, g.total), busy, at, mid);
    if r.Formed? {
      PatientRest(g, qs, r.group, qs', range, now);
    }
  }

  lemma {:induction false} StaysPatient(g: Grid, r: Run, i: nat, range: nat, now: nat)
    requires IsRun(g, r) && i < |r.st| && Patient(r.st[0], range, now)
    ensures Patient(r.st[i], range, now)
  {
    hide Turn;
    hide Patient;
    if i > 0 {
      var k := i - 1;
      StaysPatient(g, r, k, range, now);
      assert TurnAt(g, r, k);
      TurnStaysPatient(g, r.st[k], r.st[i], TicketAt(r.ticket, r.stride, k), r.stride, r.busies[k], r.nows[k], r.mids[k],
                       range, now);
    }
  }

  ghost predicate ThinWindow(g: Grid, qs: Queues, ticket: nat, stride: nat) {
    |qs| == g.total && Depth(qs, Window(ticket, stride, g.total)) <= 9
  }

  lemma TurnProgress(g: Grid, qs: Queues, qs': Queues, ticket: nat, stride: nat, now: nat, mid: nat, range: nat)
    requires 0 < stride <= g.total && Turn(g, qs, qs', ticket, stride, {}, now, mid)
    requires Patient(qs, range, now)
    ensures (Waiting(qs') + 10 == Waiting(qs)) || (qs' == qs && ThinWindow(g, qs, ticket, stride))
  {
    hide Passes;
    hide Patient;
    WindowDistinct(ticket, stride, g.total);
    RoundProgress(g, qs, qs', Window(ticket, stride, g.total), range, now, mid);
  }

  lemma StepProgress(g: Grid, r: Run, range: nat, i: nat)
    requires IsRun(g, r) && r.stride <= g.total && PatientRun(r, range) && i < |r.nows| && r.busies[i] == {}
    ensures (Waiting(r.st[i + 1]) + 10 == Waiting(r.st[i]))
         || (r.st[i + 1] == r.st[i] && ThinWindow(g, r.st[i], TicketAt(r.ticket, r.stride, i), r.stride))
  {
    hide Patient;
    hide Turn;
    StaysPatient(g, r, i, range, r.nows[i]);
    assert TurnAt(g, r, i);
    TurnProgress(g, r.st[i], r.st[i + 1], TicketAt(r.ticket, r.stride, i), r.stride, r.nows[i], r.mids[i], range);
  }

  lemma WideStep(g: Grid, r: Run, range: nat, i: nat)
    requires IsRun(g, r) && g.total < r.stride && PatientRun(r, range) && i < |r.nows| && r.busies[i] == {}
    ensures (Waiting(r.st[i + 1]) + 10 == Waiting(r.st[i])) || (Waiting(r.st[i + 1]) == Waiting(r.st[i]) <= 9)
  {
    hide Patient;
    hide Passes;
    StaysPatient(g, r, i, range, r.nows[i]);
    assert TurnAt(g, r, i);
    WideProgress(g, r.st[i], r.st[i + 1], TicketAt(r.ticket, r.stride, i), r.stride, r.nows[i], r.mids[i], range);
  }

  lemma OneRoundLap(total: nat, stride: nat)
    requires 0 < total < stride
    ensures Lap(total, stride) == 1
  {
    DivOf(total + stride - 1, stride, 1, total - 1);
  }

  lemma RunShape(g: Grid, r: Run, i: nat)
    requires IsRun(g, r) && i < |r.nows|
    ensures |r.st[i]| == g.total && 0 < r.stride && |r.st| == |r.nows| + 1 == |r.busies| + 1
  {
    assert TurnAt(g, r, i);
  }

  /** Part of a lap that met no locked border: ten players fewer, or an untouched pool whose
      windows were thin. */
  lemma {:induction false} PartialLap(g: Grid, r: Run, range: nat, i: nat, k: nat)
    requires IsRun(g, r) && r.stride <= g.total && PatientRun(r, range) && i + k <= |r.nows| && i < |r.nows|
    requires Clear(r.busies, i, k)
    ensures |r.st| == |r.nows| + 1 && |r.st[i]| == g.total
    ensures (Waiting(r.st[i + k]) + 10 <= Waiting(r.st[i]))
         || (r.st[i + k] == r.st[i] && Thin(r.st[i], TicketAt(r.ticket, r.stride, i), r.stride, k))
  {
    hide IsRun;
    hide Waiting;
    hide TicketAt;
    RunShape(g, r, i);
    if k > 0 {
      PartialLap(g, r, range, i, k - 1);
      StepProgress(g, r, range, i + k - 1);
      TicketAdd(r.ticket, r.stride, i, k - 1);
    }
  }

  /** A whole lap that met no locked border forms a match unless the pool is already thin
      everywhere. */
  lemma WholeLap(g: Grid, r: Run, range: nat, i: nat)
    requires IsRun(g, r) && PatientRun(r, range) && i + Lap(g.total, r.stride) <= |r.nows|
    requires Clear(r.busies, i, Lap(g.total, r.stride))
    ensures var j := i + Lap(g.total, r.stride);
            Waiting(r.st[j]) + 10 <= Waiting(r.st[i]) || Waiting(r.st[j]) <= 9 * Lap(g.total, r.stride)
  {
    hide IsRun;
    hide Thin;
    hide Waiting;
    RunShape(g, r, i);
    var c := Lap(g.total, r.stride);
    if r.stride > g.total {
      OneRoundLap(g.total, r.stride);
      WideStep(g, r, range, i);
    } else {
      PartialLap(g, r, range, i, c);
      if Waiting(r.st[i + c]) + 10 > Waiting(r.st[i]) {
        ThinLap(r.st[i], TicketAt(r.ticket, r.stride, i), r.stride);
      }
    }
  }

  lemma {:induction false} NeverGrows(g: Grid, r: Run, i: nat, j: nat)
    requires IsRun(g, r) && i <= j <= |r.nows|
    ensures Waiting(r.st[j]) <= Waiting(r.st[i])
    decreases j - i
  {
    hide Waiting;
    hide Passes;
    if i < j {
      NeverGrows(g, r, i, j - 1);
      assert TurnAt(g, r, j - 1);
      RoundCount(g, r.st[j - 1], r.st[j], Window(TicketAt(r.ticket, r.stride, j - 1), r.stride, g.total),
                 r.busies[j - 1], r.nows[j - 1], r.mids[j - 1]);
    }
  }

  lemma {:induction false} ManyLaps(g: Grid, r: Run, range: nat, laps: nat)
    requires IsRun(g, r) && PatientRun(r, range) && laps * Lap(g.total, r.stride) <= |r.nows|
    ensures var n := laps * Lap(g.total, r.stride);
            var w := Waiting(r.st[n]);
            w + 10 * laps <= Waiting(r.st[0]) + 10 * Spoilt(r.busies[..n]) || w <= 9 * Lap(g.total, r.stride)
  {
    hide TurnAt;
    hide Lap;
    hide Waiting;
    var c := Lap(g.total, r.stride);
    if laps > 0 {
      var i := (laps - 1) * c;
      assert laps * c == i + c;
      ManyLaps(g, r, range, laps - 1);
      SpoiltMore(r.busies, i, c);
      NeverGrows(g, r, i, i + c);
      if Clear(r.busies, i, c) {
        WholeLap(g, r, range, i);
      }
    }
  }

  /** With one worker, no arrivals and a tolerance that covers the pool, a tenth of the pool's
      laps, one more and one for each round that met a locked border leave at most nine
      players per ticket of a lap. */
  lemma DrainTheorem(g: Grid, r: Run, range: nat)
    requires IsRun(g, r) && PatientRun(r, range)
    requires |r.nows| >= (Waiting(r.st[0]) / 10 + 1 + Spoilt(r.busies)) * Lap(g.total, r.stride)
    ensures Waiting(r.st[|r.nows|]) <= 9 * Lap(g.total, r.stride)
  {
    hide TurnAt;
    hide Lap;
    hide Waiting;
    var laps := Waiting(r.st[0]) / 10 + 1 + Spoilt(r.busies);
    var n := laps * Lap(g.total, r.stride);
    ManyLaps(g, r, range, laps);
    SpoiltMore(r.busies, n, |r.nows| - n);
    assert r.busies[..|r.nows|] == r.busies;
    NeverGrows(g, r, n, |r.nows|);
  }

  ghost function Extend(r: Run, qs: Queues, busy: set<nat>, now: nat, mid: nat): Run {
    r.(st := r.st + [qs], busies := r.busies + [busy], nows := r.nows + [now], mids := r.mids + [mid])
  }

  lemma RunExtends(g: Grid, r: Run, qs: Queues, busy: set<nat>, now: nat, mid: nat)
    requires IsRun(g, r) && |r.st| > 0
    requires Turn(g, r.st[|r.nows|], qs, TicketAt(r.ticket, r.stride, |r.nows|), r.stride, busy, now, mid)
    ensures IsRun(g, Extend(r, qs, busy, now, mid))
    ensures Spoilt(Extend(r, qs, busy, now, mid).busies) == Spoilt(r.busies) + if busy == {} then 0 else 1
  {
    hide Turn;
    hide TicketAt;
    var r' := Extend(r, qs, busy, now, mid);
    assert r'.busies[..|r.busies|] == r.busies;
    forall i: nat | i < |r'.nows| ensures TurnAt(g, r', i) {
      assert i < |r.nows| ==> TurnAt(g, r, i);
    }
  }

  /** One iteration of the worker loop. */
  method WorkerTurn(pool: Pool, ticket: nat, stride: nat, busy: set<nat>, now: nat, mid: nat) returns (m: Option<MatchResult>, drew: bool)
    requires pool.Valid() && 0 < stride
    modifies pool.buckets
    ensures pool.Valid()
    ensures Turn(pool.grid, old(pool.buckets[..]), pool.buckets[..], ticket, stride, busy, now, mid)
    ensures Waiting(pool.buckets[..]) + (if m.Some? then 10 else 0) == old(Waiting(pool.buckets[..]))
  {
    hide Decide;
    hide Waiting;
    var window := Window(ticket, stride, pool.grid.total);
    ghost var before := pool.buckets[..];
    var r := Round(pool, window, busy, now, mid);
    RoundCount(pool.grid, before, pool.buckets[..], window, busy, now, mid);
    m := if r.Formed? then Some(r.match_) else None;
    drew := r.Formed? || r.Rejected?;
  }

  /** The worker loop, one ticket an iteration: every match formed takes ten players off
      the pool, and enough iterations drain it. */
  method RunWorker(pool: Pool, ticket: nat, stride: nat, busies: seq<set<nat>>, nows: seq<nat>, mid: nat, ghost range: nat)
    returns (matches: seq<MatchResult>)
    requires pool.Valid() && 0 < stride && |busies| == |nows|
    modifies pool.buckets
    ensures pool.Valid()
    ensures 10 * |matches| + Waiting(pool.buckets[..]) == old(Waiting(pool.buckets[..]))
    ensures (forall i :: 0 <= i < |nows| ==> Patient(old(pool.buckets[..]), range, nows[i]))
            && |nows| >= (old(Waiting(pool.buckets[..])) / 10 + 1 + Spoilt(busies)) * Lap(pool.grid.total, stride)
            ==> Waiting(pool.buckets[..]) <= 9 * Lap(pool.grid.total, stride)
  {
    hide Turn;
    hide Patient;
    hide Lap;
    hide Waiting;
    hide TicketAt;
    matches := [];
    var next, t := mid, ticket;
    ghost var run := Run([pool.buckets[..]], ticket, stride, [], [], []);
    TicketAdd(ticket, stride, 0, 0);
    for i := 0 to |nows|
      invariant pool.Valid()
      invariant IsRun(pool.grid, run) && run.nows == nows[..i] && run.busies == busies[..i] && run.ticket == ticket && run.stride == stride
      invariant run.st[0] == old(pool.buckets[..]) && run.st[i] == pool.buckets[..]
      invariant t == TicketAt(ticket, stride, i)
      invariant 10 * |matches| + Waiting(run.st[i]) == Waiting(run.st[0])
    {
      TicketAdd(ticket, stride, i, 0);
      var m, drew := WorkerTurn(pool, t, stride, busies[i], nows[i], next);
      RunExtends(pool.grid, run, pool.buckets[..], busies[i], nows[i], next);
      run := Extend(run, pool.buckets[..], busies[i], nows[i], next);
      t := t + stride;
      if drew {
        next := next + 1;
      }
      if m.Some? {
        matches := matches + [m.value];
      }
    }
    assert nows[..|nows|] == nows && busies[..|nows|] == busies;
    if (forall i :: 0 <= i < |nows| ==> Patient(run.st[0], range, nows[i]))
       && |nows| >= (Waiting(run.st[0]) / 10 + 1 + Spoilt(busies)) * Lap(pool.grid.total, stride)
    {
      DrainTheorem(pool.grid, run, range);
    }
  }
}
