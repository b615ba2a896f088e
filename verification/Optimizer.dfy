/** src/matcher.rs, algorithm 3: the 252-way roster optimiser and the tolerance gate. */
module Optimizer {
  import opened Base
  import opened TeamSplit

  /** A waiting player. `token` names this one enqueue and `event` the ingest-stream entry
      it came from; the program keeps neither, they let the proofs tell apart two enqueues
      of one user. */
  datatype Player = Player(id: int, rating: u32, enqueuedAt: nat, token: nat, event: nat)

  datatype MatchResult = MatchResult(matchId: nat, teamA: seq<(int, int)>, teamB: seq<(int, int)>, spread: u32)

  const I64_MAX: int := 0x7FFF_FFFF_FFFF_FFFF
  const TWO_31: int := 0x8000_0000
  const TWO_32: int := 0x1_0000_0000

  /** A u32 reinterpreted as an i32. */
  function AsI32(x: u32): (r: int)
    ensures -TWO_31 <= r < TWO_31 && (x - r) % TWO_32 == 0
  {
    if x < TWO_31 then x else x - TWO_32
  }

  function Entry(p: Player): (int, int) {
    (p.id, AsI32(p.rating))
  }

  function Roster(ps: seq<Player>): (r: seq<(int, int)>)
    ensures |r| == |ps|
  {
    seq(|ps|, i requires 0 <= i < |ps| => Entry(ps[i]))
  }

  function Ratings(ps: seq<Player>): (r: seq<int>)
    ensures |r| == |ps|
  {
    seq(|ps|, i requires 0 <= i < |ps| => ps[i].rating)
  }

  ghost predicate InU32(v: seq<int>) {
    forall i :: 0 <= i < |v| ==> 0 <= v[i] < TWO_32
  }

  lemma {:induction false} SumBound(v: seq<int>)
    requires InU32(v)
    ensures 0 <= Sum(v) <= |v| * (TWO_32 - 1)
  {
    if v != [] {
      SumBound(v[1..]);
    }
  }

  lemma {:induction false} DistBound(x: seq<int>, y: seq<int>)
    requires |x| == |y| && InU32(x) && InU32(y)
    ensures Dist(x, y) <= |x| * (TWO_32 - 1)
  {
    if x != [] {
      DistBound(x[1..], y[1..]);
    }
  }

  lemma InBag(a: seq<int>, b: seq<int>)
    requires InU32(a) && multiset(b) <= multiset(a)
    ensures InU32(b)
  {
    forall i | 0 <= i < |b| ensures b[i] in a {
      assert b[i] in multiset(b);
    }
  }

  /** Neither the running penalty nor the reported spread can overflow its machine type. */
  lemma PenaltyBound(a: seq<int>, b: seq<int>)
    requires |a| == |b| == 5 && InU32(a) && InU32(b)
    ensures Gap(a, b) <= 5 * (TWO_32 - 1) && Penalty(a, b) < I64_MAX
  {
    SumBound(a);
    SumBound(b);
    InBag(a, Sort(a));
    InBag(b, Sort(b));
    DistBound(Sort(a), Sort(b));
  }

  lemma MaskBound(v: seq<int>, mask: nat)
    requires |v| == 10 && InU32(v) && IsSplit(mask)
    ensures MaskGap(v, mask) <= 5 * (TWO_32 - 1) && MaskPenalty(v, mask) < I64_MAX
  {
    var bs := Bits(mask, 10);
    PickLength(v, bs);
    PickPartitions(v, bs);
    InBag(v, Pick(v, bs, true));
    InBag(v, Pick(v, bs, false));
    PenaltyBound(Pick(v, bs, true), Pick(v, bs, false));
  }

  /** Deal the ratings to the two teams by the bits of the mask. */
  method Deal(v: seq<int>, mask: nat) returns (a: seq<int>, b: seq<int>, sumA: int)
    requires |v| == 10
    ensures a == Pick(v, Bits(mask, 10), true) && b == Pick(v, Bits(mask, 10), false)
    ensures sumA == Sum(a)
  {
    a, b, sumA := [], [], 0;
    ghost var bs := Bits(mask, 10);
    for i := 0 to 10
      invariant a == Pick(v[..i], bs[..i], true) && b == Pick(v[..i], bs[..i], false)
      invariant sumA == Sum(a)
    {
      BitAt(mask, 10, i);
      assert v[..i + 1] == v[..i] + [v[i]] && bs[..i + 1] == bs[..i] + [bs[i]];
      PickSnoc(v[..i], bs[..i], v[i], bs[i], true);
      PickSnoc(v[..i], bs[..i], v[i], bs[i], false);
      if (mask / Pow2(i)) % 2 == 1 {
        SumConcat(a, [v[i]]);
        a := a + [v[i]];
        sumA := sumA + v[i];
      } else {
        b := b + [v[i]];
      }
    }
    assert v[..10] == v && bs[..10] == bs;
  }

  lemma SumOfRest(v: seq<int>, bs: seq<bool>)
    requires |v| == |bs|
    ensures Sum(Pick(v, bs, false)) == Sum(v) - Sum(Pick(v, bs, true))
  {
    PickPartitions(v, bs);
    SumConcat(Pick(v, bs, true), Pick(v, bs, false));
    SumOfBag(Pick(v, bs, true) + Pick(v, bs, false), v);
  }

  /** One pass of the scan: the macro gap and the whole penalty of one mask. */
  method Score(v: seq<int>, total: int, mask: nat) returns (macroGap: nat, penalty: nat)
    requires |v| == 10 && IsSplit(mask) && total == Sum(v)
    ensures macroGap == MaskGap(v, mask) && penalty == MaskPenalty(v, mask)
  {
    var a, b, sumA := Deal(v, mask);
    PickLength(v, Bits(mask, 10));
    SumOfRest(v, Bits(mask, 10));
    macroGap := Abs(sumA - (total - sumA));
    var sanction := SumDifferences(Sort(a), Sort(b));
    penalty := macroGap + sanction;
  }

  method SumDifferences(a: seq<int>, b: seq<int>) returns (sanction: nat)
    requires |a| == |b|
    ensures sanction == Dist(a, b)
  {
    sanction := 0;
    for i := 0 to |a|
      invariant sanction == Dist(a[..i], b[..i])
    {
      assert a[..i + 1] == a[..i] + [a[i]] && b[..i + 1] == b[..i] + [b[i]];
      DistConcat(a[..i], b[..i], [a[i]], [b[i]]);
      sanction := sanction + Abs(a[i] - b[i]);
    }
    assert a[..|a|] == a && b[..|b|] == b;
  }

  /** Scan the masks in ascending order, replacing the best only on strict improvement. */
  method BestMask(v: seq<int>) returns (bestMask: nat, bestMacro: nat)
    requires |v| == 10 && InU32(v)
    ensures IsChosen(v, bestMask) && bestMacro == MaskGap(v, bestMask)
  {
    hide MaskPenalty;
    var total := Sum(v);
    var bestPenalty := I64_MAX;
    bestMask, bestMacro := 0, 0;
    for mask := 0 to 1024
      invariant bestPenalty == I64_MAX ==> forall k: nat | k < mask :: !IsSplit(k)
      invariant bestPenalty != I64_MAX ==>
                  IsSplit(bestMask) && bestPenalty == MaskPenalty(v, bestMask)
                  && bestMacro == MaskGap(v, bestMask)
                  && forall k: nat | k < mask && IsSplit(k) :: !Before(v, k, bestMask)
      invariant bestMask <= mask
    {
      // The bits above the tenth of a mask below 1024 are zero.
      if Ones(Bits(mask, 10)) != 5 {
        continue;
      }
      var macroGap, penalty := Score(v, total, mask);
      MaskBound(v, mask);
      if penalty < bestPenalty {
        bestPenalty, bestMask, bestMacro := penalty, mask, macroGap;
      }
    }
    SplitExists();
  }

  /** The teams and spread the optimiser reports for a group. */
  ghost function Outcome(group: seq<Player>, matchId: nat): (m: MatchResult)
    requires |group| == 10
  {
    var v := Ratings(group);
    var bs := Bits(Chosen(v), 10);
    MatchResult(matchId, Roster(Pick(group, bs, true)), Roster(Pick(group, bs, false)), Spread(group))
  }

  ghost function Spread(group: seq<Player>): u32
    requires |group| == 10
  {
    MaskBound(Ratings(group), Chosen(Ratings(group)));
    MaskGap(Ratings(group), Chosen(Ratings(group))) / 5
  }

  method OptimizeSplit(group: seq<Player>, matchId: nat) returns (m: MatchResult, spread: u32)
    requires |group| == 10
    ensures m == Outcome(group, matchId) && spread == m.spread
  {
    var v := Ratings(group);
    var bestMask, bestMacro := BestMask(v);
    ChosenIsUnique(v, bestMask, Chosen(v));
    var teamA, teamB := BuildTeams(group, bestMask);
    MaskBound(v, bestMask);
    spread := bestMacro / 5;
    m := MatchResult(matchId, teamA, teamB, spread);
  }

  /** What the optimiser minimises, from the ratings alone: some pairing of the two reported
      sides costs, with the difference of their sums, no more than any pairing of any two
      teams of five that make up the group; and any pairing of the sides of a smaller mask
      of five bits costs more. */
  lemma OutcomeIsLeast(group: seq<Player>, matchId: nat)
    returns (mask: nat, a: seq<int>, b: seq<int>, p: seq<int>, q: seq<int>)
    requires |group| == 10
    ensures mask < 1024 && Ones(Bits(mask, 10)) == 5
    ensures var m := Outcome(group, matchId);
            && m.teamA == Roster(Pick(group, Bits(mask, 10), true)) && m.teamB == Roster(Pick(group, Bits(mask, 10), false))
    ensures a == Ratings(Pick(group, Bits(mask, 10), true)) && b == Ratings(Pick(group, Bits(mask, 10), false))
    ensures |a| == |b| == |p| == |q| == 5 && multiset(p) == multiset(a) && multiset(q) == multiset(b)
    ensures forall x, y {:trigger Dist(x, y)} ::
              |x| == |y| == 5 && multiset(x) + multiset(y) == multiset(Ratings(group)) ==>
                Abs(Sum(a) - Sum(b)) + Dist(p, q) <= Abs(Sum(x) - Sum(y)) + Dist(x, y)
    ensures forall k: nat, x, y {:trigger Dist(x, y), Bits(k, 10)} ::
              k < mask && Ones(Bits(k, 10)) == 5 && |x| == |y| == 5
              && multiset(x) == multiset(Pick(Ratings(group), Bits(k, 10), true))
              && multiset(y) == multiset(Pick(Ratings(group), Bits(k, 10), false)) ==>
                Abs(Sum(a) - Sum(b)) + Dist(p, q) < Abs(Sum(x) - Sum(y)) + Dist(x, y)
  {
    hide *;
    var v := Ratings(group);
    mask, a, b := OutcomeSides(group, matchId);
    p, q := Sort(a), Sort(b);
    SidesCost(v, mask);
    ChosenIsCheapest(v, mask);
    SmallerCostMore(v, mask);
  }

  lemma OutcomeSides(group: seq<Player>, matchId: nat) returns (mask: nat, a: seq<int>, b: seq<int>)
    requires |group| == 10
    ensures var v, m := Ratings(group), Outcome(group, matchId);
            && mask < 1024 && Ones(Bits(mask, 10)) == 5 && IsSplit(mask) && IsChosen(v, mask)
            && a == Pick(v, Bits(mask, 10), true) == Ratings(Pick(group, Bits(mask, 10), true))
            && b == Pick(v, Bits(mask, 10), false) == Ratings(Pick(group, Bits(mask, 10), false))
            && m.teamA == Roster(Pick(group, Bits(mask, 10), true)) && m.teamB == Roster(Pick(group, Bits(mask, 10), false))
  {
    hide Pick;
    hide Bits;
    hide Ones;
    mask := Chosen(Ratings(group));
    RatingsOfPick(group, Bits(mask, 10), true);
    RatingsOfPick(group, Bits(mask, 10), false);
    a, b := Pick(Ratings(group), Bits(mask, 10), true), Pick(Ratings(group), Bits(mask, 10), false);
  }

  lemma SidesCost(v: seq<int>, mask: nat)
    requires |v| == 10 && IsSplit(mask)
    ensures var a, b := Pick(v, Bits(mask, 10), true), Pick(v, Bits(mask, 10), false);
            |a| == |b| == 5 && MaskPenalty(v, mask) == Abs(Sum(a) - Sum(b)) + Dist(Sort(a), Sort(b))
  {
    hide Pick;
    hide Sum;
    hide Dist;
    hide Bits;
    hide Ones;
    PickLength(v, Bits(mask, 10));
  }

  lemma ChosenIsCheapest(v: seq<int>, mask: nat)
    requires |v| == 10 && IsSplit(mask) && IsChosen(v, mask)
    ensures forall x, y {:trigger Dist(x, y)} ::
              |x| == |y| == 5 && multiset(x) + multiset(y) == multiset(v) ==>
                MaskPenalty(v, mask) <= Abs(Sum(x) - Sum(y)) + Dist(x, y)
  {
    hide *;
    forall x, y {:trigger Dist(x, y)} | |x| == |y| == 5 && multiset(x) + multiset(y) == multiset(v)
      ensures MaskPenalty(v, mask) <= Abs(Sum(x) - Sum(y)) + Dist(x, y)
    {
      ChosenBeatsPairing(v, mask, x, y);
    }
  }

  lemma SmallerCostMore(v: seq<int>, mask: nat)
    requires |v| == 10 && IsSplit(mask) && IsChosen(v, mask) && mask < 1024
    ensures forall k: nat, x, y {:trigger Dist(x, y), Bits(k, 10)} ::
              k < mask && Ones(Bits(k, 10)) == 5 && |x| == |y| == 5
              && multiset(x) == multiset(Pick(v, Bits(k, 10), true))
              && multiset(y) == multiset(Pick(v, Bits(k, 10), false)) ==>
                MaskPenalty(v, mask) < Abs(Sum(x) - Sum(y)) + Dist(x, y)
  {
    hide *;
    forall k: nat, x, y {:trigger Dist(x, y), Bits(k, 10)} |
      k < mask && Ones(Bits(k, 10)) == 5 && |x| == |y| == 5
      && multiset(x) == multiset(Pick(v, Bits(k, 10), true)) && multiset(y) == multiset(Pick(v, Bits(k, 10), false))
      ensures MaskPenalty(v, mask) < Abs(Sum(x) - Sum(y)) + Dist(x, y)
    {
      SmallerMaskCosts(v, mask, k, x, y);
    }
  }

  lemma PairingCosts(a: seq<int>, b: seq<int>, x: seq<int>, y: seq<int>)
    requires |a| == |b| == |x| == |y| && multiset(x) == multiset(a) && multiset(y) == multiset(b)
    ensures Penalty(a, b) <= Abs(Sum(x) - Sum(y)) + Dist(x, y)
  {
    SumOfBag(a, x);
    SumOfBag(b, y);
    SortedPairingIsOptimal(Sort(a), Sort(b), x, y);
  }

  lemma ChosenBeatsPairing(v: seq<int>, mask: nat, x: seq<int>, y: seq<int>)
    requires |v| == 10 && IsChosen(v, mask) && |x| == |y| == 5 && multiset(x) + multiset(y) == multiset(v)
    ensures MaskPenalty(v, mask) <= Abs(Sum(x) - Sum(y)) + Dist(x, y)
  {
    hide *;
    var bs := SplitOfBags(v, x, y);
    ChosenIsOptimal(v, mask, bs);
    PairingCosts(x, y, x, y);
  }

  lemma SmallerMaskCosts(v: seq<int>, mask: nat, k: nat, x: seq<int>, y: seq<int>)
    requires |v| == 10 && IsChosen(v, mask) && k < mask && mask < 1024 && Ones(Bits(k, 10)) == 5 && |x| == |y| == 5
    requires multiset(x) == multiset(Pick(v, Bits(k, 10), true)) && multiset(y) == multiset(Pick(v, Bits(k, 10), false))
    ensures MaskPenalty(v, mask) < Abs(Sum(x) - Sum(y)) + Dist(x, y)
  {
    assert IsSplit(k) && !Before(v, k, mask);
    hide Dist;
    hide Sum;
    PickLength(v, Bits(k, 10));
    PairingCosts(Pick(v, Bits(k, 10), true), Pick(v, Bits(k, 10), false), x, y);
  }

  method BuildTeams(group: seq<Player>, mask: nat) returns (teamA: seq<(int, int)>, teamB: seq<(int, int)>)
    requires |group| == 10
    ensures teamA == Roster(Pick(group, Bits(mask, 10), true))
    ensures teamB == Roster(Pick(group, Bits(mask, 10), false))
  {
    teamA, teamB := [], [];
    ghost var bs := Bits(mask, 10);
    for i := 0 to 10
      invariant teamA == Roster(Pick(group[..i], bs[..i], true))
      invariant teamB == Roster(Pick(group[..i], bs[..i], false))
    {
      BitAt(mask, 10, i);
      assert group[..i + 1] == group[..i] + [group[i]] && bs[..i + 1] == bs[..i] + [bs[i]];
      PickSnoc(group[..i], bs[..i], group[i], bs[i], true);
      PickSnoc(group[..i], bs[..i], group[i], bs[i], false);
      if (mask / Pow2(i)) % 2 == 1 {
        teamA := teamA + [(group[i].id, AsI32(group[i].rating))];
      } else {
        teamB := teamB + [(group[i].id, AsI32(group[i].rating))];
      }
    }
    assert group[..10] == group && bs[..10] == bs;
  }

  // ---- What the reported match is ----

  function TeamSum(team: seq<(int, int)>): int {
    if team == [] then 0 else team[0].1 + TeamSum(team[1..])
  }

  lemma {:induction false} RosterOfPick(group: seq<Player>, bs: seq<bool>, side: bool)
    requires |group| == |bs|
    ensures Roster(Pick(group, bs, side)) == Pick(Roster(group), bs, side)
  {
    if group != [] {
      RosterOfPick(group[1..], bs[1..], side);
      assert Roster(group)[1..] == Roster(group[1..]);
    }
  }

  lemma {:induction false} RatingsOfPick(group: seq<Player>, bs: seq<bool>, side: bool)
    requires |group| == |bs|
    ensures Ratings(Pick(group, bs, side)) == Pick(Ratings(group), bs, side)
  {
    if group != [] {
      RatingsOfPick(group[1..], bs[1..], side);
      assert Ratings(group)[1..] == Ratings(group[1..]);
    }
  }

  lemma {:induction false} TeamSumIsSum(ps: seq<Player>)
    requires forall p :: p in ps ==> p.rating < TWO_31
    ensures TeamSum(Roster(ps)) == Sum(Ratings(ps))
  {
    if ps != [] {
      assert Roster(ps)[1..] == Roster(ps[1..]);
      assert Ratings(ps)[1..] == Ratings(ps[1..]);
      TeamSumIsSum(ps[1..]);
    }
  }

  /** The reported teams are five and five, together exactly the ten players, the tenth
      of whom is on team B. */
  lemma TeamsPartition(group: seq<Player>, matchId: nat)
    requires |group| == 10
    ensures var m := Outcome(group, matchId);
            && |m.teamA| == 5 && |m.teamB| == 5
            && multiset(m.teamA) + multiset(m.teamB) == multiset(Roster(group))
            && m.teamB[4] == Entry(group[9])
  {
    var v := Ratings(group);
    var bs := Bits(Chosen(v), 10);
    PickLength(group, bs);
    RosterOfPick(group, bs, true);
    RosterOfPick(group, bs, false);
    PickPartitions(Roster(group), bs);
    TenthOnTeamB(v, Chosen(v));
    assert group == group[..9] + [group[9]] && bs == bs[..9] + [bs[9]];
    PickSnoc(group[..9], bs[..9], group[9], bs[9], false);
  }

  /** The reported spread is a fifth of the difference of the reported teams' sums,
      provided no rating wraps when stored as an i32. */
  lemma SpreadFromTeams(group: seq<Player>, matchId: nat)
    requires |group| == 10 && forall p :: p in group ==> p.rating < TWO_31
    ensures var m := Outcome(group, matchId);
            m.spread == Abs(TeamSum(m.teamA) - TeamSum(m.teamB)) / 5
  {
    hide *;
    var bs := Bits(Chosen(Ratings(group)), 10);
    var a, b := Pick(group, bs, true), Pick(group, bs, false);
    OutcomeTeams(group, matchId);
    PickPartitions(group, bs);
    forall p | p in a || p in b ensures p in group {
      assert p in multiset(a) + multiset(b);
    }
    TeamSumIsSum(a);
    TeamSumIsSum(b);
  }

  lemma OutcomeTeams(group: seq<Player>, matchId: nat)
    requires |group| == 10
    ensures var m, bs := Outcome(group, matchId), Bits(Chosen(Ratings(group)), 10);
            && m.teamA == Roster(Pick(group, bs, true)) && m.teamB == Roster(Pick(group, bs, false))
            && m.spread == Abs(Sum(Ratings(Pick(group, bs, true))) - Sum(Ratings(Pick(group, bs, false)))) / 5
  {
    hide IsChosen;
    hide IsSplit;
    hide Pick;
    hide Roster;
    hide Ratings;
    hide Sum;
    hide Bits;
    var bs := Bits(Chosen(Ratings(group)), 10);
    RatingsOfPick(group, bs, true);
    RatingsOfPick(group, bs, false);
  }

  // ---- The tolerance gate ----

  /** The largest admitted spread after a wait, in wrapping 32-bit arithmetic: there is
      no cap. */
  function MaxTeamGap(waitMs: nat): (t: u32) {
    var steps := (waitMs / 100) % TWO_32;
    (50 + (10 * steps) % TWO_32) % TWO_32
  }

  const OVERFLOW_MS: nat := 42_949_672_500

  /** The tolerance is the linear formula exactly below the overflow point, where it
      drops to 4. */
  lemma ToleranceIsLinear(waitMs: nat)
    ensures MaxTeamGap(waitMs) == 50 + 10 * (waitMs / 100) <==> waitMs < OVERFLOW_MS
    ensures MaxTeamGap(OVERFLOW_MS) == 4
  {
    var steps := waitMs / 100;
    assert steps < 429_496_725 <==> waitMs < OVERFLOW_MS;
    if steps < 429_496_725 {
      assert steps % TWO_32 == steps && 50 + 10 * steps < TWO_32;
    }
  }

  /** At any wait it is the linear formula modulo 2^32. */
  lemma ToleranceWraps(waitMs: nat)
    ensures MaxTeamGap(waitMs) == (50 + 10 * (waitMs / 100)) % TWO_32
  {
    var n := waitMs / 100;
    var r := n % TWO_32;
    var s := (10 * r) % TWO_32;
    assert n == (n / TWO_32) * TWO_32 + r && 10 * r == (10 * r / TWO_32) * TWO_32 + s;
    ModShift(50 + s, 10 * (n / TWO_32) + 10 * r / TWO_32, TWO_32);
    assert 50 + 10 * n == (10 * (n / TWO_32) + 10 * r / TWO_32) * TWO_32 + (50 + s);
  }

  lemma ModShift(x: nat, q: nat, n: nat)
    requires n > 0
    ensures (q * n + x) % n == x % n
  {
    var y := q * n + x;
    assert x == (x / n) * n + x % n;
    DivOf(y, n, q + x / n, x % n);
    assert y == (y / n) * n + y % n;
  }

  /** A long enough wait, short of the overflow, admits every spread of stored ratings. */
  lemma LongWaitAdmitsAll(group: seq<Player>, waitMs: nat)
    requires |group| == 10 && forall p :: p in group ==> p.rating < TWO_31
    requires 4_294_966_800 <= waitMs < OVERFLOW_MS
    ensures Spread(group) <= MaxTeamGap(waitMs)
  {
    SpreadWithinRange(group, TWO_31 - 1);
    ToleranceIsLinear(waitMs);
  }

  lemma SpreadWithinRange(group: seq<Player>, range: nat)
    requires |group| == 10
    requires forall p, q :: p in group && q in group ==> p.rating - q.rating <= range
    ensures Spread(group) <= range / 5
  {
    var v := Ratings(group);
    forall i, j | 0 <= i < 10 && 0 <= j < 10 ensures v[i] - v[j] <= range {
      assert group[i] in group && group[j] in group;
    }
    GapWithinRange(v, Chosen(v), range);
  }
}
