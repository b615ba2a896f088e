/** The team optimiser's mathematics: penalties of a split of 2n ratings into two
    teams of n, for any n, and the choice among the ten-bit masks. */
module TeamSplit {
  import opened Base

  // ---- Penalty of one pair of teams ----

  /** Sum of position-by-position differences. */
  function Dist(x: seq<int>, y: seq<int>): nat
    requires |x| == |y|
  {
    if x == [] then 0 else Abs(x[0] - y[0]) + Dist(x[1..], y[1..])
  }

  function Gap(a: seq<int>, b: seq<int>): nat {
    Abs(Sum(a) - Sum(b))
  }

  function Sanction(a: seq<int>, b: seq<int>): nat
    requires |a| == |b|
  {
    Dist(Sort(a), Sort(b))
  }

  function Penalty(a: seq<int>, b: seq<int>): nat
    requires |a| == |b|
  {
    Gap(a, b) + Sanction(a, b)
  }

  lemma DistOne(x: int, y: int)
    ensures Dist([x], [y]) == if x <= y then y - x else x - y
  {
    assert Dist([x][1..], [y][1..]) == 0;
  }

  lemma {:induction false} DistConcat(x: seq<int>, y: seq<int>, x': seq<int>, y': seq<int>)
    requires |x| == |y| && |x'| == |y'|
    ensures Dist(x + x', y + y') == Dist(x, y) + Dist(x', y')
  {
    if x == [] {
      assert x + x' == x' && y + y' == y';
    } else {
      assert (x + x')[1..] == x[1..] + x' && (y + y')[1..] == y[1..] + y';
      DistConcat(x[1..], y[1..], x', y');
    }
  }

  lemma DistWithout(x: seq<int>, y: seq<int>, i: nat)
    requires |x| == |y| && i < |x|
    ensures Dist(x, y) == Abs(x[i] - y[i]) + Dist(Without(x, i), Without(y, i))
  {
    assert x == x[..i] + ([x[i]] + x[i + 1..]) && y == y[..i] + ([y[i]] + y[i + 1..]);
    DistConcat(x[..i], y[..i], [x[i]] + x[i + 1..], [y[i]] + y[i + 1..]);
    DistConcat([x[i]], [y[i]], x[i + 1..], y[i + 1..]);
    DistConcat(x[..i], y[..i], x[i + 1..], y[i + 1..]);
  }

  lemma DistUpdate(x: seq<int>, y: seq<int>, i: nat, v: int)
    requires |x| == |y| && i < |x|
    ensures Dist(x, y[i := v]) == Dist(x, y) - Abs(x[i] - y[i]) + Abs(x[i] - v)
  {
    DistWithout(x, y, i);
    DistWithout(x, y[i := v], i);
    assert Without(y[i := v], i) == Without(y, i);
  }

  function Swap(y: seq<int>, i: nat, j: nat): (r: seq<int>)
    requires i < |y| && j < |y|
    ensures |r| == |y| && r[i] == y[j]
  {
    y[i := y[j]][j := y[i]]
  }

  /** Uncrossing one pair of partners never increases the distance. */
  lemma Uncross(x: seq<int>, y: seq<int>, i: nat, j: nat)
    requires |x| == |y| && i < |x| && j < |x|
    requires x[i] <= x[j] && y[j] <= y[i]
    ensures Dist(x, Swap(y, i, j)) <= Dist(x, y)
    ensures multiset(Swap(y, i, j)) == multiset(y)
  {
    DistUpdate(x, y, i, y[j]);
    DistUpdate(x, y[i := y[j]], j, y[i]);
  }

  /** One-dimensional optimal transport: pairing two teams in sorted order costs no
      more than pairing their members in any other way. */
  lemma {:induction false} SortedPairingIsOptimal(a: seq<int>, b: seq<int>, x: seq<int>, y: seq<int>)
    requires Sorted(a) && Sorted(b) && |a| == |b|
    requires multiset(x) == multiset(a) && multiset(y) == multiset(b)
    requires |x| == |a| && |y| == |b|
    ensures Dist(a, b) <= Dist(x, y)
    decreases |a|
  {
    if a != [] {
      hide Swap;
      hide Without;
      var i := SamePlace(a, x);
      var j := SamePlace(b, y);
      LeastOfSorted(a, x);
      LeastOfSorted(b, y);
      var z := Swap(y, i, j);
      Uncross(x, y, i, j);
      DistWithout(x, z, i);
      DropSame(a, x, i);
      DropSame(b, z, i);
      SortedPairingIsOptimal(a[1..], b[1..], Without(x, i), Without(z, i));
    }
  }

  lemma LeastOfSorted(a: seq<int>, x: seq<int>)
    requires Sorted(a) && a != [] && multiset(a) == multiset(x)
    ensures forall k :: 0 <= k < |x| ==> a[0] <= x[k]
  {
    forall k | 0 <= k < |x| ensures a[0] <= x[k] {
      assert x[k] in multiset(a);
    }
  }

  /** The sanction score is the least total difference over all one-to-one pairings
      of the two teams: no pairing does better, and the sorted one attains it. */
  lemma SanctionIsLeast(a: seq<int>, b: seq<int>)
    requires |a| == |b|
    ensures forall x, y {:trigger Dist(x, y)} ::
              multiset(x) == multiset(a) && multiset(y) == multiset(b) && |x| == |a| && |y| == |b|
              ==> Sanction(a, b) <= Dist(x, y)
    ensures exists x, y :: multiset(x) == multiset(a) && multiset(y) == multiset(b)
                           && |x| == |y| && Dist(x, y) == Sanction(a, b)
  {
    forall x, y | multiset(x) == multiset(a) && multiset(y) == multiset(b) && |x| == |a| && |y| == |b|
      ensures Sanction(a, b) <= Dist(x, y)
    {
      SortedPairingIsOptimal(Sort(a), Sort(b), x, y);
    }
    assert Dist(Sort(a), Sort(b)) == Sanction(a, b);
  }

  lemma {:induction false} DistDominates(x: seq<int>, y: seq<int>)
    requires |x| == |y|
    ensures Gap(x, y) <= Dist(x, y)
    ensures (Dist(x, y) - (Sum(x) - Sum(y))) % 2 == 0
  {
    if x != [] {
      DistDominates(x[1..], y[1..]);
    }
  }

  lemma SanctionDominatesGap(a: seq<int>, b: seq<int>)
    requires |a| == |b|
    ensures Gap(a, b) <= Sanction(a, b)
    ensures Penalty(a, b) % 2 == 0
  {
    DistDominates(Sort(a), Sort(b));
    SumOfBag(Sort(a), a);
    SumOfBag(Sort(b), b);
  }

  /** A penalty depends on the teams as bags only. */
  lemma PenaltyOfBags(a: seq<int>, b: seq<int>, a': seq<int>, b': seq<int>)
    requires |a| == |b| && |a'| == |b'|
    requires multiset(a) == multiset(a') && multiset(b) == multiset(b')
    ensures Penalty(a, b) == Penalty(a', b') && Gap(a, b) == Gap(a', b')
  {
    SumOfBag(a, a');
    SumOfBag(b, b');
    SortOfBag(a, a');
    SortOfBag(b, b');
  }

  // ---- Splits as bit strings ----

  function Ones(bs: seq<bool>): nat {
    if bs == [] then 0 else (if bs[0] then 1 else 0) + Ones(bs[1..])
  }

  function Not(bs: seq<bool>): (r: seq<bool>)
    ensures |r| == |bs|
  {
    seq(|bs|, i requires 0 <= i < |bs| => !bs[i])
  }

  /** The elements whose bit equals `side`, in their own order. */
  function Pick<T>(xs: seq<T>, bs: seq<bool>, side: bool): seq<T>
    requires |xs| == |bs|
  {
    if xs == [] then [] else
    (if bs[0] == side then [xs[0]] else []) + Pick(xs[1..], bs[1..], side)
  }

  lemma {:induction false} PickLength<T>(xs: seq<T>, bs: seq<bool>)
    requires |xs| == |bs|
    ensures |Pick(xs, bs, true)| == Ones(bs) && |Pick(xs, bs, false)| == |bs| - Ones(bs)
  {
    if xs != [] {
      PickLength(xs[1..], bs[1..]);
    }
  }

  /** The two sides together are exactly the group. */
  lemma {:induction false} PickPartitions<T>(xs: seq<T>, bs: seq<bool>)
    requires |xs| == |bs|
    ensures multiset(Pick(xs, bs, true)) + multiset(Pick(xs, bs, false)) == multiset(xs)
  {
    if xs != [] {
      PickPartitions(xs[1..], bs[1..]);
      TailBag(xs);
    }
  }

  lemma PickCons<T>(xs: seq<T>, bs: seq<bool>, side: bool)
    requires xs != [] && |xs| == |bs|
    ensures Pick(xs, bs, side) == (if bs[0] == side then [xs[0]] else []) + Pick(xs[1..], bs[1..], side)
  {
  }

  lemma {:induction false} PickSnoc<T>(xs: seq<T>, bs: seq<bool>, x: T, b: bool, side: bool)
    requires |xs| == |bs|
    ensures Pick(xs + [x], bs + [b], side) == Pick(xs, bs, side) + (if b == side then [x] else [])
  {
    if xs == [] {
      assert xs + [x] == [x] && bs + [b] == [b];
      assert Pick([x], [b], side) == (if b == side then [x] else []) + Pick([x][1..], [b][1..], side);
    } else {
      assert (xs + [x])[1..] == xs[1..] + [x] && (bs + [b])[1..] == bs[1..] + [b];
      assert (xs + [x])[0] == xs[0] && (bs + [b])[0] == bs[0];
      PickCons(xs + [x], bs + [b], side);
      PickCons(xs, bs, side);
      hide Pick;
      PickSnoc(xs[1..], bs[1..], x, b, side);
    }
  }

  lemma {:induction false} PickNot<T>(xs: seq<T>, bs: seq<bool>, side: bool)
    requires |xs| == |bs|
    ensures Pick(xs, Not(bs), side) == Pick(xs, bs, !side)
    ensures Ones(Not(bs)) == |bs| - Ones(bs)
  {
    if xs != [] {
      assert Not(bs)[1..] == Not(bs[1..]);
      PickNot(xs[1..], bs[1..], side);
    }
  }

  lemma PickHead<T>(xs: seq<T>, b: bool, bs: seq<bool>, side: bool)
    requires xs != [] && |xs| == |bs| + 1
    ensures multiset(Pick(xs, [b] + bs, side))
         == (if b == side then multiset{xs[0]} else multiset{}) + multiset(Pick(xs[1..], bs, side))
  {
    assert ([b] + bs)[1..] == bs;
  }

  lemma BagHead(a: multiset<int>, x: int, m: multiset<int>)
    requires a <= multiset{x} + m
    ensures a - multiset{x} <= m
    ensures a == (if x in a then multiset{x} else multiset{}) + (a - multiset{x})
  {
  }

  /** Every sub-bag of a group is one side of some split. */
  lemma {:induction false} Realize(v: seq<int>, a: multiset<int>) returns (bs: seq<bool>)
    requires a <= multiset(v)
    ensures |bs| == |v|
    ensures multiset(Pick(v, bs, true)) == a
  {
    if v == [] {
      bs := [];
    } else {
      hide *;
      TailBag(v);
      BagHead(a, v[0], multiset(v[1..]));
      var rest := Realize(v[1..], a - multiset{v[0]});
      bs := [v[0] in a] + rest;
      PickHead(v, v[0] in a, rest, true);
    }
  }

  ghost predicate Balanced(v: seq<int>, bs: seq<bool>) {
    |bs| == |v| && 2 * Ones(bs) == |bs|
  }

  function SplitPenalty(v: seq<int>, bs: seq<bool>): nat
    requires Balanced(v, bs)
  {
    PickLength(v, bs);
    Penalty(Pick(v, bs, true), Pick(v, bs, false))
  }

  function SplitGap(v: seq<int>, bs: seq<bool>): nat
    requires |bs| == |v|
  {
    Gap(Pick(v, bs, true), Pick(v, bs, false))
  }

  /** Any two bags that make up `v` with equal sizes are a balanced split of `v`. */
  lemma SplitOfBags(v: seq<int>, a: seq<int>, b: seq<int>) returns (bs: seq<bool>)
    requires |a| == |b| && multiset(a) + multiset(b) == multiset(v)
    ensures Balanced(v, bs) && SplitPenalty(v, bs) == Penalty(a, b)
  {
    bs := Realize(v, multiset(a));
    PickLength(v, bs);
    PickPartitions(v, bs);
    Cancel(multiset(a), multiset(b), multiset(Pick(v, bs, false)));
    SameLength(Pick(v, bs, true), a);
    SameLength(Pick(v, bs, false), b);
    PenaltyOfBags(Pick(v, bs, true), Pick(v, bs, false), a, b);
  }

  /** Reordering the group keeps the penalties on offer. */
  lemma SplitTransfers(v: seq<int>, w: seq<int>, bs: seq<bool>) returns (cs: seq<bool>)
    requires multiset(v) == multiset(w) && Balanced(v, bs)
    ensures Balanced(w, cs) && SplitPenalty(w, cs) == SplitPenalty(v, bs)
  {
    PickPartitions(v, bs);
    PickLength(v, bs);
    cs := SplitOfBags(w, Pick(v, bs, true), Pick(v, bs, false));
  }

  // ---- Bit strings as masks ----

  function Pow2(n: nat): (r: nat)
    ensures r > 0
  {
    if n == 0 then 1 else 2 * Pow2(n - 1)
  }

  function Bits(mask: nat, n: nat): (r: seq<bool>)
    ensures |r| == n
  {
    if n == 0 then [] else [mask % 2 == 1] + Bits(mask / 2, n - 1)
  }

  function MaskOf(bs: seq<bool>): nat {
    if bs == [] then 0 else (if bs[0] then 1 else 0) + 2 * MaskOf(bs[1..])
  }

  lemma {:induction false} BitsOfMask(bs: seq<bool>)
    ensures MaskOf(bs) < Pow2(|bs|) && Bits(MaskOf(bs), |bs|) == bs
  {
    if bs != [] {
      BitsOfMask(bs[1..]);
      assert MaskOf(bs) / 2 == MaskOf(bs[1..]);
      assert bs == [bs[0]] + bs[1..];
    }
  }

  /** Bit i of the string is the bit a shift by i and a test of the lowest bit read. */
  lemma {:induction false} BitAt(mask: nat, n: nat, i: nat)
    requires i < n
    ensures Bits(mask, n)[i] == ((mask / Pow2(i)) % 2 == 1)
  {
    if i > 0 {
      BitAt(mask / 2, n - 1, i - 1);
      DivDiv(mask, Pow2(i - 1));
    }
  }

  lemma DivDiv(m: nat, p: nat)
    requires p > 0
    ensures (m / 2) / p == m / (2 * p)
  {
    var q, r := m / (2 * p), m % (2 * p);
    assert m == q * (2 * p) + r;
    assert m / 2 == q * p + r / 2;
    assert r / 2 < p;
    DivOf(m / 2, p, q, r / 2);
  }

  lemma DivOf(x: nat, p: nat, q: nat, r: nat)
    requires p > 0 && r < p && x == q * p + r
    ensures x / p == q
  {
    var d := x / p;
    assert x == d * p + x % p;
    MulMonotone(d + 1, q, p);
    MulMonotone(q + 1, d, p);
  }

  lemma MulMonotone(a: nat, b: nat, p: nat)
    ensures a <= b ==> a * p <= b * p
  {
  }

  lemma {:induction false} BitsOfComplement(mask: nat, n: nat)
    requires mask < Pow2(n)
    ensures Bits(Pow2(n) - 1 - mask, n) == Not(Bits(mask, n))
  {
    if n > 0 {
      var c := Pow2(n) - 1 - mask;
      assert c / 2 == Pow2(n - 1) - 1 - mask / 2;
      assert (c % 2 == 1) == !(mask % 2 == 1);
      BitsOfComplement(mask / 2, n - 1);
    }
  }

  /** The top bit of an n-bit mask is set exactly for the upper half of the masks. */
  lemma {:induction false} TopBit(mask: nat, n: nat)
    requires n > 0 && mask < Pow2(n)
    ensures Bits(mask, n)[n - 1] == (mask >= Pow2(n - 1))
  {
    if n > 1 {
      TopBit(mask / 2, n - 1);
    }
  }

  // ---- The ten-player choice ----

  /** A mask the scan considers: five of the ten bits set. */
  predicate IsSplit(mask: nat) {
    mask < 1024 && Ones(Bits(mask, 10)) == 5
  }

  function MaskPenalty(v: seq<int>, mask: nat): nat
    requires |v| == 10 && IsSplit(mask)
  {
    SplitPenalty(v, Bits(mask, 10))
  }

  /** Of two splits, the one with the lower penalty; on a tie the smaller mask. */
  predicate Before(v: seq<int>, k: nat, m: nat)
    requires |v| == 10 && IsSplit(k) && IsSplit(m)
  {
    MaskPenalty(v, k) < MaskPenalty(v, m) || (MaskPenalty(v, k) == MaskPenalty(v, m) && k < m)
  }

  /** The smallest mask among those of least penalty. */
  ghost predicate IsChosen(v: seq<int>, mask: nat)
    requires |v| == 10
  {
    IsSplit(mask) && forall k: nat | IsSplit(k) :: !Before(v, k, mask)
  }

  lemma SplitExists()
    ensures IsSplit(31)
  {
    var zeros := [false, false, false, false, false];
    assert Bits(0, 5) == zeros;
    assert Ones(zeros) == 0;
    OnesShift(0, 5);
    OnesShift(1, 6);
    OnesShift(3, 7);
    OnesShift(7, 8);
    OnesShift(15, 9);
  }

  lemma OnesShift(m: nat, n: nat)
    ensures Ones(Bits(2 * m + 1, n + 1)) == 1 + Ones(Bits(m, n))
  {
    assert (2 * m + 1) / 2 == m && (2 * m + 1) % 2 == 1;
    assert Bits(2 * m + 1, n + 1) == [true] + Bits(m, n);
    assert ([true] + Bits(m, n))[1..] == Bits(m, n);
  }

  /** Descend from any split to the chosen one: fewer points, or as few and a smaller mask. */
  lemma {:induction false} Descend(v: seq<int>, mask: nat) returns (best: nat)
    requires |v| == 10 && IsSplit(mask)
    ensures IsChosen(v, best)
    decreases MaskPenalty(v, mask), mask
  {
    hide MaskPenalty;
    hide IsSplit;
    if k: nat :| IsSplit(k) && Before(v, k, mask) {
      best := Descend(v, k);
    } else {
      best := mask;
    }
  }

  ghost function Chosen(v: seq<int>): (mask: nat)
    requires |v| == 10
    ensures IsChosen(v, mask)
  {
    assert exists m :: IsChosen(v, m) by {
      SplitExists();
      var m := Descend(v, 31);
    }
    var mask: nat :| IsChosen(v, mask);
    mask
  }

  lemma ChosenIsUnique(v: seq<int>, m: nat, k: nat)
    requires |v| == 10 && IsChosen(v, m) && IsChosen(v, k)
    ensures m == k
  {
    assert !Before(v, k, m) && !Before(v, m, k);
  }

  function MaskGap(v: seq<int>, mask: nat): nat
    requires |v| == 10
  {
    SplitGap(v, Bits(mask, 10))
  }

  /** No balanced split at all beats the chosen mask: the masks miss none. */
  lemma ChosenIsOptimal(v: seq<int>, mask: nat, bs: seq<bool>)
    requires |v| == 10 && IsChosen(v, mask) && Balanced(v, bs)
    ensures MaskPenalty(v, mask) <= SplitPenalty(v, bs)
  {
    BitsOfMask(bs);
    Pow2Ten();
    assert !Before(v, MaskOf(bs), mask);
  }

  lemma SplitIsBalanced(v: seq<int>, mask: nat)
    requires |v| == 10 && IsSplit(mask)
    ensures Balanced(v, Bits(mask, 10))
  {
  }

  lemma Pow2Ten()
    ensures Pow2(10) == 1024 && Pow2(9) == 512
  {
    assert Pow2(5) == 32;
    assert Pow2(9) == 16 * Pow2(5);
  }

  lemma SwapTeams(v: seq<int>, bs: seq<bool>)
    requires Balanced(v, bs)
    ensures Balanced(v, Not(bs)) && SplitPenalty(v, Not(bs)) == SplitPenalty(v, bs)
  {
    PickNot(v, bs, true);
    PickNot(v, bs, false);
    PickLength(v, bs);
    DistSymmetric(Sort(Pick(v, bs, true)), Sort(Pick(v, bs, false)));
  }

  /** Complementing a mask swaps the teams and keeps the penalty. */
  lemma ComplementSymmetry(v: seq<int>, mask: nat)
    requires |v| == 10 && IsSplit(mask)
    ensures IsSplit(1023 - mask) && MaskPenalty(v, 1023 - mask) == MaskPenalty(v, mask)
  {
    hide SplitPenalty;
    Pow2Ten();
    BitsOfComplement(mask, 10);
    SplitIsBalanced(v, mask);
    SwapTeams(v, Bits(mask, 10));
  }

  lemma {:induction false} DistSymmetric(x: seq<int>, y: seq<int>)
    requires |x| == |y|
    ensures Dist(x, y) == Dist(y, x)
  {
    if x != [] {
      DistSymmetric(x[1..], y[1..]);
    }
  }

  /** The last player harvested is always placed on team B. */
  lemma TenthOnTeamB(v: seq<int>, mask: nat)
    requires |v| == 10 && IsChosen(v, mask)
    ensures mask < 512 && !Bits(mask, 10)[9]
  {
    hide MaskPenalty;
    ComplementSymmetry(v, mask);
    Pow2Ten();
    TopBit(mask, 10);
    assert !Before(v, 1023 - mask, mask);
  }

  /** The least penalty is a property of the ten ratings, not of their order. */
  lemma OptimumIgnoresOrder(v: seq<int>, w: seq<int>, m: nat, k: nat)
    requires |v| == 10 && |w| == 10 && multiset(v) == multiset(w)
    requires IsChosen(v, m) && IsChosen(w, k)
    ensures MaskPenalty(v, m) == MaskPenalty(w, k)
  {
    var cs := SplitTransfers(v, w, Bits(m, 10));
    ChosenIsOptimal(w, k, cs);
    var ds := SplitTransfers(w, v, Bits(k, 10));
    ChosenIsOptimal(v, m, ds);
  }

  // ---- Shifting every rating ----

  function Shift(s: seq<int>, c: int): (r: seq<int>)
    ensures |r| == |s|
  {
    seq(|s|, i requires 0 <= i < |s| => s[i] + c)
  }

  lemma ShiftTail(s: seq<int>, c: int)
    requires s != []
    ensures Shift(s, c) == [s[0] + c] + Shift(s[1..], c) && Shift(s, c)[1..] == Shift(s[1..], c)
  {
  }

  lemma {:induction false} InsertShift(x: int, s: seq<int>, c: int)
    ensures Insert(x + c, Shift(s, c)) == Shift(Insert(x, s), c)
  {
    if s != [] && x > s[0] {
      ShiftTail(s, c);
      InsertShift(x, s[1..], c);
      ShiftTail(Insert(x, s), c);
      assert Insert(x, s)[1..] == Insert(x, s[1..]);
    }
  }

  lemma {:induction false} SortShift(s: seq<int>, c: int)
    ensures Sort(Shift(s, c)) == Shift(Sort(s), c)
  {
    hide *;
    if s == [] {
      EmptyShift(c);
    } else {
      ShiftTail(s, c);
      SortShift(s[1..], c);
      SortHead(s);
      SortHead(Shift(s, c));
      InsertShift(s[0], Sort(s[1..]), c);
    }
  }

  lemma EmptyShift(c: int)
    ensures Shift([], c) == [] && Sort([]) == []
  {
  }

  lemma SortHead(s: seq<int>)
    requires s != []
    ensures Sort(s) == Insert(s[0], Sort(s[1..]))
  {
    hide Insert;
  }

  lemma {:induction false} SumShift(s: seq<int>, c: int)
    ensures Sum(Shift(s, c)) == Sum(s) + c * |s|
  {
    if s != [] {
      ShiftTail(s, c);
      SumShift(s[1..], c);
    }
  }

  lemma {:induction false} DistShift(x: seq<int>, y: seq<int>, c: int)
    requires |x| == |y|
    ensures Dist(Shift(x, c), Shift(y, c)) == Dist(x, y)
  {
    if x != [] {
      ShiftTail(x, c);
      ShiftTail(y, c);
      DistShift(x[1..], y[1..], c);
    }
  }

  lemma {:induction false} PickShift(v: seq<int>, bs: seq<bool>, side: bool, c: int)
    requires |v| == |bs|
    ensures Pick(Shift(v, c), bs, side) == Shift(Pick(v, bs, side), c)
  {
    if v != [] {
      ShiftTail(v, c);
      PickShift(v[1..], bs[1..], side, c);
      if bs[0] == side {
        ShiftTail(Pick(v, bs, side), c);
      }
    }
  }

  lemma SplitShift(v: seq<int>, bs: seq<bool>, c: int)
    requires Balanced(v, bs)
    ensures SplitPenalty(Shift(v, c), bs) == SplitPenalty(v, bs)
    ensures SplitGap(Shift(v, c), bs) == SplitGap(v, bs)
  {
    var a, b := Pick(v, bs, true), Pick(v, bs, false);
    PickLength(v, bs);
    PickShift(v, bs, true, c);
    PickShift(v, bs, false, c);
    SortShift(a, c);
    SortShift(b, c);
    DistShift(Sort(a), Sort(b), c);
    SumShift(a, c);
    SumShift(b, c);
  }

  lemma BeforeIgnoresShift(v: seq<int>, k: nat, m: nat, c: int)
    requires |v| == 10 && IsSplit(k) && IsSplit(m)
    ensures Before(Shift(v, c), k, m) == Before(v, k, m)
  {
    hide SplitPenalty;
    SplitIsBalanced(v, k);
    SplitIsBalanced(v, m);
    SplitShift(v, Bits(k, 10), c);
    SplitShift(v, Bits(m, 10), c);
  }

  /** Adding a constant to every rating changes neither the chosen mask nor its gap
      and penalty. */
  lemma ChoiceIgnoresShift(v: seq<int>, mask: nat, c: int)
    requires |v| == 10 && IsChosen(v, mask)
    ensures IsChosen(Shift(v, c), mask)
    ensures MaskPenalty(Shift(v, c), mask) == MaskPenalty(v, mask)
    ensures MaskGap(Shift(v, c), mask) == MaskGap(v, mask)
  {
    hide Before;
    SplitShift(v, Bits(mask, 10), c);
    forall k: nat | IsSplit(k) ensures !Before(Shift(v, c), k, mask) {
      BeforeIgnoresShift(v, k, mask, c);
    }
  }

  // ---- The gap never exceeds the range ----

  function Evens(s: seq<int>): seq<int> {
    if |s| < 2 then [] else [s[0]] + Evens(s[2..])
  }

  function Odds(s: seq<int>): seq<int> {
    if |s| < 2 then [] else [s[1]] + Odds(s[2..])
  }

  /** Total difference within neighbouring pairs. */
  function PairGaps(s: seq<int>): int {
    if |s| < 2 then 0 else s[1] - s[0] + PairGaps(s[2..])
  }

  lemma {:induction false} PairUp(s: seq<int>)
    requires |s| % 2 == 0
    ensures |Evens(s)| == |Odds(s)|
    ensures multiset(Evens(s)) + multiset(Odds(s)) == multiset(s)
  {
    if s != [] {
      PairUp(s[2..]);
      assert s == [s[0]] + ([s[1]] + s[2..]);
      var x, y := multiset(Evens(s[2..])), multiset(Odds(s[2..]));
      assert multiset(Evens(s)) == multiset{s[0]} + x && multiset(Odds(s)) == multiset{s[1]} + y;
      Interleave(multiset{s[0]}, multiset{s[1]}, x, y);
    }
  }

  lemma Interleave(a: multiset<int>, b: multiset<int>, x: multiset<int>, y: multiset<int>)
    ensures (a + x) + (b + y) == a + (b + (x + y))
  {
  }

  lemma {:induction false} PairCost(s: seq<int>)
    requires Sorted(s) && |s| % 2 == 0 && |Evens(s)| == |Odds(s)|
    ensures Dist(Evens(s), Odds(s)) == PairGaps(s)
    ensures s != [] ==> PairGaps(s) <= s[|s| - 1] - s[0]
  {
    if s != [] {
      PairUp(s[2..]);
      PairCost(s[2..]);
      assert s[0] <= s[1] <= s[|s| - 1];
      if |s| > 2 {
        assert s[1] <= s[2];
      }
    }
  }

  /** For any even number of ratings, some balanced split scores at most twice the
      neighbour-pair gaps; the best split's team gap is half its penalty at most. */
  lemma PairSplit(v: seq<int>) returns (bs: seq<bool>)
    requires |v| % 2 == 0
    ensures Balanced(v, bs) && SplitPenalty(v, bs) <= 2 * PairGaps(Sort(v))
  {
    var s := Sort(v);
    PairUp(s);
    PairCost(s);
    var a, b := Evens(s), Odds(s);
    bs := SplitOfBags(v, a, b);
    SanctionDominatesGap(a, b);
    SortedPairingIsOptimal(Sort(a), Sort(b), a, b);
  }

  lemma GapWithinPairs(v: seq<int>, mask: nat)
    requires |v| == 10 && IsChosen(v, mask)
    ensures MaskGap(v, mask) <= PairGaps(Sort(v)) <= Sort(v)[9] - Sort(v)[0]
  {
    var bs := PairSplit(v);
    ChosenIsOptimal(v, mask, bs);
    PickLength(v, Bits(mask, 10));
    SanctionDominatesGap(Pick(v, Bits(mask, 10), true), Pick(v, Bits(mask, 10), false));
    PairUp(Sort(v));
    PairCost(Sort(v));
  }

  /** When all ratings lie within `range` of each other, the chosen teams' sums differ
      by at most `range`, and the per-player spread by at most a fifth of it. */
  lemma GapWithinRange(v: seq<int>, mask: nat, range: nat)
    requires |v| == 10 && IsChosen(v, mask)
    requires forall i, j :: 0 <= i < 10 && 0 <= j < 10 ==> v[i] - v[j] <= range
    ensures MaskGap(v, mask) <= range && MaskGap(v, mask) / 5 <= range / 5
  {
    GapWithinPairs(v, mask);
    var s := Sort(v);
    assert s[9] in multiset(v) && s[0] in multiset(v);
    var i, j :| 0 <= i < 10 && 0 <= j < 10 && v[i] == s[9] && v[j] == s[0];
  }
}
