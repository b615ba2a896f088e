/** src/snapshot.rs: writing, pruning and loading snapshot files in a directory whose
    writer may crash between, or in the middle of, any two file operations. */
module SnapshotFiles {
  import opened Base

  datatype Contents = Contents(createdMs: nat, lastId: string, players: seq<(int, u32)>)

  /** What reading a file yields: bytes that parse as a snapshot, or not. */
  datatype File = Torn | Whole(snap: Contents)

  type Files = map<string, File>

  // ---- File names ----

  function Decimal(n: nat): (s: string)
    ensures |s| > 0
  {
    if n < 10 then [Digit(n)] else Decimal(n / 10) + [Digit(n % 10)]
  }

  function Digit(d: nat): char
    requires d < 10
  {
    '0' + d as char
  }

  const PREFIX: string := "snapshot-"
  const SUFFIX: string := ".json"

  function Name(ms: nat): string {
    PREFIX + Decimal(ms) + SUFFIX
  }

  function TmpName(ms: nat): string {
    Name(ms) + ".tmp"
  }

  predicate StartsWith(s: string, p: string) {
    |p| <= |s| && s[..|p|] == p
  }

  predicate EndsWith(s: string, p: string) {
    |p| <= |s| && s[|s| - |p|..] == p
  }

  predicate IsSnapshotName(n: string) {
    StartsWith(n, PREFIX) && EndsWith(n, SUFFIX)
  }

  lemma NamesListed(ms: nat)
    ensures IsSnapshotName(Name(ms)) && !IsSnapshotName(TmpName(ms)) && TmpName(ms) != Name(ms)
  {
    var t := TmpName(ms);
    assert t[|t| - 1] == 'p';
    assert SUFFIX[4] == 'n' && t[|t| - 5..][4] == t[|t| - 1];
  }

  /** The two do not overlap: there is no dot in the first. */
  lemma PrefixThenSuffix(n: string)
    requires IsSnapshotName(n)
    ensures |n| >= |PREFIX| + |SUFFIX|
  {
    assert n[|n| - |SUFFIX|..][0] == n[|n| - |SUFFIX|] == '.';
    forall i | 0 <= i < |PREFIX| ensures n[i] != '.' {
      assert n[i] == n[..|PREFIX|][i] == PREFIX[i];
      assert PREFIX == ['s', 'n', 'a', 'p', 's', 'h', 'o', 't', '-'];
    }
  }

  /** The name of the program's files, and which names it takes for snapshots. */
  lemma NamesAre(ms: nat, n: string)
    ensures Name(ms) == "snapshot-" + Decimal(ms) + ".json" && TmpName(ms) == Name(ms) + ".tmp"
    ensures IsSnapshotName(n) <==> exists mid :: n == "snapshot-" + mid + ".json"
  {
    if IsSnapshotName(n) {
      PrefixThenSuffix(n);
      assert n == PREFIX + n[|PREFIX|..|n| - |SUFFIX|] + SUFFIX;
    }
    if mid :| n == "snapshot-" + mid + ".json" {
      assert n[..|PREFIX|] == PREFIX && n[|n| - |SUFFIX|..] == SUFFIX;
    }
  }

  // ---- Lexical order ----

  predicate LexLeq(a: string, b: string) {
    a == [] || (b != [] && (a[0] < b[0] || (a[0] == b[0] && LexLeq(a[1..], b[1..]))))
  }

  lemma SameStart(a: string, b: string)
    requires a != [] && b != []
    ensures forall k :: 0 < k <= |a| && k <= |b| && a[..k] == b[..k] ==> a[0] == b[0]
  {
    forall k | 0 < k <= |a| && k <= |b| && a[..k] == b[..k] ensures a[0] == b[0] {
      assert a[..k][0] == a[0] && b[..k][0] == b[0];
    }
  }

  /** A prefix, or smaller at the first place where they differ. */
  lemma {:induction false} LexIs(a: string, b: string)
    ensures LexLeq(a, b) <==> a <= b || exists k :: 0 <= k < |a| && k < |b| && a[..k] == b[..k] && a[k] < b[k]
  {
    if a != [] && b != [] && a[0] == b[0] {
      LexIs(a[1..], b[1..]);
      assert a == [a[0]] + a[1..] && b == [b[0]] + b[1..];
      if k :| 0 <= k < |a| - 1 && k < |b| - 1 && a[1..][..k] == b[1..][..k] && a[1..][k] < b[1..][k] {
        assert a[..k + 1] == [a[0]] + a[1..][..k] && b[..k + 1] == [b[0]] + b[1..][..k];
      }
      if k :| 0 <= k < |a| && k < |b| && a[..k] == b[..k] && a[k] < b[k] {
        assert k > 0;
        assert a[1..][..k - 1] == a[..k][1..] && b[1..][..k - 1] == b[..k][1..];
      }
    } else if a != [] && b != [] {
      if a[0] < b[0] {
        assert a[..0] == b[..0];
      }
      SameStart(a, b);
    }
  }

  lemma {:induction false} LexTotal(a: string, b: string)
    ensures LexLeq(a, b) || LexLeq(b, a)
    ensures LexLeq(a, b) && LexLeq(b, a) ==> a == b
    ensures LexLeq(a, a)
  {
    if a != [] {
      LexTotal(a[1..], a[1..]);
      if b != [] {
        LexTotal(a[1..], b[1..]);
        assert a == [a[0]] + a[1..] && b == [b[0]] + b[1..];
      }
    }
  }

  lemma {:induction false} LexTransitive(a: string, b: string, c: string)
    requires LexLeq(a, b) && LexLeq(b, c)
    ensures LexLeq(a, c)
  {
    if a != [] && a[0] == b[0] && b[0] == c[0] {
      LexTransitive(a[1..], b[1..], c[1..]);
    }
  }

  /** Strings of one length followed by anything: the first difference decides. */
  lemma {:induction false} LexAppend(x: string, y: string, a: string, b: string)
    requires |x| == |y|
    ensures LexLeq(x + a, y + b) <==> if x == y then LexLeq(a, b) else LexLeq(x, y)
  {
    if x == [] {
      assert x + a == a && y + b == b;
    } else {
      assert (x + a)[1..] == x[1..] + a && (y + b)[1..] == y[1..] + b;
      assert x == [x[0]] + x[1..] && y == [y[0]] + y[1..];
      LexAppend(x[1..], y[1..], a, b);
    }
  }

  lemma {:induction false} DecimalOrder(m: nat, n: nat)
    requires |Decimal(m)| == |Decimal(n)|
    ensures LexLeq(Decimal(m), Decimal(n)) <==> m <= n
    ensures Decimal(m) == Decimal(n) ==> m == n
    decreases m
  {
    if m < 10 && n < 10 {
    } else if m >= 10 && n >= 10 {
      DecimalOrder(m / 10, n / 10);
      LexAppend(Decimal(m / 10), Decimal(n / 10), [Digit(m % 10)], [Digit(n % 10)]);
      assert Decimal(m)[..|Decimal(m)| - 1] == Decimal(m / 10);
      assert Decimal(n)[..|Decimal(n)| - 1] == Decimal(n / 10);
      assert Decimal(m)[|Decimal(m)| - 1] == Digit(m % 10) && Decimal(n)[|Decimal(n)| - 1] == Digit(n % 10);
    }
  }

  /** Among timestamps with as many digits, the lexical order of the file names is the
      order of time. */
  lemma NameOrder(m: nat, n: nat)
    requires |Decimal(m)| == |Decimal(n)|
    ensures LexLeq(Name(m), Name(n)) <==> m <= n
    ensures Name(m) == Name(n) ==> m == n
  {
    var x, y := Decimal(m), Decimal(n);
    DecimalOrder(m, n);
    LexAppend(x, y, SUFFIX, SUFFIX);
    LexTotal(SUFFIX, SUFFIX);
    LexTotal(x, y);
    LexAppend(PREFIX, PREFIX, x + SUFFIX, y + SUFFIX);
    assert Name(m) == PREFIX + (x + SUFFIX) && Name(n) == PREFIX + (y + SUFFIX);
    assert Name(m)[|PREFIX|..|PREFIX| + |x|] == x && Name(n)[|PREFIX|..|PREFIX| + |y|] == y;
  }

  function Pow10(k: nat): (r: nat)
    ensures r > 0
  {
    if k == 0 then 1 else 10 * Pow10(k - 1)
  }

  /** How many digits a timestamp has: thirteen from 2001 to 2286. */
  lemma {:induction false} DigitCount(n: nat, k: nat)
    requires k > 0 && n < Pow10(k) && (k > 1 ==> n >= Pow10(k - 1))
    ensures |Decimal(n)| == k
  {
    if k > 1 {
      assert Pow10(k - 1) == 10 * Pow10(k - 2);
      DigitCount(n / 10, k - 1);
    }
  }

  lemma {:induction false} DecimalDigits(n: nat)
    ensures forall i :: 0 <= i < |Decimal(n)| ==> '0' <= Decimal(n)[i]
  {
    if n >= 10 {
      DecimalDigits(n / 10);
    }
  }

  lemma {:induction false} DecimalGrows(m: nat, n: nat)
    requires m <= n
    ensures |Decimal(m)| <= |Decimal(n)|
  {
    if m >= 10 {
      DecimalGrows(m / 10, n / 10);
    }
  }

  /** `n` without its last `j` digits. */
  function Leading(n: nat, j: nat): nat {
    if j == 0 then n else Leading(n / 10, j - 1)
  }

  lemma {:induction false} DecimalPrefix(n: nat, j: nat)
    requires j < |Decimal(n)|
    ensures Decimal(n)[..|Decimal(n)| - j] == Decimal(Leading(n, j))
  {
    if j > 0 {
      DecimalPrefix(n / 10, j - 1);
      var front := Decimal(n / 10);
      assert Decimal(n) == front + [Digit(n % 10)];
      assert Decimal(n)[..|front| - (j - 1)] == front[..|front| - (j - 1)];
    } else {
      assert Decimal(n)[..|Decimal(n)|] == Decimal(n);
    }
  }

  /** Dropping the last `j` digits is dividing by ten to the `j`. */
  lemma {:induction false} LeadingIs(n: nat, j: nat) returns (rest: nat)
    ensures n == Leading(n, j) * Pow10(j) + rest && rest < Pow10(j)
  {
    if j == 0 {
      rest := 0;
    } else {
      var r := LeadingIs(n / 10, j - 1);
      rest := 10 * r + n % 10;
      TenTimes(Leading(n, j), Pow10(j - 1), r, n % 10);
      assert n == 10 * (n / 10) + n % 10;
      hide *;
    }
  }

  lemma TenTimes(l: nat, p: nat, r: nat, d: nat)
    ensures 10 * (l * p + r) + d == l * (10 * p) + (10 * r + d)
  {
  }

  /** The digits of a timestamp are its decimal digits, the last one first in `j`. */
  lemma DigitsAre(n: nat, j: nat)
    requires j < |Decimal(n)|
    ensures Decimal(n)[|Decimal(n)| - 1 - j] as int == '0' as int + Leading(n, j) % 10
  {
    DecimalPrefix(n, j);
    var d := Decimal(Leading(n, j));
    assert d == Decimal(n)[..|Decimal(n)| - j];
    assert d[|d| - 1] == Decimal(n)[|d| - 1];
    hide Leading;
  }

  /** A file name ends sooner or goes on with a digit, which comes after the dot. */
  lemma SuffixFirst(rest: string)
    requires forall i :: 0 <= i < |rest| ==> '0' <= rest[i]
    ensures LexLeq(SUFFIX, rest + SUFFIX)
  {
    LexTotal(SUFFIX, SUFFIX);
    if rest == [] {
      assert rest + SUFFIX == SUFFIX;
    } else {
      assert (rest + SUFFIX)[0] == rest[0] && SUFFIX[0] == '.';
    }
  }

  /** For any two timestamps the names are in the order of time exactly when the earlier one
      is no greater than as many leading digits of the later. */
  lemma NameOrderIff(m: nat, n: nat)
    requires m <= n
    ensures |Decimal(m)| <= |Decimal(n)|
    ensures LexLeq(Name(m), Name(n)) <==> m <= Leading(n, |Decimal(n)| - |Decimal(m)|)
  {
    DecimalGrows(m, n);
    assert Name(m) == PREFIX + (Decimal(m) + SUFFIX) && Name(n) == PREFIX + (Decimal(n) + SUFFIX);
    hide *;
    NamesByDigits(m, n);
    LexAppend(PREFIX, PREFIX, Decimal(m) + SUFFIX, Decimal(n) + SUFFIX);
  }

  lemma NamesByDigits(m: nat, n: nat)
    requires |Decimal(m)| <= |Decimal(n)|
    ensures LexLeq(Decimal(m) + SUFFIX, Decimal(n) + SUFFIX) <==> m <= Leading(n, |Decimal(n)| - |Decimal(m)|)
  {
    hide *;
    var x, y, j := Decimal(m), Decimal(n), |Decimal(n)| - |Decimal(m)|;
    var lead, rest := y[..|x|], y[|x|..];
    DecimalPrefix(n, j);
    DecimalOrder(m, Leading(n, j));
    DecimalDigits(n);
    SuffixFirst(rest);
    LexTotal(x, lead);
    LexAppend(x, lead, SUFFIX, rest + SUFFIX);
    assert y + SUFFIX == lead + (rest + SUFFIX);
  }

  // ---- Listing ----

  predicate Descending(names: seq<string>) {
    forall i, j :: 0 <= i < j < |names| ==> names[i] != names[j] && LexLeq(names[j], names[i])
  }

  function Listed(files: Files): set<string> {
    set n | n in files && IsSnapshotName(n)
  }

  function Elements(s: seq<string>): set<string> {
    set n | n in s
  }

  /** The snapshot a restart loads: the contents of the lexically last listed file that
      parses, or none when there is none. */
  ghost predicate IsLatest(files: Files, r: Option<Contents>) {
    match r
    case None => forall n :: n in Listed(files) ==> files[n].Torn?
    case Some(c) => exists n :: n in Listed(files) && files[n] == Whole(c)
                      && forall m :: m in Listed(files) && files[m].Whole? ==> LexLeq(m, n)
  }

  lemma LatestUnique(files: Files, r: Option<Contents>, r': Option<Contents>)
    requires IsLatest(files, r) && IsLatest(files, r')
    ensures r == r'
  {
    if r.Some? && r'.Some? {
      var n :| n in Listed(files) && files[n] == Whole(r.value)
               && forall m :: m in Listed(files) && files[m].Whole? ==> LexLeq(m, n);
      var n' :| n' in Listed(files) && files[n'] == Whole(r'.value)
                && forall m :: m in Listed(files) && files[m].Whole? ==> LexLeq(m, n');
      LexTotal(n, n');
    }
  }

  /** A file that is not listed does not matter to loading. */
  lemma LatestIgnores(files: Files, files': Files, r: Option<Contents>)
    requires Listed(files') == Listed(files) && forall n :: n in Listed(files) ==> files'[n] == files[n]
    ensures IsLatest(files', r) <==> IsLatest(files, r)
  {
  }

  /** A whole file whose name comes last is the one loaded. */
  lemma LastIsLatest(files: Files, n: string, c: Contents)
    requires n in Listed(files) && files[n] == Whole(c) && forall m :: m in Listed(files) ==> LexLeq(m, n)
    ensures IsLatest(files, Some(c))
  {
  }

  /** What a crash may leave for the next start: the snapshot of before or the new one. */
  ghost predicate CrashSafe(before: Files, now: Files, written: Contents) {
    IsLatest(now, Some(written)) || forall r :: IsLatest(now, r) <==> IsLatest(before, r)
  }

  /** Names newer than `n`. */
  function Newer(names: set<string>, n: string): set<string> {
    set m | m in names && m != n && LexLeq(n, m)
  }

  lemma RankInList(list: seq<string>, i: nat)
    requires Descending(list) && i < |list|
    ensures |Newer(Elements(list), list[i])| == i
  {
    var newer := Newer(Elements(list), list[i]);
    forall m | m in newer ensures m in list[..i] {
      var j :| 0 <= j < |list| && list[j] == m;
      LexTotal(list[i], m);
      assert j < i;
    }
    forall m | m in list[..i] ensures m in newer {
    }
    assert newer == Elements(list[..i]);
    DistinctCount(list[..i]);
  }

  lemma {:induction false} DistinctCount(s: seq<string>)
    requires forall i, j :: 0 <= i < j < |s| ==> s[i] != s[j]
    ensures |Elements(s)| == |s|
  {
    if s != [] {
      DistinctCount(s[1..]);
      assert Elements(s) == {s[0]} + Elements(s[1..]);
    }
  }

  // ---- Sorting names ----

  function InsertName(x: string, s: seq<string>): seq<string> {
    if s == [] || LexLeq(s[0], x) then [x] + s else [s[0]] + InsertName(x, s[1..])
  }

  lemma {:induction false} InsertDescending(x: string, s: seq<string>)
    requires Descending(s) && x !in s
    ensures Descending(InsertName(x, s)) && Elements(InsertName(x, s)) == Elements(s) + {x}
  {
    if s == [] || LexLeq(s[0], x) {
      forall k | 0 <= k < |s| ensures LexLeq(s[k], x) {
        LexTotal(s[0], s[0]);
        if k > 0 { LexTransitive(s[k], s[0], x); }
      }
    } else {
      InsertDescending(x, s[1..]);
      LexTotal(s[0], x);
      var t := InsertName(x, s[1..]);
      assert forall k :: 0 <= k < |t| ==> t[k] in Elements(t);
      assert Elements(s) == {s[0]} + Elements(s[1..]);
      assert Elements([s[0]] + t) == {s[0]} + Elements(t);
    }
  }

  // ---- What pruning keeps ----

  /** Listed files with at least `keep` newer ones. */
  function Outdated(files: Files, keep: nat): set<string> {
    set n | n in Listed(files) && |Newer(Listed(files), n)| >= keep
  }

  ghost predicate Newest(files: Files, n: string) {
    forall m :: m in Listed(files) ==> LexLeq(m, n)
  }

  /** A directory part-way through pruning. */
  ghost predicate Between(files: Files, now: Files, keep: nat) {
    && files.Keys - Outdated(files, keep) <= now.Keys <= files.Keys
    && forall n :: n in now ==> now[n] == files[n]
  }

  lemma NothingRemoved(files: Files, keep: nat)
    ensures Between(files, files, keep)
  {
  }

  lemma RemoveBetween(files: Files, now: Files, keep: nat, n: string)
    requires Between(files, now, keep) && n in Outdated(files, keep)
    ensures Between(files, now - {n}, keep)
  {
  }

  lemma PruneNone(files: Files, stuck: set<string>)
    ensures files - (Elements([]) - stuck) == files
  {
  }

  lemma PruneNext(files: Files, s: seq<string>, n: string, stuck: set<string>)
    ensures files - (Elements(s + [n]) - stuck)
         == if n in stuck then files - (Elements(s) - stuck) else (files - (Elements(s) - stuck)) - {n}
  {
    assert Elements(s + [n]) == Elements(s) + {n};
    assert n in stuck ==> Elements(s + [n]) - stuck == Elements(s) - stuck;
    assert n !in stuck ==> Elements(s + [n]) - stuck == (Elements(s) - stuck) + {n};
  }

  lemma OutdatedIsTail(files: Files, list: seq<string>, keep: nat)
    requires Descending(list) && Elements(list) == Listed(files)
    ensures Outdated(files, keep) == Elements(list[Min(keep, |list|)..])
  {
    var cut := Min(keep, |list|);
    forall n | n in Listed(files) ensures n in Outdated(files, keep) <==> n in list[cut..] {
      var i :| 0 <= i < |list| && list[i] == n;
      RankInList(list, i);
      if i >= cut {
        assert list[cut..][i - cut] == n;
      }
    }
    forall n | n in list[cut..] ensures n in Listed(files) {
      assert n in list;
    }
  }

  lemma TmpIsSafe(before: Files, tmp: string, f: File, snap: Contents)
    requires !IsSnapshotName(tmp)
    ensures CrashSafe(before, before[tmp := f], snap)
  {
    forall r ensures IsLatest(before[tmp := f], r) <==> IsLatest(before, r) {
      LatestIgnores(before, before[tmp := f], r);
    }
  }

  lemma WrittenIsLatest(before: Files, written: Files, now: Files, path: string, keep: nat, snap: Contents)
    requires keep > 0 && Newest(before, path) && IsSnapshotName(path) && path in written && written[path] == Whole(snap)
    requires forall n :: n in written && n != path ==> n in before
    requires now == written || Between(written, now, keep)
    ensures CrashSafe(before, now, snap)
  {
    NewestStays(before, written, now, path, keep, snap);
  }

  lemma NewestStays(before: Files, written: Files, now: Files, path: string, keep: nat, snap: Contents)
    requires keep > 0 && Newest(before, path) && IsSnapshotName(path) && path in written && written[path] == Whole(snap)
    requires forall n :: n in written && n != path ==> n in before
    requires now == written || Between(written, now, keep)
    ensures IsLatest(now, Some(snap))
  {
    forall m | m in Listed(written) ensures LexLeq(m, path) {
      LexTotal(path, path);
    }
    forall m | m in Newer(Listed(written), path) ensures false {
      LexTotal(m, path);
    }
    assert Newer(Listed(written), path) == {};
    LastIsLatest(now, path, snap);
  }

  lemma SortSet(names: set<string>) returns (list: seq<string>)
    ensures Descending(list) && Elements(list) == names
  {
    if names == {} {
      list := [];
    } else {
      var n :| n in names;
      var rest := SortSet(names - {n});
      assert n !in Elements(rest);
      InsertDescending(n, rest);
      list := InsertName(n, rest);
    }
  }

  /** When every removal works, exactly the `keep` newest remain, or all if fewer. */
  lemma KeptCount(files: Files, keep: nat)
    ensures |Listed(files - Outdated(files, keep))| == Min(keep, |Listed(files)|)
  {
    var list := SortSet(Listed(files));
    var cut := Min(keep, |list|);
    OutdatedIsTail(files, list, keep);
    DistinctCount(list);
    DistinctCount(list[..cut]);
    var kept := Listed(files - Outdated(files, keep));
    assert list == list[..cut] + list[cut..];
    forall n | n in kept ensures n in list[..cut] {
      assert n in Elements(list);
    }
    forall n | n in list[..cut] ensures n in kept {
      var i :| 0 <= i < cut && list[i] == n;
      assert n in Elements(list);
      forall j | cut <= j < |list| ensures list[j] != n {
      }
    }
    assert kept == Elements(list[..cut]);
  }

  /** The snapshot just written under the newest name is the one a restart loads exactly
      when at least one is kept: keeping none deletes it too. */
  lemma LoadedIffKept(files: Files, path: string, keep: nat, snap: Contents)
    requires Newest(files, path) && IsSnapshotName(path)
    ensures var written := files[path := Whole(snap)];
            IsLatest(written - Outdated(written, keep), Some(snap)) <==> keep > 0
  {
    var written := files[path := Whole(snap)];
    var now := written - Outdated(written, keep);
    if keep > 0 {
      assert Between(written, now, keep);
      NewestStays(files, written, now, path, keep, snap);
    } else {
      assert Listed(now) == {};
    }
  }

  /** With timestamps that never go back and keep their number of digits, each new name is
      the newest, so crash safety applies to every write. */
  lemma FreshNameIsNewest(files: Files, ms: nat)
    requires forall n :: n in Listed(files) ==> exists k: nat :: k <= ms && |Decimal(k)| == |Decimal(ms)| && n == Name(k)
    ensures Newest(files, Name(ms))
  {
    forall n | n in Listed(files) ensures LexLeq(n, Name(ms)) {
      var k: nat :| k <= ms && |Decimal(k)| == |Decimal(ms)| && n == Name(k);
      NameOrder(k, ms);
    }
  }

  // ---- The directory ----

  datatype Fault = NoFault | WriteFails | RenameFails

  class Directory {
    var files: Files
    ghost var history: seq<Files>   // every state the directory has been in

    constructor ()
      ensures files == map[] && history == [files]
    {
      files := map[];
      history := [map[]];
    }

    /** The snapshot files, newest first. */
    method ListSnapshots() returns (list: seq<string>)
      ensures Descending(list) && Elements(list) == Listed(files)
    {
      list := [];
      var rest := files.Keys;
      while rest != {}
        invariant rest <= files.Keys
        invariant Descending(list) && Elements(list) == set n | n in files && n !in rest && IsSnapshotName(n)
        decreases |rest|
      {
        var n :| n in rest;
        rest := rest - {n};
        if IsSnapshotName(n) {
          assert n !in Elements(list);
          InsertDescending(n, list);
          list := InsertName(n, list);
        }
      }
    }

    ghost predicate Valid()
      reads this
    {
      history != [] && history[|history| - 1] == files
    }

    /** One atomic change of the directory. */
    method Become(now: Files)
      modifies this
      ensures Valid() && files == now && history == old(history) + [now]
    {
      files := now;
      history := history + [now];
    }

    /** Keep the `keep` newest files. A file in `stuck` cannot be removed; the failure is
        ignored. */
    method Prune(keep: nat, stuck: set<string>)
      requires Valid()
      modifies this
      ensures Valid() && old(history) <= history
      ensures files == old(files) - (Outdated(old(files), keep) - stuck)
      ensures forall k :: |old(history)| <= k < |history| ==> Between(old(files), history[k], keep)
    {
      hide Between;
      var list := ListSnapshots();
      ghost var was := files;
      OutdatedIsTail(was, list, keep);
      var tail := list[Min(keep, |list|)..];
      forall i | 0 <= i < |tail| ensures tail[i] in Outdated(was, keep) {
      }
      hide Outdated;
      hide Elements;
      NothingRemoved(was, keep);
      PruneNone(was, stuck);
      for i := 0 to |tail|
        invariant Valid() && old(history) <= history
        invariant files == was - (Elements(tail[..i]) - stuck)
        invariant Between(was, files, keep)
        invariant forall k :: |old(history)| <= k < |history| ==> Between(was, history[k], keep)
      {
        assert tail[..i + 1] == tail[..i] + [tail[i]];
        PruneNext(was, tail[..i], tail[i], stuck);
        if tail[i] !in stuck {
          RemoveBetween(was, files, keep, tail[i]);
          Become(files - {tail[i]});
        }
      }
      assert tail[..|tail|] == tail;
    }

    /** Write to a temporary file, rename it into place, prune. */
    method WriteSnapshot(snap: Contents, keep: nat, fault: Fault, stuck: set<string>) returns (ok: bool)
      requires Valid()
      modifies this
      ensures Valid() && old(history) <= history
      ensures ok <==> fault.NoFault?
      ensures var path, tmp := Name(snap.createdMs), TmpName(snap.createdMs);
              match fault
              case NoFault =>
                var written := (old(files) - {tmp})[path := Whole(snap)];
                files == written - (Outdated(written, keep) - stuck)
              case WriteFails => files == old(files)[tmp := Torn]
              case RenameFails => files == old(files)[tmp := Whole(snap)]
      ensures keep > 0 && Newest(old(files), Name(snap.createdMs)) ==>
                forall k :: |old(history)| <= k < |history| ==> CrashSafe(old(files), history[k], snap)
    {
      hide CrashSafe;
      hide Outdated;
      hide Newest;
      hide Between;
      hide Name;
      hide TmpName;
      hide IsSnapshotName;
      var path, tmp := Name(snap.createdMs), TmpName(snap.createdMs);
      ghost var before := files;
      NamesListed(snap.createdMs);
      // The bytes reach the temporary file piece by piece.
      Become(files[tmp := Torn]);
      TmpIsSafe(before, tmp, Torn, snap);
      if fault.WriteFails? {
        return false;
      }
      assert files[tmp := Whole(snap)] == before[tmp := Whole(snap)];
      Become(files[tmp := Whole(snap)]);
      TmpIsSafe(before, tmp, Whole(snap), snap);
      if fault.RenameFails? {
        return false;
      }
      assert files - {tmp} == before - {tmp};
      Become((files - {tmp})[path := Whole(snap)]);
      ghost var written, n := files, |history|;
      Prune(keep, stuck);
      if keep > 0 && Newest(before, path) {
        forall k | n - 1 <= k < |history| ensures CrashSafe(before, history[k], snap) {
          WrittenIsLatest(before, written, history[k], path, keep, snap);
        }
      }
      ok := true;
    }

    /** Load the newest snapshot that parses, skipping those that do not. */
    method LoadLatest() returns (r: Option<Contents>)
      ensures IsLatest(files, r)
    {
      var list := ListSnapshots();
      forall k | 0 <= k < |list| ensures list[k] in Listed(files) {
        assert list[k] in Elements(list);
      }
      for i := 0 to |list|
        invariant forall k :: 0 <= k < i ==> files[list[k]].Torn?
      {
        match files[list[i]] {
          case Whole(snap) =>
            forall m | m in Listed(files) && files[m].Whole? ensures LexLeq(m, list[i]) {
              var j :| 0 <= j < |list| && list[j] == m;
              LexTotal(m, m);
            }
            return Some(snap);
          case Torn =>
        }
      }
      forall n | n in Listed(files) ensures files[n].Torn? {
        assert n in Elements(list);
      }
      r := None;
    }
  }
}
