/** src/db.rs: the users, matches and match_players tables, the write-behind batch and
    the end of a match as all-or-nothing transactions. */
module Tables {
  import opened Base

  datatype Status = Active | Ended

  datatype Team = A | B

  datatype User = User(rating: int, inMatch: bool, played: int)

  datatype MatchRow = MatchRow(spread: int, status: Status)

  datatype PlayerRow = PlayerRow(matchId: int, userId: int, team: Team, rating: int, active: bool)

  /** One match of a batch, teams as (user id, rating) pairs. */
  datatype Entry = Entry(mid: int, spread: int, teamA: seq<(int, int)>, teamB: seq<(int, int)>)

  datatype Db = Db(users: map<int, User>, matches: map<int, MatchRow>, rows: seq<PlayerRow>, nextUser: int)

  // ---- What a batch asks for ----

  function TeamRows(mid: int, team: Team, members: seq<(int, int)>): (r: seq<PlayerRow>)
    ensures |r| == |members|
  {
    seq(|members|, i requires 0 <= i < |members| => PlayerRow(mid, members[i].0, team, members[i].1, true))
  }

  function EntryRows(e: Entry): seq<PlayerRow> {
    TeamRows(e.mid, A, e.teamA) + TeamRows(e.mid, B, e.teamB)
  }

  function BatchRows(batch: seq<Entry>): seq<PlayerRow> {
    if batch == [] then [] else EntryRows(batch[0]) + BatchRows(batch[1..])
  }

  /** Insert match rows, keeping the row already stored under an id. */
  function AddMatches(matches: map<int, MatchRow>, batch: seq<Entry>): (r: map<int, MatchRow>)
    ensures forall m :: m in matches ==> m in r && r[m] == matches[m]
    ensures forall i :: 0 <= i < |batch| ==> batch[i].mid in r
    ensures forall m :: m in r && m !in matches ==> r[m].status == Active && exists i :: 0 <= i < |batch| && batch[i].mid == m
  {
    if batch == [] then matches else
    var e := batch[|batch| - 1];
    var r := AddMatches(matches, batch[..|batch| - 1]);
    if e.mid in r then r else r[e.mid := MatchRow(e.spread, Active)]
  }

  /** A new match row carries the spread of the first entry of the batch under its id. */
  lemma {:induction false} AddedFrom(matches: map<int, MatchRow>, batch: seq<Entry>, m: int) returns (i: nat)
    requires m in AddMatches(matches, batch) && m !in matches
    ensures i < |batch| && batch[i].mid == m && AddMatches(matches, batch)[m] == MatchRow(batch[i].spread, Active)
    ensures forall j :: 0 <= j < i ==> batch[j].mid != m
    decreases |batch|
  {
    hide *;
    AddedLast(matches, batch);
    var n := |batch| - 1;
    if m in AddMatches(matches, batch[..n]) {
      i := AddedFrom(matches, batch[..n], m);
    } else {
      i := n;
      AllAdded(matches, batch, n);
    }
  }

  lemma AddedLast(matches: map<int, MatchRow>, batch: seq<Entry>)
    ensures batch == [] ==> AddMatches(matches, batch) == matches
    ensures batch != [] ==>
              var n := |batch| - 1;
              var r := AddMatches(matches, batch[..n]);
              AddMatches(matches, batch) == if batch[n].mid in r then r else r[batch[n].mid := MatchRow(batch[n].spread, Active)]
  {
  }

  lemma AllAdded(matches: map<int, MatchRow>, batch: seq<Entry>, n: nat)
    requires n <= |batch|
    ensures forall j :: 0 <= j < n ==> batch[j].mid in AddMatches(matches, batch[..n])
  {
    hide AddMatches;
    forall j | 0 <= j < n ensures batch[j].mid in AddMatches(matches, batch[..n]) {
      assert batch[..n][j] == batch[j];
    }
  }

  /** The partial unique index: no user has two active rows. */
  ghost predicate UniqueActive(rows: seq<PlayerRow>) {
    forall i, j :: 0 <= i < j < |rows| && rows[i].active && rows[j].active ==> rows[i].userId != rows[j].userId
  }

  function Ids(rows: seq<PlayerRow>): set<int> {
    set i | 0 <= i < |rows| :: rows[i].userId
  }

  /** One statement flags the listed users and adds one to each, however often listed. */
  function Bump(users: map<int, User>, ids: set<int>): map<int, User> {
    map u | u in users :: if u in ids then users[u].(inMatch := true, played := users[u].played + 1) else users[u]
  }

  ghost predicate Commits(db: Db, batch: seq<Entry>) {
    UniqueActive(db.rows + BatchRows(batch))
  }

  ghost function Inserted(db: Db, batch: seq<Entry>): Db {
    if batch == [] then db else
    var rows := BatchRows(batch);
    Db(Bump(db.users, Ids(rows)), AddMatches(db.matches, batch), db.rows + rows, db.nextUser)
  }

  /** The batch transaction: everything or nothing. */
  ghost function InsertBatch(db: Db, batch: seq<Entry>): Db {
    if Commits(db, batch) then Inserted(db, batch) else db
  }

  function Deactivate(rows: seq<PlayerRow>, mid: int): (r: seq<PlayerRow>)
    ensures |r| == |rows|
  {
    seq(|rows|, i requires 0 <= i < |rows| => if rows[i].matchId == mid then rows[i].(active := false) else rows[i])
  }

  predicate CanEnd(db: Db, mid: int) {
    mid in db.matches && db.matches[mid].status == Active
  }

  function EndMatch(db: Db, mid: int): Db {
    if CanEnd(db, mid)
    then db.(matches := db.matches[mid := db.matches[mid].(status := Ended)], rows := Deactivate(db.rows, mid))
    else db
  }

  function CreateUser(db: Db, rating: int): Db {
    db.(users := db.users[db.nextUser := User(rating, false, 0)], nextUser := db.nextUser + 1)
  }

  function CountOf(rows: seq<PlayerRow>, u: int): nat {
    if rows == [] then 0 else (if rows[0].userId == u then 1 else 0) + CountOf(rows[1..], u)
  }

  function CountMatch(rows: seq<PlayerRow>, mid: int): nat {
    if rows == [] then 0 else (if rows[0].matchId == mid then 1 else 0) + CountMatch(rows[1..], mid)
  }

  // ---- When a batch commits ----

  lemma {:induction false} BatchActive(batch: seq<Entry>)
    ensures forall i :: 0 <= i < |BatchRows(batch)| ==> BatchRows(batch)[i].active
  {
    if batch != [] {
      BatchActive(batch[1..]);
    }
  }

  ghost predicate DistinctUsers(rows: seq<PlayerRow>) {
    forall i, j :: 0 <= i < j < |rows| ==> rows[i].userId != rows[j].userId
  }

  ghost predicate Playing(db: Db, u: int) {
    exists i :: 0 <= i < |db.rows| && db.rows[i].userId == u && db.rows[i].active
  }

  /** A batch is stored exactly when it names nobody twice and nobody in an active match. */
  lemma CommitsIff(db: Db, batch: seq<Entry>)
    requires UniqueActive(db.rows)
    ensures Commits(db, batch) <==>
              DistinctUsers(BatchRows(batch)) && forall u :: u in Ids(BatchRows(batch)) ==> !Playing(db, u)
  {
    var rows := BatchRows(batch);
    var all := db.rows + rows;
    BatchActive(batch);
    if Commits(db, batch) {
      forall i, j | 0 <= i < j < |rows| ensures rows[i].userId != rows[j].userId {
        assert all[|db.rows| + i] == rows[i] && all[|db.rows| + j] == rows[j];
      }
      forall u | u in Ids(rows) ensures !Playing(db, u) {
        var j :| 0 <= j < |rows| && rows[j].userId == u;
        assert all[|db.rows| + j] == rows[j];
        forall i | 0 <= i < |db.rows| && db.rows[i].active ensures db.rows[i].userId != u {
          assert all[i] == db.rows[i];
        }
      }
    }
    if DistinctUsers(rows) && forall u :: u in Ids(rows) ==> !Playing(db, u) {
      forall i, j | 0 <= i < j < |all| && all[i].active && all[j].active ensures all[i].userId != all[j].userId {
        if i < |db.rows| <= j {
          assert all[j].userId in Ids(rows);
        }
      }
    }
  }

  /** Delivering a batch changes nothing exactly when it names somebody twice or somebody
      still playing: only that, and not the match id, absorbs a redelivery. */
  lemma AbsorbedIff(db: Db, batch: seq<Entry>)
    requires UniqueActive(db.rows) && BatchRows(batch) != []
    ensures InsertBatch(db, batch) == db <==>
              !DistinctUsers(BatchRows(batch)) || exists u :: u in Ids(BatchRows(batch)) && Playing(db, u)
  {
    CommitsIff(db, batch);
    if Commits(db, batch) {
      assert |InsertBatch(db, batch).rows| == |db.rows| + |BatchRows(batch)|;
    }
  }

  // ---- Invariants ----

  ghost predicate Counted(db: Db) {
    && (forall u :: u in db.users ==>
          db.users[u].played == CountOf(db.rows, u) && (db.users[u].inMatch <==> CountOf(db.rows, u) > 0))
    && (forall u :: u in db.users ==> u < db.nextUser)
    && (forall i :: 0 <= i < |db.rows| ==> db.rows[i].userId < db.nextUser)
  }

  ghost predicate Referenced(db: Db) {
    forall i :: 0 <= i < |db.rows| ==> db.rows[i].matchId in db.matches
  }

  /** A row is active exactly while its match is. */
  ghost predicate Mirrors(db: Db) {
    forall i :: 0 <= i < |db.rows| ==>
      db.rows[i].matchId in db.matches && (db.rows[i].active <==> db.matches[db.rows[i].matchId].status == Active)
  }

  ghost predicate TablesOk(db: Db) {
    UniqueActive(db.rows) && Counted(db) && Referenced(db)
  }

  lemma {:induction false} CountConcat(x: seq<PlayerRow>, y: seq<PlayerRow>, u: int)
    ensures CountOf(x + y, u) == CountOf(x, u) + CountOf(y, u)
  {
    if x == [] {
      assert x + y == y;
    } else {
      assert (x + y)[1..] == x[1..] + y;
      CountConcat(x[1..], y, u);
    }
  }

  lemma {:induction false} CountAbsent(rows: seq<PlayerRow>, u: int)
    requires forall i :: 0 <= i < |rows| ==> rows[i].userId != u
    ensures CountOf(rows, u) == 0
  {
    if rows != [] {
      CountAbsent(rows[1..], u);
    }
  }

  /** Distinct users have one row each, which is why adding one per user listed agrees
      with the number of rows. */
  lemma {:induction false} CountDistinct(rows: seq<PlayerRow>, u: int)
    requires DistinctUsers(rows)
    ensures CountOf(rows, u) == if u in Ids(rows) then 1 else 0
  {
    if rows == [] {
    } else if rows[0].userId == u {
      CountAbsent(rows[1..], u);
    } else {
      CountDistinct(rows[1..], u);
      if u in Ids(rows) {
        var i :| 0 <= i < |rows| && rows[i].userId == u;
        assert rows[1..][i - 1].userId == u;
      } else {
        CountAbsent(rows, u);
      }
    }
  }

  lemma {:induction false} RowMatch(batch: seq<Entry>, i: nat) returns (k: nat)
    requires i < |BatchRows(batch)|
    ensures k < |batch| && batch[k].mid == BatchRows(batch)[i].matchId
  {
    var n := |EntryRows(batch[0])|;
    if i < n {
      k := 0;
    } else {
      var j := RowMatch(batch[1..], i - n);
      k := j + 1;
    }
  }

  lemma BatchReferenced(matches: map<int, MatchRow>, batch: seq<Entry>)
    ensures forall i :: 0 <= i < |BatchRows(batch)| ==> BatchRows(batch)[i].matchId in AddMatches(matches, batch)
  {
    forall i | 0 <= i < |BatchRows(batch)|
      ensures BatchRows(batch)[i].matchId in AddMatches(matches, batch)
    {
      var k := RowMatch(batch, i);
    }
  }

  ghost predicate KnownUsers(db: Db, batch: seq<Entry>) {
    forall u :: u in Ids(BatchRows(batch)) ==> u < db.nextUser
  }

  lemma InsertKeeps(db: Db, batch: seq<Entry>)
    requires TablesOk(db) && KnownUsers(db, batch)
    ensures TablesOk(InsertBatch(db, batch))
  {
    if Commits(db, batch) && batch != [] {
      var rows := BatchRows(batch);
      var db' := Inserted(db, batch);
      CommitsIff(db, batch);
      forall u | u in db'.users
        ensures db'.users[u].played == CountOf(db'.rows, u)
        ensures db'.users[u].inMatch <==> CountOf(db'.rows, u) > 0
      {
        CountConcat(db.rows, rows, u);
        CountDistinct(rows, u);
      }
      forall i | 0 <= i < |rows| ensures rows[i].userId < db.nextUser {
        assert rows[i].userId in Ids(rows);
      }
      BatchReferenced(db.matches, batch);
    }
  }

  lemma {:induction false} CountDeactivated(rows: seq<PlayerRow>, mid: int, u: int)
    ensures CountOf(Deactivate(rows, mid), u) == CountOf(rows, u)
  {
    if rows != [] {
      assert Deactivate(rows, mid)[1..] == Deactivate(rows[1..], mid);
      CountDeactivated(rows[1..], mid, u);
    }
  }

  lemma EndKeeps(db: Db, mid: int)
    requires TablesOk(db)
    ensures TablesOk(EndMatch(db, mid))
    ensures Mirrors(db) ==> Mirrors(EndMatch(db, mid))
  {
    if CanEnd(db, mid) {
      forall u | u in db.users ensures CountOf(Deactivate(db.rows, mid), u) == CountOf(db.rows, u) {
        CountDeactivated(db.rows, mid, u);
      }
    }
  }

  lemma CreateKeeps(db: Db, rating: int)
    requires TablesOk(db)
    ensures TablesOk(CreateUser(db, rating))
    ensures Mirrors(db) ==> Mirrors(CreateUser(db, rating))
  {
    CountAbsent(db.rows, db.nextUser);
  }

  ghost predicate NoneEnded(db: Db, batch: seq<Entry>) {
    forall i :: 0 <= i < |BatchRows(batch)| ==>
      var m := BatchRows(batch)[i].matchId; m in db.matches ==> db.matches[m].status == Active
  }

  /** A stored batch keeps rows and matches in step exactly when none of its rows is for a
      match that has already ended. */
  lemma MirrorsIff(db: Db, batch: seq<Entry>)
    requires Mirrors(db) && Commits(db, batch) && batch != []
    ensures Mirrors(Inserted(db, batch)) <==> NoneEnded(db, batch)
  {
    var rows := BatchRows(batch);
    var db' := Inserted(db, batch);
    BatchActive(batch);
    BatchReferenced(db.matches, batch);
    forall i | 0 <= i < |rows| ensures db'.rows[|db.rows| + i] == rows[i] {
    }
    if Mirrors(db') {
      forall i | 0 <= i < |rows|
        ensures rows[i].matchId in db.matches ==> db.matches[rows[i].matchId].status == Active
      {
        assert db'.rows[|db.rows| + i] == rows[i];
      }
    }
  }

  /** Redelivery after the match has ended is not absorbed: it stores active rows for an
      ended match. */
  lemma LateRedelivery(e: Entry, db: Db)
    requires TablesOk(db) && Mirrors(db) && e.mid !in db.matches
    requires EntryRows(e) != [] && Commits(db, [e])
    ensures var ended := EndMatch(InsertBatch(db, [e]), e.mid);
            Mirrors(ended) && Commits(ended, [e]) && !Mirrors(InsertBatch(ended, [e]))
  {
    var rows := EntryRows(e);
    assert BatchRows([e]) == rows + BatchRows([]);
    assert BatchRows([e]) == rows;
    var stored := Inserted(db, [e]);
    MirrorsIff(db, [e]);
    assert forall i :: 0 <= i < |rows| ==> rows[i].matchId == e.mid;
    var ended := EndMatch(stored, e.mid);
    assert ended.rows == Deactivate(stored.rows, e.mid);
    CommitsIff(db, [e]);
    EndedUnique(stored.rows, e.mid);
    forall u | u in Ids(rows) ensures !Playing(ended, u) {
      forall i | 0 <= i < |ended.rows| && ended.rows[i].active ensures ended.rows[i].userId != u {
        assert ended.rows[i] == stored.rows[i] && i < |db.rows|;
        assert db.rows[i].active;
      }
    }
    CommitsIff(ended, [e]);
    MirrorsIff(ended, [e]);
    assert BatchRows([e])[0].matchId == e.mid && ended.matches[e.mid].status == Ended;
  }

  lemma EndedUnique(rows: seq<PlayerRow>, mid: int)
    requires UniqueActive(rows)
    ensures UniqueActive(Deactivate(rows, mid))
  {
  }

  /** After a match ends its players are in no active match, so they can be stored in a
      new one. */
  lemma EndFrees(db: Db, mid: int, u: int)
    requires TablesOk(db) && Mirrors(db) && CanEnd(db, mid)
    requires exists i :: 0 <= i < |db.rows| && db.rows[i].matchId == mid && db.rows[i].userId == u
    ensures !Playing(EndMatch(db, mid), u)
  {
    var ended := EndMatch(db, mid);
    var k :| 0 <= k < |db.rows| && db.rows[k].matchId == mid && db.rows[k].userId == u;
    assert db.rows[k].active;
    forall i | 0 <= i < |ended.rows| && ended.rows[i].userId == u ensures !ended.rows[i].active {
      assert db.rows[i].userId == db.rows[k].userId && (i < k || i == k || k < i);
    }
  }

  // ---- Every sequence of transactions ----

  datatype Txn = Create(rating: int) | Insert(batch: seq<Entry>) | End(mid: int)

  ghost function Run(db: Db, t: Txn): Db {
    match t
    case Create(rating) => CreateUser(db, rating)
    case Insert(batch) => InsertBatch(db, batch)
    case End(mid) => EndMatch(db, mid)
  }

  // ---- What each transaction does ----

  ghost predicate InTeam(team: seq<(int, int)>, u: int) {
    exists i :: 0 <= i < |team| && team[i].0 == u
  }

  /** Some match of the batch has the user on one of its teams. */
  ghost predicate Names(batch: seq<Entry>, u: int) {
    exists k :: 0 <= k < |batch| && (InTeam(batch[k].teamA, u) || InTeam(batch[k].teamB, u))
  }

  /** The rows of one match: a row for each player of either team, active. */
  lemma EntryRowsAre(e: Entry)
    ensures |EntryRows(e)| == |e.teamA| + |e.teamB|
    ensures forall i :: 0 <= i < |e.teamA| ==> EntryRows(e)[i] == PlayerRow(e.mid, e.teamA[i].0, A, e.teamA[i].1, true)
    ensures forall i :: 0 <= i < |e.teamB| ==>
              EntryRows(e)[|e.teamA| + i] == PlayerRow(e.mid, e.teamB[i].0, B, e.teamB[i].1, true)
    ensures BatchRows([e]) == EntryRows(e)
  {
    assert [e][1..] == [];
    assert BatchRows([e]) == EntryRows(e) + BatchRows([e][1..]);
  }

  lemma {:induction false} BatchRowsConcat(x: seq<Entry>, y: seq<Entry>)
    ensures BatchRows(x + y) == BatchRows(x) + BatchRows(y)
  {
    if x == [] {
      assert x + y == y;
    } else {
      assert (x + y)[1..] == x[1..] + y;
      BatchRowsConcat(x[1..], y);
    }
  }

  lemma EntryIds(e: Entry, u: int)
    ensures u in Ids(EntryRows(e)) <==> InTeam(e.teamA, u) || InTeam(e.teamB, u)
  {
    EntryRowsAre(e);
    var rows := EntryRows(e);
    hide EntryRows;
    if u in Ids(rows) {
      var i :| 0 <= i < |rows| && rows[i].userId == u;
      if i < |e.teamA| {
        assert e.teamA[i].0 == u;
      } else {
        assert rows[|e.teamA| + (i - |e.teamA|)].userId == e.teamB[i - |e.teamA|].0;
      }
    }
    if InTeam(e.teamA, u) {
      var i :| 0 <= i < |e.teamA| && e.teamA[i].0 == u;
      assert rows[i].userId == u;
    }
    if InTeam(e.teamB, u) {
      var i :| 0 <= i < |e.teamB| && e.teamB[i].0 == u;
      assert rows[|e.teamA| + i].userId == u;
    }
  }

  lemma {:induction false} BatchIds(batch: seq<Entry>, u: int)
    ensures u in Ids(BatchRows(batch)) <==> Names(batch, u)
  {
    if batch != [] {
      var e, rest := batch[0], batch[1..];
      BatchIds(rest, u);
      EntryIds(e, u);
      IdsConcat(EntryRows(e), BatchRows(rest));
      hide EntryRows;
      hide Ids;
      if Names(batch, u) {
        var k :| 0 <= k < |batch| && (InTeam(batch[k].teamA, u) || InTeam(batch[k].teamB, u));
        assert k > 0 ==> rest[k - 1] == batch[k];
      }
      if Names(rest, u) {
        var k :| 0 <= k < |rest| && (InTeam(rest[k].teamA, u) || InTeam(rest[k].teamB, u));
        assert batch[k + 1] == rest[k];
      }
    }
  }

  /** The users after a transaction: a sign-up adds one under the next id; a batch that
      commits flags and counts exactly the users it names; nobody else changes and nobody
      goes. */
  lemma UsersAfter(db: Db, t: Txn)
    ensures var db' := Run(db, t);
            match t
            case Create(rating) =>
              && db'.users.Keys == db.users.Keys + {db.nextUser} && db'.nextUser == db.nextUser + 1
              && db'.users[db.nextUser] == User(rating, false, 0)
              && forall u :: u in db.users && u != db.nextUser ==> db'.users[u] == db.users[u]
            case Insert(batch) =>
              && db'.users.Keys == db.users.Keys && db'.nextUser == db.nextUser
              && forall u :: u in db.users ==>
                   db'.users[u] == if Commits(db, batch) && Names(batch, u)
                                   then User(db.users[u].rating, true, db.users[u].played + 1) else db.users[u]
            case End(_) => db'.users == db.users && db'.nextUser == db.nextUser
  {
    if t.Insert? {
      hide Commits;
      forall u | u in db.users
        ensures Run(db, t).users[u] == if Commits(db, t.batch) && Names(t.batch, u)
                                       then User(db.users[u].rating, true, db.users[u].played + 1) else db.users[u]
      {
        BatchIds(t.batch, u);
      }
    }
  }

  /** The matches and rows after a transaction: a batch that commits appends its rows and
      stores the matches not yet there, and the end of an active match ends it and its rows;
      nothing else changes. */
  lemma RowsAfter(db: Db, t: Txn)
    ensures var db' := Run(db, t);
            match t
            case Create(_) => db'.matches == db.matches && db'.rows == db.rows
            case Insert(batch) =>
              if Commits(db, batch)
              then db'.rows == db.rows + BatchRows(batch)
                   && (forall m :: m in db'.matches <==> m in db.matches || exists k :: 0 <= k < |batch| && batch[k].mid == m)
                   && (forall m :: m in db.matches ==> db'.matches[m] == db.matches[m])
              else db'.matches == db.matches && db'.rows == db.rows
            case End(mid) =>
              && db'.matches.Keys == db.matches.Keys && |db'.rows| == |db.rows|
              && var ends := mid in db.matches && db.matches[mid].status == Active;
                 && (forall m :: m in db.matches ==>
                       db'.matches[m] == if ends && m == mid then MatchRow(db.matches[m].spread, Ended) else db.matches[m])
                 && (forall i :: 0 <= i < |db.rows| ==>
                       var r := db.rows[i];
                       db'.rows[i] == if ends && r.matchId == mid then PlayerRow(mid, r.userId, r.team, r.rating, false) else r)
  {
    if t.Insert? {
      hide Commits;
      hide Bump;
      var all := AddMatches(db.matches, t.batch);
    }
  }

  lemma {:induction false} CountMatchConcat(x: seq<PlayerRow>, y: seq<PlayerRow>, mid: int)
    ensures CountMatch(x + y, mid) == CountMatch(x, mid) + CountMatch(y, mid)
  {
    if x == [] {
      assert x + y == y;
    } else {
      assert (x + y)[1..] == x[1..] + y;
      CountMatchConcat(x[1..], y, mid);
    }
  }

  /** The number reported as freed is the number of rows of the match. */
  lemma {:induction false} CountMatchIs(rows: seq<PlayerRow>, mid: int)
    ensures CountMatch(rows, mid) == |set i | 0 <= i < |rows| && rows[i].matchId == mid|
  {
    if rows != [] {
      var n := |rows| - 1;
      var last, front := rows[n], rows[..n];
      CountMatchIs(front, mid);
      assert rows == front + [last];
      CountMatchConcat(front, [last], mid);
      var s := set i | 0 <= i < |front| && front[i].matchId == mid;
      assert (set i | 0 <= i < |rows| && rows[i].matchId == mid) == if last.matchId == mid then s + {n} else s;
    }
  }

  /** Batches name only users the users table has issued. */
  ghost predicate Known(db: Db, ts: seq<Txn>)
    decreases |ts|
  {
    ts != [] ==>
      && (ts[0].Insert? ==> KnownUsers(db, ts[0].batch))
      && Known(Run(db, ts[0]), ts[1..])
  }

  /** No batch row is for a match already ended when it is stored. */
  ghost predicate Fresh(db: Db, ts: seq<Txn>)
    decreases |ts|
  {
    ts != [] ==>
      && (ts[0].Insert? ==> NoneEnded(db, ts[0].batch))
      && Fresh(Run(db, ts[0]), ts[1..])
  }

  ghost function RunAll(db: Db, ts: seq<Txn>): Db
    decreases |ts|
  {
    if ts == [] then db else RunAll(Run(db, ts[0]), ts[1..])
  }

  const EMPTY: Db := Db(map[], map[], [], 1)

  lemma {:induction false} RunKeeps(db: Db, ts: seq<Txn>)
    requires TablesOk(db) && Known(db, ts)
    ensures TablesOk(RunAll(db, ts))
    ensures Mirrors(db) && Fresh(db, ts) ==> Mirrors(RunAll(db, ts))
    decreases |ts|
  {
    if ts != [] {
      match ts[0] {
        case Create(rating) => CreateKeeps(db, rating);
        case Insert(batch) =>
          InsertKeeps(db, batch);
          if Mirrors(db) && Commits(db, batch) && batch != [] { MirrorsIff(db, batch); }
        case End(mid) => EndKeeps(db, mid);
      }
      RunKeeps(Run(db, ts[0]), ts[1..]);
    }
  }

  /** Over every sequence of sign-ups, batches and match ends: nobody is in two active
      matches, everyone's match count is the number of their rows, in_match means having
      ever been in a match, and, if no ended match is redelivered, a row is active exactly
      while its match is. */
  lemma TablesStayOk(ts: seq<Txn>)
    requires Known(EMPTY, ts)
    ensures TablesOk(RunAll(EMPTY, ts))
    ensures Fresh(EMPTY, ts) ==> Mirrors(RunAll(EMPTY, ts))
  {
    RunKeeps(EMPTY, ts);
  }

  // ---- The database object ----

  class Database {
    var users: map<int, User>
    var matches: map<int, MatchRow>
    var rows: seq<PlayerRow>
    var nextUser: int

    constructor ()
      ensures State() == EMPTY
    {
      users, matches, rows, nextUser := map[], map[], [], 1;
    }

    function State(): Db
      reads this
    {
      Db(users, matches, rows, nextUser)
    }

    method Create(rating: int) returns (id: int)
      modifies this
      ensures State() == CreateUser(old(State()), rating) && id == old(nextUser)
    {
      id := nextUser;
      users := users[id := User(rating, false, 0)];
      nextUser := nextUser + 1;
    }

    /** Persist a batch in one transaction. It fails, changing nothing, when there is no
        connection or when the unique index is violated. */
    method InsertMatchBatch(batch: seq<Entry>, connected: bool) returns (ok: bool)
      requires UniqueActive(rows)
      modifies this
      ensures ok <==> batch == [] || (connected && Commits(old(State()), batch))
      ensures State() == if ok then Inserted(old(State()), batch) else old(State())
    {
      if batch == [] {
        return true;
      }
      if !connected {
        return false;
      }
      var playerRows, userIds := Collect(batch);
      BatchActive(batch);
      var unique := IndexAdmits(playerRows);
      if !unique {
        return false;
      }
      var stored := StoreMatches(batch);
      matches := stored;
      rows := rows + playerRows;
      users := Bump(users, userIds);
      ok := true;
    }

    /** Gather the player rows and the user ids of the whole batch. */
    static method Collect(batch: seq<Entry>) returns (playerRows: seq<PlayerRow>, userIds: set<int>)
      ensures playerRows == BatchRows(batch) && userIds == Ids(playerRows)
    {
      hide Ids;
      hide TeamRows;
      playerRows, userIds := [], {};
      NoIds();
      for k := 0 to |batch|
        invariant playerRows + BatchRows(batch[k..]) == BatchRows(batch)
        invariant userIds == Ids(playerRows)
      {
        var e := batch[k];
        assert batch[k..][0] == e && batch[k..][1..] == batch[k + 1..];
        var a := CollectTeam(e.mid, A, e.teamA);
        var b := CollectTeam(e.mid, B, e.teamB);
        IdsConcat(playerRows, a + b);
        Regroup(playerRows, a + b, BatchRows(batch[k + 1..]));
        playerRows := playerRows + (a + b);
        userIds := userIds + Ids(a + b);
      }
      assert batch[|batch|..] == [];
    }

    static method CollectTeam(mid: int, team: Team, members: seq<(int, int)>) returns (out: seq<PlayerRow>)
      ensures out == TeamRows(mid, team, members)
    {
      out := [];
      for i := 0 to |members|
        invariant out == TeamRows(mid, team, members[..i])
      {
        out := out + [PlayerRow(mid, members[i].0, team, members[i].1, true)];
      }
      assert members[..|members|] == members;
    }

    /** The unique index checks each new row against the rows stored and those before it. */
    method IndexAdmits(playerRows: seq<PlayerRow>) returns (unique: bool)
      requires UniqueActive(rows) && forall i :: 0 <= i < |playerRows| ==> playerRows[i].active
      ensures unique <==> UniqueActive(rows + playerRows)
    {
      var taken := set i | 0 <= i < |rows| && rows[i].active :: rows[i].userId;
      assert rows + playerRows[..0] == rows;
      for k := 0 to |playerRows|
        invariant taken == set i | 0 <= i < |rows + playerRows[..k]| && (rows + playerRows[..k])[i].active :: (rows + playerRows[..k])[i].userId
        invariant UniqueActive(rows + playerRows[..k])
      {
        IndexStep(rows + playerRows[..k], playerRows[k]);
        assert rows + playerRows[..k + 1] == (rows + playerRows[..k]) + [playerRows[k]];
        if playerRows[k].userId in taken {
          NotPrefix(rows + playerRows[..k + 1], rows + playerRows);
          return false;
        }
        taken := taken + {playerRows[k].userId};
      }
      assert playerRows[..|playerRows|] == playerRows;
      unique := true;
    }

    method StoreMatches(batch: seq<Entry>) returns (stored: map<int, MatchRow>)
      ensures stored == AddMatches(matches, batch)
    {
      stored := matches;
      for k := 0 to |batch|
        invariant stored == AddMatches(matches, batch[..k])
      {
        assert batch[..k + 1][..k] == batch[..k] && batch[..k + 1][k] == batch[k];
        assert batch[..k + 1] != [];
        if batch[k].mid !in stored {
          stored := stored[batch[k].mid := MatchRow(batch[k].spread, Active)];
        }
      }
      assert batch[..|batch|] == batch;
    }

    /** End an active match; the number of its rows, or nothing when there is none. */
    method End(mid: int, connected: bool) returns (freed: Option<nat>)
      modifies this
      ensures freed == if connected && CanEnd(old(State()), mid) then Some(CountMatch(old(rows), mid)) else None
      ensures State() == if freed.Some? then EndMatch(old(State()), mid) else old(State())
    {
      if !connected || mid !in matches || matches[mid].status != Active {
        return None;
      }
      matches := matches[mid := matches[mid].(status := Ended)];
      var done, n := [], 0;
      for i := 0 to |rows|
        invariant done == Deactivate(rows[..i], mid)
        invariant n + CountMatch(rows[i..], mid) == CountMatch(rows, mid)
        invariant rows == old(rows) && users == old(users) && nextUser == old(nextUser)
        invariant matches == old(matches)[mid := old(matches)[mid].(status := Ended)]
      {
        assert rows[i..][1..] == rows[i + 1..];
        if rows[i].matchId == mid {
          done := done + [rows[i].(active := false)];
          n := n + 1;
        } else {
          done := done + [rows[i]];
        }
      }
      assert rows[..|rows|] == rows;
      rows := done;
      freed := Some(n);
    }

    /** The match of the first active row of a player, if any. */
    method ActiveMatchOf(player: int) returns (m: Option<int>)
      ensures m.Some? <==> Playing(State(), player)
      ensures m.Some? ==> exists i :: 0 <= i < |rows| && rows[i] == rows[i].(userId := player, active := true, matchId := m.value)
      ensures m.Some? && UniqueActive(rows) ==>
                forall i :: 0 <= i < |rows| && rows[i].userId == player && rows[i].active ==> rows[i].matchId == m.value
    {
      for i := 0 to |rows|
        invariant forall k :: 0 <= k < i ==> !(rows[k].userId == player && rows[k].active)
      {
        if rows[i].userId == player && rows[i].active {
          return Some(rows[i].matchId);
        }
      }
      m := None;
    }
  }

  lemma Regroup(x: seq<PlayerRow>, y: seq<PlayerRow>, z: seq<PlayerRow>)
    ensures x + (y + z) == (x + y) + z
  {
  }

  lemma NoIds()
    ensures Ids([]) == {}
  {
  }

  lemma IdsConcat(x: seq<PlayerRow>, y: seq<PlayerRow>)
    ensures Ids(x + y) == Ids(x) + Ids(y)
  {
    forall u | u in Ids(y) ensures u in Ids(x + y) {
      var i :| 0 <= i < |y| && y[i].userId == u;
      assert (x + y)[|x| + i] == y[i];
    }
    forall u | u in Ids(x) ensures u in Ids(x + y) {
      var i :| 0 <= i < |x| && x[i].userId == u;
      assert (x + y)[i] == x[i];
    }
  }

  lemma IndexStep(rows: seq<PlayerRow>, r: PlayerRow)
    requires UniqueActive(rows) && r.active
    ensures UniqueActive(rows + [r]) <==> forall i :: 0 <= i < |rows| && rows[i].active ==> rows[i].userId != r.userId
    ensures (set i | 0 <= i < |rows + [r]| && (rows + [r])[i].active :: (rows + [r])[i].userId)
         == (set i | 0 <= i < |rows| && rows[i].active :: rows[i].userId) + {r.userId}
  {
    var all := rows + [r];
    assert all[|rows|] == r;
    forall i | 0 <= i < |rows| ensures all[i] == rows[i] {
    }
  }

  lemma NotPrefix(x: seq<PlayerRow>, y: seq<PlayerRow>)
    requires x <= y && !UniqueActive(x)
    ensures !UniqueActive(y)
  {
    var i, j :| 0 <= i < j < |x| && x[i].active && x[j].active && x[i].userId == x[j].userId;
    assert y[i] == x[i] && y[j] == x[j];
  }
}
