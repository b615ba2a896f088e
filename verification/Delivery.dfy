/** From a formed match to Postgres: inline attempts, the retry queue, the sync stream
    with its consumer group, and the write-behind poller, as one machine whose pipelines
    can stop part-way and whose processes can crash. */
module Delivery {
  import opened Base
  import opened Optimizer
  import Tables

  /** A worker between forming a match and taking its next ticket. */
  datatype Hand =
    | Free
    | Writing(m: MatchResult, attempt: nat)
    | Deferring(m: MatchResult)
    | Deferred

  datatype Retry = Idle | Trying(m: MatchResult) | Requeuing(m: MatchResult) | Won

  datatype Poller = Waiting | Holding(batch: seq<nat>) | Inserted(batch: seq<nat>)

  /** `stream` is the sync stream, entry ids being positions; entries below `delivered`
      have been handed to the consumer group and those in `acked` acknowledged. */
  datatype State = State(
    formed: multiset<MatchResult>,   // every match ever formed
    sent: multiset<MatchResult>,     // matches whose pipeline reported success
    lost: multiset<MatchResult>,     // matches in memory when the process crashed
    hands: seq<Hand>,
    retryQ: seq<MatchResult>,
    retry: Retry,
    stream: seq<MatchResult>,
    delivered: nat,
    acked: set<nat>,
    poller: Poller,
    db: Tables.Db,
    status: map<int, MatchResult>,   // the match each player's status ticket shows
    commitDeferred: int,
    retrySuccess: int)

  datatype Step =
    | Form(w: nat, m: MatchResult)
    | Attempt(w: nat, applied: nat, ok: bool)
    | Defer(w: nat)
    | CountDeferred(w: nat)
    | RetryPop
    | RetryAttempt(applied: nat, ok: bool)
    | RetryCount
    | RetryRequeue
    | Read(n: nat)
    | ReadPending(batch: seq<nat>)
    | Flush(connected: bool)
    | Ack(ok: bool)
    | PollerCrash
    | ProcessCrash
    | Database(t: Tables.Txn)

  // ---- The pipeline ----

  /** The users of a match in pipeline order. */
  function Users(m: MatchResult): (r: seq<int>)
    ensures |r| == |m.teamA| + |m.teamB|
  {
    seq(|m.teamA|, i requires 0 <= i < |m.teamA| => m.teamA[i].0)
    + seq(|m.teamB|, i requires 0 <= i < |m.teamB| => m.teamB[i].0)
  }

  /** One status ticket per player, then the stream entry. */
  function Commands(m: MatchResult): nat {
    |Users(m)| + 1
  }

  function SetTickets(status: map<int, MatchResult>, users: seq<int>, m: MatchResult): map<int, MatchResult>
    decreases |users|
  {
    if users == [] then status else SetTickets(status[users[0] := m], users[1..], m)
  }

  /** The first `applied` commands of the pipeline take effect. */
  function Pipeline(s: State, m: MatchResult, applied: nat): State {
    var n := |Users(m)|;
    s.(status := SetTickets(s.status, Users(m)[..Min(applied, n)], m),
       stream := if applied > n then s.stream + [m] else s.stream)
  }

  /** A reported success means all commands were applied; an error may hide any number. */
  predicate Possible(m: MatchResult, applied: nat, ok: bool) {
    applied <= Commands(m) && (ok ==> applied == Commands(m))
  }

  function ToEntry(m: MatchResult): Tables.Entry {
    Tables.Entry(m.matchId, AsI32(m.spread), m.teamA, m.teamB)
  }

  function Entries(stream: seq<MatchResult>, batch: seq<nat>): (r: seq<Tables.Entry>)
    requires forall i :: 0 <= i < |batch| ==> batch[i] < |stream|
    ensures |r| == |batch|
  {
    seq(|batch|, i requires 0 <= i < |batch| => ToEntry(stream[batch[i]]))
  }

  function Held(h: Hand): multiset<MatchResult> {
    match h
    case Writing(m, _) => multiset{m}
    case Deferring(m) => multiset{m}
    case _ => multiset{}
  }

  function InHands(hands: seq<Hand>): multiset<MatchResult> {
    if hands == [] then multiset{} else Held(hands[0]) + InHands(hands[1..])
  }

  function InRetry(r: Retry): multiset<MatchResult> {
    match r
    case Trying(m) => multiset{m}
    case Requeuing(m) => multiset{m}
    case _ => multiset{}
  }

  function InMemory(s: State): multiset<MatchResult> {
    InHands(s.hands) + multiset(s.retryQ) + InRetry(s.retry)
  }

  function Counting(hands: seq<Hand>): nat {
    if hands == [] then 0 else (if hands[0].Deferred? then 1 else 0) + Counting(hands[1..])
  }

  // ---- Steps ----

  /** Two inline attempts, then the retry queue. */
  function AfterAttempt(m: MatchResult, attempt: nat, ok: bool): Hand {
    if ok then Free else if attempt < 2 then Writing(m, attempt + 1) else Deferring(m)
  }

  ghost predicate Enabled(s: State, step: Step) {
    match step
    case Form(w, m) => w < |s.hands| && s.hands[w].Free?
    case Attempt(w, applied, ok) => w < |s.hands| && s.hands[w].Writing? && Possible(s.hands[w].m, applied, ok)
    case Defer(w) => w < |s.hands| && s.hands[w].Deferring?
    case CountDeferred(w) => w < |s.hands| && s.hands[w].Deferred?
    case RetryPop => s.retry.Idle? && s.retryQ != []
    case RetryAttempt(applied, ok) => s.retry.Trying? && Possible(s.retry.m, applied, ok)
    case RetryCount => s.retry.Won?
    case RetryRequeue => s.retry.Requeuing?
    case Read(n) => s.poller.Waiting? && n <= 50 && s.delivered + n <= |s.stream|
    case ReadPending(batch) =>
      s.poller.Waiting? && |batch| <= 500
      && forall i :: 0 <= i < |batch| ==> batch[i] < s.delivered && batch[i] !in s.acked
    case Flush(_) => s.poller.Holding? && forall i :: 0 <= i < |s.poller.batch| ==> s.poller.batch[i] < |s.stream|
    case Ack(_) => s.poller.Inserted?
    case Database(t) => !t.Insert?   // only the poller inserts matches
    case _ => true
  }

  /** One batch transaction: no connection or a violated index leaves the tables alone. */
  ghost predicate Stores(s: State, connected: bool)
    requires s.poller.Holding? && Enabled(s, Flush(connected))
  {
    var batch := Entries(s.stream, s.poller.batch);
    batch == [] || (connected && Tables.Commits(s.db, batch))
  }

  ghost function Next(s: State, step: Step): State
    requires Enabled(s, step)
  {
    match step
    case Form(w, m) => s.(formed := s.formed + multiset{m}, hands := s.hands[w := Writing(m, 1)])
    case Attempt(w, applied, ok) =>
      var m := s.hands[w].m;
      var s' := Pipeline(s, m, applied);
      s'.(sent := if ok then s.sent + multiset{m} else s.sent,
          hands := s.hands[w := AfterAttempt(m, s.hands[w].attempt, ok)])
    case Defer(w) => s.(retryQ := s.retryQ + [s.hands[w].m], hands := s.hands[w := Deferred])
    case CountDeferred(w) => s.(commitDeferred := s.commitDeferred + 1, hands := s.hands[w := Free])
    case RetryPop => s.(retry := Trying(s.retryQ[0]), retryQ := s.retryQ[1..])
    case RetryAttempt(applied, ok) =>
      var m := s.retry.m;
      var s' := Pipeline(s, m, applied);
      s'.(sent := if ok then s.sent + multiset{m} else s.sent, retry := if ok then Won else Requeuing(m))
    case RetryCount => s.(retrySuccess := s.retrySuccess + 1, retry := Idle)
    case RetryRequeue => s.(retryQ := s.retryQ + [s.retry.m], retry := Idle)
    case Read(n) =>
      s.(delivered := s.delivered + n,
         poller := if n == 0 then Waiting else Holding(seq(n, i requires 0 <= i < n => s.delivered + i)))
    case ReadPending(batch) => s.(poller := if batch == [] then Waiting else Holding(batch))
    case Flush(connected) =>
      if Stores(s, connected)
      then s.(db := Tables.Inserted(s.db, Entries(s.stream, s.poller.batch)), poller := Inserted(s.poller.batch))
      else s.(poller := Waiting)
    case Ack(ok) =>
      var batch := s.poller.batch;
      s.(acked := if ok then s.acked + (set i | 0 <= i < |batch| :: batch[i]) else s.acked, poller := Waiting)
    case PollerCrash => s.(poller := Waiting)
    case ProcessCrash =>
      s.(lost := s.lost + InMemory(s), hands := seq(|s.hands|, _ => Free), retryQ := [], retry := Idle,
         poller := Waiting, commitDeferred := 0, retrySuccess := 0)
    case Database(t) => s.(db := Tables.Run(s.db, t))
  }

  function Init(workers: nat): State {
    State(multiset{}, multiset{}, multiset{}, seq(workers, _ => Free), [], Idle, [], 0, {}, Waiting,
          Tables.EMPTY, map[], 0, 0)
  }

  // ---- Stored in Postgres ----

  predicate HasRow(rows: seq<Tables.PlayerRow>, mid: int, user: int, team: Tables.Team, rating: int) {
    exists i :: 0 <= i < |rows| && rows[i].matchId == mid && rows[i].userId == user
                && rows[i].team == team && rows[i].rating == rating
  }

  /** The match has its row and one row for each player of either team. */
  ghost predicate Stored(db: Tables.Db, m: MatchResult) {
    && m.matchId in db.matches
    && (forall k :: 0 <= k < |m.teamA| ==> HasRow(db.rows, m.matchId, m.teamA[k].0, Tables.A, m.teamA[k].1))
    && (forall k :: 0 <= k < |m.teamB| ==> HasRow(db.rows, m.matchId, m.teamB[k].0, Tables.B, m.teamB[k].1))
  }

  lemma {:induction false} BatchHas(batch: seq<Tables.Entry>, k: nat)
    requires k < |batch|
    ensures forall i :: 0 <= i < |Tables.EntryRows(batch[k])| ==> Tables.EntryRows(batch[k])[i] in Tables.BatchRows(batch)
  {
    if k > 0 {
      BatchHas(batch[1..], k - 1);
      assert batch[1..][k - 1] == batch[k];
    }
  }

  lemma EntryHas(rows: seq<Tables.PlayerRow>, m: MatchResult)
    requires forall i :: 0 <= i < |Tables.EntryRows(ToEntry(m))| ==> Tables.EntryRows(ToEntry(m))[i] in rows
    ensures forall k :: 0 <= k < |m.teamA| ==> HasRow(rows, m.matchId, m.teamA[k].0, Tables.A, m.teamA[k].1)
    ensures forall k :: 0 <= k < |m.teamB| ==> HasRow(rows, m.matchId, m.teamB[k].0, Tables.B, m.teamB[k].1)
  {
    var er := Tables.EntryRows(ToEntry(m));
    forall k | 0 <= k < |m.teamA| ensures HasRow(rows, m.matchId, m.teamA[k].0, Tables.A, m.teamA[k].1) {
      assert er[k] in rows;
    }
    forall k | 0 <= k < |m.teamB| ensures HasRow(rows, m.matchId, m.teamB[k].0, Tables.B, m.teamB[k].1) {
      assert er[|m.teamA| + k] in rows;
    }
  }

  lemma RowKept(rows: seq<Tables.PlayerRow>, rows': seq<Tables.PlayerRow>, mid: int, user: int, team: Tables.Team, rating: int)
    requires HasRow(rows, mid, user, team, rating) && |rows| <= |rows'|
    requires forall i :: 0 <= i < |rows| ==> rows'[i] == rows[i].(active := rows'[i].active)
    ensures HasRow(rows', mid, user, team, rating)
  {
    var i :| 0 <= i < |rows| && rows[i].matchId == mid && rows[i].userId == user
             && rows[i].team == team && rows[i].rating == rating;
    assert rows'[i].matchId == mid;
  }

  /** No transaction ever removes a stored match. */
  lemma StoredKept(db: Tables.Db, db': Tables.Db, m: MatchResult)
    requires Stored(db, m) && |db.rows| <= |db'.rows|
    requires forall i :: 0 <= i < |db.rows| ==> db'.rows[i] == db.rows[i].(active := db'.rows[i].active)
    requires forall k :: k in db.matches ==> k in db'.matches
    ensures Stored(db', m)
  {
    forall k | 0 <= k < |m.teamA| ensures HasRow(db'.rows, m.matchId, m.teamA[k].0, Tables.A, m.teamA[k].1) {
      RowKept(db.rows, db'.rows, m.matchId, m.teamA[k].0, Tables.A, m.teamA[k].1);
    }
    forall k | 0 <= k < |m.teamB| ensures HasRow(db'.rows, m.matchId, m.teamB[k].0, Tables.B, m.teamB[k].1) {
      RowKept(db.rows, db'.rows, m.matchId, m.teamB[k].0, Tables.B, m.teamB[k].1);
    }
  }

  ghost predicate Grows(db: Tables.Db, db': Tables.Db) {
    && |db.rows| <= |db'.rows|
    && (forall i :: 0 <= i < |db.rows| ==> db'.rows[i] == db.rows[i].(active := db'.rows[i].active))
    && (forall k :: k in db.matches ==> k in db'.matches)
  }

  lemma InsertGrows(db: Tables.Db, batch: seq<Tables.Entry>)
    ensures Grows(db, Tables.Inserted(db, batch))
  {
  }

  lemma TxnGrows(db: Tables.Db, t: Tables.Txn)
    ensures Grows(db, Tables.Run(db, t))
  {
  }

  /** A committed batch stores each of its matches, whatever was there before. */
  lemma BatchStores(db: Tables.Db, stream: seq<MatchResult>, batch: seq<nat>, k: nat)
    requires forall i :: 0 <= i < |batch| ==> batch[i] < |stream|
    requires k < |batch|
    ensures Stored(Tables.Inserted(db, Entries(stream, batch)), stream[batch[k]])
    ensures stream[batch[k]].matchId !in db.matches
            && (forall i :: 0 <= i < |batch| && stream[batch[i]].matchId == stream[batch[k]].matchId
                  ==> stream[batch[i]].spread == stream[batch[k]].spread)
            ==> OwnStored(Tables.Inserted(db, Entries(stream, batch)), stream[batch[k]])
  {
    var es := Entries(stream, batch);
    var db', m := Tables.Inserted(db, es), stream[batch[k]];
    BatchHas(es, k);
    assert es[k] == ToEntry(m);
    if m.matchId !in db.matches {
      var i := Tables.AddedFrom(db.matches, es, m.matchId);
      assert es[i] == ToEntry(stream[batch[i]]);
    }
    forall i | 0 <= i < |Tables.EntryRows(es[k])| ensures Tables.EntryRows(es[k])[i] in db'.rows {
      assert Tables.EntryRows(es[k])[i] in Tables.BatchRows(es);
    }
    EntryHas(db'.rows, m);
  }

  // ---- Whose match row ----

  /** Formed matches with one id are one match, as within one boot they are. */
  ghost predicate FreshIds(formed: multiset<MatchResult>) {
    forall m, m' :: m in formed && m' in formed && m.matchId == m'.matchId ==> m == m'
  }

  /** Every match row was written for some entry of the stream, and every entry for some
      match that was formed. */
  ghost predicate TracedOk(s: State) {
    && (forall m :: m in s.stream ==> m in s.formed)
    && (forall id :: id in s.db.matches ==> Written(s.stream, id, s.db.matches[id].spread))
  }

  predicate Written(stream: seq<MatchResult>, id: int, spread: int) {
    exists p :: 0 <= p < |stream| && stream[p].matchId == id && AsI32(stream[p].spread) == spread
  }

  /** The match is stored and the match row is its own, not another's under the same id. */
  ghost predicate OwnStored(db: Tables.Db, m: MatchResult) {
    Stored(db, m) && db.matches[m.matchId].spread == AsI32(m.spread)
  }

  lemma OwnRow(s: State, m: MatchResult)
    requires TracedOk(s) && FreshIds(s.formed) && m in s.formed && Stored(s.db, m)
    ensures OwnStored(s.db, m)
  {
    hide Stored;
    assert m.matchId in s.db.matches by {
      StoredHasRow(s.db, m);
    }
    var p :| 0 <= p < |s.stream| && s.stream[p].matchId == m.matchId
             && AsI32(s.stream[p].spread) == s.db.matches[m.matchId].spread;
    assert s.stream[p] in s.formed;
  }

  lemma StoredHasRow(db: Tables.Db, m: MatchResult)
    requires Stored(db, m)
    ensures m.matchId in db.matches
  {
  }

  lemma TracedMore(stream: seq<MatchResult>, stream': seq<MatchResult>, id: int, spread: int)
    requires Written(stream, id, spread) && stream <= stream'
    ensures Written(stream', id, spread)
  {
    var p :| 0 <= p < |stream| && stream[p].matchId == id && AsI32(stream[p].spread) == spread;
    assert stream'[p] == stream[p];
  }

  lemma FlushTraced(s: State, connected: bool)
    requires TracedOk(s) && Enabled(s, Flush(connected))
    ensures TracedOk(Next(s, Flush(connected)))
  {
    var batch := s.poller.batch;
    var es := Entries(s.stream, batch);
    var s' := Next(s, Flush(connected));
    if Stores(s, connected) && es != [] {
      assert s'.db.matches == Tables.AddMatches(s.db.matches, es);
      forall id | id in s'.db.matches ensures Written(s.stream, id, s'.db.matches[id].spread) {
        if id !in s.db.matches {
          var i := Tables.AddedFrom(s.db.matches, es, id);
          assert es[i] == ToEntry(s.stream[batch[i]]);
        }
      }
    }
  }

  lemma PipelineTraced(s: State, s': State, m: MatchResult)
    requires TracedOk(s) && m in s.formed && s'.formed == s.formed && s'.db == s.db
    requires s'.stream == s.stream || s'.stream == s.stream + [m]
    ensures TracedOk(s')
  {
    forall id | id in s'.db.matches ensures Written(s'.stream, id, s'.db.matches[id].spread) {
      TracedMore(s.stream, s'.stream, id, s.db.matches[id].spread);
    }
  }

  lemma AttemptTraced(s: State, step: Step)
    requires Ledger(s) && TracedOk(s) && Enabled(s, step) && (step.Attempt? || step.RetryAttempt?)
    ensures TracedOk(Next(s, step))
  {
    var m := if step.Attempt? then s.hands[step.w].m else s.retry.m;
    assert m in s.formed by {
      if step.Attempt? {
        HeldFormed(s, step.w, m);
      } else {
        RetryFormed(s);
      }
    }
    PipelineStream(s, m, step.applied);
    AttemptFrame(s, step, m);
    hide *;
    PipelineTraced(s, Next(s, step), m);
  }

  lemma AttemptFrame(s: State, step: Step, m: MatchResult)
    requires Enabled(s, step) && (step.Attempt? || step.RetryAttempt?)
    requires m == if step.Attempt? then s.hands[step.w].m else s.retry.m
    ensures var s' := Next(s, step);
            && s'.formed == s.formed && s'.db == s.db && (s'.stream == s.stream || s'.stream == s.stream + [m])
  {
    PipelineStream(s, m, step.applied);
    hide Pipeline;
  }

  lemma TracedStep(s: State, step: Step)
    requires Ledger(s) && TracedOk(s) && Enabled(s, step)
    ensures TracedOk(Next(s, step))
  {
    if step.Flush? {
      FlushTraced(s, step.connected);
    } else if step.Attempt? || step.RetryAttempt? {
      AttemptTraced(s, step);
    } else {
      OthersTraced(s, step);
    }
  }

  lemma OthersTraced(s: State, step: Step)
    requires TracedOk(s) && Enabled(s, step) && !step.Flush? && !step.Attempt? && !step.RetryAttempt?
    ensures TracedOk(Next(s, step))
  {
    hide Stores;
    hide Written;
    hide InMemory;
    assert Next(s, step).stream == s.stream && s.formed <= Next(s, step).formed;
    assert forall id :: id in Next(s, step).db.matches ==>
             id in s.db.matches && Next(s, step).db.matches[id].spread == s.db.matches[id].spread;
    hide Next;
    hide Enabled;
  }

  lemma PipelineStream(s: State, m: MatchResult, applied: nat)
    ensures var s' := Pipeline(s, m, applied);
            && s' == s.(status := s'.status, stream := s'.stream)
            && (s'.stream == s.stream || s'.stream == s.stream + [m])
  {
    hide SetTickets;
  }

  // ---- The invariant ----

  /** Each match formed is in exactly one place of memory, or was sent, or was in memory
      at a process crash. */
  ghost predicate Ledger(s: State) {
    s.formed == InMemory(s) + s.sent + s.lost
  }

  ghost predicate SentOk(s: State) {
    forall m :: m in s.sent ==> m in s.stream
  }

  ghost predicate GroupOk(s: State) {
    && s.delivered <= |s.stream|
    && (forall p :: p in s.acked ==> p < s.delivered && Stored(s.db, s.stream[p]))
    && (s.poller.Holding? || s.poller.Inserted? ==>
          |s.poller.batch| <= 500 && forall i :: 0 <= i < |s.poller.batch| ==> s.poller.batch[i] < s.delivered)
    && (s.poller.Inserted? ==>
          forall i :: 0 <= i < |s.poller.batch| ==> Stored(s.db, s.stream[s.poller.batch[i]]))
  }

  ghost predicate CountersOk(s: State) {
    s.commitDeferred + Counting(s.hands) == s.retrySuccess + |s.retryQ| + (if s.retry.Idle? then 0 else 1)
  }

  /** A status ticket only ever announces a match that was formed, to one of its players. */
  ghost predicate StatusOk(s: State) {
    Announces(s.status, s.formed)
  }

  ghost predicate Announces(status: map<int, MatchResult>, formed: multiset<MatchResult>) {
    forall u :: u in status ==> status[u] in formed && u in Users(status[u])
  }

  lemma AnnouncesMore(status: map<int, MatchResult>, formed: multiset<MatchResult>, more: multiset<MatchResult>)
    requires Announces(status, formed) && formed <= more
    ensures Announces(status, more)
  {
  }

  lemma {:induction false} HandsUpdate(hands: seq<Hand>, w: nat, h: Hand)
    requires w < |hands|
    ensures InHands(hands[w := h]) + Held(hands[w]) == InHands(hands) + Held(h)
  {
    if w == 0 {
      assert hands[w := h][1..] == hands[1..];
      HeadHand(Held(hands[0]), Held(h), InHands(hands[1..]));
    } else {
      var rest := hands[1..];
      assert hands[w := h][1..] == rest[w - 1 := h];
      HandsUpdate(rest, w - 1, h);
      hide Held;
      Assoc(Held(hands[0]), InHands(rest[w - 1 := h]), Held(hands[w]));
      Assoc(Held(hands[0]), InHands(rest), Held(h));
    }
  }

  lemma HeadHand(x: multiset<MatchResult>, y: multiset<MatchResult>, rest: multiset<MatchResult>)
    ensures (y + rest) + x == (x + rest) + y
  {
  }

  lemma {:induction false} CountingUpdate(hands: seq<Hand>, w: nat, h: Hand)
    requires w < |hands|
    ensures Counting(hands[w := h]) + (if hands[w].Deferred? then 1 else 0) == Counting(hands) + (if h.Deferred? then 1 else 0)
  {
    if w == 0 {
      assert hands[w := h][1..] == hands[1..];
    } else {
      assert hands[w := h][1..] == hands[1..][w - 1 := h];
      CountingUpdate(hands[1..], w - 1, h);
    }
  }

  lemma {:induction false} AllFree(hands: seq<Hand>)
    requires forall w :: 0 <= w < |hands| ==> hands[w].Free?
    ensures InHands(hands) == multiset{} && Counting(hands) == 0
  {
    if hands != [] {
      AllFree(hands[1..]);
    }
  }

  lemma {:induction false} HandsHold(hands: seq<Hand>, w: nat)
    requires w < |hands|
    ensures Held(hands[w]) <= InHands(hands)
  {
    if w > 0 {
      HandsHold(hands[1..], w - 1);
    }
  }

  /** What a step does to the matches in memory and to the pending counts. */
  ghost predicate Moves(s: State, s': State, gained: multiset<MatchResult>, shed: multiset<MatchResult>, owed: int) {
    && InMemory(s') + shed == InMemory(s) + gained
    && Counting(s'.hands) - |s'.retryQ| - Pending(s'.retry) == Counting(s.hands) - |s.retryQ| - Pending(s.retry) + owed
  }

  function Pending(r: Retry): nat {
    if r.Idle? then 0 else 1
  }

  /** A worker's hand changes and so may the back of the retry queue. */
  lemma HandMoves(s: State, s': State, w: nat, h: Hand, back: seq<MatchResult>)
    requires w < |s.hands| && s'.hands == s.hands[w := h] && s'.retryQ == s.retryQ + back && s'.retry == s.retry
    ensures Moves(s, s', Held(h) + multiset(back), Held(s.hands[w]),
                  (if h.Deferred? then 1 else 0) - (if s.hands[w].Deferred? then 1 else 0) - |back|)
  {
    HandsUpdate(s.hands, w, h);
    CountingUpdate(s.hands, w, h);
    var x, x', q, r := InHands(s.hands), InHands(s'.hands), multiset(s.retryQ), InRetry(s.retry);
    var a, b, p := Held(s.hands[w]), Held(h), multiset(back);
    Reorder(x', q + p, r, a);
    Reorder(x, q, r, b + p);
    assert (x' + a) + (q + p) + r == (x + (b + p)) + q + r;
  }

  lemma Reorder(x: multiset<MatchResult>, q: multiset<MatchResult>, r: multiset<MatchResult>, a: multiset<MatchResult>)
    ensures x + q + r + a == (x + a) + q + r
  {
  }

  lemma RetryMoves(s: State, s': State, gained: multiset<MatchResult>, shed: multiset<MatchResult>)
    requires s'.hands == s.hands
    requires multiset(s'.retryQ) + InRetry(s'.retry) + shed == multiset(s.retryQ) + InRetry(s.retry) + gained
    ensures Moves(s, s', gained, shed, |s.retryQ| + Pending(s.retry) - |s'.retryQ| - Pending(s'.retry))
  {
    var x := InHands(s.hands);
    Assoc(x, multiset(s'.retryQ), InRetry(s'.retry));
    Assoc(x, multiset(s.retryQ), InRetry(s.retry));
    Assoc(x, multiset(s'.retryQ) + InRetry(s'.retry), shed);
    Assoc(x, multiset(s.retryQ) + InRetry(s.retry), gained);
  }

  lemma FormMoves(s: State, w: nat, m: MatchResult)
    requires Enabled(s, Form(w, m))
    ensures Moves(s, Next(s, Form(w, m)), multiset{m}, multiset{}, 0)
  {
    HandMoves(s, Next(s, Form(w, m)), w, Writing(m, 1), []);
  }

  lemma PipelineFrame(s: State, m: MatchResult, applied: nat)
    ensures var s' := Pipeline(s, m, applied);
            && s.stream <= s'.stream && s' == s.(status := s'.status, stream := s'.stream)
            && (applied == Commands(m) ==> s'.stream == s.stream + [m])
  {
    hide SetTickets;
  }

  lemma AttemptMoves(s: State, w: nat, applied: nat, ok: bool)
    requires Enabled(s, Attempt(w, applied, ok))
    ensures Moves(s, Next(s, Attempt(w, applied, ok)), multiset{}, if ok then multiset{s.hands[w].m} else multiset{}, 0)
  {
    var s', m, h := Next(s, Attempt(w, applied, ok)), s.hands[w].m, AfterAttempt(s.hands[w].m, s.hands[w].attempt, ok);
    PipelineFrame(s, m, applied);
    assert s'.hands == s.hands[w := h] && s'.retryQ == s.retryQ + [] && s'.retry == s.retry by {
      hide Pipeline;
    }
    HeldAfter(m, s.hands[w].attempt, ok);
    assert Held(s.hands[w]) == multiset{m};
    assert !h.Deferred? && !s.hands[w].Deferred?;
    hide Pipeline;
    hide InMemory;
    hide Counting;
    hide Held;
    hide AfterAttempt;
    hide Next;
    hide Enabled;
    HandMoves(s, s', w, h, []);
    if !ok {
      CancelRight(multiset{m}, InMemory(s'), InMemory(s));
    }
  }

  lemma HeldAfter(m: MatchResult, attempt: nat, ok: bool)
    ensures Held(AfterAttempt(m, attempt, ok)) + multiset([]) == if ok then multiset{} else multiset{m}
  {
  }

  lemma DeferMoves(s: State, w: nat)
    requires Enabled(s, Defer(w))
    ensures Moves(s, Next(s, Defer(w)), multiset{}, multiset{}, 0)
  {
    var s', m := Next(s, Defer(w)), s.hands[w].m;
    HandMoves(s, s', w, Deferred, [m]);
    assert Held(Deferred) + multiset([m]) == multiset{m};
    CancelRight(multiset{m}, InMemory(s'), InMemory(s));
  }

  lemma CountMoves(s: State, w: nat)
    requires Enabled(s, CountDeferred(w))
    ensures Moves(s, Next(s, CountDeferred(w)), multiset{}, multiset{}, -1)
  {
    HandMoves(s, Next(s, CountDeferred(w)), w, Free, []);
  }

  lemma RetryAttemptMoves(s: State, applied: nat, ok: bool)
    requires Enabled(s, RetryAttempt(applied, ok))
    ensures Moves(s, Next(s, RetryAttempt(applied, ok)), multiset{}, if ok then multiset{s.retry.m} else multiset{}, 0)
  {
    hide SetTickets;
    hide Moves;
    var s' := Next(s, RetryAttempt(applied, ok));
    RetryMoves(s, s', multiset{}, if ok then multiset{s.retry.m} else multiset{});
  }

  lemma RetrierMoves(s: State, step: Step)
    requires Enabled(s, step) && (step.RetryPop? || step.RetryCount? || step.RetryRequeue?)
    ensures Moves(s, Next(s, step), multiset{}, multiset{}, if step.RetryCount? then 1 else 0)
  {
    hide Moves;
    if step.RetryPop? {
      PopMoves(s);
    } else if step.RetryRequeue? {
      RequeueMoves(s);
    } else {
      RetryMoves(s, Next(s, step), multiset{}, multiset{});
    }
  }

  lemma PopMoves(s: State)
    requires Enabled(s, RetryPop)
    ensures Moves(s, Next(s, RetryPop), multiset{}, multiset{}, 0)
  {
    hide Moves;
    TailBag(s.retryQ);
    RetryMoves(s, Next(s, RetryPop), multiset{}, multiset{});
  }

  lemma RequeueMoves(s: State)
    requires Enabled(s, RetryRequeue)
    ensures Moves(s, Next(s, RetryRequeue), multiset{}, multiset{}, 0)
  {
    hide Moves;
    RetryMoves(s, Next(s, RetryRequeue), multiset{}, multiset{});
  }

  ghost predicate Bookkeeping(step: Step) {
    step.Form? || step.Attempt? || step.Defer? || step.CountDeferred?
    || step.RetryPop? || step.RetryAttempt? || step.RetryCount? || step.RetryRequeue? || step.ProcessCrash?
  }

  lemma OthersMoveNothing(s: State, step: Step)
    requires Enabled(s, step) && !Bookkeeping(step)
    ensures var s' := Next(s, step);
            && s'.hands == s.hands && s'.retryQ == s.retryQ && s'.retry == s.retry && s'.status == s.status
            && s'.formed == s.formed && s'.sent == s.sent && s'.lost == s.lost && s'.stream == s.stream
            && s'.commitDeferred == s.commitDeferred && s'.retrySuccess == s.retrySuccess
  {
    hide Stores;
  }

  /** Ledger and counters follow from what a step moves. */
  lemma BooksKeep(s: State, s': State, gained: multiset<MatchResult>, shed: multiset<MatchResult>, owed: int)
    requires Ledger(s) && CountersOk(s) && Moves(s, s', gained, shed, owed)
    requires s'.formed == s.formed + gained && s'.sent == s.sent + shed && s'.lost == s.lost
    requires s'.commitDeferred - s'.retrySuccess == s.commitDeferred - s.retrySuccess - owed
    ensures Ledger(s') && CountersOk(s')
  {
    hide InMemory;
    hide Counting;
    Triple(InMemory(s), s.sent, s.lost, gained);
    Triple(InMemory(s'), s.sent, s.lost, shed);
    assert InMemory(s) + s.sent + s.lost + gained == (InMemory(s') + shed) + s.sent + s.lost;
  }

  lemma BooksAttempt(s: State, w: nat, applied: nat, ok: bool)
    requires Ledger(s) && CountersOk(s) && Enabled(s, Attempt(w, applied, ok))
    ensures Ledger(Next(s, Attempt(w, applied, ok))) && CountersOk(Next(s, Attempt(w, applied, ok)))
  {
    hide Pipeline;
    hide Moves;
    var m, s' := s.hands[w].m, Next(s, Attempt(w, applied, ok));
    PipelineFrame(s, m, applied);
    AttemptMoves(s, w, applied, ok);
    BooksKeep(s, s', multiset{}, if ok then multiset{m} else multiset{}, 0);
  }

  lemma BooksRetry(s: State, applied: nat, ok: bool)
    requires Ledger(s) && CountersOk(s) && Enabled(s, RetryAttempt(applied, ok))
    ensures Ledger(Next(s, RetryAttempt(applied, ok))) && CountersOk(Next(s, RetryAttempt(applied, ok)))
  {
    hide Pipeline;
    hide Moves;
    var m, s' := s.retry.m, Next(s, RetryAttempt(applied, ok));
    PipelineFrame(s, m, applied);
    RetryAttemptMoves(s, applied, ok);
    BooksKeep(s, s', multiset{}, if ok then multiset{m} else multiset{}, 0);
  }

  lemma BooksQuiet(s: State, step: Step)
    requires Ledger(s) && CountersOk(s) && Enabled(s, step)
    requires step.Form? || step.Defer? || step.CountDeferred? || step.RetryPop? || step.RetryCount? || step.RetryRequeue?
    ensures Ledger(Next(s, step)) && CountersOk(Next(s, step))
  {
    hide Moves;
    hide Ledger;
    hide CountersOk;
    var s' := Next(s, step);
    match step
    case Form(w, m) =>
      FormMoves(s, w, m);
      BooksKeep(s, s', multiset{m}, multiset{}, 0);
    case Defer(w) =>
      DeferMoves(s, w);
      BooksKeep(s, s', multiset{}, multiset{}, 0);
    case CountDeferred(w) =>
      CountMoves(s, w);
      BooksKeep(s, s', multiset{}, multiset{}, -1);
    case _ =>
      RetrierMoves(s, step);
      BooksKeep(s, s', multiset{}, multiset{}, if step.RetryCount? then 1 else 0);
  }

  lemma BooksStep(s: State, step: Step)
    requires Ledger(s) && CountersOk(s) && Enabled(s, step)
    ensures Ledger(Next(s, step)) && CountersOk(Next(s, step))
  {
    hide Enabled;
    hide Pipeline;
    hide Stores;
    hide InMemory;
    hide Counting;
    if step.Attempt? {
      BooksAttempt(s, step.w, step.applied, step.ok);
    } else if step.RetryAttempt? {
      BooksRetry(s, step.applied, step.ok);
    } else if step.ProcessCrash? {
      CrashMoves(s);
    } else if Bookkeeping(step) {
      BooksQuiet(s, step);
    } else {
      OthersMoveNothing(s, step);
      SameMemory(s, Next(s, step));
    }
  }

  lemma Triple(a: multiset<MatchResult>, b: multiset<MatchResult>, c: multiset<MatchResult>, x: multiset<MatchResult>)
    ensures (a + x) + b + c == a + b + c + x
    ensures (a + x) + b + c == a + (b + x) + c
  {
  }

  lemma SameMemory(s: State, s': State)
    requires s'.hands == s.hands && s'.retryQ == s.retryQ && s'.retry == s.retry
    ensures InMemory(s') == InMemory(s)
  {
  }

  lemma CrashMoves(s: State)
    ensures InMemory(Next(s, ProcessCrash)) == multiset{} && Counting(Next(s, ProcessCrash).hands) == 0
    ensures InMemory(s) + s.sent + s.lost == multiset{} + s.sent + (s.lost + InMemory(s))
  {
    AllFree(Next(s, ProcessCrash).hands);
  }

  lemma SentStep(s: State, step: Step)
    requires SentOk(s) && Enabled(s, step)
    ensures SentOk(Next(s, step)) && s.stream <= Next(s, step).stream
  {
    hide Stores;
    hide Pipeline;
    match step
    case Attempt(w, applied, ok) => PipelineFrame(s, s.hands[w].m, applied);
    case RetryAttempt(applied, ok) => PipelineFrame(s, s.retry.m, applied);
    case _ =>
  }

  lemma GroupKeeps(s: State, s': State)
    requires GroupOk(s) && Grows(s.db, s'.db) && s.stream <= s'.stream
    requires s.delivered <= s'.delivered <= |s'.stream| && s'.acked == s.acked
    requires s'.poller == s.poller || s'.poller.Waiting?
          || (s'.poller.Holding? && |s'.poller.batch| <= 500
              && forall i :: 0 <= i < |s'.poller.batch| ==> s'.poller.batch[i] < s'.delivered)
    ensures GroupOk(s')
  {
    hide Grows;
    hide Stored;
    forall m | Stored(s.db, m) ensures Stored(s'.db, m) {
      GrowsKeeps(s.db, s'.db, m);
    }
  }

  lemma GrowsKeeps(db: Tables.Db, db': Tables.Db, m: MatchResult)
    requires Grows(db, db') && Stored(db, m)
    ensures Stored(db', m)
  {
    StoredKept(db, db', m);
  }

  lemma FlushKeeps(s: State, connected: bool)
    requires GroupOk(s) && Enabled(s, Flush(connected))
    ensures GroupOk(Next(s, Flush(connected)))
  {
    hide Stored;
    var s', batch := Next(s, Flush(connected)), s.poller.batch;
    if Stores(s, connected) {
      InsertGrows(s.db, Entries(s.stream, batch));
      forall m | Stored(s.db, m) ensures Stored(s'.db, m) {
        GrowsKeeps(s.db, s'.db, m);
      }
      forall k | 0 <= k < |batch| ensures Stored(s'.db, s'.stream[batch[k]]) {
        BatchStores(s.db, s.stream, batch, k);
      }
    }
  }

  lemma GroupStep(s: State, step: Step)
    requires GroupOk(s) && SentOk(s) && Enabled(s, step)
    ensures GroupOk(Next(s, step))
  {
    hide Stores;
    hide Pipeline;
    hide Stored;
    hide InMemory;
    SentStep(s, step);
    match step
    case Flush(connected) => FlushKeeps(s, connected);
    case Database(t) =>
      TxnGrows(s.db, t);
      GroupKeeps(s, Next(s, step));
    case Ack(ok) =>
    case Attempt(w, applied, ok) =>
      PipelineFrame(s, s.hands[w].m, applied);
      GroupKeeps(s, Next(s, step));
    case RetryAttempt(applied, ok) =>
      PipelineFrame(s, s.retry.m, applied);
      GroupKeeps(s, Next(s, step));
    case _ =>
      GroupKeeps(s, Next(s, step));
  }

  lemma {:induction false} TicketsOf(status: map<int, MatchResult>, users: seq<int>, m: MatchResult)
    ensures forall u :: u in SetTickets(status, users, m) ==>
              (u in users && SetTickets(status, users, m)[u] == m)
              || (u in status && SetTickets(status, users, m)[u] == status[u])
    decreases |users|
  {
    if users != [] {
      TicketsOf(status[users[0] := m], users[1..], m);
    }
  }

  lemma {:induction false} TicketsSet(status: map<int, MatchResult>, users: seq<int>, m: MatchResult)
    ensures var r := SetTickets(status, users, m);
            && (forall u :: u in users ==> u in r && r[u] == m)
            && (forall u :: u !in users ==> (u in r <==> u in status) && (u in status ==> r[u] == status[u]))
    decreases |users|
  {
    if users != [] {
      TicketsSet(status[users[0] := m], users[1..], m);
    }
  }

  /** The k-th player of a match, team A first, has this user. */
  predicate Kth(m: MatchResult, k: nat, u: int) {
    if k < |m.teamA| then m.teamA[k].0 == u else k - |m.teamA| < |m.teamB| && m.teamB[k - |m.teamA|].0 == u
  }

  /** What an attempt, inline or by the retry thread, leaves behind when `applied` of its
      commands took effect: the tickets of the first `applied` players show the match,
      nobody else's changes, and the stream gets the match if all were applied. */
  lemma AttemptLeaves(s: State, step: Step)
    requires Enabled(s, step) && (step.Attempt? || step.RetryAttempt?)
    ensures var m, s' := if step.Attempt? then s.hands[step.w].m else s.retry.m, Next(s, step);
            && (forall k: nat, u :: k < step.applied && Kth(m, k, u) ==> u in s'.status && s'.status[u] == m)
            && (forall u :: (forall k: nat :: k < step.applied ==> !Kth(m, k, u)) ==>
                  (u in s'.status <==> u in s.status) && (u in s.status ==> s'.status[u] == s.status[u]))
            && s'.stream == if step.applied == |m.teamA| + |m.teamB| + 1 then s.stream + [m] else s.stream
  {
    hide Next;
    hide SetTickets;
    hide Users;
    hide Kth;
    hide Stores;
    var m := if step.Attempt? then s.hands[step.w].m else s.retry.m;
    var cut := Users(m)[..Min(step.applied, |Users(m)|)];
    TicketsSet(s.status, cut, m);
    PipelineIs(s, step, m);
    CutIs(m, step.applied);
  }

  /** The users of the first `applied` players. */
  lemma CutIs(m: MatchResult, applied: nat)
    ensures |Users(m)| == |m.teamA| + |m.teamB|
    ensures var cut := Users(m)[..Min(applied, |Users(m)|)];
            && (forall k: nat, u :: k < applied && Kth(m, k, u) ==> u in cut)
            && (forall u :: (forall k: nat :: k < applied ==> !Kth(m, k, u)) ==> u !in cut)
  {
    var cut := Users(m)[..Min(applied, |Users(m)|)];
    forall k: nat, u | k < applied && Kth(m, k, u) ensures u in cut {
      assert cut[k] == u;
    }
    forall u | (forall k: nat :: k < applied ==> !Kth(m, k, u)) ensures u !in cut {
      forall k | 0 <= k < |cut| ensures cut[k] != u {
        assert !Kth(m, k, u);
      }
    }
  }

  lemma PipelineIs(s: State, step: Step, m: MatchResult)
    requires Enabled(s, step) && (step.Attempt? || step.RetryAttempt?)
    requires m == if step.Attempt? then s.hands[step.w].m else s.retry.m
    ensures var s', n := Next(s, step), |Users(m)|;
            && step.applied <= n + 1
            && s'.status == SetTickets(s.status, Users(m)[..Min(step.applied, n)], m)
            && s'.stream == if step.applied > n then s.stream + [m] else s.stream
  {
    hide SetTickets;
  }

  /** A reported success means every player of the match is told of it, and nobody else is
      told anything. */
  lemma SuccessTellsAll(s: State, step: Step)
    requires Enabled(s, step) && (step.Attempt? || step.RetryAttempt?) && step.ok
    ensures var m, s' := if step.Attempt? then s.hands[step.w].m else s.retry.m, Next(s, step);
            && (forall k :: 0 <= k < |m.teamA| ==> m.teamA[k].0 in s'.status && s'.status[m.teamA[k].0] == m)
            && (forall k :: 0 <= k < |m.teamB| ==> m.teamB[k].0 in s'.status && s'.status[m.teamB[k].0] == m)
            && (forall u :: (forall k :: 0 <= k < |m.teamA| ==> m.teamA[k].0 != u)
                            && (forall k :: 0 <= k < |m.teamB| ==> m.teamB[k].0 != u) ==>
                  (u in s'.status <==> u in s.status) && (u in s.status ==> s'.status[u] == s.status[u]))
            && s'.stream == s.stream + [m]
  {
    var m := if step.Attempt? then s.hands[step.w].m else s.retry.m;
    AllApplied(s, step, m);
    AttemptLeaves(s, step);
    hide Next;
    hide Enabled;
    hide Users;
    hide SetTickets;
    hide Pipeline;
    forall k | 0 <= k < |m.teamA| ensures Kth(m, k, m.teamA[k].0) {
    }
    forall k | 0 <= k < |m.teamB| ensures Kth(m, |m.teamA| + k, m.teamB[k].0) {
    }
  }

  lemma AllApplied(s: State, step: Step, m: MatchResult)
    requires Enabled(s, step) && (step.Attempt? || step.RetryAttempt?) && step.ok
    requires m == if step.Attempt? then s.hands[step.w].m else s.retry.m
    ensures step.applied == |m.teamA| + |m.teamB| + 1
  {
  }

  lemma StatusPipeline(s: State, m: MatchResult, applied: nat)
    requires StatusOk(s) && m in s.formed
    ensures Announces(Pipeline(s, m, applied).status, s.formed)
  {
    TicketsOf(s.status, Users(m)[..Min(applied, |Users(m)|)], m);
  }

  lemma InMemoryFormed(s: State, m: MatchResult)
    requires Ledger(s) && m in InMemory(s)
    ensures m in s.formed
  {
  }

  lemma HeldFormed(s: State, w: nat, m: MatchResult)
    requires Ledger(s) && w < |s.hands| && m in Held(s.hands[w])
    ensures m in s.formed
  {
    HandsHold(s.hands, w);
  }

  /** A step other than a pipeline leaves the tickets alone; none forgets a match. */
  lemma StatusFrame(s: State, step: Step)
    requires Enabled(s, step)
    ensures s.formed <= Next(s, step).formed
    ensures !step.Attempt? && !step.RetryAttempt? ==> Next(s, step).status == s.status
    ensures step.Attempt? ==> Next(s, step).status == Pipeline(s, s.hands[step.w].m, step.applied).status
    ensures step.RetryAttempt? ==> Next(s, step).status == Pipeline(s, s.retry.m, step.applied).status
  {
    hide Stores;
    hide SetTickets;
    hide Possible;
    hide InMemory;
  }

  lemma StatusStep(s: State, step: Step)
    requires Ledger(s) && StatusOk(s) && Enabled(s, step)
    ensures StatusOk(Next(s, step))
  {
    StatusFrame(s, step);
    hide Ledger;
    hide Next;
    hide Pipeline;
    hide Stores;
    hide Announces;
    var s' := Next(s, step);
    match step
    case Attempt(w, applied, ok) =>
      HeldFormed(s, w, s.hands[w].m);
      StatusPipeline(s, s.hands[w].m, applied);
      AnnouncesMore(s'.status, s.formed, s'.formed);
    case RetryAttempt(applied, ok) =>
      RetryFormed(s);
      StatusPipeline(s, s.retry.m, applied);
      AnnouncesMore(s'.status, s.formed, s'.formed);
    case _ =>
      AnnouncesMore(s.status, s.formed, s'.formed);
  }

  lemma RetryFormed(s: State)
    requires Ledger(s) && s.retry.Trying?
    ensures s.retry.m in s.formed
  {
    InMemoryFormed(s, s.retry.m);
  }

  /** A worker writing its match is at its first or its second inline attempt. */
  ghost predicate AttemptsOk(s: State) {
    forall w :: 0 <= w < |s.hands| && s.hands[w].Writing? ==> s.hands[w].attempt == 1 || s.hands[w].attempt == 2
  }

  lemma AttemptsStep(s: State, step: Step)
    requires AttemptsOk(s) && Enabled(s, step)
    ensures AttemptsOk(Next(s, step))
  {
    hide Stores;
    hide Pipeline;
    hide InMemory;
    var s' := Next(s, step);
    match step
    case Form(w, m) => assert s'.hands == s.hands[w := Writing(m, 1)];
    case Attempt(w, applied, ok) => AttemptThenDefer(s, w, applied, ok);
    case Defer(w) => assert s'.hands == s.hands[w := Deferred];
    case CountDeferred(w) => assert s'.hands == s.hands[w := Free];
    case ProcessCrash => assert forall w :: 0 <= w < |s'.hands| ==> s'.hands[w] == Free;
    case RetryAttempt(applied, ok) => assert s'.hands == s.hands by { PipelineFrame(s, s.retry.m, applied); }
    case _ => assert s'.hands == s.hands;
  }

  /** An inline attempt that fails is followed by a second, and a second that fails by the
      retry queue; one that succeeds frees the worker. Nobody else's hands change. */
  lemma AttemptThenDefer(s: State, w: nat, applied: nat, ok: bool)
    requires AttemptsOk(s) && Enabled(s, Attempt(w, applied, ok))
    ensures var m, hands := s.hands[w].m, Next(s, Attempt(w, applied, ok)).hands;
            && |hands| == |s.hands| && (forall v :: 0 <= v < |hands| && v != w ==> hands[v] == s.hands[v])
            && hands[w] == if ok then Free else if s.hands[w] == Writing(m, 1) then Writing(m, 2) else Deferring(m)
  {
    hide Pipeline;
  }

  /** What a step does to the workers' hands. */
  lemma HandsAfter(s: State, step: Step)
    requires Enabled(s, step)
    ensures Next(s, step).hands ==
              match step
              case Form(w, m) => s.hands[w := Writing(m, 1)]
              case Attempt(w, applied, ok) => s.hands[w := AfterAttempt(s.hands[w].m, s.hands[w].attempt, ok)]
              case Defer(w) => s.hands[w := Deferred]
              case CountDeferred(w) => s.hands[w := Free]
              case ProcessCrash => seq(|s.hands|, _ => Free)
              case _ => s.hands
  {
    hide Stores;
    hide InMemory;
    match step
    case RetryAttempt(applied, ok) => PipelineFrame(s, s.retry.m, applied);
    case _ =>
      hide Pipeline;
  }

  /** The poller reads up to fifty new entries, the next ones in order. */
  lemma PollerReads(s: State, n: nat)
    ensures Enabled(s, Read(n)) <==> s.poller.Waiting? && n <= 50 && s.delivered + n <= |s.stream|
    ensures Enabled(s, Read(n)) && n > 0 ==>
              var t := Next(s, Read(n));
              && t == s.(delivered := s.delivered + n, poller := t.poller) && t.poller.Holding? && |t.poller.batch| == n
              && forall i :: 0 <= i < n ==> t.poller.batch[i] == s.delivered + i
  {
  }

  /** After a restart it reads up to five hundred entries delivered and not acknowledged. */
  lemma PollerRereads(s: State, batch: seq<nat>)
    ensures Enabled(s, ReadPending(batch)) <==>
              s.poller.Waiting? && |batch| <= 500 && forall p :: p in batch ==> p < s.delivered && p !in s.acked
  {
    assert forall i :: 0 <= i < |batch| ==> batch[i] in batch;
  }

  /** It acknowledges exactly what it stored, or nothing on an error. */
  lemma PollerAcks(s: State, ok: bool, p: nat)
    requires s.poller.Inserted?
    ensures Enabled(s, Ack(ok))
    ensures p in Next(s, Ack(ok)).acked <==> p in s.acked || (ok && p in s.poller.batch)
  {
    var batch := s.poller.batch;
    if p in batch {
      var i :| 0 <= i < |batch| && batch[i] == p;
    }
  }

  // ---- All runs ----

  ghost predicate Inv(s: State) {
    Ledger(s) && CountersOk(s) && SentOk(s) && GroupOk(s) && StatusOk(s) && TracedOk(s) && AttemptsOk(s)
  }

  lemma InvInit(workers: nat)
    ensures Inv(Init(workers))
  {
    AllFree(Init(workers).hands);
  }

  lemma InvStep(s: State, step: Step)
    requires Inv(s) && Enabled(s, step)
    ensures Inv(Next(s, step))
  {
    BooksStep(s, step);
    SentStep(s, step);
    GroupStep(s, step);
    StatusStep(s, step);
    TracedStep(s, step);
    AttemptsStep(s, step);
    hide Next;
    hide Enabled;
    hide Ledger;
    hide CountersOk;
    hide SentOk;
    hide GroupOk;
    hide StatusOk;
    hide TracedOk;
    hide AttemptsOk;
  }

  ghost predicate Runs(s: State, steps: seq<Step>, t: State)
    decreases |steps|
  {
    if steps == [] then s == t else Enabled(s, steps[0]) && Runs(Next(s, steps[0]), steps[1..], t)
  }

  lemma {:induction false} InvRuns(s: State, steps: seq<Step>, t: State)
    requires Inv(s) && Runs(s, steps, t)
    ensures Inv(t)
    decreases |steps|
  {
    hide Inv;
    hide Enabled;
    hide Next;
    if steps != [] {
      InvStep(s, steps[0]);
      InvRuns(Next(s, steps[0]), steps[1..], t);
    }
  }

  lemma {:induction false} OnlyCrashesLose(s: State, steps: seq<Step>, t: State)
    requires Runs(s, steps, t) && s.lost == multiset{}
    requires forall i :: 0 <= i < |steps| ==> !steps[i].ProcessCrash?
    ensures t.lost == multiset{}
    decreases |steps|
  {
    hide Stores;
    hide SetTickets;
    if steps != [] {
      OnlyCrashesLose(Next(s, steps[0]), steps[1..], t);
    }
  }

  /** The match is stored, or some stream entry of it is yet to be delivered or is
      delivered and unacknowledged. */
  ghost predicate OnItsWay(s: State, m: MatchResult) {
    (Stored(s.db, m) && (FreshIds(s.formed) ==> OwnStored(s.db, m)))
    || exists p :: 0 <= p < |s.stream| && s.stream[p] == m && (p >= s.delivered || p !in s.acked)
  }

  /** Forgotten by a crash: nothing in memory and nothing on the stream names the match. */
  ghost predicate Gone(s: State, m: MatchResult) {
    m in s.lost && m !in InMemory(s) && m !in s.stream
  }

  /** A match on the stream is on its way; under fresh ids no other is. */
  lemma OnStreamIff(t: State, m: MatchResult)
    requires Inv(t) && m in t.formed
    ensures m in t.stream ==> OnItsWay(t, m)
    ensures FreshIds(t.formed) && OnItsWay(t, m) ==> m in t.stream
  {
    if m in t.stream {
      var p :| 0 <= p < |t.stream| && t.stream[p] == m;
      if Stored(t.db, m) && FreshIds(t.formed) {
        OwnRow(t, m);
      }
    } else if FreshIds(t.formed) && OnItsWay(t, m) {
      RowOnStream(t, m);
    }
  }

  lemma RowOnStream(t: State, m: MatchResult)
    requires TracedOk(t) && FreshIds(t.formed) && m in t.formed && Stored(t.db, m)
    ensures m in t.stream
  {
    StoredHasRow(t.db, m);
    var p :| 0 <= p < |t.stream| && t.stream[p].matchId == m.matchId
             && AsI32(t.stream[p].spread) == t.db.matches[m.matchId].spread;
    assert t.stream[p] in t.stream;
  }

  lemma FormedIsSomewhere(t: State, m: MatchResult)
    requires Inv(t) && m in t.formed
    ensures m in InMemory(t) || OnItsWay(t, m) || Gone(t, m)
    ensures FreshIds(t.formed) ==> (m !in InMemory(t) && !OnItsWay(t, m) <==> Gone(t, m))
  {
    OnStreamIff(t, m);
    hide OnItsWay;
    hide FreshIds;
    assert m in InMemory(t) || m in t.sent || m in t.lost;
  }

  /** Write-behind safety: over every run, with its crashes, a match formed is in a worker's
      hands, the retry queue or the retry thread's hands, or on its way to Postgres or
      there, or gone; under fresh ids it is one of these only. Without a process crash,
      whatever pipelines failed part-way and whichever poller crashed, none is gone. */
  lemma NoMatchIsLost(workers: nat, steps: seq<Step>, t: State, m: MatchResult)
    requires Runs(Init(workers), steps, t) && m in t.formed
    ensures m in InMemory(t) || OnItsWay(t, m) || Gone(t, m)
    ensures FreshIds(t.formed) ==> (m !in InMemory(t) && !OnItsWay(t, m) <==> Gone(t, m))
    ensures (forall i :: 0 <= i < |steps| ==> !steps[i].ProcessCrash?) ==> m !in t.lost
  {
    InvInit(workers);
    InvRuns(Init(workers), steps, t);
    FormedIsSomewhere(t, m);
    if forall i :: 0 <= i < |steps| ==> !steps[i].ProcessCrash? {
      OnlyCrashesLose(Init(workers), steps, t);
    }
  }

  // ---- What a crash forgets ----

  /** A step that moves matches between places takes none out of memory but to the stream,
      and brings none back. */
  ghost predicate Keeps(s: State, s': State) {
    && s.stream <= s'.stream && s'.lost == s.lost
    && (forall m :: m in InMemory(s) ==> m in InMemory(s') || m in s'.stream)
    && (forall m :: m in InMemory(s') ==> m in InMemory(s))
    && (forall m :: m in s'.stream ==> m in s.stream || m in InMemory(s))
  }

  /** From the ledgers before and after: what left memory was sent. */
  lemma LedgerKeeps(s: State, s': State)
    requires Ledger(s) && Ledger(s') && SentOk(s') && s'.formed == s.formed && s'.lost == s.lost
    requires s.stream <= s'.stream && s.sent <= s'.sent
    requires forall m :: m in s'.stream ==> m in s.stream || m in InMemory(s)
    ensures Keeps(s, s')
  {
    hide InMemory;
    forall m | m in InMemory(s) ensures m in InMemory(s') || m in s'.stream {
      LedgerCount(s, m);
      LedgerCount(s', m);
      assert m !in InMemory(s') ==> m in s'.sent;
    }
    forall m | m in InMemory(s') ensures m in InMemory(s) {
      LedgerCount(s, m);
      LedgerCount(s', m);
    }
  }

  lemma LedgerCount(s: State, m: MatchResult)
    requires Ledger(s)
    ensures s.formed[m] == InMemory(s)[m] + s.sent[m] + s.lost[m]
  {
    hide InMemory;
  }

  lemma StreamFrom(s: State, step: Step)
    requires Enabled(s, step) && !step.Form? && !step.ProcessCrash?
    ensures var s' := Next(s, step);
            && s'.formed == s.formed && s'.lost == s.lost && s.sent <= s'.sent
            && forall m :: m in s'.stream ==> m in s.stream || m in InMemory(s)
  {
    hide Stores;
    hide SetTickets;
    hide InMemory;
    if step.Attempt? {
      assert s.hands[step.w].m in InMemory(s) by { HandInMemory(s, step.w); }
      PipelineStream(s, s.hands[step.w].m, step.applied);
      hide Pipeline;
    } else if step.RetryAttempt? {
      assert s.retry.m in InMemory(s) by { TryingInMemory(s); }
      PipelineStream(s, s.retry.m, step.applied);
      hide Pipeline;
    }
  }

  lemma HandInMemory(s: State, w: nat)
    requires w < |s.hands| && s.hands[w].Writing?
    ensures s.hands[w].m in InMemory(s)
  {
    HandsHold(s.hands, w);
    assert s.hands[w].m in Held(s.hands[w]);
  }

  lemma TryingInMemory(s: State)
    requires s.retry.Trying?
    ensures s.retry.m in InMemory(s)
  {
  }

  /** Exactly which matches a step loses: a process crash those in memory that no pipeline
      had brought to the stream, any other step none; and none comes back unless an
      identical match is formed. */
  lemma GoneStep(s: State, step: Step, m: MatchResult)
    requires Inv(s) && Enabled(s, step) && m in s.formed && (step.Form? ==> step.m != m)
    ensures Gone(Next(s, step), m) <==> Gone(s, m) || (step.ProcessCrash? && m in InMemory(s) && m !in s.stream)
  {
    var s' := Next(s, step);
    if step.ProcessCrash? {
      CrashGone(s, m);
    } else if step.Form? {
      FormGone(s, step.w, step.m, m);
    } else {
      InvStep(s, step);
      SentStep(s, step);
      StreamFrom(s, step);
      hide *;
      InvLedger(s);
      InvLedger(s');
      LedgerKeeps(s, s');
      KeepsGone(s, s', m);
    }
  }

  lemma InvLedger(s: State)
    requires Inv(s)
    ensures Ledger(s) && SentOk(s)
  {
  }

  lemma KeepsGone(s: State, s': State, m: MatchResult)
    requires Keeps(s, s')
    ensures Gone(s', m) <==> Gone(s, m)
  {
    hide InMemory;
  }

  lemma CrashLeaves(s: State)
    ensures Enabled(s, ProcessCrash)
    ensures var t := Next(s, ProcessCrash);
            t.lost == s.lost + InMemory(s) && t.stream == s.stream && t.formed == s.formed
  {
    hide InMemory;
  }

  lemma CrashGone(s: State, m: MatchResult)
    ensures Gone(Next(s, ProcessCrash), m) <==> Gone(s, m) || (m in InMemory(s) && m !in s.stream)
  {
    CrashMoves(s);
    var s' := Next(s, ProcessCrash);
    CrashLeaves(s);
    hide InMemory;
    hide Next;
  }

  lemma FormGone(s: State, w: nat, formed: MatchResult, m: MatchResult)
    requires Enabled(s, Form(w, formed)) && formed != m
    ensures Gone(Next(s, Form(w, formed)), m) <==> Gone(s, m)
  {
    FormMoves(s, w, formed);
    var s' := Next(s, Form(w, formed));
    assert s'.lost == s.lost && s'.stream == s.stream;
    hide InMemory;
    hide Next;
    hide Enabled;
    OneMore(InMemory(s'), InMemory(s), formed, m);
  }

  lemma OneMore(x: multiset<MatchResult>, y: multiset<MatchResult>, added: MatchResult, m: MatchResult)
    requires x + multiset{} == y + multiset{added} && added != m
    ensures m in x <==> m in y
  {
    assert (x + multiset{})[m] == (y + multiset{added})[m];
  }

  // ---- From a formed match to Postgres ----

  /** When nothing fails and the tables accept it, a match formed by a free worker, with no
      backlog on the stream, is on the stream, told to its players, read, stored and
      acknowledged after five steps. */
  lemma MatchIsStored(s: State, w: nat, m: MatchResult) returns (t: State)
    requires Inv(s) && w < |s.hands| && s.hands[w].Free? && s.poller.Waiting? && s.delivered == |s.stream|
    requires Tables.Commits(s.db, [ToEntry(m)])
    ensures Runs(s, [Form(w, m), Attempt(w, Commands(m), true), Read(1), Flush(true), Ack(true)], t)
    ensures t.stream == s.stream + [m] && t.delivered == |t.stream| && t.acked == s.acked + {|s.stream|}
    ensures t.hands == s.hands && t.poller.Waiting? && t.sent == s.sent + multiset{m} && t.lost == s.lost
    ensures Stored(t.db, m) && t.db == Tables.Inserted(s.db, [ToEntry(m)])
    ensures forall k: nat, u :: Kth(m, k, u) ==> u in t.status && t.status[u] == m
  {
    hide *;
    var s1 := AfterForm(s, w, m);
    var s2 := AfterSuccess(s1, w, m);
    var s3 := AfterRead(s2, m);
    var s4 := AfterFlush(s3, m);
    t := AfterAck(s4);
    assert s2.hands == s.hands;
    var steps := [Form(w, m), Attempt(w, Commands(m), true), Read(1), Flush(true), Ack(true)];
    FiveSteps(s, s1, s2, s3, s4, t, steps);
  }

  lemma AfterForm(s: State, w: nat, m: MatchResult) returns (t: State)
    requires w < |s.hands| && s.hands[w].Free?
    ensures Enabled(s, Form(w, m)) && t == Next(s, Form(w, m))
    ensures t == s.(formed := s.formed + multiset{m}, hands := s.hands[w := Writing(m, 1)])
  {
    t := Next(s, Form(w, m));
  }

  lemma AfterSuccess(s: State, w: nat, m: MatchResult) returns (t: State)
    requires w < |s.hands| && s.hands[w] == Writing(m, 1)
    ensures var x := Attempt(w, Commands(m), true); Enabled(s, x) && t == Next(s, x)
    ensures t == s.(status := t.status, stream := s.stream + [m], sent := s.sent + multiset{m}, hands := s.hands[w := Free])
    ensures forall k: nat, u :: Kth(m, k, u) ==> u in t.status && t.status[u] == m
  {
    var x := Attempt(w, Commands(m), true);
    t := Next(s, x);
    PipelineFrame(s, m, Commands(m));
    AttemptLeaves(s, x);
    hide Pipeline;
    assert forall k: nat, u :: Kth(m, k, u) ==> k < Commands(m);
  }

  lemma AfterRead(s: State, m: MatchResult) returns (t: State)
    requires s.poller.Waiting? && |s.stream| > 0 && s.delivered == |s.stream| - 1
    ensures Enabled(s, Read(1)) && t == Next(s, Read(1))
    ensures t == s.(delivered := |s.stream|, poller := Holding([s.delivered]))
  {
    t := Next(s, Read(1));
    assert t.poller.batch == [s.delivered];
  }

  lemma AfterFlush(s: State, m: MatchResult) returns (t: State)
    requires |s.stream| > 0 && s.stream[|s.stream| - 1] == m && s.poller == Holding([|s.stream| - 1])
    requires Tables.Commits(s.db, [ToEntry(m)])
    ensures Enabled(s, Flush(true)) && t == Next(s, Flush(true))
    ensures t == s.(db := Tables.Inserted(s.db, [ToEntry(m)]), poller := Inserted([|s.stream| - 1])) && Stored(t.db, m)
  {
    t := Next(s, Flush(true));
    assert Entries(s.stream, s.poller.batch) == [ToEntry(m)];
    BatchStores(s.db, s.stream, s.poller.batch, 0);
    hide Stored;
    hide OwnStored;
    hide Tables.Inserted;
    hide Tables.Commits;
  }

  lemma AfterAck(s: State) returns (t: State)
    requires s.poller.Inserted? && |s.poller.batch| == 1
    ensures Enabled(s, Ack(true)) && t == Next(s, Ack(true))
    ensures t == s.(acked := s.acked + {s.poller.batch[0]}, poller := Waiting)
  {
    t := Next(s, Ack(true));
  }

  lemma FiveSteps(s: State, s1: State, s2: State, s3: State, s4: State, t: State, steps: seq<Step>)
    requires |steps| == 5 && Enabled(s, steps[0]) && s1 == Next(s, steps[0]) && Enabled(s1, steps[1]) && s2 == Next(s1, steps[1])
    requires Enabled(s2, steps[2]) && s3 == Next(s2, steps[2]) && Enabled(s3, steps[3]) && s4 == Next(s3, steps[3])
    requires Enabled(s4, steps[4]) && t == Next(s4, steps[4])
    ensures Runs(s, steps, t)
  {
    hide Enabled;
    hide Next;
    assert steps[1..][1..] == steps[2..] && steps[2..][1..] == steps[3..] && steps[3..][1..] == steps[4..] && steps[4..][1..] == [];
    assert Runs(t, [], t);
    assert Runs(s4, steps[4..], t);
    assert Runs(s3, steps[3..], t);
    assert Runs(s2, steps[2..], t);
    assert Runs(s1, steps[1..], t);
  }

  /** A match whose inline attempts fail twice waits behind those deferred before it; the
      retry thread takes the one that has waited longest and puts a failure at the back. */
  lemma RetryIsFifo(s: State, w: nat)
    requires w < |s.hands|
    ensures Enabled(s, Defer(w)) ==> Next(s, Defer(w)).retryQ == s.retryQ + [s.hands[w].m]
    ensures Enabled(s, RetryPop) ==>
              var t := Next(s, RetryPop); t.retry == Trying(s.retryQ[0]) && [s.retryQ[0]] + t.retryQ == s.retryQ
    ensures forall applied, ok :: Enabled(s, RetryAttempt(applied, ok)) ==>
              Next(s, RetryAttempt(applied, ok)).retry == if ok then Won else Requeuing(s.retry.m)
    ensures Enabled(s, RetryRequeue) ==>
              var t := Next(s, RetryRequeue); t.retry == Idle && t.retryQ == s.retryQ + [s.retry.m]
  {
    hide Pipeline;
  }

  /** From any reachable state with a free worker, a match formed just before a process
      crash is gone. */
  lemma CrashForgets(s: State, w: nat, m: MatchResult)
    requires Inv(s) && w < |s.hands| && s.hands[w].Free? && m !in s.stream
    ensures var s1 := Next(s, Form(w, m)); Gone(Next(s1, ProcessCrash), m)
  {
    var s1 := Next(s, Form(w, m));
    assert s1.hands[w] == Writing(m, 1) && s1.stream == s.stream;
    HandInMemory(s1, w);
    hide *;
    CrashGone(s1, m);
  }

  /** Had its pipeline been applied and then reported an error, it would not be, though it
      was in memory at the crash. */
  lemma CrashSpares(s: State, w: nat, m: MatchResult)
    requires Inv(s) && w < |s.hands| && s.hands[w].Free?
    ensures var s1, x := Next(s, Form(w, m)), Attempt(w, Commands(m), false);
            && Enabled(s1, x)
            && var t := Next(Next(s1, x), ProcessCrash); m in t.lost && !Gone(t, m) && OnItsWay(t, m)
  {
    var s1, x := Next(s, Form(w, m)), Attempt(w, Commands(m), false);
    FormedNow(s, w, m);
    hide *;
    InvStep(s, Form(w, m));
    FailedAfterAll(s1, w, m);
    InvStep(s1, x);
    CrashKeepsStream(Next(s1, x), w, m);
  }

  lemma FormedNow(s: State, w: nat, m: MatchResult)
    requires w < |s.hands| && s.hands[w].Free?
    ensures var s1 := Next(s, Form(w, m));
            Enabled(s, Form(w, m)) && |s1.hands| == |s.hands| && s1.hands[w] == Writing(m, 1) && m in s1.formed
  {
  }

  lemma FailedAfterAll(s: State, w: nat, m: MatchResult)
    requires w < |s.hands| && s.hands[w] == Writing(m, 1) && m in s.formed
    ensures var x := Attempt(w, Commands(m), false);
            && Enabled(s, x)
            && var t := Next(s, x);
               w < |t.hands| && t.hands[w] == Writing(m, 2) && m in t.stream && m in t.formed
  {
    PipelineFrame(s, m, Commands(m));
    hide Pipeline;
    var t := Next(s, Attempt(w, Commands(m), false));
    assert t.stream[|s.stream|] == m;
  }

  lemma CrashKeepsStream(s: State, w: nat, m: MatchResult)
    requires Inv(s) && w < |s.hands| && s.hands[w].Writing? && s.hands[w].m == m && m in s.stream && m in s.formed
    ensures var t := Next(s, ProcessCrash); m in t.lost && !Gone(t, m) && OnItsWay(t, m)
  {
    hide *;
    CrashLeaves(s);
    var t := Next(s, ProcessCrash);
    HandInMemory(s, w);
    InvStep(s, ProcessCrash);
    OnStreamIff(t, m);
    NotGone(t, m);
  }

  lemma NotGone(t: State, m: MatchResult)
    requires m in t.stream
    ensures !Gone(t, m)
  {
  }

  /** An acknowledged entry has its match row and all its player rows, across any crash. */
  lemma AcknowledgedIsStored(workers: nat, steps: seq<Step>, t: State, p: nat)
    requires Runs(Init(workers), steps, t) && p in t.acked
    ensures p < |t.stream| && Stored(t.db, t.stream[p])
    ensures FreshIds(t.formed) ==> OwnStored(t.db, t.stream[p])
  {
    InvInit(workers);
    InvRuns(Init(workers), steps, t);
    if FreshIds(t.formed) {
      assert t.stream[p] in t.stream;
      OwnRow(t, t.stream[p]);
    }
  }

  /** Whenever no worker is between handing a match over and counting it, the deferred
      matches are those retried successfully and those still pending. */
  lemma DeferredLedger(workers: nat, steps: seq<Step>, t: State)
    requires Runs(Init(workers), steps, t) && Counting(t.hands) == 0 && t.retry.Idle?
    ensures t.commitDeferred == t.retrySuccess + |t.retryQ|
  {
    InvInit(workers);
    InvRuns(Init(workers), steps, t);
  }
}
