/** The running process as threads and mutexes: workers, the ingestion thread, the
    snapshotter and the retry thread, interleaved one lock operation at a time. The
    players themselves live in the Custody state underneath; here are the program
    counters, the lock table and the counters. */
module Engine {
  import opened Base
  import opened Optimizer
  import opened Buckets
  import opened MatchPool
  import Worker
  import Custody

  datatype Mutex = BucketLock(b: nat) | CursorLock | RetryLock

  datatype Tid = Matcher(w: nat) | Ingestor | Snapshotter | Retrier

  /** Where a match worker is; what it has taken is the Custody state's hands[w]. `since`
      is the first enqueue to come when its peek began, for the proofs only. */
  datatype Pc =
    | Claim
    | Scan(window: seq<nat>, k: nat, approx: nat)
    | Peek(window: seq<nat>, k: nat, anchor: Option<nat>, oldest: nat, since: nat)
    | Harvest(window: seq<nat>, order: seq<nat>, pos: nat, since: nat)
    | Undo
    | Gate(window: seq<nat>, since: nat)
    | Settle
    | Commit
    | Defer

  /** Where the ingestion thread is: `start` is the first event of its batch of `n`, `i`
      the next to enqueue. */
  datatype Ingest =
    | ReadCursor
    | Fetch(last: nat)
    | Load(start: nat, n: nat, i: nat)
    | CountEnqueued(start: nat, n: nat, i: nat)
    | CountWaiting(start: nat, n: nat, i: nat)
    | Advance(newest: nat)

  datatype Snap = Asleep | Begin | Copying | Writing | Trimming

  datatype Retry = Pop | Send | Requeue

  /** The database's 32-bit rating, clamped at zero. */
  type Rating = r: nat | r < 0x8000_0000

  datatype Event = Event(id: int, rating: Rating)

  /** `stream` is every event ever published; those below `trimmed` are gone from Redis. */
  datatype State = State(
    core: Custody.State,
    pcs: seq<Pc>,
    ingest: Ingest,
    snap: Snap,
    retry: Retry,
    holder: map<Mutex, Tid>,
    stream: seq<Event>,
    trimmed: nat,
    clock: nat,
    ticket: nat,
    nextMid: nat,
    waiting: int,
    playersEnqueued: int,
    matchesFormed: int,
    formedAt: seq<nat>)   // when each match of this boot was formed

  datatype Step =
    | Acquire(t: Tid)
    | Act(t: Tid)
    | TryFails(w: nat)
    | Local(t: Tid, choice: nat)
    | Publish(e: Event)
    | Tick
    | Crash

  datatype Config = Config(g: Grid, stride: nat, workers: nat)

  ghost predicate ValidConfig(c: Config) {
    0 < c.stride
  }

  // ---- Locks ----

  function Targets(c: Config, window: seq<nat>): seq<nat> {
    if window == [] then [] else window + Borders(Edge(window), c.g.total)
  }

  function Hand(s: State, w: nat): seq<Taken> {
    if w < |s.core.hands| then s.core.hands[w] else []
  }

  /** The mutex a worker's next action needs, if any. */
  function WorkerWants(c: Config, s: State, w: nat): Option<Mutex>
    requires w < |s.pcs|
  {
    match s.pcs[w]
    case Scan(window, k, _) =>
      if k < |Targets(c, window)| then Some(BucketLock(Targets(c, window)[k])) else None
    case Peek(window, k, _, _, _) => if k < |window| then Some(BucketLock(window[k])) else None
    case Harvest(_, order, pos, _) =>
      if pos < |order| && |Hand(s, w)| < 10 then Some(BucketLock(order[pos])) else None
    case Undo => if Hand(s, w) == [] then None else Some(BucketLock(Hand(s, w)[|Hand(s, w)| - 1].origin))
    case Defer => Some(RetryLock)
    case _ => None
  }

  function EventBucket(c: Config, s: State, e: nat): nat {
    if e < |s.stream| then BucketIndex(c.g, s.stream[e].rating) else 0
  }

  function Wants(c: Config, s: State, t: Tid): Option<Mutex> {
    match t
    case Matcher(w) => if w < |s.pcs| then WorkerWants(c, s, w) else None
    case Ingestor =>
      (match s.ingest
       case ReadCursor => Some(CursorLock)
       case Load(start, n, i) => Some(BucketLock(EventBucket(c, s, start + i)))
       case Advance(_) => Some(CursorLock)
       case _ => None)
    case Snapshotter =>
      (match s.snap
       case Begin => Some(CursorLock)
       case Copying =>
         if s.core.copy.Some? && s.core.copy.value.next < c.g.total then Some(BucketLock(s.core.copy.value.next)) else None
       case _ => None)
    case Retrier => if s.retry == Send then None else Some(RetryLock)
  }

  /** A border bucket is only tried, never waited for. */
  predicate OnlyTries(s: State, t: Tid) {
    t.Matcher? && t.w < |s.pcs| && s.pcs[t.w].Harvest? && s.pcs[t.w].pos >= |s.pcs[t.w].window|
  }

  predicate Holds(s: State, t: Tid, m: Mutex) {
    m in s.holder && s.holder[m] == t
  }

  // ---- Steps ----

  /** What a thread does to the players inside its critical section or between two. */
  function CoreOp(c: Config, s: State, step: Step): Option<Custody.Op> {
    match step
    case Act(Matcher(w)) =>
      if w >= |s.pcs| then None else
      (match s.pcs[w]
       case Harvest(_, order, pos, _) =>
         if pos < |order| && order[pos] < |s.core.queues| && |Hand(s, w)| <= 10
         then Some(Custody.TakeFront(w, order[pos], Min(10 - |Hand(s, w)|, |s.core.queues[order[pos]]|)))
         else None
       case Undo => Some(Custody.PutBack(w))
       case _ => None)
    case Act(Ingestor) =>
      (match s.ingest
       case Load(start, n, i) => Some(Custody.Enqueue(Arrival(s, start + i)))
       case Advance(_) => Some(Custody.Publish)
       case _ => None)
    case Act(Snapshotter) =>
      (match s.snap
       case Begin => Some(Custody.BeginCopy)
       case Copying => Some(Custody.CopyBucket)
       case _ => None)
    case Local(Snapshotter, choice) =>
      if s.snap == Writing then Some(if choice == 0 then Custody.Save else Custody.Drop) else None
    case Crash => Some(Custody.Restart(s.clock))
    case _ => None
  }

  function Arrival(s: State, e: nat): Player {
    var ev := if e < |s.stream| then s.stream[e] else Event(0, 0);
    Player(ev.id, ev.rating, s.clock, s.core.nextToken, e)
  }

  ghost predicate Accepts(s: State, w: nat) {
    |Hand(s, w)| == 10 && Worker.Admits(Players(Hand(s, w)), s.clock)
  }

  /** The gate is the only local step of a worker that touches the players. */
  ghost function GateOp(s: State, w: nat): Custody.Op {
    if Accepts(s, w) then Custody.Form(w) else Custody.Rehome(w)
  }

  ghost function StepOp(c: Config, s: State, step: Step): Option<Custody.Op> {
    match step
    case Local(Matcher(w), _) => if w < |s.pcs| && s.pcs[w].Gate? then Some(GateOp(s, w)) else None
    case _ => CoreOp(c, s, step)
  }

  ghost predicate Enabled(c: Config, s: State, step: Step) {
    match step
    case Acquire(t) => Wants(c, s, t).Some? && Wants(c, s, t).value !in s.holder
    case Act(t) => Wants(c, s, t).Some? && Holds(s, t, Wants(c, s, t).value)
    case TryFails(w) =>
      w < |s.pcs| && OnlyTries(s, Matcher(w)) && WorkerWants(c, s, w).Some?
      && WorkerWants(c, s, w).value in s.holder && s.holder[WorkerWants(c, s, w).value] != Matcher(w)
    case Local(t, choice) =>
      && Wants(c, s, t) == None
      && (match t
          case Matcher(w) => w < |s.pcs|
          case Ingestor => s.ingest.Fetch? ==> choice <= 100 && Max(s.ingest.last, s.trimmed) + choice <= |s.stream|
          case Snapshotter => s.snap.Trimming? ==> s.trimmed <= choice <= s.core.disk.cursor
          case Retrier => true)
    case _ => true
  }

  function Max(a: nat, b: nat): nat {
    if a <= b then b else a
  }

  /** A worker's critical section, under the lock its counter names. */
  function WorkerActs(c: Config, s: State, w: nat): Pc
    requires w < |s.pcs|
  {
    match s.pcs[w]
    case Scan(window, k, approx) =>
      var b := if k < |Targets(c, window)| then Targets(c, window)[k] else 0;
      Scan(window, k + 1, approx + (if b < |s.core.queues| then |s.core.queues[b]| else 0))
    case Peek(window, k, anchor, oldest, since) =>
      var q := if k < |window| && window[k] < |s.core.queues| then s.core.queues[window[k]] else [];
      if q != [] && (anchor.None? || q[0].enqueuedAt < oldest)
      then Peek(window, k + 1, Some(window[k]), q[0].enqueuedAt, since)
      else Peek(window, k + 1, anchor, oldest, since)
    case Harvest(window, order, pos, since) => Harvest(window, order, pos + 1, since)
    case Defer => Claim
    case pc => pc
  }

  /** A worker's step between critical sections. */
  ghost function WorkerMoves(c: Config, s: State, w: nat, choice: nat): Pc
    requires w < |s.pcs| && ValidConfig(c)
  {
    match s.pcs[w]
    case Claim => Scan(Worker.Window(s.ticket, c.stride, c.g.total), 0, 0)
    case Scan(window, _, approx) => if approx < 10 then Claim else Peek(window, 0, None, 0, s.core.nextToken)
    case Peek(window, _, anchor, _, since) =>
      if anchor.None? || window == [] then Claim
      else Harvest(window, DrainOrder(window, anchor.value, c.g.total), 0, since)
    case Harvest(window, _, _, since) => if |Hand(s, w)| < 10 then Undo else Gate(window, since)
    case Undo => Claim
    case Gate(_, _) => if Accepts(s, w) then Settle else Undo
    case Settle => Commit
    case Commit => if choice == 0 then Claim else Defer
    case Defer => Defer
  }

  function IngestActs(s: State): Ingest {
    match s.ingest
    case ReadCursor => Fetch(s.core.cursor)
    case Load(start, n, i) => CountEnqueued(start, n, i)
    case Advance(_) => ReadCursor
    case x => x
  }

  function IngestMoves(s: State, choice: nat): Ingest {
    match s.ingest
    case Fetch(last) => if choice == 0 then ReadCursor else Load(Max(last, s.trimmed), choice, 0)
    case CountEnqueued(start, n, i) => CountWaiting(start, n, i)
    case CountWaiting(start, n, i) => if i + 1 < n then Load(start, n, i + 1) else Advance(start + n)
    case x => x
  }

  function SnapActs(s: State): Snap {
    if s.snap == Begin then Copying else s.snap
  }

  function SnapMoves(s: State): Snap {
    match s.snap
    case Asleep => Begin
    case Copying => Writing
    case Writing => Trimming
    case Trimming => Asleep
    case Begin => Begin
  }

  ghost function NewCore(c: Config, s: State, step: Step): Custody.State {
    var op := StepOp(c, s, step);
    if op.Some? && Custody.Enabled(c.g, s.core, op.value) then Custody.Apply(c.g, s.core, op.value) else s.core
  }

  /** The state with its players moved on and a mutex released. */
  ghost function Released(c: Config, s: State, t: Tid, core: Custody.State): State {
    var m := Wants(c, s, t);
    s.(core := core, holder := if m.Some? then s.holder - {m.value} else s.holder)
  }

  ghost function Next(c: Config, s: State, step: Step): State
    requires Enabled(c, s, step) && ValidConfig(c)
  {
    var core := NewCore(c, s, step);
    match step
    case Acquire(t) => s.(holder := s.holder[Wants(c, s, t).value := t])
    case TryFails(w) => s.(pcs := s.pcs[w := Undo])
    case Act(Matcher(w)) => Released(c, s, Matcher(w), core).(pcs := s.pcs[w := WorkerActs(c, s, w)])
    case Act(Ingestor) => Released(c, s, Ingestor, core).(ingest := IngestActs(s))
    case Act(Snapshotter) => Released(c, s, Snapshotter, core).(snap := SnapActs(s))
    case Act(Retrier) => Released(c, s, Retrier, core).(retry := if s.retry == Pop then Send else Pop)
    case Local(Matcher(w), choice) =>
      s.(core := core, pcs := s.pcs[w := WorkerMoves(c, s, w, choice)],
         ticket := if s.pcs[w].Claim? then s.ticket + c.stride else s.ticket,
         nextMid := if s.pcs[w].Gate? then s.nextMid + 1 else s.nextMid,
         matchesFormed := if s.pcs[w].Gate? && Accepts(s, w) then s.matchesFormed + 1 else s.matchesFormed,
         formedAt := if s.pcs[w].Gate? && Accepts(s, w) then s.formedAt + [s.clock] else s.formedAt,
         waiting := if s.pcs[w].Settle? then s.waiting - 10 else s.waiting)
    case Local(Ingestor, choice) =>
      s.(ingest := IngestMoves(s, choice),
         playersEnqueued := if s.ingest.CountEnqueued? then s.playersEnqueued + 1 else s.playersEnqueued,
         waiting := if s.ingest.CountWaiting? then s.waiting + 1 else s.waiting)
    case Local(Snapshotter, choice) =>
      s.(core := core, snap := SnapMoves(s), trimmed := if s.snap.Trimming? then choice else s.trimmed)
    case Local(Retrier, choice) => s.(retry := if choice == 0 then Pop else Requeue)
    case Publish(e) => s.(stream := s.stream + [e])
    case Tick => s.(clock := s.clock + 1)
    case Crash =>
      var n := |s.core.disk.saved|;
      State(core, seq(|s.pcs|, _ => Claim), ReadCursor, Asleep, Pop, map[], s.stream, s.trimmed, s.clock, 0, 1, n, n, 0, [])
  }

  function Init(c: Config): State {
    State(Custody.Init(c.g, c.workers), seq(c.workers, _ => Claim), ReadCursor, Asleep, Pop, map[], [], 0, 0, 0, 1, 0, 0, 0, [])
  }

  // ---- The invariant of the threads ----

  ghost predicate WindowOk(c: Config, window: seq<nat>) {
    window != [] && Indices(window, c.g.total)
  }

  ghost predicate PcOk(c: Config, pc: Pc, hand: seq<Taken>) {
    match pc
    case Scan(window, k, _) => WindowOk(c, window) && hand == []
    case Peek(window, k, anchor, _, _) =>
      WindowOk(c, window) && hand == [] && (anchor.Some? ==> anchor.value in window)
    case Harvest(window, order, pos, _) => WindowOk(c, window) && Indices(order, c.g.total) && pos <= |order| && |hand| <= 10
    case Undo => true
    case Gate(window, _) => WindowOk(c, window) && |hand| == 10
    case _ => hand == []
  }

  ghost predicate PcsOk(c: Config, s: State) {
    |s.pcs| == |s.core.hands| == c.workers
    && forall w :: 0 <= w < |s.pcs| ==> PcOk(c, s.pcs[w], s.core.hands[w])
  }

  ghost predicate IngestOk(s: State) {
    && s.core.frontier <= |s.stream| && s.trimmed <= s.core.disk.cursor
    && match s.ingest
       case ReadCursor => s.core.cursor == s.core.frontier
       case Fetch(last) => last == s.core.cursor == s.core.frontier
       case Load(start, n, i) => start + i == s.core.frontier && i < n <= 100 && start + n <= |s.stream|
       case CountEnqueued(start, n, i) => start + i + 1 == s.core.frontier && i < n <= 100 && start + n <= |s.stream|
       case CountWaiting(start, n, i) => start + i + 1 == s.core.frontier && i < n <= 100 && start + n <= |s.stream|
       case Advance(newest) => newest == s.core.frontier
  }

  ghost predicate SnapOk(c: Config, s: State) {
    && (s.core.copy.Some? <==> s.snap.Copying? || s.snap.Writing?)
    && (s.snap.Writing? ==> s.core.copy.value.next == c.g.total)
  }

  /** Whoever holds a mutex is inside the critical section that needs exactly that mutex,
      so no thread holds two. */
  ghost predicate LocksOk(c: Config, s: State) {
    forall m :: m in s.holder ==> Wants(c, s, s.holder[m]) == Some(m)
  }

  ghost predicate ControlOk(c: Config, s: State) {
    ValidConfig(c) && PcsOk(c, s) && IngestOk(s) && SnapOk(c, s) && Custody.Inv(c.g, s.core)
  }

  lemma CoreFacts(g: Grid, s: Custody.State)
    requires Custody.Inv(g, s)
    ensures |s.queues| == g.total && s.disk.cursor <= s.cursor <= s.frontier
    ensures s.copy.Some? ==> s.copy.value.next <= g.total && s.disk.cursor <= s.copy.value.cursor
    ensures forall w :: 0 <= w < |s.hands| ==> AtHome(g, s.hands[w])
    ensures Custody.ArrivedInTime(s.enqueued)
  {
  }

  /** Arrivals so far are no later than the clock. */
  ghost predicate ClockOk(s: State) {
    s.core.enqueued != [] ==> s.core.enqueued[|s.core.enqueued| - 1].enqueuedAt <= s.clock
  }

  /** The threads never do to the players what the custody rules forbid. */
  lemma OpEnabled(c: Config, s: State, step: Step)
    requires ControlOk(c, s) && ClockOk(s) && Enabled(c, s, step)
    ensures var op := StepOp(c, s, step); op.Some? ==> Custody.Enabled(c.g, s.core, op.value)
  {
    hide Custody.Inv;
    CoreFacts(c.g, s.core);
    match step
    case Act(Matcher(w)) =>
      if s.pcs[w].Undo? {
        var hand := s.core.hands[w];
        assert AtHome(c.g, hand);
      }
    case _ =>
  }

  lemma CoreStep(c: Config, s: State, step: Step)
    requires ControlOk(c, s) && ClockOk(s) && Enabled(c, s, step)
    ensures Custody.Inv(c.g, NewCore(c, s, step)) && |NewCore(c, s, step).hands| == |s.core.hands|
    ensures Next(c, s, step).core == NewCore(c, s, step)
  {
    hide Custody.Inv;
    hide Custody.Enabled;
    hide Custody.Apply;
    hide Custody.Boot;
    var op := StepOp(c, s, step);
    if op.Some? {
      OpEnabled(c, s, step);
      Custody.InvStep(c.g, s.core, op.value);
    }
  }

  /** Each step changes at most one worker's hands, that of the worker who steps. */
  lemma PcsStep(c: Config, s: State, step: Step)
    requires ControlOk(c, s) && ClockOk(s) && Enabled(c, s, step)
    ensures PcsOk(c, Next(c, s, step))
  {
    hide Custody.Inv;
    hide DrainOrder;
    hide Accepts;
    OpEnabled(c, s, step);
    CoreFacts(c.g, s.core);
    match step
    case Act(Matcher(w)) => ActPc(c, s, w);
    case Local(Matcher(w), choice) => LocalPc(c, s, w, choice);
    case _ =>
  }

  lemma ActPc(c: Config, s: State, w: nat)
    requires ControlOk(c, s) && ClockOk(s) && Enabled(c, s, Act(Matcher(w)))
    ensures PcsOk(c, Next(c, s, Act(Matcher(w))))
  {
    hide Custody.Inv;
    hide Edge;
    OpEnabled(c, s, Act(Matcher(w)));
    CoreFacts(c.g, s.core);
    var s' := Next(c, s, Act(Matcher(w)));
    assert PcOk(c, s.pcs[w], s.core.hands[w]);
    assert PcOk(c, s'.pcs[w], s'.core.hands[w]);
  }

  lemma LocalPc(c: Config, s: State, w: nat, choice: nat)
    requires ControlOk(c, s) && ClockOk(s) && Enabled(c, s, Local(Matcher(w), choice))
    ensures PcsOk(c, Next(c, s, Local(Matcher(w), choice)))
  {
    hide Custody.Inv;
    hide Edge;
    hide DrainOrder;
    hide Worker.Window;
    hide Worker.Admits;
    OpEnabled(c, s, Local(Matcher(w), choice));
    CoreFacts(c.g, s.core);
    var s' := Next(c, s, Local(Matcher(w), choice));
    assert PcOk(c, s.pcs[w], s.core.hands[w]);
    match s.pcs[w] {
      case Peek(window, _, anchor, _, _) =>
        if anchor.Some? { OrderInRange(window, anchor.value, c.g.total); }
      case _ =>
    }
    assert PcOk(c, s'.pcs[w], s'.core.hands[w]);
  }

  /** What a step does to the part of the players' state the ingestion thread relies on. */
  lemma CursorFrame(c: Config, s: State, step: Step)
    requires ControlOk(c, s) && ClockOk(s) && Enabled(c, s, step)
    ensures var core := NewCore(c, s, step);
            && s.trimmed <= core.disk.cursor
            && (step.Local? && step.t == Snapshotter && s.snap.Trimming? ==> core.disk == s.core.disk)
            && (if step == Act(Ingestor) && s.ingest.Load?
                then core.frontier == s.core.frontier + 1 && core.cursor == s.core.cursor
                else if step == Act(Ingestor) && s.ingest.Advance?
                then core.frontier == s.core.frontier == core.cursor
                else if step.Crash? then core.frontier == core.cursor == s.core.disk.cursor
                else core.frontier == s.core.frontier && core.cursor == s.core.cursor)
  {
    hide Custody.Inv;
    hide PcsOk;
    hide Worker.Admits;
    hide Custody.Distribute;
    hide Custody.Held;
    OpEnabled(c, s, step);
    CoreFacts(c.g, s.core);
  }

  /** What a step does to the ingestion thread and the stream, whatever it does to the
      players. */
  lemma IngestFrame(c: Config, s: State, step: Step)
    requires ValidConfig(c) && Enabled(c, s, step)
    ensures var s' := Next(c, s, step);
            && s.stream <= s'.stream
            && s'.ingest == (if step.Crash? then ReadCursor
                             else if step == Act(Ingestor) then IngestActs(s)
                             else if step.Local? && step.t == Ingestor then IngestMoves(s, step.choice)
                             else s.ingest)
            && s'.trimmed == if step.Local? && step.t == Snapshotter && s.snap.Trimming? then step.choice else s.trimmed
  {
    hide NewCore;
    hide WorkerActs;
    hide WorkerMoves;
    hide Wants;
    hide Accepts;
    hide IngestActs;
    hide IngestMoves;
    hide SnapActs;
    hide SnapMoves;
  }

  lemma IngestChoices(c: Config, s: State, step: Step)
    requires Enabled(c, s, step)
    ensures step == Act(Ingestor) ==> s.ingest.Load? || s.ingest.Advance? || s.ingest == ReadCursor
    ensures step.Local? && step.t == Ingestor ==>
              !s.ingest.Load? && !s.ingest.Advance? && s.ingest != ReadCursor
              && (s.ingest.Fetch? ==> step.choice <= 100 && Max(s.ingest.last, s.trimmed) + step.choice <= |s.stream|)
    ensures step.Local? && step.t == Snapshotter && s.snap.Trimming? ==> step.choice <= s.core.disk.cursor
  {
    hide WorkerWants;
  }

  lemma ControlOpen(c: Config, s: State)
    requires ControlOk(c, s)
    ensures ValidConfig(c) && IngestOk(s) && SnapOk(c, s)
  {
    hide Custody.Inv;
    hide PcsOk;
    hide IngestOk;
    hide SnapOk;
  }

  lemma IngestStep(c: Config, s: State, step: Step)
    requires ControlOk(c, s) && ClockOk(s) && Enabled(c, s, step)
    ensures IngestOk(Next(c, s, step))
  {
    hide *;
    ControlOpen(c, s);
    CustodyHolds(c, s);
    CoreFacts(c.g, s.core);
    CursorFrame(c, s, step);
    CoreStep(c, s, step);
    IngestFrame(c, s, step);
    IngestChoices(c, s, step);
    var s' := Next(c, s, step);
    if step.Crash? {
      IngestRestarts(s, s');
    } else if step == Act(Ingestor) {
      IngestOnAct(s, s');
    } else if step.Local? && step.t == Ingestor {
      IngestOnMove(s, s', step.choice);
    } else {
      IngestOnOthers(s, s');
    }
  }

  lemma IngestRestarts(s: State, s': State)
    requires IngestOk(s) && s.core.disk.cursor <= s.core.frontier
    requires s.stream <= s'.stream && s'.ingest == ReadCursor && s'.trimmed <= s'.core.disk.cursor
    requires s'.core.frontier == s'.core.cursor == s.core.disk.cursor
    ensures IngestOk(s')
  {
  }

  lemma IngestOnAct(s: State, s': State)
    requires IngestOk(s) && (s.ingest.Load? || s.ingest.Advance? || s.ingest == ReadCursor)
    requires s.stream <= s'.stream && s'.ingest == IngestActs(s) && s'.trimmed <= s'.core.disk.cursor
    requires if s.ingest.Load? then s'.core.frontier == s.core.frontier + 1 && s'.core.cursor == s.core.cursor
             else if s.ingest.Advance? then s'.core.frontier == s.core.frontier == s'.core.cursor
             else s'.core.frontier == s.core.frontier && s'.core.cursor == s.core.cursor
    ensures IngestOk(s')
  {
  }

  lemma IngestOnMove(s: State, s': State, choice: nat)
    requires IngestOk(s) && !s.ingest.Load? && !s.ingest.Advance? && s.ingest != ReadCursor
    requires s.ingest.Fetch? ==> choice <= 100 && Max(s.ingest.last, s.trimmed) + choice <= |s.stream|
    requires s.core.disk.cursor <= s.core.frontier
    requires s.stream <= s'.stream && s'.ingest == IngestMoves(s, choice) && s'.trimmed <= s'.core.disk.cursor
    requires s'.core.frontier == s.core.frontier && s'.core.cursor == s.core.cursor
    ensures IngestOk(s')
  {
  }

  lemma IngestOnOthers(s: State, s': State)
    requires IngestOk(s) && s.stream <= s'.stream && s'.ingest == s.ingest && s'.trimmed <= s'.core.disk.cursor
    requires s'.core.frontier == s.core.frontier && s'.core.cursor == s.core.cursor
    ensures IngestOk(s')
  {
  }

  lemma ClockStep(c: Config, s: State, step: Step)
    requires ControlOk(c, s) && ClockOk(s) && Enabled(c, s, step)
    ensures ClockOk(Next(c, s, step))
  {
    hide *;
    CustodyHolds(c, s);
    CoreFacts(c.g, s.core);
    CoreStep(c, s, step);
    OpEnabled(c, s, step);
    NewCoreIs(c, s, step);
    ClockGrows(c, s, step);
    TimedOp(c, s, step);
    ClockKeeps(c.g, s, Next(c, s, step), StepOp(c, s, step));
  }

  lemma ClockGrows(c: Config, s: State, step: Step)
    requires ValidConfig(c) && Enabled(c, s, step)
    ensures s.clock <= Next(c, s, step).clock
  {
    hide NewCore;
    hide WorkerActs;
    hide WorkerMoves;
    hide Wants;
    hide Accepts;
  }

  /** Arrivals and restarts happen now. */
  lemma TimedOp(c: Config, s: State, step: Step)
    ensures var op := StepOp(c, s, step);
            && (op.Some? && op.value.Enqueue? ==> op.value.p.enqueuedAt == s.clock)
            && (op.Some? && op.value.Restart? ==> op.value.now == s.clock)
  {
    hide Accepts;
  }

  lemma ClockKeeps(g: Grid, s: State, s': State, op: Option<Custody.Op>)
    requires ClockOk(s) && s.clock <= s'.clock
    requires if op.Some? then Custody.Enabled(g, s.core, op.value) && s'.core == Custody.Apply(g, s.core, op.value)
             else s'.core == s.core
    requires op.Some? && op.value.Enqueue? ==> op.value.p.enqueuedAt == s.clock
    requires op.Some? && op.value.Restart? ==> op.value.now == s.clock
    ensures ClockOk(s')
  {
    hide Custody.EventsAt;
    hide Custody.Held;
    hide Custody.Distribute;
    hide Custody.Below;
  }

  /** What a step does to the snapshotter, whatever it does to the players. */
  lemma SnapFrame(c: Config, s: State, step: Step)
    requires ValidConfig(c) && Enabled(c, s, step)
    ensures Next(c, s, step).snap == if step.Crash? then Asleep
                                     else if step == Act(Snapshotter) then SnapActs(s)
                                     else if step.Local? && step.t == Snapshotter then SnapMoves(s)
                                     else s.snap
  {
    hide NewCore;
    hide WorkerActs;
    hide WorkerMoves;
    hide Wants;
    hide Accepts;
    hide IngestActs;
    hide IngestMoves;
    hide SnapActs;
    hide SnapMoves;
  }

  ghost predicate Snaps(step: Step) {
    step.Crash? || step == Act(Snapshotter) || (step.Local? && step.t == Snapshotter)
  }

  lemma SnapStep(c: Config, s: State, step: Step)
    requires ControlOk(c, s) && ClockOk(s) && Enabled(c, s, step)
    ensures SnapOk(c, Next(c, s, step))
    ensures !Snaps(step) ==> Next(c, s, step).core.copy == s.core.copy
  {
    hide *;
    ControlOpen(c, s);
    CustodyHolds(c, s);
    CoreFacts(c.g, s.core);
    CoreStep(c, s, step);
    OpEnabled(c, s, step);
    NewCoreIs(c, s, step);
    SnapFrame(c, s, step);
    SnapOp(c, s, step);
    SnapKeeps(c, s, Next(c, s, step), step, StepOp(c, s, step));
  }

  /** What the snapshotter does to its copy, and that nobody else touches it. */
  lemma SnapOp(c: Config, s: State, step: Step)
    requires Enabled(c, s, step) && |s.core.queues| == c.g.total
    ensures var op := StepOp(c, s, step);
            && (step.Crash? ==> op.Some? && op.value.Restart?)
            && (step == Act(Snapshotter) ==> op == Some(if s.snap == Begin then Custody.BeginCopy else Custody.CopyBucket)
                                             && (s.snap == Begin || s.snap == Copying))
            && (step.Local? && step.t == Snapshotter ==>
                  s.snap != Begin
                  && (s.snap == Copying && s.core.copy.Some? ==> s.core.copy.value.next >= c.g.total)
                  && op == if s.snap == Writing then Some(if step.choice == 0 then Custody.Save else Custody.Drop) else None)
            && (!Snaps(step) && op.Some? ==> !Copies(op.value))
  {
    hide WorkerWants;
    hide Accepts;
    hide Arrival;
  }

  ghost predicate Copies(op: Custody.Op) {
    op.BeginCopy? || op.CopyBucket? || op.Save? || op.Drop? || op.Restart?
  }

  lemma SnapKeeps(c: Config, s: State, s': State, step: Step, op: Option<Custody.Op>)
    requires SnapOk(c, s) && |s.core.queues| == c.g.total && (s.core.copy.Some? ==> s.core.copy.value.next <= c.g.total)
    requires if op.Some? then Custody.Enabled(c.g, s.core, op.value) && s'.core == Custody.Apply(c.g, s.core, op.value)
             else s'.core == s.core
    requires s'.snap == if step.Crash? then Asleep
                        else if step == Act(Snapshotter) then SnapActs(s)
                        else if step.Local? && step.t == Snapshotter then SnapMoves(s)
                        else s.snap
    requires step.Crash? ==> op.Some? && op.value.Restart?
    requires step == Act(Snapshotter) ==> op == Some(if s.snap == Begin then Custody.BeginCopy else Custody.CopyBucket)
                                          && (s.snap == Begin || s.snap == Copying)
    requires step.Local? && step.t == Snapshotter ==>
               s.snap != Begin && (s.snap == Copying && s.core.copy.Some? ==> s.core.copy.value.next >= c.g.total)
               && op == if s.snap == Writing then Some(if step.choice == 0 then Custody.Save else Custody.Drop) else None
    requires !Snaps(step) && op.Some? ==> !Copies(op.value)
    ensures SnapOk(c, s')
    ensures !Snaps(step) ==> s'.core.copy == s.core.copy
  {
    hide Custody.EventsAt;
    hide Custody.Held;
    hide Custody.Distribute;
    hide Custody.Below;
  }

  /** What a step does to the program counters of the workers. */
  lemma PcsAfter(c: Config, s: State, step: Step)
    requires ValidConfig(c) && Enabled(c, s, step)
    ensures Next(c, s, step).pcs ==
              match step
              case TryFails(w) => s.pcs[w := Undo]
              case Act(Matcher(w)) => s.pcs[w := WorkerActs(c, s, w)]
              case Local(Matcher(w), choice) => s.pcs[w := WorkerMoves(c, s, w, choice)]
              case Crash => seq(|s.pcs|, _ => Claim)
              case _ => s.pcs
  {
    hide NewCore;
    hide WorkerActs;
    hide WorkerMoves;
    hide Accepts;
  }

  function Mover(step: Step): Option<Tid> {
    match step
    case Acquire(t) => Some(t)
    case Act(t) => Some(t)
    case TryFails(w) => Some(Matcher(w))
    case Local(t, _) => Some(t)
    case _ => None
  }

  /** The worker whose hands an operation on the players moves, if any. */
  function Handler(op: Custody.Op): Option<nat> {
    match op
    case TakeFront(w, _, _) => Some(w)
    case PutBack(w) => Some(w)
    case Rehome(w) => Some(w)
    case Form(w) => Some(w)
    case _ => None
  }

  lemma OpHandler(c: Config, s: State, step: Step)
    ensures var op := StepOp(c, s, step);
            op.Some? && Handler(op.value).Some? ==> Mover(step) == Some(Matcher(Handler(op.value).value))
    ensures var op := StepOp(c, s, step); op.Some? && op.value.Restart? ==> step.Crash?
  {
    hide Accepts;
    hide Arrival;
  }

  lemma OpHands(g: Grid, core: Custody.State, op: Custody.Op, w: nat)
    requires Custody.Enabled(g, core, op) && Handler(op) != Some(w) && !op.Restart?
    ensures var core' := Custody.Apply(g, core, op);
            |core'.hands| == |core.hands| && (w < |core.hands| ==> core'.hands[w] == core.hands[w])
  {
    hide Custody.Held;
    hide Custody.EventsAt;
    hide Custody.AllHome;
  }

  /** Only a worker's own steps touch its hands. */
  lemma HandsFrame(c: Config, s: State, step: Step, w: nat)
    requires ControlOk(c, s) && ClockOk(s) && Enabled(c, s, step)
    requires Mover(step) != Some(Matcher(w)) && !step.Crash?
    ensures Hand(Next(c, s, step), w) == Hand(s, w)
  {
    CoreStep(c, s, step);
    OpEnabled(c, s, step);
    OpHandler(c, s, step);
    hide ControlOk;
    hide ClockOk;
    hide Enabled;
    hide Next;
    hide StepOp;
    hide Custody.Apply;
    hide Custody.Enabled;
    var op := StepOp(c, s, step);
    if op.Some? {
      OpHands(c.g, s.core, op.value, w);
    }
  }

  lemma MatcherWantsFrame(c: Config, s: State, step: Step, w: nat)
    requires ControlOk(c, s) && ClockOk(s) && Enabled(c, s, step)
    requires Mover(step) != Some(Matcher(w)) && !step.Crash?
    ensures Wants(c, Next(c, s, step), Matcher(w)) == Wants(c, s, Matcher(w))
  {
    assert ValidConfig(c);
    HandsFrame(c, s, step, w);
    PcFrame(c, s, step, w);
    hide *;
    SameWorkerWants(c, s, Next(c, s, step), w);
  }

  lemma SameWorkerWants(c: Config, s: State, s': State, w: nat)
    requires |s'.pcs| == |s.pcs| && (w < |s.pcs| ==> s'.pcs[w] == s.pcs[w]) && Hand(s', w) == Hand(s, w)
    ensures Wants(c, s', Matcher(w)) == Wants(c, s, Matcher(w))
  {
    hide Hand;
    hide Targets;
  }

  lemma PcFrame(c: Config, s: State, step: Step, w: nat)
    requires ValidConfig(c) && Enabled(c, s, step) && Mover(step) != Some(Matcher(w)) && !step.Crash?
    ensures var s' := Next(c, s, step);
            |s'.pcs| == |s.pcs| && (w < |s.pcs| ==> s'.pcs[w] == s.pcs[w])
  {
    hide NewCore;
    hide WorkerActs;
    hide WorkerMoves;
    hide WorkerWants;
    hide IngestActs;
    hide IngestMoves;
  }

  lemma ControlFrame(c: Config, s: State, step: Step)
    requires ValidConfig(c) && Enabled(c, s, step) && !step.Crash?
    ensures var s' := Next(c, s, step);
            && (Mover(step) != Some(Ingestor) ==> s'.ingest == s.ingest)
            && (Mover(step) != Some(Snapshotter) ==> s'.snap == s.snap)
            && (Mover(step) != Some(Retrier) ==> s'.retry == s.retry)
            && s.stream <= s'.stream
  {
    hide NewCore;
    hide WorkerActs;
    hide WorkerMoves;
    hide Wants;
  }

  lemma IngestorWantsFrame(c: Config, s: State, s': State)
    requires IngestOk(s) && s'.ingest == s.ingest && s.stream <= s'.stream
    ensures Wants(c, s', Ingestor) == Wants(c, s, Ingestor)
  {
  }

  /** What one thread needs next never depends on what another does. */
  lemma WantsFrame(c: Config, s: State, step: Step, t: Tid)
    requires ControlOk(c, s) && ClockOk(s) && Enabled(c, s, step)
    requires Mover(step) != Some(t) && !step.Crash?
    ensures Wants(c, Next(c, s, step), t) == Wants(c, s, t)
  {
    hide Next;
    ControlFrame(c, s, step);
    match t
    case Matcher(w) => MatcherWantsFrame(c, s, step, w);
    case Ingestor => IngestorWantsFrame(c, s, Next(c, s, step));
    case Snapshotter => SnapStep(c, s, step);
    case Retrier =>
  }

  lemma LocksStep(c: Config, s: State, step: Step)
    requires ControlOk(c, s) && ClockOk(s) && LocksOk(c, s) && Enabled(c, s, step)
    ensures LocksOk(c, Next(c, s, step))
  {
    assert ValidConfig(c);
    hide ControlOk;
    hide Wants;
    hide WorkerActs;
    hide WorkerMoves;
    hide NewCore;
    var s' := Next(c, s, step);
    forall m | m in s'.holder ensures Wants(c, s', s'.holder[m]) == Some(m) {
      var t := s'.holder[m];
      if Mover(step) == Some(t) {
        MoverKeeps(c, s, step, m);
      } else {
        WantsFrame(c, s, step, t);
      }
    }
  }

  /** A thread that steps keeps no mutex but the one it just acquired. */
  lemma MoverKeeps(c: Config, s: State, step: Step, m: Mutex)
    requires ControlOk(c, s) && LocksOk(c, s) && Enabled(c, s, step) && Mover(step).Some?
    requires Holds(Next(c, s, step), Mover(step).value, m)
    ensures step.Acquire? && Wants(c, Next(c, s, step), Mover(step).value) == Some(m)
  {
    hide Custody.Inv;
    hide WorkerActs;
    hide WorkerMoves;
    hide NewCore;
    hide Targets;
    assert m in s.holder ==> Wants(c, s, s.holder[m]) == Some(m);
  }

  // ---- The counters ----

  function Settling(pcs: seq<Pc>): nat {
    if pcs == [] then 0 else (if pcs[0].Settle? then 1 else 0) + Settling(pcs[1..])
  }

  lemma {:induction false} SettlingUpdate(pcs: seq<Pc>, w: nat, pc: Pc)
    requires w < |pcs|
    ensures Settling(pcs[w := pc]) == Settling(pcs) - (if pcs[w].Settle? then 1 else 0) + (if pc.Settle? then 1 else 0)
  {
    if w == 0 {
      assert pcs[w := pc][1..] == pcs[1..];
    } else {
      assert pcs[w := pc][1..] == pcs[1..][w - 1 := pc];
      SettlingUpdate(pcs[1..], w - 1, pc);
    }
  }

  lemma {:induction false} NoneSettling(pcs: seq<Pc>)
    requires forall w :: 0 <= w < |pcs| ==> !pcs[w].Settle?
    ensures Settling(pcs) == 0
  {
    if pcs != [] {
      NoneSettling(pcs[1..]);
    }
  }

  /** An enqueue the ingestion thread has not yet added to `waiting`. */
  function Uncounted(s: State): nat {
    if s.ingest.CountEnqueued? || s.ingest.CountWaiting? then 1 else 0
  }

  /** An enqueue it has not yet added to `players_enqueued`. */
  function Unentered(s: State): nat {
    if s.ingest.CountEnqueued? then 1 else 0
  }

  /** The counters as integers; the program keeps them modulo 2^64. */
  ghost predicate LedgerOk(s: State) {
    && s.waiting == |Custody.Live(s.core)| + 10 * Settling(s.pcs) - Uncounted(s)
    && s.playersEnqueued == |s.core.enqueued| - Unentered(s)
    && s.matchesFormed == |s.core.formed|
  }

  /** Every match formed has ten players and was within tolerance at the moment it was
      formed. */
  ghost predicate FairOk(s: State) {
    && |s.formedAt| == |s.core.formed|
    && forall i :: 0 <= i < |s.formedAt| ==> |s.core.formed[i]| == 10 && Worker.Admits(s.core.formed[i], s.formedAt[i])
  }

  /** How an action on the players moves what the counters count. */
  lemma OpCount(g: Grid, core: Custody.State, op: Custody.Op)
    requires Custody.Inv(g, core) && Custody.Enabled(g, core, op)
    ensures var core' := Custody.Apply(g, core, op);
            match op
            case Enqueue(_) =>
              && |Custody.Live(core')| == |Custody.Live(core)| + 1 && |core'.enqueued| == |core.enqueued| + 1
              && core'.formed == core.formed
            case Form(w) =>
              && |Custody.Live(core')| + |core.hands[w]| == |Custody.Live(core)| && core'.enqueued == core.enqueued
              && core'.formed == core.formed + [Players(core.hands[w])]
            case Restart(_) => |Custody.Live(core')| == |core'.enqueued| == |core.disk.saved| && core'.formed == []
            case _ =>
              && |Custody.Live(core')| == |Custody.Live(core)| && core'.enqueued == core.enqueued
              && core'.formed == core.formed
  {
    hide Custody.Live;
    hide Custody.Distribute;
    hide Custody.Conserved;
    hide Custody.Recoverable;
    hide Custody.CapturedOnce;
    hide Custody.InOrder;
    Custody.LiveStep(g, core, op);
  }

  ghost predicate Forms(s: State, step: Step) {
    step.Local? && step.t.Matcher? && step.t.w < |s.pcs| && s.pcs[step.t.w].Gate? && Accepts(s, step.t.w)
  }

  /** Which steps enqueue, match and restart. */
  lemma StepKind(c: Config, s: State, step: Step)
    requires Enabled(c, s, step)
    ensures var op := StepOp(c, s, step);
            && (op.Some? && op.value.Enqueue? <==> step == Act(Ingestor) && s.ingest.Load?)
            && (op.Some? && op.value.Form? <==> Forms(s, step))
            && (op.Some? && op.value.Form? ==> op.value.w == step.t.w)
            && (op.Some? && op.value.Restart? <==> step.Crash?)
  {
    hide Accepts;
  }

  /** The players after a step: matched, enqueued and live counts. */
  lemma StepCount(c: Config, s: State, step: Step)
    requires ControlOk(c, s) && ClockOk(s) && Enabled(c, s, step)
    ensures var core := Next(c, s, step).core;
            if step == Act(Ingestor) && s.ingest.Load?
            then |Custody.Live(core)| == |Custody.Live(s.core)| + 1 && |core.enqueued| == |s.core.enqueued| + 1
                 && core.formed == s.core.formed
            else if step.Crash?
            then |Custody.Live(core)| == |core.enqueued| == |s.core.disk.saved| && core.formed == []
            else if Forms(s, step)
            then |Custody.Live(core)| + 10 == |Custody.Live(s.core)| && core.enqueued == s.core.enqueued
                 && core.formed == s.core.formed + [Players(Hand(s, step.t.w))]
            else |Custody.Live(core)| == |Custody.Live(s.core)| && core.enqueued == s.core.enqueued
                 && core.formed == s.core.formed
  {
    CoreStep(c, s, step);
    StepKind(c, s, step);
    OpEnabled(c, s, step);
    hide Next;
    hide StepOp;
    hide Custody.Inv;
    hide PcsOk;
    hide Custody.Live;
    hide Custody.Apply;
    hide Custody.Enabled;
    hide Worker.Admits;
    var op := StepOp(c, s, step);
    if op.Some? {
      OpCount(c.g, s.core, op.value);
    }
  }

  /** What a step does to the counters. */
  lemma CountersFrame(c: Config, s: State, step: Step)
    requires ValidConfig(c) && Enabled(c, s, step)
    ensures var s' := Next(c, s, step);
            && (step.Crash? ==> s'.waiting == s'.playersEnqueued == |s.core.disk.saved| && s'.matchesFormed == 0
                                && s'.ingest == ReadCursor && s'.clock == s.clock && s'.formedAt == [])
            && (!step.Crash? ==>
                  && s'.matchesFormed == s.matchesFormed + (if Forms(s, step) then 1 else 0)
                  && s'.formedAt == (if Forms(s, step) then s.formedAt + [s.clock] else s.formedAt)
                  && s'.nextMid >= s.nextMid + (if Forms(s, step) then 1 else 0)
                  && s'.waiting == s.waiting
                       - (if Settles(s, step) then 10 else 0)
                       + (if step.Local? && step.t == Ingestor && s.ingest.CountWaiting? then 1 else 0)
                  && s'.playersEnqueued == s.playersEnqueued
                       + (if step.Local? && step.t == Ingestor && s.ingest.CountEnqueued? then 1 else 0)
                  && s'.ingest == (if step == Act(Ingestor) then IngestActs(s)
                                   else if step.Local? && step.t == Ingestor then IngestMoves(s, step.choice)
                                   else s.ingest)
                  && s'.clock >= s.clock)
  {
    hide NewCore;
    hide WorkerActs;
    hide WorkerMoves;
    hide Wants;
    hide Accepts;
    hide IngestActs;
    hide IngestMoves;
  }

  /** The ingestion thread owes a count from the enqueue until it makes it. */
  lemma OwedStep(c: Config, s: State, step: Step)
    requires ValidConfig(c) && Enabled(c, s, step)
    ensures var s' := Next(c, s, step);
            && (step.Crash? ==> Uncounted(s') == Unentered(s') == 0)
            && (!step.Crash? ==>
                  && Uncounted(s') == Uncounted(s) + (if step == Act(Ingestor) && s.ingest.Load? then 1 else 0)
                       - (if step.Local? && step.t == Ingestor && s.ingest.CountWaiting? then 1 else 0)
                  && Unentered(s') == Unentered(s) + (if step == Act(Ingestor) && s.ingest.Load? then 1 else 0)
                       - (if step.Local? && step.t == Ingestor && s.ingest.CountEnqueued? then 1 else 0))
  {
    CountersFrame(c, s, step);
    IngestChoices(c, s, step);
    hide Enabled;
    hide Next;
  }

  lemma LedgerStep(c: Config, s: State, step: Step)
    requires ControlOk(c, s) && ClockOk(s) && LedgerOk(s) && Enabled(c, s, step)
    ensures LedgerOk(Next(c, s, step))
  {
    hide *;
    CustodyHolds(c, s);
    StepCount(c, s, step);
    PcsCount(c, s, step);
    CountersFrame(c, s, step);
    OwedStep(c, s, step);
    FormsIsLocal(s, step);
    LedgerEquations(s);
    LedgerEquations(Next(c, s, step));
  }

  lemma LedgerEquations(s: State)
    ensures LedgerOk(s) <==>
              && s.waiting == |Custody.Live(s.core)| + 10 * Settling(s.pcs) - Uncounted(s)
              && s.playersEnqueued == |s.core.enqueued| - Unentered(s)
              && s.matchesFormed == |s.core.formed|
  {
    hide Custody.Live;
    hide Settling;
    hide Uncounted;
    hide Unentered;
  }

  lemma FormsIsLocal(s: State, step: Step)
    ensures Forms(s, step) ==> step.Local? && step.t.Matcher? && !Settles(s, step)
    ensures Settles(s, step) ==> step.Local? && step.t.Matcher?
  {
  }

  lemma PcsCount(c: Config, s: State, step: Step)
    requires ControlOk(c, s) && Enabled(c, s, step)
    ensures Settling(Next(c, s, step).pcs) ==
              if step.Crash? then 0
              else Settling(s.pcs) + (if Forms(s, step) then 1 else 0) - (if Settles(s, step) then 1 else 0)
  {
    assert ValidConfig(c);
    hide ControlOk;
    if step.Crash? {
      hide Enabled;
      hide NewCore;
      NoneSettling(Next(c, s, step).pcs);
    } else {
      PcsMove(c, s, step);
      var m := Mover(step);
      if m.Some? && m.value.Matcher? && m.value.w < |s.pcs| && m.value.w < |Next(c, s, step).pcs| {
        SettlingUpdate(s.pcs, m.value.w, Next(c, s, step).pcs[m.value.w]);
      }
      hide *;
    }
  }

  ghost predicate Settles(s: State, step: Step) {
    step.Local? && step.t.Matcher? && step.t.w < |s.pcs| && s.pcs[step.t.w].Settle?
  }

  /** At most one program counter moves; it reaches and leaves the settling point only by
      forming a match and by settling. */
  lemma PcsMove(c: Config, s: State, step: Step)
    requires ValidConfig(c) && Enabled(c, s, step) && !step.Crash?
    ensures var s', m := Next(c, s, step), Mover(step);
            if m.Some? && m.value.Matcher?
            then m.value.w < |s.pcs| == |s'.pcs| && s'.pcs == s.pcs[m.value.w := s'.pcs[m.value.w]]
                 && (s'.pcs[m.value.w].Settle? <==> Forms(s, step) || (s.pcs[m.value.w].Settle? && !Settles(s, step)))
            else s'.pcs == s.pcs && !Forms(s, step) && !Settles(s, step)
  {
    hide NewCore;
    hide Accepts;
    hide IngestActs;
    hide IngestMoves;
  }

  lemma FairGrows(s: State, s': State, group: seq<Player>)
    requires FairOk(s)
    requires (s'.core.formed == s.core.formed && s'.formedAt == s.formedAt) || (s'.core.formed == [] && s'.formedAt == [])
          || (s'.core.formed == s.core.formed + [group] && s'.formedAt == s.formedAt + [s.clock]
              && |group| == 10 && Worker.Admits(group, s.clock))
    ensures FairOk(s')
  {
    hide Worker.Admits;
  }

  lemma FairStep(c: Config, s: State, step: Step)
    requires ControlOk(c, s) && ClockOk(s) && FairOk(s) && Enabled(c, s, step)
    ensures FairOk(Next(c, s, step))
  {
    StepCount(c, s, step);
    CountersFrame(c, s, step);
    hide ControlOk;
    hide Next;
    hide Enabled;
    hide FairOk;
    hide Worker.Admits;
    FairGrows(s, Next(c, s, step), if Forms(s, step) then Players(Hand(s, step.t.w)) else []);
  }

  // ---- Players are who the stream says ----

  ghost predicate Real(stream: seq<Event>, p: Player) {
    p.event < |stream| && stream[p.event].id == p.id && stream[p.event].rating == p.rating
  }

  ghost predicate AllReal(stream: seq<Event>, ps: seq<Player>) {
    forall i :: 0 <= i < |ps| ==> Real(stream, ps[i])
  }

  ghost predicate SavedReal(stream: seq<Event>, saved: seq<Saved>) {
    forall i :: 0 <= i < |saved| ==>
      saved[i].event < |stream| && stream[saved[i].event].id == saved[i].id
      && stream[saved[i].event].rating == saved[i].rating
  }

  /** Everyone enqueued, copied or saved carries the user and rating of their event. */
  ghost predicate RealOk(s: State) {
    && AllReal(s.stream, s.core.enqueued) && SavedReal(s.stream, s.core.disk.saved)
    && (s.core.copy.Some? ==> AllReal(s.stream, s.core.copy.value.out))
  }

  lemma RealLater(stream: seq<Event>, stream': seq<Event>, ps: seq<Player>)
    requires AllReal(stream, ps) && stream <= stream'
    ensures AllReal(stream', ps)
  {
  }

  lemma RealPart(stream: seq<Event>, ps: seq<Player>, part: seq<Player>)
    requires AllReal(stream, ps) && forall i :: 0 <= i < |part| ==> part[i] in ps
    ensures AllReal(stream, part)
  {
  }

  lemma RealOp(g: Grid, core: Custody.State, op: Custody.Op, stream: seq<Event>)
    requires Custody.Inv(g, core) && Custody.Enabled(g, core, op)
    requires AllReal(stream, core.enqueued) && SavedReal(stream, core.disk.saved)
    requires core.copy.Some? ==> AllReal(stream, core.copy.value.out)
    requires op.Enqueue? ==> Real(stream, op.p)
    ensures var core' := Custody.Apply(g, core, op);
            && AllReal(stream, core'.enqueued) && SavedReal(stream, core'.disk.saved)
            && (core'.copy.Some? ==> AllReal(stream, core'.copy.value.out))
  {
    hide Custody.EventsAt;
    hide Custody.Distribute;
    if op.CopyBucket? {
      Custody.QueueTokens(g, core, core.copy.value.next);
      RealPart(stream, core.enqueued, core.queues[core.copy.value.next]);
    }
    hide Custody.Inv;
  }

  lemma CoreReal(g: Grid, core: Custody.State, op: Option<Custody.Op>, core': Custody.State, stream: seq<Event>)
    requires Custody.Inv(g, core)
    requires if op.Some? then Custody.Enabled(g, core, op.value) && core' == Custody.Apply(g, core, op.value)
             else core' == core
    requires AllReal(stream, core.enqueued) && SavedReal(stream, core.disk.saved)
    requires core.copy.Some? ==> AllReal(stream, core.copy.value.out)
    requires op.Some? && op.value.Enqueue? ==> Real(stream, op.value.p)
    ensures AllReal(stream, core'.enqueued) && SavedReal(stream, core'.disk.saved)
    ensures core'.copy.Some? ==> AllReal(stream, core'.copy.value.out)
  {
    hide *;
    if op.Some? {
      RealOp(g, core, op.value, stream);
    }
  }

  lemma RealStep(c: Config, s: State, step: Step)
    requires ControlOk(c, s) && ClockOk(s) && RealOk(s) && Enabled(c, s, step)
    ensures RealOk(Next(c, s, step))
  {
    hide *;
    CustodyHolds(c, s);
    StreamGrows(c, s, step);
    OpEnabled(c, s, step);
    CoreStep(c, s, step);
    NewCoreIs(c, s, step);
    ArrivalReal(c, s, step);
    RealMoves(c, s, Next(c, s, step), StepOp(c, s, step));
  }

  lemma RealMoves(c: Config, s: State, s': State, op: Option<Custody.Op>)
    requires Custody.Inv(c.g, s.core) && RealOk(s) && s.stream <= s'.stream
    requires if op.Some? then Custody.Enabled(c.g, s.core, op.value) && s'.core == Custody.Apply(c.g, s.core, op.value)
             else s'.core == s.core
    requires op.Some? && op.value.Enqueue? ==> Real(s.stream, op.value.p)
    ensures RealOk(s')
  {
    hide Custody.Inv;
    hide Custody.Apply;
    hide Custody.Enabled;
    hide AllReal;
    hide Real;
    CoreReal(c.g, s.core, op, s'.core, s.stream);
    RealLater(s.stream, s'.stream, s'.core.enqueued);
    if s'.core.copy.Some? {
      RealLater(s.stream, s'.stream, s'.core.copy.value.out);
    }
  }

  lemma ArrivalReal(c: Config, s: State, step: Step)
    requires ControlOk(c, s)
    ensures var op := StepOp(c, s, step);
            op.Some? && op.value.Enqueue? ==> Real(s.stream, op.value.p)
  {
    hide Accepts;
    hide Custody.Inv;
  }

  lemma StreamGrows(c: Config, s: State, step: Step)
    requires ValidConfig(c) && Enabled(c, s, step)
    ensures s.stream <= Next(c, s, step).stream
  {
    hide Enabled;
    if step.Crash? {
      hide NewCore;
    } else {
      hide Next;
      ControlFrame(c, s, step);
    }
  }

  lemma HandReal(c: Config, s: State, w: nat)
    requires Inv(c, s) && w < |s.core.hands|
    ensures AllReal(s.stream, Players(s.core.hands[w]))
  {
    InvHolds(c, s);
    var hand, all := Players(s.core.hands[w]), s.core.enqueued;
    forall i | 0 <= i < |hand| ensures hand[i] in all {
      HandEnqueued(c.g, s.core, w, i);
    }
    hide *;
    RealPart(s.stream, all, hand);
  }

  // ---- The anchor of a single worker ----

  /** Of those waiting in the first `n` buckets of the window, whoever was enqueued before
      the peek began entered no earlier than `t`. */
  ghost predicate NobodyAhead(qs: Queues, window: seq<nat>, n: nat, t: Option<nat>, since: nat) {
    forall i, j :: 0 <= i < n && i < |window| && window[i] < |qs| && 0 <= j < |qs[window[i]]| ==>
      qs[window[i]][j].token >= since || (t.Some? && t.value <= qs[window[i]][j].enqueuedAt)
  }

  /** Nobody at all in the window entered before `t`. */
  ghost predicate Oldest(qs: Queues, window: seq<nat>, t: nat) {
    forall i, j :: 0 <= i < |window| && window[i] < |qs| && 0 <= j < |qs[window[i]]| ==>
      t <= qs[window[i]][j].enqueuedAt
  }

  /** Somebody in the window was enqueued before the peek began. */
  ghost predicate Early(qs: Queues, window: seq<nat>, since: nat) {
    exists i :: 0 <= i < |window| && window[i] < |qs| && qs[window[i]] != [] && qs[window[i]][0].token < since
  }

  ghost predicate FrontIs(qs: Queues, b: nat, t: nat) {
    b < |qs| && qs[b] != [] && qs[b][0].enqueuedAt == t
  }

  /** No rating lies in this bucket by its own band. */
  ghost predicate Beyond(c: Config, b: nat) {
    b * c.g.width >= TWO_31
  }

  /** A window is one bucket, or all of them, or no rating lies in a border. */
  ghost predicate Closed(c: Config) {
    c.stride == 1 || c.stride >= c.g.total || Beyond(c, c.stride)
  }

  ghost predicate ScanCounts(c: Config, window: seq<nat>, k: nat, approx: nat, qs: Queues) {
    Closed(c) && |window| != 1 ==>
      && k <= |Targets(c, window)| && Indices(window, |qs|)
      && (forall i :: |window| <= i < |Targets(c, window)| ==> Beyond(c, Targets(c, window)[i]))
      && approx <= Depth(qs, window[..Min(k, |window|)])
  }

  ghost predicate PcAnchors(c: Config, pc: Pc, qs: Queues, hand: seq<Taken>, next: nat) {
    match pc
    case Scan(window, k, approx) => ScanCounts(c, window, k, approx, qs)
    case Peek(window, k, anchor, oldest, since) =>
      && since <= next && NobodyAhead(qs, window, k, if anchor.Some? then Some(oldest) else None, since)
      && (anchor.Some? ==> FrontIs(qs, anchor.value, oldest) && anchor.value in window)
      && (Closed(c) && |window| != 1 ==> Early(qs, window, since))
    case Harvest(window, order, pos, since) =>
      && since <= next && order != []
      && if pos == 0
         then hand == [] && exists t :: FrontIs(qs, order[0], t) && NobodyAhead(qs, window, |window|, Some(t), since)
                                        && (Closed(c) ==> Oldest(qs, window, t))
         else HandFirst(c, qs, window, hand, since)
    case Gate(window, since) => since <= next && HandFirst(c, qs, window, hand, since)
    case _ => true
  }

  ghost predicate HandFirst(c: Config, qs: Queues, window: seq<nat>, hand: seq<Taken>, since: nat) {
    && hand != [] && NobodyAhead(qs, window, |window|, Some(hand[0].player.enqueuedAt), since)
    && (Closed(c) ==> Oldest(qs, window, hand[0].player.enqueuedAt))
  }

  ghost predicate AnchorOk(c: Config, s: State) {
    c.workers == 1 && |s.pcs| == |s.core.hands| == 1 ==>
      PcAnchors(c, s.pcs[0], s.core.queues, s.core.hands[0], s.core.nextToken)
  }

  /** Nobody but a newcomer, at the back of a bucket, later than all those before. */
  ghost predicate OnlyJoins(core: Custody.State, core': Custody.State) {
    && core.nextToken <= core'.nextToken
    && (core'.queues == core.queues
        || exists b: nat, p: Player :: b < |core.queues| && p.token == core.nextToken
             && core'.queues == Behind(core.queues, b, p) && Latest(core.enqueued, p))
  }

  ghost predicate Latest(ps: seq<Player>, p: Player) {
    forall i :: 0 <= i < |ps| ==> ps[i].enqueuedAt <= p.enqueuedAt
  }

  function Behind(qs: Queues, b: nat, p: Player): Queues
    requires b < |qs|
  {
    qs[b := qs[b] + [p]]
  }

  lemma JoinKeepsAhead(qs: Queues, b: nat, p: Player, window: seq<nat>, n: nat, t: Option<nat>, since: nat)
    requires b < |qs| && NobodyAhead(qs, window, n, t, since) && since <= p.token
    ensures NobodyAhead(Behind(qs, b, p), window, n, t, since)
  {
  }

  lemma JoinKeepsOldest(qs: Queues, b: nat, p: Player, window: seq<nat>, t: nat)
    requires b < |qs| && Oldest(qs, window, t) && t <= p.enqueuedAt
    ensures Oldest(Behind(qs, b, p), window, t)
  {
  }

  lemma {:induction false} JoinKeepsDepth(qs: Queues, b: nat, p: Player, order: seq<nat>)
    requires b < |qs| && Indices(order, |qs|)
    ensures Depth(qs, order) <= Depth(Behind(qs, b, p), order)
  {
    if order != [] {
      JoinKeepsDepth(qs, b, p, order[1..]);
    }
  }

  /** A hand and the fronts of the queues are no later than a newcomer. */
  ghost predicate Before(qs: Queues, hand: seq<Taken>, p: Player) {
    && (forall b :: 0 <= b < |qs| && qs[b] != [] ==> qs[b][0].enqueuedAt <= p.enqueuedAt)
    && (forall i :: 0 <= i < |hand| ==> hand[i].player.enqueuedAt <= p.enqueuedAt)
  }

  lemma JoinKeepsAnchor(c: Config, pc: Pc, qs: Queues, b: nat, p: Player, hand: seq<Taken>, next: nat, next': nat)
    requires PcAnchors(c, pc, qs, hand, next) && b < |qs| && p.token == next <= next' && Before(qs, hand, p)
    ensures PcAnchors(c, pc, Behind(qs, b, p), hand, next')
  {
    var qs' := Behind(qs, b, p);
    if pc.Scan? {
      if Closed(c) && |pc.window| != 1 {
        JoinKeepsDepth(qs, b, p, pc.window[..Min(pc.k, |pc.window|)]);
      }
    } else if pc.Harvest? && pc.pos == 0 {
      var t :| FrontIs(qs, pc.order[0], t) && NobodyAhead(qs, pc.window, |pc.window|, Some(t), pc.since)
               && (Closed(c) ==> Oldest(qs, pc.window, t));
      JoinKeepsAhead(qs, b, p, pc.window, |pc.window|, Some(t), pc.since);
      if Closed(c) { JoinKeepsOldest(qs, b, p, pc.window, t); }
      assert FrontIs(qs', pc.order[0], t);
    } else if pc.Harvest? || pc.Gate? {
      var t := hand[0].player.enqueuedAt;
      JoinKeepsAhead(qs, b, p, pc.window, |pc.window|, Some(t), pc.since);
      if Closed(c) { JoinKeepsOldest(qs, b, p, pc.window, t); }
    } else if pc.Peek? {
      JoinKeepsAhead(qs, b, p, pc.window, pc.k, if pc.anchor.Some? then Some(pc.oldest) else None, pc.since);
      if Closed(c) && |pc.window| != 1 {
        var i :| 0 <= i < |pc.window| && pc.window[i] < |qs| && qs[pc.window[i]] != [] && qs[pc.window[i]][0].token < pc.since;
        assert qs'[pc.window[i]] != [] && qs'[pc.window[i]][0] == qs[pc.window[i]][0];
      }
    }
  }

  lemma LaterToken(c: Config, pc: Pc, qs: Queues, hand: seq<Taken>, next: nat, next': nat)
    requires PcAnchors(c, pc, qs, hand, next) && next <= next'
    ensures PcAnchors(c, pc, qs, hand, next')
  {
  }

  lemma OthersOnlyJoin(c: Config, s: State, step: Step)
    requires ControlOk(c, s) && ClockOk(s) && Enabled(c, s, step) && Mover(step) != Some(Matcher(0)) && c.workers == 1
    requires !step.Crash?
    ensures OnlyJoins(s.core, Next(c, s, step).core)
  {
    hide *;
    CustodyHolds(c, s);
    CoreStep(c, s, step);
    OthersOp(c, s, step);
    var op := StepOp(c, s, step);
    if op.Some? {
      OpJoins(c.g, s.core, op.value);
    } else {
      NoneJoins(s.core);
    }
  }

  /** What another thread than the one worker does takes from no queue. */
  lemma OthersOp(c: Config, s: State, step: Step)
    requires ControlOk(c, s) && ClockOk(s) && Enabled(c, s, step) && Mover(step) != Some(Matcher(0)) && c.workers == 1
    requires !step.Crash?
    ensures var op := StepOp(c, s, step);
            if op.Some? then Custody.Enabled(c.g, s.core, op.value) && Handler(op.value) == None && !op.value.Restart?
                             && NewCore(c, s, step) == Custody.Apply(c.g, s.core, op.value)
            else NewCore(c, s, step) == s.core
  {
    hide *;
    OpEnabled(c, s, step);
    OpHandler(c, s, step);
    CustodyHolds(c, s);
    NewCoreIs(c, s, step);
    var op := StepOp(c, s, step);
    if op.Some? {
      HandlerInRange(c.g, s.core, op.value);
    }
  }

  lemma NewCoreIs(c: Config, s: State, step: Step)
    ensures var op := StepOp(c, s, step);
            NewCore(c, s, step) == if op.Some? && Custody.Enabled(c.g, s.core, op.value)
                                   then Custody.Apply(c.g, s.core, op.value) else s.core
  {
    hide StepOp;
    hide Custody.Enabled;
    hide Custody.Apply;
  }

  lemma CustodyHolds(c: Config, s: State)
    requires ControlOk(c, s)
    ensures Custody.Inv(c.g, s.core) && |s.pcs| == |s.core.hands| == c.workers && ValidConfig(c)
  {
    hide Custody.Inv;
  }

  lemma HandlerInRange(g: Grid, core: Custody.State, op: Custody.Op)
    requires Custody.Enabled(g, core, op)
    ensures Handler(op).Some? ==> Handler(op).value < |core.hands|
  {
  }

  lemma NoneJoins(core: Custody.State)
    ensures OnlyJoins(core, core)
  {
  }

  lemma OpJoins(g: Grid, core: Custody.State, op: Custody.Op)
    requires Custody.Inv(g, core) && Custody.Enabled(g, core, op) && Handler(op) == None && !op.Restart?
    ensures OnlyJoins(core, Custody.Apply(g, core, op))
  {
    CoreFacts(g, core);
    hide Custody.Inv;
    hide Custody.Held;
    hide Custody.EventsAt;
    if op.Enqueue? {
      assert Custody.Apply(g, core, op).queues == Behind(core.queues, Home(g, op.p), op.p);
      assert Latest(core.enqueued, op.p);
    }
  }

  /** Those waiting and in hand were enqueued, in the order of their tokens and of time. */
  lemma WaitingFacts(c: Config, s: State)
    requires ControlOk(c, s)
    ensures forall b, i :: 0 <= b < |s.core.queues| && 0 <= i < |s.core.queues[b]| ==>
              s.core.queues[b][i] in s.core.enqueued && s.core.queues[b][i].token < s.core.nextToken
    ensures forall w, i :: 0 <= w < |s.core.hands| && 0 <= i < |s.core.hands[w]| ==>
              s.core.hands[w][i].player in s.core.enqueued
  {
    CustodyHolds(c, s);
    CoreFacts(c.g, s.core);
    forall b, i | 0 <= b < |s.core.queues| && 0 <= i < |s.core.queues[b]|
      ensures s.core.queues[b][i] in s.core.enqueued && s.core.queues[b][i].token < s.core.nextToken
    {
      Custody.QueueTokens(c.g, s.core, b);
    }
    forall w, i | 0 <= w < |s.core.hands| && 0 <= i < |s.core.hands[w]| ensures s.core.hands[w][i].player in s.core.enqueued {
      HandEnqueued(c.g, s.core, w, i);
    }
  }

  lemma HandEnqueued(g: Grid, core: Custody.State, w: nat, i: nat)
    requires Custody.Inv(g, core) && w < |core.hands| && i < |core.hands[w]|
    ensures core.hands[w][i].player in core.enqueued
  {
    Custody.BagContains(Custody.Held(core), w);
    var hand := Players(core.hands[w]);
    assert multiset(hand) <= Custody.Live(core) <= multiset(core.enqueued);
    assert hand[i] in multiset(hand);
    assert hand[i] in multiset(core.enqueued);
  }

  lemma TokenTime(c: Config, s: State, p: Player, q: Player)
    requires ControlOk(c, s) && p in s.core.enqueued && q in s.core.enqueued && p.token <= q.token
    ensures p.enqueuedAt <= q.enqueuedAt
  {
    CustodyHolds(c, s);
    CoreFacts(c.g, s.core);
    Tokens(c.g, s.core);
    hide Custody.Inv;
    var i :| 0 <= i < |s.core.enqueued| && s.core.enqueued[i] == p;
    var j :| 0 <= j < |s.core.enqueued| && s.core.enqueued[j] == q;
    assert i <= j;
  }

  lemma Tokens(g: Grid, core: Custody.State)
    requires Custody.Inv(g, core)
    ensures Custody.FreshTokens(core.enqueued, core.nextToken)
  {
  }

  lemma NewcomerIsLate(c: Config, s: State, p: Player)
    requires ControlOk(c, s) && Latest(s.core.enqueued, p) && |s.core.hands| > 0
    ensures Before(s.core.queues, s.core.hands[0], p)
  {
    WaitingFacts(c, s);
    hide ControlOk;
    var qs: Queues, hand := s.core.queues, s.core.hands[0];
    forall b | 0 <= b < |qs| && qs[b] != [] ensures qs[b][0].enqueuedAt <= p.enqueuedAt {
      assert qs[b][0] in s.core.enqueued;
    }
    forall i | 0 <= i < |hand| ensures hand[i].player.enqueuedAt <= p.enqueuedAt {
      assert hand[i].player in s.core.enqueued;
    }
  }

  ghost predicate InTime(qs: Queues) {
    forall b :: 0 <= b < |qs| ==> Custody.ArrivedInTime(qs[b])
  }

  lemma OneWorkerInTime(c: Config, s: State)
    requires ControlOk(c, s) && c.workers == 1
    ensures InTime(s.core.queues) && |s.core.queues| == c.g.total
  {
    CoreFacts(c.g, s.core);
    forall b | 0 <= b < |s.core.queues| ensures Custody.ArrivedInTime(s.core.queues[b]) {
      Custody.QueuesInTime(c.g, s.core, b);
    }
  }

  /** Peeking one more bucket. */
  lemma PeekAnchors(c: Config, qs: Queues, window: seq<nat>, k: nat, anchor: Option<nat>, oldest: nat, since: nat, next: nat)
    requires InTime(qs) && k < |window| && window[k] < |qs|
    requires PcAnchors(c, Peek(window, k, anchor, oldest, since), qs, [], next)
    ensures var q := qs[window[k]];
            var better := q != [] && (anchor.None? || q[0].enqueuedAt < oldest);
            PcAnchors(c, if better then Peek(window, k + 1, Some(window[k]), q[0].enqueuedAt, since)
                         else Peek(window, k + 1, anchor, oldest, since), qs, [], next)
  {
    hide Early;
    var q := qs[window[k]];
    assert Custody.ArrivedInTime(q);
    var t := if q != [] && (anchor.None? || q[0].enqueuedAt < oldest) then Some(q[0].enqueuedAt)
             else if anchor.Some? then Some(oldest) else None;
    forall i, j | 0 <= i < k + 1 && i < |window| && window[i] < |qs| && 0 <= j < |qs[window[i]]|
      ensures qs[window[i]][j].token >= since || (t.Some? && t.value <= qs[window[i]][j].enqueuedAt)
    {
      assert i == k ==> q[0].enqueuedAt <= q[j].enqueuedAt;
    }
  }

  /** Popping the front of a bucket, the first time and again. */
  lemma TakeAnchors(c: Config, qs: Queues, pc: Pc, hand: seq<Taken>, next: nat, n: nat)
    requires pc.Harvest? && pc.pos < |pc.order| && pc.order[pc.pos] < |qs| && PcAnchors(c, pc, qs, hand, next)
    requires |hand| <= 10 && n == Min(10 - |hand|, |qs[pc.order[pc.pos]]|)
    ensures var b := pc.order[pc.pos];
            PcAnchors(c, pc.(pos := pc.pos + 1), qs[b := qs[b][n..]], hand + Tag(b, qs[b][..n]), next)
  {
    var b := pc.order[pc.pos];
    var qs', hand' := qs[b := qs[b][n..]], hand + Tag(b, qs[b][..n]);
    var t :| NobodyAhead(qs, pc.window, |pc.window|, Some(t), pc.since) && (Closed(c) ==> Oldest(qs, pc.window, t))
             && hand' != [] && hand'[0].player.enqueuedAt == t;
    Fewer(qs, b, n, pc.window, t, pc.since);
  }

  lemma Fewer(qs: Queues, b: nat, n: nat, window: seq<nat>, t: nat, since: nat)
    requires b < |qs| && n <= |qs[b]| && NobodyAhead(qs, window, |window|, Some(t), since)
    ensures NobodyAhead(qs[b := qs[b][n..]], window, |window|, Some(t), since)
    ensures Oldest(qs, window, t) ==> Oldest(qs[b := qs[b][n..]], window, t)
  {
    var qs': Queues := qs[b := qs[b][n..]];
    forall i, j | 0 <= i < |window| && window[i] < |qs'| && 0 <= j < |qs'[window[i]]|
      ensures qs'[window[i]][j].token >= since || t <= qs'[window[i]][j].enqueuedAt
      ensures Oldest(qs, window, t) ==> t <= qs'[window[i]][j].enqueuedAt
    {
      assert qs'[window[i]][j] == qs[window[i]][if window[i] == b then n + j else j];
    }
  }

  lemma ActKeepsShape(c: Config, s: State)
    requires ControlOk(c, s) && c.workers == 1 && Enabled(c, s, Act(Matcher(0)))
    ensures var s' := Next(c, s, Act(Matcher(0)));
            |s'.pcs| == 1 && s'.pcs[0] == WorkerActs(c, s, 0)
            && s'.core == NewCore(c, s, Act(Matcher(0)))
  {
    hide Custody.Inv;
    hide NewCore;
    hide WorkerActs;
    hide Wants;
  }

  lemma PeekEffect(c: Config, s: State)
    requires ControlOk(c, s) && c.workers == 1 && s.pcs[0].Peek? && Enabled(c, s, Act(Matcher(0)))
    ensures NewCore(c, s, Act(Matcher(0))) == s.core
    ensures s.pcs[0].k < |s.pcs[0].window| && s.pcs[0].window[s.pcs[0].k] < |s.core.queues| && s.core.hands[0] == []
  {
    CoreFacts(c.g, s.core);
    hide Custody.Inv;
    assert PcOk(c, s.pcs[0], s.core.hands[0]);
    hide Edge;
  }

  lemma HarvestEffect(c: Config, s: State)
    requires ControlOk(c, s) && ClockOk(s) && c.workers == 1 && s.pcs[0].Harvest? && Enabled(c, s, Act(Matcher(0)))
    ensures var pc, hand, qs := s.pcs[0], s.core.hands[0], s.core.queues;
            && pc.pos < |pc.order| && pc.order[pc.pos] < |qs| && |hand| <= 10
            && var b := pc.order[pc.pos];
               var n := Min(10 - |hand|, |qs[b]|);
               var core := NewCore(c, s, Act(Matcher(0)));
               |core.hands| == 1 && core.nextToken == s.core.nextToken && core.queues == qs[b := qs[b][n..]] && core.hands[0] == hand + Tag(b, qs[b][..n])
  {
    hide Custody.Inv;
    hide Edge;
    hide Tag;
    var step := Act(Matcher(0));
    CoreFacts(c.g, s.core);
    OpEnabled(c, s, step);
    assert PcOk(c, s.pcs[0], s.core.hands[0]);
    var pc, hand := s.pcs[0], s.core.hands[0];
    assert Wants(c, s, Matcher(0)).Some?;
    assert pc.pos < |pc.order| && pc.order[pc.pos] < |s.core.queues| && |hand| < 10;
    var op := Custody.TakeFront(0, pc.order[pc.pos], Min(10 - |hand|, |s.core.queues[pc.order[pc.pos]]|));
    assert StepOp(c, s, step) == Some(op);
    hide StepOp;
    hide Wants;
    hide Enabled;
    hide ControlOk;
    hide ClockOk;
  }

  lemma ScanEffect(c: Config, s: State)
    requires ControlOk(c, s) && c.workers == 1 && s.pcs[0].Scan? && Enabled(c, s, Act(Matcher(0)))
    ensures NewCore(c, s, Act(Matcher(0))) == s.core && s.pcs[0].k < |Targets(c, s.pcs[0].window)|
  {
    hide Custody.Inv;
    hide Targets;
    assert PcOk(c, s.pcs[0], s.core.hands[0]);
  }

  lemma ScanAnchors(c: Config, window: seq<nat>, k: nat, approx: nat, qs: Queues)
    requires ScanCounts(c, window, k, approx, qs) && k < |Targets(c, window)|
    requires Beyond(c, Targets(c, window)[k]) && Targets(c, window)[k] < |qs| ==> qs[Targets(c, window)[k]] == []
    ensures var b := Targets(c, window)[k];
            ScanCounts(c, window, k + 1, approx + (if b < |qs| then |qs[b]| else 0), qs)
  {
    TargetsFromWindow(c, window);
    hide Targets;
    if Closed(c) && |window| != 1 && k < |window| {
      assert window[..k + 1] == window[..k] + [window[k]];
      DepthConcat(qs, window[..k], [window[k]]);
    }
  }

  lemma TargetsFromWindow(c: Config, window: seq<nat>)
    ensures window <= Targets(c, window)
  {
    hide Edge;
  }

  lemma BeyondIsEmpty(c: Config, s: State, b: nat)
    requires ControlOk(c, s) && RealOk(s) && b < |s.core.queues| && Beyond(c, b)
    ensures s.core.queues[b] == []
  {
    CustodyHolds(c, s);
    WaitingFacts(c, s);
    var q := s.core.queues[b];
    assert Placed(c.g, s.core.queues);
    hide ControlOk;
    hide Custody.Inv;
    if q != [] {
      assert Home(c.g, q[0]) == b;
      assert q[0] in s.core.enqueued;
      assert exists e :: 0 <= e < |s.stream| && q[0].rating == s.stream[e].rating;
      BucketBand(c.g, q[0].rating, b);
      hide BucketIndex;
    }
  }

  lemma AnchorPeekAct(c: Config, s: State)
    requires ControlOk(c, s) && AnchorOk(c, s) && c.workers == 1 && s.pcs[0].Peek? && Enabled(c, s, Act(Matcher(0)))
    ensures PcAnchors(c, WorkerActs(c, s, 0), s.core.queues, [], s.core.nextToken)
    ensures NewCore(c, s, Act(Matcher(0))) == s.core && s.core.hands[0] == []
  {
    OneWorkerInTime(c, s);
    CustodyHolds(c, s);
    PeekEffect(c, s);
    var pc := s.pcs[0];
    assert PcAnchors(c, pc, s.core.queues, s.core.hands[0], s.core.nextToken);
    hide *;
    PeekAnchors(c, s.core.queues, pc.window, pc.k, pc.anchor, pc.oldest, pc.since, s.core.nextToken);
    PeekNext(c, s);
  }

  lemma PeekNext(c: Config, s: State)
    requires |s.pcs| > 0 && s.pcs[0].Peek? && s.pcs[0].k < |s.pcs[0].window| && s.pcs[0].window[s.pcs[0].k] < |s.core.queues|
    ensures var pc := s.pcs[0];
            var q := s.core.queues[pc.window[pc.k]];
            WorkerActs(c, s, 0) == if q != [] && (pc.anchor.None? || q[0].enqueuedAt < pc.oldest)
                                   then Peek(pc.window, pc.k + 1, Some(pc.window[pc.k]), q[0].enqueuedAt, pc.since)
                                   else Peek(pc.window, pc.k + 1, pc.anchor, pc.oldest, pc.since)
  {
  }

  lemma AnchorOpen(c: Config, s: State)
    requires AnchorOk(c, s) && c.workers == 1 && |s.pcs| == |s.core.hands| == 1
    ensures PcAnchors(c, s.pcs[0], s.core.queues, s.core.hands[0], s.core.nextToken)
  {
    hide PcAnchors;
  }

  lemma HarvestNext(c: Config, s: State)
    requires |s.pcs| > 0 && s.pcs[0].Harvest?
    ensures WorkerActs(c, s, 0) == s.pcs[0].(pos := s.pcs[0].pos + 1)
  {
  }

  lemma AnchorHarvestAct(c: Config, s: State)
    requires ControlOk(c, s) && ClockOk(s) && AnchorOk(c, s) && c.workers == 1 && s.pcs[0].Harvest?
    requires Enabled(c, s, Act(Matcher(0)))
    ensures var core := NewCore(c, s, Act(Matcher(0)));
            |core.hands| == 1 && PcAnchors(c, WorkerActs(c, s, 0), core.queues, core.hands[0], core.nextToken)
  {
    hide *;
    CustodyHolds(c, s);
    HarvestEffect(c, s);
    AnchorOpen(c, s);
    HarvestNext(c, s);
    var pc, hand, qs := s.pcs[0], s.core.hands[0], s.core.queues;
    TakeAnchors(c, qs, pc, hand, s.core.nextToken, Min(10 - |hand|, |qs[pc.order[pc.pos]]|));
  }

  lemma AnchorScanAct(c: Config, s: State)
    requires ControlOk(c, s) && RealOk(s) && AnchorOk(c, s) && c.workers == 1 && s.pcs[0].Scan? && Enabled(c, s, Act(Matcher(0)))
    ensures PcAnchors(c, WorkerActs(c, s, 0), s.core.queues, s.core.hands[0], s.core.nextToken)
    ensures NewCore(c, s, Act(Matcher(0))) == s.core
  {
    CustodyHolds(c, s);
    ScanEffect(c, s);
    var b := Targets(c, s.pcs[0].window)[s.pcs[0].k];
    if b < |s.core.queues| && Beyond(c, b) {
      BeyondIsEmpty(c, s, b);
    }
    hide ControlOk;
    hide ScanCounts;
    hide Beyond;
    hide Enabled;
    hide NewCore;
    hide Targets;
    ScanAnchors(c, s.pcs[0].window, s.pcs[0].k, s.pcs[0].approx, s.core.queues);
  }

  lemma AnchorAct(c: Config, s: State)
    requires ControlOk(c, s) && ClockOk(s) && RealOk(s) && AnchorOk(c, s) && c.workers == 1 && Enabled(c, s, Act(Matcher(0)))
    ensures AnchorOk(c, Next(c, s, Act(Matcher(0))))
  {
    CustodyHolds(c, s);
    ActKeepsShape(c, s);
    if s.pcs[0].Peek? {
      AnchorPeekAct(c, s);
    } else if s.pcs[0].Harvest? {
      AnchorHarvestAct(c, s);
    } else if s.pcs[0].Scan? {
      AnchorScanAct(c, s);
    } else {
      NothingToAnchor(c, s);
    }
    hide ControlOk;
    hide ClockOk;
    hide Enabled;
    hide Next;
    hide NewCore;
    hide WorkerActs;
    hide PcAnchors;
  }

  lemma NothingToAnchor(c: Config, s: State)
    requires ControlOk(c, s) && c.workers == 1 && Enabled(c, s, Act(Matcher(0)))
    requires !s.pcs[0].Peek? && !s.pcs[0].Harvest? && !s.pcs[0].Scan?
    ensures var s' := Next(c, s, Act(Matcher(0)));
            |s'.core.hands| == 1 ==>
              PcAnchors(c, WorkerActs(c, s, 0), s'.core.queues, s'.core.hands[0], s'.core.nextToken)
  {
    hide Custody.Inv;
    hide Next;
  }

  lemma LocalKeepsShape(c: Config, s: State, choice: nat)
    requires ControlOk(c, s) && c.workers == 1 && Enabled(c, s, Local(Matcher(0), choice))
    ensures var s' := Next(c, s, Local(Matcher(0), choice));
            |s'.pcs| == 1 && s'.pcs[0] == WorkerMoves(c, s, 0, choice)
            && (!s.pcs[0].Gate? ==> s'.core == s.core)
  {
    hide Custody.Inv;
    hide WorkerMoves;
    hide Wants;
    hide Custody.Enabled;
    hide Custody.Apply;
    hide Accepts;
  }

  /** A window ends at least a stride from the first bucket, or with the last. */
  lemma EdgeIsFar(c: Config, ticket: nat)
    requires ValidConfig(c)
    ensures var e := Edge(Worker.Window(ticket, c.stride, c.g.total)); e == c.g.total - 1 || c.stride <= e + 1 < c.g.total
  {
    var n, lo := c.g.total, ticket % c.g.total;
    var window := Worker.Window(ticket, c.stride, n);
    var d := n - 1 - lo;
    var k := if d < c.stride then d else c.stride - 1;
    Worker.WrapOnce(lo + k, n);
    assert window[k] == lo + k;
    hide Worker.Window;
    assert lo + k <= Edge(window) < n by {
      assert window[k] <= Edge(window);
    }
    hide Edge;
  }

  /** A border is at least a stride away from the first bucket. */
  lemma BordersAreFar(c: Config, ticket: nat)
    requires ValidConfig(c)
    ensures var window := Worker.Window(ticket, c.stride, c.g.total);
            var ts := Targets(c, window);
            window <= ts && forall i :: |window| <= i < |ts| ==> c.stride <= ts[i] < c.g.total
  {
    EdgeIsFar(c, ticket);
    hide Worker.Window;
    hide Edge;
  }

  lemma NothingBeyond(c: Config, ticket: nat)
    requires ValidConfig(c) && Closed(c) && c.stride != 1
    ensures var window := Worker.Window(ticket, c.stride, c.g.total);
            var ts := Targets(c, window);
            forall i :: |window| <= i < |ts| ==> Beyond(c, ts[i])
  {
    BordersAreFar(c, ticket);
    hide Targets;
    hide Worker.Window;
    var window := Worker.Window(ticket, c.stride, c.g.total);
    var ts := Targets(c, window);
    forall i | |window| <= i < |ts| ensures Beyond(c, ts[i]) {
      Scale(c.stride, ts[i], c.g.width);
    }
  }

  lemma {:induction false} SomebodyWaits(qs: Queues, order: seq<nat>) returns (i: nat)
    requires Indices(order, |qs|) && Depth(qs, order) > 0
    ensures i < |order| && qs[order[i]] != []
  {
    if qs[order[0]] != [] {
      i := 0;
    } else {
      var j := SomebodyWaits(qs, order[1..]);
      i := j + 1;
    }
  }

  lemma ScanEnds(c: Config, s: State, choice: nat)
    requires ControlOk(c, s) && AnchorOk(c, s) && c.workers == 1 && s.pcs[0].Scan?
    requires Enabled(c, s, Local(Matcher(0), choice))
    ensures var pc, pc' := s.pcs[0], WorkerMoves(c, s, 0, choice);
            pc' == Claim
            || (pc' == Peek(pc.window, 0, None, 0, s.core.nextToken) && s.core.hands[0] == []
                && (Closed(c) && |pc.window| != 1 ==> Early(s.core.queues, pc.window, s.core.nextToken)))
  {
    hide Custody.Inv;
    hide Accepts;
    hide DrainOrder;
    hide Worker.Window;
    hide Targets;
    var pc, qs := s.pcs[0], s.core.queues;
    assert PcOk(c, pc, s.core.hands[0]);
    assert pc.k >= |Targets(c, pc.window)|;
    if pc.approx >= 10 && Closed(c) && |pc.window| != 1 {
      WaitingFacts(c, s);
      TargetsFromWindow(c, pc.window);
      assert pc.window[..Min(pc.k, |pc.window|)] == pc.window;
      var i := SomebodyWaits(qs, pc.window);
      assert qs[pc.window[i]][0].token < s.core.nextToken;
    }
  }

  lemma PeekEnds(c: Config, s: State, choice: nat)
    requires ControlOk(c, s) && c.workers == 1 && s.pcs[0].Peek? && Enabled(c, s, Local(Matcher(0), choice))
    requires s.pcs[0].anchor.Some? ==> s.pcs[0].anchor.value in s.pcs[0].window
    ensures var pc, pc' := s.pcs[0], WorkerMoves(c, s, 0, choice);
            && s.core.hands[0] == [] && pc.k >= |pc.window|
            && (pc' == Claim || (pc.anchor.Some? && pc'.Harvest? && pc'.pos == 0 && pc'.window == pc.window
                                 && pc'.since == pc.since && pc'.order != [] && pc'.order[0] == pc.anchor.value))
  {
    assert PcOk(c, s.pcs[0], s.core.hands[0]);
    var pc := s.pcs[0];
    if pc.anchor.Some? {
      OrderInRange(pc.window, pc.anchor.value, c.g.total);
    }
    hide Custody.Inv;
    hide DrainOrder;
    hide Edge;
    hide Accepts;
  }

  ghost predicate InTokenOrder(qs: Queues) {
    forall b, i, b', j ::
      (0 <= b < |qs| && 0 <= i < |qs[b]| && 0 <= b' < |qs| && 0 <= j < |qs[b']| && qs[b][i].token <= qs[b'][j].token) ==>
        qs[b][i].enqueuedAt <= qs[b'][j].enqueuedAt
  }

  lemma QueuesInTokenOrder(c: Config, s: State)
    requires ControlOk(c, s)
    ensures InTokenOrder(s.core.queues)
  {
    WaitingFacts(c, s);
    var qs: Queues := s.core.queues;
    forall b, i, b', j | 0 <= b < |qs| && 0 <= i < |qs[b]| && 0 <= b' < |qs| && 0 <= j < |qs[b']|
                         && qs[b][i].token <= qs[b'][j].token
      ensures qs[b][i].enqueuedAt <= qs[b'][j].enqueuedAt
    {
      hide ControlOk;
      TokenTime(c, s, qs[b][i], qs[b'][j]);
    }
  }

  /** The oldest of those there when the peek began is the oldest of all, if anybody was. */
  lemma EarlyIsOldest(qs: Queues, window: seq<nat>, t: nat, since: nat)
    requires InTokenOrder(qs) && NobodyAhead(qs, window, |window|, Some(t), since) && Early(qs, window, since)
    ensures Oldest(qs, window, t)
  {
    var k :| 0 <= k < |window| && window[k] < |qs| && qs[window[k]] != [] && qs[window[k]][0].token < since;
    assert t <= qs[window[k]][0].enqueuedAt;
    forall i, j | 0 <= i < |window| && window[i] < |qs| && 0 <= j < |qs[window[i]]|
      ensures t <= qs[window[i]][j].enqueuedAt
    {
      assert qs[window[k]][0].token <= qs[window[i]][j].token ==>
               qs[window[k]][0].enqueuedAt <= qs[window[i]][j].enqueuedAt;
    }
  }

  lemma SoleIsOldest(qs: Queues, b: nat, t: nat)
    requires InTime(qs) && FrontIs(qs, b, t)
    ensures Oldest(qs, [b], t)
  {
    assert Custody.ArrivedInTime(qs[b]);
  }

  /** When no rating lies in a border, or the window is one bucket, the anchor is the oldest
      of all. */
  lemma PeekIsOldest(c: Config, s: State)
    requires ControlOk(c, s) && AnchorOk(c, s) && c.workers == 1 && s.pcs[0].Peek? && s.pcs[0].anchor.Some?
    requires s.pcs[0].k >= |s.pcs[0].window| && Closed(c)
    ensures Oldest(s.core.queues, s.pcs[0].window, s.pcs[0].oldest)
  {
    QueuesInTokenOrder(c, s);
    OneWorkerInTime(c, s);
    CustodyHolds(c, s);
    var pc, qs := s.pcs[0], s.core.queues;
    assert PcAnchors(c, pc, qs, s.core.hands[0], s.core.nextToken);
    AheadInAll(qs, pc.window, pc.k, Some(pc.oldest), pc.since);
    hide ControlOk;
    hide InTokenOrder;
    hide NobodyAhead;
    hide InTime;
    hide Early;
    hide Oldest;
    hide FrontIs;
    if |pc.window| == 1 {
      assert pc.window == [pc.anchor.value];
      SoleIsOldest(qs, pc.anchor.value, pc.oldest);
    } else {
      EarlyIsOldest(qs, pc.window, pc.oldest, pc.since);
    }
  }

  lemma AnchorLocal(c: Config, s: State, choice: nat)
    requires ControlOk(c, s) && ClockOk(s) && AnchorOk(c, s) && c.workers == 1 && Enabled(c, s, Local(Matcher(0), choice))
    ensures AnchorOk(c, Next(c, s, Local(Matcher(0), choice)))
  {
    hide Custody.Inv;
    CustodyHolds(c, s);
    var pc, hand, qs := s.pcs[0], s.core.hands[0], s.core.queues;
    LocalKeepsShape(c, s, choice);
    HarvestEnds(c, s, choice);
    if pc.Claim? {
      ClaimEnds(c, s, choice);
    } else if pc.Scan? {
      ScanEnds(c, s, choice);
    } else if pc.Peek? {
      PeekEnds(c, s, choice);
      AheadInAll(qs, pc.window, pc.k, if pc.anchor.Some? then Some(pc.oldest) else None, pc.since);
      if pc.anchor.Some? && Closed(c) { PeekIsOldest(c, s); }
    }
    hide ControlOk;
    hide ClockOk;
    hide Enabled;
    hide Next;
    hide Early;
    hide Oldest;
    if pc.Peek? {
      hide WorkerMoves;
      hide NobodyAhead;
      assert pc.anchor.Some? ==> FrontIs(qs, pc.anchor.value, pc.oldest);
      hide FrontIs;
    } else if pc.Scan? || pc.Claim? {
      hide WorkerMoves;
      hide ScanCounts;
    } else {
      hide FrontIs;
      hide Worker.Window;
      hide DrainOrder;
      hide Accepts;
    }
  }

  lemma ClaimEnds(c: Config, s: State, choice: nat)
    requires ControlOk(c, s) && c.workers == 1 && s.pcs[0].Claim?
    ensures var pc' := WorkerMoves(c, s, 0, choice);
            pc'.Scan? && ScanCounts(c, pc'.window, pc'.k, pc'.approx, s.core.queues)
  {
    CustodyHolds(c, s);
    CoreFacts(c.g, s.core);
    hide ControlOk;
    hide Custody.Inv;
    if Closed(c) && c.stride != 1 {
      NothingBeyond(c, s.ticket);
    }
    hide Targets;
    hide Beyond;
  }

  lemma HarvestEnds(c: Config, s: State, choice: nat)
    requires ControlOk(c, s) && c.workers == 1 && Enabled(c, s, Local(Matcher(0), choice))
    ensures var pc' := WorkerMoves(c, s, 0, choice);
            pc'.Gate? ==> s.pcs[0].Harvest? && |s.core.hands[0]| >= 10 && pc' == Gate(s.pcs[0].window, s.pcs[0].since)
  {
    assert PcOk(c, s.pcs[0], s.core.hands[0]);
    hide Custody.Inv;
    hide DrainOrder;
    hide Edge;
    hide Accepts;
    hide Worker.Window;
  }

  lemma AnchorElse(c: Config, s: State, step: Step)
    requires ControlOk(c, s) && AnchorOk(c, s) && c.workers == 1 && Enabled(c, s, step)
    requires step == Acquire(Matcher(0)) || step == TryFails(0) || step.Crash?
    ensures AnchorOk(c, Next(c, s, step))
  {
    CustodyHolds(c, s);
    hide ControlOk;
    hide NobodyAhead;
    hide FrontIs;
    hide Wants;
    hide ScanCounts;
    hide HandFirst;
  }

  lemma AheadInAll(qs: Queues, window: seq<nat>, k: nat, t: Option<nat>, since: nat)
    requires NobodyAhead(qs, window, k, t, since)
    ensures k >= |window| ==> NobodyAhead(qs, window, |window|, t, since)
  {
  }

  lemma OthersKeepAnchor(c: Config, s: State, step: Step)
    requires ControlOk(c, s) && ClockOk(s) && AnchorOk(c, s) && Enabled(c, s, step) && c.workers == 1
    requires !step.Crash? && Mover(step) != Some(Matcher(0))
    ensures AnchorOk(c, Next(c, s, step))
  {
    CustodyHolds(c, s);
    OthersOnlyJoin(c, s, step);
    HandsFrame(c, s, step, 0);
    PcFrame(c, s, step, 0);
    PcsStep(c, s, step);
    var core, core', pc, hand := s.core, Next(c, s, step).core, s.pcs[0], s.core.hands[0];
    assert Hand(Next(c, s, step), 0) == hand;
    hide Next;
    hide Enabled;
    hide PcAnchors;
    if core'.queues == core.queues {
      LaterToken(c, pc, core.queues, hand, core.nextToken, core'.nextToken);
    } else {
      var b: nat, p: Player :| b < |core.queues| && p.token == core.nextToken
                               && core'.queues == Behind(core.queues, b, p) && Latest(core.enqueued, p);
      NewcomerIsLate(c, s, p);
      JoinKeepsAnchor(c, pc, core.queues, b, p, hand, core.nextToken, core'.nextToken);
    }
  }

  lemma AnchorStep(c: Config, s: State, step: Step)
    requires ControlOk(c, s) && ClockOk(s) && RealOk(s) && AnchorOk(c, s) && Enabled(c, s, step)
    ensures AnchorOk(c, Next(c, s, step))
  {
    if c.workers == 1 {
      if step == Act(Matcher(0)) {
        AnchorAct(c, s);
      } else if step.Local? && step.t == Matcher(0) {
        AnchorLocal(c, s, step.choice);
      } else if !step.Crash? && Mover(step) != Some(Matcher(0)) {
        OthersKeepAnchor(c, s, step);
      } else {
        AnchorElse(c, s, step);
      }
    }
  }

  // ---- The tickets drawn ----

  /** The window of the k-th ticket since boot. */
  function Ticket(c: Config, k: nat): seq<nat> {
    Worker.Window(k * c.stride, c.stride, c.g.total)
  }

  function PcWindow(pc: Pc): Option<seq<nat>> {
    match pc
    case Scan(window, _, _) => Some(window)
    case Peek(window, _, _, _, _) => Some(window)
    case Harvest(window, _, _, _) => Some(window)
    case Gate(window, _) => Some(window)
    case _ => None
  }

  /** `n` tickets were drawn since boot, and every worker's window is that of one of them. */
  ghost predicate Drew(c: Config, s: State, n: nat) {
    && s.ticket == n * c.stride
    && forall w :: 0 <= w < |s.pcs| && PcWindow(s.pcs[w]).Some? ==> OneOf(c, PcWindow(s.pcs[w]).value, n)
  }

  ghost predicate OneOf(c: Config, window: seq<nat>, n: nat) {
    exists k: nat :: k < n && window == Ticket(c, k)
  }

  ghost predicate TicketsOk(c: Config, s: State) {
    exists n: nat :: Drew(c, s, n)
  }

  lemma MovesKeepWindow(c: Config, s: State, w: nat, choice: nat)
    requires ValidConfig(c) && w < |s.pcs|
    ensures PcWindow(WorkerActs(c, s, w)).Some? ==> PcWindow(WorkerActs(c, s, w)) == PcWindow(s.pcs[w])
    ensures s.pcs[w] == Claim ==> WorkerMoves(c, s, w, choice) == Scan(Worker.Window(s.ticket, c.stride, c.g.total), 0, 0)
    ensures s.pcs[w] != Claim && PcWindow(WorkerMoves(c, s, w, choice)).Some? ==>
              PcWindow(WorkerMoves(c, s, w, choice)) == PcWindow(s.pcs[w])
  {
    hide Targets;
    hide DrainOrder;
    hide Accepts;
    hide Worker.Window;
  }

  /** What a step does to the ticket counter. */
  lemma TicketAfter(c: Config, s: State, step: Step)
    requires ValidConfig(c) && Enabled(c, s, step)
    ensures Next(c, s, step).ticket ==
              if step.Crash? then 0
              else if step.Local? && step.t.Matcher? && s.pcs[step.t.w].Claim? then s.ticket + c.stride else s.ticket
  {
    hide NewCore;
    hide WorkerActs;
    hide WorkerMoves;
    hide Wants;
    hide Accepts;
  }

  lemma TicketsStep(c: Config, s: State, step: Step)
    requires ControlOk(c, s) && TicketsOk(c, s) && Enabled(c, s, step)
    ensures TicketsOk(c, Next(c, s, step))
  {
    hide *;
    CustodyHolds(c, s);
    var n := TicketsOpen(c, s);
    var s' := Next(c, s, step);
    TicketAfter(c, s, step);
    PcsAfter(c, s, step);
    match step
    case Crash => DrewNone(c, s');
    case Local(Matcher(w), choice) =>
      LocalEnabled(c, s, w, choice);
      MovesKeepWindow(c, s, w, choice);
      if s.pcs[w] == Claim {
        DrewNext(c, s, s', n, w);
      } else {
        DrewOn(c, s, s', n, w);
      }
    case Act(Matcher(w)) =>
      ActEnabled(c, s, w);
      MovesKeepWindow(c, s, w, 0);
      DrewOn(c, s, s', n, w);
    case TryFails(w) =>
      TryEnabled(c, s, w);
      NoWindow();
      DrewOn(c, s, s', n, w);
    case _ =>
      DrewSame(c, s, s', n);
  }

  lemma NoWindow()
    ensures PcWindow(Undo) == None && PcWindow(Claim) == None
  {
  }

  lemma LocalEnabled(c: Config, s: State, w: nat, choice: nat)
    requires Enabled(c, s, Local(Matcher(w), choice))
    ensures w < |s.pcs|
  {
  }

  lemma ActEnabled(c: Config, s: State, w: nat)
    requires Enabled(c, s, Act(Matcher(w)))
    ensures w < |s.pcs|
  {
  }

  lemma TryEnabled(c: Config, s: State, w: nat)
    requires Enabled(c, s, TryFails(w))
    ensures w < |s.pcs|
  {
  }

  lemma TicketsOpen(c: Config, s: State) returns (n: nat)
    requires TicketsOk(c, s)
    ensures Drew(c, s, n)
  {
    n :| Drew(c, s, n);
  }

  lemma DrewNone(c: Config, s: State)
    requires s.ticket == 0 && forall w :: 0 <= w < |s.pcs| ==> s.pcs[w] == Claim
    ensures TicketsOk(c, s)
  {
    assert Drew(c, s, 0);
  }

  lemma DrewSame(c: Config, s: State, s': State, n: nat)
    requires Drew(c, s, n) && s'.pcs == s.pcs && s'.ticket == s.ticket
    ensures TicketsOk(c, s')
  {
    hide OneOf;
    assert Drew(c, s', n);
  }

  lemma DrewOn(c: Config, s: State, s': State, n: nat, w: nat)
    requires Drew(c, s, n) && w < |s.pcs| == |s'.pcs| && s'.pcs == s.pcs[w := s'.pcs[w]] && s'.ticket == s.ticket
    requires PcWindow(s'.pcs[w]).Some? ==> PcWindow(s'.pcs[w]) == PcWindow(s.pcs[w])
    ensures TicketsOk(c, s')
  {
    hide OneOf;
    hide PcWindow;
    assert Drew(c, s', n);
  }

  lemma DrewNext(c: Config, s: State, s': State, n: nat, w: nat)
    requires Drew(c, s, n) && w < |s.pcs| == |s'.pcs| && s'.pcs == s.pcs[w := s'.pcs[w]] && s'.ticket == s.ticket + c.stride
    requires s'.pcs[w] == Scan(Worker.Window(s.ticket, c.stride, c.g.total), 0, 0)
    ensures TicketsOk(c, s')
  {
    assert (n + 1) * c.stride == n * c.stride + c.stride;
    hide Worker.Window;
    forall v | 0 <= v < |s'.pcs| && PcWindow(s'.pcs[v]).Some? ensures OneOf(c, PcWindow(s'.pcs[v]).value, n + 1) {
      if v == w {
        assert PcWindow(s'.pcs[v]).value == Ticket(c, n);
      } else {
        var k: nat :| k < n && PcWindow(s.pcs[v]).value == Ticket(c, k);
      }
    }
    hide OneOf;
    assert Drew(c, s', n + 1);
  }

  /** Every window any worker ever works on is that of a multiple of the stride, counted from
      zero since boot. */
  lemma WindowIsDrawn(c: Config, s: State, w: nat)
    requires Inv(c, s) && w < |s.pcs| && PcWindow(s.pcs[w]).Some?
    ensures exists k: nat :: PcWindow(s.pcs[w]).value == Worker.Window(k * c.stride, c.stride, c.g.total)
  {
    hide ControlOk;
    hide Worker.Window;
    var n :| Drew(c, s, n);
    var k: nat :| k < n && PcWindow(s.pcs[w]).value == Ticket(c, k);
    hide PcWindow;
    assert PcWindow(s.pcs[w]).value == Worker.Window(k * c.stride, c.stride, c.g.total);
  }

  /** Every group that reaches the gate takes a match id, formed or refused; ids begin at one
      with each boot. */
  lemma IdsTaken(c: Config, s: State, step: Step)
    requires ValidConfig(c) && Enabled(c, s, step)
    ensures Next(c, s, step).nextMid ==
              if step.Crash? then 1
              else if step.Local? && step.t.Matcher? && s.pcs[step.t.w].Gate? then s.nextMid + 1 else s.nextMid
  {
    hide NewCore;
    hide WorkerActs;
    hide WorkerMoves;
    hide Wants;
    hide Accepts;
  }

  /** A boot begins with the players of the snapshot and their count, ticket zero, match id one
      and idle threads; the stream, what was trimmed of it and the clock go on. */
  lemma BootStarts(c: Config, s: State)
    requires ValidConfig(c)
    ensures var t, n := Next(c, s, Crash), |s.core.disk.saved|;
            && t.ticket == 0 && t.nextMid == 1 && t.waiting == t.playersEnqueued == n && t.matchesFormed == 0 && t.formedAt == []
            && |t.pcs| == |s.pcs| && (forall w :: 0 <= w < |t.pcs| ==> t.pcs[w] == Claim)
            && t.ingest == ReadCursor && t.snap == Asleep && t.retry == Pop && t.holder == map[]
            && t.stream == s.stream && t.trimmed == s.trimmed && t.clock == s.clock
  {
    hide NewCore;
  }

  // ---- All runs ----

  ghost predicate Inv(c: Config, s: State) {
    && ControlOk(c, s) && ClockOk(s) && LocksOk(c, s) && LedgerOk(s) && FairOk(s) && RealOk(s)
    && AnchorOk(c, s) && TicketsOk(c, s)
  }

  lemma InvHolds(c: Config, s: State)
    requires Inv(c, s)
    ensures Custody.Inv(c.g, s.core) && ValidConfig(c) && |s.pcs| == |s.core.hands| == c.workers
    ensures AllReal(s.stream, s.core.enqueued)
  {
    hide Custody.Inv;
    hide Real;
  }

  lemma InvInit(c: Config)
    requires ValidConfig(c)
    ensures Inv(c, Init(c))
  {
    hide *;
    var s := Init(c);
    Custody.InvInit(c.g, c.workers);
    InitControl(c);
    InitLedger(c);
    InitRest(c);
    DrewNone(c, s);
    InvParts(c, s);
  }

  lemma InvParts(c: Config, s: State)
    requires ControlOk(c, s) && ClockOk(s) && LocksOk(c, s) && LedgerOk(s) && FairOk(s) && RealOk(s)
    requires AnchorOk(c, s) && TicketsOk(c, s)
    ensures Inv(c, s)
  {
    hide ControlOk;
    hide LedgerOk;
    hide AnchorOk;
    hide TicketsOk;
  }

  lemma InitControl(c: Config)
    requires ValidConfig(c) && Custody.Inv(c.g, Custody.Init(c.g, c.workers))
    ensures var s := Init(c);
            ControlOk(c, s) && s.ticket == 0 && forall w :: 0 <= w < |s.pcs| ==> s.pcs[w] == Claim
  {
    hide Custody.Inv;
  }

  lemma InitLedger(c: Config)
    ensures LedgerOk(Init(c))
  {
    var s := Init(c);
    Custody.EmptyBag(s.core.queues);
    Custody.EmptyBag(Custody.Held(s.core));
    NoneSettling(s.pcs);
    assert Custody.Live(s.core) == multiset{};
    hide Custody.Live;
    hide Settling;
  }

  lemma InitRest(c: Config)
    requires ValidConfig(c)
    ensures var s := Init(c); ClockOk(s) && LocksOk(c, s) && FairOk(s) && RealOk(s) && AnchorOk(c, s)
  {
    hide Wants;
  }

  lemma InvStep(c: Config, s: State, step: Step)
    requires Inv(c, s) && Enabled(c, s, step)
    ensures Inv(c, Next(c, s, step))
  {
    CoreStep(c, s, step);
    PcsStep(c, s, step);
    IngestStep(c, s, step);
    SnapStep(c, s, step);
    ClockStep(c, s, step);
    LocksStep(c, s, step);
    LedgerStep(c, s, step);
    FairStep(c, s, step);
    RealStep(c, s, step);
    AnchorStep(c, s, step);
    TicketsStep(c, s, step);
    hide PcsOk;
    hide IngestOk;
    hide SnapOk;
    hide ClockOk;
    hide LocksOk;
    hide LedgerOk;
    hide FairOk;
    hide RealOk;
    hide AnchorOk;
    hide TicketsOk;
    hide Next;
    hide Custody.Inv;
    hide Enabled;
  }

  ghost predicate Runs(c: Config, s: State, steps: seq<Step>, t: State)
    requires ValidConfig(c)
    decreases |steps|
  {
    if steps == [] then s == t else Enabled(c, s, steps[0]) && Runs(c, Next(c, s, steps[0]), steps[1..], t)
  }

  lemma {:induction false} InvRuns(c: Config, s: State, steps: seq<Step>, t: State)
    requires ValidConfig(c) && Inv(c, s) && Runs(c, s, steps, t)
    ensures Inv(c, t)
    decreases |steps|
  {
    hide Inv;
    hide Enabled;
    hide Next;
    if steps != [] {
      InvStep(c, s, steps[0]);
      InvRuns(c, Next(c, s, steps[0]), steps[1..], t);
    }
  }

  /** Everything below holds in every state any interleaving can reach. */
  lemma Reachable(c: Config, steps: seq<Step>, s: State)
    requires ValidConfig(c) && Runs(c, Init(c), steps, s)
    ensures Inv(c, s)
  {
    InvInit(c);
    InvRuns(c, Init(c), steps, s);
  }

  // ---- The threads refine the custody machine ----

  lemma OpLeads(g: Grid, s: Custody.State, ops: seq<Custody.Op>, t: Custody.State, op: Custody.Op)
    requires Custody.Reaches(g, s, ops, t) && Custody.Enabled(g, t, op)
    ensures Custody.Reaches(g, s, ops + [op], Custody.Apply(g, t, op))
    decreases |ops|
  {
    hide Custody.Enabled;
    hide Custody.Apply;
    if ops == [] {
      assert ([] + [op])[1..] == [];
    } else {
      OpLeads(g, Custody.Apply(g, s, ops[0]), ops[1..], t, op);
      assert (ops + [op])[1..] == ops[1..] + [op];
    }
  }

  ghost predicate NoCrash(steps: seq<Step>) {
    forall i :: 0 <= i < |steps| ==> !steps[i].Crash?
  }

  ghost predicate NoRestart(ops: seq<Custody.Op>) {
    forall i :: 0 <= i < |ops| ==> !ops[i].Restart?
  }

  /** Every run of the threads does to the players exactly a run of the custody machine;
      without a crash, one without a restart. */
  lemma {:induction false} Refines(c: Config, s: State, steps: seq<Step>, t: State, from: Custody.State, done: seq<Custody.Op>)
    returns (ops: seq<Custody.Op>)
    requires ValidConfig(c) && Inv(c, s) && Runs(c, s, steps, t) && Custody.Reaches(c.g, from, done, s.core)
    ensures Custody.Reaches(c.g, from, ops, t.core)
    ensures NoCrash(steps) && NoRestart(done) ==> NoRestart(ops)
    decreases |steps|
  {
    hide Inv;
    hide Enabled;
    hide Next;
    hide Custody.Reaches;
    ops := done;
    if steps != [] {
      var step := steps[0];
      var next := StepRefines(c, s, step, from, done);
      InvStep(c, s, step);
      assert NoCrash(steps) ==> !step.Crash? && NoCrash(steps[1..]);
      ops := Refines(c, Next(c, s, step), steps[1..], t, from, next);
    }
  }

  lemma StepRefines(c: Config, s: State, step: Step, from: Custody.State, done: seq<Custody.Op>)
    returns (ops: seq<Custody.Op>)
    requires Inv(c, s) && Enabled(c, s, step) && Custody.Reaches(c.g, from, done, s.core)
    ensures Custody.Reaches(c.g, from, ops, Next(c, s, step).core)
    ensures !step.Crash? && NoRestart(done) ==> NoRestart(ops)
  {
    hide Inv;
    hide Custody.Reaches;
    ops := done;
    StepIsOp(c, s, step);
    var op := StepOp(c, s, step);
    if op.Some? {
      hide *;
      OpLeads(c.g, from, done, s.core, op.value);
      ops := done + [op.value];
      LastOp(done, op.value, step);
    }
  }

  lemma LastOp(done: seq<Custody.Op>, op: Custody.Op, step: Step)
    requires op.Restart? ==> step.Crash?
    ensures !step.Crash? && NoRestart(done) ==> NoRestart(done + [op])
  {
  }

  lemma StepIsOp(c: Config, s: State, step: Step)
    requires Inv(c, s) && Enabled(c, s, step)
    ensures var op, core := StepOp(c, s, step), Next(c, s, step).core;
            if op.Some? then Custody.Enabled(c.g, s.core, op.value) && core == Custody.Apply(c.g, s.core, op.value)
                             && (op.value.Restart? ==> step.Crash?)
            else core == s.core
  {
    CoreStep(c, s, step);
    OpEnabled(c, s, step);
    OpHandler(c, s, step);
    hide Inv;
    hide Enabled;
    hide Next;
    hide StepOp;
    hide Custody.Enabled;
    hide Custody.Apply;
  }

  lemma CustodyRun(c: Config, steps: seq<Step>, t: State) returns (ops: seq<Custody.Op>)
    requires ValidConfig(c) && Runs(c, Init(c), steps, t)
    ensures Custody.Reaches(c.g, Custody.Init(c.g, c.workers), ops, t.core)
    ensures NoCrash(steps) ==> NoRestart(ops)
  {
    InvInit(c);
    assert Custody.Reaches(c.g, Custody.Init(c.g, c.workers), [], Init(c).core);
    ops := Refines(c, Init(c), steps, t, Custody.Init(c.g, c.workers), []);
  }

  // ---- Consequences ----

  /** The tokens of this boot's enqueues are exactly divided between pool, workers' hands
      and matches of ten; nobody is in two places; everyone in the pool is in the bucket
      of their own rating. */
  lemma Accounted(c: Config, s: State, p: Player)
    requires Inv(c, s)
    ensures Custody.Live(s.core) + Bag(s.core.formed) == multiset(s.core.enqueued)
    ensures Custody.Live(s.core)[p] + Bag(s.core.formed)[p] <= 1
    ensures Placed(c.g, s.core.queues)
  {
    Custody.MatchedOnce(s.core, p);
  }

  lemma {:induction false} TensBag(formed: seq<seq<Player>>)
    requires forall i :: 0 <= i < |formed| ==> |formed[i]| == 10
    ensures |Bag(formed)| == 10 * |formed|
  {
    if formed != [] {
      TensBag(formed[1..]);
    }
  }

  /** The published counters: never below minus one, and exact whenever no thread is
      between an action and its count. */
  lemma CounterLedger(c: Config, s: State)
    requires Inv(c, s)
    ensures s.waiting >= -1
    ensures Uncounted(s) == 0 && Settling(s.pcs) == 0 ==>
              && s.waiting == |Custody.Live(s.core)|
              && s.playersEnqueued == s.waiting + 10 * s.matchesFormed
  {
    TensBag(s.core.formed);
    assert |Custody.Live(s.core) + Bag(s.core.formed)| == |Custody.Live(s.core)| + |Bag(s.core.formed)|;
  }

  /** No thread ever holds two mutexes. */
  lemma OneMutexEach(c: Config, s: State, m: Mutex, m': Mutex)
    requires LocksOk(c, s) && m in s.holder && m' in s.holder && s.holder[m] == s.holder[m']
    ensures m == m'
  {
    assert Wants(c, s, s.holder[m]) == Some(m) && Wants(c, s, s.holder[m']) == Some(m');
  }

  ghost predicate CanStep(c: Config, s: State, t: Tid) {
    exists step :: Mover(step) == Some(t) && Enabled(c, s, step)
  }

  /** In every reachable state each thread can step, or waits for a mutex whose holder
      can leave its critical section at once: there is no deadlock. */
  lemma NoDeadlock(c: Config, s: State, t: Tid)
    requires Inv(c, s) && (t.Matcher? ==> t.w < c.workers)
    ensures CanStep(c, s, t)
         || (Wants(c, s, t).Some? && Wants(c, s, t).value in s.holder
             && Enabled(c, s, Act(s.holder[Wants(c, s, t).value])))
  {
    hide Custody.Inv;
    var want := Wants(c, s, t);
    if want == None {
      CanMove(c, s, t);
    } else if want.value !in s.holder {
      assert Mover(Acquire(t)) == Some(t) && Enabled(c, s, Acquire(t));
    } else {
      assert Wants(c, s, s.holder[want.value]) == want;
    }
  }

  lemma CanMove(c: Config, s: State, t: Tid)
    requires Inv(c, s) && (t.Matcher? ==> t.w < c.workers) && Wants(c, s, t) == None
    ensures CanStep(c, s, t)
  {
    hide Custody.Inv;
    CoreFacts(c.g, s.core);
    var choice := if t == Snapshotter then s.trimmed else 0;
    assert Mover(Local(t, choice)) == Some(t) && Enabled(c, s, Local(t, choice));
  }

  /** A worker at a border bucket never waits for it. */
  lemma BordersNeverBlock(c: Config, s: State, w: nat)
    requires Inv(c, s) && w < c.workers && OnlyTries(s, Matcher(w))
    ensures CanStep(c, s, Matcher(w))
  {
    var want := Wants(c, s, Matcher(w));
    if want == None {
      CanMove(c, s, Matcher(w));
    } else if want.value !in s.holder {
      assert Mover(Acquire(Matcher(w))) == Some(Matcher(w)) && Enabled(c, s, Acquire(Matcher(w)));
    } else if s.holder[want.value] == Matcher(w) {
      assert Mover(Act(Matcher(w))) == Some(Matcher(w)) && Enabled(c, s, Act(Matcher(w)));
    } else {
      assert Mover(TryFails(w)) == Some(Matcher(w)) && Enabled(c, s, TryFails(w));
    }
  }

  /** Recovery, as the threads run it: every event ever published is still in the stream
      and ahead of the read cursor, or is waiting, in hand or matched, or was left behind
      at a restart; and one left behind is in no other of these places. */
  lemma EveryEventAccounted(c: Config, s: State, e: nat)
    requires Inv(c, s) && e < |s.stream|
    ensures e >= s.core.frontier ==> e >= s.trimmed
    ensures (e < s.core.frontier && e !in s.core.matched && forall p :: p in Custody.Live(s.core) ==> p.event != e)
       <==> e in s.core.lost
  {
    Custody.InvLost(c.g, s.core, e);
    assert e in Custody.Events(Custody.Live(s.core)) <==> exists p :: p in Custody.Live(s.core) && p.event == e;
  }

  /** What a crash loses, over all runs of the threads and however many crashes came before:
      what the snapshot on disk missed in a worker's hands, did not save under another
      enqueue and saw no match since. */
  lemma CrashLoses(c: Config, steps: seq<Step>, s: State, e: nat)
    requires ValidConfig(c) && Runs(c, Init(c), steps, s)
    ensures var disk := s.core.disk;
            Custody.IsLost(Next(c, s, Crash).core, e) <==>
              e in s.core.lost
              || (e in disk.missed && e !in Custody.SavedEvents(disk.saved) && e !in s.core.matched)
  {
    var ops := CustodyRun(c, steps, s);
    Custody.RestartLoses(c.g, c.workers, ops, s.core, s.clock, e);
    CrashBoots(c, steps, s);
  }

  lemma CrashBoots(c: Config, steps: seq<Step>, s: State)
    requires ValidConfig(c) && Runs(c, Init(c), steps, s)
    ensures Next(c, s, Crash).core == Custody.Boot(c.g, s.core, s.clock)
  {
    hide *;
    Reachable(c, steps, s);
    InvHolds(c, s);
    CoreFacts(c.g, s.core);
    BootBy(c, s);
  }

  lemma BootBy(c: Config, s: State)
    requires ValidConfig(c) && |s.core.queues| == c.g.total
    ensures Next(c, s, Crash).core == Custody.Boot(c.g, s.core, s.clock)
  {
    hide Custody.Boot;
  }

  /** The first crash loses exactly the unmatched players who were in a worker's hands when
      their bucket was copied, their events behind the snapshot's cursor. */
  lemma FirstCrashLoses(c: Config, steps: seq<Step>, s: State, e: nat)
    requires ValidConfig(c) && Runs(c, Init(c), steps, s) && NoCrash(steps)
    ensures Custody.IsLost(Next(c, s, Crash).core, e) <==> e in s.core.disk.missed && e !in s.core.matched
  {
    var ops := CustodyRun(c, steps, s);
    Custody.FirstRestartLoses(c.g, c.workers, ops, s.core, s.clock, e);
    CrashBoots(c, steps, s);
  }

  /** Everyone waiting in the window of a worker at the gate entered no earlier than the first
      player in hand, and has waited no longer than the wait the gate sees. */
  ghost predicate AnchorHolds(s: State) {
    |s.pcs| > 0 && |s.core.hands| > 0 && s.pcs[0].Gate? && |s.core.hands[0]| > 0 ==>
      forall b, i :: b in s.pcs[0].window && b < |s.core.queues| && 0 <= i < |s.core.queues[b]| ==>
        && s.core.hands[0][0].player.enqueuedAt <= s.core.queues[b][i].enqueuedAt
        && Worker.Elapsed(s.core.queues[b][i], s.clock) <= Worker.LongestWait(Players(s.core.hands[0]), s.clock)
  }

  lemma GateFacts(c: Config, s: State)
    requires Inv(c, s) && c.workers == 1 && s.pcs[0].Gate?
    ensures |s.core.queues| == c.g.total && |s.core.hands[0]| == 10 && Indices(s.pcs[0].window, c.g.total)
    ensures HandFirst(c, s.core.queues, s.pcs[0].window, s.core.hands[0], s.pcs[0].since)
  {
    hide *;
    InvHolds(c, s);
    CoreFacts(c.g, s.core);
    GateShape(c, s);
    GateAnchor(c, s);
  }

  lemma GateShape(c: Config, s: State)
    requires Inv(c, s) && c.workers == 1 && s.pcs[0].Gate?
    ensures |s.core.hands[0]| == 10 && Indices(s.pcs[0].window, c.g.total)
  {
    hide Custody.Inv;
    hide AnchorOk;
    hide RealOk;
    hide LocksOk;
    hide LedgerOk;
    hide FairOk;
    assert PcOk(c, s.pcs[0], s.core.hands[0]);
  }

  lemma GateAnchor(c: Config, s: State)
    requires Inv(c, s) && c.workers == 1 && |s.pcs| == |s.core.hands| == 1 && s.pcs[0].Gate?
    ensures HandFirst(c, s.core.queues, s.pcs[0].window, s.core.hands[0], s.pcs[0].since)
  {
    hide ControlOk;
    hide RealOk;
    hide HandFirst;
  }

  lemma FirstWaits(hand: seq<Taken>, p: Player, clock: nat)
    requires hand != [] && hand[0].player.enqueuedAt <= p.enqueuedAt
    ensures Worker.Elapsed(p, clock) <= Worker.LongestWait(Players(hand), clock)
  {
    assert Worker.Elapsed(Players(hand)[0], clock) <= Worker.LongestWait(Players(hand), clock);
  }

  /** With a single worker at the gate, in any reachable state, nobody who was waiting in the
      window when the peek began is ahead of the first player in hand, whoever joined in
      between; if that player was waiting then too, nobody at all is. The wait the gate
      sees is at least theirs. */
  lemma AnchorIsOldest(c: Config, s: State, b: nat, p: Player)
    requires Inv(c, s) && c.workers == 1 && s.pcs[0].Gate?
    requires b < |s.core.queues| && b in s.pcs[0].window && p in s.core.queues[b]
    ensures var hand := s.core.hands[0];
            && |hand| == 10
            && (p.token < s.pcs[0].since || hand[0].player.token < s.pcs[0].since ==>
                  hand[0].player.enqueuedAt <= p.enqueuedAt
                  && Worker.Elapsed(p, s.clock) <= Worker.LongestWait(Players(hand), s.clock))
  {
    GateFacts(c, s);
    WaitingFacts(c, s);
    CustodyHolds(c, s);
    var hand, since := s.core.hands[0], s.pcs[0].since;
    var i :| 0 <= i < |s.pcs[0].window| && s.pcs[0].window[i] == b;
    var j :| 0 <= j < |s.core.queues[b]| && s.core.queues[b][j] == p;
    assert ControlOk(c, s);
    assert p in s.core.enqueued && hand[0].player in s.core.enqueued;
    hide ControlOk;
    hide Inv;
    assert p.token >= since || hand[0].player.enqueuedAt <= p.enqueuedAt;
    if p.token >= since && hand[0].player.token < since {
      TokenTime(c, s, hand[0].player, p);
    }
    if hand[0].player.enqueuedAt <= p.enqueuedAt {
      FirstWaits(hand, p, s.clock);
    }
  }

  /** When a window is one bucket or the whole ring, or no rating lies in a border, that is
      so of everyone in it. */
  lemma ClosedAnchorHolds(c: Config, s: State)
    requires Inv(c, s) && c.workers == 1 && Closed(c)
    ensures AnchorHolds(s)
  {
    CustodyHolds(c, s);
    if s.pcs[0].Gate? {
      GateFacts(c, s);
      hide Inv;
      var hand := s.core.hands[0];
      forall b, i | b in s.pcs[0].window && b < |s.core.queues| && 0 <= i < |s.core.queues[b]|
        ensures hand[0].player.enqueuedAt <= s.core.queues[b][i].enqueuedAt
        ensures Worker.Elapsed(s.core.queues[b][i], s.clock) <= Worker.LongestWait(Players(hand), s.clock)
      {
        var k :| 0 <= k < |s.pcs[0].window| && s.pcs[0].window[k] == b;
        assert hand[0].player.enqueuedAt <= s.core.queues[b][i].enqueuedAt;
        FirstWaits(hand, s.core.queues[b][i], s.clock);
      }
    }
  }

  /** With a single worker, bucket order is match order in every reachable state. */
  lemma SingleWorkerIsFair(c: Config, s: State, i: nat, j: nat, m: nat)
    requires Inv(c, s) && c.workers == 1
    requires i < j < |s.core.enqueued| && m < |s.core.formed| && s.core.enqueued[j] in s.core.formed[m]
    requires Home(c.g, s.core.enqueued[i]) == Home(c.g, s.core.enqueued[j])
    ensures exists k :: 0 <= k <= m && s.core.enqueued[i] in s.core.formed[k]
  {
    Custody.FirstComeFirstMatched(c.g, s.core, i, j, m);
  }
}
