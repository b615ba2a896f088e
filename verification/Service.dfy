/** The whole service: the threads of the matching engine and the delivery pipeline as one
    machine. A worker's acceptance at the gate hands its match to its delivery, its deferral
    is the retry queue's arrival, and a crash stops both. What a published event comes to. */
module Service {
  import opened Base
  import opened Optimizer
  import opened Buckets
  import opened MatchPool
  import Custody
  import Engine
  import Delivery

  /** A match formed and the ten players it was formed from. */
  datatype Formation = Formation(group: seq<Player>, m: MatchResult)

  datatype State = State(engine: Engine.State, delivery: Delivery.State, book: seq<Formation>)

  datatype Step = Threads(step: Engine.Step) | Delivers(d: Delivery.Step)

  ghost function Formed(e: Engine.State, w: nat): Formation
    requires |Engine.Hand(e, w)| == 10
  {
    var group := Players(Engine.Hand(e, w));
    Formation(group, Outcome(group, e.nextMid))
  }

  ghost predicate Accepted(e: Engine.State, step: Engine.Step) {
    Engine.Forms(e, step) && |Engine.Hand(e, step.t.w)| == 10
  }

  predicate Defers(e: Engine.State, step: Engine.Step) {
    step.Act? && step.t.Matcher? && step.t.w < |e.pcs| && e.pcs[step.t.w].Defer?
  }

  /** What a step of the threads does to the delivery. */
  ghost function Pair(e: Engine.State, step: Engine.Step): Option<Delivery.Step> {
    if Accepted(e, step) then Some(Delivery.Form(step.t.w, Formed(e, step.t.w).m))
    else if Defers(e, step) then Some(Delivery.Defer(step.t.w))
    else if step.Crash? then Some(Delivery.ProcessCrash)
    else None
  }

  /** A worker leaves its inline attempts once they succeeded, or defers the match. */
  predicate Settled(s: State, step: Engine.Step) {
    step.Local? && step.t.Matcher? && step.t.w < |s.engine.pcs| && s.engine.pcs[step.t.w].Commit? ==>
      && step.t.w < |s.delivery.hands|
      && if step.choice == 0 then !s.delivery.hands[step.t.w].Writing? && !s.delivery.hands[step.t.w].Deferring?
         else s.delivery.hands[step.t.w].Deferring?
  }

  ghost predicate Enabled(c: Engine.Config, s: State, step: Step) {
    match step
    case Threads(x) =>
      && Engine.Enabled(c, s.engine, x) && Settled(s, x)
      && (Pair(s.engine, x).Some? ==> Delivery.Enabled(s.delivery, Pair(s.engine, x).value))
    case Delivers(x) => Delivery.Enabled(s.delivery, x) && !x.Form? && !x.Defer? && !x.ProcessCrash?
  }

  ghost function Next(c: Engine.Config, s: State, step: Step): State
    requires Engine.ValidConfig(c) && Enabled(c, s, step)
  {
    match step
    case Threads(x) =>
      var pair := Pair(s.engine, x);
      State(Engine.Next(c, s.engine, x),
            if pair.Some? then Delivery.Next(s.delivery, pair.value) else s.delivery,
            if Accepted(s.engine, x) then s.book + [Formed(s.engine, x.t.w)] else s.book)
    case Delivers(x) => s.(delivery := Delivery.Next(s.delivery, x))
  }

  function Init(c: Engine.Config): State {
    State(Engine.Init(c), Delivery.Init(c.workers), [])
  }

  ghost predicate Runs(c: Engine.Config, s: State, steps: seq<Step>, t: State)
    requires Engine.ValidConfig(c)
    decreases |steps|
  {
    if steps == [] then s == t else Enabled(c, s, steps[0]) && Runs(c, Next(c, s, steps[0]), steps[1..], t)
  }

  // ---- The book of matches ----

  function BookBag(book: seq<Formation>): multiset<MatchResult> {
    if book == [] then multiset{} else BookBag(book[..|book| - 1]) + multiset{book[|book| - 1].m}
  }

  lemma {:induction false} BookHas(book: seq<Formation>, m: MatchResult) returns (i: nat)
    requires m in BookBag(book)
    ensures i < |book| && book[i].m == m
  {
    var n := |book| - 1;
    if book[n].m == m {
      i := n;
    } else {
      i := BookHas(book[..n], m);
    }
  }

  lemma {:induction false} HasBook(book: seq<Formation>, i: nat)
    requires i < |book|
    ensures book[i].m in BookBag(book)
  {
    if i < |book| - 1 {
      HasBook(book[..|book| - 1], i);
    }
  }

  ghost predicate Names(f: Formation, ev: nat) {
    exists i :: 0 <= i < |f.group| && f.group[i].event == ev
  }

  /** The book lists every match ever formed, from ten real players each, and every matched
      event is in it. */
  ghost predicate BookOk(s: State) {
    && s.delivery.formed == BookBag(s.book)
    && (forall i :: 0 <= i < |s.book| ==>
          |s.book[i].group| == 10 && Engine.AllReal(s.engine.stream, s.book[i].group)
          && s.book[i].m == Outcome(s.book[i].group, s.book[i].m.matchId))
    && (forall ev :: ev in s.engine.core.matched ==> Booked(s.book, ev))
  }

  ghost predicate Booked(book: seq<Formation>, ev: nat) {
    exists i :: 0 <= i < |book| && Names(book[i], ev)
  }

  lemma BookedMore(book: seq<Formation>, f: Formation, ev: nat)
    ensures Booked(book, ev) ==> Booked(book + [f], ev)
    ensures Names(f, ev) ==> Booked(book + [f], ev)
  {
    if Booked(book, ev) {
      var i :| 0 <= i < |book| && Names(book[i], ev);
      assert (book + [f])[i] == book[i];
    }
    assert (book + [f])[|book|] == f;
  }

  /** What a step of the threads does to the matched events and the next match id. */
  lemma MatchedStep(c: Engine.Config, e: Engine.State, step: Engine.Step)
    requires Engine.Inv(c, e) && Engine.Enabled(c, e, step)
    ensures Engine.Forms(e, step) <==> Accepted(e, step)
    ensures Engine.Next(c, e, step).core.matched == e.core.matched +
              (if Accepted(e, step) then Custody.Events(multiset(Players(Engine.Hand(e, step.t.w)))) else {})
  {
    Engine.StepIsOp(c, e, step);
    Engine.StepKind(c, e, step);
    assert |e.core.hands| == |e.pcs|;
    var op := Engine.StepOp(c, e, step);
    hide Engine.Inv;
    hide Engine.Enabled;
    hide Engine.Next;
    hide Engine.StepOp;
    hide Custody.Enabled;
    if op.Some? {
      OpMatched(c.g, e.core, op.value);
    }
    hide Custody.Apply;
  }

  lemma OpMatched(g: Grid, core: Custody.State, op: Custody.Op)
    requires Custody.Enabled(g, core, op)
    ensures Custody.Apply(g, core, op).matched == core.matched +
              (if op.Form? then Custody.Events(multiset(Players(core.hands[op.w]))) else {})
  {
    hide Custody.Held;
    hide Custody.EventsAt;
  }

  // ---- Every step ----

  lemma EventsNamed(group: seq<Player>, ev: nat)
    requires ev in Custody.Events(multiset(group))
    ensures exists i :: 0 <= i < |group| && group[i].event == ev
  {
    var p :| p in multiset(group) && p.event == ev;
    var i :| 0 <= i < |group| && group[i] == p;
  }

  lemma BookGrows(s: State, s': State, f: Formation)
    requires BookOk(s) && s'.book == s.book + [f] && s'.delivery.formed == s.delivery.formed + multiset{f.m}
    requires s.engine.stream <= s'.engine.stream && |f.group| == 10 && Engine.AllReal(s.engine.stream, f.group)
    requires f.m == Outcome(f.group, f.m.matchId)
    requires s'.engine.core.matched == s.engine.core.matched + Custody.Events(multiset(f.group))
    ensures BookOk(s')
  {
    hide Outcome;
    hide Engine.AllReal;
    assert s'.book[..|s.book|] == s.book;
    forall i | 0 <= i < |s'.book|
      ensures |s'.book[i].group| == 10 && Engine.AllReal(s'.engine.stream, s'.book[i].group)
              && s'.book[i].m == Outcome(s'.book[i].group, s'.book[i].m.matchId)
    {
      Engine.RealLater(s.engine.stream, s'.engine.stream, s'.book[i].group);
    }
    forall ev | ev in s'.engine.core.matched ensures Booked(s'.book, ev) {
      BookedMore(s.book, f, ev);
      if ev !in s.engine.core.matched {
        EventsNamed(f.group, ev);
      }
    }
  }

  lemma AcceptedBook(c: Engine.Config, s: State, x: Engine.Step)
    requires Engine.Inv(c, s.engine) && BookOk(s)
    requires Enabled(c, s, Threads(x)) && Engine.ValidConfig(c) && Accepted(s.engine, x)
    ensures BookOk(Next(c, s, Threads(x)))
  {
    var f := Formed(s.engine, x.t.w);
    var s' := Next(c, s, Threads(x));
    MatchedStep(c, s.engine, x);
    Engine.StreamGrows(c, s.engine, x);
    Engine.InvHolds(c, s.engine);
    hide Engine.Inv;
    hide Engine.Enabled;
    hide Engine.Next;
    hide BookOk;
    hide Outcome;
    hide Engine.AllReal;
    assert Engine.Hand(s.engine, x.t.w) == s.engine.core.hands[x.t.w];
    Engine.HandReal(c, s.engine, x.t.w);
    OutcomeId(f.group, s.engine.nextMid);
    BookGrows(s, s', f);
  }

  lemma OutcomeId(group: seq<Player>, mid: nat)
    requires |group| == 10
    ensures Outcome(group, mid).matchId == mid
  {
  }

  lemma QuietBook(c: Engine.Config, s: State, step: Step)
    requires Engine.Inv(c, s.engine) && BookOk(s) && Engine.ValidConfig(c) && Enabled(c, s, step)
    requires step.Threads? ==> !Accepted(s.engine, step.step)
    ensures BookOk(Next(c, s, step))
  {
    var s' := Next(c, s, step);
    FormedKept(c, s, step);
    assert s'.book == s.book && s'.engine == (if step.Threads? then Engine.Next(c, s.engine, step.step) else s.engine);
    hide *;
    if step.Threads? {
      ThreadsEnabled(c, s, step.step);
      MatchedStep(c, s.engine, step.step);
      Engine.StreamGrows(c, s.engine, step.step);
    }
    BookKept(s, s');
  }

  lemma ThreadsEnabled(c: Engine.Config, s: State, x: Engine.Step)
    requires Enabled(c, s, Threads(x))
    ensures Engine.Enabled(c, s.engine, x)
  {
    hide Engine.Enabled;
    hide Delivery.Enabled;
  }

  lemma BookKept(s: State, s': State)
    requires BookOk(s) && s'.book == s.book && s'.delivery.formed == s.delivery.formed
    requires s.engine.stream <= s'.engine.stream && s'.engine.core.matched == s.engine.core.matched
    ensures BookOk(s')
  {
    hide Outcome;
    hide Engine.AllReal;
    forall i | 0 <= i < |s.book| ensures Engine.AllReal(s'.engine.stream, s.book[i].group) {
      Engine.RealLater(s.engine.stream, s'.engine.stream, s.book[i].group);
    }
  }

  lemma FormedKept(c: Engine.Config, s: State, step: Step)
    requires Engine.ValidConfig(c) && Enabled(c, s, step) && (step.Threads? ==> !Accepted(s.engine, step.step))
    ensures Next(c, s, step).delivery.formed == s.delivery.formed
  {
    hide Engine.Next;
    hide Engine.Enabled;
    hide Accepted;
    hide Delivery.Pipeline;
    hide Delivery.Stores;
    if step.Delivers? {
      PipelinesKeep(s.delivery, step.d);
    }
  }

  lemma PipelinesKeep(d: Delivery.State, x: Delivery.Step)
    requires Delivery.Enabled(d, x) && !x.Form?
    ensures Delivery.Next(d, x).formed == d.formed
  {
    if x.Attempt? {
      Delivery.PipelineFrame(d, d.hands[x.w].m, x.applied);
    } else if x.RetryAttempt? {
      Delivery.PipelineFrame(d, d.retry.m, x.applied);
    }
    hide Delivery.Pipeline;
    hide Delivery.Stores;
  }

  // ---- Workers and their deliveries ----

  /** Where a worker is and what it has to deliver: nothing while it looks for a group, and
      it turns to the next only when its match is written or handed to the retry queue. */
  predicate Fits(pc: Engine.Pc, h: Delivery.Hand) {
    match pc
    case Settle => !h.Deferred?
    case Commit => !h.Deferred?
    case Defer => h.Deferring?
    case _ => h.Free? || h.Deferred?
  }

  ghost predicate Coupled(pcs: seq<Engine.Pc>, hands: seq<Delivery.Hand>) {
    |pcs| == |hands| && forall w :: 0 <= w < |pcs| ==> Fits(pcs[w], hands[w])
  }

  lemma CoupledAt(pcs: seq<Engine.Pc>, hands: seq<Delivery.Hand>, w: nat, pc: Engine.Pc, h: Delivery.Hand)
    requires Coupled(pcs, hands) && w < |pcs| && Fits(pc, h)
    ensures Coupled(pcs[w := pc], hands[w := h])
  {
  }

  lemma CoupledOpen(pcs: seq<Engine.Pc>, hands: seq<Delivery.Hand>, w: nat)
    requires Coupled(pcs, hands) && w < |pcs|
    ensures |hands| == |pcs| && Fits(pcs[w], hands[w]) && hands[w := hands[w]] == hands && pcs[w := pcs[w]] == pcs
  {
  }

  lemma CoupledStep(c: Engine.Config, s: State, step: Step)
    requires Engine.ValidConfig(c) && Engine.Inv(c, s.engine) && Coupled(s.engine.pcs, s.delivery.hands)
    requires Enabled(c, s, step)
    ensures Coupled(Next(c, s, step).engine.pcs, Next(c, s, step).delivery.hands)
  {
    hide *;
    NextParts(c, s, step);
    match step {
      case Delivers(x) => CoupledDelivers(s, x);
      case Threads(x) =>
        if x.Local? && x.t.Matcher? {
          CoupledLocal(c, s, x);
        } else {
          CoupledElse(c, s, x);
        }
    }
  }

  lemma NextParts(c: Engine.Config, s: State, step: Step)
    requires Engine.ValidConfig(c) && Enabled(c, s, step)
    ensures var s' := Next(c, s, step);
            match step
            case Threads(x) =>
              var pair := Pair(s.engine, x);
              && Engine.Enabled(c, s.engine, x) && Settled(s, x) && s'.engine == Engine.Next(c, s.engine, x)
              && (pair.Some? ==> Delivery.Enabled(s.delivery, pair.value))
              && s'.delivery == if pair.Some? then Delivery.Next(s.delivery, pair.value) else s.delivery
            case Delivers(x) =>
              && Delivery.Enabled(s.delivery, x) && !x.Form? && !x.Defer? && !x.ProcessCrash?
              && s'.engine == s.engine && s'.delivery == Delivery.Next(s.delivery, x)
  {
    hide Engine.Enabled;
    hide Engine.Next;
    hide Delivery.Enabled;
    hide Delivery.Next;
    hide Accepted;
    hide Settled;
    hide Pair;
  }

  lemma CoupledDelivers(s: State, x: Delivery.Step)
    requires Coupled(s.engine.pcs, s.delivery.hands) && Delivery.Enabled(s.delivery, x)
    requires !x.Form? && !x.Defer? && !x.ProcessCrash?
    ensures Coupled(s.engine.pcs, Delivery.Next(s.delivery, x).hands)
  {
    Delivery.HandsAfter(s.delivery, x);
    hide Delivery.Next;
  }

  lemma CoupledLocal(c: Engine.Config, s: State, x: Engine.Step)
    requires Engine.ValidConfig(c) && Engine.Inv(c, s.engine) && Coupled(s.engine.pcs, s.delivery.hands)
    requires Engine.Enabled(c, s.engine, x) && Settled(s, x) && x.Local? && x.t.Matcher?
    requires Pair(s.engine, x).Some? ==> Delivery.Enabled(s.delivery, Pair(s.engine, x).value)
    ensures var pair := Pair(s.engine, x);
            var d := if pair.Some? then Delivery.Next(s.delivery, pair.value) else s.delivery;
            Coupled(Engine.Next(c, s.engine, x).pcs, d.hands)
  {
    hide *;
    var w := x.t.w;
    Engine.PcsAfter(c, s.engine, x);
    LocalWorker(c, s.engine, x);
    CoupledOpen(s.engine.pcs, s.delivery.hands, w);
    AcceptsAtGate(c, s.engine, x);
    if Accepted(s.engine, x) {
      var m := Formed(s.engine, w).m;
      Delivery.HandsAfter(s.delivery, Delivery.Form(w, m));
      SettleFits(c, s.engine, w, x.choice, m);
      CoupledAt(s.engine.pcs, s.delivery.hands, w, Engine.WorkerMoves(c, s.engine, w, x.choice), Delivery.Writing(m, 1));
    } else {
      MoveFits(c, s, w, x.choice);
      CoupledAt(s.engine.pcs, s.delivery.hands, w, Engine.WorkerMoves(c, s.engine, w, x.choice), s.delivery.hands[w]);
    }
  }

  lemma LocalWorker(c: Engine.Config, e: Engine.State, x: Engine.Step)
    requires Engine.Enabled(c, e, x) && x.Local? && x.t.Matcher?
    ensures x.t.w < |e.pcs| && x == Engine.Local(Engine.Matcher(x.t.w), x.choice) && e.pcs[x.t.w] != Engine.Defer
  {
  }

  lemma SettleFits(c: Engine.Config, e: Engine.State, w: nat, choice: nat, m: MatchResult)
    requires Engine.ValidConfig(c) && w < |e.pcs| && e.pcs[w].Gate? && Engine.Accepts(e, w)
    ensures Fits(Engine.WorkerMoves(c, e, w, choice), Delivery.Writing(m, 1))
  {
  }

  lemma MoveFits(c: Engine.Config, s: State, w: nat, choice: nat)
    requires Engine.ValidConfig(c) && w < |s.engine.pcs| && w < |s.delivery.hands|
    requires Settled(s, Engine.Local(Engine.Matcher(w), choice)) && s.engine.pcs[w] != Engine.Defer
    requires Fits(s.engine.pcs[w], s.delivery.hands[w])
    requires !(s.engine.pcs[w].Gate? && Engine.Accepts(s.engine, w))
    ensures Fits(Engine.WorkerMoves(c, s.engine, w, choice), s.delivery.hands[w])
  {
    hide Engine.Accepts;
    hide DrainOrder;
  }

  lemma AcceptsAtGate(c: Engine.Config, e: Engine.State, x: Engine.Step)
    requires Engine.Inv(c, e) && Engine.Enabled(c, e, x) && x.Local? && x.t.Matcher?
    ensures Accepted(e, x) <==> x.t.w < |e.pcs| && e.pcs[x.t.w].Gate? && Engine.Accepts(e, x.t.w)
    ensures Accepted(e, x) ==> |Engine.Hand(e, x.t.w)| == 10
    ensures Pair(e, x) == if Accepted(e, x) then Some(Delivery.Form(x.t.w, Formed(e, x.t.w).m)) else None
  {
    hide Engine.Inv;
    hide Formed;
  }

  lemma CoupledElse(c: Engine.Config, s: State, x: Engine.Step)
    requires Engine.ValidConfig(c) && Coupled(s.engine.pcs, s.delivery.hands)
    requires Engine.Enabled(c, s.engine, x) && !(x.Local? && x.t.Matcher?)
    requires Pair(s.engine, x).Some? ==> Delivery.Enabled(s.delivery, Pair(s.engine, x).value)
    ensures var pair := Pair(s.engine, x);
            var d := if pair.Some? then Delivery.Next(s.delivery, pair.value) else s.delivery;
            Coupled(Engine.Next(c, s.engine, x).pcs, d.hands)
  {
    hide *;
    Engine.PcsAfter(c, s.engine, x);
    PairElse(s.engine, x);
    match x
    case Act(Matcher(w)) =>
      ActWorker(c, s.engine, w);
      CoupledOpen(s.engine.pcs, s.delivery.hands, w);
      if s.engine.pcs[w] == Engine.Defer {
        Delivery.HandsAfter(s.delivery, Delivery.Defer(w));
        ActFits(c, s.engine, w, Delivery.Deferred);
        CoupledAt(s.engine.pcs, s.delivery.hands, w, Engine.WorkerActs(c, s.engine, w), Delivery.Deferred);
      } else {
        ActFits(c, s.engine, w, s.delivery.hands[w]);
        CoupledAt(s.engine.pcs, s.delivery.hands, w, Engine.WorkerActs(c, s.engine, w), s.delivery.hands[w]);
      }
    case TryFails(w) =>
      TryWorker(c, s.engine, w);
      CoupledOpen(s.engine.pcs, s.delivery.hands, w);
      UndoFits(s.engine.pcs[w], s.delivery.hands[w]);
      CoupledAt(s.engine.pcs, s.delivery.hands, w, Engine.Undo, s.delivery.hands[w]);
    case Crash =>
      Delivery.HandsAfter(s.delivery, Delivery.ProcessCrash);
      CoupledCount(s.engine.pcs, s.delivery.hands);
      CoupledAfresh(s.engine.pcs, s.delivery.hands);
    case _ =>
  }

  lemma PairElse(e: Engine.State, x: Engine.Step)
    requires !(x.Local? && x.t.Matcher?)
    ensures Pair(e, x) == match x
                          case Act(Matcher(w)) =>
                            if w < |e.pcs| && e.pcs[w] == Engine.Defer then Some(Delivery.Defer(w)) else None
                          case Crash => Some(Delivery.ProcessCrash)
                          case _ => None
  {
    hide Formed;
  }

  lemma ActWorker(c: Engine.Config, e: Engine.State, w: nat)
    requires Engine.Enabled(c, e, Engine.Act(Engine.Matcher(w)))
    ensures w < |e.pcs|
  {
  }

  lemma TryWorker(c: Engine.Config, e: Engine.State, w: nat)
    requires Engine.Enabled(c, e, Engine.TryFails(w))
    ensures w < |e.pcs| && e.pcs[w].Harvest?
  {
  }

  lemma ActFits(c: Engine.Config, e: Engine.State, w: nat, h: Delivery.Hand)
    requires w < |e.pcs|
    requires if e.pcs[w] == Engine.Defer then h == Delivery.Deferred else Fits(e.pcs[w], h)
    ensures Fits(Engine.WorkerActs(c, e, w), h)
  {
    hide Engine.Targets;
  }

  lemma UndoFits(pc: Engine.Pc, h: Delivery.Hand)
    requires pc.Harvest? && Fits(pc, h)
    ensures Fits(Engine.Undo, h)
  {
  }

  lemma CoupledCount(pcs: seq<Engine.Pc>, hands: seq<Delivery.Hand>)
    requires Coupled(pcs, hands)
    ensures |pcs| == |hands|
  {
  }

  lemma CoupledAfresh(pcs: seq<Engine.Pc>, hands: seq<Delivery.Hand>)
    requires |pcs| == |hands|
    ensures Coupled(seq(|pcs|, _ => Engine.Claim), seq(|hands|, _ => Delivery.Free))
  {
  }

  ghost predicate Inv(c: Engine.Config, s: State) {
    Engine.Inv(c, s.engine) && Delivery.Inv(s.delivery) && BookOk(s) && Coupled(s.engine.pcs, s.delivery.hands)
  }

  lemma InvInit(c: Engine.Config)
    requires Engine.ValidConfig(c)
    ensures Inv(c, Init(c))
  {
    Engine.InvInit(c);
    Delivery.InvInit(c.workers);
    hide Engine.Inv;
    hide Delivery.Inv;
  }

  lemma InvStep(c: Engine.Config, s: State, step: Step)
    requires Engine.ValidConfig(c) && Inv(c, s) && Enabled(c, s, step)
    ensures Inv(c, Next(c, s, step))
  {
    hide Engine.Inv;
    hide Engine.Enabled;
    hide Engine.Next;
    hide Delivery.Inv;
    hide Delivery.Enabled;
    hide Delivery.Next;
    hide BookOk;
    hide Coupled;
    CoupledStep(c, s, step);
    if step.Threads? {
      Engine.InvStep(c, s.engine, step.step);
      var pair := Pair(s.engine, step.step);
      if pair.Some? {
        Delivery.InvStep(s.delivery, pair.value);
      }
      if Accepted(s.engine, step.step) {
        AcceptedBook(c, s, step.step);
      } else {
        QuietBook(c, s, step);
      }
    } else {
      Delivery.InvStep(s.delivery, step.d);
      QuietBook(c, s, step);
    }
  }

  lemma {:induction false} InvRuns(c: Engine.Config, s: State, steps: seq<Step>, t: State)
    requires Engine.ValidConfig(c) && Inv(c, s) && Runs(c, s, steps, t)
    ensures Inv(c, t)
    decreases |steps|
  {
    hide Inv;
    hide Enabled;
    hide Next;
    if steps != [] {
      InvStep(c, s, steps[0]);
      InvRuns(c, Next(c, s, steps[0]), steps[1..], t);
    }
  }

  // ---- What a published event comes to ----

  /** In every reachable state of the service a worker about to take a ticket has no match in
      its hands that is still to be written or handed over. */
  lemma NothingLeftBehind(c: Engine.Config, steps: seq<Step>, t: State, w: nat)
    requires Engine.ValidConfig(c) && Runs(c, Init(c), steps, t) && w < |t.engine.pcs| && t.engine.pcs[w].Claim?
    ensures w < |t.delivery.hands| && Delivery.Held(t.delivery.hands[w]) == multiset{}
  {
    hide *;
    InvInit(c);
    InvRuns(c, Init(c), steps, t);
    InvOpen(c, t);
    CoupledOpen(t.engine.pcs, t.delivery.hands, w);
    IdleHolds(t.engine.pcs[w], t.delivery.hands[w]);
  }

  lemma IdleHolds(pc: Engine.Pc, h: Delivery.Hand)
    requires pc.Claim? && Fits(pc, h)
    ensures Delivery.Held(h) == multiset{}
  {
  }

  /** The match puts the user of the event, at the event's rating, on one of its teams. */
  predicate PutsInTeam(m: MatchResult, e: Engine.Event) {
    (e.id, e.rating) in m.teamA || (e.id, e.rating) in m.teamB
  }

  lemma BookedInTeam(s: State, i: nat, ev: nat)
    requires BookOk(s) && i < |s.book| && Names(s.book[i], ev)
    ensures ev < |s.engine.stream| && PutsInTeam(s.book[i].m, s.engine.stream[ev])
    ensures s.book[i].m in s.delivery.formed
  {
    hide Outcome;
    hide Roster;
    hide Entry;
    var f := s.book[i];
    HasBook(s.book, i);
    var k :| 0 <= k < |f.group| && f.group[k].event == ev;
    assert Engine.Real(s.engine.stream, f.group[k]);
    OnATeam(f.group, f.m.matchId, k);
  }

  lemma OnATeam(group: seq<Player>, mid: nat, k: nat)
    requires |group| == 10 && k < 10
    ensures var m, e := Outcome(group, mid), (group[k].id, AsI32(group[k].rating)); e in m.teamA || e in m.teamB
  {
    TeamsPartition(group, mid);
    assert Roster(group)[k] == Entry(group[k]);
    hide Outcome;
    assert Entry(group[k]) in multiset(Roster(group));
    var m := Outcome(group, mid);
    assert Entry(group[k]) in multiset(m.teamA) + multiset(m.teamB);
  }

  /** Where a formed match is: still in memory, on its way to Postgres or there, or forgotten
      by a process crash before it reached the stream. */
  ghost predicate Delivered(d: Delivery.State, m: MatchResult) {
    m in Delivery.InMemory(d) || Delivery.OnItsWay(d, m) || Delivery.Gone(d, m)
  }

  /** End to end, over every run of the whole service with its crashes and failures: a
      published event is ahead of the read cursor and still in the stream, or its player is
      waiting or in a worker's hands, or it was left behind at a restart, or its user is on a
      team of a match that is in memory, on its way to Postgres or stored there, or forgotten
      by a process crash before it reached the stream. */
  lemma EndToEnd(c: Engine.Config, steps: seq<Step>, t: State, ev: nat)
    requires Engine.ValidConfig(c) && Runs(c, Init(c), steps, t) && ev < |t.engine.stream|
    ensures (ev >= t.engine.core.frontier && ev >= t.engine.trimmed)
         || (exists p :: p in Custody.Live(t.engine.core) && p.event == ev)
         || ev in t.engine.core.lost
         || (exists m :: m in t.delivery.formed && PutsInTeam(m, t.engine.stream[ev]) && Delivered(t.delivery, m))
  {
    hide *;
    InvInit(c);
    InvRuns(c, Init(c), steps, t);
    InvOpen(c, t);
    Engine.EveryEventAccounted(c, t.engine, ev);
    if ev in t.engine.core.matched {
      var i := EventBooked(t, ev);
      BookedInTeam(t, i, ev);
      IsDelivered(t.delivery, t.book[i].m);
    }
  }

  lemma InvOpen(c: Engine.Config, s: State)
    requires Inv(c, s)
    ensures Engine.Inv(c, s.engine) && Delivery.Inv(s.delivery) && BookOk(s) && Coupled(s.engine.pcs, s.delivery.hands)
  {
    hide Engine.Inv;
    hide Delivery.Inv;
    hide BookOk;
    hide Coupled;
  }

  lemma EventBooked(s: State, ev: nat) returns (i: nat)
    requires BookOk(s) && ev in s.engine.core.matched
    ensures i < |s.book| && Names(s.book[i], ev)
  {
    i :| i < |s.book| && Names(s.book[i], ev);
  }

  lemma IsDelivered(d: Delivery.State, m: MatchResult)
    requires Delivery.Inv(d) && m in d.formed
    ensures Delivered(d, m)
  {
    Delivery.FormedIsSomewhere(d, m);
  }

  // ---- Within one lifetime ----

  /** Since boot nothing was lost, and match ids went up. */
  ghost predicate Calm(s: State) {
    && s.engine.core.lost == {} && s.delivery.lost == multiset{}
    && (forall i, j :: 0 <= i < j < |s.book| ==> s.book[i].m.matchId < s.book[j].m.matchId)
    && (forall i :: 0 <= i < |s.book| ==> s.book[i].m.matchId < s.engine.nextMid)
  }

  lemma NextId(c: Engine.Config, e: Engine.State, x: Engine.Step)
    requires Engine.Inv(c, e) && Engine.Enabled(c, e, x) && !x.Crash?
    ensures Engine.Next(c, e, x).nextMid >= e.nextMid + (if Accepted(e, x) then 1 else 0)
  {
    Engine.InvHolds(c, e);
    MatchedStep(c, e, x);
    hide *;
    Engine.CountersFrame(c, e, x);
  }

  lemma NothingLost(c: Engine.Config, e: Engine.State, x: Engine.Step)
    requires Engine.Inv(c, e) && Engine.Enabled(c, e, x) && !x.Crash?
    ensures Engine.Next(c, e, x).core.lost == e.core.lost
  {
    hide *;
    Engine.InvHolds(c, e);
    Engine.StepIsOp(c, e, x);
    var op := Engine.StepOp(c, e, x);
    if op.Some? {
      OpLosesNobody(c.g, e.core, op.value);
    }
  }

  lemma OpLosesNobody(g: Grid, core: Custody.State, op: Custody.Op)
    requires Custody.Enabled(g, core, op) && !op.Restart?
    ensures Custody.Apply(g, core, op).lost == core.lost
  {
    hide Custody.Held;
    hide Custody.EventsAt;
    hide Custody.Events;
  }

  lemma NoneLost(d: Delivery.State, x: Delivery.Step)
    requires Delivery.Enabled(d, x) && !x.ProcessCrash?
    ensures Delivery.Next(d, x).lost == d.lost
  {
    hide Delivery.SetTickets;
    hide Delivery.Stores;
  }

  lemma CalmStep(c: Engine.Config, s: State, step: Step)
    requires Engine.ValidConfig(c) && Inv(c, s) && Calm(s) && Enabled(c, s, step)
    requires step.Threads? ==> !step.step.Crash?
    ensures Calm(Next(c, s, step))
  {
    hide Engine.Inv;
    hide Engine.Enabled;
    hide Engine.Next;
    hide Delivery.Inv;
    hide Delivery.Enabled;
    hide Delivery.Next;
    hide BookOk;
    if step.Threads? {
      var pair := Pair(s.engine, step.step);
      NextId(c, s.engine, step.step);
      NothingLost(c, s.engine, step.step);
      if pair.Some? {
        NoneLost(s.delivery, pair.value);
      }
      if Accepted(s.engine, step.step) {
        OutcomeId(Formed(s.engine, step.step.t.w).group, s.engine.nextMid);
      }
      hide Outcome;
    } else {
      NoneLost(s.delivery, step.d);
    }
  }

  ghost predicate NoCrash(steps: seq<Step>) {
    forall i :: 0 <= i < |steps| && steps[i].Threads? ==> !steps[i].step.Crash?
  }

  lemma {:induction false} CalmRuns(c: Engine.Config, s: State, steps: seq<Step>, t: State)
    requires Engine.ValidConfig(c) && Inv(c, s) && Calm(s) && Runs(c, s, steps, t) && NoCrash(steps)
    ensures Inv(c, t) && Calm(t)
    decreases |steps|
  {
    hide Inv;
    hide Calm;
    hide Enabled;
    hide Next;
    if steps != [] {
      InvStep(c, s, steps[0]);
      CalmStep(c, s, steps[0]);
      assert NoCrash(steps[1..]);
      CalmRuns(c, Next(c, s, steps[0]), steps[1..], t);
    }
  }

  /** Within one lifetime match ids are unique. */
  lemma IdsAreFresh(s: State)
    requires Calm(s) && BookOk(s)
    ensures Delivery.FreshIds(s.delivery.formed)
  {
    hide Outcome;
    forall m, m' | m in s.delivery.formed && m' in s.delivery.formed && m.matchId == m'.matchId ensures m == m' {
      var i := BookHas(s.book, m);
      var j := BookHas(s.book, m');
      assert i < j || j < i || i == j;
    }
  }

  /** Until a crash, whatever fails in between, a published event is ahead of the cursor, or
      its player is waiting or in hand, or its user is on a team of a match still in memory,
      on the sync stream to be stored, or stored under its own match row. */
  lemma EndToEndWithoutCrash(c: Engine.Config, steps: seq<Step>, t: State, ev: nat)
    requires Engine.ValidConfig(c) && Runs(c, Init(c), steps, t) && NoCrash(steps) && ev < |t.engine.stream|
    ensures Delivery.FreshIds(t.delivery.formed)
    ensures (ev >= t.engine.core.frontier && ev >= t.engine.trimmed)
         || (exists p :: p in Custody.Live(t.engine.core) && p.event == ev)
         || (exists m :: m in t.delivery.formed && PutsInTeam(m, t.engine.stream[ev])
                         && (m in Delivery.InMemory(t.delivery) || Delivery.OnItsWay(t.delivery, m)))
  {
    InvInit(c);
    CalmInit(c);
    CalmRuns(c, Init(c), steps, t);
    IdsAreFresh(t);
    EndToEnd(c, steps, t, ev);
    NeverLost(t);
    hide *;
  }

  lemma CalmInit(c: Engine.Config)
    requires Engine.ValidConfig(c)
    ensures Calm(Init(c))
  {
  }

  lemma NeverLost(t: State)
    requires Calm(t)
    ensures t.engine.core.lost == {}
    ensures forall m :: Delivered(t.delivery, m) ==> m in Delivery.InMemory(t.delivery) || Delivery.OnItsWay(t.delivery, m)
  {
    hide Delivery.InMemory;
    hide Delivery.OnItsWay;
  }
}
