/** Start and shutdown of the PostgreSQL entity: one control goroutine calls them one after
    the other, while contexts are cancelled and the connection watcher and the queue worker
    notice it at their own pace: the worker only between two rounds of its queue. */
module Lifecycle {
  import BulkQueue

  datatype Config = Config(startWatcher: bool, startQueueWorker: bool)

  datatype Ret = Nothing | StartNil | StartErr | ShutdownNil | ShutdownErr

  /** Where the control goroutine stands. */
  datatype Control =
    | Ready(last: Ret)
    | Connecting(ctx: nat) | Migrating(ctx: nat) | AtWatcher(ctx: nat) | AtWorker(ctx: nat)
    | Waiting | SawWorkerStopped | Closing

  /** Where the queue worker stands: between two rounds, where it looks at its context, inside
      a round, or inside one at the send on a marker's channel. */
  datatype Place = Between | InRound | AtSend(chan: nat)

  /** `watchers` and `workers` are the goroutines alive, each named by its context; `listening`
      counts the goroutines ready to receive on a marker's channel. */
  datatype State = State(
    conn: bool, watcherStopped: bool, queueWorkerStopped: bool, shuttingDown: bool,
    watchers: multiset<nat>, workers: multiset<nat>, cancelled: set<nat>, control: Control,
    place: Place, listening: multiset<nat>)

  const Initial :=
    State(false, true, true, false, multiset{}, multiset{}, {}, Ready(Nothing), Between, multiset{})

  /** The driver returns a handle and an error together; after an error the handle may be
      there all the same. */
  datatype Answer = Connected | ConnectFailed(handle: bool)

  function HasHandle(a: Answer): bool { a.Connected? || a.handle }

  datatype Move = BeginRound | EndRound | ReachSend(chan: nat) | Handed

  datatype Step =
    | Start(ctx: nat) | Connect(a: Answer) | Migrate(ok: bool) | SpawnWatcher | SpawnWorker
    | Shutdown | ReadWorkerFlag | ReadWatcherFlag | CloseConn(ok: bool)
    | CancelCtx(ctx: nat) | WatcherStops(ctx: nat) | WorkerStops(ctx: nat)
    | Work(m: Move) | Listen(chan: nat)

  /** The worker goes from round to round; a send ends when somebody receives. */
  function MoveTo(p: Place, listening: multiset<nat>, m: Move): Place {
    match (p, m)
    case (Between, BeginRound) => InRound
    case (InRound, EndRound) => Between
    case (InRound, ReachSend(chan)) => AtSend(chan)
    case (AtSend(chan), Handed) => if chan in listening then InRound else p
    case _ => p
  }

  function ListeningAfter(p: Place, listening: multiset<nat>, m: Move): multiset<nat> {
    if p.AtSend? && m.Handed? then listening - multiset{p.chan} else listening
  }

  function Next(c: Config, s: State, step: Step): State {
    match step
    case Start(ctx) =>
      if !s.control.Ready? then s
      else s.(control := if s.conn then Ready(StartNil) else Connecting(ctx))
    case Connect(a) =>
      if !s.control.Connecting? then s
      else s.(conn := HasHandle(a),
              control := if a.Connected? then Migrating(s.control.ctx) else Ready(StartErr))
    case Migrate(ok) =>
      if !s.control.Migrating? then s
      else s.(control := if ok then AtWatcher(s.control.ctx) else Ready(StartErr))
    case SpawnWatcher =>
      if !s.control.AtWatcher? then s
      else if !s.watcherStopped then s.(control := AtWorker(s.control.ctx))
      else s.(control := AtWorker(s.control.ctx), watcherStopped := false,
              watchers := s.watchers + multiset{s.control.ctx})
    case SpawnWorker =>
      if !s.control.AtWorker? then s
      else if !c.startQueueWorker || !s.queueWorkerStopped then s.(control := Ready(StartNil))
      else s.(control := Ready(StartNil), queueWorkerStopped := false, place := InRound,
              workers := s.workers + multiset{s.control.ctx})
    case Shutdown =>
      if !s.control.Ready? then s
      else s.(shuttingDown := true, control := if c.startWatcher then Waiting else Closing)
    case ReadWorkerFlag =>
      if s.control.Waiting? && s.queueWorkerStopped then s.(control := SawWorkerStopped) else s
    case ReadWatcherFlag =>
      if !s.control.SawWorkerStopped? then s
      else s.(control := if s.watcherStopped then Ready(ShutdownNil) else Waiting)
    case CloseConn(ok) =>
      if !s.control.Closing? then s
      else if !s.conn then s.(control := Ready(ShutdownNil))
      else s.(conn := !ok, control := Ready(if ok then ShutdownNil else ShutdownErr))
    case CancelCtx(ctx) => s.(cancelled := s.cancelled + {ctx})
    case WatcherStops(ctx) =>
      if ctx !in s.watchers || ctx !in s.cancelled then s
      else s.(watcherStopped := true, watchers := s.watchers - multiset{ctx})
    case WorkerStops(ctx) =>
      if ctx !in s.workers || ctx !in s.cancelled || !s.place.Between? then s
      else s.(queueWorkerStopped := true, workers := s.workers - multiset{ctx})
    case Work(m) =>
      if s.workers == multiset{} then s
      else s.(place := MoveTo(s.place, s.listening, m), listening := ListeningAfter(s.place, s.listening, m))
    case Listen(chan) => s.(listening := s.listening + multiset{chan})
  }

  function Run(c: Config, s: State, steps: seq<Step>): State {
    if steps == [] then s else Next(c, Run(c, s, steps[..|steps| - 1]), steps[|steps| - 1])
  }

  lemma RunSnoc(c: Config, s: State, steps: seq<Step>, step: Step)
    ensures Run(c, s, steps + [step]) == Next(c, Run(c, s, steps), step)
  {
    assert (steps + [step])[..|steps|] == steps;
  }

  /** Each flag says exactly whether its goroutine is alive, and there is at most one; past
      Connect the control goroutine has a connection. */
  predicate Inv(c: Config, s: State) {
    && |s.watchers| == (if s.watcherStopped then 0 else 1)
    && |s.workers| == (if s.queueWorkerStopped then 0 else 1)
    && (s.control.SawWorkerStopped? ==> s.queueWorkerStopped)
    && (s.control.Closing? ==> !c.startWatcher)
    && (s.control.Migrating? || s.control.AtWatcher? || s.control.AtWorker? ==> s.conn)
  }

  predicate Spawns(step: Step) { step.SpawnWatcher? || step.SpawnWorker? }

  predicate Stops(step: Step) { step.WatcherStops? || step.WorkerStops? }

  lemma SpawnKeepsInv(c: Config, s: State, step: Step)
    requires Inv(c, s) && Spawns(step)
    ensures Inv(c, Next(c, s, step))
  {
  }

  lemma StopKeepsInv(c: Config, s: State, step: Step)
    requires Inv(c, s) && Stops(step)
    ensures Inv(c, Next(c, s, step))
  {
    if step.WatcherStops? { OneFewer(s.watchers, step.ctx); } else { OneFewer(s.workers, step.ctx); }
  }

  lemma OneFewer(m: multiset<nat>, x: nat)
    ensures x in m ==> |m - multiset{x}| == |m| - 1
  {
  }

  predicate Starting(step: Step) { step.Start? || step.Connect? || step.Migrate? }

  /** No other step touches the goroutines or their flags. */
  lemma StartKeepsInv(c: Config, s: State, step: Step)
    requires Inv(c, s) && Starting(step)
    ensures Inv(c, Next(c, s, step))
  {
  }

  lemma ControlKeepsInv(c: Config, s: State, step: Step)
    requires Inv(c, s) && !Spawns(step) && !Stops(step) && !Starting(step)
    ensures Inv(c, Next(c, s, step))
  {
  }

  lemma {:induction false} RunKeepsInv(c: Config, s: State, steps: seq<Step>)
    requires Inv(c, s)
    ensures Inv(c, Run(c, s, steps))
  {
    if steps != [] {
      var before, step := Run(c, s, steps[..|steps| - 1]), steps[|steps| - 1];
      RunKeepsInv(c, s, steps[..|steps| - 1]);
      if Spawns(step) {
        SpawnKeepsInv(c, before, step);
      } else if Stops(step) {
        StopKeepsInv(c, before, step);
      } else if Starting(step) {
        StartKeepsInv(c, before, step);
      } else {
        ControlKeepsInv(c, before, step);
      }
    }
  }

  /** Over every interleaving at most one watcher and at most one queue worker are alive. */
  lemma AtMostOneEach(c: Config, steps: seq<Step>)
    ensures |Run(c, Initial, steps).watchers| <= 1 && |Run(c, Initial, steps).workers| <= 1
  {
    RunKeepsInv(c, Initial, steps);
  }

  // ---- Shutdown ----

  /** With StartWatcher set, the step on which Shutdown returns finds both goroutines gone. */
  lemma {:induction false} ShutdownWaits(c: Config, steps: seq<Step>, step: Step)
    requires c.startWatcher && !Run(c, Initial, steps).control.Ready?
    requires Run(c, Initial, steps + [step]).control == Ready(ShutdownNil)
    ensures Run(c, Initial, steps + [step]).watchers == multiset{}
    ensures Run(c, Initial, steps + [step]).workers == multiset{}
  {
    RunKeepsInv(c, Initial, steps);
    RunSnoc(c, Initial, steps, step);
    ReturnsWithNone(c, Run(c, Initial, steps), step);
  }

  lemma ReturnsWithNone(c: Config, s: State, step: Step)
    requires Inv(c, s) && c.startWatcher && !s.control.Ready? && Next(c, s, step).control == Ready(ShutdownNil)
    ensures Next(c, s, step).watchers == multiset{} && Next(c, s, step).workers == multiset{}
  {
    assert step.ReadWatcherFlag?;
  }

  /** Without StartWatcher, which does not keep the watcher from being started, Shutdown does
      not wait: it returns with the goroutines as they were. */
  lemma ShutdownWithoutWaiting(c: Config, s: State, ok: bool)
    requires !c.startWatcher && s.control.Ready?
    ensures var t := Next(c, Next(c, s, Shutdown), CloseConn(ok));
      && t.watchers == s.watchers && t.workers == s.workers
      && t.control == Ready(if !s.conn || ok then ShutdownNil else ShutdownErr)
  {
  }

  /** A goroutine that is alive although its context was not cancelled. */
  predicate Runs(s: State, ctx: nat) { (ctx in s.watchers || ctx in s.workers) && ctx !in s.cancelled }

  predicate InShutdown(s: State) { s.control.Waiting? || s.control.SawWorkerStopped? }

  /** Shutdown itself cancels nothing, and neither goroutine looks at the shutting-down flag:
      while the context of a live watcher or worker is not cancelled, Shutdown does not
      return. */
  lemma {:induction false} ShutdownNeedsCancellation(c: Config, s: State, more: seq<Step>, ctx: nat)
    requires Inv(c, s) && s.control.Waiting? && Runs(s, ctx) && CancelCtx(ctx) !in more
    ensures InShutdown(Run(c, s, more)) && Runs(Run(c, s, more), ctx)
  {
    if more != [] {
      var before, last := more[..|more| - 1], more[|more| - 1];
      ShutdownNeedsCancellation(c, s, before, ctx);
      RunKeepsInv(c, s, before);
      StillWaiting(c, Run(c, s, before), last, ctx);
    }
  }

  lemma StillWaiting(c: Config, s: State, step: Step, ctx: nat)
    requires Inv(c, s) && InShutdown(s) && Runs(s, ctx) && step != CancelCtx(ctx)
    ensures InShutdown(Next(c, s, step)) && Runs(Next(c, s, step), ctx)
  {
    assert ctx in s.watchers ==> |s.watchers| > 0;
    assert ctx in s.workers ==> |s.workers| > 0;
  }

  /** A live worker at a send that nobody receives. */
  predicate Held(s: State) {
    s.workers != multiset{} && s.place.AtSend? && s.place.chan !in s.listening
  }

  /** Such a worker never looks at its context again: Shutdown does not return over any
      continuation in which nobody starts to receive on that channel, cancellations included. */
  lemma {:induction false} HeldWorkerKeepsShutdown(c: Config, s: State, more: seq<Step>)
    requires Inv(c, s) && InShutdown(s) && Held(s) && Listen(s.place.chan) !in more
    ensures var t := Run(c, s, more); InShutdown(t) && Held(t) && t.place == s.place
  {
    if more != [] {
      var before := Run(c, s, more[..|more| - 1]);
      HeldWorkerKeepsShutdown(c, s, more[..|more| - 1]);
      RunKeepsInv(c, s, more[..|more| - 1]);
      StaysHeld(c, before, more[|more| - 1]);
    }
  }

  lemma StaysHeld(c: Config, s: State, step: Step)
    requires Inv(c, s) && InShutdown(s) && Held(s) && step != Listen(s.place.chan)
    ensures var t := Next(c, s, step); InShutdown(t) && Held(t) && t.place == s.place
  {
    assert |s.workers| > 0;
  }

  /** No cancellation, and nobody starts to receive. */
  predicate Quiet(steps: seq<Step>) {
    forall k :: 0 <= k < |steps| ==> !steps[k].CancelCtx? && !steps[k].Listen?
  }

  predicate Returns(c: Config, s: State, more: seq<Step>) { Run(c, s, more).control == Ready(ShutdownNil) }

  /** The exact condition: from any reachable point of its waiting loop, Shutdown can return
      without a further cancellation or receiver if and only if the context of every goroutine
      that is alive has been cancelled and no live worker is at a send nobody receives. */
  lemma {:induction false} ShutdownReturnsIff(c: Config, steps: seq<Step>)
    requires Run(c, Initial, steps).control.Waiting?
    ensures var s := Run(c, Initial, steps);
      (exists more :: Quiet(more) && Returns(c, s, more)) <==> (forall ctx :: !Runs(s, ctx)) && !Held(s)
  {
    RunKeepsInv(c, Initial, steps);
    var s := Run(c, Initial, steps);
    if ctx :| Runs(s, ctx) {
      forall more | Quiet(more) ensures !Returns(c, s, more) {
        ShutdownNeedsCancellation(c, s, more, ctx);
      }
    } else if Held(s) {
      forall more | Quiet(more) ensures !Returns(c, s, more) {
        HeldWorkerKeepsShutdown(c, s, more);
      }
    } else {
      var more := ReturnSteps(c, s);
    }
  }

  lemma ReturnSteps(c: Config, s: State) returns (more: seq<Step>)
    requires Inv(c, s) && s.control.Waiting? && !Held(s) && forall ctx :: !Runs(s, ctx)
    ensures Quiet(more) && Returns(c, s, more)
  {
    more := WatcherEnds(c, s);
    more := WorkerEnds(c, s, more);
    more := Two(c, s, more, ReadWorkerFlag, ReadWatcherFlag);
  }

  lemma WatcherEnds(c: Config, s: State) returns (more: seq<Step>)
    requires Inv(c, s) && forall ctx :: !Runs(s, ctx)
    ensures Quiet(more) && Run(c, s, more) == s.(watcherStopped := true, watchers := multiset{})
  {
    more := [];
    if !s.watcherStopped {
      var w := Only(s.watchers);
      assert !Runs(s, w);
      RunSnoc(c, s, [], WatcherStops(w));
      more := [] + [WatcherStops(w)];
    }
  }

  lemma WorkerEnds(c: Config, s: State, before: seq<Step>) returns (more: seq<Step>)
    requires Inv(c, s) && !Held(s) && (forall ctx :: !Runs(s, ctx)) && Quiet(before)
    requires Run(c, s, before) == s.(watcherStopped := true, watchers := multiset{})
    ensures Quiet(more)
    ensures var t := Run(c, s, more); t.control == s.control && t.watcherStopped && t.queueWorkerStopped
  {
    more := before;
    if !s.queueWorkerStopped {
      var w := Only(s.workers);
      assert !Runs(s, w);
      var moves := EndOfRound(c, s.(watcherStopped := true, watchers := multiset{}), w);
      more := before + moves;
      RunConcat(c, s, before, moves);
    }
  }

  /** A worker that is not held comes to the end of its round and notices its context. */
  lemma EndOfRound(c: Config, t: State, w: nat) returns (moves: seq<Step>)
    requires t.workers == multiset{w} && w in t.cancelled && !Held(t)
    ensures Quiet(moves)
    ensures var u := Run(c, t, moves);
      u.control == t.control && u.watcherStopped == t.watcherStopped && u.queueWorkerStopped
  {
    match t.place
    case Between => moves := JustStops(c, t, w);
    case InRound => moves := EndsAndStops(c, t, w);
    case AtSend(chan) =>
      var u := t.(place := InRound, listening := t.listening - multiset{chan});
      assert Next(c, t, Work(Handed)) == u;
      moves := EndsAndStops(c, u, w);
      RunCons(c, t, Work(Handed), moves);
      moves := [Work(Handed)] + moves;
  }

  lemma JustStops(c: Config, t: State, w: nat) returns (moves: seq<Step>)
    requires t.workers == multiset{w} && w in t.cancelled && t.place.Between?
    ensures Quiet(moves)
    ensures Run(c, t, moves) == t.(queueWorkerStopped := true, workers := t.workers - multiset{w})
  {
    moves := [] + [WorkerStops(w)];
    RunSnoc(c, t, [], WorkerStops(w));
  }

  lemma EndsAndStops(c: Config, t: State, w: nat) returns (moves: seq<Step>)
    requires t.workers == multiset{w} && w in t.cancelled && t.place.InRound?
    ensures Quiet(moves)
    ensures Run(c, t, moves)
         == t.(place := Between, queueWorkerStopped := true, workers := t.workers - multiset{w})
  {
    var u := t.(place := Between);
    assert Next(c, t, Work(EndRound)) == u;
    moves := JustStops(c, u, w);
    RunCons(c, t, Work(EndRound), moves);
    moves := [Work(EndRound)] + moves;
  }

  lemma {:induction false} RunCons(c: Config, s: State, step: Step, steps: seq<Step>)
    ensures Run(c, s, [step] + steps) == Run(c, Next(c, s, step), steps)
  {
    if steps == [] {
      RunSnoc(c, s, [], step);
      assert [] + [step] == [step] + steps;
    } else {
      var init, last := steps[..|steps| - 1], steps[|steps| - 1];
      RunCons(c, s, step, init);
      RunSnoc(c, s, [step] + init, last);
      assert [step] + steps == [step] + init + [last];
    }
  }

  lemma Only(m: multiset<nat>) returns (x: nat)
    requires |m| == 1
    ensures m == multiset{x}
  {
    x :| x in m;
    assert |m - multiset{x}| == 0;
  }

  // ---- The worker and its queue ----

  /** The place of a worker of the queue machine. */
  function PlaceOf(w: BulkQueue.Worker): Place {
    match w
    case Idle => Between
    case Signalling(rest) => if BulkQueue.AtMarker(rest, 0) then AtSend(rest[0].chan) else InRound
    case _ => InRound
  }

  /** What a step of the queue machine is to the entity. */
  function Shadow(q: BulkQueue.State, step: BulkQueue.Step): seq<Step> {
    if step.Listen? then [Listen(step.chan)]
    else
      var a, b := PlaceOf(q.worker), PlaceOf(BulkQueue.Next(q, step).worker);
      if a == b then []
      else if b.Between? then [Work(EndRound)]
      else if b.AtSend? then [Work(ReachSend(b.chan))]
      else [Work(if a.Between? then BeginRound else Handed)]
  }

  function Shadows(steps: seq<BulkQueue.Step>): seq<Step> {
    if steps == [] then []
    else
      var before := steps[..|steps| - 1];
      Shadows(before) + Shadow(BulkQueue.Run(BulkQueue.Initial, before), steps[|steps| - 1])
  }

  /** The steps take the place and the receivers from one to the other. */
  predicate Leads(shadow: seq<Step>, a: Place, listening: multiset<nat>, b: Place, after: multiset<nat>) {
    if shadow == [] then b == a && after == listening
    else if |shadow| > 1 then false
    else
      match shadow[0]
      case Listen(chan) => b == a && after == listening + multiset{chan}
      case Work(m) => b == MoveTo(a, listening, m) && after == ListeningAfter(a, listening, m)
      case _ => false
  }

  /** Each step of the queue machine moves place and receivers as its shadow does. */
  lemma ShadowOfStep(q: BulkQueue.State, step: BulkQueue.Step)
    requires BulkQueue.WorkerOk(q)
    ensures var r := BulkQueue.Next(q, step);
      Leads(Shadow(q, step), PlaceOf(q.worker), q.listening, PlaceOf(r.worker), r.listening)
  {
    if step.Send? || step.Readd? {
      ShadowOfSignal(q, step);
    } else if BulkQueue.Commits(step) {
      ShadowOfCommit(q, step);
    } else {
      ShadowOfOther(q, step);
    }
  }

  lemma ShadowOfSignal(q: BulkQueue.State, step: BulkQueue.Step)
    requires BulkQueue.WorkerOk(q) && (step.Send? || step.Readd?)
    ensures var r := BulkQueue.Next(q, step);
      Leads(Shadow(q, step), PlaceOf(q.worker), q.listening, PlaceOf(r.worker), r.listening)
  {
  }

  lemma ShadowOfCommit(q: BulkQueue.State, step: BulkQueue.Step)
    requires BulkQueue.WorkerOk(q) && BulkQueue.Commits(step)
    ensures var r := BulkQueue.Next(q, step);
      Leads(Shadow(q, step), PlaceOf(q.worker), q.listening, PlaceOf(r.worker), r.listening)
  {
  }

  lemma ShadowOfOther(q: BulkQueue.State, step: BulkQueue.Step)
    requires BulkQueue.WorkerOk(q) && !step.Send? && !step.Readd? && !BulkQueue.Commits(step)
    ensures var r := BulkQueue.Next(q, step);
      Leads(Shadow(q, step), PlaceOf(q.worker), q.listening, PlaceOf(r.worker), r.listening)
  {
  }

  /** An entity with a new worker follows every run of the queue machine. */
  lemma {:induction false} FollowsQueue(c: Config, s: State, steps: seq<BulkQueue.Step>)
    requires s.workers != multiset{} && s.place == InRound && s.listening == multiset{}
    ensures var q := BulkQueue.Run(BulkQueue.Initial, steps);
      Run(c, s, Shadows(steps)) == s.(place := PlaceOf(q.worker), listening := q.listening)
  {
    if steps != [] {
      var before, step := steps[..|steps| - 1], steps[|steps| - 1];
      var q := BulkQueue.Run(BulkQueue.Initial, before);
      FollowsQueue(c, s, before);
      BulkQueue.RunKeepsInv(BulkQueue.Initial, before);
      ShadowOfStep(q, step);
      var r := BulkQueue.Next(q, step);
      FollowsOneStep(c, s, Shadows(before), Shadow(q, step), PlaceOf(q.worker), q.listening,
                     PlaceOf(r.worker), r.listening);
    }
  }

  lemma FollowsOneStep(c: Config, s: State, r: seq<Step>, shadow: seq<Step>,
                       a: Place, listening: multiset<nat>, b: Place, after: multiset<nat>)
    requires s.workers != multiset{} && Leads(shadow, a, listening, b, after)
    requires Run(c, s, r) == s.(place := a, listening := listening)
    ensures Run(c, s, r + shadow) == s.(place := b, listening := after)
  {
    if shadow == [] {
      assert r + shadow == r;
    } else {
      assert shadow == [shadow[0]];
      assert Run(c, s, r + shadow) == Next(c, s.(place := a, listening := listening), shadow[0]) by {
        RunSnoc(c, s, r, shadow[0]);
      }
    }
  }

  /** So a queue that stands at a send nobody receives holds Shutdown: the entity is started,
      follows the queue there, every context is cancelled, and Shutdown never returns unless
      somebody starts to receive. */
  lemma {:induction false} QueueHoldsShutdown(c: Config, ctx: nat, steps: seq<BulkQueue.Step>)
    returns (r: seq<Step>)
    requires c.startWatcher && c.startQueueWorker
    requires var q := BulkQueue.Run(BulkQueue.Initial, steps);
      PlaceOf(q.worker).AtSend? && PlaceOf(q.worker).chan !in q.listening
    ensures var s := Run(c, Initial, r);
      && s.control.Waiting? && (forall x :: !Runs(s, x)) && Held(s)
      && s.place == PlaceOf(BulkQueue.Run(BulkQueue.Initial, steps).worker)
      && forall more :: Listen(s.place.chan) !in more ==> InShutdown(Run(c, s, more))
  {
    var q := BulkQueue.Run(BulkQueue.Initial, steps);
    r := Launched(c, ctx);
    var up := Launch(ctx);
    assert Run(c, Initial, r + Shadows(steps)) == up.(place := PlaceOf(q.worker), listening := q.listening) by {
      FollowsQueue(c, up, steps);
      RunConcat(c, Initial, r, Shadows(steps));
    }
    r := CancelledAndShutDown(c, r + Shadows(steps), ctx, PlaceOf(q.worker), q.listening);
    var s := Run(c, Initial, r);
    RunKeepsInv(c, Initial, r);
    forall more | Listen(s.place.chan) !in more ensures InShutdown(Run(c, s, more)) {
      HeldWorkerKeepsShutdown(c, s, more);
    }
  }

  /** A started entity with its worker at the beginning. */
  function Launch(ctx: nat): State {
    Initial.(conn := true, watcherStopped := false, queueWorkerStopped := false,
             watchers := multiset{ctx}, workers := multiset{ctx}, control := Ready(StartNil), place := InRound)
  }

  lemma CancelledAndShutDown(c: Config, before: seq<Step>, ctx: nat, place: Place, listening: multiset<nat>)
    returns (r: seq<Step>)
    requires c.startWatcher && place.AtSend? && place.chan !in listening
    requires Run(c, Initial, before) == Launch(ctx).(place := place, listening := listening)
    ensures var s := Run(c, Initial, r);
      s.control.Waiting? && (forall x :: !Runs(s, x)) && Held(s) && s.place == place
  {
    r := Two(c, Initial, before, CancelCtx(ctx), Shutdown);
    var s := Run(c, Initial, r);
    assert s.watchers == multiset{ctx} && s.workers == multiset{ctx} && ctx in s.cancelled;
  }

  lemma Launched(c: Config, ctx: nat) returns (r: seq<Step>)
    requires c.startWatcher && c.startQueueWorker
    ensures Run(c, Initial, r) == Launch(ctx)
  {
    r := Two(c, Initial, [], Start(ctx), Connect(Connected));
    assert Run(c, Initial, r) == Initial.(conn := true, control := Migrating(ctx));
    r := Two(c, Initial, r, Migrate(true), SpawnWatcher);
    var s := Run(c, Initial, r);
    assert s == Initial.(conn := true, control := AtWorker(ctx), watcherStopped := false, watchers := multiset{ctx});
    RunSnoc(c, Initial, r, SpawnWorker);
    r := r + [SpawnWorker];
  }

  /** One `WaitForFlush` is enough. */
  lemma {:induction false} OneFlushHoldsShutdown(c: Config, ctx: nat, chan: nat) returns (r: seq<Step>)
    requires c.startWatcher && c.startQueueWorker
    ensures var s := Run(c, Initial, r);
      && s.control.Waiting? && (forall x :: !Runs(s, x)) && s.place == AtSend(chan)
      && forall more :: Listen(chan) !in more ==> InShutdown(Run(c, s, more))
  {
    var steps := BulkQueue.SecondSendReached(chan);
    r := QueueHoldsShutdown(c, ctx, steps);
  }

  lemma {:induction false} RunConcat(c: Config, s: State, a: seq<Step>, b: seq<Step>)
    ensures Run(c, s, a + b) == Run(c, Run(c, s, a), b)
  {
    if b == [] {
      assert a + b == a;
    } else {
      var init, last := b[..|b| - 1], b[|b| - 1];
      RunConcat(c, s, a, init);
      assert init + [last] == b && (a + init) + [last] == a + b;
      assert Run(c, s, a + b) == Next(c, Run(c, s, a + init), last) by { RunSnoc(c, s, a + init, last); }
      assert Run(c, Run(c, s, a), b) == Next(c, Run(c, Run(c, s, a), init), last) by {
        RunSnoc(c, Run(c, s, a), init, last);
      }
    }
  }

  // ---- After a failed Start ----

  /** Some goroutine is alive that was not before. */
  predicate Started(before: State, after: State) {
    !(after.watchers <= before.watchers) || !(after.workers <= before.workers)
  }

  /** The steps `more` start a goroutine. */
  predicate StartsOne(c: Config, s: State, more: seq<Step>) { Started(s, Run(c, s, more)) }

  /** The connection stays behind and, with StartWatcher, no step takes it away. */
  predicate Stuck(s: State, t: State) {
    t.conn && (t.control.Ready? || InShutdown(t)) && !Started(s, t)
  }

  lemma {:induction false} StuckForGood(c: Config, s: State, more: seq<Step>)
    requires c.startWatcher && Stuck(s, s)
    ensures Stuck(s, Run(c, s, more))
  {
    if more != [] {
      StuckForGood(c, s, more[..|more| - 1]);
      StaysStuck(c, s, Run(c, s, more[..|more| - 1]), more[|more| - 1]);
    }
  }

  lemma StaysStuck(c: Config, s: State, t: State, step: Step)
    requires c.startWatcher && Stuck(s, t)
    ensures Stuck(s, Next(c, t, step))
  {
    if Stops(step) { StopStaysStuck(c, s, t, step); } else { ControlStaysStuck(c, s, t, step); }
  }

  lemma StopStaysStuck(c: Config, s: State, t: State, step: Step)
    requires Stuck(s, t) && Stops(step)
    ensures Stuck(s, Next(c, t, step))
  {
    var u := Next(c, t, step);
    assert u.watchers <= t.watchers && u.workers <= t.workers && u.conn && u.control == t.control;
  }

  lemma ControlStaysStuck(c: Config, s: State, t: State, step: Step)
    requires c.startWatcher && Stuck(s, t) && !Stops(step)
    ensures Stuck(s, Next(c, t, step))
  {
    var u := Next(c, t, step);
    assert u.watchers == t.watchers && u.workers == t.workers;
  }

  /** After a Start that failed, be it at the connection or at the migration: if a handle is
      left, the next Start returns nil and starts nothing. Some continuation starts a goroutine
      if and only if no handle is left or StartWatcher is off, because only then Shutdown
      closes the connection. */
  lemma {:induction false} FailedStartIsFinalIff(c: Config, steps: seq<Step>)
    requires Run(c, Initial, steps).control == Ready(StartErr)
    ensures var s := Run(c, Initial, steps);
      && (s.conn ==> forall ctx :: Next(c, s, Start(ctx)) == s.(control := Ready(StartNil)))
      && ((exists more :: StartsOne(c, s, more)) <==> !s.conn || !c.startWatcher)
  {
    RunKeepsInv(c, Initial, steps);
    var s := Run(c, Initial, steps);
    if s.conn && c.startWatcher {
      forall more ensures !StartsOne(c, s, more) { StuckForGood(c, s, more); }
    } else {
      var more := StartsAgain(c, s);
      assert StartsOne(c, s, more);
    }
  }

  /** The handle is left behind exactly by a failed migration and by a driver that returns one
      with its error. */
  lemma HandleLeftIff(c: Config, s: State, step: Step)
    requires Inv(c, s) && (s.control.Connecting? || s.control.Migrating?)
    requires Next(c, s, step).control == Ready(StartErr)
    ensures Next(c, s, step).conn <==> s.control.Migrating? || step == Connect(ConnectFailed(true))
  {
  }

  /** The watcher that may still be alive stops, Shutdown closes the connection if there is
      one, and Start begins anew. */
  lemma StartsAgain(c: Config, s: State) returns (more: seq<Step>)
    requires Inv(c, s) && (!s.conn || !c.startWatcher) && s.control.Ready?
    ensures Started(s, Run(c, s, more))
  {
    var ctx := 0;
    more := [];
    if !s.watcherStopped {
      var w := Only(s.watchers);
      ctx := w + 1;
      more := WatcherGone(c, s, w);
    }
    if s.conn {
      more := Disconnected(c, s, more);
    }
    more := Reconnected(c, s, more, ctx);
  }

  lemma WatcherGone(c: Config, s: State, w: nat) returns (more: seq<Step>)
    requires s.watchers == multiset{w}
    ensures Run(c, s, more) == s.(cancelled := s.cancelled + {w}, watcherStopped := true, watchers := multiset{})
  {
    RunSnoc(c, s, [], CancelCtx(w));
    RunSnoc(c, s, [] + [CancelCtx(w)], WatcherStops(w));
    more := [] + [CancelCtx(w)] + [WatcherStops(w)];
  }

  lemma Disconnected(c: Config, s: State, before: seq<Step>) returns (more: seq<Step>)
    requires var t := Run(c, s, before); !c.startWatcher && t.control.Ready? && t.conn
    ensures Run(c, s, more)
         == Run(c, s, before).(shuttingDown := true, conn := false, control := Ready(ShutdownNil))
  {
    more := Two(c, s, before, Shutdown, CloseConn(true));
  }

  lemma Reconnected(c: Config, s: State, before: seq<Step>, ctx: nat) returns (more: seq<Step>)
    requires var t := Run(c, s, before);
      t.control.Ready? && !t.conn && t.watcherStopped && ctx !in s.watchers
    ensures Started(s, Run(c, s, more))
  {
    var t := Run(c, s, before);
    more := Two(c, s, before, Start(ctx), Connect(Connected));
    assert Run(c, s, more) == t.(conn := true, control := Migrating(ctx));
    more := Two(c, s, more, Migrate(true), SpawnWatcher);
    assert ctx in Run(c, s, more).watchers;
  }

  lemma Two(c: Config, s: State, steps: seq<Step>, a: Step, b: Step) returns (more: seq<Step>)
    ensures Run(c, s, more) == Next(c, Next(c, Run(c, s, steps), a), b)
    ensures more == steps + [a] + [b]
  {
    RunSnoc(c, s, steps, a);
    RunSnoc(c, s, steps + [a], b);
    more := steps + [a] + [b];
  }

  // ---- The entity object ----

  /** The steps of the other goroutines. */
  predicate Foreign(step: Step) {
    step.CancelCtx? || step.WatcherStops? || step.WorkerStops? || step.Work? || step.Listen?
  }

  class Entity {
    const config: Config
    var conn: bool
    var watcherStopped: bool
    var queueWorkerStopped: bool
    var shuttingDown: bool
    /** The goroutines alive, by context, and the contexts cancelled. */
    var watchers: multiset<nat>
    var workers: multiset<nat>
    var cancelled: set<nat>
    /** Where the worker stands, and who is ready to receive on a marker's channel. */
    var place: Place
    var listening: multiset<nat>
    ghost var machine: State
    ghost var trace: seq<Step>

    ghost predicate Valid() reads this { Synced() && machine.control.Ready? }

    ghost predicate Synced() reads this { machine == Run(config, Initial, trace) && SameFlags() }

    ghost predicate SameFlags() reads this {
      && conn == machine.conn && watcherStopped == machine.watcherStopped
      && queueWorkerStopped == machine.queueWorkerStopped && shuttingDown == machine.shuttingDown
      && watchers == machine.watchers && workers == machine.workers && cancelled == machine.cancelled
      && place == machine.place && listening == machine.listening
    }

    constructor (config: Config)
      ensures Valid() && this.config == config && machine == Initial
    {
      this.config := config;
      conn, watcherStopped, queueWorkerStopped, shuttingDown := false, true, true, false;
      watchers, workers, cancelled := multiset{}, multiset{}, {};
      place, listening := Between, multiset{};
      machine, trace := Initial, [];
    }

    ghost method Did(step: Step)
      requires machine == Run(config, Initial, trace)
      modifies this`machine, this`trace
      ensures machine == Next(config, old(machine), step) && machine == Run(config, Initial, trace)
    {
      RunSnoc(config, Initial, trace, step);
      machine, trace := Next(config, machine, step), trace + [step];
    }

    /** Adds the step just taken to the trace. */
    ghost method Record(step: Step)
      requires machine == Next(config, Run(config, Initial, trace), step)
      modifies this`trace
      ensures machine == Run(config, Initial, trace)
    {
      RunSnoc(config, Initial, trace, step);
      trace := trace + [step];
    }

    /** Start: nil at once when there is a handle; otherwise connect, migrate, and start what is
        not running. The handle stays after a failed migration, and after a failed connect that
        returned one. */
    method Start(ctx: nat, answer: Answer, migrateOk: bool) returns (ok: bool)
      requires Valid()
      modifies this
      ensures Valid() && ok == (old(conn) || (answer.Connected? && migrateOk))
      ensures conn == (old(conn) || HasHandle(answer)) && shuttingDown == old(shuttingDown)
      ensures watcherStopped == (old(watcherStopped) && (old(conn) || !ok))
      ensures queueWorkerStopped == (old(queueWorkerStopped) && (old(conn) || !ok || !config.startQueueWorker))
    {
      Did(Step.Start(ctx));
      if conn {
        return true;
      }
      ok := ConnectAndMigrate(ctx, answer, migrateOk);
      if ok {
        StartBoth(ctx);
      }
    }

    method StartBoth(ctx: nat)
      requires Synced() && machine.control == AtWatcher(ctx)
      modifies this`watcherStopped, this`watchers, this`queueWorkerStopped, this`workers
      modifies this`place, this`machine, this`trace
      ensures Valid() && !watcherStopped
      ensures queueWorkerStopped == (old(queueWorkerStopped) && !config.startQueueWorker)
    {
      StartWatcherOnce(ctx);
      StartWorkerOnce(ctx);
    }

    method ConnectAndMigrate(ctx: nat, answer: Answer, migrateOk: bool) returns (ok: bool)
      requires Synced() && machine.control == Connecting(ctx)
      modifies this`conn, this`machine, this`trace
      ensures Synced() && conn == HasHandle(answer) && ok == (answer.Connected? && migrateOk)
      ensures machine.control == if ok then AtWatcher(ctx) else Ready(StartErr)
    {
      conn := HasHandle(answer);
      Did(Step.Connect(answer));
      if !answer.Connected? {
        return false;
      }
      Did(Step.Migrate(migrateOk));
      ok := migrateOk;
    }

    method StartWatcherOnce(ctx: nat)
      requires Synced() && machine.control == AtWatcher(ctx)
      modifies this`watcherStopped, this`watchers, this`machine, this`trace
      ensures Synced() && machine.control == AtWorker(ctx) && !watcherStopped
      ensures watchers == old(watchers) + if old(watcherStopped) then multiset{ctx} else multiset{}
    {
      if watcherStopped {
        watcherStopped, watchers := false, watchers + multiset{ctx};
      }
      Did(SpawnWatcher);
    }

    method StartWorkerOnce(ctx: nat)
      requires Synced() && machine.control == AtWorker(ctx)
      modifies this`queueWorkerStopped, this`workers, this`place, this`machine, this`trace
      ensures Valid() && queueWorkerStopped == (old(queueWorkerStopped) && !config.startQueueWorker)
      ensures workers == old(workers)
        + if config.startQueueWorker && old(queueWorkerStopped) then multiset{ctx} else multiset{}
    {
      if config.startQueueWorker && queueWorkerStopped {
        LaunchWorker(ctx);
        Record(SpawnWorker);
      } else {
        Did(SpawnWorker);
      }
    }

    method LaunchWorker(ctx: nat)
      requires SameFlags() && machine.control == AtWorker(ctx) && config.startQueueWorker && queueWorkerStopped
      modifies this`queueWorkerStopped, this`workers, this`place, this`machine
      ensures SameFlags() && machine == Next(config, old(machine), SpawnWorker) && machine.control.Ready?
      ensures !queueWorkerStopped && workers == old(workers) + multiset{ctx} && place == InRound
    {
      queueWorkerStopped, workers, place := false, workers + multiset{ctx}, InRound;
      machine := Next(config, machine, SpawnWorker);
    }

    /** One step of another goroutine: a cancellation, or a loop that notices it. */
    method Other(step: Step)
      requires Synced() && Foreign(step)
      modifies this`watcherStopped, this`queueWorkerStopped, this`watchers, this`workers
      modifies this`cancelled, this`place, this`listening, this`machine, this`trace
      ensures Synced() && machine.control == old(machine).control
    {
      if step.Work? || step.Listen? {
        OtherMoves(step);
      } else {
        OtherStops(step);
      }
    }

    method OtherStops(step: Step)
      requires Synced() && Foreign(step) && !step.Work? && !step.Listen?
      modifies this`watcherStopped, this`queueWorkerStopped, this`watchers, this`workers
      modifies this`cancelled, this`machine, this`trace
      ensures Synced() && machine.control == old(machine).control
    {
      match step
      case CancelCtx(ctx) => Cancel(ctx);
      case WatcherStops(ctx) => StopWatcher(ctx);
      case WorkerStops(ctx) => StopWorker(ctx);
    }

    method OtherMoves(step: Step)
      requires Synced() && (step.Work? || step.Listen?)
      modifies this`place, this`listening, this`machine, this`trace
      ensures Synced() && machine.control == old(machine).control
    {
      match step
      case Work(m) => MoveWorker(m);
      case Listen(chan) => Receive(chan);
    }

    method MoveWorker(m: Move)
      requires Synced()
      modifies this`place, this`listening, this`machine, this`trace
      ensures Synced() && machine == Next(config, old(machine), Work(m))
    {
      MovePlace(m);
      Record(Work(m));
    }

    method MovePlace(m: Move)
      requires SameFlags()
      modifies this`place, this`listening, this`machine
      ensures SameFlags() && machine == Next(config, old(machine), Work(m))
    {
      if workers != multiset{} {
        place, listening := MoveTo(place, listening, m), ListeningAfter(place, listening, m);
      }
      machine := Next(config, machine, Work(m));
    }

    method Receive(chan: nat)
      requires Synced()
      modifies this`listening, this`machine, this`trace
      ensures Synced() && machine == Next(config, old(machine), Listen(chan))
      ensures listening == old(listening) + multiset{chan}
    {
      listening := listening + multiset{chan};
      Did(Listen(chan));
    }

    method Cancel(ctx: nat)
      requires Synced()
      modifies this`cancelled, this`machine, this`trace
      ensures Synced() && machine == Next(config, old(machine), CancelCtx(ctx))
      ensures cancelled == old(cancelled) + {ctx}
    {
      cancelled := cancelled + {ctx};
      Did(CancelCtx(ctx));
    }

    method StopWatcher(ctx: nat)
      requires Synced()
      modifies this`watcherStopped, this`watchers, this`machine, this`trace
      ensures Synced() && machine == Next(config, old(machine), WatcherStops(ctx))
      ensures ctx in old(watchers) && ctx in cancelled ==>
        watcherStopped && watchers == old(watchers) - multiset{ctx}
      ensures !(ctx in old(watchers) && ctx in cancelled) ==>
        watcherStopped == old(watcherStopped) && watchers == old(watchers)
    {
      if ctx in watchers && ctx in cancelled {
        EndWatcher(ctx);
        Record(WatcherStops(ctx));
      } else {
        Did(WatcherStops(ctx));
      }
    }

    method EndWatcher(ctx: nat)
      requires SameFlags() && ctx in watchers && ctx in cancelled
      modifies this`watcherStopped, this`watchers, this`machine
      ensures SameFlags() && machine == Next(config, old(machine), WatcherStops(ctx))
      ensures watcherStopped && watchers == old(watchers) - multiset{ctx}
    {
      watcherStopped, watchers := true, watchers - multiset{ctx};
      machine := Next(config, machine, WatcherStops(ctx));
    }

    method StopWorker(ctx: nat)
      requires Synced()
      modifies this`queueWorkerStopped, this`workers, this`machine, this`trace
      ensures Synced() && machine == Next(config, old(machine), WorkerStops(ctx))
      ensures ctx in old(workers) && ctx in cancelled && place.Between? ==>
        queueWorkerStopped && workers == old(workers) - multiset{ctx}
      ensures !(ctx in old(workers) && ctx in cancelled && place.Between?) ==>
        queueWorkerStopped == old(queueWorkerStopped) && workers == old(workers)
    {
      if ctx in workers && ctx in cancelled && place.Between? {
        EndWorker(ctx);
        Record(WorkerStops(ctx));
      } else {
        Did(WorkerStops(ctx));
      }
    }

    method EndWorker(ctx: nat)
      requires SameFlags() && ctx in workers && ctx in cancelled && place.Between?
      modifies this`queueWorkerStopped, this`workers, this`machine
      ensures SameFlags() && machine == Next(config, old(machine), WorkerStops(ctx))
      ensures queueWorkerStopped && workers == old(workers) - multiset{ctx}
    {
      queueWorkerStopped, workers := true, workers - multiset{ctx};
      machine := Next(config, machine, WorkerStops(ctx));
    }

    /** Shutdown, with one step of another goroutine between two turns of its waiting loop;
        `returned` is false when the steps run out first. With StartWatcher it returns exactly
        when neither goroutine is alive, and leaves the connection open; without, it closes
        the connection and does not wait. */
    method Shutdown(others: seq<Step>, closeOk: bool) returns (returned: bool, ok: bool)
      requires Valid() && forall k :: 0 <= k < |others| ==> Foreign(others[k])
      modifies this
      ensures shuttingDown && Synced()
      ensures returned ==> machine.control == Ready(if ok then ShutdownNil else ShutdownErr)
      ensures config.startWatcher ==> ok && conn == old(conn)
      ensures config.startWatcher && returned ==> watchers == multiset{} && workers == multiset{}
      ensures config.startWatcher && !returned ==> !(queueWorkerStopped && watcherStopped)
      ensures !config.startWatcher ==> returned && ok == (!old(conn) || closeOk) && conn == !ok
      ensures !config.startWatcher ==> watchers == old(watchers) && workers == old(workers)
    {
      shuttingDown := true;
      Did(Step.Shutdown);
      if !config.startWatcher {
        ok := CloseConnection(closeOk);
        return true, ok;
      }
      returned := WaitForBoth(others);
      ok := true;
    }

    method CloseConnection(closeOk: bool) returns (ok: bool)
      requires Synced() && machine.control.Closing?
      modifies this`conn, this`machine, this`trace
      ensures Synced() && ok == (!old(conn) || closeOk) && conn == !ok
      ensures machine.control == Ready(if ok then ShutdownNil else ShutdownErr)
    {
      ok := !conn || closeOk;
      conn := !ok;
      Did(CloseConn(closeOk));
    }

    /** The two flag reads of the waiting loop. */
    ghost method SeeBothStopped()
      requires Synced() && machine.control.Waiting? && queueWorkerStopped && watcherStopped
      modifies this`machine, this`trace
      ensures Synced() && machine.control == Ready(ShutdownNil)
      ensures watchers == multiset{} && workers == multiset{}
    {
      RunKeepsInv(config, Initial, trace);
      Did(ReadWorkerFlag);
      Did(ReadWatcherFlag);
    }

    method WaitForBoth(others: seq<Step>) returns (returned: bool)
      requires Synced() && machine.control.Waiting?
      requires forall k :: 0 <= k < |others| ==> Foreign(others[k])
      modifies this`watcherStopped, this`queueWorkerStopped, this`watchers, this`workers
      modifies this`cancelled, this`place, this`listening, this`machine, this`trace
      ensures Synced()
      ensures returned ==> machine.control == Ready(ShutdownNil)
      ensures returned ==> watchers == multiset{} && workers == multiset{}
      ensures !returned ==> !(queueWorkerStopped && watcherStopped)
      ensures old(queueWorkerStopped && watcherStopped) ==> returned && cancelled == old(cancelled)
    {
      var k := 0;
      if queueWorkerStopped && watcherStopped {
        SeeBothStopped();
        return true;
      }
      while k < |others|
        invariant 0 <= k <= |others| && Synced() && machine.control.Waiting?
        invariant !(queueWorkerStopped && watcherStopped)
      {
        Other(others[k]);
        k := k + 1;
        if queueWorkerStopped && watcherStopped {
          SeeBothStopped();
          return true;
        }
      }
      returned := false;
    }
  }
}
