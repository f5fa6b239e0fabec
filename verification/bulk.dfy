/** The bulk write queue: any number of goroutines append items while one worker
    repeatedly takes the whole queue, writes it in one SQL transaction up to the first
    flush marker, commits, signals the marker and puts the rest back in front. */
module BulkQueue {
  import opened Common
  import opened Subsequences

  /** A queue element: a query with its parameters, or a flush marker with its channel. */
  datatype Item = Data(query: string, param: int) | Flush(chan: nat)

  /** Where the worker goroutine stands; `Copied` is the gap between the copy of the
      queue and its reset, `Open` is an open transaction with `n` items executed. */
  datatype Worker =
    | Starting
    | Idle
    | Copied(batch: seq<Item>)
    | Taken(batch: seq<Item>)
    | Open(batch: seq<Item>, n: nat)
    | Signalling(rest: seq<Item>)
    | Readding(rest: seq<Item>)

  /** `listening` counts the goroutines ready to receive on a channel. The last three
      fields are history: everything ever appended, everything dropped without being
      committed, and whether a failed Begin put its batch behind newer items. */
  datatype State = State(
    queue: seq<Item>, worker: Worker, committed: seq<Item>, listening: multiset<nat>,
    appended: seq<Item>, lost: seq<Item>, reordered: bool)

  datatype Step =
    | Append(item: Item) | Listen(chan: nat)
    | Recreate | Copy | Reset | BeginOk | BeginFail | Exec | ExecFail
    | CommitOk | CommitFail | CommitLost | Send | Readd

  const Initial := State([], Starting, [], multiset{}, [], [], false)

  predicate AtMarker(batch: seq<Item>, n: nat) { n < |batch| && batch[n].Flush? }

  /** Where an open transaction may be committed: at the end of the batch or at a marker. */
  predicate AtEnd(batch: seq<Item>, n: nat) { n == |batch| || AtMarker(batch, n) }

  /** One atomic step; a step that is not possible where the worker stands changes nothing. */
  function Next(s: State, step: Step): State {
    match step
    case Append(item) => s.(queue := s.queue + [item], appended := s.appended + [item])
    case Listen(chan) => s.(listening := s.listening + multiset{chan})
    case Recreate =>
      if !s.worker.Starting? then s
      else s.(worker := Idle, lost := s.lost + s.queue, queue := [])
    case Copy =>
      if !s.worker.Idle? then s else s.(worker := Copied(s.queue))
    case Reset =>
      if !s.worker.Copied? || |s.worker.batch| > |s.queue| then s
      else s.(worker := if s.worker.batch == [] then Idle else Taken(s.worker.batch),
              lost := s.lost + s.queue[|s.worker.batch|..],
              queue := [])
    case BeginOk =>
      if !s.worker.Taken? then s else s.(worker := Open(s.worker.batch, 0))
    case BeginFail =>
      if !s.worker.Taken? then s
      else s.(worker := Idle,
              reordered := s.reordered || s.queue != [],
              queue := s.queue + s.worker.batch)
    case Exec =>
      if !s.worker.Open? || AtEnd(s.worker.batch, s.worker.n) then s
      else s.(worker := Open(s.worker.batch, s.worker.n + 1))
    case ExecFail =>
      if !s.worker.Open? || AtEnd(s.worker.batch, s.worker.n) then s
      else s.(worker := Idle, lost := s.lost + s.worker.batch)
    case CommitOk =>
      if !s.worker.Open? || !AtEnd(s.worker.batch, s.worker.n) then s
      else
        var rest := s.worker.batch[s.worker.n..];
        s.(worker := if rest == [] then Idle else Signalling(rest),
           committed := s.committed + s.worker.batch[..s.worker.n])
    case CommitFail =>
      if !s.worker.Open? || !AtEnd(s.worker.batch, s.worker.n) then s
      else s.(worker := Idle, lost := s.lost + s.worker.batch)
    case CommitLost => // committed, but the code is told otherwise
      if !s.worker.Open? || !AtEnd(s.worker.batch, s.worker.n) then s
      else s.(worker := Idle,
              committed := s.committed + s.worker.batch[..s.worker.n],
              lost := s.lost + s.worker.batch[s.worker.n..])
    case Send =>
      if !s.worker.Signalling? || !CanSend(s.worker.rest, s.listening) then s
      else s.(worker := Readding(s.worker.rest),
              listening := s.listening - multiset{s.worker.rest[0].chan})
    case Readd =>
      if !s.worker.Readding? then s else s.(worker := Idle, queue := s.worker.rest + s.queue)
  }

  /** The channel is unbuffered: a send completes only when somebody is receiving. */
  predicate CanSend(rest: seq<Item>, listening: multiset<nat>) {
    AtMarker(rest, 0) && rest[0].chan in listening
  }

  function Run(s: State, steps: seq<Step>): State {
    if steps == [] then s else Next(Run(s, steps[..|steps| - 1]), steps[|steps| - 1])
  }

  lemma RunSnoc(s: State, steps: seq<Step>, step: Step)
    ensures Run(s, steps + [step]) == Next(Run(s, steps), step)
  {
    assert (steps + [step])[..|steps|] == steps;
  }

  lemma {:induction false} RunConcat(s: State, a: seq<Step>, b: seq<Step>)
    ensures Run(s, a + b) == Run(Run(s, a), b)
  {
    if b == [] {
      assert a + b == a;
    } else {
      var c, last := b[..|b| - 1], b[|b| - 1];
      RunConcat(s, a, c);
      assert c + [last] == b && (a + c) + [last] == a + b;
      assert Run(s, a + b) == Next(Run(s, a + c), last) by { RunSnoc(s, a + c, last); }
      assert Run(Run(s, a), b) == Next(Run(Run(s, a), c), last) by { RunSnoc(Run(s, a), c, last); }
    }
  }

  /** The items accepted and neither committed nor dropped, in the order the worker will
      meet them. */
  function Pending(s: State): seq<Item> {
    match s.worker
    case Taken(batch) => batch + s.queue
    case Open(batch, _) => batch + s.queue
    case Signalling(rest) => rest + s.queue
    case Readding(rest) => rest + s.queue
    case _ => s.queue
  }

  predicate OnlyData(items: seq<Item>) { forall i :: 0 <= i < |items| ==> items[i].Data? }

  predicate DataUpTo(items: seq<Item>, n: nat) {
    n <= |items| && forall i :: 0 <= i < n ==> items[i].Data?
  }

  /** What the worker's local variables look like at each point. */
  predicate WorkerOk(s: State) {
    match s.worker
    case Copied(batch) => batch <= s.queue
    case Taken(batch) => batch != []
    case Open(batch, n) => DataUpTo(batch, n) && batch != []
    case Signalling(rest) => AtMarker(rest, 0)
    case Readding(rest) => AtMarker(rest, 0)
    case _ => true
  }

  /** Every appended item is in exactly one place: committed, dropped or still pending. */
  predicate Accounted(s: State) {
    multiset(s.appended) == multiset(s.committed) + multiset(s.lost) + multiset(Pending(s))
  }

  /** First in, first out, for what was not dropped. */
  predicate InOrder(s: State) {
    !s.reordered ==> IsSubsequence(s.committed + Pending(s), s.appended)
  }

  predicate Ledger(s: State) { Accounted(s) && InOrder(s) }

  predicate Inv(s: State) { WorkerOk(s) && OnlyData(s.committed) && Ledger(s) }

  lemma NextKeepsWorkerOk(s: State, step: Step)
    requires WorkerOk(s) && OnlyData(s.committed)
    ensures WorkerOk(Next(s, step)) && OnlyData(Next(s, step).committed)
  {
  }

  /** A commit moves the executed items, and nothing else, from the front of the pending
      items to the end of the committed ones. */
  lemma CommitMovesFront(s: State)
    requires WorkerOk(s) && s.worker.Open? && AtEnd(s.worker.batch, s.worker.n)
    ensures var t := Next(s, CommitOk);
      && Pending(s) == s.worker.batch[..s.worker.n] + Pending(t)
      && t.committed == s.committed + s.worker.batch[..s.worker.n]
      && OnlyData(s.worker.batch[..s.worker.n])
  {
    SplitThenAppend(s.worker.batch, s.worker.n, s.queue);
    assert s.worker.n == |s.worker.batch| ==> s.worker.batch[s.worker.n..] == [];
  }

  lemma SplitThenAppend(a: seq<Item>, n: nat, b: seq<Item>)
    requires n <= |a|
    ensures a + b == a[..n] + (a[n..] + b)
    ensures a[n..] == [] ==> a + b == a[..n] + b
  {
  }

  predicate Commits(step: Step) { step.CommitOk? || step.CommitLost? }

  /** Four ways to lose items: the reset of a queue that grew after it was copied, the
      worker's first reset, a failed statement and a failed commit. The fifth is a commit whose
      reply is lost, which drops the rest of the batch only. */
  predicate Drops(step: Step) { step.Recreate? || step.Reset? || step.ExecFail? || step.CommitFail? }

  /** What a step drops: the appends that arrived between copy and reset, everything that
      was queued before the worker started, or the whole batch of a failed transaction. */
  function Dropped(s: State, step: Step): seq<Item> {
    match step
    case Recreate => if s.worker.Starting? then s.queue else []
    case Reset =>
      if s.worker.Copied? && |s.worker.batch| <= |s.queue| then s.queue[|s.worker.batch|..] else []
    case ExecFail =>
      if s.worker.Open? && !AtEnd(s.worker.batch, s.worker.n) then s.worker.batch else []
    case CommitFail =>
      if s.worker.Open? && AtEnd(s.worker.batch, s.worker.n) then s.worker.batch else []
    case _ => []
  }

  lemma DropMovesItems(s: State, step: Step)
    requires WorkerOk(s) && Drops(step)
    ensures var t, x := Next(s, step), Dropped(s, step);
      && t == s.(worker := t.worker, queue := t.queue, lost := s.lost + x)
      && (Pending(s) == x + Pending(t) || (step.Reset? && Pending(s) == Pending(t) + x))
  {
    if step.Reset? && s.worker.Copied? {
      assert s.queue == s.worker.batch + s.queue[|s.worker.batch|..];
      assert s.worker.batch + [] == s.worker.batch;
    }
  }

  /** Every other step leaves what is pending, committed and dropped as it was. */
  lemma QuietStep(s: State, step: Step)
    requires WorkerOk(s)
    requires !Drops(step) && !step.Append? && !step.BeginFail? && !Commits(step)
    ensures Next(s, step).(queue := s.queue, worker := s.worker, listening := s.listening) == s
    ensures Pending(Next(s, step)) == Pending(s)
  {
  }

  lemma AppendKeepsLedger(s: State, item: Item)
    requires Ledger(s)
    ensures Ledger(Next(s, Append(item)))
  {
    var t := Next(s, Append(item));
    PendingAfterAppend(s, item);
    Regroup(s.committed, Pending(s), [item]);
    assert multiset(Pending(t)) == multiset(Pending(s)) + multiset{item};
    if !s.reordered { BothGrow(s.committed + Pending(s), s.appended, item); }
  }

  lemma PendingAfterAppend(s: State, item: Item)
    ensures Pending(Next(s, Append(item))) == Pending(s) + [item]
  {
    match s.worker
    case Taken(batch) => Regroup(batch, s.queue, [item]);
    case Open(batch, _) => Regroup(batch, s.queue, [item]);
    case Signalling(rest) => Regroup(rest, s.queue, [item]);
    case Readding(rest) => Regroup(rest, s.queue, [item]);
    case _ =>
  }

  lemma CommitKeepsLedger(s: State)
    requires WorkerOk(s) && Ledger(s)
    ensures Ledger(Next(s, CommitOk))
  {
    if s.worker.Open? && AtEnd(s.worker.batch, s.worker.n) {
      CommitMovesFront(s);
      LedgerAfterCommit(s, Next(s, CommitOk), s.worker.batch[..s.worker.n]);
    }
  }

  lemma LedgerAfterCommit(s: State, t: State, x: seq<Item>)
    requires Ledger(s)
    requires t.appended == s.appended && t.lost == s.lost && t.reordered == s.reordered
    requires t.committed == s.committed + x && Pending(s) == x + Pending(t)
    ensures Ledger(t)
  {
    Regroup(s.committed, x, Pending(t));
    assert multiset(Pending(s)) == multiset(x) + multiset(Pending(t));
  }

  /** A commit whose reply is lost does what a commit does and then drops the rest. */
  lemma LostReplyDropsRest(s: State)
    requires WorkerOk(s) && s.worker.Open? && AtEnd(s.worker.batch, s.worker.n)
    ensures var t, u, rest := Next(s, CommitLost), Next(s, CommitOk), s.worker.batch[s.worker.n..];
      && t.appended == u.appended && t.committed == u.committed && t.reordered == u.reordered
      && t.lost == u.lost + rest && Pending(u) == rest + Pending(t)
  {
    assert [] + s.queue == s.queue;
  }

  lemma LostReplyKeepsLedger(s: State)
    requires WorkerOk(s) && Ledger(s)
    ensures Ledger(Next(s, CommitLost))
  {
    if s.worker.Open? && AtEnd(s.worker.batch, s.worker.n) {
      LostReplyDropsRest(s);
      CommitKeepsLedger(s);
      LedgerAfterMove(Next(s, CommitOk), Next(s, CommitLost), s.worker.batch[s.worker.n..]);
    }
  }

  lemma FailedBeginKeepsLedger(s: State)
    requires Ledger(s)
    ensures Ledger(Next(s, BeginFail))
  {
    if s.worker.Taken? && s.queue == [] {
      assert s.worker.batch + [] == [] + s.worker.batch;
    }
  }

  lemma DropKeepsLedger(s: State, step: Step)
    requires WorkerOk(s) && Ledger(s) && Drops(step)
    ensures Ledger(Next(s, step))
  {
    DropMovesItems(s, step);
    LedgerAfterMove(s, Next(s, step), Dropped(s, step));
  }

  lemma LedgerAfterMove(s: State, t: State, x: seq<Item>)
    requires Ledger(s)
    requires t.appended == s.appended && t.committed == s.committed && t.reordered == s.reordered
    requires t.lost == s.lost + x
    requires Pending(s) == x + Pending(t) || Pending(s) == Pending(t) + x
    ensures Ledger(t)
  {
    assert multiset(Pending(s)) == multiset(x) + multiset(Pending(t));
    if !t.reordered { TakenOut(s.committed, Pending(s), x, Pending(t), s.appended); }
  }

  lemma TakenOut(a: seq<Item>, before: seq<Item>, x: seq<Item>, after: seq<Item>, b: seq<Item>)
    requires IsSubsequence(a + before, b) && (before == x + after || before == after + x)
    ensures IsSubsequence(a + after, b)
  {
    if before == x + after {
      Regroup(a, x, after);
      SegmentRemoved(a, x, after, b);
    } else {
      Regroup(a, after, x);
      assert a + before == (a + after) + x + [];
      SegmentRemoved(a + after, x, [], b);
      assert (a + after) + [] == a + after;
    }
  }

  lemma QuietKeepsLedger(s: State, step: Step)
    requires WorkerOk(s) && Ledger(s)
    requires !Drops(step) && !step.Append? && !step.BeginFail? && !Commits(step)
    ensures Ledger(Next(s, step))
  {
    QuietStep(s, step);
  }

  lemma NextKeepsLedger(s: State, step: Step)
    requires WorkerOk(s) && Ledger(s)
    ensures Ledger(Next(s, step))
  {
    match step
    case Append(item) => AppendKeepsLedger(s, item);
    case BeginFail => FailedBeginKeepsLedger(s);
    case CommitOk => CommitKeepsLedger(s);
    case CommitLost => LostReplyKeepsLedger(s);
    case _ => if Drops(step) { DropKeepsLedger(s, step); } else { QuietKeepsLedger(s, step); }
  }

  lemma {:induction false} RunKeepsInv(s: State, steps: seq<Step>)
    requires Inv(s)
    ensures Inv(Run(s, steps))
  {
    if steps != [] {
      var before, step := steps[..|steps| - 1], steps[|steps| - 1];
      RunKeepsInv(s, before);
      NextKeepsWorkerOk(Run(s, before), step);
      NextKeepsLedger(Run(s, before), step);
    }
  }

  // ---- What holds over every run ----

  /** Conservation: over every run, failures and races included, the items appended are
      exactly those committed, those dropped and those still pending, counted with
      repetitions. */
  lemma {:induction false} ItemsAreConserved(steps: seq<Step>)
    ensures var s := Run(Initial, steps);
      multiset(s.appended) == multiset(s.committed) + multiset(s.lost) + multiset(Pending(s))
  {
    RunKeepsInv(Initial, steps);
  }

  ghost predicate Distinct(items: seq<Item>) { forall x :: multiset(items)[x] <= 1 }

  /** Order: unless a failed Begin put a batch behind newer items, the committed log followed
      by the pending items is what was appended, in order, without what was dropped. When
      nothing was dropped it is all of it, and for distinct items only then. */
  lemma {:induction false} CommittedInOrder(steps: seq<Step>)
    ensures var s := Run(Initial, steps);
      && (!s.reordered ==> IsSubsequence(s.committed + Pending(s), s.appended))
      && (!s.reordered && s.lost == [] ==> s.appended == s.committed + Pending(s))
      && (Distinct(s.appended) && s.lost == [] ==>
          (s.appended == s.committed + Pending(s) <==> !s.reordered))
  {
    RunKeepsInv(Initial, steps);
    var s := Run(Initial, steps);
    if !s.reordered && s.lost == [] { NothingTakenOut(s); }
    RunKeepsMixed(steps);
  }

  lemma NothingTakenOut(s: State)
    requires Ledger(s) && !s.reordered && s.lost == []
    ensures s.appended == s.committed + Pending(s)
  {
    var all := s.committed + Pending(s);
    assert |multiset(s.appended)| == |multiset(all)|;
    NoMoreElements(all, s.appended);
  }

  /** Until the transaction begins, the queue holds exactly the latest appends. */
  predicate LateItems(s: State) {
    s.worker.Taken? ==> |s.queue| <= |s.appended| && s.appended[|s.appended| - |s.queue|..] == s.queue
  }

  /** The order once lost does not come back: the last item of a batch that was put behind
      newer items is not the last one appended. */
  ghost predicate Mixed(s: State) {
    Distinct(s.appended) && s.lost == [] && s.reordered ==> s.appended != s.committed + Pending(s)
  }

  lemma NextKeepsLateItems(s: State, step: Step)
    requires LateItems(s)
    ensures LateItems(Next(s, step))
  {
  }

  lemma DistinctElsewhere(items: seq<Item>, a: seq<Item>, b: seq<Item>)
    requires Distinct(items) && multiset(items) == multiset(a) + multiset(b) && a != [] && b != []
    ensures a[|a| - 1] != b[|b| - 1]
  {
    var x := a[|a| - 1];
    assert x in multiset(a) && b[|b| - 1] in multiset(b);
    assert multiset(items)[x] == multiset(a)[x] + multiset(b)[x];
  }

  lemma AfterFailedBegin(s: State)
    requires s.worker.Taken?
    ensures var t := Next(s, BeginFail);
      && t.appended == s.appended && t.committed == s.committed && t.lost == s.lost
      && Pending(t) == s.queue + s.worker.batch
  {
  }

  lemma WouldMix(s: State)
    requires Accounted(s) && LateItems(s) && s.worker.Taken? && s.worker.batch != [] && s.queue != []
    requires Distinct(s.appended) && s.lost == []
    ensures s.appended != s.committed + (s.queue + s.worker.batch)
  {
    assert multiset(s.appended) == multiset(s.committed) + multiset(s.worker.batch + s.queue);
    OutOfOrder(s.appended, s.committed, s.worker.batch, s.queue);
  }

  lemma OutOfOrder(items: seq<Item>, a: seq<Item>, batch: seq<Item>, late: seq<Item>)
    requires Distinct(items) && multiset(items) == multiset(a) + multiset(batch + late)
    requires batch != [] && late != []
    requires |late| <= |items| && items[|items| - |late|..] == late
    ensures items != a + (late + batch)
  {
    assert multiset(a + batch) == multiset(a) + multiset(batch);
    DistinctElsewhere(items, a + batch, late);
    assert items[|items| - 1] == items[|items| - |late|..][|late| - 1];
    LastOf(a + late, batch);
    Regroup(a, late, batch);
  }

  lemma LastOf(a: seq<Item>, b: seq<Item>)
    requires b != []
    ensures (a + b)[|a + b| - 1] == b[|b| - 1]
  {
  }

  lemma NextKeepsMixed(s: State, step: Step)
    requires Inv(s) && LateItems(s) && Mixed(s)
    ensures Mixed(Next(s, step))
  {
    var t := Next(s, step);
    if Distinct(t.appended) && t.lost == [] && t.reordered {
      match step
      case Append(item) => MixedAfterAppend(s, item);
      case BeginFail => MixedAfterBegin(s);
      case CommitOk => MixedAfterCommit(s);
      case CommitLost => MixedAfterLostReply(s);
      case _ => MixedOtherwise(s, step);
    }
  }

  lemma MixedAfterAppend(s: State, item: Item)
    requires Mixed(s)
    ensures Mixed(Next(s, Append(item)))
  {
    var all := s.committed + Pending(s);
    PendingAfterAppend(s, item);
    Regroup(s.committed, Pending(s), [item]);
    assert (s.appended + [item])[..|s.appended|] == s.appended && (all + [item])[..|all|] == all;
    if Distinct(s.appended + [item]) {
      forall x ensures multiset(s.appended)[x] <= 1 {
        assert multiset(s.appended + [item])[x] >= multiset(s.appended)[x];
      }
    }
  }

  lemma MixedAfterBegin(s: State)
    requires Inv(s) && LateItems(s) && Mixed(s)
    ensures Mixed(Next(s, BeginFail))
  {
    if s.worker.Taken? && Distinct(s.appended) && s.lost == [] {
      AfterFailedBegin(s);
      if s.queue != [] {
        WouldMix(s);
      } else {
        assert s.worker.batch + [] == [] + s.worker.batch;
      }
    }
  }

  lemma MixedAfterCommit(s: State)
    requires Inv(s) && Mixed(s)
    ensures Mixed(Next(s, CommitOk))
  {
    if s.worker.Open? && AtEnd(s.worker.batch, s.worker.n) {
      CommitMovesFront(s);
      Regroup(s.committed, s.worker.batch[..s.worker.n], Pending(Next(s, CommitOk)));
    }
  }

  lemma MixedAfterLostReply(s: State)
    requires Inv(s) && Mixed(s)
    ensures Mixed(Next(s, CommitLost))
  {
    if s.worker.Open? && AtEnd(s.worker.batch, s.worker.n) {
      LostReplyDropsRest(s);
      MixedAfterCommit(s);
      var t, u := Next(s, CommitLost), Next(s, CommitOk);
      assert t.lost == [] ==> s.worker.batch[s.worker.n..] == [] && Pending(u) == Pending(t);
    }
  }

  lemma MixedOtherwise(s: State, step: Step)
    requires Inv(s) && Mixed(s) && !step.Append? && !step.BeginFail? && !Commits(step)
    ensures Mixed(Next(s, step))
  {
    if Drops(step) {
      DropMovesItems(s, step);
      assert Next(s, step).lost == [] ==> Pending(Next(s, step)) == Pending(s);
    } else {
      QuietStep(s, step);
    }
  }

  lemma {:induction false} RunKeepsMixed(steps: seq<Step>)
    ensures LateItems(Run(Initial, steps)) && Mixed(Run(Initial, steps))
  {
    if steps != [] {
      var before, step := steps[..|steps| - 1], steps[|steps| - 1];
      RunKeepsMixed(before);
      RunKeepsInv(Initial, before);
      NextKeepsLateItems(Run(Initial, before), step);
      NextKeepsMixed(Run(Initial, before), step);
    }
  }

  function FirstMarker(items: seq<Item>): (n: nat)
    ensures n <= |items| && OnlyData(items[..n])
    ensures n < |items| ==> items[n].Flush?
  {
    if items == [] || items[0].Flush? then 0
    else
      var k := FirstMarker(items[1..]);
      assert items[..k + 1] == [items[0]] + items[1..][..k];
      k + 1
  }

  lemma FirstMarkerUnique(items: seq<Item>, n: nat)
    requires AtEnd(items, n) && n <= |items| && OnlyData(items[..n])
    ensures n == FirstMarker(items)
  {
    assert items[..n] <= items;
  }

  /** The barrier at place `p` of the appended items: everything before it is committed or
      dropped, and everything committed was appended before it, in that order. */
  predicate BarrierAt(s: State, p: nat) {
    && p < |s.appended| && multiset(s.appended[..p]) <= multiset(s.committed) + multiset(s.lost)
    && IsSubsequence(s.committed, s.appended[..p])
  }

  /** The flush barrier: when the worker is about to send on a marker's channel, the items
      appended before that marker are committed or were dropped, and no item appended after
      it is committed. When nothing was dropped, exactly the items before it are committed,
      and the marker is the first one ever appended. */
  lemma {:induction false} FlushBarrier(steps: seq<Step>)
    ensures var s := Run(Initial, steps);
      s.worker.Signalling? && !s.reordered ==>
      && s.worker.rest != []
      && (exists p: nat :: BarrierAt(s, p) && s.appended[p] == s.worker.rest[0])
      && (s.lost == [] ==>
          && |s.committed| == FirstMarker(s.appended) < |s.appended|
          && s.appended[..|s.committed|] == s.committed
          && s.appended[|s.committed|] == s.worker.rest[0])
  {
    RunKeepsInv(Initial, steps);
    var s := Run(Initial, steps);
    if s.worker.Signalling? && !s.reordered {
      var p := MarkerPlace(s);
      if s.lost == [] {
        NothingTakenOut(s);
        FirstMarkerUnique(s.appended, |s.committed|);
      }
    }
  }

  lemma MarkerPlace(s: State) returns (p: nat)
    requires Inv(s) && s.worker.Signalling? && !s.reordered
    ensures BarrierAt(s, p) && s.appended[p] == s.worker.rest[0]
  {
    var x, after := s.worker.rest[0], s.worker.rest[1..] + s.queue;
    assert Pending(s) == [x] + after;
    Regroup(s.committed, [x], after);
    p := PlaceOf(s.committed, x, after, s.appended);
    NoMoreElements(after, s.appended[p + 1..]);
    CountAround(s.appended, p);
    assert multiset(Pending(s)) == multiset{x} + multiset(after);
    NoFewerBefore(multiset(s.appended[..p]), multiset(s.committed) + multiset(s.lost),
                  multiset{x}, multiset(s.appended[p + 1..]), multiset(after));
  }

  lemma NoFewerBefore(before: multiset<Item>, settled: multiset<Item>, x: multiset<Item>,
                      behind: multiset<Item>, after: multiset<Item>)
    requires before + x + behind == settled + (x + after) && after <= behind
    ensures before <= settled
  {
    forall i ensures before[i] <= settled[i] {
      assert (before + x + behind)[i] == (settled + (x + after))[i];
    }
  }

  lemma CountAround(items: seq<Item>, p: nat)
    requires p < |items|
    ensures multiset(items) == multiset(items[..p]) + multiset{items[p]} + multiset(items[p + 1..])
  {
    assert items == items[..p] + [items[p]] + items[p + 1..];
  }

  /** A receiver leaves only through a send, so `WaitForFlush` on a channel of its own, whose
      marker was appended once, returns with the barrier at that marker. */
  lemma {:induction false} ReceiveCompletes(steps: seq<Step>, step: Step, chan: nat, p: nat)
    requires var s := Run(Initial, steps);
      && !s.reordered && Next(s, step).listening[chan] < s.listening[chan]
      && p < |s.appended| && forall q :: 0 <= q < |s.appended| && s.appended[q] == Flush(chan) ==> q == p
    ensures BarrierAt(Next(Run(Initial, steps), step), p)
    ensures Run(Initial, steps).appended[p] == Flush(chan)
  {
    RunKeepsInv(Initial, steps);
    var s := Run(Initial, steps);
    OnlySendReceives(s, step, chan);
    var q := MarkerPlace(s);
  }

  lemma OnlySendReceives(s: State, step: Step, chan: nat)
    requires Next(s, step).listening[chan] < s.listening[chan]
    ensures s.worker.Signalling? && AtMarker(s.worker.rest, 0) && s.worker.rest[0] == Flush(chan)
    ensures var t := Next(s, step);
      t.appended == s.appended && t.committed == s.committed && t.lost == s.lost
  {
  }

  predicate AllOrNothing(s: State, step: Step) {
    var t := Next(s, step);
    || t.committed == s.committed
    || (Commits(step) && s.worker.Open?
        && t.committed == s.committed + s.worker.batch[..FirstMarker(s.worker.batch)])
  }

  lemma CommitIsAtomic(s: State, step: Step)
    requires WorkerOk(s)
    ensures AllOrNothing(s, step)
  {
    if Commits(step) && s.worker.Open? && AtEnd(s.worker.batch, s.worker.n) {
      FirstMarkerUnique(s.worker.batch, s.worker.n);
    }
  }

  /** A transaction is all or nothing: a step either leaves the log as it was or appends
      the whole snapshot up to its first marker. */
  lemma {:induction false} BatchIsAtomic(steps: seq<Step>, step: Step)
    ensures AllOrNothing(Run(Initial, steps), step)
  {
    RunKeepsInv(Initial, steps);
    CommitIsAtomic(Run(Initial, steps), step);
  }

  // ---- The marker that was put back ----

  /** The next item the worker will look at is the marker of channel `chan`. */
  predicate HeadedBy(s: State, chan: nat) {
    var items := if s.worker.Copied? then s.worker.batch else Pending(s);
    !s.worker.Starting? && items != [] && items[0] == Flush(chan)
  }

  predicate Fails(step: Step) { step.BeginFail? || step.ExecFail? || step.CommitFail? || step.CommitLost? }

  predicate FailsNothing(steps: seq<Step>) { forall i :: 0 <= i < |steps| ==> !Fails(steps[i]) }

  lemma StaysHeaded(s: State, chan: nat, step: Step)
    requires WorkerOk(s) && OnlyData(s.committed) && HeadedBy(s, chan) && !Fails(step)
    ensures HeadedBy(Next(s, step), chan) && Next(s, step).committed == s.committed
  {
    if s.worker.Open? {
      HeadedBatch(s, chan, step);
    } else if s.worker.Copied? {
      HeadedCopy(s, chan, step);
    }
  }

  /** Nothing stands before the marker, so the transaction commits nothing. */
  lemma HeadedBatch(s: State, chan: nat, step: Step)
    requires WorkerOk(s) && HeadedBy(s, chan) && !Fails(step) && s.worker.Open?
    ensures HeadedBy(Next(s, step), chan) && Next(s, step).committed == s.committed
  {
    assert s.worker.batch[0].Flush? && s.worker.n == 0;
    assert s.worker.batch[..0] == [] && s.worker.batch[0..] == s.worker.batch;
  }

  lemma HeadedCopy(s: State, chan: nat, step: Step)
    requires WorkerOk(s) && HeadedBy(s, chan) && !Fails(step) && s.worker.Copied?
    ensures HeadedBy(Next(s, step), chan) && Next(s, step).committed == s.committed
  {
  }

  lemma {:induction false} StaysHeadedOverRun(s: State, chan: nat, steps: seq<Step>)
    requires Inv(s) && HeadedBy(s, chan)
    requires FailsNothing(steps)
    ensures HeadedBy(Run(s, steps), chan) && Run(s, steps).committed == s.committed
  {
    if steps != [] {
      var before := steps[..|steps| - 1];
      StaysHeadedOverRun(s, chan, before);
      RunKeepsInv(s, before);
      StaysHeaded(Run(s, before), chan, steps[|steps| - 1]);
    }
  }

  /** The marker goes back in front together with the items behind it, so once a marker has
      been signalled nothing is ever committed again, however many items are appended and
      however many goroutines listen, unless a transaction fails. */
  lemma {:induction false} NothingCommittedAfterFlush(steps: seq<Step>, more: seq<Step>)
    requires Run(Initial, steps).worker.Signalling?
    requires FailsNothing(more)
    ensures Run(Initial, steps + more).committed == Run(Initial, steps).committed
  {
    var s := Run(Initial, steps);
    RunKeepsInv(Initial, steps);
    StaysHeadedOverRun(s, s.worker.rest[0].chan, more);
    RunConcat(Initial, steps, more);
  }

  /** The exact condition: from every reachable state at a signal, some continuation commits
      an item if and only if transactions may fail. */
  lemma {:induction false} CommitsAfterFlushIff(steps: seq<Step>, mayFail: bool)
    requires Run(Initial, steps).worker.Signalling?
    ensures (exists more :: (mayFail || FailsNothing(more)) && GrowsLog(steps, more)) <==> mayFail
  {
    if mayFail {
      var more := FailThenCommit(steps);
    } else {
      forall more | FailsNothing(more) ensures !GrowsLog(steps, more) {
        NothingCommittedAfterFlush(steps, more);
      }
    }
  }

  predicate GrowsLog(steps: seq<Step>, more: seq<Step>) {
    |Run(Initial, steps + more).committed| > |Run(Initial, steps).committed|
  }

  /** Somebody receives, the marker is put back, its transaction fails, and a new item meets an
      empty queue. */
  lemma FailThenCommit(steps: seq<Step>) returns (more: seq<Step>)
    requires Run(Initial, steps).worker.Signalling?
    ensures GrowsLog(steps, more)
  {
    RunKeepsInv(Initial, steps);
    var s := Run(Initial, steps);
    var failing := FailedRound(s);
    var t := Run(s, failing);
    var item := Data("", 0);
    more := failing + [Append(item)] + Round(1);
    assert Run(Initial, steps + more) == Run(Run(s, failing + [Append(item)]), Round(1)) by {
      RunConcat(Initial, steps, more);
      RunConcat(s, failing + [Append(item)], Round(1));
    }
    assert Run(s, failing + [Append(item)]) == Next(t, Append(item)) by { RunSnoc(s, failing, Append(item)); }
    RunDataRound(Next(t, Append(item)), item);
  }

  /** A round over one item commits it. */
  lemma RunDataRound(s: State, item: Item)
    requires s.worker.Idle? && s.queue == [item] && item.Data?
    ensures Run(s, Round(1)).committed == s.committed + [item]
  {
    var u := s.(queue := [], worker := Open([item], 1));
    assert Run(s, [Copy, Reset, BeginOk] + Execs(1)) == u by {
      RunOpening(s);
      RunConcat(s, [Copy, Reset, BeginOk], Execs(1));
      assert FirstMarker([item]) == 1;
      RunExecs(s.(queue := [], worker := Open([item], 0)), [item], 1);
    }
    assert Run(s, Round(1)) == Next(u, CommitOk) by { RunSnoc(s, [Copy, Reset, BeginOk] + Execs(1), CommitOk); }
    assert [item][..1] == [item];
  }

  lemma FailedRound(s: State) returns (r: seq<Step>)
    requires s.worker.Signalling? && AtMarker(s.worker.rest, 0)
    ensures var t := Run(s, r); t.worker.Idle? && t.queue == [] && t.committed == s.committed
  {
    r := PutBackSteps(s);
    r := Two(s, r, Copy, Reset);
    r := Two(s, r, BeginOk, CommitFail);
  }

  lemma PutBackSteps(s: State) returns (r: seq<Step>)
    requires s.worker.Signalling? && AtMarker(s.worker.rest, 0)
    ensures Run(s, r) == s.(queue := s.worker.rest + s.queue, worker := Idle)
  {
    var chan := s.worker.rest[0].chan;
    r := Three(s, [], Listen(chan), Send, Readd);
    assert s.listening + multiset{chan} - multiset{chan} == s.listening;
  }

  /** Three steps more. */
  lemma Three(s: State, r: seq<Step>, a: Step, b: Step, c: Step) returns (t: seq<Step>)
    ensures Run(s, t) == Next(Next(Next(Run(s, r), a), b), c)
    ensures t == r + [a] + [b] + [c]
  {
    RunSnoc(s, r, a);
    RunSnoc(s, r + [a], b);
    RunSnoc(s, r + [a] + [b], c);
    t := r + [a] + [b] + [c];
  }

  /** And no receive on any other channel ever completes, so a second `WaitForFlush` does not
      return, unless a transaction fails. */
  lemma {:induction false} NoOtherFlushReturns(steps: seq<Step>, more: seq<Step>, chan: nat)
    requires var s := Run(Initial, steps);
      s.worker.Signalling? && s.worker.rest != [] && s.worker.rest[0] != Flush(chan)
    requires FailsNothing(more)
    ensures Run(Run(Initial, steps), more).listening[chan] >= Run(Initial, steps).listening[chan]
  {
    if more != [] {
      var s, before, last := Run(Initial, steps), more[..|more| - 1], more[|more| - 1];
      NoOtherFlushReturns(steps, before, chan);
      RunKeepsInv(Initial, steps);
      StaysHeadedOverRun(s, s.worker.rest[0].chan, before);
      if Next(Run(s, before), last).listening[chan] < Run(s, before).listening[chan] {
        OnlySendReceives(Run(s, before), last, chan);
      }
    }
  }

  /** `WaitForFlush` receives once on its own channel; the second send on it then blocks the
      worker goroutine for good. */
  lemma {:induction false} SecondSendBlocks(s: State, steps: seq<Step>)
    requires s.worker.Signalling? && AtMarker(s.worker.rest, 0)
    requires s.worker.rest[0].chan !in s.listening
    requires Listen(s.worker.rest[0].chan) !in steps
    ensures Run(s, steps).worker == s.worker && Run(s, steps).committed == s.committed
    ensures s.worker.rest[0].chan !in Run(s, steps).listening
  {
    if steps != [] {
      SecondSendBlocks(s, steps[..|steps| - 1]);
    }
  }

  /** That happens: one `WaitForFlush` and two undisturbed rounds. */
  lemma {:induction false} SecondSendReached(chan: nat) returns (r: seq<Step>)
    ensures Run(Initial, r) == AtSignal(chan, multiset{})
    ensures FailsNothing(r)
  {
    assert FailsNothing(Round(0)) by { assert Round(0) == [Copy, Reset, BeginOk, CommitOk]; }
    r := MarkerQueued(chan);
    assert Run(Initial, r + Round(0)) == AtSignal(chan, multiset{chan}) by {
      RunConcat(Initial, r, Round(0));
      MarkerRound(WaitingMarker(chan, multiset{chan}), chan);
    }
    r := MarkerReturned(r + Round(0), chan);
    assert Run(Initial, r + Round(0)) == AtSignal(chan, multiset{}) by {
      RunConcat(Initial, r, Round(0));
      MarkerRound(WaitingMarker(chan, multiset{}), chan);
    }
    r := r + Round(0);
  }

  lemma MarkerQueued(chan: nat) returns (r: seq<Step>)
    ensures Run(Initial, r) == WaitingMarker(chan, multiset{chan}) && FailsNothing(r)
  {
    r := Three(Initial, [], Recreate, Append(Flush(chan)), Listen(chan));
  }

  lemma MarkerReturned(before: seq<Step>, chan: nat) returns (r: seq<Step>)
    requires Run(Initial, before) == AtSignal(chan, multiset{chan})
    requires FailsNothing(before)
    ensures FailsNothing(r)
    ensures Run(Initial, r) == WaitingMarker(chan, multiset{})
  {
    r := Two(Initial, before, Send, Readd);
    SendThenReadd(chan);
  }

  lemma SendThenReadd(chan: nat)
    ensures Next(Next(AtSignal(chan, multiset{chan}), Send), Readd) == WaitingMarker(chan, multiset{})
  {
    assert [Flush(chan)] + [] == [Flush(chan)] && multiset{chan} - multiset{chan} == multiset{};
  }

  /** One marker in the queue and the worker between rounds. */
  function WaitingMarker(chan: nat, listening: multiset<nat>): State {
    State([Flush(chan)], Idle, [], listening, [Flush(chan)], [], false)
  }

  /** The marker taken and about to be signalled. */
  function AtSignal(chan: nat, listening: multiset<nat>): State {
    WaitingMarker(chan, listening).(queue := [], worker := Signalling([Flush(chan)]))
  }

  lemma MarkerRound(s: State, chan: nat)
    requires s.worker.Idle? && s.queue == [Flush(chan)]
    ensures Run(s, Round(0)) == s.(queue := [], worker := Signalling(s.queue))
  {
    assert FirstMarker(s.queue) == 0;
    RunRound(s);
    assert s.queue[0..] == s.queue && s.committed + s.queue[..0] == s.committed;
  }

  // ---- The failed Begin ----

  /** A failed Begin keeps the order exactly when nothing was appended since the copy. */
  lemma FailedBeginKeepsOrderIff(s: State)
    requires WorkerOk(s) && s.worker.Taken?
    requires forall i, j :: 0 <= i < j < |Pending(s)| ==> Pending(s)[i] != Pending(s)[j]
    ensures Pending(Next(s, BeginFail)) == Pending(s) <==> s.queue == []
  {
    if s.queue == [] {
      assert Pending(Next(s, BeginFail)) == Pending(s);
    } else {
      assert Pending(s)[0] != Pending(s)[|s.worker.batch|];
      assert Pending(Next(s, BeginFail))[0] == s.queue[0] == Pending(s)[|s.worker.batch|];
    }
  }

  lemma ExecAdvances(s: State, batch: seq<Item>, n: nat)
    requires s.worker == Open(batch, n) && n < FirstMarker(batch)
    ensures Next(s, Exec) == s.(worker := Open(batch, n + 1))
  {
    assert batch[..FirstMarker(batch)][n].Data?;
  }

  /** The steps of an undisturbed round up to the signal. */
  function Round(k: nat): seq<Step> { [Copy, Reset, BeginOk] + Execs(k) + [CommitOk] }

  function Execs(k: nat): (r: seq<Step>)
    ensures |r| == k
  {
    if k == 0 then [] else Execs(k - 1) + [Exec]
  }

  lemma {:induction false} RunExecs(s: State, batch: seq<Item>, k: nat)
    requires s.worker == Open(batch, 0) && k <= FirstMarker(batch)
    ensures Run(s, Execs(k)) == s.(worker := Open(batch, k))
  {
    if k > 0 {
      var u := s.(worker := Open(batch, k - 1));
      RunExecs(s, batch, k - 1);
      assert Run(s, Execs(k - 1) + [Exec]) == Next(u, Exec) by { RunSnoc(s, Execs(k - 1), Exec); }
      ExecAdvances(u, batch, k - 1);
    }
  }

  lemma RunOpening(s: State)
    requires s.worker.Idle? && s.queue != []
    ensures Run(s, [Copy, Reset, BeginOk])
         == s.(queue := [], worker := Open(s.queue, 0))
  {
    RunSnoc(s, [], Copy);
    RunSnoc(s, [Copy], Reset);
    RunSnoc(s, [Copy, Reset], BeginOk);
    assert [] + [Copy] == [Copy] && [Copy] + [Reset] == [Copy, Reset];
    assert [Copy, Reset] + [BeginOk] == [Copy, Reset, BeginOk];
    assert s.queue[|s.queue|..] == [] && s.lost + [] == s.lost;
  }

  lemma RunRound(s: State)
    requires s.worker.Idle? && FirstMarker(s.queue) < |s.queue|
    ensures var k := FirstMarker(s.queue);
      Run(s, Round(k)) == s.(queue := [], committed := s.committed + s.queue[..k],
                             worker := Signalling(s.queue[k..]))
  {
    var k, opening := FirstMarker(s.queue), [Copy, Reset, BeginOk];
    var u := s.(queue := [], worker := Open(s.queue, k));
    assert Run(s, opening + Execs(k)) == u by {
      RunOpening(s);
      RunConcat(s, opening, Execs(k));
      RunExecs(s.(queue := [], worker := Open(s.queue, 0)), s.queue, k);
    }
    assert Run(s, Round(k)) == Next(u, CommitOk) by { RunSnoc(s, opening + Execs(k), CommitOk); }
  }

  ghost predicate BarrierHolds(s: State)
    requires s.worker.Signalling? && s.worker.rest != []
  {
    exists p: nat :: BarrierAt(s, p) && s.appended[p] == s.worker.rest[0]
  }

  /** What the signal after a failed Begin is worth, when a marker was pending: the next round
      keeps the barrier if and only if nothing had been appended since the copy. */
  lemma {:induction false} FailedBeginKeepsBarrierIff(steps: seq<Step>)
    requires var s := Run(Initial, steps);
      && s.worker.Taken? && s.lost == [] && !s.reordered && Distinct(s.appended)
      && FirstMarker(s.queue + s.worker.batch) < |s.queue + s.worker.batch|
    ensures var s := Run(Initial, steps);
      var t := Run(s, [BeginFail] + Round(FirstMarker(s.queue + s.worker.batch)));
      t.worker.Signalling? && t.worker.rest != [] && (BarrierHolds(t) <==> s.queue == [])
  {
    var s := Run(Initial, steps);
    var u, all := Next(s, BeginFail), s.queue + s.worker.batch;
    var k := FirstMarker(all);
    RunKeepsInv(Initial, steps);
    NothingTakenOut(s);
    RunConcat(s, [BeginFail], Round(k));
    RunSnoc(s, [], BeginFail);
    assert [] + [BeginFail] == [BeginFail];
    RunRound(u);
    var t := Run(u, Round(k));
    if s.queue == [] {
      assert all == s.worker.batch && s.worker.batch + s.queue == s.worker.batch;
      InOrderBarrier(t, s.committed, all, k);
    } else if BarrierHolds(t) {
      var p: nat :| BarrierAt(t, p) && t.appended[p] == t.worker.rest[0];
      NoBarrier(s.appended, s.committed, s.worker.batch, s.queue, k, p);
    }
  }

  lemma InOrderBarrier(t: State, committed: seq<Item>, all: seq<Item>, k: nat)
    requires k < |all| && t.appended == committed + all && t.committed == committed + all[..k]
    requires t.worker == Signalling(all[k..])
    ensures BarrierHolds(t)
  {
    var p := |committed| + k;
    assert t.appended[..p] == t.committed;
    EverySubsequence(t.committed);
    assert BarrierAt(t, p);
  }

  /** The first marker of the swapped list: if it is among the late items the batch is
      missing before it, otherwise the late items are committed although they follow it. */
  lemma NoBarrier(items: seq<Item>, committed: seq<Item>, batch: seq<Item>, late: seq<Item>, k: nat, p: nat)
    requires Distinct(items) && items == committed + (batch + late) && batch != [] && late != []
    requires k < |late + batch| && p < |items| && items[p] == (late + batch)[k]
    ensures !(multiset(items[..p]) <= multiset(committed + (late + batch)[..k]))
      || !IsSubsequence(committed + (late + batch)[..k], items[..p])
  {
    var log := committed + (late + batch)[..k];
    var first, newer := |committed|, |committed| + |batch|;
    assert items[first] == batch[0] && items[newer] == late[0];
    if k < |late| {
      OnePlace(items, p, newer + k);
      assert items[..p][first] == batch[0];
      NotInLog(items, committed, batch, late, k);
    } else {
      OnePlace(items, p, first + k - |late|);
      assert log[first] == late[0] && late[0] in multiset(log);
      NotBefore(items, p, newer);
      if IsSubsequence(log, items[..p]) { NoMoreElements(log, items[..p]); }
    }
  }

  lemma OnePlace(items: seq<Item>, i: nat, j: nat)
    requires Distinct(items) && i < |items| && j < |items| && items[i] == items[j]
    ensures i == j
  {
    if i < j { TwoPlaces(items, i, j); }
    if j < i { TwoPlaces(items, j, i); }
  }

  lemma TwoPlaces(items: seq<Item>, i: nat, j: nat)
    requires i < j < |items| && items[i] == items[j]
    ensures multiset(items)[items[i]] >= 2
  {
    assert items == items[..j] + items[j..];
    assert items[..j][i] in multiset(items[..j]) && items[j..][0] in multiset(items[j..]);
  }

  lemma NotBefore(items: seq<Item>, p: nat, j: nat)
    requires Distinct(items) && p <= j < |items|
    ensures items[j] !in multiset(items[..p])
  {
    forall q | 0 <= q < p ensures items[..p][q] != items[j] {
      if items[q] == items[j] { OnePlace(items, q, j); }
    }
  }

  lemma NotInLog(items: seq<Item>, committed: seq<Item>, batch: seq<Item>, late: seq<Item>, k: nat)
    requires Distinct(items) && items == committed + (batch + late) && batch != [] && k < |late|
    ensures batch[0] !in multiset(committed + (late + batch)[..k])
  {
    var log := committed + (late + batch)[..k];
    if batch[0] in log {
      var q :| 0 <= q < |log| && log[q] == batch[0];
      assert items[|committed|] == batch[0];
      OnePlace(items, if q < |committed| then q else q + |batch|, |committed|);
    }
  }

  /** One such run: a marker can be signalled although an item appended before it
      is not committed. The run: the item is taken, the marker arrives, Begin fails, and
      the next round meets the marker first. */
  lemma {:induction false} FailedBeginBreaksBarrier(item: Item, chan: nat)
    requires item.Data?
    ensures exists steps :: var s := Run(Initial, steps);
      && s.appended == [item, Flush(chan)] && s.committed == []
      && s.worker == Signalling([Flush(chan), item])
  {
    var r := Overtaken(item, chan);
    var s := Run(Initial, r);
    r := Two(Initial, r, BeginOk, CommitOk);
    assert s.worker.batch[0..] == [Flush(chan), item];
    assert Run(Initial, r).worker == Signalling([Flush(chan), item]);
  }

  lemma TakenAlone(item: Item) returns (r: seq<Step>)
    ensures Run(Initial, r) == State([], Taken([item]), [], multiset{}, [item], [], false)
  {
    r := Two(Initial, [], Recreate, Append(item));
    assert Run(Initial, r) == State([item], Idle, [], multiset{}, [item], [], false);
    r := Two(Initial, r, Copy, Reset);
  }

  lemma Overtaken(item: Item, chan: nat) returns (r: seq<Step>)
    ensures Run(Initial, r)
      == State([], Taken([Flush(chan), item]), [], multiset{}, [item, Flush(chan)], [], true)
  {
    r := TakenAlone(item);
    r := Two(Initial, r, Append(Flush(chan)), BeginFail);
    assert Run(Initial, r)
        == State([Flush(chan), item], Idle, [], multiset{}, [item, Flush(chan)], [], true);
    r := Two(Initial, r, Copy, Reset);
  }

  /** Two steps more. */
  lemma Two(s: State, r: seq<Step>, a: Step, b: Step) returns (t: seq<Step>)
    ensures Run(s, t) == Next(Next(Run(s, r), a), b)
    ensures t == r + [a] + [b]
  {
    RunSnoc(s, r, a);
    RunSnoc(s, r + [a], b);
    t := r + [a] + [b];
  }

  // ---- The queue object ----

  class Database {
    var log: seq<Item>

    constructor ()
      ensures log == []
    {
      log := [];
    }
  }

  datatype Outcome = Done | ErrBegin | ErrPresent | ErrExec | ErrCommit | Blocked

  /** A commit can take effect although its reply is lost. */
  datatype CommitAnswer = Committed | NotCommitted | ReplyLost

  /** What the rest of the world does during one `ProcessQueue`: the items other goroutines
      append before and after the reset, and how the database answers. */
  datatype Env = Env(
    early: seq<Item>, late: seq<Item>, beginOk: bool, unique: Item -> bool, execs: Item -> bool,
    commit: CommitAnswer)

  /** The rounds whose items are in the log afterwards. */
  predicate Logged(r: Outcome, env: Env) {
    r == Done || r == Blocked || (r == ErrCommit && env.commit.ReplyLost?)
  }

  predicate Accepts(env: Env, item: Item) { env.unique(item) && env.execs(item) }

  /** Every item before the first marker is unique and executes without error. */
  predicate Clean(env: Env, batch: seq<Item>) {
    forall i :: 0 <= i < FirstMarker(batch) ==> Accepts(env, batch[i])
  }

  /** The statements of one transaction, up to the first marker or the first failure. */
  method Execute(batch: seq<Item>, env: Env) returns (r: Outcome, tx: seq<Item>, waitForFlush: bool)
    ensures tx <= batch && |tx| <= FirstMarker(batch)
    ensures forall i :: 0 <= i < |tx| ==> env.unique(tx[i]) && env.execs(tx[i])
    ensures r in {Done, ErrPresent, ErrExec}
    ensures r == Done <==> |tx| == FirstMarker(batch)
    ensures r == Done <==> Clean(env, batch)
    ensures r == ErrPresent ==> !env.unique(batch[|tx|])
    ensures r == ErrExec ==> env.unique(batch[|tx|]) && !env.execs(batch[|tx|])
    ensures waitForFlush <==> r == Done && FirstMarker(batch) < |batch|
  {
    tx, waitForFlush := [], false;
    var idx := 0;
    while idx < |batch|
      invariant 0 <= idx <= |batch| && tx == batch[..idx] && OnlyData(tx) && !waitForFlush
      invariant forall i :: 0 <= i < idx ==> Accepts(env, tx[i])
    {
      var item := batch[idx];
      if item.Flush? {
        waitForFlush := true;
        break;
      }
      PastData(batch, idx);
      if env.unique(item) {
        if !env.execs(item) {
          return ErrExec, tx, false;
        }
        tx := tx + [item];
      } else {
        return ErrPresent, tx, false;
      }
      idx := idx + 1;
    }
    FirstMarkerUnique(batch, idx);
    r := Done;
  }

  lemma PastData(items: seq<Item>, n: nat)
    requires n < |items| && OnlyData(items[..n]) && items[n].Data?
    ensures n < FirstMarker(items) && OnlyData(items[..n + 1])
  {
    assert items[..n + 1] == items[..n] + [items[n]];
    assert forall i :: 0 <= i <= n ==> items[..n + 1][i] == items[i];
  }

  lemma OneThenRest(a: seq<Item>, items: seq<Item>)
    requires items != []
    ensures (a + [items[0]]) + items[1..] == a + items
  {
  }

  /** `queue`, the log and the waiting receivers are the real state; `trace` records the
      steps taken so far, and `Valid` says that they lead to exactly this state. */
  class Queue {
    var queue: seq<Item>
    var listening: multiset<nat>
    const db: Database
    ghost var machine: State
    ghost var trace: seq<Step>

    ghost predicate Valid() reads this, db {
      && machine == Run(Initial, trace)
      && queue == machine.queue
      && listening == machine.listening
      && db.log == machine.committed
    }

    constructor (db: Database)
      requires db.log == []
      ensures Valid() && this.db == db && machine == Initial
    {
      this.db := db;
      queue, listening := [], multiset{};
      machine, trace := Initial, [];
    }

    ghost method Did(step: Step)
      requires machine == Run(Initial, trace)
      modifies this`machine, this`trace
      ensures machine == Next(old(machine), step) && machine == Run(Initial, trace)
      ensures trace == old(trace) + [step]
    {
      RunSnoc(Initial, trace, step);
      machine, trace := Next(machine, step), trace + [step];
    }

    method AppendToQueue(item: Item)
      requires Valid()
      modifies this`queue, this`machine, this`trace
      ensures Valid() && queue == old(queue) + [item]
      ensures machine == Next(old(machine), Append(item)) && trace == old(trace) + [Append(item)]
    {
      queue := queue + [item];
      Did(Append(item));
    }

    method RecreateQueue()
      modifies this`queue
      ensures queue == []
    {
      queue := [];
    }

    /** A goroutine starts to receive on a marker's channel. */
    method Receive(chan: nat)
      requires Valid()
      modifies this`listening, this`machine, this`trace
      ensures Valid() && listening == old(listening) + multiset{chan}
      ensures machine == Next(old(machine), Listen(chan))
    {
      listening := listening + multiset{chan};
      Did(Listen(chan));
    }

    /** `WaitForFlush` up to the point where it blocks: append a marker, then receive. */
    method WaitForFlush(chan: nat)
      requires Valid()
      modifies this`queue, this`listening, this`machine, this`trace
      ensures Valid() && queue == old(queue) + [Flush(chan)]
      ensures listening == old(listening) + multiset{chan}
      ensures machine.worker == old(machine.worker)
    {
      AppendToQueue(Flush(chan));
      Receive(chan);
    }

    /** The first action of the worker goroutine. */
    method StartWorker()
      requires Valid() && machine.worker.Starting?
      modifies this`queue, this`machine, this`trace
      ensures Valid() && queue == [] && machine == Next(old(machine), Recreate)
    {
      RecreateQueue();
      Did(Recreate);
    }

    /** Appends by other goroutines while the worker is inside `ProcessQueue`. */
    method Others(items: seq<Item>)
      requires Valid()
      modifies this`queue, this`machine, this`trace
      ensures Valid() && queue == old(queue) + items && old(trace) <= trace
      ensures machine == old(machine).(queue := queue, appended := old(machine.appended) + items)
    {
      if items == [] {
        assert queue + items == queue && machine.appended + items == machine.appended;
      } else {
        OneThenRest(queue, items);
        OneThenRest(machine.appended, items);
        AppendToQueue(items[0]);
        Others(items[1..]);
      }
    }

    /** Records the execution of the first `n` statements of the open transaction. */
    ghost method DidExecute(batch: seq<Item>, n: nat)
      requires machine == Run(Initial, trace) && machine.worker == Open(batch, 0)
      requires n <= FirstMarker(batch)
      modifies this`machine, this`trace
      ensures machine == old(machine).(worker := Open(batch, n)) && machine == Run(Initial, trace)
      ensures old(trace) <= trace
    {
      if n > 0 {
        DidExecute(batch, n - 1);
        ExecAdvances(machine, batch, n - 1);
        Did(Exec);
      }
    }

    /** One round of the worker. With `snap` the queue at the copy and `k` the length of its
        prefix before the first marker: the result says which call failed, the log grows by
        `snap[..k]` exactly when the commit took effect, and the queue afterwards is the
        unprocessed rest, marker included, in front of the late arrivals. */
    method ProcessQueue(env: Env) returns (r: Outcome)
      requires Valid() && machine.worker.Idle?
      modifies this`queue, this`listening, this`machine, this`trace, db
      ensures Valid() && old(trace) <= trace
      ensures if r == Blocked then machine.worker.Signalling? else machine.worker.Idle?
      ensures var snap, k := old(queue), FirstMarker(old(queue));
        && (r == ErrBegin <==> snap != [] && !env.beginOk)
        && (r.ErrPresent? || r.ErrExec? <==> snap != [] && env.beginOk && !Clean(env, snap))
        && (r == ErrCommit <==> snap != [] && env.beginOk && Clean(env, snap) && !env.commit.Committed?)
        && (r == Done || r == Blocked ==>
            (r == Blocked <==> k < |snap| && snap[k].chan !in old(listening)))
        && listening == old(listening) - (if r == Done && k < |snap| then multiset{snap[k].chan} else multiset{})
        && db.log == old(db.log) + (if Logged(r, env) then snap[..k] else [])
        && queue == (if r == Done then snap[k..] + env.late
                     else if r == ErrBegin then env.late + snap
                     else env.late)
    {
      var queriesToProcess := TakeSnapshot(env);
      if |queriesToProcess| == 0 {
        return Done;
      }
      if !env.beginOk {
        PutBack(queriesToProcess);
        return ErrBegin;
      }
      Did(BeginOk);
      r := Transact(queriesToProcess, env);
    }

    /** After a failed Begin the whole snapshot goes behind what was appended meanwhile. */
    method PutBack(snap: seq<Item>)
      requires Valid() && machine.worker == Taken(snap)
      modifies this`queue, this`machine, this`trace
      ensures Valid() && old(trace) <= trace && machine.worker.Idle?
      ensures queue == old(queue) + snap
    {
      queue := queue + snap;
      Did(BeginFail);
    }

    /** Copy, then reset, with other goroutines appending in between and after. */
    method TakeSnapshot(env: Env) returns (snap: seq<Item>)
      requires Valid() && machine.worker.Idle?
      modifies this`queue, this`machine, this`trace
      ensures Valid() && old(trace) <= trace
      ensures snap == old(queue) && queue == env.late
      ensures machine.worker == if snap == [] then Idle else Taken(snap)
    {
      snap := queue;
      Did(Copy);
      Others(env.early);
      RecreateQueue();
      Did(Reset);
      Others(env.late);
    }

    /** The open transaction, from its first statement to its commit and the signal. */
    method Transact(batch: seq<Item>, env: Env) returns (r: Outcome)
      requires Valid() && machine.worker == Open(batch, 0)
      modifies this`queue, this`listening, this`machine, this`trace, db
      ensures Valid() && old(trace) <= trace
      ensures if r == Blocked then machine.worker.Signalling? else machine.worker.Idle?
      ensures r != ErrBegin
      ensures var k := FirstMarker(batch);
        && (r.ErrPresent? || r.ErrExec? <==> !Clean(env, batch))
        && (r == ErrCommit <==> Clean(env, batch) && !env.commit.Committed?)
        && (r == Done || r == Blocked ==>
            (r == Blocked <==> k < |batch| && batch[k].chan !in old(listening)))
        && listening == old(listening) - (if r == Done && k < |batch| then multiset{batch[k].chan} else multiset{})
        && db.log == old(db.log) + (if Logged(r, env) then batch[..k] else [])
        && queue == (if r == Done then batch[k..] else []) + old(queue)
    {
      var tx, waitForFlush;
      r, tx, waitForFlush := Execute(batch, env);
      DidExecute(batch, |tx|);
      if r != Done {
        DidFail(batch, |tx|);
        return;
      }
      r := Finish(batch, tx, waitForFlush, env);
    }

    /** The end of a transaction whose statements all executed. */
    method Finish(batch: seq<Item>, tx: seq<Item>, waitForFlush: bool, env: Env) returns (r: Outcome)
      requires Valid() && tx <= batch && AtEnd(batch, |tx|) && machine.worker == Open(batch, |tx|)
      requires waitForFlush <==> |tx| < |batch|
      modifies this`queue, this`listening, this`machine, this`trace, db
      ensures Valid() && old(trace) <= trace
      ensures if r == Blocked then machine.worker.Signalling? else machine.worker.Idle?
      ensures r in {Done, Blocked, ErrCommit} && (r == ErrCommit <==> !env.commit.Committed?)
      ensures env.commit.Committed? ==> (r == Blocked <==> |tx| < |batch| && batch[|tx|].chan !in old(listening))
      ensures listening == old(listening)
        - if r == Done && |tx| < |batch| then multiset{batch[|tx|].chan} else multiset{}
      ensures db.log == old(db.log) + if Logged(r, env) then tx else []
      ensures queue == (if r == Done then batch[|tx|..] else []) + old(queue)
    {
      var reAddRangeStart := |tx|;
      if !env.commit.Committed? {
        CommitError(batch, tx, env.commit);
        return ErrCommit;
      }
      Commit(batch, tx);
      r := Done;
      if waitForFlush {
        r := SignalAndReAdd(batch[reAddRangeStart..]);
      }
    }

    /** A failed statement, or a failed commit when the batch is complete. */
    ghost method DidFail(batch: seq<Item>, n: nat)
      requires machine == Run(Initial, trace) && machine.worker == Open(batch, n)
      modifies this`machine, this`trace
      ensures machine == old(machine).(worker := Idle, lost := old(machine).lost + batch)
      ensures machine == Run(Initial, trace) && old(trace) <= trace
    {
      Did(if AtEnd(batch, n) then CommitFail else ExecFail);
    }

    method Commit(batch: seq<Item>, tx: seq<Item>)
      requires Valid() && tx <= batch && AtEnd(batch, |tx|) && machine.worker == Open(batch, |tx|)
      modifies this`machine, this`trace, db
      ensures Valid() && old(trace) <= trace && db.log == old(db.log) + tx
      ensures machine.worker == if |tx| == |batch| then Idle else Signalling(batch[|tx|..])
    {
      db.log := db.log + tx;
      Did(CommitOk);
    }

    /** A commit that returned an error. */
    method CommitError(batch: seq<Item>, tx: seq<Item>, answer: CommitAnswer)
      requires Valid() && tx <= batch && AtEnd(batch, |tx|) && machine.worker == Open(batch, |tx|)
      requires !answer.Committed?
      modifies this`machine, this`trace, db
      ensures Valid() && old(trace) <= trace && machine.worker.Idle?
      ensures db.log == old(db.log) + if answer.ReplyLost? then tx else []
    {
      if answer.ReplyLost? {
        db.log := db.log + tx;
        Did(CommitLost);
      } else {
        DidFail(batch, |tx|);
      }
    }

    /** Sends on the marker's channel, which blocks unless somebody receives, and puts the
        marker and everything behind it back in front of the queue. */
    method SignalAndReAdd(rest: seq<Item>) returns (r: Outcome)
      requires Valid() && AtMarker(rest, 0) && machine.worker == Signalling(rest)
      modifies this`queue, this`listening, this`machine, this`trace
      ensures Valid() && old(trace) <= trace
      ensures r == if rest[0].chan in old(listening) then Done else Blocked
      ensures if r == Blocked then machine.worker.Signalling? else machine.worker.Idle?
      ensures queue == (if r == Done then rest else []) + old(queue)
      ensures listening == old(listening) - if r == Done then multiset{rest[0].chan} else multiset{}
    {
      if rest[0].chan !in listening {
        return Blocked;
      }
      Rendezvous(rest);
      queue := rest + queue;
      Did(Readd);
      r := Done;
    }

    method Rendezvous(rest: seq<Item>)
      requires Valid() && CanSend(rest, listening) && machine.worker == Signalling(rest)
      modifies this`listening, this`machine, this`trace
      ensures Valid() && old(trace) <= trace && machine.worker == Readding(rest)
      ensures listening == old(listening) - multiset{rest[0].chan}
    {
      listening := listening - multiset{rest[0].chan};
      Did(Send);
    }
  }
}
