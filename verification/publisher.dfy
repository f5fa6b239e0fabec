/** The RabbitMQ publisher: any number of concurrent `SendMessage` calls that declare the
    exchange when the shared flag says it is not connected, try to publish twice and count
    the outcome. A step is one access to shared state; `connect` runs under a lock. */
module Publisher {

  /** Where one call stands; `attempt` is 1 or 2. */
  datatype Pc =
    | Enter | FirstDial
    | Check(attempt: nat) | Dial(attempt: nat) | Publishing(attempt: nat) | Clear(attempt: nat)
    | CountOk | CountBad(retried: bool)
    | Returned(isNil: bool)

  /** The call's own history: publishes made and accepted, and counter increments. */
  datatype Call = Call(pc: Pc, publishes: nat, accepted: nat, ok: nat, bad: nat)

  /** The flag, the counters, and the history of the broker: successful declares, and how
      often the flag was cleared after a failed publish. */
  datatype State = State(
    isConnected: bool, okMessages: nat, badMessages: nat, declares: nat, cleared: nat, calls: seq<Call>)

  const Initial := State(false, 0, 0, 0, 0, [])

  datatype Step =
    | NewCall
    | Look(i: nat)
    | Declare(i: nat, accept: bool)
    | Publish(i: nat, accept: bool)
    | ClearFlag(i: nat)
    | Count(i: nat)

  function After(pc: Pc): Pc {
    match pc
    case FirstDial => Check(1)
    case Dial(n) => Publishing(n)
    case _ => pc
  }

  function WithCall(s: State, i: nat, c: Call): State
    requires i < |s.calls|
  {
    s.(calls := s.calls[i := c])
  }

  /** A step that does not fit the call's position changes nothing. */
  function StepOf(s: State, i: nat, step: Step): State
    requires i < |s.calls|
  {
    var c := s.calls[i];
    match step
    case Look(_) =>
      if c.pc.Enter? then WithCall(s, i, c.(pc := if s.isConnected then Check(1) else FirstDial))
      else if c.pc.Check? then
        WithCall(s, i, c.(pc := if s.isConnected then Publishing(c.pc.attempt) else Dial(c.pc.attempt)))
      else s
    case Declare(_, accept) =>
      if !c.pc.FirstDial? && !c.pc.Dial? then s
      else if s.isConnected || !accept then WithCall(s, i, c.(pc := After(c.pc)))
      else WithCall(s, i, c.(pc := After(c.pc))).(isConnected := true, declares := s.declares + 1)
    case Publish(_, accept) =>
      if !c.pc.Publishing? then s
      else
        var pc := if !accept then Clear(c.pc.attempt) else if c.pc.attempt == 1 then CountOk else CountBad(true);
        WithCall(s, i, c.(pc := pc, publishes := c.publishes + 1,
                          accepted := c.accepted + if accept then 1 else 0))
    case ClearFlag(_) =>
      if !c.pc.Clear? then s
      else WithCall(s, i, c.(pc := if c.pc.attempt == 1 then Check(2) else CountBad(false)))
           .(isConnected := false, cleared := s.cleared + 1)
    case Count(_) =>
      if c.pc.CountOk? then WithCall(s, i, c.(pc := Returned(true), ok := c.ok + 1)).(okMessages := s.okMessages + 1)
      else if c.pc.CountBad? then
        WithCall(s, i, c.(pc := Returned(c.pc.retried), bad := c.bad + 1)).(badMessages := s.badMessages + 1)
      else s
    case NewCall => s
  }

  function Next(s: State, step: Step): State {
    if step.NewCall? then s.(calls := s.calls + [Call(Enter, 0, 0, 0, 0)])
    else if step.i < |s.calls| then StepOf(s, step.i, step)
    else s
  }

  function Run(steps: seq<Step>): State {
    if steps == [] then Initial else Next(Run(steps[..|steps| - 1]), steps[|steps| - 1])
  }

  lemma RunSnoc(steps: seq<Step>, step: Step)
    ensures Run(steps + [step]) == Next(Run(steps), step)
  {
    assert (steps + [step])[..|steps|] == steps;
  }

  // ---- One call ----

  /** The call's history at each position. */
  predicate CallOk(c: Call) {
    match c.pc
    case Enter | FirstDial => c == Call(c.pc, 0, 0, 0, 0)
    case Check(n) => (n == 1 && c == Call(c.pc, 0, 0, 0, 0)) || (n == 2 && c == Call(c.pc, 1, 0, 0, 0))
    case Dial(n) => (n == 1 && c == Call(c.pc, 0, 0, 0, 0)) || (n == 2 && c == Call(c.pc, 1, 0, 0, 0))
    case Publishing(n) => (n == 1 && c == Call(c.pc, 0, 0, 0, 0)) || (n == 2 && c == Call(c.pc, 1, 0, 0, 0))
    case Clear(n) => (n == 1 && c == Call(c.pc, 1, 0, 0, 0)) || (n == 2 && c == Call(c.pc, 2, 0, 0, 0))
    case CountOk => c == Call(c.pc, 1, 1, 0, 0)
    case CountBad(retried) => c == Call(c.pc, 2, if retried then 1 else 0, 0, 0)
    case Returned(isNil) =>
      || c == Call(Returned(true), 1, 1, 1, 0)
      || c == Call(c.pc, 2, if isNil then 1 else 0, 0, 1)
  }

  lemma {:induction false} CallsOk(steps: seq<Step>)
    ensures forall i :: 0 <= i < |Run(steps).calls| ==> CallOk(Run(steps).calls[i])
  {
    if steps != [] {
      CallsOk(steps[..|steps| - 1]);
      NextKeepsCallsOk(Run(steps[..|steps| - 1]), steps[|steps| - 1]);
    }
  }

  lemma NextKeepsCallsOk(s: State, step: Step)
    requires forall i :: 0 <= i < |s.calls| ==> CallOk(s.calls[i])
    ensures forall i :: 0 <= i < |Next(s, step).calls| ==> CallOk(Next(s, step).calls[i])
  {
  }

  /** Every call publishes at most twice and is accepted at most once; it returns nil exactly
      when one publish was accepted, and bumps exactly one counter: the ok counter exactly
      when the first attempt was accepted, so a successful retry counts as bad. */
  lemma CallAccounting(steps: seq<Step>, i: nat)
    requires i < |Run(steps).calls|
    ensures var c := Run(steps).calls[i];
      && c.publishes <= 2 && c.accepted <= 1
      && (c.pc.Returned? ==>
          && (c.pc.isNil <==> c.accepted == 1)
          && c.ok + c.bad == 1
          && (c.ok == 1 <==> c.publishes == 1))
  {
    CallsOk(steps);
  }

  // ---- All calls together ----

  function Sum(calls: seq<Call>, f: Call -> nat): nat {
    if calls == [] then 0 else Sum(calls[..|calls| - 1], f) + f(calls[|calls| - 1])
  }

  lemma SumSnoc(calls: seq<Call>, c: Call, f: Call -> nat)
    ensures Sum(calls + [c], f) == Sum(calls, f) + f(c)
  {
    assert (calls + [c])[..|calls|] == calls;
  }

  lemma {:induction false} SumUpdate(calls: seq<Call>, i: nat, c: Call, f: Call -> nat)
    requires i < |calls|
    ensures Sum(calls[i := c], f) + f(calls[i]) == Sum(calls, f) + f(c)
  {
    var n := |calls| - 1;
    if i == n {
      assert calls[i := c][..n] == calls[..n];
    } else {
      SumUpdate(calls[..n], i, c, f);
      assert calls[i := c][..n] == calls[..n][i := c];
    }
  }

  const OkOf := (c: Call) => c.ok
  const BadOf := (c: Call) => c.bad
  const FailedOf: Call -> nat := (c: Call) => if c.accepted <= c.publishes then c.publishes - c.accepted else 0
  const PendingOf: Call -> nat := (c: Call) => if c.pc.Clear? then 1 else 0

  /** The flag is set only between a successful declare and the next failed publish. */
  predicate FlagOk(s: State) { s.declares + (if s.isConnected then 0 else 1) <= s.cleared + 1 }

  predicate Ledger(s: State) {
    && (forall i :: 0 <= i < |s.calls| ==> CallOk(s.calls[i]))
    && s.okMessages == Sum(s.calls, OkOf)
    && s.badMessages == Sum(s.calls, BadOf)
    && Sum(s.calls, FailedOf) == s.cleared + Sum(s.calls, PendingOf)
    && FlagOk(s)
  }

  predicate Balances(s: State, i: nat, t: State)
    requires i < |s.calls| && |t.calls| == |s.calls|
  {
    var c, d := s.calls[i], t.calls[i];
    && t.calls == s.calls[i := d]
    && t.okMessages - s.okMessages == d.ok - c.ok
    && t.badMessages - s.badMessages == d.bad - c.bad
    && FailedOf(d) - FailedOf(c) == t.cleared - s.cleared + PendingOf(d) - PendingOf(c)
    && FlagOk(t)
  }

  lemma PublishBalances(s: State, i: nat, step: Step)
    requires i < |s.calls| && CallOk(s.calls[i]) && FlagOk(s) && (step.Publish? || step.ClearFlag?)
    ensures Balances(s, i, StepOf(s, i, step))
  {
    assert s.calls[i := s.calls[i]] == s.calls;
  }

  lemma LookBalances(s: State, i: nat, step: Step)
    requires i < |s.calls| && CallOk(s.calls[i]) && FlagOk(s) && (step.Look? || step.Declare?)
    ensures Balances(s, i, StepOf(s, i, step))
  {
    assert s.calls[i := s.calls[i]] == s.calls;
  }

  lemma CountBalances(s: State, i: nat, step: Step)
    requires i < |s.calls| && CallOk(s.calls[i]) && FlagOk(s) && (step.Count? || step.NewCall?)
    ensures Balances(s, i, StepOf(s, i, step))
  {
    assert s.calls[i := s.calls[i]] == s.calls;
  }

  /** The step of one call moves the shared counters by what it adds to the call's own. */
  lemma StepBalances(s: State, i: nat, step: Step)
    requires i < |s.calls| && CallOk(s.calls[i]) && FlagOk(s)
    ensures Balances(s, i, StepOf(s, i, step))
  {
    if step.Publish? || step.ClearFlag? {
      PublishBalances(s, i, step);
    } else if step.Look? || step.Declare? {
      LookBalances(s, i, step);
    } else {
      CountBalances(s, i, step);
    }
  }

  lemma NewCallKeepsLedger(s: State)
    requires Ledger(s)
    ensures Ledger(Next(s, NewCall))
  {
    NextKeepsCallsOk(s, NewCall);
    var c := Call(Enter, 0, 0, 0, 0);
    SumSnoc(s.calls, c, OkOf);
    SumSnoc(s.calls, c, BadOf);
    SumSnoc(s.calls, c, FailedOf);
    SumSnoc(s.calls, c, PendingOf);
  }

  lemma NextKeepsLedger(s: State, step: Step)
    requires Ledger(s)
    ensures Ledger(Next(s, step))
  {
    if step.NewCall? {
      NewCallKeepsLedger(s);
    } else if step.i < |s.calls| {
      NextKeepsCallsOk(s, step);
      StepBalances(s, step.i, step);
      var c := Next(s, step).calls[step.i];
      SumUpdate(s.calls, step.i, c, OkOf);
      SumUpdate(s.calls, step.i, c, BadOf);
      SumUpdate(s.calls, step.i, c, FailedOf);
      SumUpdate(s.calls, step.i, c, PendingOf);
    }
  }

  lemma {:induction false} RunKeepsLedger(steps: seq<Step>)
    ensures Ledger(Run(steps))
  {
    if steps != [] {
      RunKeepsLedger(steps[..|steps| - 1]);
      NextKeepsLedger(Run(steps[..|steps| - 1]), steps[|steps| - 1]);
    }
  }

  /** For any interleaving of callers, the successful declares of the exchange never exceed
      the failed publishes by more than one. */
  lemma DeclaresAreBounded(steps: seq<Step>)
    ensures Run(steps).declares <= Sum(Run(steps).calls, FailedOf) + 1
    ensures forall i :: 0 <= i < |Run(steps).calls| ==>
      FailedOf(Run(steps).calls[i]) == Run(steps).calls[i].publishes - Run(steps).calls[i].accepted
  {
    RunKeepsLedger(steps);
  }

  const AcceptedOf := (c: Call) => c.accepted
  const RetriedOf: Call -> nat := (c: Call) => if c.publishes == 2 then c.accepted else 0

  /** The ok counter falls short of the messages accepted by exactly the successful retries,
      and once all calls have returned the two counters add up to the calls. */
  lemma {:induction false} CountersMissRetries(calls: seq<Call>)
    requires forall i :: 0 <= i < |calls| ==> CallOk(calls[i]) && calls[i].pc.Returned?
    ensures Sum(calls, AcceptedOf) == Sum(calls, OkOf) + Sum(calls, RetriedOf)
    ensures Sum(calls, OkOf) + Sum(calls, BadOf) == |calls|
  {
    if calls != [] {
      CountersMissRetries(calls[..|calls| - 1]);
      assert CallOk(calls[|calls| - 1]);
    }
  }

  lemma CountersOverRun(steps: seq<Step>)
    requires forall i :: 0 <= i < |Run(steps).calls| ==> Run(steps).calls[i].pc.Returned?
    ensures var s := Run(steps);
      && s.okMessages + s.badMessages == |s.calls|
      && Sum(s.calls, AcceptedOf) == s.okMessages + Sum(s.calls, RetriedOf)
  {
    RunKeepsLedger(steps);
    CountersMissRetries(Run(steps).calls);
  }

  // ---- The publisher object ----

  datatype Result = Nil | ErrMarshal | ErrPublish

  /** How the broker answers during one call: the declares before the first attempt, inside
      the first and inside the second, and the two publishes. */
  datatype Env = Env(declares: nat -> bool, publishes: nat -> bool)

  class PublisherObject {
    var isConnected: bool
    var okMessages: nat
    var badMessages: nat
    ghost var machine: State
    ghost var trace: seq<Step>

    ghost predicate Valid() reads this {
      && machine == Run(trace) && isConnected == machine.isConnected
      && okMessages == machine.okMessages && badMessages == machine.badMessages
    }

    constructor ()
      ensures Valid() && machine == Initial
    {
      isConnected, okMessages, badMessages := false, 0, 0;
      machine, trace := Initial, [];
    }

    ghost method Did(step: Step)
      requires machine == Run(trace)
      modifies this`machine, this`trace
      ensures machine == Next(old(machine), step) && machine == Run(trace)
      ensures trace == old(trace) + [step]
    {
      RunSnoc(trace, step);
      machine, trace := Next(machine, step), trace + [step];
    }

    method Connect(ghost i: nat, accept: bool)
      requires Valid() && i < |machine.calls| && (machine.calls[i].pc.FirstDial? || machine.calls[i].pc.Dial?)
      modifies this`isConnected, this`machine, this`trace
      ensures Valid() && isConnected == (old(isConnected) || accept)
      ensures machine == Next(old(machine), Declare(i, accept))
      ensures machine.declares == old(machine).declares + if !old(isConnected) && accept then 1 else 0
    {
      if !isConnected && accept {
        isConnected := true;
      }
      Did(Declare(i, accept));
    }

    /** One attempt of the call: connect if needed, publish, and clear the flag on failure. */
    method SendOnce(ghost i: nat, attempt: nat, env: Env) returns (ok: bool)
      requires Valid() && i < |machine.calls| && machine.calls[i].pc == Check(attempt) && 1 <= attempt <= 2
      modifies this`isConnected, this`machine, this`trace
      ensures Valid() && ok == env.publishes(attempt)
      ensures isConnected == (ok && (old(isConnected) || env.declares(attempt)))
      ensures |machine.calls| == |old(machine).calls| && machine.okMessages == old(machine).okMessages
        && machine.badMessages == old(machine).badMessages
      ensures machine.calls[i].pc == if !ok then (if attempt == 1 then Check(2) else CountBad(false))
                                     else if attempt == 1 then CountOk else CountBad(true)
    {
      var connected := isConnected;
      Did(Look(i));
      if !connected {
        Connect(i, env.declares(attempt));
      }
      ok := PublishOnce(i, attempt, env);
    }

    method PublishOnce(ghost i: nat, attempt: nat, env: Env) returns (ok: bool)
      requires Valid() && i < |machine.calls| && machine.calls[i].pc == Publishing(attempt) && 1 <= attempt <= 2
      modifies this`isConnected, this`machine, this`trace
      ensures Valid() && ok == env.publishes(attempt) && isConnected == (ok && old(isConnected))
      ensures |machine.calls| == |old(machine).calls| && machine.okMessages == old(machine).okMessages
        && machine.badMessages == old(machine).badMessages
      ensures machine.calls[i].pc == if !ok then (if attempt == 1 then Check(2) else CountBad(false))
                                     else if attempt == 1 then CountOk else CountBad(true)
    {
      ok := env.publishes(attempt);
      Did(Publish(i, ok));
      if !ok {
        isConnected := false;
        Did(ClearFlag(i));
      }
    }

    /** The result is nil exactly when one of the two attempts was accepted; the ok counter
        counts the first attempt only. */
    method SendMessage(marshalOk: bool, env: Env) returns (r: Result)
      requires Valid()
      modifies this
      ensures Valid()
      ensures r == ErrMarshal <==> !marshalOk
      ensures !marshalOk ==> machine == old(machine)
      ensures marshalOk ==> (r == Nil <==> env.publishes(1) || env.publishes(2))
      ensures okMessages == old(okMessages) + if marshalOk && env.publishes(1) then 1 else 0
      ensures badMessages == old(badMessages) + if marshalOk && !env.publishes(1) then 1 else 0
      ensures marshalOk ==> isConnected == if env.publishes(1)
        then old(isConnected) || env.declares(0) || env.declares(1)
        else env.publishes(2) && env.declares(2)
      ensures marshalOk ==> |machine.calls| == |old(machine).calls| + 1
      ensures marshalOk ==> machine.calls[|old(machine).calls|].pc == Returned(r == Nil)
    {
      if !marshalOk {
        return ErrMarshal;
      }
      ghost var i := |machine.calls|;
      BeginCall(i, env);
      var ok := SendOnce(i, 1, env);
      if !ok {
        var retried := SendOnce(i, 2, env);
        CountMessage(i, false);
        return if retried then Nil else ErrPublish;
      }
      CountMessage(i, true);
      r := Nil;
    }

    /** The beginning of a call: connect unless the flag says it is done. */
    method BeginCall(ghost i: nat, env: Env)
      requires Valid() && i == |machine.calls|
      modifies this`isConnected, this`machine, this`trace
      ensures Valid() && |machine.calls| == i + 1 && machine.calls[i].pc == Check(1)
      ensures isConnected == (old(isConnected) || env.declares(0))
      ensures machine.okMessages == old(machine).okMessages && machine.badMessages == old(machine).badMessages
    {
      Did(NewCall);
      var connected := isConnected;
      Did(Look(i));
      if !connected {
        Connect(i, env.declares(0));
      }
    }

    method CountMessage(ghost i: nat, ok: bool)
      requires Valid() && i < |machine.calls|
      requires if ok then machine.calls[i].pc.CountOk? else machine.calls[i].pc.CountBad?
      modifies this`okMessages, this`badMessages, this`machine, this`trace
      ensures Valid() && |machine.calls| == |old(machine).calls|
      ensures okMessages == old(okMessages) + if ok then 1 else 0
      ensures badMessages == old(badMessages) + if ok then 0 else 1
      ensures machine.calls[i].pc == Returned(ok || old(machine).calls[i].pc == CountBad(true))
    {
      if ok {
        okMessages := okMessages + 1;
      } else {
        badMessages := badMessages + 1;
      }
      Did(Count(i));
    }
  }
}
