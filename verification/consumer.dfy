/** The RabbitMQ consumer: subscription loops that hand each delivery to a handler and then
    acknowledge it together with everything before it on the channel, and that subscribe
    again when the channel is lost. The broker numbers the deliveries of each channel and
    puts the unacknowledged ones back when the channel closes (AMQP 0-9-1, section 3.1.8). */
module Consumer {

  /** Messages are numbered in the order they were published. */
  type Msg = nat

  datatype Delivery = Delivery(tag: nat, msg: Msg)

  // ---- One subscription loop ----

  datatype Pc = Connecting | Listening | Handling(d: Delivery) | Done

  datatype Event =
    | ConnectFailed | Connected
    | Delivered(d: Delivery)
    | Handled(ok: bool)
    | ChannelClosed(stopped: bool)
    | CtxDone

  datatype Effect = Sleep | Consume(msg: Msg) | AckUpTo(tag: nat) | ShutdownHandler | Resubscribe

  /** The reaction of the loop: an error of the handler is only logged. */
  function OnEvent(pc: Pc, e: Event): (Pc, seq<Effect>) {
    match (pc, e)
    case (Connecting, ConnectFailed) => (Connecting, [Sleep])
    case (Connecting, Connected) => (Listening, [])
    case (Listening, Delivered(d)) => (Handling(d), [Consume(d.msg)])
    case (Handling(d), Handled(_)) => (Listening, [AckUpTo(d.tag)])
    case (Listening, ChannelClosed(stopped)) => (Done, if stopped then [] else [Resubscribe])
    case (Listening, CtxDone) => (Done, [ShutdownHandler])
    case _ => (pc, [])
  }

  // ---- The broker and all loops ----

  /** A channel from the pool serves one queue and one consumer tag, which every subscription
      on it uses; with the empty tag the library makes up a new one each time. */
  datatype Channel = Channel(consumerTag: string, isOpen: bool, lastTag: nat, unacked: map<nat, Msg>)

  /** A loop started for `call`; `chan` is the channel it subscribed on, `buffer` holds the
      deliveries pushed to it and not yet taken. */
  datatype Loop = Loop(call: nat, pc: Pc, chan: int, buffer: seq<Delivery>)

  datatype State = State(
    published: nat, ready: set<Msg>, acked: set<Msg>, channels: seq<Channel>,
    loops: seq<Loop>, calls: nat, consumed: set<Msg>)

  const Initial := State(0, {}, {}, [], [], 0, {})

  datatype Step =
    | Publish | OpenChannel(consumerTag: string) | Lose(ch: nat)
    | Subscribe | Connect(l: nat, ch: nat)
    | Push(l: nat, msg: Msg) | Take(l: nat) | Finish(l: nat, ok: bool)
    | SeeClosed(l: nat, stopped: bool) | Cancel(l: nat)

  predicate On(s: State, l: nat, ch: int) {
    l < |s.loops| && s.loops[l].chan == ch && 0 <= ch < |s.channels|
  }

  function WithLoop(s: State, l: nat, loop: Loop): State
    requires l < |s.loops|
  {
    s.(loops := s.loops[l := loop])
  }

  function WithChannel(s: State, ch: nat, c: Channel): State
    requires ch < |s.channels|
  {
    s.(channels := s.channels[ch := c])
  }

  /** The broker refuses a consumer tag that is in use on the channel, and no subscription is
      ever cancelled while its channel is open. */
  predicate CanSubscribe(s: State, ch: nat) {
    && ch < |s.channels| && s.channels[ch].isOpen
    && (s.channels[ch].consumerTag == "" || !Used(s, ch))
  }

  predicate Used(s: State, ch: int) { exists l :: 0 <= l < |s.loops| && s.loops[l].chan == ch }

  /** basic.ack with `multiple`: every delivery up to the tag is discarded. A closed channel
      refuses it. */
  function Ack(s: State, ch: nat, tag: nat): State
    requires ch < |s.channels|
  {
    var c := s.channels[ch];
    if !c.isOpen then s
    else
      WithChannel(s, ch, c.(unacked := map t | t in c.unacked && tag < t :: c.unacked[t]))
      .(acked := s.acked + set t | t in c.unacked && t <= tag :: c.unacked[t])
  }

  function Next(s: State, step: Step): State {
    match step
    case Publish => s.(published := s.published + 1, ready := s.ready + {s.published})
    case OpenChannel(tag) => s.(channels := s.channels + [Channel(tag, true, 0, map[])])
    case Lose(ch) =>
      if |s.channels| <= ch then s
      else WithChannel(s, ch, s.channels[ch].(isOpen := false, unacked := map[]))
           .(ready := s.ready + s.channels[ch].unacked.Values)
    case Subscribe =>
      s.(calls := s.calls + 1, loops := s.loops + [Loop(s.calls, Connecting, -1, [])])
    case Connect(l, ch) =>
      if l < |s.loops| && s.loops[l].pc.Connecting? && CanSubscribe(s, ch)
      then WithLoop(s, l, s.loops[l].(pc := OnEvent(Connecting, Connected).0, chan := ch))
      else s
    case Push(l, msg) =>
      if l < |s.loops| && On(s, l, s.loops[l].chan) && s.channels[s.loops[l].chan].isOpen && msg in s.ready
      then
        var ch := s.loops[l].chan;
        var c := s.channels[ch];
        var tag := c.lastTag + 1;
        WithLoop(WithChannel(s, ch, c.(lastTag := tag, unacked := c.unacked[tag := msg])), l,
                 s.loops[l].(buffer := s.loops[l].buffer + [Delivery(tag, msg)]))
        .(ready := s.ready - {msg})
      else s
    case Take(l) =>
      if l < |s.loops| && s.loops[l].pc.Listening? && s.loops[l].buffer != []
      then
        var d := s.loops[l].buffer[0];
        WithLoop(s, l, s.loops[l].(pc := OnEvent(Listening, Delivered(d)).0, buffer := s.loops[l].buffer[1..]))
        .(consumed := s.consumed + {d.msg})
      else s
    case Finish(l, ok) =>
      if l < |s.loops| && s.loops[l].pc.Handling? && On(s, l, s.loops[l].chan)
      then
        var d := s.loops[l].pc.d;
        Ack(WithLoop(s, l, s.loops[l].(pc := OnEvent(Handling(d), Handled(ok)).0)), s.loops[l].chan, d.tag)
      else s
    case SeeClosed(l, stopped) =>
      if l < |s.loops| && s.loops[l].pc.Listening? && On(s, l, s.loops[l].chan)
         && !s.channels[s.loops[l].chan].isOpen
      then
        var (pc, effects) := OnEvent(Listening, ChannelClosed(stopped));
        var t := WithLoop(s, l, s.loops[l].(pc := pc));
        if effects == [Resubscribe]
        then t.(loops := t.loops + [Loop(s.loops[l].call, Connecting, -1, [])]) else t
      else s
    case Cancel(l) =>
      if l < |s.loops| && s.loops[l].pc.Listening?
      then WithLoop(s, l, s.loops[l].(pc := OnEvent(Listening, CtxDone).0)) else s
  }

  function Run(s: State, steps: seq<Step>): State {
    if steps == [] then s else Next(Run(s, steps[..|steps| - 1]), steps[|steps| - 1])
  }

  lemma RunSnoc(s: State, steps: seq<Step>, step: Step)
    ensures Run(s, steps + [step]) == Next(Run(s, steps), step)
  {
    assert (steps + [step])[..|steps|] == steps;
  }

  // ---- No message is lost ----

  predicate Unacked(s: State, m: Msg) {
    exists ch :: 0 <= ch < |s.channels| && m in s.channels[ch].unacked.Values
  }

  /** Delivery tags are handed out in order on each channel. */
  predicate TagsOk(c: Channel) { forall t :: t in c.unacked ==> t <= c.lastTag }

  predicate Kept(s: State) {
    && (forall ch :: 0 <= ch < |s.channels| ==> TagsOk(s.channels[ch]))
    && (forall m :: 0 <= m < s.published ==> m in s.ready || m in s.acked || Unacked(s, m))
  }

  lemma NextKeepsTags(s: State, step: Step)
    requires forall ch :: 0 <= ch < |s.channels| ==> TagsOk(s.channels[ch])
    ensures var t := Next(s, step); forall ch :: 0 <= ch < |t.channels| ==> TagsOk(t.channels[ch])
  {
  }

  lemma NextKeepsKept(s: State, step: Step)
    requires Kept(s)
    ensures Kept(Next(s, step))
  {
    var t := Next(s, step);
    NextKeepsTags(s, step);
    forall m | 0 <= m < t.published ensures m in t.ready || m in t.acked || Unacked(t, m) {
      if m < s.published && m !in s.ready && m !in s.acked {
        var ch :| 0 <= ch < |s.channels| && m in s.channels[ch].unacked.Values;
        StaysKept(s, step, m, ch);
      } else if step.Push? && m == step.msg && t != s {
        var ch := s.loops[step.l].chan;
        assert m == t.channels[ch].unacked[t.channels[ch].lastTag];
      }
    }
  }

  lemma StaysKept(s: State, step: Step, m: Msg, ch: nat)
    requires ch < |s.channels| && m in s.channels[ch].unacked.Values && TagsOk(s.channels[ch])
    ensures var t := Next(s, step); m in t.ready || m in t.acked || Unacked(t, m)
  {
    var t := Next(s, step);
    var tag :| tag in s.channels[ch].unacked && s.channels[ch].unacked[tag] == m;
    assert ch < |t.channels|;
    if tag in t.channels[ch].unacked && t.channels[ch].unacked[tag] == m {
      assert m in t.channels[ch].unacked.Values;
    }
  }

  lemma {:induction false} RunKeepsKept(steps: seq<Step>)
    ensures Kept(Run(Initial, steps))
  {
    if steps != [] {
      RunKeepsKept(steps[..|steps| - 1]);
      NextKeepsKept(Run(Initial, steps[..|steps| - 1]), steps[|steps| - 1]);
    }
  }

  // ---- At least once ----

  /** Each channel carries at most one subscription, past ones included. */
  predicate Exclusive(s: State) {
    forall i, j :: 0 <= i < j < |s.loops| && s.loops[i].chan >= 0 ==> s.loops[i].chan != s.loops[j].chan
  }

  predicate Sorted(buffer: seq<Delivery>, after: nat, upTo: nat) {
    && (forall i :: 0 <= i < |buffer| ==> after < buffer[i].tag <= upTo)
    && (forall i, j :: 0 <= i < j < |buffer| ==> buffer[i].tag < buffer[j].tag)
  }

  /** The loop handles the deliveries of its channel in order, so whatever is not
      acknowledged has been consumed or still lies in the buffer, behind the delivery that
      is being handled. */
  predicate LoopOk(s: State, l: Loop) {
    && -1 <= l.chan < |s.channels|
    && (l.chan < 0 ==> l.buffer == [] && l.pc.Connecting?)
    && (l.pc.Connecting? ==> l.chan < 0)
    && (l.chan >= 0 ==>
        var c := s.channels[l.chan];
        && Sorted(l.buffer, if l.pc.Handling? then l.pc.d.tag else 0, c.lastTag)
        && (l.pc.Handling? ==> l.pc.d.tag <= c.lastTag)
        && (forall t :: t in c.unacked ==> c.unacked[t] in s.consumed || Delivery(t, c.unacked[t]) in l.buffer))
  }

  predicate Safe(s: State) {
    && s.acked <= s.consumed
    && (forall l :: 0 <= l < |s.loops| ==> LoopOk(s, s.loops[l]))
    && (forall ch :: 0 <= ch < |s.channels| && !Used(s, ch) ==> s.channels[ch].unacked == map[])
  }

  /** A loop subscribes once: it has a channel exactly when it is past connecting. */
  predicate Bound(s: State) { forall l :: 0 <= l < |s.loops| ==> BoundLoop(s, l) }

  predicate BoundLoop(s: State, l: nat)
    requires l < |s.loops|
  {
    -1 <= s.loops[l].chan < |s.channels| && (s.loops[l].pc.Connecting? <==> s.loops[l].chan < 0)
  }

  lemma LoopStaysBound(s: State, step: Step, l: nat)
    requires l < |Next(s, step).loops| && (l < |s.loops| ==> BoundLoop(s, l))
    ensures BoundLoop(Next(s, step), l)
  {
  }

  lemma NextKeepsBound(s: State, step: Step)
    requires Bound(s)
    ensures Bound(Next(s, step))
  {
    forall l | 0 <= l < |Next(s, step).loops| ensures BoundLoop(Next(s, step), l) {
      LoopStaysBound(s, step, l);
    }
  }

  lemma {:induction false} RunKeepsBound(steps: seq<Step>)
    ensures Bound(Run(Initial, steps))
  {
    if steps != [] {
      RunKeepsBound(steps[..|steps| - 1]);
      NextKeepsBound(Run(Initial, steps[..|steps| - 1]), steps[|steps| - 1]);
    }
  }

  lemma EarlierExclusive(s: State, step: Step)
    requires Exclusive(Next(s, step)) && Bound(s)
    ensures Exclusive(s)
  {
    var t := Next(s, step);
    forall l | 0 <= l < |s.loops|
      ensures l < |t.loops| && (s.loops[l].chan >= 0 ==> t.loops[l].chan == s.loops[l].chan)
    {
      assert BoundLoop(s, l);
    }
    forall i, j | 0 <= i < j < |s.loops| && s.loops[i].chan >= 0
      ensures s.loops[i].chan != s.loops[j].chan
    {
      assert t.loops[i].chan != t.loops[j].chan;
    }
  }

  /** What a loop keeps when its channel, its buffer and its position are left alone. */
  lemma LoopKept(s: State, t: State, l: Loop)
    requires LoopOk(s, l) && s.consumed <= t.consumed && |s.channels| <= |t.channels|
    requires l.chan >= 0 ==> 
      || t.channels[l.chan] == s.channels[l.chan]
      || (t.channels[l.chan].unacked == map[] && t.channels[l.chan].lastTag == s.channels[l.chan].lastTag)
    ensures LoopOk(t, l)
  {
  }

  /** A step of loop `x` on its own channel leaves the rest as it was. */
  lemma SafeAfter(s: State, t: State, x: nat)
    requires Safe(s) && x < |s.loops| && |t.loops| == |s.loops| && |t.channels| == |s.channels|
    requires Exclusive(t) && t.loops[x].chan >= 0
    requires s.loops[x].chan == t.loops[x].chan || s.loops[x].chan < 0
    requires forall l :: 0 <= l < |s.loops| && l != x ==> t.loops[l] == s.loops[l]
    requires forall ch :: 0 <= ch < |s.channels| && ch != t.loops[x].chan ==> t.channels[ch] == s.channels[ch]
    requires s.consumed <= t.consumed && t.acked <= t.consumed && LoopOk(t, t.loops[x])
    ensures Safe(t)
  {
    forall l | 0 <= l < |t.loops| ensures LoopOk(t, t.loops[l]) {
      if l != x {
        assert t.loops[l].chan != t.loops[x].chan;
        LoopKept(s, t, s.loops[l]);
      }
    }
    forall ch | 0 <= ch < |t.channels| && !Used(t, ch) ensures t.channels[ch].unacked == map[] {
      assert forall l :: 0 <= l < |s.loops| && s.loops[l].chan >= 0 ==> t.loops[l].chan == s.loops[l].chan;
    }
  }

  lemma TakeKeepsSafe(s: State, l: nat)
    requires Safe(s) && Exclusive(Next(s, Take(l)))
    ensures Safe(Next(s, Take(l)))
  {
    var t := Next(s, Take(l));
    if t != s {
      assert LoopOk(s, s.loops[l]);
      SafeAfter(s, t, l);
    }
  }

  lemma PushKeepsSafe(s: State, l: nat, msg: Msg)
    requires Safe(s) && Exclusive(Next(s, Push(l, msg))) && Kept(s)
    ensures Safe(Next(s, Push(l, msg)))
  {
    var t := Next(s, Push(l, msg));
    if t != s {
      var before, after := s.loops[l], t.loops[l];
      assert LoopOk(s, before);
      forall u | u in t.channels[before.chan].unacked
        ensures t.channels[before.chan].unacked[u] in t.consumed
          || Delivery(u, t.channels[before.chan].unacked[u]) in after.buffer
      {
        if u == t.channels[before.chan].lastTag {
          assert after.buffer[|before.buffer|] == Delivery(u, msg);
        } else {
          assert u in s.channels[before.chan].unacked;
          assert before.buffer <= after.buffer;
        }
      }
      SafeAfter(s, t, l);
    }
  }

  /** The acknowledgement discards consumed messages only: everything up to the tag lies
      before the buffer. */
  lemma AckIsConsumed(s: State, l: Loop)
    requires LoopOk(s, l) && l.pc.Handling? && l.chan >= 0 && s.acked <= s.consumed
    ensures Ack(s, l.chan, l.pc.d.tag).acked <= s.consumed
  {
    var c := s.channels[l.chan];
    assert forall d :: d in l.buffer ==> l.pc.d.tag < d.tag;
  }

  lemma FinishKeepsSafe(s: State, l: nat, ok: bool)
    requires Safe(s) && Exclusive(Next(s, Finish(l, ok)))
    ensures Safe(Next(s, Finish(l, ok)))
  {
    var t := Next(s, Finish(l, ok));
    if t != s {
      assert LoopOk(s, s.loops[l]);
      AckIsConsumed(s, s.loops[l]);
      SafeAfter(s, t, l);
    }
  }

  lemma ConnectKeepsSafe(s: State, l: nat, ch: nat)
    requires Safe(s) && Exclusive(Next(s, Connect(l, ch)))
    ensures Safe(Next(s, Connect(l, ch)))
  {
    var t := Next(s, Connect(l, ch));
    if t != s {
      assert LoopOk(s, s.loops[l]);
      assert forall k :: 0 <= k < |s.loops| && k != l ==> s.loops[k].chan == t.loops[k].chan != ch;
      SafeAfter(s, t, l);
    }
  }

  /** The remaining steps touch neither a buffer nor what is consumed or discarded. */
  predicate Plain(step: Step) {
    step.Publish? || step.OpenChannel? || step.Lose? || step.Subscribe? || step.SeeClosed? || step.Cancel?
  }

  lemma PlainKeepsLoops(s: State, step: Step)
    requires Plain(step) && forall l :: 0 <= l < |s.loops| ==> LoopOk(s, s.loops[l])
    ensures var t := Next(s, step); forall l :: 0 <= l < |t.loops| ==> LoopOk(t, t.loops[l])
  {
    var t := Next(s, step);
    forall l | 0 <= l < |t.loops| ensures LoopOk(t, t.loops[l]) {
      if l < |s.loops| {
        LoopKept(s, t, s.loops[l]);
      }
    }
  }

  lemma PlainKeepsUnused(s: State, step: Step, ch: int)
    requires Plain(step) && 0 <= ch < |Next(s, step).channels| && !Used(Next(s, step), ch)
    requires ch < |s.channels| && !Used(s, ch) ==> s.channels[ch].unacked == map[]
    ensures Next(s, step).channels[ch].unacked == map[]
  {
    var t := Next(s, step);
    assert forall l :: 0 <= l < |s.loops| ==> t.loops[l].chan == s.loops[l].chan;
  }

  lemma PlainKeepsSafe(s: State, step: Step)
    requires Safe(s) && Plain(step)
    ensures Safe(Next(s, step))
  {
    var t := Next(s, step);
    PlainKeepsLoops(s, step);
    forall ch | 0 <= ch < |t.channels| && !Used(t, ch) ensures t.channels[ch].unacked == map[] {
      PlainKeepsUnused(s, step, ch);
    }
  }

  lemma {:induction false} RunKeepsSafe(steps: seq<Step>)
    requires Exclusive(Run(Initial, steps))
    ensures Safe(Run(Initial, steps))
  {
    if steps != [] {
      var before, step := steps[..|steps| - 1], steps[|steps| - 1];
      RunKeepsBound(before);
      EarlierExclusive(Run(Initial, before), step);
      RunKeepsSafe(before);
      RunKeepsKept(before);
      var s := Run(Initial, before);
      match step
      case Connect(l, ch) => ConnectKeepsSafe(s, l, ch);
      case Push(l, msg) => PushKeepsSafe(s, l, msg);
      case Take(l) => TakeKeepsSafe(s, l);
      case Finish(l, ok) => FinishKeepsSafe(s, l, ok);
      case _ => PlainKeepsSafe(s, step);
    }
  }

  /** No message is lost: each one published is at the broker, ready or waiting for its
      acknowledgement, or was acknowledged. */
  lemma NoMessageLost(steps: seq<Step>, m: Msg)
    requires m < Run(Initial, steps).published
    ensures var s := Run(Initial, steps); m in s.ready || m in s.acked || Unacked(s, m)
  {
    RunKeepsKept(steps);
  }

  /** At least once: with one subscription per channel, every message the broker discarded
      as acknowledged was handed to the handler before. */
  lemma AtLeastOnce(steps: seq<Step>)
    requires Exclusive(Run(Initial, steps))
    ensures Run(Initial, steps).acked <= Run(Initial, steps).consumed
  {
    RunKeepsSafe(steps);
  }

  /** A call of `Subscribe` has at most one active loop, however often it reconnects. */
  predicate OneActive(s: State) {
    && (forall l :: 0 <= l < |s.loops| ==> s.loops[l].call < s.calls)
    && (forall i, j :: 0 <= i < j < |s.loops| && s.loops[i].call == s.loops[j].call ==>
        s.loops[i].pc.Done? || s.loops[j].pc.Done?)
  }

  lemma NextKeepsOneActive(s: State, step: Step)
    requires OneActive(s)
    ensures OneActive(Next(s, step))
  {
    var t := Next(s, step);
    LoopsGrow(s, step);
    if step.SeeClosed? && t != s {
      assert t.loops[step.l].pc.Done?;
    }
  }

  /** No loop changes its call or comes back to life, and a loop is added only for a new
      call or for the call of the loop that just ended. */
  lemma LoopsGrow(s: State, step: Step)
    ensures var t := Next(s, step);
      && |s.loops| <= |t.loops| <= |s.loops| + 1 && s.calls <= t.calls
      && (forall l :: 0 <= l < |s.loops| ==> t.loops[l].call == s.loops[l].call)
      && (forall l :: 0 <= l < |s.loops| && s.loops[l].pc.Done? ==> t.loops[l].pc.Done?)
      && (|t.loops| > |s.loops| ==>
          || (t.loops[|s.loops|].call == s.calls < t.calls)
          || (step.SeeClosed? && step.l < |s.loops| && t.loops[|s.loops|].call == s.loops[step.l].call
              && !s.loops[step.l].pc.Done?))
  {
  }

  lemma {:induction false} OneActiveLoop(steps: seq<Step>)
    ensures OneActive(Run(Initial, steps))
  {
    if steps != [] {
      OneActiveLoop(steps[..|steps| - 1]);
      NextKeepsOneActive(Run(Initial, steps[..|steps| - 1]), steps[|steps| - 1]);
    }
  }

  /** A listening loop whose context is cancelled ends for good and starts no other. */
  lemma {:induction false} CancelledLoopStops(s: State, l: nat, more: seq<Step>)
    requires l < |s.loops| && s.loops[l].pc.Listening?
    ensures |Next(s, Cancel(l)).loops| == |s.loops|
    ensures var t := Run(Next(s, Cancel(l)), more); l < |t.loops| && t.loops[l].pc.Done?
  {
    if more != [] {
      CancelledLoopStops(s, l, more[..|more| - 1]);
      LoopsGrow(Run(Next(s, Cancel(l)), more[..|more| - 1]), more[|more| - 1]);
    }
  }

  // ---- After a lost channel ----

  /** A message that was waiting for its acknowledgement when a listening loop lost its channel
      is handed over in some continuation, by a new loop of the same call. */
  lemma {:induction false} RequeuedIsHandedOver(steps: seq<Step>, l: nat, tag: string, m: Msg)
    requires var s := Run(Initial, steps);
      && l < |s.loops| && s.loops[l].pc.Listening? && On(s, l, s.loops[l].chan)
      && m in s.channels[s.loops[l].chan].unacked.Values
    ensures var s := Run(Initial, steps);
      exists more :: HandsOver(s, more, |s.loops|, s.loops[l].call, m)
  {
    RunKeepsBound(steps);
    var s := Run(Initial, steps);
    var a := Next(s, Lose(s.loops[l].chan));
    var b := Next(a, SeeClosed(l, false));
    var c := Next(b, OpenChannel(tag));
    LostAndReplaced(s, l, tag, m);
    var u := Next(Next(c, Connect(|s.loops|, |s.channels|)), Push(|s.loops|, m));
    TakenFromNewChannel(c, |s.loops|, |s.channels|, m);
    var more: seq<Step> := [];
    RunCons(u, Take(|s.loops|), more);
    more := [Take(|s.loops|)] + more;
    RunCons(Next(c, Connect(|s.loops|, |s.channels|)), Push(|s.loops|, m), more);
    more := [Push(|s.loops|, m)] + more;
    RunCons(c, Connect(|s.loops|, |s.channels|), more);
    more := [Connect(|s.loops|, |s.channels|)] + more;
    RunCons(b, OpenChannel(tag), more);
    more := [OpenChannel(tag)] + more;
    RunCons(a, SeeClosed(l, false), more);
    more := [SeeClosed(l, false)] + more;
    RunCons(s, Lose(s.loops[l].chan), more);
    more := [Lose(s.loops[l].chan)] + more;
    assert HandsOver(s, more, |s.loops|, s.loops[l].call, m);
  }

  /** After `steps` loop `n` belongs to the call and has handed over the message. */
  predicate HandsOver(s: State, steps: seq<Step>, n: nat, call: nat, m: Msg) {
    var t := Run(s, steps);
    n < |t.loops| && t.loops[n].call == call && t.loops[n].pc.Handling? && t.loops[n].pc.d.msg == m
    && m in t.consumed
  }

  /** The loop `n` waits for a channel, channel `ch` is open and unused, and `m` is ready. */
  predicate Waiting(s: State, n: nat, ch: nat, call: nat, m: Msg) {
    && n < |s.loops| && s.loops[n] == Loop(call, Connecting, -1, [])
    && ch < |s.channels| && s.channels[ch].isOpen && !Used(s, ch) && m in s.ready
  }

  lemma LostAndReplaced(s: State, l: nat, tag: string, m: Msg)
    requires Bound(s) && l < |s.loops| && s.loops[l].pc.Listening? && On(s, l, s.loops[l].chan)
    requires m in s.channels[s.loops[l].chan].unacked.Values
    ensures var c := Next(Next(Next(s, Lose(s.loops[l].chan)), SeeClosed(l, false)), OpenChannel(tag));
      Waiting(c, |s.loops|, |s.channels|, s.loops[l].call, m)
  {
    var c := Next(Next(Next(s, Lose(s.loops[l].chan)), SeeClosed(l, false)), OpenChannel(tag));
    forall k | 0 <= k < |c.loops| ensures c.loops[k].chan != |s.channels| {
      if k < |s.loops| { assert BoundLoop(s, k); }
    }
  }

  lemma TakenFromNewChannel(s: State, n: nat, ch: nat, m: Msg)
    requires n < |s.loops| && Waiting(s, n, ch, s.loops[n].call, m)
    ensures var t := Next(Next(Next(s, Connect(n, ch)), Push(n, m)), Take(n));
      && n < |t.loops| && t.loops[n].call == s.loops[n].call && t.loops[n].pc.Handling?
      && t.loops[n].pc.d.msg == m && m in t.consumed
  {
  }

  // ---- Two subscriptions on one channel ----

  /** The acknowledgement of one subscription covers the earlier deliveries of the other:
      the broker discards a message that nobody has been handed. */
  lemma SharedChannelDiscards(s: State, a: nat, b: nat, d: Delivery, ok: bool)
    requires a < |s.loops| && b < |s.loops| && a != b && s.loops[a].chan == s.loops[b].chan
    requires On(s, a, s.loops[a].chan) && s.channels[s.loops[a].chan].isOpen
    requires d.tag in s.channels[s.loops[a].chan].unacked
      && s.channels[s.loops[a].chan].unacked[d.tag] == d.msg && d.msg !in s.consumed
    requires s.loops[b].pc.Handling? && d.tag <= s.loops[b].pc.d.tag
    ensures var t := Next(s, Finish(b, ok)); d.msg in t.acked && d.msg !in t.consumed
  {
  }

  // What it takes: the messages that exist are numbered below `published`.

  predicate Known(s: State) {
    && (forall m :: m in s.consumed ==> m < s.published)
    && (forall m :: m in s.ready ==> m < s.published)
    && (forall ch :: 0 <= ch < |s.channels| ==> KnownIn(s.channels[ch], s.published))
    && (forall l :: 0 <= l < |s.loops| ==> Below(s.loops[l].buffer, s.published))
  }

  predicate KnownIn(c: Channel, published: nat) { forall t :: t in c.unacked ==> c.unacked[t] < published }

  predicate Below(buffer: seq<Delivery>, published: nat) {
    forall i :: 0 <= i < |buffer| ==> buffer[i].msg < published
  }

  lemma NextKeepsKnown(s: State, step: Step)
    requires Known(s)
    ensures Known(Next(s, step))
  {
    var t := Next(s, step);
    SetsStayKnown(s, step);
    forall ch | 0 <= ch < |t.channels| ensures KnownIn(t.channels[ch], t.published) {
      ChannelStaysKnown(s, step, ch);
    }
    forall l | 0 <= l < |t.loops| ensures Below(t.loops[l].buffer, t.published) {
      BufferStaysKnown(s, step, l);
    }
  }

  lemma SetsStayKnown(s: State, step: Step)
    requires Known(s)
    ensures var t := Next(s, step);
      && s.published <= t.published
      && (forall m :: m in t.consumed ==> m < t.published)
      && (forall m :: m in t.ready ==> m < t.published)
  {
    if step.Lose? && step.ch < |s.channels| { assert KnownIn(s.channels[step.ch], s.published); }
    if step.Take? && step.l < |s.loops| { assert Below(s.loops[step.l].buffer, s.published); }
  }

  lemma ChannelStaysKnown(s: State, step: Step, ch: nat)
    requires Known(s) && ch < |Next(s, step).channels|
    ensures KnownIn(Next(s, step).channels[ch], Next(s, step).published)
  {
    if ch < |s.channels| { assert KnownIn(s.channels[ch], s.published); }
  }

  lemma BufferStaysKnown(s: State, step: Step, l: nat)
    requires Known(s) && l < |Next(s, step).loops|
    ensures Below(Next(s, step).loops[l].buffer, Next(s, step).published)
  {
    if l < |s.loops| { assert Below(s.loops[l].buffer, s.published); }
  }

  lemma {:induction false} RunKeepsKnown(steps: seq<Step>)
    ensures Known(Run(Initial, steps))
  {
    if steps != [] {
      RunKeepsKnown(steps[..|steps| - 1]);
      NextKeepsKnown(Run(Initial, steps[..|steps| - 1]), steps[|steps| - 1]);
    }
  }

  predicate OpensNothing(steps: seq<Step>) { forall k :: 0 <= k < |steps| ==> !steps[k].OpenChannel? }

  /** After `steps` the broker has discarded message `m` and nobody was handed it. */
  predicate Discards(s: State, steps: seq<Step>, m: Msg) {
    m in Run(s, steps).acked && m !in Run(s, steps).consumed
  }

  lemma {:induction false} RunCons(s: State, step: Step, steps: seq<Step>)
    ensures Run(s, [step] + steps) == Run(Next(s, step), steps)
  {
    if steps == [] {
      RunSnoc(s, [], step);
      assert [] + [step] == [step] + steps;
    } else {
      var init, last := steps[..|steps| - 1], steps[|steps| - 1];
      RunCons(s, step, init);
      RunSnoc(s, [step] + init, last);
      assert [step] + steps == [step] + init + [last];
    }
  }

  function Todo(l: Loop): seq<Delivery> { (if l.pc.Handling? then [l.pc.d] else []) + l.buffer }

  /** Loop `b` works on an open channel on which message `m` waits under tag `tag` without
      ever being handed out, and its last delivery carries a later tag. */
  predicate Draining(s: State, b: nat, m: Msg, tag: nat) {
    && b < |s.loops| && On(s, b, s.loops[b].chan) && s.channels[s.loops[b].chan].isOpen
    && (s.loops[b].pc.Listening? || s.loops[b].pc.Handling?)
    && Todo(s.loops[b]) != [] && Todo(s.loops[b])[|Todo(s.loops[b])| - 1].tag >= tag
    && m !in s.consumed && (forall d :: d in s.loops[b].buffer ==> d.msg != m)
    && (m in s.acked || Waits(s.channels[s.loops[b].chan], tag, m))
  }

  predicate Waits(c: Channel, tag: nat, m: Msg) { tag in c.unacked && c.unacked[tag] == m }

  lemma TakeDrains(s: State, b: nat, m: Msg, tag: nat)
    requires Draining(s, b, m, tag) && s.loops[b].pc.Listening?
    ensures Draining(Next(s, Take(b)), b, m, tag)
    ensures Todo(Next(s, Take(b)).loops[b]) == Todo(s.loops[b])
  {
    var l := s.loops[b];
    assert l.buffer == [l.buffer[0]] + l.buffer[1..];
    assert Todo(Next(s, Take(b)).loops[b]) == [l.buffer[0]] + l.buffer[1..];
  }

  lemma FinishDrains(s: State, b: nat, m: Msg, tag: nat)
    requires Draining(s, b, m, tag) && s.loops[b].pc.Handling?
    ensures var t := Next(s, Finish(b, true));
      if s.loops[b].buffer == [] then m in t.acked && m !in t.consumed
      else Draining(t, b, m, tag) && Todo(t.loops[b]) == s.loops[b].buffer
  {
    AckOrWait(s, s.loops[b].chan, s.loops[b].pc.d.tag, m, tag);
  }

  lemma AckOrWait(s: State, ch: nat, upTo: nat, m: Msg, tag: nat)
    requires ch < |s.channels| && s.channels[ch].isOpen
    requires m in s.acked || Waits(s.channels[ch], tag, m)
    ensures m in Ack(s, ch, upTo).acked || (upTo < tag && Waits(Ack(s, ch, upTo).channels[ch], tag, m))
  {
  }

  /** Working off the buffer ends with an acknowledgement that covers `m`. */
  lemma {:induction false} Drain(s: State, b: nat, m: Msg, tag: nat) returns (more: seq<Step>)
    requires Draining(s, b, m, tag)
    ensures OpensNothing(more) && Discards(s, more, m)
    decreases |Todo(s.loops[b])|, s.loops[b].pc.Listening?
  {
    var step := if s.loops[b].pc.Listening? then Take(b) else Finish(b, true);
    var t := Next(s, step);
    more := [];
    if s.loops[b].pc.Listening? {
      TakeDrains(s, b, m, tag);
      more := Drain(t, b, m, tag);
    } else {
      FinishDrains(s, b, m, tag);
      if s.loops[b].buffer != [] {
        more := Drain(t, b, m, tag);
      }
    }
    RunCons(s, step, more);
    more := [step] + more;
  }

  /** Whenever an open channel carries two subscriptions and one of their loops is at work,
      some continuation discards a message nobody was handed: it is published, pushed to the
      other subscription, and overtaken. */
  lemma {:induction false} SharedChannelLosesMessage(steps: seq<Step>, a: nat, b: nat)
    requires var s := Run(Initial, steps);
      && a < |s.loops| && b < |s.loops| && a != b && s.loops[a].chan == s.loops[b].chan
      && On(s, b, s.loops[b].chan) && s.channels[s.loops[b].chan].isOpen
      && (s.loops[b].pc.Listening? || s.loops[b].pc.Handling?)
    ensures exists more, m :: Discards(Run(Initial, steps), more, m)
  {
    RunKeepsKnown(steps);
    var more, m := LosingSteps(Run(Initial, steps), a, b);
  }

  lemma LosingSteps(s: State, a: nat, b: nat) returns (more: seq<Step>, m: Msg)
    requires Known(s) && a < |s.loops| && b < |s.loops| && a != b && s.loops[a].chan == s.loops[b].chan
    requires On(s, b, s.loops[b].chan) && s.channels[s.loops[b].chan].isOpen
    requires s.loops[b].pc.Listening? || s.loops[b].pc.Handling?
    ensures OpensNothing(more) && Discards(s, more, m)
  {
    m := s.published;
    var t := Next(Next(s, Publish), Push(a, m));
    var u := Next(Next(t, Publish), Push(b, m + 1));
    PushedToOther(s, a, b);
    PushedToThis(s, t, b, m);
    more := Drain(u, b, m, s.channels[s.loops[b].chan].lastTag + 1);
    RunCons(Next(t, Publish), Push(b, m + 1), more);
    more := [Push(b, m + 1)] + more;
    RunCons(t, Publish, more);
    more := [Publish] + more;
    RunCons(Next(s, Publish), Push(a, m), more);
    more := [Push(a, m)] + more;
    RunCons(s, Publish, more);
    more := [Publish] + more;
  }

  /** What the first push leaves of the other loop and the channel. */
  predicate Planted(s: State, t: State, b: nat, m: Msg) {
    && b < |s.loops| && |t.loops| == |s.loops| && t.loops[b] == s.loops[b] && On(s, b, s.loops[b].chan)
    && |t.channels| == |s.channels| && t.published == m + 1 && t.consumed == s.consumed
    && var c := s.channels[s.loops[b].chan];
       t.channels[s.loops[b].chan]
       == c.(lastTag := c.lastTag + 1, unacked := c.unacked[c.lastTag + 1 := m])
  }

  lemma PushedToOther(s: State, a: nat, b: nat)
    requires a < |s.loops| && b < |s.loops| && a != b && s.loops[a].chan == s.loops[b].chan
    requires On(s, b, s.loops[b].chan) && s.channels[s.loops[b].chan].isOpen
    ensures Planted(s, Next(Next(s, Publish), Push(a, s.published)), b, s.published)
  {
  }

  lemma PushedToThis(s: State, t: State, b: nat, m: Msg)
    requires Planted(s, t, b, m) && m !in s.consumed && Below(s.loops[b].buffer, m)
    requires s.channels[s.loops[b].chan].isOpen && (s.loops[b].pc.Listening? || s.loops[b].pc.Handling?)
    ensures Draining(Next(Next(t, Publish), Push(b, m + 1)), b, m, s.channels[s.loops[b].chan].lastTag + 1)
  {
    var u := Next(Next(t, Publish), Push(b, m + 1));
    var last := s.channels[s.loops[b].chan].lastTag;
    assert u.loops[b] == s.loops[b].(buffer := s.loops[b].buffer + [Delivery(last + 2, m + 1)]);
    assert Waits(u.channels[s.loops[b].chan], last + 1, m);
  }

  // ---- The consumer tag decides ----

  /** All channels are opened for the consumer tag `tag`. */
  predicate Tagged(steps: seq<Step>, tag: string) {
    forall k :: 0 <= k < |steps| && steps[k].OpenChannel? ==> steps[k].consumerTag == tag
  }

  predicate ChannelsTagged(s: State, tag: string) {
    forall ch :: 0 <= ch < |s.channels| ==> s.channels[ch].consumerTag == tag
  }

  /** A shared channel has the empty tag. */
  lemma ConnectKeepsExclusive(s: State, l: nat, ch: nat)
    requires Exclusive(s) && Bound(s) && (forall c :: 0 <= c < |s.channels| ==> s.channels[c].consumerTag != "")
    ensures Exclusive(Next(s, Connect(l, ch)))
  {
    var t := Next(s, Connect(l, ch));
    if t != s {
      assert forall k :: 0 <= k < |s.loops| && k != l ==> t.loops[k].chan == s.loops[k].chan != ch;
    }
  }

  lemma OthersKeepExclusive(s: State, step: Step)
    requires Exclusive(s) && Bound(s) && !step.Connect?
    ensures Exclusive(Next(s, step))
  {
    var t := Next(s, step);
    assert forall l :: 0 <= l < |s.loops| ==> t.loops[l].chan == s.loops[l].chan;
    assert forall l :: |s.loops| <= l < |t.loops| ==> l == |s.loops| && t.loops[l].chan == -1;
  }

  lemma {:induction false} TagMakesExclusive(steps: seq<Step>, tag: string)
    requires Tagged(steps, tag) && tag != ""
    ensures ChannelsTagged(Run(Initial, steps), tag) && Exclusive(Run(Initial, steps))
  {
    if steps != [] {
      var before, step := steps[..|steps| - 1], steps[|steps| - 1];
      TagMakesExclusive(before, tag);
      RunKeepsBound(before);
      TagsStay(Run(Initial, before), step);
      match step
      case Connect(l, ch) => ConnectKeepsExclusive(Run(Initial, before), l, ch);
      case _ => OthersKeepExclusive(Run(Initial, before), step);
    }
  }

  lemma TagsStay(s: State, step: Step)
    ensures var t := Next(s, step);
      && |s.channels| <= |t.channels| <= |s.channels| + 1
      && (forall ch :: 0 <= ch < |s.channels| ==> t.channels[ch].consumerTag == s.channels[ch].consumerTag)
      && (|t.channels| > |s.channels| ==> step == OpenChannel(t.channels[|s.channels|].consumerTag))
  {
  }

  predicate SomeUnhanded(s: State) { exists m :: m in s.acked && m !in s.consumed }

  /** The exact condition, which a caller can read off the configuration: some run discards a
      message nobody was handed if and only if the configured consumer tag is empty. */
  lemma {:induction false} LosesMessageIff(tag: string)
    ensures (exists steps :: Tagged(steps, tag) && SomeUnhanded(Run(Initial, steps))) <==> tag == ""
  {
    if tag == "" {
      var r := TwoSubscriptions();
      RunKeepsKnown(r);
      var more, m := LosingSteps(Run(Initial, r), 0, 1);
      RunConcat(Initial, r, more);
      assert Discards(Initial, r + more, m);
      assert Tagged(r + more, tag) && SomeUnhanded(Run(Initial, r + more));
    } else {
      forall steps | Tagged(steps, tag) ensures !SomeUnhanded(Run(Initial, steps)) {
        TagMakesExclusive(steps, tag);
        AtLeastOnce(steps);
      }
    }
  }

  lemma {:induction false} RunConcat(s: State, a: seq<Step>, b: seq<Step>)
    ensures Run(s, a + b) == Run(Run(s, a), b)
    decreases a
  {
    if a == [] {
      assert a + b == b;
    } else {
      var t := Next(s, a[0]);
      RunConcat(t, a[1..], b);
      assert a == [a[0]] + a[1..] && a + b == [a[0]] + (a[1..] + b);
      assert Run(s, a + b) == Run(t, a[1..] + b) by { RunCons(s, a[0], a[1..] + b); }
      assert Run(s, a) == Run(t, a[1..]) by { RunCons(s, a[0], a[1..]); }
    }
  }

  lemma TwoSubscriptions() returns (r: seq<Step>)
    ensures Tagged(r, "")
    ensures Run(Initial, r) == State(0, {}, {}, [Channel("", true, 0, map[])],
      [Loop(0, Listening, 0, []), Loop(1, Listening, 0, [])], 2, {})
  {
    r := Two([], OpenChannel(""), Subscribe);
    assert Run(Initial, r) == Initial.(channels := [Channel("", true, 0, map[])],
                                       loops := [Loop(0, Connecting, -1, [])], calls := 1);
    r := Two(r, Connect(0, 0), Subscribe);
    var s := Run(Initial, r);
    assert s.loops == [Loop(0, Listening, 0, []), Loop(1, Connecting, -1, [])];
    RunSnoc(Initial, r, Connect(1, 0));
    r := r + [Connect(1, 0)];
  }

  /** Two steps more. */
  lemma Two(r: seq<Step>, a: Step, b: Step) returns (t: seq<Step>)
    ensures Run(Initial, t) == Next(Next(Run(Initial, r), a), b)
    ensures t == r + [a] + [b]
  {
    RunSnoc(Initial, r, a);
    RunSnoc(Initial, r + [a], b);
    t := r + [a] + [b];
  }

  // ---- The loop as code ----

  function Feed(events: seq<Event>): (Pc, seq<Effect>) {
    if events == [] then (Connecting, [])
    else
      var (pc, effects) := Feed(events[..|events| - 1]);
      var (pc', more) := OnEvent(pc, events[|events| - 1]);
      (pc', effects + more)
  }

  /** The events a loop can meet in turn: it waits for one kind of event at a time. */
  predicate Expects(pc: Pc, e: Event) {
    match pc
    case Connecting => e.ConnectFailed? || e.Connected?
    case Listening => e.Delivered? || e.ChannelClosed? || e.CtxDone?
    case Handling(_) => e.Handled?
    case Done => false
  }

  predicate WellTimed(events: seq<Event>) {
    forall k :: 0 <= k < |events| ==> Expects(Feed(events[..k]).0, events[k])
  }

  /** Every acknowledgement sent follows at once the hand-over of the delivery it names. */
  lemma {:induction false} AckFollowsConsume(events: seq<Event>, k: nat)
    requires k < |Feed(events).1| && Feed(events).1[k].AckUpTo?
    ensures k > 0 && exists d: Delivery ::
      Feed(events).1[k - 1] == Consume(d.msg) && Feed(events).1[k] == AckUpTo(d.tag)
      && Delivered(d) in events
  {
    var before := events[..|events| - 1];
    if k < |Feed(before).1| {
      AckFollowsConsume(before, k);
      var d: Delivery :| Feed(before).1[k - 1] == Consume(d.msg) && Feed(before).1[k] == AckUpTo(d.tag)
        && Delivered(d) in before;
      assert Delivered(d) in events;
    } else {
      HandlingAfterConsume(before);
      var d := Feed(before).0.d;
      assert Delivered(d) in events;
    }
  }

  lemma {:induction false} HandlingAfterConsume(events: seq<Event>)
    requires Feed(events).0.Handling?
    ensures |Feed(events).1| > 0 && Feed(events).1[|Feed(events).1| - 1] == Consume(Feed(events).0.d.msg)
    ensures Delivered(Feed(events).0.d) in events
  {
    var before := events[..|events| - 1];
    if Feed(before).0.Handling? {
      HandlingAfterConsume(before);
    }
  }

  // What a loop does, read off its events alone.

  function Repeat<T>(x: T, n: nat): (r: seq<T>)
    ensures |r| == n
  {
    if n == 0 then [] else Repeat(x, n - 1) + [x]
  }

  /** However often connecting fails, the loop sleeps once each time and tries again. */
  lemma {:induction false} RetriesForEver(n: nat)
    ensures WellTimed(Repeat(ConnectFailed, n) + [Connected])
    ensures Feed(Repeat(ConnectFailed, n)) == (Connecting, Repeat(Sleep, n))
    ensures Feed(Repeat(ConnectFailed, n) + [Connected]) == (Listening, Repeat(Sleep, n))
  {
    var failures := Repeat(ConnectFailed, n);
    var all := failures + [Connected];
    FeedFailures(n);
    assert all[..n] == failures && Repeat(Sleep, n) + [] == Repeat(Sleep, n);
    forall k | 0 <= k < n + 1 ensures Expects(Feed(all[..k]).0, all[k]) {
      if k < n {
        AllFailures(n, k);
        FeedFailures(k);
        assert all[..k] == failures[..k];
      }
    }
  }

  lemma {:induction false} AllFailures(n: nat, k: nat)
    requires k < n
    ensures Repeat(ConnectFailed, n)[..k] == Repeat(ConnectFailed, k) && Repeat(ConnectFailed, n)[k] == ConnectFailed
  {
    var before := Repeat(ConnectFailed, n - 1);
    assert Repeat(ConnectFailed, n)[..n - 1] == before;
    if k < n - 1 {
      AllFailures(n - 1, k);
      assert Repeat(ConnectFailed, n)[..k] == before[..k];
    }
  }

  lemma {:induction false} FeedFailures(k: nat)
    ensures Feed(Repeat(ConnectFailed, k)) == (Connecting, Repeat(Sleep, k))
  {
    if k > 0 {
      FeedFailures(k - 1);
      assert Repeat(ConnectFailed, k)[..k - 1] == Repeat(ConnectFailed, k - 1);
    }
  }

  function Deliveries(events: seq<Event>): seq<Delivery> {
    if events == [] then []
    else
      var last := events[|events| - 1];
      Deliveries(events[..|events| - 1]) + if last.Delivered? then [last.d] else []
  }

  function Failures(events: seq<Event>): nat {
    if events == [] then 0
    else Failures(events[..|events| - 1]) + if events[|events| - 1].ConnectFailed? then 1 else 0
  }

  function Handed(effects: seq<Effect>): seq<Msg> {
    if effects == [] then []
    else
      var last := effects[|effects| - 1];
      Handed(effects[..|effects| - 1]) + if last.Consume? then [last.msg] else []
  }

  function Acks(effects: seq<Effect>): seq<nat> {
    if effects == [] then []
    else
      var last := effects[|effects| - 1];
      Acks(effects[..|effects| - 1]) + if last.AckUpTo? then [last.tag] else []
  }

  function Sleeps(effects: seq<Effect>): nat {
    if effects == [] then 0
    else Sleeps(effects[..|effects| - 1]) + if effects[|effects| - 1].Sleep? then 1 else 0
  }

  function MsgsOf(ds: seq<Delivery>): seq<Msg> {
    if ds == [] then [] else MsgsOf(ds[..|ds| - 1]) + [ds[|ds| - 1].msg]
  }

  function TagsOf(ds: seq<Delivery>): seq<nat> {
    if ds == [] then [] else TagsOf(ds[..|ds| - 1]) + [ds[|ds| - 1].tag]
  }

  lemma OneMoreEffect(effects: seq<Effect>, e: Effect)
    ensures Handed(effects + [e]) == Handed(effects) + if e.Consume? then [e.msg] else []
    ensures Acks(effects + [e]) == Acks(effects) + if e.AckUpTo? then [e.tag] else []
    ensures Sleeps(effects + [e]) == Sleeps(effects) + if e.Sleep? then 1 else 0
  {
    assert (effects + [e])[..|effects|] == effects;
  }

  lemma OneMoreDelivery(ds: seq<Delivery>, d: Delivery)
    ensures MsgsOf(ds + [d]) == MsgsOf(ds) + [d.msg] && TagsOf(ds + [d]) == TagsOf(ds) + [d.tag]
  {
    assert (ds + [d])[..|ds|] == ds;
  }

  /** One sleep for each failed connect, every delivery handed over once and in order, and
      every one of them acknowledged, whether the handler succeeded or not, except the one
      still being handled. */
  predicate DoesItsWork(events: seq<Event>, pc: Pc, effects: seq<Effect>) {
    var ds := Deliveries(events);
    && Sleeps(effects) == Failures(events)
    && Handed(effects) == MsgsOf(ds)
    && (pc.Handling? ==> ds != [] && ds[|ds| - 1] == pc.d && Acks(effects) == TagsOf(ds[..|ds| - 1]))
    && (!pc.Handling? ==> Acks(effects) == TagsOf(ds))
  }

  lemma {:induction false} LoopDoesItsWork(events: seq<Event>)
    requires WellTimed(events)
    ensures DoesItsWork(events, Feed(events).0, Feed(events).1)
  {
    if events != [] {
      var n := |events| - 1;
      var before, e := events[..n], events[n];
      var (pc, effects) := Feed(before);
      EarlierIsTimed(events, n);
      LoopDoesItsWork(before);
      WorkStep(before, e, pc, effects);
      assert events == before + [e];
    }
  }

  lemma EarlierIsTimed(events: seq<Event>, n: nat)
    requires WellTimed(events) && n < |events|
    ensures WellTimed(events[..n]) && Expects(Feed(events[..n]).0, events[n])
  {
    forall k | 0 <= k < n ensures Expects(Feed(events[..n][..k]).0, events[..n][k]) {
      assert events[..n][..k] == events[..k];
    }
  }

  lemma WorkStep(events: seq<Event>, e: Event, pc: Pc, effects: seq<Effect>)
    requires DoesItsWork(events, pc, effects) && Expects(pc, e)
    ensures DoesItsWork(events + [e], OnEvent(pc, e).0, effects + OnEvent(pc, e).1)
  {
    match e
    case Delivered(d) => DeliveryStep(events, d, pc, effects);
    case Handled(ok) => HandledStep(events, ok, pc, effects);
    case _ => OtherStep(events, e, pc, effects);
  }

  lemma DeliveryStep(events: seq<Event>, d: Delivery, pc: Pc, effects: seq<Effect>)
    requires DoesItsWork(events, pc, effects) && pc.Listening?
    ensures DoesItsWork(events + [Delivered(d)], Handling(d), effects + [Consume(d.msg)])
  {
    var ds := Deliveries(events);
    assert (events + [Delivered(d)])[..|events|] == events;
    OneMoreEffect(effects, Consume(d.msg));
    OneMoreDelivery(ds, d);
    assert (ds + [d])[..|ds|] == ds;
  }

  lemma HandledStep(events: seq<Event>, ok: bool, pc: Pc, effects: seq<Effect>)
    requires DoesItsWork(events, pc, effects) && pc.Handling?
    ensures DoesItsWork(events + [Handled(ok)], OnEvent(pc, Handled(ok)).0, effects + OnEvent(pc, Handled(ok)).1)
  {
    var ds := Deliveries(events);
    assert (events + [Handled(ok)])[..|events|] == events;
    assert Deliveries(events + [Handled(ok)]) == ds;
    OneMoreEffect(effects, OnEvent(pc, Handled(ok)).1[0]);
    OneMoreDelivery(ds[..|ds| - 1], pc.d);
    assert ds == ds[..|ds| - 1] + [pc.d];
  }

  lemma OtherStep(events: seq<Event>, e: Event, pc: Pc, effects: seq<Effect>)
    requires DoesItsWork(events, pc, effects) && Expects(pc, e) && !e.Delivered? && !e.Handled?
    ensures DoesItsWork(events + [e], OnEvent(pc, e).0, effects + OnEvent(pc, e).1)
  {
    var more := OnEvent(pc, e).1;
    assert (events + [e])[..|events|] == events;
    assert Deliveries(events + [e]) == Deliveries(events);
    if more == [] {
      assert effects + more == effects;
    } else {
      OneMoreEffect(effects, more[0]);
      assert more == [more[0]];
    }
  }

  predicate Has<T(==)>(list: seq<T>, x: T) {
    list != [] && (list[|list| - 1] == x || Has(list[..|list| - 1], x))
  }

  lemma {:induction false} HasIsIn<T>(list: seq<T>, x: T)
    ensures Has(list, x) <==> x in list
  {
    if list != [] {
      HasIsIn(list[..|list| - 1], x);
      assert list == list[..|list| - 1] + [list[|list| - 1]];
    }
  }

  lemma HasSnoc<T>(list: seq<T>, y: T, x: T)
    ensures Has(list + [y], x) <==> y == x || Has(list, x)
  {
    assert (list + [y])[..|list|] == list;
  }

  predicate KnowsItsEnd(events: seq<Event>, pc: Pc, effects: seq<Effect>) {
    && (pc.Connecting? <==> !Has(events, Connected))
    && (pc.Done? <==>
        Has(events, CtxDone) || Has(events, ChannelClosed(true)) || Has(events, ChannelClosed(false)))
    && (Has(effects, ShutdownHandler) <==> Has(events, CtxDone))
    && (Has(effects, Resubscribe) <==> Has(events, ChannelClosed(false)))
  }

  lemma {:induction false} RunKnowsItsEnd(events: seq<Event>)
    requires WellTimed(events)
    ensures KnowsItsEnd(events, Feed(events).0, Feed(events).1)
  {
    if events != [] {
      var n := |events| - 1;
      var before, e := events[..n], events[n];
      var (pc, effects) := Feed(before);
      EarlierIsTimed(events, n);
      RunKnowsItsEnd(before);
      EndStep(before, e, pc, effects);
      assert events == before + [e];
    }
  }

  lemma EndStep(events: seq<Event>, e: Event, pc: Pc, effects: seq<Effect>)
    requires KnowsItsEnd(events, pc, effects) && Expects(pc, e)
    ensures KnowsItsEnd(events + [e], OnEvent(pc, e).0, effects + OnEvent(pc, e).1)
  {
    HasSnoc(events, e, Connected);
    HasSnoc(events, e, CtxDone);
    HasSnoc(events, e, ChannelClosed(true));
    HasSnoc(events, e, ChannelClosed(false));
    var more := OnEvent(pc, e).1;
    if more == [] {
      assert effects + more == effects;
    } else {
      assert more == [more[0]];
      HasSnoc(effects, more[0], ShutdownHandler);
      HasSnoc(effects, more[0], Resubscribe);
    }
  }

  /** A loop is connecting until it is connected, and done exactly after its context was
      cancelled or its channel was closed. The handler is shut down exactly in the first case,
      and a new loop is started exactly in the second, unless the connection was closed on
      purpose. */
  lemma LoopEndsIff(events: seq<Event>)
    requires WellTimed(events)
    ensures var (pc, effects) := Feed(events);
      && (pc.Connecting? <==> Connected !in events)
      && (pc.Done? <==> CtxDone in events || ChannelClosed(true) in events || ChannelClosed(false) in events)
      && (ShutdownHandler in effects <==> CtxDone in events)
      && (Resubscribe in effects <==> ChannelClosed(false) in events)
  {
    RunKnowsItsEnd(events);
    HasIsIn(events, Connected);
    HasIsIn(events, CtxDone);
    HasIsIn(events, ChannelClosed(true));
    HasIsIn(events, ChannelClosed(false));
    HasIsIn(Feed(events).1, ShutdownHandler);
    HasIsIn(Feed(events).1, Resubscribe);
  }

  /** The two loops of `subscribe`, run against the events it meets. */
  method SubscribeLoop(events: seq<Event>) returns (pc: Pc, effects: seq<Effect>)
    requires WellTimed(events)
    ensures (pc, effects) == Feed(events)
  {
    var k;
    pc, effects, k := ConnectLoop(events);
    if pc.Listening? {
      pc, effects := ListenLoop(events, k, effects);
    }
  }

  method ConnectLoop(events: seq<Event>) returns (pc: Pc, effects: seq<Effect>, k: nat)
    requires WellTimed(events)
    ensures k <= |events| && Feed(events[..k]) == (pc, effects)
    ensures pc.Listening? || (k == |events| && Feed(events) == (pc, effects))
  {
    effects, k, pc := [], 0, Connecting;
    while k < |events|
      invariant k <= |events| && Feed(events[..k]) == (Connecting, effects)
    {
      OneMore(events, k, pc, effects);
      k := k + 1;
      if events[k - 1].ConnectFailed? {
        effects := effects + [Sleep];
        continue;
      }
      assert effects + [] == effects;
      return Listening, effects, k;
    }
    assert events[..k] == events;
  }

  method ListenLoop(events: seq<Event>, start: nat, before: seq<Effect>) returns (pc: Pc, effects: seq<Effect>)
    requires WellTimed(events) && start <= |events| && Feed(events[..start]) == (Listening, before)
    ensures (pc, effects) == Feed(events)
  {
    var k := start;
    pc, effects := Listening, before;
    while k < |events| && pc.Listening?
      invariant k <= |events| && Feed(events[..k]) == (pc, effects)
      invariant pc.Listening? || k == |events|
    {
      pc, effects, k := OneTurn(events, k, effects);
    }
    assert events[..k] == events;
  }

  method OneTurn(events: seq<Event>, k: nat, before: seq<Effect>) returns (pc: Pc, effects: seq<Effect>, next: nat)
    requires WellTimed(events) && k < |events| && Feed(events[..k]) == (Listening, before)
    ensures k < next <= |events| && Feed(events[..next]) == (pc, effects)
    ensures pc.Listening? || next == |events|
  {
    ListenTurn(events, k, before);
    next := k + 1;
    match events[k]
    case CtxDone =>
      pc, effects := Done, before + [ShutdownHandler];
    case Delivered(d) =>
      effects := before + [Consume(d.msg)];
      if next == |events| {
        return Handling(d), effects, next;
      }
      pc, effects, next := Listening, effects + [AckUpTo(d.tag)], next + 1;
    case ChannelClosed(stopped) =>
      pc, effects := Done, before + (if stopped then [] else [Resubscribe]);
  }

  /** One turn of the second loop: a delivery takes two events, the others end it. */
  lemma ListenTurn(events: seq<Event>, k: nat, effects: seq<Effect>)
    requires WellTimed(events) && k < |events| && Feed(events[..k]) == (Listening, effects)
    ensures Expects(Listening, events[k])
    ensures events[k].Delivered? ==> var d := events[k].d;
      && Feed(events[..k + 1]) == (Handling(d), effects + [Consume(d.msg)])
      && (k + 1 < |events| ==>
          Feed(events[..k + 2]) == (Listening, effects + [Consume(d.msg)] + [AckUpTo(d.tag)]))
    ensures events[k].CtxDone? ==> k + 1 == |events| && Feed(events[..k + 1]) == (Done, effects + [ShutdownHandler])
    ensures events[k].ChannelClosed? ==>
      && k + 1 == |events|
      && Feed(events[..k + 1]) == (Done, effects + if events[k].stopped then [] else [Resubscribe])
  {
    OneMore(events, k, Listening, effects);
    if events[k].Delivered? {
      if k + 1 < |events| {
        OneMore(events, k + 1, Handling(events[k].d), effects + [Consume(events[k].d.msg)]);
      }
    } else {
      DoneIsLast(events, k + 1);
    }
  }

  lemma OneMore(events: seq<Event>, k: nat, pc: Pc, effects: seq<Effect>)
    requires WellTimed(events) && k < |events| && Feed(events[..k]) == (pc, effects)
    ensures Expects(pc, events[k])
    ensures Feed(events[..k + 1]) == (OnEvent(pc, events[k]).0, effects + OnEvent(pc, events[k]).1)
  {
    assert events[..k + 1][..k] == events[..k];
  }

  lemma DoneIsLast(events: seq<Event>, k: nat)
    requires WellTimed(events) && k <= |events| && Feed(events[..k]).0.Done?
    ensures k == |events| && events[..k] == events
  {
    assert events[..|events|] == events;
  }
}
