/** The shared RabbitMQ connection: dialling with a backoff policy, and a pool of channels
    keyed by what they are used for, each with a watcher that takes it out of the pool. */
module Connection {

  import opened Common

  datatype Key = Key(queue: string, consumer: string, exchange: string, key: string)

  /** A channel and the connection it was opened on, both numbered in order of creation. */
  datatype Channel = Channel(id: nat, conn: nat)

  /** The three ways `connect` ends. */
  datatype Dial = DialFailed | ChannelFailed | Connected

  /** `poolMade` is false while the pool is a nil map, which reads as empty and cannot be
      written. `healthy` says that the last `connect` returned nil; `lost` are the channels
      that were closed; a watcher waits for the loss of the channel it was started for. */
  datatype State = State(
    conn: Option<nat>, service: Option<nat>, pool: map<Key, Channel>, poolMade: bool, isClosed: bool,
    dialled: nat, made: nat, watchers: set<(Key, Channel)>, lost: set<Channel>, healthy: bool)

  const Initial := State(None, None, map[], false, false, 0, 0, {}, {}, false)

  datatype Step =
    | Connect(d: Dial)
    | Lookup(key: Key, ok: bool)
    | LoseChannel(ch: Channel) | DropConnection
    | WatcherFires(key: Key, ch: Channel)
    | Close

  function Next(s: State, step: Step): State {
    match step
    case Connect(d) =>
      (match d
       case DialFailed => s.(conn := None, healthy := false)
       case ChannelFailed =>
         s.(conn := Some(s.dialled), service := None, dialled := s.dialled + 1, healthy := false)
       case Connected =>
         s.(conn := Some(s.dialled), service := Some(s.dialled), dialled := s.dialled + 1,
            pool := map[], poolMade := true, healthy := true))
    case Lookup(key, ok) =>
      if key in s.pool || !ok || s.conn.None? || !s.poolMade then s
      else
        var ch := Channel(s.made, s.conn.value);
        s.(made := s.made + 1, pool := s.pool[key := ch], watchers := s.watchers + {(key, ch)})
    case LoseChannel(ch) => s.(lost := s.lost + {ch})
    case DropConnection =>
      s.(lost := s.lost + set w | w in s.watchers && Some(w.1.conn) == s.conn :: w.1)
    case WatcherFires(key, ch) =>
      if (key, ch) !in s.watchers || ch !in s.lost then s
      else s.(watchers := s.watchers - {(key, ch)},
              pool := if s.isClosed then s.pool else s.pool - {key})
    case Close => s.(isClosed := true)
  }

  function Run(steps: seq<Step>): State {
    if steps == [] then Initial else Next(Run(steps[..|steps| - 1]), steps[|steps| - 1])
  }

  lemma RunSnoc(steps: seq<Step>, step: Step)
    ensures Run(steps + [step]) == Next(Run(steps), step)
  {
    assert (steps + [step])[..|steps|] == steps;
  }

  /** After a successful `connect` everything in the pool belongs to the current connection,
      and no connection number is ahead of the dials made. */
  predicate Current(s: State) {
    && (s.healthy ==> s.conn.Some? && s.service == s.conn && s.poolMade)
    && (s.healthy ==> forall k :: k in s.pool ==> Some(s.pool[k].conn) == s.conn)
    && (s.conn.Some? ==> s.conn.value < s.dialled)
    && (forall k :: k in s.pool ==> s.pool[k].conn < s.dialled)
  }

  /** Until `Close`, every pooled channel has a watcher of its own, also when the watcher of
      an older channel with the same key fires late. */
  predicate Watched(s: State) {
    && !s.isClosed ==> forall k :: k in s.pool ==> (k, s.pool[k]) in s.watchers
  }

  lemma NextKeepsCurrent(s: State, step: Step)
    requires Current(s)
    ensures Current(Next(s, step))
  {
  }

  lemma NextKeepsWatched(s: State, step: Step)
    requires Watched(s)
    ensures Watched(Next(s, step))
  {
  }

  lemma {:induction false} RunKeepsInv(steps: seq<Step>)
    ensures Current(Run(steps)) && Watched(Run(steps))
  {
    if steps != [] {
      RunKeepsInv(steps[..|steps| - 1]);
      NextKeepsCurrent(Run(steps[..|steps| - 1]), steps[|steps| - 1]);
      NextKeepsWatched(Run(steps[..|steps| - 1]), steps[|steps| - 1]);
    }
  }

  /** In every reachable state whose last `connect` returned nil, every pooled channel was
      opened on the current connection, across drops, reconnects, lookups and late watchers. */
  lemma PooledChannelsAreCurrent(steps: seq<Step>, key: Key)
    requires Run(steps).healthy && key in Run(steps).pool
    ensures Some(Run(steps).pool[key].conn) == Run(steps).conn == Run(steps).service
  {
    RunKeepsInv(steps);
  }

  /** A lost channel does not stay in the pool: its watcher is still there to remove it. */
  lemma LostChannelIsRemoved(steps: seq<Step>, key: Key)
    requires var s := Run(steps); !s.isClosed && key in s.pool && s.pool[key] in s.lost
    ensures key !in Run(steps + [WatcherFires(key, Run(steps).pool[key])]).pool
  {
    RunKeepsInv(steps);
    RunSnoc(steps, WatcherFires(key, Run(steps).pool[key]));
  }

  /** Nothing else takes a channel out: a key leaves the pool exactly when a connect succeeds or
      the watcher of a lost channel fires under that key before `Close`. */
  lemma {:induction false} LeavesPoolIff(steps: seq<Step>, step: Step, key: Key)
    requires key in Run(steps).pool
    ensures key !in Run(steps + [step]).pool <==>
      || step == Connect(Connected)
      || (step.WatcherFires? && step.key == key && !Run(steps).isClosed
          && (key, step.ch) in Run(steps).watchers && step.ch in Run(steps).lost)
  {
    RunSnoc(steps, step);
  }

  /** A dropped connection takes all its channels with it: each one in the pool is lost, and
      its watcher removes it. */
  lemma {:induction false} DropLosesPool(steps: seq<Step>, key: Key)
    requires var s := Run(steps); s.healthy && !s.isClosed && key in s.pool
    ensures var ch := Run(steps).pool[key];
      && ch in Run(steps + [DropConnection]).lost
      && key !in Run(steps + [DropConnection] + [WatcherFires(key, ch)]).pool
  {
    RunKeepsInv(steps);
    RunSnoc(steps, DropConnection);
    LostChannelIsRemoved(steps + [DropConnection], key);
  }

  /** The condition on the last `connect` is needed, in both ways to fail: the old pool stays
      although no channel in it belongs to the new connection, or there is no connection. A
      connect leaves the pool current exactly when it succeeds or nothing was pooled. */
  lemma {:induction false} ConnectRenewsPoolIff(steps: seq<Step>, d: Dial)
    ensures var s := Run(steps); var t := Run(steps + [Connect(d)]);
      && (d != Connected ==> t.pool == s.pool)
      && (d != Connected ==> forall key :: key in t.pool ==> Some(t.pool[key].conn) != t.conn)
      && ((forall key :: key in t.pool ==> Some(t.pool[key].conn) == t.conn)
          <==> d == Connected || s.pool == map[])
  {
    RunKeepsInv(steps);
    RunSnoc(steps, Connect(d));
    var t := Run(steps + [Connect(d)]);
    if d != Connected && t.pool != map[] {
      var key :| key in t.pool;
      assert Some(t.pool[key].conn) != t.conn;
    }
  }

  /** The pool can be written once some connect has succeeded, and not before. */
  lemma {:induction false} PoolMadeIff(steps: seq<Step>)
    ensures Run(steps).poolMade <==> Connect(Connected) in steps
  {
    if steps != [] {
      PoolMadeIff(steps[..|steps| - 1]);
      OnlyConnectMakes(Run(steps[..|steps| - 1]), steps[|steps| - 1]);
      assert steps == steps[..|steps| - 1] + [steps[|steps| - 1]];
    }
  }

  lemma OnlyConnectMakes(s: State, step: Step)
    ensures Next(s, step).poolMade <==> s.poolMade || step == Connect(Connected)
  {
  }

  /** A lookup dereferences nil or writes to a nil map. */
  predicate Panics(s: State, key: Key, ok: bool) {
    key !in s.pool && (s.conn.None? || (ok && !s.poolMade))
  }

  /** No lookup does after a connect that succeeded; one that must open a channel does
      whenever there is no connection, or no connect ever succeeded. */
  lemma {:induction false} LookupPanicsIff(steps: seq<Step>, key: Key)
    ensures Run(steps).healthy ==> !Panics(Run(steps), key, true)
    ensures Panics(Run(steps), key, true) <==>
      key !in Run(steps).pool && (Run(steps).conn.None? || Connect(Connected) !in steps)
  {
    RunKeepsInv(steps);
    PoolMadeIff(steps);
  }

  // ---- One reconnect round ----

  /** The number of failures before the first success. */
  function Failures(outcomes: seq<Dial>): (n: nat)
    ensures n <= |outcomes| && (n < |outcomes| ==> outcomes[n].Connected?)
    ensures forall i :: 0 <= i < n ==> !outcomes[i].Connected?
  {
    Passing(outcomes, (d: Dial) => !d.Connected?)
  }

  // ---- The connection object ----

  class ConnectionObject {
    const backoffPolicy: seq<nat>
    var conn: Option<nat>
    var serviceChannel: Option<nat>
    var channelPool: map<Key, Channel>
    var poolMade: bool
    var isClosed: bool
    /** The numbers of the next connection and the next channel. */
    var dialled: nat
    var made: nat
    ghost var machine: State
    ghost var trace: seq<Step>

    ghost predicate Valid() reads this { machine == Run(trace) && SameFields() }

    ghost predicate SameFields() reads this {
      && conn == machine.conn && serviceChannel == machine.service
      && channelPool == machine.pool && poolMade == machine.poolMade && isClosed == machine.isClosed
      && dialled == machine.dialled && made == machine.made
    }

    constructor (backoffPolicy: seq<nat>)
      ensures Valid() && this.backoffPolicy == backoffPolicy && machine == Initial
    {
      this.backoffPolicy := backoffPolicy;
      conn, serviceChannel, channelPool, poolMade, isClosed := None, None, map[], false, false;
      dialled, made := 0, 0;
      machine, trace := Initial, [];
    }

    ghost method Did(step: Step)
      requires machine == Run(trace)
      modifies this`machine, this`trace
      ensures machine == Next(old(machine), step) && machine == Run(trace) && trace == old(trace) + [step]
    {
      RunSnoc(trace, step);
      machine, trace := Next(machine, step), trace + [step];
    }

    method Connect(d: Dial) returns (ok: bool)
      requires Valid()
      modifies this
      ensures Valid() && ok == d.Connected? && isClosed == old(isClosed)
      ensures conn == if d.DialFailed? then None else Some(old(dialled))
      ensures dialled == if d.DialFailed? then old(dialled) else old(dialled) + 1
      ensures serviceChannel
        == if d.DialFailed? then old(serviceChannel) else if d.ChannelFailed? then None else conn
      ensures channelPool == (if ok then map[] else old(channelPool)) && poolMade == (ok || old(poolMade))
      ensures machine == Next(old(machine), Step.Connect(d)) && trace == old(trace) + [Step.Connect(d)]
    {
      ok := d.Connected?;
      if d.DialFailed? {
        NoConnection();
      } else if d.ChannelFailed? {
        NoServiceChannel();
      } else {
        NewConnection();
      }
      Record(Step.Connect(d));
    }

    /** Adds the step just taken to the trace. */
    ghost method Record(step: Step)
      requires machine == Next(Run(trace), step)
      modifies this`trace
      ensures machine == Run(trace) && trace == old(trace) + [step]
    {
      RunSnoc(trace, step);
      trace := trace + [step];
    }

    method NoConnection()
      requires SameFields()
      modifies this`conn, this`machine
      ensures SameFields() && machine == Next(old(machine), Step.Connect(DialFailed))
    {
      conn := None;
      machine := Next(machine, Step.Connect(DialFailed));
    }

    method NoServiceChannel()
      requires SameFields()
      modifies this`conn, this`dialled, this`serviceChannel, this`machine
      ensures SameFields() && machine == Next(old(machine), Step.Connect(ChannelFailed))
    {
      conn, dialled := Some(dialled), dialled + 1;
      serviceChannel := None;
      machine := Next(machine, Step.Connect(ChannelFailed));
    }

    method NewConnection()
      requires SameFields()
      modifies this`conn, this`dialled, this`serviceChannel, this`channelPool, this`poolMade, this`machine
      ensures SameFields() && machine == Next(old(machine), Step.Connect(Connected))
    {
      conn, dialled := Some(dialled), dialled + 1;
      serviceChannel := conn;
      channelPool, poolMade := map[], true;
      machine := Next(machine, Step.Connect(Connected));
    }

    /** One attempt of a reconnect round. */
    method Attempt(outcomes: seq<Dial>, i: nat, ghost before: seq<Step>) returns (ok: bool)
      requires Valid() && i < |outcomes| && trace == before + Dials(outcomes[..i])
      modifies this
      ensures Valid() && ok == outcomes[i].Connected? == machine.healthy
      ensures trace == before + Dials(outcomes[..i + 1])
      ensures if ok then channelPool == map[] else conn.None? <==> outcomes[i].DialFailed?
    {
      ok := Connect(outcomes[i]);
      DialsSnoc(outcomes, i);
    }

    /** One reconnect round of the watcher, given the outcome of each possible dial. It dials
        up to the first success, at most once per entry of the policy, and sleeps exactly
        the timeouts of the failed attempts. */
    method Reconnect(outcomes: seq<Dial>) returns (slept: seq<nat>)
      requires Valid() && |outcomes| == |backoffPolicy|
      modifies this
      ensures Valid()
      ensures slept == backoffPolicy[..Failures(outcomes)]
      ensures trace == old(trace) + Dials(outcomes[..Attempts(outcomes)])
      ensures |trace| - |old(trace)|
        == if Failures(outcomes) < |outcomes| then Failures(outcomes) + 1 else |outcomes|
      ensures Failures(outcomes) < |outcomes| ==> machine.healthy && channelPool == map[]
      ensures Failures(outcomes) == |outcomes| > 0 ==>
        !machine.healthy && (conn.None? <==> outcomes[|outcomes| - 1].DialFailed?)
    {
      slept := [];
      var i := 0;
      while i < |backoffPolicy|
        invariant 0 <= i <= |backoffPolicy| && Valid() && slept == backoffPolicy[..i]
        invariant i <= Failures(outcomes)
        invariant trace == old(trace) + Dials(outcomes[..i])
        invariant i > 0 ==> !machine.healthy && (conn.None? <==> outcomes[i - 1].DialFailed?)
      {
        var ok := Attempt(outcomes, i, old(trace));
        if !ok {
          slept := slept + [backoffPolicy[i]];
          i := i + 1;
          continue;
        }
        return;
      }
      assert outcomes[..i] == outcomes;
    }

    /** GetChannelFromPool, given whether a channel can be opened. */
    method GetChannelFromPool(key: Key, ok: bool) returns (r: Looked)
      requires Valid()
      modifies this
      ensures Valid() && machine == Next(old(machine), Lookup(key, ok))
      ensures r.Panic? <==> Panics(old(machine), key, ok)
      ensures r.ErrCreate? <==> key !in old(channelPool) && conn.Some? && !ok
      ensures r.Found? ==> key in channelPool && r.ch == channelPool[key]
      ensures r.Found? && key !in old(channelPool) ==>
        Some(r.ch.conn) == conn && r.ch.id == old(made) && (key, r.ch) in machine.watchers
      ensures channelPool == if r.Found? then old(channelPool)[key := r.ch] else old(channelPool)
    {
      if key !in channelPool {
        Did(Lookup(key, ok));
        if conn.None? {
          return Panic;
        }
        if !ok {
          return ErrCreate;
        }
        if !poolMade {
          return Panic;
        }
        channelPool := channelPool[key := Channel(made, conn.value)];
        made := made + 1;
      }
      r := Found(channelPool[key]);
    }

    /** A channel watcher that saw its channel close removes whatever its key maps to now. */
    method ChanWatcher(key: Key, ghost ch: Channel)
      requires Valid() && (key, ch) in machine.watchers && ch in machine.lost
      modifies this
      ensures Valid() && machine == Next(old(machine), WatcherFires(key, ch))
      ensures channelPool == if isClosed then old(channelPool) else old(channelPool) - {key}
      ensures machine.watchers == old(machine).watchers - {(key, ch)}
    {
      if !isClosed {
        channelPool := channelPool - {key};
      }
      Did(WatcherFires(key, ch));
    }

    /** The channels up to the first that cannot be closed. */
    method CloseChannels(keys: seq<Key>, closes: Key -> bool) returns (n: nat)
      requires Valid() && forall k :: k in keys ==> k in channelPool
      modifies this`machine, this`trace
      ensures Valid() && n == Passing(keys, closes)
      ensures forall i :: 0 <= i < n ==> channelPool[keys[i]] in machine.lost
    {
      n := 0;
      while n < |keys| && closes(keys[n])
        invariant 0 <= n <= Passing(keys, closes)
      {
        n := n + 1;
      }
      DidClose(keys[..n]);
      assert forall i :: 0 <= i < n ==> keys[i] in keys[..n];
    }

    ghost method DidClose(keys: seq<Key>)
      requires Valid() && forall k :: k in keys ==> k in channelPool
      modifies this`machine, this`trace
      ensures Valid() && old(machine).lost <= machine.lost
      ensures forall k :: k in keys ==> channelPool[k] in machine.lost
    {
      if keys != [] {
        var init, last := keys[..|keys| - 1], keys[|keys| - 1];
        DidClose(init);
        Did(LoseChannel(channelPool[last]));
        assert keys == init + [last];
      }
    }

    ghost method CloseConnection()
      requires Valid()
      modifies this`machine, this`trace
      ensures Valid() && old(machine).lost <= machine.lost
    {
      Did(DropConnection);
    }

    /** Close with the pool visited in the order `keys`: the flag comes first, then the
        channels up to the first that cannot be closed, and last the connection. Pool and
        connection stay where they are. */
    method Close(keys: seq<Key>, closes: Key -> bool, connCloses: bool) returns (r: Closing)
      requires Valid() && forall k :: k in keys <==> k in channelPool
      modifies this
      ensures Valid() && isClosed && channelPool == old(channelPool) && conn == old(conn)
      ensures var n := Passing(keys, closes);
        && (r == ErrChannel <==> n < |keys|)
        && (r == PanicNoConn <==> n == |keys| && conn.None?)
        && (r == ErrConn <==> n == |keys| && conn.Some? && !connCloses)
        && (forall i :: 0 <= i < n ==> channelPool[keys[i]] in machine.lost)
      ensures r == Closed ==> forall k :: k in channelPool ==> channelPool[k] in machine.lost
    {
      isClosed := true;
      Did(Step.Close);
      var n := CloseChannels(keys, closes);
      if n < |keys| {
        return ErrChannel;
      }
      if conn.None? {
        return PanicNoConn;
      }
      if !connCloses {
        return ErrConn;
      }
      CloseConnection();
      r := Closed;
    }
  }

  datatype Looked = Found(ch: Channel) | ErrCreate | Panic

  datatype Closing = Closed | ErrChannel | ErrConn | PanicNoConn

  function Dials(outcomes: seq<Dial>): (r: seq<Step>)
    ensures |r| == |outcomes|
  {
    seq(|outcomes|, i requires 0 <= i < |outcomes| => Connect(outcomes[i]))
  }

  /** The dials of a round: all failures and the first success. */
  function Attempts(outcomes: seq<Dial>): (n: nat)
    ensures n <= |outcomes|
  {
    if Failures(outcomes) < |outcomes| then Failures(outcomes) + 1 else |outcomes|
  }

  lemma DialsSnoc(outcomes: seq<Dial>, i: nat)
    requires i < |outcomes|
    ensures Dials(outcomes[..i + 1]) == Dials(outcomes[..i]) + [Connect(outcomes[i])]
  {
  }
}
