/** The lease lock on a Redis server: any number of mutex objects, each driven by one
    goroutine, interleaved at single Redis commands, with keys expiring on a clock. */
module RedisMutex {
  import opened RedisServer

  /** Key, value and expiry of one mutex object; an expiry of 0 sets no deadline. */
  datatype Config = Config(lockKey: string, lockValue: string, expire: nat)

  /** Where the goroutine of one mutex object stands: the command it sends next. */
  datatype Pc =
    | Idle
    | Try | Poll
    | UnlockGet | UnlockDel
    | ExtendGet(timeout: int) | ExtendSet(timeout: int)

  /** `mu` is the local lock, `locked` the field of that name; `holding` is true from the
      `Lock` that returned nil to the return of the next `Unlock`. */
  datatype Local = Local(pc: Pc, mu: bool, locked: bool, holding: bool)

  datatype Reply = Bool(b: bool) | Value(v: string) | Nil | Count(n: nat) | Failed

  // ---- One mutex object ----

  /** What the code does with the reply to the command it sent. */
  function OnReply(c: Config, l: Local, r: Reply): Local {
    match l.pc
    case Try =>
      if r == Bool(true) then l.(pc := Idle, holding := true)
      else if r == Bool(false) then l.(pc := Poll, locked := true)
      else l.(pc := Idle)
    case Poll =>
      if !r.Bool? then l.(pc := Idle)
      else if r.b || !l.locked then l.(pc := Idle, holding := true)
      else l
    case UnlockGet =>
      if r == Value(c.lockValue) then l.(pc := UnlockDel) else l.(pc := Idle, holding := false)
    case UnlockDel =>
      if r.Failed? then l.(pc := Idle, holding := false)
      else l.(pc := Idle, locked := false, holding := false)
    case ExtendGet(timeout) =>
      if r == Value(c.lockValue) then l.(pc := ExtendSet(timeout)) else l.(pc := Idle)
    case ExtendSet(_) =>
      if r.Failed? then l.(pc := Idle) else l.(pc := Idle, locked := false)
    case Idle => l
  }

  /** The three calls; `Lock` waits for the local lock, and `Unlock` without it is a
      runtime fault, so both are possible only in one state of `mu`. */
  function CallLock(l: Local): Local {
    if l.pc.Idle? && !l.mu then l.(pc := Try, mu := true) else l
  }

  function CallUnlock(l: Local): Local {
    if !l.pc.Idle? || !l.mu then l
    else if l.locked then l.(pc := UnlockGet, mu := false)
    else l.(mu := false, holding := false)
  }

  function CallExtend(l: Local, timeout: int): Local {
    if l.pc.Idle? && l.locked then l.(pc := ExtendGet(timeout)) else l
  }

  // ---- The server ----

  /** The command of `pc` executed by the server: SET NX, GET, DEL or EXPIRE. */
  function Serve(c: Config, pc: Pc, now: int, store: Store): (Store, Reply) {
    match pc
    case Idle => (store, Nil)
    case Try | Poll =>
      if Live(store, now, c.lockKey) then (store, Bool(false))
      else (store[c.lockKey := Entry(c.lockValue, DeadlineIn(now, c.expire))], Bool(true))
    case UnlockGet | ExtendGet(_) =>
      (store, if Live(store, now, c.lockKey) then Value(store[c.lockKey].value) else Nil)
    case UnlockDel =>
      (store - {c.lockKey}, Count(if Live(store, now, c.lockKey) then 1 else 0))
    case ExtendSet(timeout) =>
      if !Live(store, now, c.lockKey) then (store, Bool(false))
      else if timeout <= 0 then (store - {c.lockKey}, Bool(true))
      else (store[c.lockKey := store[c.lockKey].(deadline := At(now + timeout))], Bool(true))
  }

  // ---- The whole system ----

  /** `leases[i]` is the deadline last given to the key by an executed command of `i`. */
  datatype State = State(now: int, store: Store, locals: seq<Local>, leases: seq<Deadline>)

  /** A command may get its reply, never reach the server, or run with its reply lost. */
  datatype Fault = Fine | Unsent | ReplyLost

  datatype Step =
    | Tick(d: nat)
    | Lock(i: nat) | Unlock(i: nat) | Extend(i: nat, timeout: int)
    | Command(i: nat, fault: Fault)

  function Initial(cs: seq<Config>): State {
    State(0, map[], seq(|cs|, i => Local(Idle, false, false, false)), seq(|cs|, i => Never))
  }

  predicate Sized(cs: seq<Config>, s: State) { |s.locals| == |s.leases| == |cs| }

  function LeaseAfter(c: Config, pc: Pc, r: Reply, now: int, lease: Deadline): Deadline {
    match pc
    case Try | Poll => if r == Bool(true) then DeadlineIn(now, c.expire) else lease
    case ExtendSet(timeout) => if r == Bool(true) then At(now + timeout) else lease
    case _ => lease
  }

  function Next(cs: seq<Config>, s: State, step: Step): (t: State)
    requires Sized(cs, s)
    ensures Sized(cs, t)
  {
    match step
    case Tick(d) => s.(now := s.now + d)
    case Lock(i) => if i < |cs| then s.(locals := s.locals[i := CallLock(s.locals[i])]) else s
    case Unlock(i) => if i < |cs| then s.(locals := s.locals[i := CallUnlock(s.locals[i])]) else s
    case Extend(i, timeout) =>
      if i < |cs| then s.(locals := s.locals[i := CallExtend(s.locals[i], timeout)]) else s
    case Command(i, fault) =>
      if |cs| <= i then s
      else if fault.Unsent? then s.(locals := s.locals[i := OnReply(cs[i], s.locals[i], Failed)])
      else
        var (store, r) := Serve(cs[i], s.locals[i].pc, s.now, s.store);
        s.(store := store,
           leases := s.leases[i := LeaseAfter(cs[i], s.locals[i].pc, r, s.now, s.leases[i])],
           locals := s.locals[i := OnReply(cs[i], s.locals[i], if fault.Fine? then r else Failed)])
  }

  function Run(cs: seq<Config>, steps: seq<Step>): (t: State)
    ensures Sized(cs, t)
  {
    if steps == [] then Initial(cs)
    else Next(cs, Run(cs, steps[..|steps| - 1]), steps[|steps| - 1])
  }

  // ---- Mutual exclusion ----

  /** The mutex objects sharing a key have different values. */
  predicate DistinctValues(cs: seq<Config>) {
    forall i, j :: 0 <= i < j < |cs| && cs[i].lockKey == cs[j].lockKey ==> cs[i].lockValue != cs[j].lockValue
  }

  /** A mutex object whose key must not expire: a holder, or one that has compared the value
      and is about to delete or extend the key. */
  predicate Active(l: Local) { l.holding || l.pc.UnlockDel? || l.pc.ExtendSet? }

  predicate Timely(s: State)
    requires |s.leases| == |s.locals|
  {
    forall i :: 0 <= i < |s.locals| && Active(s.locals[i]) ==> Before(s.now, s.leases[i])
  }

  /** Every active mutex object finishes before its deadline, at every point of the run. */
  predicate TimelyRun(cs: seq<Config>, steps: seq<Step>) {
    forall k :: 0 <= k <= |steps| ==> Timely(Run(cs, steps[..k]))
  }

  predicate Owns(c: Config, store: Store) {
    c.lockKey in store && store[c.lockKey].value == c.lockValue
  }

  /** Active objects own their key, a key carries the deadline of its owner's lease, and the
      polling loop runs with `locked` set. */
  predicate Good(c: Config, l: Local, lease: Deadline, store: Store) {
    && (Active(l) ==> Owns(c, store))
    && (Owns(c, store) ==> store[c.lockKey].deadline == lease)
    && (l.pc.Poll? ==> l.locked)
  }

  predicate Inv(cs: seq<Config>, s: State) {
    Sized(cs, s) && forall i :: 0 <= i < |cs| ==> Good(cs[i], s.locals[i], s.leases[i], s.store)
  }

  predicate InTime(l: Local, lease: Deadline, now: int) { Active(l) ==> Before(now, lease) }

  /** The command of one object keeps that object good. */
  lemma CommandKeepsOwner(c: Config, l: Local, lease: Deadline, now: int, store: Store, fault: Fault)
    requires Good(c, l, lease, store) && InTime(l, lease, now)
    requires var (_, r) := Serve(c, l.pc, now, store);
      InTime(OnReply(c, l, if fault.Fine? then r else Failed), LeaseAfter(c, l.pc, r, now, lease), now)
    ensures var (store', r) := Serve(c, l.pc, now, store);
      Good(c, OnReply(c, l, if fault.Fine? then r else Failed), LeaseAfter(c, l.pc, r, now, lease), store')
  {
  }

  /** It keeps every other object good: a key in use is not set again, and only an object
      that owns the key deletes it or moves its deadline. */
  lemma CommandKeepsOther(c: Config, l: Local, lease: Deadline, now: int, store: Store,
                          other: Config, l': Local, lease': Deadline)
    requires Good(c, l, lease, store) && InTime(l, lease, now)
    requires Good(other, l', lease', store) && InTime(l', lease', now)
    requires c.lockKey == other.lockKey ==> c.lockValue != other.lockValue
    ensures Good(other, l', lease', Serve(c, l.pc, now, store).0)
  {
  }

  lemma NextKeepsInv(cs: seq<Config>, s: State, step: Step)
    requires DistinctValues(cs) && Inv(cs, s) && Timely(s) && Timely(Next(cs, s, step))
    ensures Inv(cs, Next(cs, s, step))
  {
    var t := Next(cs, s, step);
    if step.Command? && step.i < |cs| && !step.fault.Unsent? {
      var i := step.i;
      forall j | 0 <= j < |cs| ensures Good(cs[j], t.locals[j], t.leases[j], t.store) {
        if j == i {
          assert InTime(s.locals[i], s.leases[i], s.now) && InTime(t.locals[i], t.leases[i], t.now);
          CommandKeepsOwner(cs[i], s.locals[i], s.leases[i], s.now, s.store, step.fault);
        } else {
          assert InTime(s.locals[i], s.leases[i], s.now) && InTime(s.locals[j], s.leases[j], s.now);
          CommandKeepsOther(cs[i], s.locals[i], s.leases[i], s.now, s.store,
                            cs[j], s.locals[j], s.leases[j]);
        }
      }
    }
  }

  lemma {:induction false} RunKeepsInv(cs: seq<Config>, steps: seq<Step>)
    requires DistinctValues(cs) && TimelyRun(cs, steps)
    ensures Inv(cs, Run(cs, steps))
  {
    if steps != [] {
      var before := steps[..|steps| - 1];
      assert forall k :: 0 <= k <= |before| ==> before[..k] == steps[..k];
      RunKeepsInv(cs, before);
      assert steps[..|steps|] == steps;
      NextKeepsInv(cs, Run(cs, before), steps[|steps| - 1]);
    }
  }

  /** Mutual exclusion: in every run in which each holder finishes its `Unlock` before its
      key's deadline, two objects with the same key never hold the lock together. */
  lemma MutualExclusion(cs: seq<Config>, steps: seq<Step>, i: nat, j: nat)
    requires DistinctValues(cs) && TimelyRun(cs, steps)
    requires i < j < |cs| && cs[i].lockKey == cs[j].lockKey
    ensures !(Run(cs, steps).locals[i].holding && Run(cs, steps).locals[j].holding)
  {
    RunKeepsInv(cs, steps);
    var s := Run(cs, steps);
    assert Good(cs[i], s.locals[i], s.leases[i], s.store);
    assert Good(cs[j], s.locals[j], s.leases[j], s.store);
  }

  /** No command changes a key that carries another object's value while that object is
      active: a DEL or EXPIRE that is about to run always meets its own value. */
  lemma {:induction false} DelRemovesOwnKey(cs: seq<Config>, steps: seq<Step>, i: nat)
    requires DistinctValues(cs) && TimelyRun(cs, steps) && i < |cs|
    requires Run(cs, steps).locals[i].pc.UnlockDel? || Run(cs, steps).locals[i].pc.ExtendSet?
    ensures var s := Run(cs, steps);
      Live(s.store, s.now, cs[i].lockKey) && s.store[cs[i].lockKey].value == cs[i].lockValue
  {
    RunKeepsInv(cs, steps);
    var s := Run(cs, steps);
    assert Good(cs[i], s.locals[i], s.leases[i], s.store);
    assert steps[..|steps|] == steps;
    assert Timely(s);
  }

  lemma TimelySnoc(cs: seq<Config>, steps: seq<Step>, step: Step)
    requires TimelyRun(cs, steps) && Timely(Next(cs, Run(cs, steps), step))
    ensures TimelyRun(cs, steps + [step])
  {
    var all := steps + [step];
    RunSnoc(cs, steps, step);
    forall k | 0 <= k <= |all| ensures Timely(Run(cs, all[..k])) {
      assert all[..k] == if k <= |steps| then steps[..k] else all;
    }
  }

  /** The system when only object `i` has done something. */
  function Alone(cs: seq<Config>, i: nat, now: int, store: Store, l: Local, lease: Deadline): State
    requires i < |cs|
  {
    var s := Initial(cs);
    State(now, store, s.locals[i := l], s.leases[i := lease])
  }

  lemma AloneIsTimely(cs: seq<Config>, i: nat, now: int, store: Store, l: Local, lease: Deadline)
    requires i < |cs| && (Active(l) ==> Before(now, lease))
    ensures Timely(Alone(cs, i, now, store, l, lease))
  {
  }

  /** Runs of this kind exist: a lock that is held for less than its expiry and then released. */
  lemma {:induction false} ShortHoldIsTimely(cs: seq<Config>, i: nat, d: nat)
    requires i < |cs| && (cs[i].expire == 0 || d < cs[i].expire)
    ensures var held := [] + [Lock(i)] + [Command(i, Fine)] + [Tick(d)];
      && TimelyRun(cs, held + [Unlock(i)]) && Run(cs, held).locals[i].holding
      && !Run(cs, held + [Unlock(i)]).locals[i].holding
  {
    var free := Local(Idle, false, false, false);
    var lease := DeadlineIn(0, cs[i].expire);
    var store := map[cs[i].lockKey := Entry(cs[i].lockValue, lease)];
    var r: seq<Step> := [];
    var s := Alone(cs, i, 0, map[], free, Never);
    assert Run(cs, r) == s && TimelyRun(cs, r) by {
      assert Initial(cs).locals[i := free] == Initial(cs).locals;
      assert Initial(cs).leases[i := Never] == Initial(cs).leases;
      AloneIsTimely(cs, i, 0, map[], free, Never);
    }
    r := OneAlone(cs, i, r, s, Lock(i), 0, map[], free.(pc := Try, mu := true), Never);
    s := Alone(cs, i, 0, map[], free.(pc := Try, mu := true), Never);
    var held := free.(mu := true, holding := true);
    r := OneAlone(cs, i, r, s, Command(i, Fine), 0, store, held, lease);
    r := OneAlone(cs, i, r, Alone(cs, i, 0, store, held, lease), Tick(d), d, store, held, lease);
    r := OneAlone(cs, i, r, Alone(cs, i, d, store, held, lease), Unlock(i), d, store, free, lease);
  }

  lemma OneAlone(cs: seq<Config>, i: nat, steps: seq<Step>, s: State, step: Step,
                 now: int, store: Store, l: Local, lease: Deadline) returns (r: seq<Step>)
    requires i < |cs| && Sized(cs, s) && Run(cs, steps) == s && TimelyRun(cs, steps)
    requires Next(cs, s, step) == Alone(cs, i, now, store, l, lease) && (Active(l) ==> Before(now, lease))
    ensures r == steps + [step] && TimelyRun(cs, r) && Run(cs, r) == Alone(cs, i, now, store, l, lease)
  {
    r := steps + [step];
    AloneIsTimely(cs, i, now, store, l, lease);
    RunSnoc(cs, steps, step);
    TimelySnoc(cs, steps, step);
  }

  // ---- Where the guarantees end ----

  lemma RunSnoc(cs: seq<Config>, steps: seq<Step>, step: Step)
    ensures Run(cs, steps + [step]) == Next(cs, Run(cs, steps), step)
  {
    assert (steps + [step])[..|steps|] == steps;
  }

  /** The deadline condition cannot be dropped: whenever a holder has let its key expire,
      one `Lock` by any idle object makes two holders. */
  lemma LateHolderIsNotExcluded(cs: seq<Config>, steps: seq<Step>, i: nat, j: nat)
    requires i < |cs| && j < |cs| && i != j && cs[i].lockKey == cs[j].lockKey
    requires var s := Run(cs, steps);
      && s.locals[i].holding && !Live(s.store, s.now, cs[i].lockKey)
      && s.locals[j].pc.Idle? && !s.locals[j].mu
    ensures var t := Run(cs, steps + [Lock(j)] + [Command(j, Fine)]);
      t.locals[i].holding && t.locals[j].holding
  {
    RunSnoc(cs, steps, Lock(j));
    RunSnoc(cs, steps + [Lock(j)], Command(j, Fine));
  }

  /** The key of a holder is removed by its `Unlock` exactly when `locked` was set. */
  lemma UnlockDeletesIffLocked(cs: seq<Config>, s: State, i: nat)
    requires Inv(cs, s) && Timely(s) && i < |cs|
    requires s.locals[i].holding && s.locals[i].mu && s.locals[i].pc.Idle?
    ensures var t := Next(cs, Next(cs, Next(cs, s, Unlock(i)), Command(i, Fine)), Command(i, Fine));
      && t.locals[i].pc.Idle? && !t.locals[i].holding
      && (cs[i].lockKey !in t.store <==> s.locals[i].locked)
      && (!s.locals[i].locked ==> t.store == s.store)
  {
    assert Good(cs[i], s.locals[i], s.leases[i], s.store) && InTime(s.locals[i], s.leases[i], s.now);
  }

  /** `locked` is set by the contended path only, so a lock taken at the first attempt on a
      free key keeps its key after `Unlock`, for as long as its expiry says. */
  lemma UncontendedLockOutlivesUnlock(cs: seq<Config>, s: State, i: nat)
    requires Sized(cs, s) && i < |cs| && s.locals[i] == Local(Idle, false, false, false)
    requires !Live(s.store, s.now, cs[i].lockKey)
    ensures var t := Next(cs, Next(cs, Next(cs, s, Lock(i)), Command(i, Fine)), Unlock(i));
      && t.locals[i] == s.locals[i] && t.store.Keys == s.store.Keys + {cs[i].lockKey}
      && (forall k :: k in s.store && k != cs[i].lockKey ==> t.store[k] == s.store[k])
      && t.store[cs[i].lockKey].value == cs[i].lockValue
      && forall n :: Live(t.store, n, cs[i].lockKey) <==> cs[i].expire == 0 || n < s.now + cs[i].expire
  {
  }

  /** How long a granted key lives: a time `d` after the grant it is there, and refuses every
      other object, if and only if there is no expiry or `d` is less than it. */
  lemma LeaseLastsIff(cs: seq<Config>, s: State, i: nat, j: nat, d: nat)
    requires Sized(cs, s) && i < |cs| && j < |cs| && i != j && cs[i].lockKey == cs[j].lockKey
    requires (s.locals[i].pc.Try? || s.locals[i].pc.Poll?) && !Live(s.store, s.now, cs[i].lockKey)
    requires s.locals[j].pc.Try? && !s.locals[j].holding
    ensures var t := Next(cs, Next(cs, s, Command(i, Fine)), Tick(d));
      var u := Next(cs, t, Command(j, Fine));
      && t.locals[i].holding
      && (Live(t.store, t.now, cs[i].lockKey) <==> cs[i].expire == 0 || d < cs[i].expire)
      && (u.locals[j].pc.Poll? <==> cs[i].expire == 0 || d < cs[i].expire)
      && (u.locals[j].holding <==> cs[i].expire != 0 && d >= cs[i].expire)
  {
  }

  /** A Lock whose command fails returns an error without the lock and keeps the local lock, so
      the same object cannot lock again. When only the reply was lost, the key is set all the
      same, although nobody holds it. */
  lemma FailedLockBlocks(cs: seq<Config>, s: State, i: nat, fault: Fault)
    requires Sized(cs, s) && i < |cs| && !fault.Fine? && !Live(s.store, s.now, cs[i].lockKey)
    requires s.locals[i].mu && !s.locals[i].holding && (s.locals[i].pc.Try? || s.locals[i].pc.Poll?)
    ensures var t := Next(cs, s, Command(i, fault));
      && t.locals[i] == s.locals[i].(pc := Idle) && Next(cs, t, Lock(i)) == t
      && (fault.Unsent? ==> t.store == s.store)
      && (fault.ReplyLost? ==> cs[i].lockKey in t.store && t.store[cs[i].lockKey].value == cs[i].lockValue)
  {
    var t := Next(cs, s, Command(i, fault));
    assert t.locals[i := t.locals[i]] == t.locals;
  }

  /** An Unlock or Extend that comes after the deadline finds no key and touches nothing. */
  lemma LateCommandTouchesNothing(cs: seq<Config>, s: State, i: nat)
    requires Sized(cs, s) && i < |cs| && !Live(s.store, s.now, cs[i].lockKey)
    requires s.locals[i].pc.UnlockGet? || s.locals[i].pc.ExtendGet?
    ensures var t := Next(cs, s, Command(i, Fine));
      && t.store == s.store && t.locals[i].pc.Idle? && t.locals[i].locked == s.locals[i].locked
      && (s.locals[i].pc.UnlockGet? ==> !t.locals[i].holding)
  {
  }

  /** So exclusion does fail without it: two objects sharing a key with an expiry can both
      hold the lock in some run. */
  lemma {:induction false} ExclusionNeedsDeadlines(cs: seq<Config>, i: nat, j: nat)
    requires i < |cs| && j < |cs| && i != j && cs[i].lockKey == cs[j].lockKey && cs[i].expire > 0
    ensures exists steps :: Run(cs, steps).locals[i].holding && Run(cs, steps).locals[j].holding
  {
    var r0: seq<Step> := [];
    var r1 := r0 + [Lock(i)];
    RunSnoc(cs, r0, Lock(i));
    var r2 := r1 + [Command(i, Fine)];
    RunSnoc(cs, r1, Command(i, Fine));
    var r3 := r2 + [Tick(cs[i].expire)];
    RunSnoc(cs, r2, Tick(cs[i].expire));
    LateHolderIsNotExcluded(cs, r3, i, j);
  }

  /** An `Extend` sets the deadline of a holder's key exactly when `locked` is set, a timeout
      that is not positive removing the key at once. It clears `locked`, so the key then
      outlives the following `Unlock`. */
  lemma ExtendThenUnlock(cs: seq<Config>, s: State, i: nat, timeout: int)
    requires Inv(cs, s) && Timely(s) && i < |cs|
    requires s.locals[i].holding && s.locals[i].mu && s.locals[i].pc.Idle?
    ensures var t := Next(cs, Next(cs, Next(cs, s, Extend(i, timeout)), Command(i, Fine)), Command(i, Fine));
      && (cs[i].lockKey in t.store <==> !s.locals[i].locked || timeout > 0)
      && (s.locals[i].locked && timeout > 0 ==>
          t.store[cs[i].lockKey] == Entry(cs[i].lockValue, At(s.now + timeout)))
      && (s.locals[i].locked ==> !t.locals[i].locked && t.locals[i].holding)
      && (!s.locals[i].locked ==> t == s)
      && Next(cs, t, Unlock(i)).store == t.store && Next(cs, t, Unlock(i)).locals[i].pc.Idle?
  {
    assert Good(cs[i], s.locals[i], s.leases[i], s.store) && InTime(s.locals[i], s.leases[i], s.now);
    var u := Next(cs, s, Extend(i, timeout));
    if !s.locals[i].locked {
      assert u == s;
      assert Next(cs, s, Command(i, Fine)) == s;
    }
  }

  // ---- The mutex object ----

  /** The state after a series of replies to the commands of one object. */
  function Feed(c: Config, l: Local, replies: seq<Reply>): Local {
    if replies == [] then l
    else OnReply(c, Feed(c, l, replies[..|replies| - 1]), replies[|replies| - 1])
  }

  lemma FeedNext(c: Config, l: Local, replies: seq<Reply>, k: nat)
    requires k < |replies|
    ensures Feed(c, l, replies[..k + 1]) == OnReply(c, Feed(c, l, replies[..k]), replies[k])
  {
    assert replies[..k + 1][..k] == replies[..k];
  }

  /** One turn of the polling loop. */
  lemma PollTurn(c: Config, l: Local, replies: seq<Reply>, k: nat)
    requires k < |replies|
    requires Feed(c, l, replies[..k]) == Local(Poll, l.mu, true, false)
    ensures Feed(c, l, replies[..k + 1])
      == Local(if replies[k] == Bool(false) then Poll else Idle, l.mu, true, replies[k] == Bool(true))
  {
    FeedNext(c, l, replies, k);
  }

  datatype Result = Ok | Error | Waiting

  class Mutex {
    const lockKey: string
    const lockValue: string
    const expire: nat
    var locked: bool
    var mu: bool

    function Cfg(): Config { Config(lockKey, lockValue, expire) }

    constructor (lockKey: string, lockValue: string, expire: nat)
      ensures this.lockKey == lockKey && this.lockValue == lockValue && this.expire == expire
      ensures !locked && !mu
    {
      this.lockKey, this.lockValue, this.expire := lockKey, lockValue, expire;
      locked, mu := false, false;
    }

    /** `Lock` against the replies the server gives; `Waiting` when they run out. It returns
        nil exactly when the last reply it used granted the key, all earlier ones refused. */
    method Lock(replies: seq<Reply>) returns (r: Result, used: nat)
      requires !mu
      modifies this
      ensures mu && used <= |replies|
      ensures var l := Feed(Cfg(), Local(Try, true, old(locked), false), replies[..used]);
        l.locked == locked && l.mu == mu && l.holding == (r == Ok) && (l.pc.Idle? <==> r != Waiting)
      ensures r == Ok <==> used > 0 && replies[used - 1] == Bool(true)
      ensures r == Waiting ==> used == |replies|
      ensures forall k :: 0 <= k < used - 1 ==> replies[k] == Bool(false)
      ensures locked == (old(locked) || (used > 0 && replies[0] == Bool(false)))
    {
      mu := true;
      r, used := CommonLock(replies);
    }

    method CommonLock(replies: seq<Reply>) returns (r: Result, used: nat)
      modifies this`locked
      ensures used <= |replies|
      ensures var l := Feed(Cfg(), Local(Try, mu, old(locked), false), replies[..used]);
        l == Local(l.pc, mu, locked, r == Ok) && (l.pc.Idle? <==> r != Waiting)
      ensures r == Ok <==> used > 0 && replies[used - 1] == Bool(true)
      ensures r == Waiting ==> used == |replies|
      ensures forall k :: 0 <= k < used - 1 ==> replies[k] == Bool(false)
      ensures locked == (old(locked) || (used > 0 && replies[0] == Bool(false)))
    {
      ghost var start := Local(Try, mu, locked, false);
      used := 0;
      if |replies| == 0 {
        return Waiting, used;
      }
      var result := replies[0];
      used := 1;
      FeedNext(Cfg(), start, replies, 0);
      if !result.Bool? {
        return Error, used;
      }
      if !result.b {
        locked := true;
        r, used := PollLoop(replies, start);
        return;
      }
      r := Ok;
    }

    /** The loop of `CommonLock` after a refused first reply. */
    method PollLoop(replies: seq<Reply>, ghost start: Local) returns (r: Result, used: nat)
      requires |replies| > 0 && replies[0] == Bool(false) && locked
      requires Feed(Cfg(), start, replies[..1]) == Local(Poll, start.mu, true, false)
      ensures 1 <= used <= |replies|
      ensures Feed(Cfg(), start, replies[..used])
        == Local(if r == Waiting then Poll else Idle, start.mu, true, r == Ok)
      ensures r == Ok <==> replies[used - 1] == Bool(true)
      ensures r == Waiting ==> used == |replies|
      ensures forall k :: 0 <= k < used - 1 ==> replies[k] == Bool(false)
    {
      used := 1;
      while used < |replies|
        invariant 1 <= used <= |replies|
        invariant Feed(Cfg(), start, replies[..used]) == Local(Poll, start.mu, true, false)
        invariant forall k :: 0 <= k < used ==> replies[k] == Bool(false)
      {
        PollTurn(Cfg(), start, replies, used);
        var result := replies[used];
        used := used + 1;
        if !result.Bool? {
          return Error, used;
        }
        if result.b || !locked {
          return Ok, used;
        }
      }
      r := Waiting;
    }

    /** `Unlock` against the replies to its GET and its DEL; `deletes` says whether DEL is
        sent. */
    method Unlock(get: Reply, del: Reply) returns (r: Result, deletes: bool)
      requires mu
      modifies this
      ensures !mu
      ensures deletes <==> old(locked) && get == Value(lockValue)
      ensures locked <==> old(locked) && (!deletes || del.Failed?)
      ensures r == Ok <==> !old(locked) || (get.Value? && (deletes ==> !del.Failed?))
      ensures var l := CallUnlock(Local(Idle, true, old(locked), true));
        Feed(Cfg(), l, if !old(locked) then [] else if deletes then [get, del] else [get])
        == Local(Idle, false, locked, false)
    {
      mu := false;
      r, deletes := CommonUnlock(get, del);
    }

    method CommonUnlock(get: Reply, del: Reply) returns (r: Result, deletes: bool)
      modifies this`locked
      ensures deletes <==> old(locked) && get == Value(lockValue)
      ensures locked <==> old(locked) && (!deletes || del.Failed?)
      ensures r == Ok <==> !old(locked) || (get.Value? && (deletes ==> !del.Failed?))
      ensures var l := CallUnlock(Local(Idle, true, old(locked), true));
        Feed(Cfg(), l, if !old(locked) then [] else if deletes then [get, del] else [get])
        == Local(Idle, false, locked, false)
    {
      r, deletes := Ok, false;
      if locked {
        FeedTwo(Cfg(), Local(UnlockGet, false, true, true), get, del);
        if !get.Value? {
          return Error, false;
        }
        if lockValue == get.v {
          deletes := true;
          if del.Failed? {
            return Error, true;
          }
          locked := false;
        }
      }
    }

    /** `Extend` against the replies to its GET and its EXPIRE. */
    method Extend(timeout: int, get: Reply, expired: Reply) returns (r: Result, prolongs: bool)
      modifies this`locked
      ensures prolongs <==> old(locked) && get == Value(lockValue)
      ensures locked <==> old(locked) && (!prolongs || expired.Failed?)
      ensures r == Ok <==> !old(locked) || (get.Value? && (prolongs ==> !expired.Failed?))
      ensures forall holding :: var l := CallExtend(Local(Idle, mu, old(locked), holding), timeout);
        Feed(Cfg(), l, if !old(locked) then [] else if prolongs then [get, expired] else [get])
        == Local(Idle, mu, locked, holding)
    {
      r, prolongs := Ok, false;
      if locked {
        FeedTwo(Cfg(), Local(ExtendGet(timeout), mu, true, true), get, expired);
        FeedTwo(Cfg(), Local(ExtendGet(timeout), mu, true, false), get, expired);
        if !get.Value? {
          return Error, false;
        }
        if lockValue == get.v {
          prolongs := true;
          if expired.Failed? {
            return Error, true;
          }
          locked := false;
        }
      }
    }
  }

  lemma FeedTwo(c: Config, l: Local, a: Reply, b: Reply)
    ensures Feed(c, l, [a]) == OnReply(c, l, a)
    ensures Feed(c, l, [a, b]) == OnReply(c, OnReply(c, l, a), b)
  {
    assert [a][..0] == [] && [a, b][..1] == [a];
  }
}
