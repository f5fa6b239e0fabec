/** The reader/writer lock on PostgreSQL advisory locks: any number of mutex objects, each
    driven by one goroutine, interleaved at single requests on pooled sessions. The server
    follows section 13.3.5 of the PostgreSQL documentation. */
module PqMutex {
  import opened Common
  import opened Strings

  datatype Mode = Exclusive | Shared

  // ---- One mutex object ----

  /** What the goroutine of one object does next. `Crashed` is the nil dereference of an
      `Unlock` that finds `locked` set and no connection. */
  datatype Pc =
    | Idle
    | Connect(mode: Mode) | First(mode: Mode) | Poll(mode: Mode)
    | UnlockExec(mode: Mode) | UnlockClose
    | Crashed

  /** `mu` is the local lock. `holding` is set by a Lock that returned nil and cleared by the
      next call of Unlock. */
  datatype Local = Local(
    pc: Pc, mu: Option<Mode>, locked: bool, conn: Option<nat>, holding: Option<Mode>)

  const Fresh := Local(Idle, None, false, None, None)

  datatype Reply = Granted(b: bool) | Failed | Cancelled

  /** LockContext and RWLockContext wait for the local lock. */
  function CallLock(l: Local, mode: Mode): Local {
    if l.pc.Idle? && l.mu.None? then l.(pc := Connect(mode), mu := Some(mode)) else l
  }

  function OnConn(l: Local, conn: Option<nat>): Local {
    if !l.pc.Connect? then l
    else l.(conn := conn, pc := if conn.None? then Idle else First(l.pc.mode))
  }

  /** The reply to the first request, and then one turn of the ticker loop. */
  function OnReply(l: Local, r: Reply): Local {
    match l.pc
    case First(mode) =>
      if !r.Granted? then l.(pc := Idle)
      else if r.b then l.(pc := Idle, locked := true, holding := Some(mode))
      else l.(pc := Poll(mode), locked := true)
    case Poll(mode) =>
      if !r.Granted? then l.(pc := Idle)
      else if r.b || !l.locked then l.(pc := Idle, holding := Some(mode))
      else l
    case _ => l
  }

  /** UnlockContext and RWUnlockContext; a mismatch with the local lock is a runtime fault
      of its own and so not a step. */
  function CallUnlock(l: Local, mode: Mode): Local {
    if !l.pc.Idle? || l.mu != Some(mode) then l
    else l.(mu := None, holding := None,
            pc := if !l.locked then Idle else if l.conn.None? then Crashed else UnlockExec(mode))
  }

  function OnExec(l: Local, ok: bool): Local {
    if !l.pc.UnlockExec? then l else l.(pc := if ok then UnlockClose else Idle)
  }

  function OnClose(l: Local, ok: bool): Local {
    if !l.pc.UnlockClose? then l
    else l.(pc := Idle, conn := None, locked := if ok then false else l.locked)
  }

  // ---- The server and the connection pool ----

  datatype Grant = Grant(key: int, session: nat, mode: Mode)

  /** How many times each lock is held; a session may hold one several times. */
  type Table = map<Grant, nat>

  function Plus(table: Table, g: Grant): Table {
    table[g := (if g in table then table[g] else 0) + 1]
  }

  function Minus(table: Table, g: Grant): Table {
    if g in table && table[g] > 1 then table[g := table[g] - 1] else table - {g}
  }

  /** The end of a session releases all its locks. */
  function Without(table: Table, session: nat): Table {
    map g | g in table && g.session != session :: table[g]
  }

  /** `table` counts the advisory locks granted, `idle` are the sessions waiting in the pool,
      `sessions` the number of sessions ever opened and `dead` those the server lost. */
  datatype State = State(
    table: Table, idle: set<nat>, sessions: nat, dead: set<nat>, locals: seq<Local>)

  /** pg_try_advisory_lock: other sessions must not conflict; the own session never does. */
  ghost predicate CanGrant(table: Table, key: int, session: nat, mode: Mode) {
    forall g :: g in table && g.key == key && g.session != session ==> mode.Shared? && g.mode.Shared?
  }

  datatype Fault = Fine | Unsent | ReplyLost

  datatype Step =
    | Lock(i: nat, mode: Mode) | Unlock(i: nat, mode: Mode)
    | ConnFail(i: nat) | ConnNew(i: nat) | ConnReuse(i: nat, session: nat)
    | Request(i: nat, fault: Fault) | Cancel(i: nat)
    | Exec(i: nat, fault: Fault) | Close(i: nat, ok: bool)
    | Drop(session: nat)

  /** Object `i` becomes `l`. */
  function With(s: State, i: nat, l: Local): State
    requires i < |s.locals|
  {
    s.(locals := s.locals[i := l])
  }

  predicate Asking(l: Local) { (l.pc.First? || l.pc.Poll?) && l.conn.Some? }

  ghost function ServeRequest(ids: seq<int>, s: State, i: nat, fault: Fault): State
    requires i < |s.locals| == |ids|
  {
    var l := s.locals[i];
    if !Asking(l) then s
    else if fault.Unsent? || l.conn.value in s.dead then With(s, i, OnReply(l, Failed))
    else
      var ok := CanGrant(s.table, ids[i], l.conn.value, l.pc.mode);
      var g := Grant(ids[i], l.conn.value, l.pc.mode);
      With(s, i, OnReply(l, if fault.Fine? then Granted(ok) else Failed))
      .(table := if ok then Plus(s.table, g) else s.table)
  }

  /** pg_advisory_unlock: releases one lock of the session, or nothing with a warning. */
  function ServeUnlock(ids: seq<int>, s: State, i: nat, fault: Fault): State
    requires i < |s.locals| == |ids|
  {
    var l := s.locals[i];
    if !l.pc.UnlockExec? || l.conn.None? then s
    else if fault.Unsent? || l.conn.value in s.dead then With(s, i, OnExec(l, false))
    else
      With(s, i, OnExec(l, fault.Fine?))
      .(table := Minus(s.table, Grant(ids[i], l.conn.value, l.pc.mode)))
  }

  ghost function Next(ids: seq<int>, s: State, step: Step): (t: State)
    requires |s.locals| == |ids|
    ensures |t.locals| == |ids|
  {
    match step
    case Lock(i, mode) => if i < |ids| then With(s, i, CallLock(s.locals[i], mode)) else s
    case Unlock(i, mode) => if i < |ids| then With(s, i, CallUnlock(s.locals[i], mode)) else s
    case ConnFail(i) => if i < |ids| then With(s, i, OnConn(s.locals[i], None)) else s
    case ConnNew(i) =>
      if i < |ids| && s.locals[i].pc.Connect?
      then With(s, i, OnConn(s.locals[i], Some(s.sessions))).(sessions := s.sessions + 1) else s
    case ConnReuse(i, session) =>
      if i < |ids| && s.locals[i].pc.Connect? && session in s.idle
      then With(s, i, OnConn(s.locals[i], Some(session))).(idle := s.idle - {session}) else s
    case Request(i, fault) => if i < |ids| then ServeRequest(ids, s, i, fault) else s
    case Cancel(i) =>
      if i < |ids| && s.locals[i].pc.Poll? then With(s, i, OnReply(s.locals[i], Cancelled)) else s
    case Exec(i, fault) => if i < |ids| then ServeUnlock(ids, s, i, fault) else s
    case Close(i, ok) =>
      if i < |ids| && s.locals[i].pc.UnlockClose? && s.locals[i].conn.Some?
      then With(s, i, OnClose(s.locals[i], ok))
           .(idle := if ok then s.idle + {s.locals[i].conn.value} else s.idle)
      else s
    case Drop(session) =>
      if session < s.sessions
      then s.(dead := s.dead + {session}, table := Without(s.table, session)) else s
  }

  ghost function Run(ids: seq<int>, steps: seq<Step>): (t: State)
    ensures |t.locals| == |ids|
  {
    if steps == [] then State(map[], {}, 0, {}, seq(|ids|, i => Fresh))
    else Next(ids, Run(ids, steps[..|steps| - 1]), steps[|steps| - 1])
  }

  // ---- What every step keeps ----

  /** Locks granted to different sessions on one key are all shared. */
  predicate Compatible(table: Table) {
    forall g, h :: g in table && h in table && g.key == h.key && g.session != h.session ==>
      g.mode.Shared? && h.mode.Shared?
  }

  /** The session holds at most one lock, once, and only the one described. */
  predicate AtMost(table: Table, session: nat, id: int, mode: Mode) {
    forall g :: g in table && g.session == session ==> g == Grant(id, session, mode) && table[g] == 1
  }

  predicate Empty(table: Table, session: nat) {
    forall g :: g in table ==> g.session != session
  }

  /** Which locks the session of an object may hold at each point of its code. */
  predicate SessionOk(id: int, l: Local, table: Table) {
    l.conn.Some? ==>
      match l.pc
      case First(_) => Empty(table, l.conn.value)
      case Poll(_) => Empty(table, l.conn.value) && l.locked
      case UnlockClose => Empty(table, l.conn.value)
      case UnlockExec(mode) => AtMost(table, l.conn.value, id, mode)
      case Idle => l.mu.Some? ==> AtMost(table, l.conn.value, id, l.mu.value)
      case _ => true
  }

  predicate ModeOk(l: Local) {
    && (l.pc.Connect? || l.pc.First? || l.pc.Poll? ==> l.mu == Some(l.pc.mode))
    && (l.pc.UnlockExec? || l.pc.UnlockClose? ==> l.mu.None? && l.conn.Some?)
    && (l.pc.First? || l.pc.Poll? ==> l.conn.Some?)
    && (l.holding.Some? ==> l.pc.Idle? && l.mu == l.holding && l.conn.Some? && l.locked)
  }

  /** A holder whose session is alive has its lock on the server. */
  predicate HolderOk(id: int, l: Local, table: Table, dead: set<nat>) {
    l.holding.Some? && l.conn.Some? && l.conn.value !in dead ==>
      Grant(id, l.conn.value, l.holding.value) in table
  }

  predicate Good(id: int, l: Local, s: State) {
    && ModeOk(l) && SessionOk(id, l, s.table) && HolderOk(id, l, s.table, s.dead)
    && (l.conn.Some? ==> l.conn.value < s.sessions && l.conn.value !in s.idle)
  }

  predicate PoolOk(s: State) {
    && (forall x :: x in s.idle ==> x < s.sessions && Empty(s.table, x))
    && (forall x :: x in s.dead ==> x < s.sessions)
    && (forall g :: g in s.table ==> g.session < s.sessions)
  }

  predicate OwnSessions(locals: seq<Local>) {
    forall i, j :: 0 <= i < j < |locals| && locals[i].conn.Some? ==> locals[i].conn != locals[j].conn
  }

  predicate Inv(ids: seq<int>, s: State) {
    && |s.locals| == |ids| && Compatible(s.table) && PoolOk(s) && OwnSessions(s.locals)
    && forall i :: 0 <= i < |ids| ==> Good(ids[i], s.locals[i], s)
  }

  /** The tables agree on the locks of one session. */
  predicate SameLocks(a: Table, b: Table, session: nat) {
    && (forall g :: g in a && g.session == session ==> g in b && a[g] == b[g])
    && (forall g :: g in b && g.session == session ==> g in a)
  }

  lemma OtherKept(id: int, l: Local, s: State, t: State)
    requires Good(id, l, s)
    requires s.sessions <= t.sessions && s.dead <= t.dead
    requires l.conn.Some? ==> SameLocks(s.table, t.table, l.conn.value) && l.conn.value !in t.idle
    ensures Good(id, l, t)
  {
  }

  /** Puts the parts together after a step of object `i`. */
  lemma InvAfter(ids: seq<int>, s: State, t: State, i: nat, l: Local)
    requires Inv(ids, s) && i < |ids| && t.locals == s.locals[i := l]
    requires Compatible(t.table) && PoolOk(t) && Good(ids[i], l, t)
    requires s.sessions <= t.sessions && s.dead <= t.dead
    requires forall j :: 0 <= j < |ids| && j != i && s.locals[j].conn.Some? ==>
      && SameLocks(s.table, t.table, s.locals[j].conn.value)
      && s.locals[j].conn.value !in t.idle
      && s.locals[j].conn != l.conn
    ensures Inv(ids, t)
  {
    forall j | 0 <= j < |ids| ensures Good(ids[j], t.locals[j], t) {
      if j != i {
        OtherKept(ids[j], s.locals[j], s, t);
      }
    }
  }

  /** A step that only moves one object along, with its connection kept or dropped. */
  lemma LocalStep(ids: seq<int>, s: State, i: nat, l: Local)
    requires Inv(ids, s) && i < |ids| && Good(ids[i], l, s)
    requires l.conn == s.locals[i].conn || l.conn.None?
    ensures Inv(ids, With(s, i, l))
  {
    InvAfter(ids, s, With(s, i, l), i, l);
  }

  lemma CallLockGood(id: int, l: Local, s: State, mode: Mode)
    requires Good(id, l, s)
    ensures Good(id, CallLock(l, mode), s)
  {
  }

  lemma CallUnlockGood(id: int, l: Local, s: State, mode: Mode)
    requires Good(id, l, s)
    ensures Good(id, CallUnlock(l, mode), s)
  {
  }

  lemma NotGrantedGood(id: int, l: Local, s: State, r: Reply)
    requires Good(id, l, s) && r != Granted(true)
    ensures Good(id, OnReply(l, r), s)
  {
  }

  lemma ConnNewKeepsInv(ids: seq<int>, s: State, i: nat)
    requires Inv(ids, s) && i < |ids|
    ensures Inv(ids, Next(ids, s, ConnNew(i)))
  {
    if s.locals[i].pc.Connect? {
      InvAfter(ids, s, Next(ids, s, ConnNew(i)), i, OnConn(s.locals[i], Some(s.sessions)));
    }
  }

  lemma ConnReuseKeepsInv(ids: seq<int>, s: State, i: nat, session: nat)
    requires Inv(ids, s) && i < |ids|
    ensures Inv(ids, Next(ids, s, ConnReuse(i, session)))
  {
    if s.locals[i].pc.Connect? && session in s.idle {
      InvAfter(ids, s, Next(ids, s, ConnReuse(i, session)), i, OnConn(s.locals[i], Some(session)));
    }
  }

  /** A granted lock is compatible with all others. */
  lemma GrantKeepsCompatible(table: Table, g: Grant)
    requires Compatible(table) && CanGrant(table, g.key, g.session, g.mode)
    ensures Compatible(Plus(table, g))
  {
  }

  lemma GrantedGood(id: int, l: Local, s: State, t: State, r: Reply)
    requires Good(id, l, s) && Asking(l) && r in {Granted(true), Failed}
    requires t.table == Plus(s.table, Grant(id, l.conn.value, l.pc.mode))
    requires t.idle == s.idle && t.sessions == s.sessions
    ensures Good(id, OnReply(l, r), t)
  {
  }

  lemma GrantKeepsInv(ids: seq<int>, s: State, i: nat, fault: Fault)
    requires Inv(ids, s) && i < |ids| && Asking(s.locals[i]) && !fault.Unsent?
    requires var l := s.locals[i];
      l.conn.value !in s.dead && CanGrant(s.table, ids[i], l.conn.value, l.pc.mode)
    ensures Inv(ids, Next(ids, s, Request(i, fault)))
  {
    var l := s.locals[i];
    var t := Next(ids, s, Request(i, fault));
    GrantKeepsCompatible(s.table, Grant(ids[i], l.conn.value, l.pc.mode));
    GrantedGood(ids[i], l, s, t, if fault.Fine? then Granted(true) else Failed);
    InvAfter(ids, s, t, i, t.locals[i]);
  }

  lemma RequestKeepsInv(ids: seq<int>, s: State, i: nat, fault: Fault)
    requires Inv(ids, s) && i < |ids|
    ensures Inv(ids, Next(ids, s, Request(i, fault)))
  {
    var l := s.locals[i];
    if Asking(l) {
      if fault.Unsent? || l.conn.value in s.dead {
        NotGrantedGood(ids[i], l, s, Failed);
        LocalStep(ids, s, i, OnReply(l, Failed));
      } else if CanGrant(s.table, ids[i], l.conn.value, l.pc.mode) {
        GrantKeepsInv(ids, s, i, fault);
      } else {
        var r := if fault.Fine? then Granted(false) else Failed;
        NotGrantedGood(ids[i], l, s, r);
        LocalStep(ids, s, i, OnReply(l, r));
      }
    }
  }

  lemma ReleasedGood(id: int, l: Local, s: State, t: State, ok: bool)
    requires Good(id, l, s) && l.pc.UnlockExec?
    requires t.table == Minus(s.table, Grant(id, l.conn.value, l.pc.mode))
    requires t.idle == s.idle && t.sessions == s.sessions
    ensures Good(id, OnExec(l, ok), t) && Empty(t.table, l.conn.value)
  {
  }

  lemma ExecKeepsInv(ids: seq<int>, s: State, i: nat, fault: Fault)
    requires Inv(ids, s) && i < |ids|
    ensures Inv(ids, Next(ids, s, Exec(i, fault)))
  {
    var l := s.locals[i];
    if l.pc.UnlockExec? {
      var t := Next(ids, s, Exec(i, fault));
      if fault.Unsent? || l.conn.value in s.dead {
        LocalStep(ids, s, i, t.locals[i]);
      } else {
        ReleasedGood(ids[i], l, s, t, fault.Fine?);
        InvAfter(ids, s, t, i, t.locals[i]);
      }
    }
  }

  lemma CloseKeepsInv(ids: seq<int>, s: State, i: nat, ok: bool)
    requires Inv(ids, s) && i < |ids|
    ensures Inv(ids, Next(ids, s, Close(i, ok)))
  {
    if s.locals[i].pc.UnlockClose? {
      InvAfter(ids, s, Next(ids, s, Close(i, ok)), i, OnClose(s.locals[i], ok));
    }
  }

  lemma DropKeepsInv(ids: seq<int>, s: State, session: nat)
    requires Inv(ids, s)
    ensures Inv(ids, Next(ids, s, Drop(session)))
  {
    var t := Next(ids, s, Drop(session));
    forall j | 0 <= j < |ids| ensures Good(ids[j], t.locals[j], t) {
      assert Good(ids[j], s.locals[j], s);
    }
  }

  lemma NextKeepsInv(ids: seq<int>, s: State, step: Step)
    requires Inv(ids, s)
    ensures Inv(ids, Next(ids, s, step))
  {
    match step
    case Lock(i, mode) =>
      if i < |ids| {
        CallLockGood(ids[i], s.locals[i], s, mode);
        LocalStep(ids, s, i, CallLock(s.locals[i], mode));
      }
    case Unlock(i, mode) =>
      if i < |ids| {
        CallUnlockGood(ids[i], s.locals[i], s, mode);
        LocalStep(ids, s, i, CallUnlock(s.locals[i], mode));
      }
    case ConnFail(i) =>
      if i < |ids| {
        LocalStep(ids, s, i, OnConn(s.locals[i], None));
      }
    case ConnNew(i) => if i < |ids| { ConnNewKeepsInv(ids, s, i); }
    case ConnReuse(i, session) => if i < |ids| { ConnReuseKeepsInv(ids, s, i, session); }
    case Request(i, fault) => if i < |ids| { RequestKeepsInv(ids, s, i, fault); }
    case Cancel(i) =>
      if i < |ids| && s.locals[i].pc.Poll? {
        NotGrantedGood(ids[i], s.locals[i], s, Cancelled);
        LocalStep(ids, s, i, OnReply(s.locals[i], Cancelled));
      }
    case Exec(i, fault) => if i < |ids| { ExecKeepsInv(ids, s, i, fault); }
    case Close(i, ok) => if i < |ids| { CloseKeepsInv(ids, s, i, ok); }
    case Drop(session) => DropKeepsInv(ids, s, session);
  }

  lemma {:induction false} RunKeepsInv(ids: seq<int>, steps: seq<Step>)
    ensures Inv(ids, Run(ids, steps))
  {
    if steps != [] {
      RunKeepsInv(ids, steps[..|steps| - 1]);
      NextKeepsInv(ids, Run(ids, steps[..|steps| - 1]), steps[|steps| - 1]);
    }
  }

  // ---- Exclusion ----

  /** Reader/writer exclusion: in every reachable state, two different objects that hold
      locks with the same id, with their sessions alive, are both readers. */
  lemma Exclusion(ids: seq<int>, steps: seq<Step>, i: nat, j: nat)
    requires i < |ids| && j < |ids| && i != j && ids[i] == ids[j]
    requires var s := Run(ids, steps);
      && s.locals[i].holding.Some? && s.locals[j].holding.Some?
      && (s.locals[i].conn.Some? ==> s.locals[i].conn.value !in s.dead)
      && (s.locals[j].conn.Some? ==> s.locals[j].conn.value !in s.dead)
    ensures var s := Run(ids, steps);
      s.locals[i].holding == Some(Shared) && s.locals[j].holding == Some(Shared)
  {
    RunKeepsInv(ids, steps);
    var s := Run(ids, steps);
    var a, b := s.locals[i], s.locals[j];
    assert Good(ids[i], a, s) && Good(ids[j], b, s);
    assert OwnSessions(s.locals) && a.conn != b.conn;
    assert Grant(ids[i], a.conn.value, a.holding.value) in s.table;
    assert Grant(ids[j], b.conn.value, b.holding.value) in s.table;
  }

  /** Readers coexist: while one object holds the lock as a reader, the request of any other
      reader on a living session is granted. */
  lemma ReadersCoexist(ids: seq<int>, steps: seq<Step>, i: nat, j: nat)
    requires i < |ids| && j < |ids| && i != j && ids[i] == ids[j]
    requires var s := Run(ids, steps);
      && s.locals[i].holding == Some(Shared)
      && (s.locals[i].conn.Some? ==> s.locals[i].conn.value !in s.dead)
      && Asking(s.locals[j]) && s.locals[j].pc.mode.Shared? && s.locals[j].conn.value !in s.dead
    ensures var t := Next(ids, Run(ids, steps), Request(j, Fine));
      t.locals[i].holding == Some(Shared) && t.locals[j].holding == Some(Shared)
  {
    RunKeepsInv(ids, steps);
    var s := Run(ids, steps);
    assert Good(ids[i], s.locals[i], s) && Good(ids[j], s.locals[j], s);
    var g := Grant(ids[i], s.locals[i].conn.value, Shared);
    assert g in s.table;
    assert CanGrant(s.table, ids[j], s.locals[j].conn.value, Shared) by {
      forall h | h in s.table && h.key == ids[j] && h.session != s.locals[j].conn.value
        ensures h.mode.Shared?
      {
        if h.session == g.session {
          assert AtMost(s.table, g.session, ids[i], Shared);
        }
      }
    }
  }

  /** Release: a session given back to the pool holds no lock, and neither does the session
      of an object that is about to give it back. */
  lemma UnlockReleases(ids: seq<int>, steps: seq<Step>, g: Grant)
    requires g in Run(ids, steps).table
    ensures var s := Run(ids, steps);
      && g.session !in s.idle
      && forall i :: 0 <= i < |ids| && s.locals[i].pc.UnlockClose? ==> s.locals[i].conn != Some(g.session)
  {
    RunKeepsInv(ids, steps);
    var s := Run(ids, steps);
    forall i | 0 <= i < |ids| && s.locals[i].pc.UnlockClose?
      ensures s.locals[i].conn != Some(g.session)
    {
      assert Good(ids[i], s.locals[i], s);
    }
  }

  lemma RunSnoc(ids: seq<int>, steps: seq<Step>, step: Step)
    ensures Run(ids, steps + [step]) == Next(ids, Run(ids, steps), step)
  {
    assert (steps + [step])[..|steps|] == steps;
  }

  /** Releasing once undoes granting once. */
  lemma MinusPlus(table: Table, g: Grant)
    requires g in table ==> table[g] >= 1
    ensures Minus(Plus(table, g), g) == table
  {
  }

  /** What an Unlock without any fault leaves: no connection, `locked` cleared, the session back
      in the pool and without a lock. */
  lemma {:induction false} UnlockGivesBack(ids: seq<int>, steps: seq<Step>, i: nat)
    requires i < |ids| && Run(ids, steps).locals[i].pc.UnlockExec?
    requires var l := Run(ids, steps).locals[i]; l.conn.Some? ==> l.conn.value !in Run(ids, steps).dead
    ensures var s := Run(ids, steps); var t := Next(ids, Next(ids, s, Exec(i, Fine)), Close(i, true));
      && s.locals[i].conn.Some? && t.locals[i] == s.locals[i].(pc := Idle, locked := false, conn := None)
      && s.locals[i].conn.value in t.idle && Empty(t.table, s.locals[i].conn.value)
  {
    RunKeepsInv(ids, steps);
    var s := Run(ids, steps);
    assert Good(ids[i], s.locals[i], s);
    ReleasedGood(ids[i], s.locals[i], s, Next(ids, s, Exec(i, Fine)), true);
  }

  /** A request that fails or is cancelled ends the Lock without the lock and keeps the session
      and the local lock, so the same object cannot lock again. */
  lemma FailedLockKeepsSession(ids: seq<int>, s: State, i: nat, step: Step)
    requires |s.locals| == |ids| && i < |ids| && Asking(s.locals[i])
    requires s.locals[i].mu.Some? && s.locals[i].holding.None?
    requires step == Request(i, Unsent) || step == Request(i, ReplyLost) || (step == Cancel(i) && s.locals[i].pc.Poll?)
    ensures var t := Next(ids, s, step);
      && t.locals[i] == s.locals[i].(pc := Idle) && t.idle == s.idle
      && forall mode :: Next(ids, t, Lock(i, mode)) == t
  {
    var t := Next(ids, s, step);
    assert t.locals[i := t.locals[i]] == t.locals;
  }

  /** When only the reply was lost the session holds the lock all the same: every other object
      is refused although nobody holds the lock. */
  lemma LostGrantBlocksOthers(ids: seq<int>, s: State, i: nat, j: nat)
    requires |s.locals| == |ids| && i < |ids| && j < |ids| && i != j && ids[i] == ids[j]
    requires Asking(s.locals[i]) && s.locals[i].pc.mode.Exclusive? && s.locals[i].holding.None?
    requires s.locals[i].conn.value !in s.dead
    requires CanGrant(s.table, ids[i], s.locals[i].conn.value, Exclusive)
    requires Asking(s.locals[j]) && s.locals[j].pc.First? && s.locals[j].holding.None?
    requires s.locals[j].conn.value !in s.dead && s.locals[j].conn != s.locals[i].conn
    ensures var t := Next(ids, Next(ids, s, Request(i, ReplyLost)), Request(j, Fine));
      t.locals[i].holding.None? && t.locals[i].pc.Idle? && t.locals[j].pc.Poll?
  {
    var t := Next(ids, s, Request(i, ReplyLost));
    assert Grant(ids[i], s.locals[i].conn.value, Exclusive) in t.table;
  }

  /** A failed connect ends the Lock without a session and keeps the local lock. */
  lemma FailedConnectKeepsMutex(ids: seq<int>, s: State, i: nat, mode: Mode, again: Mode)
    requires |s.locals| == |ids| && i < |ids| && s.locals[i].pc.Idle? && s.locals[i].mu.None?
    ensures var t := Next(ids, Next(ids, s, Lock(i, mode)), ConnFail(i));
      && t.locals[i] == s.locals[i].(mu := Some(mode), conn := None)
      && t.table == s.table && t.idle == s.idle && Next(ids, t, Lock(i, again)) == t
  {
    var t := Next(ids, Next(ids, s, Lock(i, mode)), ConnFail(i));
    assert t.locals[i := t.locals[i]] == t.locals;
  }

  /** An Unlock whose request is not sent reports an error and gives up the local lock, but the
      session still holds the advisory lock: every other object is refused. */
  lemma {:induction false} FailedUnlockBlocksOthers(ids: seq<int>, steps: seq<Step>, i: nat, j: nat)
    requires i < |ids| && j < |ids| && i != j && ids[i] == ids[j]
    requires var s := Run(ids, steps);
      && s.locals[i].holding == Some(Exclusive)
      && (s.locals[i].conn.Some? ==> s.locals[i].conn.value !in s.dead)
      && Asking(s.locals[j]) && s.locals[j].pc.First? && s.locals[j].conn.value !in s.dead
    ensures var s := Run(ids, steps);
      var u := Next(ids, Next(ids, s, Unlock(i, Exclusive)), Exec(i, Unsent));
      && u.locals[i] == s.locals[i].(mu := None, holding := None) && u.table == s.table
      && Next(ids, u, Request(j, Fine)).locals[j].pc.Poll?
  {
    RunKeepsInv(ids, steps);
    var s := Run(ids, steps);
    assert Good(ids[i], s.locals[i], s) && Good(ids[j], s.locals[j], s);
    assert OwnSessions(s.locals) && s.locals[i].conn != s.locals[j].conn;
    assert Grant(ids[i], s.locals[i].conn.value, Exclusive) in s.table;
  }

  /** A holder is not told that its session is gone: in every reachable state, when the
      session of a writer ends, any idle object can lock the same id, and then both hold it. */
  lemma {:induction false} LostSessionIsNotExcluded(ids: seq<int>, steps: seq<Step>, i: nat, j: nat)
    requires i < |ids| && j < |ids| && i != j && ids[i] == ids[j]
    requires var s := Run(ids, steps);
      && s.locals[i].holding == Some(Exclusive) && s.locals[i].conn.Some?
      && s.locals[i].conn.value !in s.dead && s.locals[j].pc.Idle? && s.locals[j].mu.None?
    ensures var c := Run(ids, steps).locals[i].conn.value;
      var t := Run(ids, steps + [Drop(c)] + [Lock(j, Exclusive)] + [ConnNew(j)] + [Request(j, Fine)]);
      t.locals[i].holding == Some(Exclusive) && t.locals[j].holding == Some(Exclusive)
  {
    RunKeepsInv(ids, steps);
    var s := Run(ids, steps);
    var c := s.locals[i].conn.value;
    var r := steps + [Drop(c)];
    var a, b := Next(ids, s, Drop(c)), Next(ids, Next(ids, s, Drop(c)), Lock(j, Exclusive));
    assert Run(ids, r) == a by { RunSnoc(ids, steps, Drop(c)); }
    assert Run(ids, r + [Lock(j, Exclusive)]) == b by { RunSnoc(ids, r, Lock(j, Exclusive)); }
    r := r + [Lock(j, Exclusive)];
    assert Run(ids, r + [ConnNew(j)]) == Next(ids, b, ConnNew(j)) by { RunSnoc(ids, r, ConnNew(j)); }
    r := r + [ConnNew(j)];
    assert Run(ids, r + [Request(j, Fine)]) == Next(ids, Next(ids, b, ConnNew(j)), Request(j, Fine)) by {
      RunSnoc(ids, r, Request(j, Fine));
    }
    WriterJoins(ids, s, i, j);
  }

  lemma WriterJoins(ids: seq<int>, s: State, i: nat, j: nat)
    requires Inv(ids, s) && i < |ids| && j < |ids| && i != j && ids[i] == ids[j]
    requires s.locals[i].holding == Some(Exclusive) && s.locals[i].conn.Some?
    requires s.locals[i].conn.value !in s.dead
    requires s.locals[j].pc.Idle? && s.locals[j].mu.None?
    ensures var a := Next(ids, Next(ids, s, Drop(s.locals[i].conn.value)), Lock(j, Exclusive));
      var t := Next(ids, Next(ids, a, ConnNew(j)), Request(j, Fine));
      t.locals[i].holding == Some(Exclusive) && t.locals[j].holding == Some(Exclusive)
  {
    var c := s.locals[i].conn.value;
    LockGoneWithSession(ids, s, i);
    var a := Next(ids, Next(ids, s, Drop(c)), Lock(j, Exclusive));
    assert forall g :: g in a.table ==> g.key != ids[j];
    var b := Next(ids, a, ConnNew(j));
    assert CanGrant(b.table, ids[j], s.sessions, Exclusive);
  }

  /** A writer's lock is the only one on its id, so none is left when its session ends. */
  lemma LockGoneWithSession(ids: seq<int>, s: State, i: nat)
    requires Inv(ids, s) && i < |ids| && s.locals[i].holding == Some(Exclusive) && s.locals[i].conn.Some?
    requires s.locals[i].conn.value !in s.dead
    ensures forall g :: g in Without(s.table, s.locals[i].conn.value) ==> g.key != ids[i]
    ensures s.locals[i].conn.value < s.sessions && s.sessions !in s.dead
  {
    assert Good(ids[i], s.locals[i], s);
    assert Grant(ids[i], s.locals[i].conn.value, Exclusive) in s.table;
  }

  // ---- Lock ids ----

  type Uint32 = x: int | 0 <= x < 0x1_0000_0000

  const LOCK_ID_SALT := 1364987532

  /** The product of checksum and salt in 32-bit arithmetic. */
  function LockID(sum: Uint32): int { (sum * LOCK_ID_SALT) % 0x1_0000_0000 }

  lemma LockIDRange(sum: Uint32)
    ensures 0 <= LockID(sum) < 0x1_0000_0000 && LockID(sum) % 4 == 0
  {
    var q := sum * LOCK_ID_SALT / 0x1_0000_0000;
    assert LockID(sum) == 4 * (sum * 341246883 - 0x4000_0000 * q);
  }

  /** Checksum 1 gives the salt, and the id of a sum is the sum of the ids modulo 2^32. */
  lemma LockIDIsLinear(a: Uint32, b: Uint32)
    requires a + b < 0x1_0000_0000
    ensures LockID(1) == 1364987532
    ensures LockID(a + b) == (LockID(a) + LockID(b)) % 0x1_0000_0000
  {
    var p, q := a * LOCK_ID_SALT / 0x1_0000_0000, b * LOCK_ID_SALT / 0x1_0000_0000;
    assert (a + b) * LOCK_ID_SALT == a * LOCK_ID_SALT + b * LOCK_ID_SALT;
    SameRemainder((a + b) * LOCK_ID_SALT, LockID(a) + LockID(b), p + q, 0x1_0000_0000);
  }

  /** The salt is four times an odd number, so exactly the two top bits of the checksum are
      lost. */
  lemma SameLockIDIff(a: Uint32, b: Uint32)
    ensures LockID(a) == LockID(b) <==> a % 0x4000_0000 == b % 0x4000_0000
  {
    if LockID(a) == LockID(b) { SaltCancels(a, b); }
    if a % 0x4000_0000 == b % 0x4000_0000 {
      var p := a / 0x4000_0000 - b / 0x4000_0000;
      assert a == b + 0x4000_0000 * p;
      SameRemainder(a * LOCK_ID_SALT, b * LOCK_ID_SALT, p * 341246883, 0x1_0000_0000);
    }
  }

  lemma SameRemainder(x: int, y: int, k: int, m: int)
    requires m > 0 && x == y + m * k
    ensures x % m == y % m
  {
    var d := x / m - k - y / m;
    assert x % m - y % m == -(m * d) by {
      assert x == m * (x / m) + x % m && y == m * (y / m) + y % m;
      assert m * d == m * (x / m) - m * k - m * (y / m);
    }
    assert d > 0 ==> m * d >= m;
    assert d < 0 ==> m * d <= -m;
  }

  /** The odd factor of the salt has the inverse 396314635 modulo 2^30. */
  lemma SaltCancels(a: Uint32, b: Uint32)
    requires LockID(a) == LockID(b)
    ensures a % 0x4000_0000 == b % 0x4000_0000
  {
    var q := a * LOCK_ID_SALT / 0x1_0000_0000 - b * LOCK_ID_SALT / 0x1_0000_0000;
    assert (a - b) * 341246883 == 0x4000_0000 * q;
    assert 341246883 * 396314635 == 1 + 0x4000_0000 * 125953121;
    var k := q * 396314635 - (a - b) * 125953121;
    assert a - b == 0x4000_0000 * k;
    SameRemainder(a, b, k, 0x4000_0000);
  }

  /** The text that is hashed: the additional names and then the database name. */
  function HashedNames(databaseName: string, additionalNames: seq<string>): string {
    if |additionalNames| > 0 then Join(additionalNames + [databaseName], "\0") else databaseName
  }

  /** It splits back into the additional names followed by the database name. */
  lemma HashedNamesSplit(name: string, more: seq<string>)
    requires NoneContains(more + [name], "\0")
    ensures Split(HashedNames(name, more), "\0") == more + [name]
  {
    assert HashedNames(name, more) == Join(more + [name], "\0");
    SplitJoinIff(more + [name], "\0");
  }

  /** It determines the list of names when no name contains a NUL. */
  lemma HashedNamesInjective(name: string, more: seq<string>, name': string, more': seq<string>)
    requires NoneContains(more + [name], "\0") && NoneContains(more' + [name'], "\0")
    requires HashedNames(name, more) == HashedNames(name', more')
    ensures name == name' && more == more'
  {
    assert HashedNames(name, more) == Join(more + [name], "\0");
    assert HashedNames(name', more') == Join(more' + [name'], "\0");
    SplitJoinIff(more + [name], "\0");
    SplitJoinIff(more' + [name'], "\0");
    assert more + [name] == more' + [name'];
    assert more == (more + [name])[..|more|];
  }

  // ---- The mutex object ----

  function Feed(l: Local, replies: seq<Reply>): Local {
    if replies == [] then l
    else OnReply(Feed(l, replies[..|replies| - 1]), replies[|replies| - 1])
  }

  datatype Result = Ok | Error | Waiting | Crash

  class Mutex {
    var conn: Option<nat>
    var lockID: int
    var locked: bool
    var mu: Option<Mode>

    constructor (lockID: int)
      ensures this.lockID == lockID && !locked && conn.None? && mu.None?
    {
      this.lockID := lockID;
      conn, locked, mu := None, false, None;
    }

    method GenerateLockID(crc: string -> Uint32, databaseName: string, additionalNames: seq<string>)
      modifies this`lockID
      ensures lockID == LockID(crc(HashedNames(databaseName, additionalNames)))
    {
      var name := databaseName;
      if |additionalNames| > 0 {
        name := Join(additionalNames + [databaseName], "\0");
      }
      lockID := (crc(name) * LOCK_ID_SALT) % 0x1_0000_0000;
    }

    /** LockContext and RWLockContext against the session the pool gives, if any, and the
        replies of the server; `Waiting` when they run out. It returns nil exactly when the
        last reply it used granted the lock, all earlier ones having refused it. */
    method LockContext(mode: Mode, session: Option<nat>, replies: seq<Reply>) returns (r: Result, used: nat)
      requires mu.None?
      modifies this`mu, this`conn, this`locked
      ensures used <= |replies| && mu == Some(mode) && conn == session
      ensures conn.None? ==> r == Error && used == 0
      ensures var l := Feed(OnConn(Local(Connect(mode), Some(mode), old(locked), old(conn), None), session),
                            replies[..used]);
        && l == Local(l.pc, mu, locked, conn, if r == Ok then Some(mode) else None)
        && (l.pc.Idle? <==> r != Waiting)
      ensures locked == (old(locked) || (used > 0 && replies[0].Granted?))
      ensures r == Ok <==> used > 0 && replies[used - 1] == Granted(true)
      ensures r == Waiting ==> used == |replies|
      ensures forall k :: 0 <= k < used - 1 ==> replies[k] == Granted(false)
    {
      mu := Some(mode);
      r, used := CommonLock(mode, session, replies);
    }

    method CommonLock(mode: Mode, session: Option<nat>, replies: seq<Reply>) returns (r: Result, used: nat)
      requires mu == Some(mode)
      modifies this`conn, this`locked
      ensures used <= |replies| && conn == session
      ensures conn.None? ==> r == Error && used == 0
      ensures var l := Feed(OnConn(Local(Connect(mode), Some(mode), old(locked), old(conn), None), session),
                            replies[..used]);
        && l == Local(l.pc, mu, locked, conn, if r == Ok then Some(mode) else None)
        && (l.pc.Idle? <==> r != Waiting)
      ensures locked == (old(locked) || (used > 0 && replies[0].Granted?))
      ensures r == Ok <==> used > 0 && replies[used - 1] == Granted(true)
      ensures r == Waiting ==> used == |replies|
      ensures forall k :: 0 <= k < used - 1 ==> replies[k] == Granted(false)
    {
      used := 0;
      conn := session;
      if conn.None? {
        return Error, used;
      }
      if |replies| == 0 {
        return Waiting, used;
      }
      ghost var first := Local(First(mode), mu, locked, conn, None);
      assert first == OnConn(Local(Connect(mode), Some(mode), old(locked), old(conn), None), session);
      var result := replies[0];
      used := 1;
      assert replies[..1][..0] == [];
      if !result.Granted? {
        return Error, used;
      }
      locked := true;
      if !result.b {
        while used < |replies|
          invariant 1 <= used <= |replies| && locked
          invariant Feed(first, replies[..used]) == Local(Poll(mode), mu, true, conn, None)
          invariant forall k :: 0 <= k < used ==> replies[k] == Granted(false)
        {
          result := replies[used];
          used := used + 1;
          assert replies[..used][..used - 1] == replies[..used - 1];
          if !result.Granted? {
            return Error, used;
          }
          if result.b || !locked {
            return Ok, used;
          }
        }
        return Waiting, used;
      }
      r := Ok;
    }

    /** UnlockContext and RWUnlockContext, given whether the request and the closing of the
        session succeed. */
    method UnlockContext(mode: Mode, execOk: bool, closeOk: bool) returns (r: Result)
      requires mu == Some(mode)
      modifies this`mu, this`conn, this`locked
      ensures mu.None?
      ensures var l := CallUnlock(Local(Idle, Some(mode), old(locked), old(conn), Some(mode)), mode);
        OnClose(OnExec(l, execOk), closeOk) == Local(if r == Crash then Crashed else Idle, None, locked, conn, None)
      ensures r == Ok <==> !old(locked) || (old(conn).Some? && execOk && closeOk)
      ensures locked <==> old(locked) && r != Ok
      ensures conn == if old(locked) && execOk then None else old(conn)
    {
      mu := None;
      r := CommonUnlock(mode, execOk, closeOk);
    }

    method CommonUnlock(mode: Mode, execOk: bool, closeOk: bool) returns (r: Result)
      requires mu.None?
      modifies this`conn, this`locked
      ensures var l := CallUnlock(Local(Idle, Some(mode), old(locked), old(conn), Some(mode)), mode);
        OnClose(OnExec(l, execOk), closeOk) == Local(if r == Crash then Crashed else Idle, None, locked, conn, None)
      ensures r == Ok <==> !old(locked) || (old(conn).Some? && execOk && closeOk)
      ensures locked <==> old(locked) && r != Ok
      ensures conn == if old(locked) && execOk then None else old(conn)
    {
      r := Ok;
      if locked {
        if conn.None? {
          return Crash;
        }
        if !execOk {
          return Error;
        }
        conn := None; // a closed connection is never used again
        if !closeOk {
          return Error;
        }
        locked := false;
      }
    }
  }
}
