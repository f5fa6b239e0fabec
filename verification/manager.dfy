/** The application manager: entities added one by one with their metrics and checks merged
    into the manager's, started in the order added and shut down in the reverse order. */
module Manager {
  import opened Common
  import opened Registry

  /** What the manager sees of an entity: its name, and the maps it offers, if any. */
  datatype Entity<V> = Entity(name: string, metrics: Maybe<V>, alive: Maybe<V>, ready: Maybe<V>)

  datatype Maybe<V> = Absent | Offered(options: Options<V>)

  function Offer<V>(m: Maybe<V>): Options<V> { if m.Offered? then m.options else map[] }

  datatype AddError = Added | ConflictName | ErrAppendMetrics | ErrAliveHandlers | ErrReadyHandlers

  /** The manager's state as a value. */
  datatype State<V> = State(
    enities: map<string, Entity<V>>, order: seq<string>,
    metrics: Options<V>, alive: Options<V>, ready: Options<V>)

  /** The orders in which Go happens to visit the three maps of one entity. */
  datatype Visits = Visits(metrics: seq<string>, alive: seq<string>, ready: seq<string>)

  predicate VisitsOf<V>(v: Visits, e: Entity<V>) {
    && VisitOrder(v.metrics, Offer(e.metrics))
    && VisitOrder(v.alive, Offer(e.alive))
    && VisitOrder(v.ready, Offer(e.ready))
  }

  /** One Add. The entity is registered before its maps are merged, and a failing merge
      keeps it registered and what was merged so far. */
  function Add<V>(s: State<V>, e: Entity<V>, v: Visits): (State<V>, AddError) {
    if e.name in s.enities then (s, ConflictName)
    else
      var s1 := s.(enities := s.enities[e.name := e], order := s.order + [e.name],
                   metrics := Appended(s.metrics, Offer(e.metrics), v.metrics));
      if AppendError(s.metrics, v.metrics) != NoError then (s1, ErrAppendMetrics)
      else
        var s2 := s1.(alive := Appended(s.alive, Offer(e.alive), v.alive));
        if AppendError(s.alive, v.alive) != NoError then (s2, ErrAliveHandlers)
        else
          (s2.(ready := Appended(s.ready, Offer(e.ready), v.ready)),
           if AppendError(s.ready, v.ready) != NoError then ErrReadyHandlers else Added)
  }

  function Empty<V>(): State<V> { State(map[], [], map[], map[], map[]) }

  /** A series of Adds, failing ones included. */
  function Run<V>(adds: seq<(Entity<V>, Visits)>): State<V> {
    if adds == [] then Empty()
    else Add(Run(adds[..|adds| - 1]), adds[|adds| - 1].0, adds[|adds| - 1].1).0
  }

  predicate AllVisits<V>(adds: seq<(Entity<V>, Visits)>) {
    forall i :: 0 <= i < |adds| ==> VisitsOf(adds[i].1, adds[i].0)
  }

  /** The k-th Add of the series returned nil. */
  predicate Succeeded<V>(adds: seq<(Entity<V>, Visits)>, k: nat)
    requires k < |adds|
  {
    Add(Run(adds[..k]), adds[k].0, adds[k].1).1 == Added
  }

  // ---- The order ----

  predicate OrderOk<V>(s: State<V>) {
    && NoRepeats(s.order)
    && (forall i :: 0 <= i < |s.order| ==> s.order[i] in s.enities)
    && (forall k :: k in s.enities ==> k in s.order && s.enities[k].name == k)
  }

  lemma AddKeepsOrder<V>(s: State<V>, e: Entity<V>, v: Visits)
    requires OrderOk(s)
    ensures OrderOk(Add(s, e, v).0)
  {
    if e.name !in s.enities {
      RegisteredInOrder(s, e, Add(s, e, v).0);
    }
  }

  lemma RegisteredInOrder<V>(s: State<V>, e: Entity<V>, t: State<V>)
    requires OrderOk(s) && e.name !in s.enities
    requires t.enities == s.enities[e.name := e] && t.order == s.order + [e.name]
    ensures OrderOk(t)
  {
    assert t.order[|s.order|] == e.name;
    assert forall k :: k in s.order ==> k in t.order;
  }

  /** After any series of Adds the order has no duplicates and lists exactly the names of the
      registered entities. */
  lemma {:induction false} OrderListsEntities<V>(adds: seq<(Entity<V>, Visits)>)
    ensures OrderOk(Run(adds))
  {
    if adds != [] {
      OrderListsEntities(adds[..|adds| - 1]);
      AddKeepsOrder(Run(adds[..|adds| - 1]), adds[|adds| - 1].0, adds[|adds| - 1].1);
    }
  }

  /** The whole outcome of one Add, for every visit order. A taken name changes nothing. A new
      name is registered at the end of the order, also when a merge fails; the maps merged
      before the failing one have grown by what was offered, and those after it are as before. */
  lemma AddOutcome<V>(s: State<V>, e: Entity<V>, v: Visits)
    requires VisitsOf(v, e)
    ensures var (t, r) := Add(s, e, v);
      && (r == ConflictName <==> e.name in s.enities)
      && (r == ConflictName ==> t == s)
      && (r != ConflictName ==> t.enities == s.enities[e.name := e] && t.order == s.order + [e.name])
      && (r == ErrAppendMetrics <==> e.name !in s.enities && !Disjoint(Offer(e.metrics), s.metrics))
      && (r == ErrAppendMetrics ==> t.alive == s.alive && t.ready == s.ready)
      && (r == ErrAliveHandlers <==>
          && e.name !in s.enities && Disjoint(Offer(e.metrics), s.metrics)
          && !Disjoint(Offer(e.alive), s.alive))
      && (r == ErrAliveHandlers ==> t.metrics == s.metrics + Offer(e.metrics) && t.ready == s.ready)
      && (r == ErrReadyHandlers ==>
          && t.metrics == s.metrics + Offer(e.metrics) && t.alive == s.alive + Offer(e.alive)
          && !Disjoint(Offer(e.ready), s.ready))
  {
    AppendSucceedsIff(s.metrics, Offer(e.metrics), v.metrics);
    AppendSucceedsIff(s.alive, Offer(e.alive), v.alive);
    AppendSucceedsIff(s.ready, Offer(e.ready), v.ready);
  }

  /** No earlier Add of the series has the name of the n-th. */
  predicate IsFirst<V>(adds: seq<(Entity<V>, Visits)>, n: nat)
    requires n < |adds|
  {
    forall m :: 0 <= m < n ==> adds[m].0.name != adds[n].0.name
  }

  /** What an Add does to the entities, whatever its maps. */
  lemma AddRegisters<V>(s: State<V>, e: Entity<V>, v: Visits)
    ensures var (t, r) := Add(s, e, v);
      && (r == ConflictName <==> e.name in s.enities)
      && (r == ConflictName ==> t == s)
      && (r != ConflictName ==> t.enities == s.enities[e.name := e] && t.order == s.order + [e.name])
  {
  }

  /** Some Add of the series has this name. */
  predicate Named<V>(adds: seq<(Entity<V>, Visits)>, name: string) {
    exists n :: 0 <= n < |adds| && adds[n].0.name == name
  }

  lemma NamedSnoc<V>(adds: seq<(Entity<V>, Visits)>, name: string)
    requires adds != []
    ensures Named(adds, name) <==> name == adds[|adds| - 1].0.name || Named(adds[..|adds| - 1], name)
  {
    var before := adds[..|adds| - 1];
    if n :| 0 <= n < |before| && before[n].0.name == name {
      assert adds[n].0.name == name;
    }
    if n :| 0 <= n < |adds| && adds[n].0.name == name {
      assert n < |before| ==> before[n].0.name == name;
    }
  }

  /** The registered names are exactly those of the Adds, failing ones included. */
  lemma {:induction false} NamesAreRegistered<V>(adds: seq<(Entity<V>, Visits)>, name: string)
    ensures name in Run(adds).enities <==> Named(adds, name)
  {
    if adds != [] {
      var before, last := adds[..|adds| - 1], adds[|adds| - 1];
      NamesAreRegistered(before, name);
      NamedSnoc(adds, name);
      AddRegisters(Run(before), last.0, last.1);
    }
  }

  /** Over every series of Adds the entity under a name is that of the first Add with the name,
      also when that Add failed at a merge. */
  lemma {:induction false} FirstAddWins<V>(adds: seq<(Entity<V>, Visits)>, n: nat)
    requires n < |adds| && IsFirst(adds, n)
    ensures adds[n].0.name in Run(adds).enities && Run(adds).enities[adds[n].0.name] == adds[n].0
  {
    var before, last := adds[..|adds| - 1], adds[|adds| - 1];
    AddRegisters(Run(before), last.0, last.1);
    if n < |before| {
      assert before[n] == adds[n];
      FirstAddWins(before, n);
    } else {
      NamesAreRegistered(before, last.0.name);
    }
  }

  // ---- The merged registries ----

  /** An Add succeeds exactly when the name is new and none of the offered names is taken,
      whatever the visit order, and then the three maps grow by exactly what was offered. */
  lemma AddSucceedsIff<V>(s: State<V>, e: Entity<V>, v: Visits)
    requires VisitsOf(v, e)
    ensures Add(s, e, v).1 == Added <==>
      e.name !in s.enities && Disjoint(Offer(e.metrics), s.metrics)
      && Disjoint(Offer(e.alive), s.alive) && Disjoint(Offer(e.ready), s.ready)
    ensures Add(s, e, v).1 == Added ==>
      Add(s, e, v).0 == State(s.enities[e.name := e], s.order + [e.name], s.metrics + Offer(e.metrics),
                              s.alive + Offer(e.alive), s.ready + Offer(e.ready))
  {
    AppendSucceedsIff(s.metrics, Offer(e.metrics), v.metrics);
    AppendSucceedsIff(s.alive, Offer(e.alive), v.alive);
    AppendSucceedsIff(s.ready, Offer(e.ready), v.ready);
  }

  /** Nothing the manager already had is changed, and what is new comes from the entity. */
  ghost predicate Extends<V>(before: Options<V>, after: Options<V>, src: Options<V>) {
    && (forall k :: k in before ==> k in after && after[k] == before[k])
    && (forall k :: k in after && k !in before ==> k in src && after[k] == src[k])
  }

  /** That holds for every Add, also one that fails half way, and for the entities too. */
  lemma AddNeverOverwrites<V>(s: State<V>, e: Entity<V>, v: Visits)
    requires VisitsOf(v, e)
    ensures var t := Add(s, e, v).0;
      && EnitiesStay(s, t)
      && Extends(s.metrics, t.metrics, Offer(e.metrics))
      && Extends(s.alive, t.alive, Offer(e.alive))
      && Extends(s.ready, t.ready, Offer(e.ready))
  {
    AddRegisters(s, e, v);
    AddExtends(s, e, v);
  }

  ghost predicate EnitiesStay<V>(s: State<V>, t: State<V>) {
    (forall k :: k in s.enities ==> k in t.enities && t.enities[k] == s.enities[k]) && s.order <= t.order
  }

  lemma AddExtends<V>(s: State<V>, e: Entity<V>, v: Visits)
    requires VisitsOf(v, e)
    ensures var t := Add(s, e, v).0;
      && Extends(s.metrics, t.metrics, Offer(e.metrics))
      && Extends(s.alive, t.alive, Offer(e.alive))
      && Extends(s.ready, t.ready, Offer(e.ready))
  {
    AppendExtends(s.metrics, Offer(e.metrics), v.metrics);
    AppendExtends(s.alive, Offer(e.alive), v.alive);
    AppendExtends(s.ready, Offer(e.ready), v.ready);
  }

  lemma AppendExtends<V>(dst: Options<V>, src: Options<V>, names: seq<string>)
    requires VisitOrder(names, src)
    ensures Extends(dst, Appended(dst, src, names), src)
  {
    forall k ensures k in dst ==> k in Appended(dst, src, names) && Appended(dst, src, names)[k] == dst[k]
      ensures k in Appended(dst, src, names) && k !in dst ==> k in src && Appended(dst, src, names)[k] == src[k]
    {
      AppendNeverOverwrites(dst, src, names, k);
    }
  }

  /** The union of one kind of map over a list of entities. */
  function Union<V>(maps: seq<Options<V>>): Options<V> {
    if maps == [] then map[] else Union(maps[..|maps| - 1]) + maps[|maps| - 1]
  }

  predicate PairwiseDisjoint<V>(maps: seq<Options<V>>) {
    forall i, j :: 0 <= i < j < |maps| ==> Disjoint(maps[j], maps[i])
  }

  function MapsOf<V>(adds: seq<(Entity<V>, Visits)>, f: Entity<V> -> Maybe<V>): seq<Options<V>> {
    seq(|adds|, i requires 0 <= i < |adds| => Offer(f(adds[i].0)))
  }

  lemma {:induction false} UnionHas<V>(maps: seq<Options<V>>, i: nat)
    requires i < |maps|
    ensures forall k :: k in maps[i] ==> k in Union(maps)
  {
    if i < |maps| - 1 { UnionHas(maps[..|maps| - 1], i); }
  }

  /** Adding one more map that is disjoint from the union keeps the maps pairwise disjoint. */
  lemma UnionSnoc<V>(maps: seq<Options<V>>, m: Options<V>)
    requires PairwiseDisjoint(maps) && Disjoint(m, Union(maps))
    ensures PairwiseDisjoint(maps + [m]) && Union(maps + [m]) == Union(maps) + m
  {
    assert (maps + [m])[..|maps|] == maps;
    forall i | 0 <= i < |maps| ensures Disjoint(m, maps[i]) {
      UnionHas(maps, i);
    }
  }

  ghost predicate IsMerge<V>(options: Options<V>, maps: seq<Options<V>>) {
    options == Union(maps) && PairwiseDisjoint(maps)
  }

  /** After a series of successful Adds each of the manager's maps is the disjoint union of
      the entities' maps, for every order in which they were visited. */
  lemma {:induction false} RegistriesAreUnions<V>(adds: seq<(Entity<V>, Visits)>)
    requires AllVisits(adds) && forall k :: 0 <= k < |adds| ==> Succeeded(adds, k)
    ensures IsMerge(Run(adds).metrics, MapsOf(adds, (e: Entity<V>) => e.metrics))
    ensures IsMerge(Run(adds).alive, MapsOf(adds, (e: Entity<V>) => e.alive))
    ensures IsMerge(Run(adds).ready, MapsOf(adds, (e: Entity<V>) => e.ready))
  {
    if adds != [] {
      var n := |adds| - 1;
      var before, e, v := adds[..n], adds[n].0, adds[n].1;
      assert forall k :: 0 <= k < n ==> before[..k] == adds[..k];
      forall k | 0 <= k < n ensures Succeeded(before, k) {
        assert Succeeded(adds, k);
      }
      RegistriesAreUnions(before);
      assert Succeeded(adds, n);
      AddSucceedsIff(Run(before), e, v);
      MergeOne(adds, n, (e: Entity<V>) => e.metrics, Run(before).metrics);
      MergeOne(adds, n, (e: Entity<V>) => e.alive, Run(before).alive);
      MergeOne(adds, n, (e: Entity<V>) => e.ready, Run(before).ready);
    }
  }

  lemma MergeOne<V>(adds: seq<(Entity<V>, Visits)>, n: nat, f: Entity<V> -> Maybe<V>, options: Options<V>)
    requires |adds| == n + 1 && IsMerge(options, MapsOf(adds[..n], f)) && Disjoint(Offer(f(adds[n].0)), options)
    ensures IsMerge(options + Offer(f(adds[n].0)), MapsOf(adds, f))
  {
    UnionSnoc(MapsOf(adds[..n], f), Offer(f(adds[n].0)));
    assert MapsOf(adds, f) == MapsOf(adds[..n], f) + [Offer(f(adds[n].0))];
  }

  // ---- Start and shutdown ----

  datatype Event = Up(name: string) | Down(name: string)

  function Ups(names: seq<string>): (r: seq<Event>)
    ensures |r| == |names|
  {
    seq(|names|, i requires 0 <= i < |names| => Up(names[i]))
  }

  function Downs(names: seq<string>): (r: seq<Event>)
    ensures |r| == |names|
  {
    seq(|names|, i requires 0 <= i < |names| => Down(names[i]))
  }

  function Reverse(source: seq<string>): (dest: seq<string>)
    ensures |dest| == |source|
    ensures forall i :: 0 <= i < |source| ==> dest[i] == source[|source| - 1 - i]
  {
    seq(|source|, i requires 0 <= i < |source| => source[|source| - 1 - i])
  }

  /** Last in, first out: each Down closes the latest Up that is still open. */
  function Open(events: seq<Event>): (r: (bool, seq<string>)) {
    if events == [] then (true, [])
    else
      var (ok, stack) := Open(events[..|events| - 1]);
      match events[|events| - 1]
      case Up(name) => (ok, stack + [name])
      case Down(name) =>
        if stack != [] && stack[|stack| - 1] == name then (ok, stack[..|stack| - 1]) else (false, stack)
  }

  lemma OpenSnoc(events: seq<Event>, e: Event)
    ensures Open(events + [e]) ==
      var (ok, stack) := Open(events);
      match e
      case Up(name) => (ok, stack + [name])
      case Down(name) =>
        if stack != [] && stack[|stack| - 1] == name then (ok, stack[..|stack| - 1]) else (false, stack)
  {
    assert (events + [e])[..|events|] == events;
  }

  lemma {:induction false} OpenUps(names: seq<string>)
    ensures Open(Ups(names)) == (true, names)
  {
    if names != [] {
      var n := |names| - 1;
      OpenUps(names[..n]);
      assert Ups(names) == Ups(names[..n]) + [Up(names[n])];
      OpenSnoc(Ups(names[..n]), Up(names[n]));
      assert names == names[..n] + [names[n]];
    }
  }

  /** Shutting down the last `k` of the names in reverse order closes exactly those. */
  lemma {:induction false} OpenDowns(names: seq<string>, k: nat)
    requires k <= |names|
    ensures Open(Ups(names) + Downs(Reverse(names)[..k])) == (true, names[..|names| - k])
  {
    if k == 0 {
      OpenUps(names);
      assert Ups(names) + Downs([]) == Ups(names);
      assert names[..|names|] == names;
    } else {
      OpenDowns(names, k - 1);
      var d, before := names[|names| - k], Ups(names) + Downs(Reverse(names)[..k - 1]);
      OneMoreDown(names, k);
      OpenSnoc(before, Down(d));
      TopOfStack(names, k);
    }
  }

  lemma OneMoreDown(names: seq<string>, k: nat)
    requires 0 < k <= |names|
    ensures Ups(names) + Downs(Reverse(names)[..k])
         == Ups(names) + Downs(Reverse(names)[..k - 1]) + [Down(names[|names| - k])]
  {
    assert Reverse(names)[..k] == Reverse(names)[..k - 1] + [names[|names| - k]];
  }

  lemma TopOfStack(names: seq<string>, k: nat)
    requires 0 < k <= |names|
    ensures var stack := names[..|names| - (k - 1)];
      stack != [] && stack[|stack| - 1] == names[|names| - k] && stack[..|stack| - 1] == names[..|names| - k]
  {
  }

  /** When every start and every shutdown succeeds, the trace is well bracketed and leaves
      nothing open. */
  lemma TraceIsBracketed(names: seq<string>)
    ensures Open(Ups(names) + Downs(Reverse(names))) == (true, [])
  {
    OpenDowns(names, |names|);
    assert Reverse(names)[..|names|] == Reverse(names);
  }

  /** After a Start that got `n` entities up and a Shutdown that got `k` down, the trace is
      bracketed exactly when nothing was shut down or every entity had been started: Shutdown
      begins with the entities that were not. */
  lemma BracketedIff(names: seq<string>, n: nat, k: nat)
    requires NoRepeats(names) && n <= |names| && k <= |names|
    ensures Open(Ups(names[..n]) + Downs(Reverse(names)[..k])).0 <==> n == |names| || k == 0
  {
    var ups, downs := Ups(names[..n]), Downs(Reverse(names)[..k]);
    if n == |names| {
      assert names[..n] == names;
      OpenDowns(names, k);
    } else if k == 0 {
      OpenUps(names[..n]);
      assert ups + downs == ups;
    } else {
      FirstDownFails(names, n);
      assert downs == [downs[0]] + downs[1..] && ups + downs == (ups + [downs[0]]) + downs[1..];
      FailsForGood(ups + [downs[0]], downs[1..]);
    }
  }

  lemma FirstDownFails(names: seq<string>, n: nat)
    requires NoRepeats(names) && n < |names|
    ensures !Open(Ups(names[..n]) + [Down(Reverse(names)[0])]).0
  {
    OpenUps(names[..n]);
    OpenSnoc(Ups(names[..n]), Down(Reverse(names)[0]));
    assert n > 0 ==> names[..n][n - 1] == names[n - 1] != names[|names| - 1];
  }

  lemma {:induction false} FailsForGood(events: seq<Event>, more: seq<Event>)
    requires !Open(events).0
    ensures !Open(events + more).0
  {
    if more == [] {
      assert events + more == events;
    } else {
      var init, last := more[..|more| - 1], more[|more| - 1];
      FailsForGood(events, init);
      OpenSnoc(events + init, last);
      assert events + more == events + init + [last];
    }
  }

  /** Reversing twice gives the list back. */
  lemma ReverseTwice(source: seq<string>)
    ensures Reverse(Reverse(source)) == source
  {
  }

  /** ReverseStringSlice */
  method ReverseStringSlice(source: seq<string>) returns (dest: seq<string>)
    ensures dest == Reverse(source)
  {
    dest := [];
    var i := |source| - 1;
    while i >= 0
      invariant -1 <= i < |source| && dest == Reverse(source)[..|source| - 1 - i]
    {
      dest := dest + [source[i]];
      i := i - 1;
    }
  }

  lemma NothingOffered<V>(options: Options<V>, names: seq<string>)
    ensures var none: Options<V> := map[];
      VisitOrder(names, none) ==>
        Appended(options, none, names) == options && AppendError(options, names) == NoError
  {
    var none: Options<V> := map[];
    assert |names| > 0 ==> names[0] !in none;
  }

  // ---- The manager object ----

  class ManagerObject<V> {
    var enities: map<string, Entity<V>>
    var enitiesOrder: seq<string>
    const metrics: MapOptions<V>
    const aliveHandlers: MapOptions<V>
    const readyHandlers: MapOptions<V>

    ghost predicate Distinct() {
      metrics != aliveHandlers && metrics != readyHandlers && aliveHandlers != readyHandlers
    }

    ghost function View(): State<V> reads this, metrics, aliveHandlers, readyHandlers {
      State(enities, enitiesOrder, metrics.options, aliveHandlers.options, readyHandlers.options)
    }

    constructor ()
      ensures Distinct() && View() == Empty()
    {
      metrics := new MapOptions();
      aliveHandlers := new MapOptions();
      readyHandlers := new MapOptions();
      enities, enitiesOrder := map[], [];
    }

    /** Add: a taken name changes nothing; a new one is registered whatever becomes of its maps. */
    method AddEntity(e: Entity<V>, v: Visits) returns (r: AddError)
      requires Distinct() && VisitsOf(v, e)
      modifies this, metrics, aliveHandlers, readyHandlers
      ensures (View(), r) == Add(old(View()), e, v)
      ensures r == ConflictName <==> e.name in old(enities)
      ensures r == ConflictName ==> View() == old(View())
      ensures r != ConflictName ==>
        enities == old(enities)[e.name := e] && enitiesOrder == old(enitiesOrder) + [e.name]
    {
      AddRegisters(View(), e, v);
      r := RegisterAndMerge(e, v);
    }

    method RegisterAndMerge(e: Entity<V>, v: Visits) returns (r: AddError)
      requires Distinct() && VisitsOf(v, e)
      modifies this, metrics, aliveHandlers, readyHandlers
      ensures (View(), r) == Add(old(View()), e, v)
    {
      if e.name in enities {
        return ConflictName;
      }
      enities := enities[e.name := e];
      enitiesOrder := enitiesOrder + [e.name];
      NothingOffered(metrics.options, v.metrics);
      NothingOffered(aliveHandlers.options, v.alive);
      NothingOffered(readyHandlers.options, v.ready);
      if e.metrics.Offered? {
        var err := metrics.Append(e.metrics.options, v.metrics);
        if err != NoError {
          return ErrAppendMetrics;
        }
      }
      if e.alive.Offered? {
        var err := aliveHandlers.Append(e.alive.options, v.alive);
        if err != NoError {
          return ErrAliveHandlers;
        }
      }
      if e.ready.Offered? {
        var err := readyHandlers.Append(e.ready.options, v.ready);
        if err != NoError {
          return ErrReadyHandlers;
        }
      }
      r := Added;
    }

    /** Start up to the first failure; the statistics come last. */
    method Start(startOk: string -> bool, statisticsOk: bool) returns (ok: bool, trace: seq<Event>)
      ensures trace == Ups(enitiesOrder[..Passing(enitiesOrder, startOk)])
      ensures ok <==> Passing(enitiesOrder, startOk) == |enitiesOrder| && statisticsOk
    {
      trace := [];
      var i := 0;
      while i < |enitiesOrder|
        invariant 0 <= i <= Passing(enitiesOrder, startOk) && trace == Ups(enitiesOrder[..i])
      {
        if !startOk(enitiesOrder[i]) {
          return false, trace;
        }
        trace := trace + [Up(enitiesOrder[i])];
        i := i + 1;
      }
      ok := statisticsOk;
    }

    /** Shutdown in reverse order up to the first failure. */
    method Shutdown(shutdownOk: string -> bool) returns (ok: bool, trace: seq<Event>)
      ensures var names := Reverse(enitiesOrder);
        && trace == Downs(names[..Passing(names, shutdownOk)])
        && (ok <==> Passing(names, shutdownOk) == |names|)
    {
      var reversedProviders := ReverseStringSlice(enitiesOrder);
      trace := [];
      var i := 0;
      while i < |reversedProviders|
        invariant 0 <= i <= Passing(reversedProviders, shutdownOk)
        invariant trace == Downs(reversedProviders[..i])
      {
        if !shutdownOk(reversedProviders[i]) {
          return false, trace;
        }
        trace := trace + [Down(reversedProviders[i])];
        i := i + 1;
      }
      ok := true;
    }
  }
}
