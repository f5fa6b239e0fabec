/** Caches that share one Redis server, each under its own key prefix, and the two
    operations that walk the key space with a cursor. */
module Cache {
  import opened Common
  import opened RedisServer
  import Strings

  datatype Config = Config(keyPrefix: string, globalKeyPrefix: string, clearTime: nat)

  function KeyPrefix(c: Config): string {
    if c.globalKeyPrefix != "" then c.globalKeyPrefix + ":" + c.keyPrefix else c.keyPrefix
  }

  function BuildKey(c: Config, key: string): string { KeyPrefix(c) + ":" + key }

  /** A Clear is a series of page deletions, with operations of others in between. */
  datatype Op =
    | Set(key: string, value: string) | SetNX(key: string, value: string) | Delete(key: string)
    | ClearPage(keys: seq<string>)

  predicate OnOneKey(op: Op) { op.Set? || op.SetNX? || op.Delete? }

  /** SET, SET NX and DEL on the built key; a page holds keys that begin with the prefix, which
      is more than the keys the cache can build. */
  function Apply(c: Config, op: Op, now: int, store: Store): Store {
    match op
    case Set(key, value) => store[BuildKey(c, key) := Entry(value, DeadlineIn(now, c.clearTime))]
    case SetNX(key, value) =>
      if Live(store, now, BuildKey(c, key)) then store
      else store[BuildKey(c, key) := Entry(value, DeadlineIn(now, c.clearTime))]
    case Delete(key) => store - {BuildKey(c, key)}
    case ClearPage(keys) => map key | key in store && !(key in keys && KeyPrefix(c) <= key) :: store[key]
  }

  /** What a completed Clear leaves when nobody else writes. */
  function Cleared(prefix: string, store: Store): Store {
    map key | key in store && !(prefix <= key) :: store[key]
  }

  // ---- Each cache as a map of its own ----

  /** The same operations on a private map from short keys. */
  function ApplyOwn(c: Config, op: Op, now: int, m: Store): Store {
    match op
    case Set(key, value) => m[key := Entry(value, DeadlineIn(now, c.clearTime))]
    case SetNX(key, value) =>
      if Live(m, now, key) then m else m[key := Entry(value, DeadlineIn(now, c.clearTime))]
    case Delete(key) => m - {key}
    case ClearPage(keys) => map key | key in m && BuildKey(c, key) !in keys :: m[key]
  }

  ghost predicate SeenAs(c: Config, store: Store, m: Store) {
    forall key: string ::
      && (BuildKey(c, key) in store <==> key in m)
      && (key in m ==> store[BuildKey(c, key)] == m[key])
  }

  datatype Lookup = Found(value: string) | NotFoundInCache

  /** Get: the value of a live entry. */
  function Get(c: Config, key: string, now: int, store: Store): Lookup {
    if Live(store, now, BuildKey(c, key)) then Found(store[BuildKey(c, key)].value) else NotFoundInCache
  }

  /** Written at `now`, the key is found with this value for ever, or for the configured time. */
  ghost predicate ReadsFrom(c: Config, key: string, value: string, now: int, store: Store) {
    forall t :: Get(c, key, t, store)
      == if c.clearTime == 0 || t < now + c.clearTime then Found(value) else NotFoundInCache
  }

  /** At most the entry of `key` differs. */
  ghost predicate OnlyKey(key: string, before: Store, after: Store) {
    forall k :: k != key ==> (k in after <==> k in before) && (k in before ==> after[k] == before[k])
  }

  lemma SameKeyIff(c: Config, a: string, b: string)
    ensures BuildKey(c, a) == BuildKey(c, b) <==> a == b
  {
    assert BuildKey(c, a)[|KeyPrefix(c)| + 1..] == a;
    assert BuildKey(c, b)[|KeyPrefix(c)| + 1..] == b;
  }

  predicate NoColon(s: string) { ':' !in s }

  predicate PlainConfig(c: Config) { NoColon(c.keyPrefix) && NoColon(c.globalKeyPrefix) }

  /** What a built key consists of: the global prefix if there is one, the prefix and the key. */
  lemma BuiltKeyParts(c: Config, key: string)
    requires PlainConfig(c) && NoColon(key)
    ensures Strings.Split(BuildKey(c, key), ":") ==
      if c.globalKeyPrefix != "" then [c.globalKeyPrefix, c.keyPrefix, key] else [c.keyPrefix, key]
  {
    var parts := if c.globalKeyPrefix != "" then [c.globalKeyPrefix, c.keyPrefix, key] else [c.keyPrefix, key];
    JoinedKey(c, key, parts);
    forall i | 0 <= i < |parts| ensures !Strings.Contains(parts[i], ":") {
      Strings.IndexOfChar(parts[i], ':');
    }
    Strings.SplitJoinIff(parts, ":");
  }

  lemma JoinedKey(c: Config, key: string, parts: seq<string>)
    requires parts
      == if c.globalKeyPrefix != "" then [c.globalKeyPrefix, c.keyPrefix, key] else [c.keyPrefix, key]
    ensures Strings.Join(parts, ":") == BuildKey(c, key)
  {
    var own := [c.keyPrefix, key];
    assert own[1..] == [key];
    assert Strings.Join(own, ":") == c.keyPrefix + ":" + key;
    if c.globalKeyPrefix != "" {
      assert parts[1..] == own;
      assert Strings.Join(parts, ":") == c.globalKeyPrefix + ":" + Strings.Join(own, ":");
      assert BuildKey(c, key) == c.globalKeyPrefix + ":" + (c.keyPrefix + ":" + key);
    }
  }

  /** Two caches build the same key for some short keys. */
  ghost predicate ShareKey(a: Config, b: Config) {
    exists key, key' :: NoColon(key) && NoColon(key') && BuildKey(a, key) == BuildKey(b, key')
  }

  /** Without colons in the parts they do if and only if global prefix and prefix agree. */
  lemma ShareKeyIff(a: Config, b: Config)
    requires PlainConfig(a) && PlainConfig(b)
    ensures ShareKey(a, b) <==> a.globalKeyPrefix == b.globalKeyPrefix && a.keyPrefix == b.keyPrefix
  {
    if a.globalKeyPrefix == b.globalKeyPrefix && a.keyPrefix == b.keyPrefix {
      assert BuildKey(a, "") == BuildKey(b, "") && NoColon("");
    }
    if ShareKey(a, b) {
      var key, key' :| NoColon(key) && NoColon(key') && BuildKey(a, key) == BuildKey(b, key');
      BuiltKeyParts(a, key);
      BuiltKeyParts(b, key');
      SameParts(a, key, b, key');
    }
  }

  lemma SameParts(a: Config, key: string, b: Config, key': string)
    requires
      (if a.globalKeyPrefix != "" then [a.globalKeyPrefix, a.keyPrefix, key] else [a.keyPrefix, key])
      == if b.globalKeyPrefix != "" then [b.globalKeyPrefix, b.keyPrefix, key'] else [b.keyPrefix, key']
    ensures a.globalKeyPrefix == b.globalKeyPrefix && a.keyPrefix == b.keyPrefix
  {
    var x := if a.globalKeyPrefix != "" then [a.globalKeyPrefix, a.keyPrefix, key] else [a.keyPrefix, key];
    var y := if b.globalKeyPrefix != "" then [b.globalKeyPrefix, b.keyPrefix, key'] else [b.keyPrefix, key'];
    assert |x| == |y| && x[0] == y[0] && x[1] == y[1];
  }

  lemma OwnOpKeepsView(c: Config, op: Op, now: int, store: Store, m: Store)
    requires SeenAs(c, store, m)
    ensures SeenAs(c, Apply(c, op, now, store), ApplyOwn(c, op, now, m))
  {
    var store', m' := Apply(c, op, now, store), ApplyOwn(c, op, now, m);
    forall key: string
      ensures BuildKey(c, key) in store' <==> key in m'
      ensures key in m' ==> store'[BuildKey(c, key)] == m'[key]
    {
      if OnOneKey(op) { SameKeyIff(c, key, op.key); }
      assert BuildKey(c, key)[..|KeyPrefix(c)|] == KeyPrefix(c);
    }
  }

  // ---- When two caches interfere ----

  predicate Comparable(a: string, b: string) { a <= b || b <= a }

  /** Cache `a` can reach keys of cache `b`: its bare prefix, without the colon, and the
      other's prefix with the colon are comparable. */
  predicate CanReach(a: Config, b: Config) { Comparable(KeyPrefix(a), KeyPrefix(b) + ":") }

  lemma OpStaysUnderPrefix(a: Config, op: Op, now: int, store: Store, key: string)
    requires !(KeyPrefix(a) <= key)
    ensures var t := Apply(a, op, now, store);
      (key in t <==> key in store) && (key in store ==> t[key] == store[key])
  {
    if OnOneKey(op) {
      assert BuildKey(a, op.key)[..|KeyPrefix(a)|] == KeyPrefix(a);
    }
  }

  lemma OtherOpKeepsView(a: Config, b: Config, op: Op, now: int, store: Store, m: Store)
    requires SeenAs(b, store, m) && !CanReach(a, b)
    ensures SeenAs(b, Apply(a, op, now, store), m)
  {
    forall key: string
      ensures !(KeyPrefix(a) <= BuildKey(b, key))
    {
      PrefixesOfOneText(KeyPrefix(a), KeyPrefix(b) + ":", BuildKey(b, key));
    }
    forall key: string
      ensures BuildKey(b, key) in Apply(a, op, now, store) <==> key in m
      ensures key in m ==> Apply(a, op, now, store)[BuildKey(b, key)] == m[key]
    {
      OpStaysUnderPrefix(a, op, now, store, BuildKey(b, key));
    }
  }

  lemma PrefixesOfOneText(a: string, b: string, text: string)
    requires b <= text
    ensures a <= text ==> Comparable(a, b)
  {
    if a <= text {
      assert text[..|a|] == a && text[..|b|] == b;
      assert if |a| <= |b| then b[..|a|] == a else a[..|b|] == b;
    }
  }

  /** Some operation of `a`, in some state of the server, changes some entry of `b`. */
  ghost predicate Interferes(a: Config, b: Config) {
    exists op, now, store: Store, key: string ::
      var t := Apply(a, op, now, store);
      var k := BuildKey(b, key);
      k in store && (k !in t || t[k] != store[k])
  }

  /** The exact condition: a cache interferes with another exactly when it can reach it. */
  lemma InterferesIff(a: Config, b: Config)
    ensures Interferes(a, b) <==> CanReach(a, b)
  {
    if CanReach(a, b) {
      var p, q := KeyPrefix(a), KeyPrefix(b) + ":";
      var key := if p <= q then "" else p[|q|..];
      assert BuildKey(b, key) == if p <= q then q else p;
      assert p <= BuildKey(b, key);
      var store: Store := map[BuildKey(b, key) := Entry("", Never)];
      assert BuildKey(b, key) !in Apply(a, ClearPage([BuildKey(b, key)]), 0, store);
    } else if Interferes(a, b) {
      var op, now, store: Store, key: string :|
        var t := Apply(a, op, now, store);
        var k := BuildKey(b, key);
        k in store && (k !in t || t[k] != store[k]);
      PrefixesOfOneText(KeyPrefix(a), KeyPrefix(b) + ":", BuildKey(b, key));
      OpStaysUnderPrefix(a, op, now, store, BuildKey(b, key));
    }
  }

  /** Prefixes of which neither begins with the other keep two caches apart; different
      prefixes alone do not: "user" reaches "users". */
  lemma UnrelatedPrefixesAreApart(a: Config, b: Config)
    requires !Comparable(KeyPrefix(a), KeyPrefix(b))
    ensures !CanReach(a, b) && !CanReach(b, a)
  {
    var p, q := KeyPrefix(a), KeyPrefix(b);
    PrefixesOfOneText(p, q, q + ":");
    PrefixesOfOneText(q, p, p + ":");
    assert q <= q + ":" && p <= p + ":";
  }

  // ---- Runs ----

  datatype Event = Tick(d: nat) | Do(cache: nat, op: Op)

  function Run(cs: seq<Config>, events: seq<Event>): (r: (int, Store)) {
    if events == [] then (0, map[])
    else
      var (now, store) := Run(cs, events[..|events| - 1]);
      match events[|events| - 1]
      case Tick(d) => (now + d, store)
      case Do(i, op) => (now, if i < |cs| then Apply(cs[i], op, now, store) else store)
  }

  /** What cache `i` would hold had it been alone. */
  function RunAlone(cs: seq<Config>, events: seq<Event>, i: nat): (r: (int, Store))
    requires i < |cs|
  {
    if events == [] then (0, map[])
    else
      var (now, m) := RunAlone(cs, events[..|events| - 1], i);
      match events[|events| - 1]
      case Tick(d) => (now + d, m)
      case Do(j, op) => (now, if j == i then ApplyOwn(cs[i], op, now, m) else m)
  }

  /** Caches that cannot reach each other behave like private maps: over every interleaving
      of operations and time, each cache holds exactly what its own operations put there. */
  lemma {:induction false} CachesAreIndependent(cs: seq<Config>, events: seq<Event>, i: nat)
    requires i < |cs| && forall j :: 0 <= j < |cs| && j != i ==> !CanReach(cs[j], cs[i])
    ensures Run(cs, events).0 == RunAlone(cs, events, i).0
    ensures SeenAs(cs[i], Run(cs, events).1, RunAlone(cs, events, i).1)
  {
    if events != [] {
      var before := events[..|events| - 1];
      CachesAreIndependent(cs, before, i);
      var (now, store) := Run(cs, before);
      var m := RunAlone(cs, before, i).1;
      match events[|events| - 1]
      case Tick(d) =>
      case Do(j, op) =>
        if j == i {
          OwnOpKeepsView(cs[i], op, now, store, m);
        } else if j < |cs| {
          OtherOpKeepsView(cs[j], cs[i], op, now, store, m);
        }
    }
  }

  /** So `Get` answers from the private map. */
  lemma GetReadsOwnMap(cs: seq<Config>, events: seq<Event>, i: nat, key: string)
    requires i < |cs| && forall j :: 0 <= j < |cs| && j != i ==> !CanReach(cs[j], cs[i])
    ensures var (now, store) := Run(cs, events); var m := RunAlone(cs, events, i).1;
      Get(cs[i], key, now, store) == if Live(m, now, key) then Found(m[key].value) else NotFoundInCache
  {
    CachesAreIndependent(cs, events, i);
  }

  /** Cache `i` is handed the built key on one of its pages. */
  predicate Covered(c: Config, events: seq<Event>, i: nat, key: string) {
    exists k :: 0 <= k < |events| && OnPage(events[k], i, BuildKey(c, key))
  }

  predicate OnPage(e: Event, i: nat, key: string) {
    e.Do? && e.cache == i && e.op.ClearPage? && key in e.op.keys
  }

  /** Cache `i` does nothing but clear. */
  predicate OnlyClears(events: seq<Event>, i: nat) {
    forall k :: 0 <= k < |events| && events[k].Do? && events[k].cache == i ==> events[k].op.ClearPage?
  }

  lemma {:induction false} LeftIsUncovered(cs: seq<Config>, before: seq<Event>, events: seq<Event>, i: nat)
    requires i < |cs| && OnlyClears(events, i)
    ensures forall key :: key in RunAlone(cs, before + events, i).1 ==>
      key in RunAlone(cs, before, i).1 && !Covered(cs[i], events, i, key)
  {
    if events == [] {
      assert before + events == before;
    } else {
      var init, last := events[..|events| - 1], events[|events| - 1];
      LeftIsUncovered(cs, before, init, i);
      assert (before + events)[..|before + events| - 1] == before + init;
      forall key | key in RunAlone(cs, before + events, i).1
        ensures key in RunAlone(cs, before, i).1 && !Covered(cs[i], events, i, key)
      {
        assert key in RunAlone(cs, before + init, i).1 && !OnPage(last, i, BuildKey(cs[i], key));
        if k :| 0 <= k < |events| && OnPage(events[k], i, BuildKey(cs[i], key)) {
          assert k < |init| ==> OnPage(init[k], i, BuildKey(cs[i], key));
        }
      }
    }
  }

  /** A Clear whose pages interleave with the operations of caches that cannot reach this one,
      and with time, leaves nothing of it, when the pages cover every key that was there. */
  lemma {:induction false} InterleavedClear(cs: seq<Config>, before: seq<Event>, events: seq<Event>, i: nat)
    requires i < |cs| && forall j :: 0 <= j < |cs| && j != i ==> !CanReach(cs[j], cs[i])
    requires OnlyClears(events, i)
    requires forall key :: BuildKey(cs[i], key) in Run(cs, before).1 ==> Covered(cs[i], events, i, key)
    ensures forall key :: BuildKey(cs[i], key) !in Run(cs, before + events).1
  {
    CachesAreIndependent(cs, before, i);
    CachesAreIndependent(cs, before + events, i);
    LeftIsUncovered(cs, before, events, i);
    forall key ensures BuildKey(cs[i], key) !in Run(cs, before + events).1 {
      assert BuildKey(cs[i], key) in Run(cs, before).1 <==> key in RunAlone(cs, before, i).1;
    }
  }

  // ---- Walking the key space with a cursor ----

  /** One answer to SCAN, and whether the deletion that Clear sends for it succeeds. */
  datatype Page = Page(keys: seq<string>, cursor: nat, scanOk: bool, delOk: bool)

  /** The key space before page `i` is asked for, when each page before it was deleted. */
  function StoreAt(store: Store, pages: seq<Page>, i: nat): Store
    requires i <= |pages|
  {
    if i == 0 then store else Drop(StoreAt(store, pages, i - 1), pages[i - 1].keys)
  }

  function Drop(store: Store, keys: seq<string>): Store {
    map key | key in store && key !in keys :: store[key]
  }

  /** Where the iteration that page `i` belongs to began: SCAN returns to cursor 0. */
  function IterStart(pages: seq<Page>, i: nat): (a: nat)
    requires i <= |pages|
    ensures a <= i && (a == 0 || pages[a - 1].cursor == 0)
    ensures forall k :: a <= k < i ==> pages[k].cursor != 0
  {
    if i == 0 || pages[i - 1].cursor == 0 then i else IterStart(pages, i - 1)
  }

  predicate Matches(prefix: string, key: string) { prefix <= key }

  /** What SCAN with MATCH promises for the first `n` pages: it returns matching keys that
      were there during the iteration, possibly several times, and a complete iteration
      returns each matching key that was there throughout. */
  predicate HonestScan(prefix: string, store: Store, pages: seq<Page>, n: nat)
    requires n <= |pages|
  {
    && (forall i, key | 0 <= i < n && key in pages[i].keys ::
        Matches(prefix, key) && key in StoreAt(store, pages, IterStart(pages, i)))
    && (forall b, key | 0 <= b < n && pages[b].cursor == 0 && key in StoreAt(store, pages, b)
        && Matches(prefix, key) :: Returned(pages, IterStart(pages, b), b, key))
  }

  predicate Returned(pages: seq<Page>, a: nat, b: nat, key: string)
    requires a <= b < |pages|
  {
    exists i :: a <= i <= b && key in pages[i].keys
  }

  /** The deletion of a page that matches is an operation of the cache. */
  lemma PageIsOp(c: Config, now: int, store: Store, keys: seq<string>)
    requires forall key :: key in keys ==> Matches(KeyPrefix(c), key)
    ensures Apply(c, ClearPage(keys), now, store) == Drop(store, keys)
  {
  }

  lemma {:induction false} DeletedStays(store: Store, pages: seq<Page>, i: nat, j: nat)
    requires i <= j <= |pages|
    ensures forall key :: key in StoreAt(store, pages, j) ==>
      key in StoreAt(store, pages, i) && StoreAt(store, pages, j)[key] == StoreAt(store, pages, i)[key]
  {
    if i < j { DeletedStays(store, pages, i, j - 1); }
  }

  lemma ReturnedIsDeleted(store: Store, pages: seq<Page>, a: nat, b: nat, key: string)
    requires a <= b < |pages| && Returned(pages, a, b, key)
    ensures key !in StoreAt(store, pages, b + 1)
  {
    var i :| a <= i <= b && key in pages[i].keys;
    DeletedStays(store, pages, i + 1, b + 1);
    assert key !in StoreAt(store, pages, i + 1);
  }

  /** A complete iteration leaves no matching key behind. */
  lemma IterationClears(prefix: string, store: Store, pages: seq<Page>, n: nat, b: nat)
    requires b < n <= |pages| && pages[b].cursor == 0 && HonestScan(prefix, store, pages, n)
    ensures forall key :: key in StoreAt(store, pages, b + 1) ==> !Matches(prefix, key)
  {
    DeletedStays(store, pages, b, b + 1);
    forall key | Matches(prefix, key) && key in StoreAt(store, pages, b)
      ensures key !in StoreAt(store, pages, b + 1)
    {
      ReturnedIsDeleted(store, pages, IterStart(pages, b), b, key);
    }
  }

  /** Clear touches matching keys only. */
  lemma {:induction false} OthersStay(prefix: string, store: Store, pages: seq<Page>, n: nat, i: nat)
    requires i <= n <= |pages| && HonestScan(prefix, store, pages, n)
    ensures forall key :: key in store && !Matches(prefix, key) ==>
      key in StoreAt(store, pages, i) && StoreAt(store, pages, i)[key] == store[key]
  {
    if i > 0 { OthersStay(prefix, store, pages, n, i - 1); }
  }

  /** At the end of an iteration whose pages were all deleted, what is left is exactly the
      store without the matching keys. */
  lemma IterationIsClear(prefix: string, store: Store, pages: seq<Page>, n: nat, b: nat)
    requires b < n <= |pages| && pages[b].cursor == 0 && HonestScan(prefix, store, pages, n)
    ensures StoreAt(store, pages, b + 1) == Cleared(prefix, store)
  {
    IterationClears(prefix, store, pages, n, b);
    OthersStay(prefix, store, pages, n, b + 1);
    DeletedStays(store, pages, 0, b + 1);
    var left, cleared := StoreAt(store, pages, b + 1), Cleared(prefix, store);
    forall key
      ensures key in left <==> key in cleared
      ensures key in left ==> left[key] == cleared[key]
    {
      if key in left { assert !Matches(prefix, key) && key in store; }
      if key in cleared { assert !Matches(prefix, key); }
    }
  }

  /** Once an iteration is complete, every later page is empty. Clear goes on after an empty
      page even at cursor 0, so from there it never returns. */
  lemma EmptyAfterwards(prefix: string, store: Store, pages: seq<Page>, n: nat, b: nat, i: nat)
    requires b < i < n <= |pages| && pages[b].cursor == 0 && HonestScan(prefix, store, pages, n)
    ensures pages[i].keys == []
  {
    var a := IterStart(pages, i);
    assert a > b;
    DeletedStays(store, pages, b + 1, a);
    IterationClears(prefix, store, pages, n, b);
    forall key | key in pages[i].keys
      ensures Matches(prefix, key) && key in StoreAt(store, pages, a)
    {
    }
    if pages[i].keys != [] { HasMember(pages[i].keys); }
  }

  lemma HasMember(keys: seq<string>)
    requires keys != []
    ensures exists key :: key in keys
  {
    assert keys[0] in keys;
  }

  /** A page on which Clear returns nil. */
  predicate Ends(p: Page) { p.keys != [] && p.cursor == 0 }

  /** A page on which Clear returns nil is the last one of the very first iteration, and some
      matching key was there: Clear never returns on an empty cache. */
  lemma ClearEndsWithFirstIteration(prefix: string, store: Store, pages: seq<Page>, n: nat, b: nat)
    requires b < n <= |pages| && HonestScan(prefix, store, pages, n) && Ends(pages[b])
    ensures forall k :: 0 <= k < b ==> pages[k].cursor != 0
    ensures exists key :: key in store && Matches(prefix, key)
  {
    forall k | 0 <= k < b ensures pages[k].cursor != 0 {
      if pages[k].cursor == 0 { EmptyAfterwards(prefix, store, pages, n, k, b); }
    }
    var key := pages[b].keys[0];
    assert key in pages[b].keys;
    assert Matches(prefix, key) && key in StoreAt(store, pages, IterStart(pages, b));
    DeletedStays(store, pages, 0, IterStart(pages, b));
  }

  /** The exact condition, with `b` the last page of the first iteration: among any number of
      pages there is one on which Clear returns nil if and only if page `b` is not empty. */
  lemma ClearReturnsIff(prefix: string, store: Store, pages: seq<Page>, n: nat, b: nat)
    requires b < n <= |pages| && HonestScan(prefix, store, pages, n)
    requires pages[b].cursor == 0 && forall k :: 0 <= k < b ==> pages[k].cursor != 0
    ensures (exists k :: 0 <= k < n && Ends(pages[k])) <==> pages[b].keys != []
  {
    if pages[b].keys != [] {
      assert Ends(pages[b]);
    } else {
      forall k | 0 <= k < n ensures !Ends(pages[k]) {
        if k > b { EmptyAfterwards(prefix, store, pages, n, b, k); }
      }
    }
  }

  predicate CanReturn(prefix: string, store: Store, pages: seq<Page>) {
    HonestScan(prefix, store, pages, |pages|) && exists k :: 0 <= k < |pages| && Ends(pages[k])
  }

  /** The same for a caller, who does not see the pages: Clear can return nil if and only if a
      matching key is stored. */
  lemma ClearCanReturnIff(prefix: string, store: Store)
    ensures (exists pages :: CanReturn(prefix, store, pages)) <==> exists key :: key in store && Matches(prefix, key)
  {
    if key :| key in store && Matches(prefix, key) {
      var keys := AsList(Matching(prefix, store));
      assert key in keys;
      OnePageReturns(prefix, store, keys);
    }
    if pages :| CanReturn(prefix, store, pages) {
      var b :| 0 <= b < |pages| && Ends(pages[b]);
      ClearEndsWithFirstIteration(prefix, store, pages, |pages|, b);
    }
  }

  lemma AsList(keys: set<string>) returns (list: seq<string>)
    ensures forall key :: key in list <==> key in keys
  {
    list := [];
    if keys != {} {
      var key :| key in keys;
      list := AsList(keys - {key});
      list := list + [key];
    }
  }

  /** One page with all matching keys is an honest answer. */
  lemma OnePageReturns(prefix: string, store: Store, keys: seq<string>)
    requires keys != [] && forall key :: key in keys <==> key in store && Matches(prefix, key)
    ensures CanReturn(prefix, store, [Page(keys, 0, true, true)])
  {
    var pages := [Page(keys, 0, true, true)];
    assert IterStart(pages, 0) == 0 && StoreAt(store, pages, 0) == store;
    assert Ends(pages[0]);
    forall key | key in store && Matches(prefix, key) ensures Returned(pages, 0, 0, key) {
      assert key in pages[0].keys;
    }
  }

  // ---- Counting ----

  function Flat(pages: seq<Page>): seq<string> {
    if pages == [] then [] else Flat(pages[..|pages| - 1]) + pages[|pages| - 1].keys
  }

  /** The number of keys on all pages. */
  function Total(pages: seq<Page>): nat {
    if pages == [] then 0 else |pages[0].keys| + Total(pages[1..])
  }

  lemma {:induction false} TotalSnoc(pages: seq<Page>, p: Page)
    ensures Total(pages + [p]) == Total(pages) + |p.keys|
  {
    if pages == [] {
      assert [] + [p] == [p] && [p][1..] == [];
    } else {
      TotalSnoc(pages[1..], p);
      assert (pages + [p])[1..] == pages[1..] + [p];
    }
  }

  /** All pages count, and a key is counted exactly when it is on some page. */
  lemma {:induction false} FlatIsAllPages(pages: seq<Page>)
    ensures |Flat(pages)| == Total(pages)
    ensures forall key :: key in Flat(pages) <==> exists i :: 0 <= i < |pages| && key in pages[i].keys
  {
    if pages != [] {
      var init, last := pages[..|pages| - 1], pages[|pages| - 1];
      FlatIsAllPages(init);
      TotalSnoc(init, last);
      assert pages == init + [last];
      forall key ensures key in Flat(pages) <==> exists i :: 0 <= i < |pages| && key in pages[i].keys {
        if i :| 0 <= i < |pages| && key in pages[i].keys {
          assert i < |init| ==> key in init[i].keys;
        }
        if i :| 0 <= i < |init| && key in init[i].keys {
          assert key in pages[i].keys;
        }
      }
    }
  }

  /** A complete iteration over a store that does not change. */
  ghost predicate HonestCount(prefix: string, store: Store, pages: seq<Page>) {
    forall key :: key in Flat(pages) <==> key in store && Matches(prefix, key)
  }

  function Matching(prefix: string, store: Store): set<string> {
    set key | key in store && Matches(prefix, key)
  }

  lemma {:induction false} CountDistinct(keys: seq<string>)
    ensures |set key | key in keys| <= |keys|
    ensures |set key | key in keys| == |keys| <==> NoRepeats(keys)
  {
    if keys != [] {
      var init, last := keys[..|keys| - 1], keys[|keys| - 1];
      CountDistinct(init);
      var all, some := set key | key in keys, set key | key in init;
      assert keys == init + [last];
      assert all == some + {last};
      if last in init {
        assert all == some;
      } else {
        assert |all| == |some| + 1;
      }
      assert NoRepeats(keys) <==> NoRepeats(init) && last !in init;
    }
  }

  /** The count is never too small, and it is exact exactly when no key came twice. */
  lemma SizeIsUpperBound(prefix: string, store: Store, pages: seq<Page>)
    requires HonestCount(prefix, store, pages)
    ensures |Flat(pages)| >= |Matching(prefix, store)|
    ensures |Flat(pages)| == |Matching(prefix, store)| <==> NoRepeats(Flat(pages))
  {
    CountDistinct(Flat(pages));
    assert Matching(prefix, store) == set key | key in Flat(pages);
  }

  // ---- The cache object ----

  class Server {
    var store: Store
    var now: int

    constructor ()
      ensures store == map[] && now == 0
    {
      store, now := map[], 0;
    }
  }

  datatype Outcome = Ok | ErrScan | ErrDel | Running

  class CacheClient {
    const config: Config
    const conn: Server

    constructor (config: Config, conn: Server)
      ensures this.config == config && this.conn == conn
    {
      this.config, this.conn := config, conn;
    }

    /** The key reads as the value for as long as `clearTime` says, and no other key changes. */
    method SetKey(key: string, value: string)
      modifies conn`store
      ensures conn.store == Apply(config, Op.Set(key, value), conn.now, old(conn.store))
      ensures ReadsFrom(config, key, value, conn.now, conn.store)
      ensures OnlyKey(BuildKey(config, key), old(conn.store), conn.store)
    {
      conn.store := conn.store[BuildKey(config, key) := Entry(value, DeadlineIn(conn.now, config.clearTime))];
    }

    /** A live entry is kept; otherwise the key reads as the value for as long as `clearTime`
        says, also when an expired entry was still stored. No other key changes. */
    method SetNXKey(key: string, value: string)
      modifies conn`store
      ensures conn.store == Apply(config, Op.SetNX(key, value), conn.now, old(conn.store))
      ensures Get(config, key, conn.now, old(conn.store)).Found? ==> conn.store == old(conn.store)
      ensures Get(config, key, conn.now, old(conn.store)).NotFoundInCache? ==>
        ReadsFrom(config, key, value, conn.now, conn.store)
      ensures OnlyKey(BuildKey(config, key), old(conn.store), conn.store)
    {
      if !Live(conn.store, conn.now, BuildKey(config, key)) {
        conn.store := conn.store[BuildKey(config, key) := Entry(value, DeadlineIn(conn.now, config.clearTime))];
      }
    }

    /** The key is not found at any later time, and no other key changes. */
    method DeleteKey(key: string)
      modifies conn`store
      ensures conn.store == Apply(config, Op.Delete(key), conn.now, old(conn.store))
      ensures forall t :: Get(config, key, t, conn.store) == NotFoundInCache
      ensures OnlyKey(BuildKey(config, key), old(conn.store), conn.store)
    {
      conn.store := conn.store - {BuildKey(config, key)};
    }

    /** Clear against the pages SCAN returns, with nobody else writing; `Running` when they
        run out. When it returns nil and SCAN kept its promise, exactly the keys under the
        prefix are gone. */
    method ClearAll(pages: seq<Page>) returns (r: Outcome, used: nat)
      modifies conn`store
      ensures used <= |pages| && (r == Running ==> used == |pages|) && (r == Ok ==> used > 0)
      ensures forall k :: 0 <= k < used && !(r == Ok && k == used - 1) ==> !Ends(pages[k]) || !pages[k].delOk
      ensures r == Ok ==> Ends(pages[used - 1])
      ensures r == Ok || r == Running ==> conn.store == StoreAt(old(conn.store), pages, used)
      ensures r == ErrScan || r == ErrDel ==> used < |pages| && conn.store == StoreAt(old(conn.store), pages, used)
      ensures r == ErrScan ==> !pages[used].scanOk
      ensures r == ErrDel ==> pages[used].keys != [] && !pages[used].delOk
      ensures r == Ok && HonestScan(KeyPrefix(config), old(conn.store), pages, used) ==>
        conn.store == Cleared(KeyPrefix(config), old(conn.store))
    {
      used := 0;
      while used < |pages|
        invariant 0 <= used <= |pages|
        invariant conn.store == StoreAt(old(conn.store), pages, used)
        invariant forall k :: 0 <= k < used ==> !Ends(pages[k])
      {
        var page := pages[used];
        if !page.scanOk {
          return ErrScan, used;
        }
        if |page.keys| == 0 {
          assert Drop(conn.store, page.keys) == conn.store;
          used := used + 1;
          continue;
        }
        if !page.delOk {
          return ErrDel, used;
        }
        conn.store := Drop(conn.store, page.keys);
        used := used + 1;
        if page.cursor == 0 {
          if HonestScan(KeyPrefix(config), old(conn.store), pages, used) {
            IterationIsClear(KeyPrefix(config), old(conn.store), pages, used, used - 1);
          }
          return Ok, used;
        }
      }
      r := Running;
    }

    /** Size against the pages SCAN returns: the number of keys on the pages up to cursor 0. */
    method Size(pages: seq<Page>) returns (r: Outcome, length: int, used: nat)
      ensures used <= |pages|
      ensures r == Ok <==> used > 0 && pages[used - 1].cursor == 0 && pages[used - 1].scanOk && length >= 0
      ensures r == Ok ==> length == Total(pages[..used]) == |Flat(pages[..used])|
      ensures forall k :: 0 <= k < used - 1 ==> pages[k].cursor != 0 && pages[k].scanOk
      ensures r == ErrScan ==> length == -1 && used > 0 && !pages[used - 1].scanOk
      ensures r in {Ok, ErrScan, Running}
    {
      length, used := 0, 0;
      while used < |pages|
        invariant 0 <= used <= |pages| && length == |Flat(pages[..used])|
        invariant forall k :: 0 <= k < used ==> pages[k].cursor != 0 && pages[k].scanOk
      {
        var page := pages[used];
        used := used + 1;
        if !page.scanOk {
          return ErrScan, -1, used;
        }
        assert pages[..used][..used - 1] == pages[..used - 1];
        length := length + |page.keys|;
        if page.cursor == 0 {
          FlatIsAllPages(pages[..used]);
          return Ok, length, used;
        }
      }
      r := Running;
    }
  }
}
