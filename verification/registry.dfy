/** The name-to-options maps of health checks and metrics: insertion without overwriting, and
    merging in whatever order Go visits the source map. */
module Registry {
  import opened Common

  datatype Error = NoError | ErrConflictName | ErrOptionsIsNil | ErrEmptyName | ErrFuncIsNil

  type Options<V> = map<string, V>

  /** An order in which the keys of a map can be visited. */
  predicate VisitOrder<V>(names: seq<string>, src: Options<V>) {
    NoRepeats(names) && (forall i :: 0 <= i < |names| ==> names[i] in src) && (forall k :: k in src ==> k in names)
  }

  function Restrict<V>(src: Options<V>, names: seq<string>): Options<V> {
    map k | k in src && k in names :: src[k]
  }

  predicate Disjoint<V>(a: Options<V>, b: Options<V>) { forall k :: k in a ==> k !in b }

  /** The entries visited before the first name that is already taken. */
  function BeforeConflict<V>(dst: Options<V>, names: seq<string>): (n: nat)
    ensures n <= |names| && (n < |names| ==> names[n] in dst)
    ensures forall i :: 0 <= i < n ==> names[i] !in dst
  {
    Passing(names, name => name !in dst)
  }

  /** Append as a function: what it leaves in the destination, for a given visit order. */
  function Appended<V>(dst: Options<V>, src: Options<V>, names: seq<string>): Options<V> {
    dst + Restrict(src, names[..BeforeConflict(dst, names)])
  }

  function AppendError<V>(dst: Options<V>, names: seq<string>): Error {
    if BeforeConflict(dst, names) == |names| then NoError else ErrConflictName
  }

  /** Success does not depend on the order: the maps must be disjoint, and then the result is
      their union. */
  lemma AppendSucceedsIff<V>(dst: Options<V>, src: Options<V>, names: seq<string>)
    requires VisitOrder(names, src)
    ensures AppendError(dst, names) == NoError <==> Disjoint(src, dst)
    ensures Disjoint(src, dst) ==> Appended(dst, src, names) == dst + src
  {
    var n := BeforeConflict(dst, names);
    if n == |names| {
      assert names[..n] == names;
      assert Restrict(src, names) == src;
    } else {
      assert names[n] in src && names[n] in dst;
    }
  }

  /** Whatever happens, no existing entry changes and only entries of the source are added. */
  lemma AppendNeverOverwrites<V>(dst: Options<V>, src: Options<V>, names: seq<string>, k: string)
    requires VisitOrder(names, src)
    ensures k in dst ==> k in Appended(dst, src, names) && Appended(dst, src, names)[k] == dst[k]
    ensures k in Appended(dst, src, names) && k !in dst ==> k in src && Appended(dst, src, names)[k] == src[k]
  {
    var n := BeforeConflict(dst, names);
    assert forall i :: 0 <= i < n ==> names[..n][i] == names[i];
  }

  /** Of the source exactly the entries visited before the first conflict are added, so also a
      failing Append keeps what it had inserted. */
  lemma AppendAddsBeforeConflict<V>(dst: Options<V>, src: Options<V>, names: seq<string>)
    requires VisitOrder(names, src)
    ensures forall i :: 0 <= i < BeforeConflict(dst, names) ==>
      names[i] in Appended(dst, src, names) && Appended(dst, src, names)[names[i]] == src[names[i]]
    ensures forall k :: k in Appended(dst, src, names) <==>
      k in dst || exists i :: 0 <= i < BeforeConflict(dst, names) && names[i] == k
  {
    var n := BeforeConflict(dst, names);
    assert forall i :: 0 <= i < n ==> names[..n][i] == names[i];
    forall i | 0 <= i < n ensures names[i] in Appended(dst, src, names) {
      assert names[..n][i] in names[..n];
    }
  }

  lemma {:induction false} OneMore<V>(src: Options<V>, names: seq<string>, i: nat)
    requires VisitOrder(names, src) && i < |names|
    ensures names[i] !in names[..i] && names[i] in src
    ensures Restrict(src, names[..i + 1]) == Restrict(src, names[..i])[names[i] := src[names[i]]]
  {
    assert names[..i + 1] == names[..i] + [names[i]];
    assert forall j :: 0 <= j < i ==> names[..i][j] == names[j];
  }

  lemma UpdateUnion<V>(dst: Options<V>, m: Options<V>, k: string, v: V)
    ensures dst + m[k := v] == (dst + m)[k := v]
  {
  }

  /** One turn of the loop of Append. */
  lemma {:induction false} LoopTurn<V>(dst: Options<V>, src: Options<V>, names: seq<string>, i: nat)
    requires VisitOrder(names, src) && i < |names| && i <= BeforeConflict(dst, names)
    ensures names[i] in src
    ensures names[i] in dst + Restrict(src, names[..i]) <==> i == BeforeConflict(dst, names)
    ensures dst + Restrict(src, names[..i + 1]) == (dst + Restrict(src, names[..i]))[names[i] := src[names[i]]]
  {
    OneMore(src, names, i);
    UpdateUnion(dst, Restrict(src, names[..i]), names[i], src[names[i]]);
  }

  /** The loop of Append: insert until a name is taken. */
  method Merge<V>(dst: Options<V>, src: Options<V>, names: seq<string>) returns (options: Options<V>, err: Error)
    requires VisitOrder(names, src)
    ensures options == Appended(dst, src, names) && err == AppendError(dst, names)
  {
    options := dst;
    var i := 0;
    assert dst + Restrict(src, names[..0]) == dst;
    while i < |names|
      invariant 0 <= i <= BeforeConflict(dst, names)
      invariant options == dst + Restrict(src, names[..i])
    {
      LoopTurn(dst, src, names, i);
      var k := names[i];
      if k in options {
        return options, ErrConflictName;
      }
      options := options[k := src[k]];
      i := i + 1;
    }
    err := NoError;
  }

  class MapOptions<V> {
    var options: Options<V>

    constructor ()
      ensures options == map[]
    {
      options := map[];
    }

    /** Append with the keys of the source visited in the order `names`. */
    method Append(src: Options<V>, names: seq<string>) returns (err: Error)
      requires VisitOrder(names, src)
      modifies this
      ensures options == Appended(old(options), src, names) && err == AppendError(old(options), names)
    {
      options, err := Merge(options, src, names);
    }

    /** Add: `given` is whether the pointer is set, `funcMissing` whether a required function
        is not; metrics require none. It succeeds exactly for complete options under a new,
        non-empty name, and then that entry is the only difference; no existing entry is ever
        changed. */
    method Add(given: bool, name: string, value: V, funcMissing: bool) returns (err: Error)
      modifies this
      ensures err == NoError <==> given && name != "" && !funcMissing && name !in old(options)
      ensures err == ErrOptionsIsNil <==> !given
      ensures err == ErrEmptyName <==> given && name == ""
      ensures err == ErrFuncIsNil <==> given && name != "" && funcMissing
      ensures forall k :: k in old(options) ==> k in options && options[k] == old(options)[k]
      ensures options.Keys - old(options).Keys == if err == NoError then {name} else {}
      ensures err == NoError ==> options[name] == value
    {
      if !given {
        return ErrOptionsIsNil;
      }
      if name == "" {
        return ErrEmptyName;
      }
      if funcMissing {
        return ErrFuncIsNil;
      }
      if name in options {
        return ErrConflictName;
      }
      options := options[name := value];
      err := NoError;
    }
  }
}
