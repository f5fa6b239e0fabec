/** What several components share. */
module Common {

  datatype Option<+T> = None | Some(value: T)

  predicate NoRepeats(names: seq<string>) {
    forall i, j :: 0 <= i < j < |names| ==> names[i] != names[j]
  }

  /** How many elements pass before the first that does not. */
  function Passing<T>(items: seq<T>, ok: T -> bool): (n: nat)
    ensures n <= |items| && (n < |items| ==> !ok(items[n]))
    ensures forall i :: 0 <= i < n ==> ok(items[i])
  {
    if items == [] || !ok(items[0]) then 0
    else
      var n := Passing(items[1..], ok);
      assert forall i :: 1 <= i < n + 1 ==> items[i] == items[1..][i - 1];
      n + 1
  }

  lemma Regroup<T>(a: seq<T>, b: seq<T>, c: seq<T>)
    ensures (a + b) + c == a + (b + c)
  {
  }
}
