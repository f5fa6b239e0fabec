/** The column lists a struct type gives rise to, and the SQL texts built from them. */
module MiniORM {
  import opened Strings

  /** A struct type as reflection shows it: each field with its "db" tag, "" when missing. */
  datatype Type = Scalar | Struct(fields: seq<Field>)

  datatype Field = Field(anonymous: bool, tag: string, typ: Type)

  /** Only structs are embedded, at any depth; reflection panics on anything else. */
  predicate EmbedsStructs(t: Type) {
    t.Struct? && forall f :: f in t.fields && f.anonymous ==> EmbedsStructs(f.typ)
  }

  predicate AllEmbedStructs(fields: seq<Field>) {
    forall f :: f in fields && f.anonymous ==> EmbedsStructs(f.typ)
  }

  /** The tags in order, those of an embedded struct before its own tag. */
  function Flatten(t: Type): seq<string>
    requires EmbedsStructs(t)
  {
    FlattenFields(t.fields)
  }

  function FlattenField(f: Field): seq<string>
    requires f.anonymous ==> EmbedsStructs(f.typ)
    decreases f, 1
  {
    EmbeddedTags(f) + (if f.tag != "" then [f.tag] else [])
  }

  function FlattenFields(fields: seq<Field>): seq<string>
    requires AllEmbedStructs(fields)
  {
    if fields == [] then []
    else
      assert fields[0] in fields;
      FlattenField(fields[0]) + FlattenFields(fields[1..])
  }

  lemma {:induction false} FlattenSnoc(fields: seq<Field>, f: Field)
    requires AllEmbedStructs(fields) && (f.anonymous ==> EmbedsStructs(f.typ))
    ensures AllEmbedStructs(fields + [f])
    ensures FlattenFields(fields + [f]) == FlattenFields(fields) + FlattenField(f)
  {
    if fields == [] {
      assert fields + [f] == [f] && [f][1..] == [];
    } else {
      FlattenSnoc(fields[1..], f);
      assert (fields + [f])[1..] == fields[1..] + [f];
      assert fields[0] in fields;
    }
  }

  function EmbeddedTags(f: Field): seq<string>
    requires f.anonymous ==> EmbedsStructs(f.typ)
    decreases f, 0
  {
    if f.anonymous then Flatten(f.typ) else []
  }

  // How often a tag occurs in a struct, at any depth.

  function Occurrences(t: Type, tag: string): nat
    requires EmbedsStructs(t)
  {
    OccurrencesIn(t.fields, tag)
  }

  function OccurrencesIn(fields: seq<Field>, tag: string): nat
    requires AllEmbedStructs(fields)
  {
    if fields == [] then 0
    else
      assert fields[0] in fields;
      (if fields[0].tag == tag then 1 else 0)
      + (if fields[0].anonymous then Occurrences(fields[0].typ, tag) else 0)
      + OccurrencesIn(fields[1..], tag)
  }

  /** Every tag at every depth is listed as often as it occurs, and a missing one never. */
  lemma {:induction false} EveryTagIsListed(t: Type, tag: string)
    requires EmbedsStructs(t)
    ensures multiset(Flatten(t))[tag] == if tag != "" then Occurrences(t, tag) else 0
    decreases t, 1, 0
  {
    TagsOfFields(t, t.fields, tag);
  }

  lemma {:induction false} TagsOfFields(t: Type, fields: seq<Field>, tag: string)
    requires t.Struct? && AllEmbedStructs(fields) && forall f :: f in fields ==> f in t.fields
    ensures multiset(FlattenFields(fields))[tag] == if tag != "" then OccurrencesIn(fields, tag) else 0
    decreases t, 0, |fields|
  {
    if fields != [] {
      var f := fields[0];
      assert f in fields && f in t.fields;
      TagsOfFields(t, fields[1..], tag);
      if f.anonymous { EveryTagIsListed(f.typ, tag); }
      TagsOfField(f, tag);
      assert multiset(FlattenFields(fields))
          == multiset(FlattenField(f)) + multiset(FlattenFields(fields[1..]));
    }
  }

  lemma TagsOfField(f: Field, tag: string)
    requires f.anonymous ==> EmbedsStructs(f.typ)
    ensures multiset(FlattenField(f))[tag]
      == (if f.anonymous then multiset(Flatten(f.typ))[tag] else 0)
       + (if tag != "" && f.tag == tag then 1 else 0)
  {
  }

  lemma NextField(res: seq<string>, fields: seq<Field>, i: nat)
    requires i < |fields| && AllEmbedStructs(fields)
    ensures var f := fields[i];
      res + FlattenFields(fields[..i + 1])
      == (res + FlattenFields(fields[..i])) + EmbeddedTags(f) + (if f.tag != "" then [f.tag] else [])
  {
    FlattenSnoc(fields[..i], fields[i]);
    assert fields[..i + 1] == fields[..i] + [fields[i]];
  }

  /** requestParams appends to the list it is given. */
  method RequestParams(res: seq<string>, t: Type) returns (out: seq<string>)
    requires EmbedsStructs(t)
    ensures out == res + Flatten(t)
    decreases t
  {
    out := res;
    var i := 0;
    while i < |t.fields|
      invariant 0 <= i <= |t.fields| && out == res + FlattenFields(t.fields[..i])
    {
      var f := t.fields[i];
      NextField(res, t.fields, i);
      if f.anonymous {
        out := RequestParams(out, f.typ);
      }
      if f.tag != "" {
        out := out + [f.tag];
      }
      i := i + 1;
    }
    assert t.fields[..i] == t.fields;
  }

  /** The check of NewORM: every predefined field is among the columns. */
  method ContainsAll(predefined: seq<string>, params: seq<string>) returns (ok: bool)
    ensures ok <==> forall k :: 0 <= k < |predefined| ==> predefined[k] in params
  {
    var k := 0;
    while k < |predefined|
      invariant 0 <= k <= |predefined| && forall j :: 0 <= j < k ==> predefined[j] in params
    {
      var isContain := Find(params, predefined[k]);
      if !isContain {
        return false;
      }
      k := k + 1;
    }
    ok := true;
  }

  method Find(params: seq<string>, name: string) returns (found: bool)
    ensures found <==> name in params
  {
    var i := 0;
    while i < |params|
      invariant 0 <= i <= |params| && name !in params[..i]
    {
      if params[i] == name {
        return true;
      }
      i := i + 1;
    }
    found := false;
  }

  // ---- INSERT ----

  function Columns(params: seq<string>): string { Join(params, ", ") }

  function Placeholders(params: seq<string>): string { ":" + Join(params, ", :") }

  function InsertText(target: string, params: seq<string>): string {
    Join(["INSERT INTO", target, "(" + Columns(params) + ")",
          "VALUES", "(" + Placeholders(params) + ") RETURNING *"], " ")
  }

  function Prefixed(params: seq<string>): (r: seq<string>)
    ensures |r| == |params| && forall i :: 0 <= i < |params| ==> r[i] == ":" + params[i]
  {
    seq(|params|, i requires 0 <= i < |params| => ":" + params[i])
  }

  lemma {:induction false} PlaceholdersArePrefixed(params: seq<string>)
    requires params != []
    ensures Placeholders(params) == Join(Prefixed(params), ", ")
  {
    if |params| == 1 {
    } else {
      PlaceholdersArePrefixed(params[1..]);
      assert Prefixed(params)[1..] == Prefixed(params[1..]);
      assert Placeholders(params) == (":" + params[0]) + ", " + Placeholders(params[1..]);
    }
  }

  lemma CommaBlank()
    ensures Unbordered(", ")
  {
    assert ", "[1..] == " " && ", "[..1] == ",";
  }

  /** Alignment: the column list and the placeholder list split back into the names and into
      the names behind colons, in the same order, if and only if no tag contains a comma
      followed by a blank. */
  lemma InsertListsAlignIff(params: seq<string>)
    requires params != []
    ensures Split(Columns(params), ", ") == params <==> NoneContains(params, ", ")
    ensures Split(Placeholders(params), ", ") == Prefixed(params) <==> NoneContains(params, ", ")
  {
    CommaBlank();
    SplitJoinIff(params, ", ");
    PlaceholdersArePrefixed(params);
    SplitJoinIff(Prefixed(params), ", ");
    forall i | 0 <= i < |params|
      ensures Contains(Prefixed(params)[i], ", ") <==> Contains(params[i], ", ")
    {
      Behind(":", params[i]);
    }
    assert |Prefixed(params)| == |params|;
  }

  /** What the lists say in general: each tag contributes its own pieces. */
  lemma ColumnsArePieces(params: seq<string>)
    requires params != []
    ensures Split(Columns(params), ", ") == Pieces(params, ", ")
    ensures Split(Placeholders(params), ", ") == Pieces(Prefixed(params), ", ")
  {
    CommaBlank();
    SplitJoinPieces(params, ", ");
    PlaceholdersArePrefixed(params);
    SplitJoinPieces(Prefixed(params), ", ");
  }

  lemma {:induction false} Behind(x: string, tag: string)
    requires x != "" && ',' !in x
    ensures Contains(x + tag, ", ") <==> Contains(tag, ", ")
  {
    var s, i, j := x + tag, Index(tag, ", "), Index(x + tag, ", ");
    if i >= 0 {
      assert s[|x| + i..|x| + i + 2] == tag[i..i + 2];
      IndexIsFirst(s, ", ", |x| + i);
    }
    if j >= 0 {
      OccursAtFirstChar(s, ", ", j);
      assert j >= |x| && s[j..j + 2] == tag[j - |x|..j - |x| + 2];
      IndexIsFirst(tag, ", ", j - |x|);
    }
  }

  /** To a reader that takes every comma for a separator the number of columns is right if
      and only if no tag contains a comma. */
  lemma ColumnCountIff(params: seq<string>)
    requires params != []
    ensures |Split(Columns(params), ",")| == |params| <==> NoneContains(params, ",")
  {
    SplitLooseCount(params);
    AsManyPieces(params, ",");
  }

  lemma {:induction false} SplitLooseCount(params: seq<string>)
    requires params != []
    ensures |Split(Columns(params), ",")| == |Pieces(params, ",")|
  {
    if |params| == 1 {
      assert Pieces(params[1..], ",") == [];
    } else {
      var rest := Columns(params[1..]);
      SplitLooseCount(params[1..]);
      assert Columns(params) == params[0] + "," + (" " + rest);
      SplitConcat(params[0], ",", " " + rest);
      BlankInFront(rest);
    }
  }

  lemma BlankInFront(s: string)
    ensures |Split(" " + s, ",")| == |Split(s, ",")|
  {
    var t, i := " " + s, Index(s, ",");
    assert t[1..] == s && !HasAt(t, ",", 0);
    if i >= 0 {
      assert t[i + 2..] == s[i + 1..];
    }
  }

  lemma {:induction false} JoinBringsNothing(elems: seq<string>, sep: string, c: char)
    requires c !in sep && forall i :: 0 <= i < |elems| ==> c !in elems[i]
    ensures c !in Join(elems, sep)
  {
    if |elems| > 1 { JoinBringsNothing(elems[1..], sep, c); }
  }

  /** The INSERT text at its opening parentheses: the target, then the columns, and the
      placeholders behind VALUES. */
  lemma InsertTextParts(target: string, params: seq<string>)
    requires '(' !in target && forall i :: 0 <= i < |params| ==> '(' !in params[i]
    ensures Split(InsertText(target, params), "(")
         == ["INSERT INTO " + target + " ", Columns(params) + ") VALUES ", Placeholders(params) + ") RETURNING *"]
  {
    var a, b := "INSERT INTO " + target + " ", Columns(params) + ") VALUES ";
    var c := Placeholders(params) + ") RETURNING *";
    InsertTextJoined(target, Columns(params), Placeholders(params));
    JoinBringsNothing(params, ", ", '(');
    JoinBringsNothing(params, ", :", '(');
    assert '(' !in a && '(' !in b && '(' !in c;
    WholePiece(a);
    WholePiece(b);
    WholePiece(c);
    SplitConcat(a, "(", b + "(" + c);
    SplitConcat(b, "(", c);
  }

  lemma WholePiece(x: string)
    requires '(' !in x
    ensures Split(x, "(") == [x]
  {
    IndexOfChar(x, '(');
    PiecesOfOne(x, "(");
  }

  lemma InsertTextJoined(target: string, columns: string, placeholders: string)
    ensures Join(["INSERT INTO", target, "(" + columns + ")", "VALUES", "(" + placeholders + ") RETURNING *"], " ")
         == ("INSERT INTO " + target + " ") + "(" + ((columns + ") VALUES ") + "(" + (placeholders + ") RETURNING *"))
  {
    var e := "(" + placeholders + ") RETURNING *";
    JoinTwo("VALUES", [e]);
    JoinTwo("(" + columns + ")", ["VALUES", e]);
    JoinTwo(target, ["(" + columns + ")", "VALUES", e]);
    JoinTwo("INSERT INTO", [target, "(" + columns + ")", "VALUES", e]);
    assert Join([e], " ") == e;
  }

  lemma JoinTwo(x: string, rest: seq<string>)
    requires rest != []
    ensures Join([x] + rest, " ") == x + " " + Join(rest, " ")
  {
    assert ([x] + rest)[1..] == rest;
  }

  // ---- UPDATE ----

  /** BuildQuery: one assignment per column. */
  function Assignments(params: seq<string>): (r: seq<string>)
    ensures |r| == |params| && forall i :: 0 <= i < |params| ==> r[i] == params[i] + "=:" + params[i]
  {
    seq(|params|, i requires 0 <= i < |params| => params[i] + "=:" + params[i])
  }

  /** The assignments split back under the same condition. */
  lemma UpdateListSplitsIff(params: seq<string>)
    requires params != []
    ensures Split(Join(Assignments(params), ", "), ", ") == Assignments(params) <==> NoneContains(params, ", ")
  {
    CommaBlank();
    SplitJoinIff(Assignments(params), ", ");
    forall i | 0 <= i < |params|
      ensures Contains(Assignments(params)[i], ", ") <==> Contains(params[i], ", ")
    {
      TwiceNamed(params[i]);
    }
    assert |Assignments(params)| == |params|;
  }

  lemma TwiceNamed(tag: string)
    ensures Contains(tag + "=:" + tag, ", ") <==> Contains(tag, ", ")
  {
    var s, i, j := tag + "=:" + tag, Index(tag, ", "), Index(tag + "=:" + tag, ", ");
    if i >= 0 {
      assert s[i..i + 2] == tag[i..i + 2];
      IndexIsFirst(s, ", ", i);
    }
    if j >= 0 {
      OccursAtChar(s, ", ", j, 0);
      OccursAtChar(s, ", ", j, 1);
      var k := if j < |tag| then j else j - |tag| - 2;
      assert s[j..j + 2] == tag[k..k + 2];
      IndexIsFirst(tag, ", ", k);
    }
  }

  // ---- Columns without some ----

  function Without(params: seq<string>, remove: seq<string>): seq<string> {
    if params == [] then []
    else
      var last := params[|params| - 1];
      Without(params[..|params| - 1], remove) + if last in remove then [] else [last]
  }

  /** Filtering works element by element and keeps the order. */
  lemma {:induction false} WithoutConcat(a: seq<string>, b: seq<string>, remove: seq<string>)
    ensures Without(a + b, remove) == Without(a, remove) + Without(b, remove)
  {
    if b == [] {
      assert a + b == a;
    } else {
      var n := |b| - 1;
      WithoutConcat(a, b[..n], remove);
      assert (a + b)[..|a + b| - 1] == a + b[..n];
    }
  }

  /** Each kept name keeps its multiplicity, and no removed name is left. */
  lemma {:induction false} WithoutCounts(params: seq<string>, remove: seq<string>, name: string)
    ensures multiset(Without(params, remove))[name] == if name in remove then 0 else multiset(params)[name]
  {
    if params != [] {
      var n := |params| - 1;
      WithoutCounts(params[..n], remove, name);
      assert params == params[..n] + [params[n]];
    }
  }

  class ORM {
    const target: string
    const requestParams: seq<string>
    var stmtCache: seq<string>

    constructor (target: string, requestParams: seq<string>)
      ensures this.target == target && this.requestParams == requestParams && stmtCache == []
    {
      this.target, this.requestParams, stmtCache := target, requestParams, [];
    }

    /** getCachedStmt: `stmtCache` holds the prepared text, if any; a failed preparation
        leaves the cache empty. */
    method GetCachedStmt(prepareOk: bool) returns (stmt: seq<string>)
      requires stmtCache == [] || stmtCache == [InsertText(target, requestParams)]
      modifies this
      ensures stmt == stmtCache
      ensures stmtCache == if old(stmtCache) != [] || prepareOk then [InsertText(target, requestParams)] else []
    {
      if stmtCache != [] {
        return stmtCache;
      }
      var sqlRequest := InsertText(target, requestParams);
      stmtCache := if prepareOk then [sqlRequest] else [];
      stmt := stmtCache;
    }

    method RequestParamsWithout(remove: seq<string>) returns (res: seq<string>)
      ensures res == Without(requestParams, remove)
    {
      res := [];
      var i := 0;
      while i < |requestParams|
        invariant 0 <= i <= |requestParams| && res == Without(requestParams[..i], remove)
      {
        assert requestParams[..i + 1][..i] == requestParams[..i];
        var find := Find(remove, requestParams[i]);
        if !find {
          res := res + [requestParams[i]];
        }
        i := i + 1;
      }
      assert requestParams[..i] == requestParams;
    }

    method BuildQuery() returns (query: seq<string>)
      ensures query == Assignments(requestParams)
    {
      query := [];
      var i := 0;
      while i < |requestParams|
        invariant 0 <= i <= |requestParams| && query == Assignments(requestParams)[..i]
      {
        query := query + [requestParams[i] + "=:" + requestParams[i]];
        i := i + 1;
      }
    }
  }
}
