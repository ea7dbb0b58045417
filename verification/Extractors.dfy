/** Turning table rows into facts: nested loops over extractor specs and rows, with a
    recursive formatter for the mapped values. */
module Extractors {
  import opened DecisionEngine

  /** Python's `str()` of a value, `str.format` with a row (the template itself when
      formatting fails), `str.split()`, and the joined and unquoted right-hand side. */
  datatype Texts = Texts(str: Json -> string, format: (string, Json) -> string,
                         words: string -> seq<string>, unquoted: seq<string> -> string)

  predicate HasKey(fields: seq<(string, Json)>, key: string) {
    exists i :: 0 <= i < |fields| && fields[i].0 == key
  }

  /** `o.get(key, "")`. */
  function GetOrEmpty(o: Json, key: string): Json {
    if o.JObj? && HasKey(o.fields, key) then Lookup(o.fields, key) else JStr("")
  }

  /** The `when` filter. Anything it cannot read as `field == value` or `field != value`,
      and a row that is not a dict, passes. */
  predicate Passes(cond: Json, row: Json, tx: Texts) {
    if !cond.Truthy() || !cond.JStr? then true
    else
      var parts := tx.words(cond.s);
      if |parts| < 3 || !row.JObj? then true
      else
        var got := tx.str(GetOrEmpty(row, parts[0]));
        if parts[1] == "!=" then got != tx.unquoted(parts[2..])
        else if parts[1] == "==" then got == tx.unquoted(parts[2..])
        else true
  }

  // ---------- the formatter ----------

  function Fmt(x: Json, row: Json, tx: Texts): Json
    decreases x, 0
  {
    match x
    case JStr(s) => JStr(tx.format(s, row))
    case JObj(fields) => JObj(FmtFields(fields, row, tx))
    case JArr(items) => JArr(FmtItems(items, row, tx))
    case _ => x
  }

  function FmtItems(items: seq<Json>, row: Json, tx: Texts): seq<Json>
    decreases items, |items|
  {
    if |items| == 0 then [] else [Fmt(items[0], row, tx)] + FmtItems(items[1..], row, tx)
  }

  function FmtFields(fields: seq<(string, Json)>, row: Json, tx: Texts): seq<(string, Json)>
    decreases fields, |fields|
  {
    if |fields| == 0 then [] else [FmtField(fields[0], row, tx)] + FmtFields(fields[1..], row, tx)
  }

  function FmtField(kv: (string, Json), row: Json, tx: Texts): (string, Json)
    decreases kv, 0
  {
    (kv.0, Fmt(kv.1, row, tx))
  }

  /** Same nesting, same keys in the same order, same list lengths; only texts may differ. */
  ghost predicate SameShape(a: Json, b: Json)
    decreases a
  {
    match a
    case JStr(_) => b.JStr?
    case JObj(fields) =>
      b.JObj? && |b.fields| == |fields|
      && forall i | 0 <= i < |fields| :: fields[i].0 == b.fields[i].0 && SameShape(fields[i].1, b.fields[i].1)
    case JArr(items) =>
      b.JArr? && |b.items| == |items| && forall i | 0 <= i < |items| :: SameShape(items[i], b.items[i])
    case _ => b == a
  }

  /** Formatting keeps the shape of a mapping at every depth, and each text becomes the
      formatted text. */
  lemma {:induction false} FmtKeepsShape(x: Json, row: Json, tx: Texts)
    ensures SameShape(x, Fmt(x, row, tx))
    decreases x, 0
  {
    match x
    case JObj(fields) => FmtFieldsKeep(fields, row, tx);
    case JArr(items) => FmtItemsKeep(items, row, tx);
    case _ =>
  }

  lemma {:induction false} FmtItemsKeep(items: seq<Json>, row: Json, tx: Texts)
    ensures var r := FmtItems(items, row, tx);
            |r| == |items| && forall i | 0 <= i < |items| :: r[i] == Fmt(items[i], row, tx) && SameShape(items[i], r[i])
    decreases items, |items|
  {
    if |items| > 0 {
      FmtKeepsShape(items[0], row, tx);
      FmtItemsKeep(items[1..], row, tx);
    }
  }

  lemma {:induction false} FmtFieldsKeep(fields: seq<(string, Json)>, row: Json, tx: Texts)
    ensures var r := FmtFields(fields, row, tx);
            |r| == |fields| && forall i | 0 <= i < |fields| ::
              r[i] == (fields[i].0, Fmt(fields[i].1, row, tx)) && SameShape(fields[i].1, r[i].1)
    decreases fields, |fields|
  {
    if |fields| > 0 {
      FmtFieldKeeps(fields[0], row, tx);
      FmtFieldsKeep(fields[1..], row, tx);
    }
  }

  lemma {:induction false} FmtFieldKeeps(kv: (string, Json), row: Json, tx: Texts)
    ensures SameShape(kv.1, Fmt(kv.1, row, tx))
    decreases kv, 0
  {
    FmtKeepsShape(kv.1, row, tx);
  }

  // ---------- one spec, one row ----------

  /** `v[key] = value` on a dict: in place if the key is there, else at the end. */
  function Put(fields: seq<(string, Json)>, key: string, value: Json): seq<(string, Json)> {
    if |fields| == 0 then [(key, value)]
    else if fields[0].0 == key then [(key, value)] + fields[1..]
    else [fields[0]] + Put(fields[1..], key, value)
  }

  function Mapping(spec: Json): Json {
    if Get(spec, "map").Truthy() then Get(spec, "map") else JObj([])
  }

  function KeyFields(spec: Json): Json {
    if Get(spec, "key_fields").Truthy() then Get(spec, "key_fields") else JArr([])
  }

  predicate ValidSpec(spec: Json) {
    Get(spec, "fact_type").Truthy() && KeyFields(spec).JArr? && Mapping(spec).JObj?
  }

  function OutRow(spec: Json, row: Json, tx: Texts): Json
    requires Mapping(spec).JObj?
  {
    JObj(Put(FmtFields(Mapping(spec).fields, row, tx), "_row", row))
  }

  /** The key texts joined by bars. */
  function JoinKey(keys: seq<Json>, value: Json, tx: Texts): string {
    if |keys| == 0 then ""
    else
      var part := tx.str(if keys[0].JStr? then GetOrEmpty(value, keys[0].s) else JStr(""));
      if |keys| == 1 then part else part + "|" + JoinKey(keys[1..], value, tx)
  }

  function FactFor(spec: Json, value: Json, at: Place, tx: Texts): Fact
    requires KeyFields(spec).JArr?
  {
    Fact(at.caseId, at.debtor, tx.str(Get(spec, "fact_type")), JoinKey(KeyFields(spec).items, value, tx), value, at.snapshot)
  }

  predicate Emits(spec: Json, row: Json, tx: Texts) {
    ValidSpec(spec) && Passes(Get(spec, "when"), row, tx)
  }

  // ---------- the flat list ----------

  /** The first `k` cells of the grid of specs and rows, row index running fastest: one
      fact for each cell whose spec is valid and whose filter passes. */
  function GridFacts(specs: seq<Json>, rows: seq<Json>, k: nat, at: Place, tx: Texts): seq<Fact>
    requires k <= |specs| * |rows|
  {
    if k == 0 then []
    else
      CellInGrid(|specs|, |rows|, k - 1);
      var spec, row := specs[(k - 1) / |rows|], rows[(k - 1) % |rows|];
      GridFacts(specs, rows, k - 1, at, tx)
      + (if Emits(spec, row, tx) then [FactFor(spec, OutRow(spec, row, tx), at, tx)] else [])
  }

  /** All cells of the first `n` specs. */
  function FactsOfSpecs(specs: seq<Json>, rows: seq<Json>, n: nat, at: Place, tx: Texts): seq<Fact>
    requires n <= |specs|
  {
    MulMono(n, |specs|, |rows|);
    GridFacts(specs, rows, n * |rows|, at, tx)
  }

  lemma MulMono(a: int, b: int, m: nat)
    ensures a <= b ==> a * m <= b * m
  {
    if a <= b {
      assert (b - a) * m >= 0;
    }
  }

  lemma CellInGrid(n: nat, m: nat, c: nat)
    requires c < n * m
    ensures m > 0 && 0 <= c / m < n && 0 <= c % m < m
  {
    assert m > 0;
    assert c == (c / m) * m + c % m;
    MulMono(n, c / m, m);
  }

  lemma CellAt(m: nat, i: nat, j: nat)
    requires j < m
    ensures (i * m + j) / m == i && (i * m + j) % m == j
  {
    var c := i * m + j;
    var d := c / m - i;
    assert c == (c / m) * m + c % m;
    assert d * m == (c / m) * m - i * m;
    MulMono(1, d, m);
    MulMono(d, -1, m);
  }

  lemma GridBound(n: nat, m: nat, i: nat, j: nat)
    requires i < n && j <= m
    ensures i * m + j <= n * m && (i + 1) * m == i * m + m
  {
    MulMono(i + 1, n, m);
    assert (i + 1) * m == i * m + m;
  }

  class FactTable {
    var facts: seq<Fact>

    /** `emit_facts_from_rows`: one fact for each mapped row, in order. */
    method EmitFactsFromRows(spec: Json, values: seq<Json>, at: Place, tx: Texts) returns (created: nat)
      requires KeyFields(spec).JArr?
      modifies this
      ensures facts == old(facts) + FactsOf(spec, values, at, tx) && created == |values|
    {
      created := 0;
      while created < |values|
        invariant 0 <= created <= |values| && facts == old(facts) + FactsOf(spec, values[..created], at, tx)
      {
        facts := facts + [FactFor(spec, values[created], at, tx)];
        created := created + 1;
      }
    }

    /** `run_extractors`. A spec that is not a dict raises; the facts of the specs before
        it stay. Otherwise the facts appended are exactly the flat list over the grid, in
        spec-then-row order, and their number is returned. */
    method RunExtractors(specs: seq<Json>, rows: seq<Json>, at: Place, tx: Texts) returns (created: nat, raised: bool)
      modifies this
      ensures raised <==> exists i :: 0 <= i < |specs| && !specs[i].JObj?
      ensures raised ==> exists i :: 0 <= i < |specs| && !specs[i].JObj? && (forall k | 0 <= k < i :: specs[k].JObj?)
                                     && facts == old(facts) + FactsOfSpecs(specs, rows, i, at, tx)
      ensures !raised ==> facts == old(facts) + FactsOfSpecs(specs, rows, |specs|, at, tx)
      ensures created == |facts| - |old(facts)|
    {
      NoSpecs(specs, rows, at, tx);
      hide FactsOfSpecs, FactsOf, Mapping, KeyFields;
      created, raised := 0, false;
      var i := 0;
      while i < |specs|
        invariant 0 <= i <= |specs|
        invariant forall k | 0 <= k < i :: specs[k].JObj?
        invariant facts == old(facts) + FactsOfSpecs(specs, rows, i, at, tx)
        invariant created == |facts| - |old(facts)|
      {
        var spec := specs[i];
        if !spec.JObj? {
          return created, true;
        }
        if ValidSpec(spec) {
          var values := OutRows(specs, i, rows, at, tx);
          var n := EmitFactsFromRows(spec, values, at, tx);
          created := created + n;
        } else {
          SkippedSpec(specs, i, rows, at, tx);
        }
        i := i + 1;
      }
    }

    /** The inner loop: filter and format the rows for one valid spec. */
    method OutRows(specs: seq<Json>, i: nat, rows: seq<Json>, at: Place, tx: Texts) returns (values: seq<Json>)
      requires i < |specs| && ValidSpec(specs[i])
      ensures FactsOfSpecs(specs, rows, i + 1, at, tx) == FactsOfSpecs(specs, rows, i, at, tx) + FactsOf(specs[i], values, at, tx)
    {
      GridBound(|specs|, |rows|, i, |rows|);
      var spec := specs[i];
      values := [];
      var j := 0;
      while j < |rows|
        invariant 0 <= j <= |rows| && i * |rows| + j <= |specs| * |rows|
        invariant GridFacts(specs, rows, i * |rows| + j, at, tx)
               == GridFacts(specs, rows, i * |rows|, at, tx) + FactsOf(spec, values, at, tx)
      {
        CellAt(|rows|, i, j);
        if Passes(Get(spec, "when"), rows[j], tx) {
          values := values + [OutRow(spec, rows[j], tx)];
        }
        j := j + 1;
      }
    }
  }

  ghost function FactsOf(spec: Json, values: seq<Json>, at: Place, tx: Texts): (r: seq<Fact>)
    requires KeyFields(spec).JArr?
    ensures |r| == |values| && forall i | 0 <= i < |values| :: r[i] == FactFor(spec, values[i], at, tx)
  {
    seq(|values|, i requires 0 <= i < |values| => FactFor(spec, values[i], at, tx))
  }

  lemma NoSpecs(specs: seq<Json>, rows: seq<Json>, at: Place, tx: Texts)
    ensures FactsOfSpecs(specs, rows, 0, at, tx) == []
  {
  }

  lemma SkippedSpec(specs: seq<Json>, i: nat, rows: seq<Json>, at: Place, tx: Texts)
    requires i < |specs| && !ValidSpec(specs[i])
    ensures FactsOfSpecs(specs, rows, i + 1, at, tx) == FactsOfSpecs(specs, rows, i, at, tx)
  {
    GridBound(|specs|, |rows|, i, |rows|);
    SkippedCells(specs, i, rows, |rows|, at, tx);
  }

  lemma {:induction false} SkippedCells(specs: seq<Json>, i: nat, rows: seq<Json>, j: nat, at: Place, tx: Texts)
    requires i < |specs| && j <= |rows| && !ValidSpec(specs[i])
    ensures i * |rows| + j <= |specs| * |rows|
    ensures i * |rows| <= |specs| * |rows|
    ensures GridFacts(specs, rows, i * |rows| + j, at, tx) == GridFacts(specs, rows, i * |rows|, at, tx)
    decreases j
  {
    GridBound(|specs|, |rows|, i, j);
    GridBound(|specs|, |rows|, i, 0);
    if j > 0 {
      SkippedCells(specs, i, rows, j - 1, at, tx);
      CellAt(|rows|, i, j - 1);
    }
  }
}
