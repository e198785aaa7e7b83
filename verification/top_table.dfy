/** The flame graph's "top table": per-symbol self and total cost, aggregated
    from the columns of a profile data frame and formatted with the unit of
    the column they came from. */
module TopTable {
  import opened Wrappers

  /** Unit names the flame graph gives its sample fields. */
  const BytesUnit: string := "bytes"
  const NanosecondsUnit: string := "ns"

  datatype FieldType = NumberType | StringType | EnumType | OtherType

  /** A cell of a column: label cells may be strings or enum codes. */
  datatype Cell = Num(n: int) | Text(s: string)

  datatype Field = Field(name: string, ftype: FieldType, values: seq<Cell>, unit: Option<string>)

  datatype DataFrame = DataFrame(fields: seq<Field>)

  /** Running sums for one symbol. */
  datatype Totals = Totals(self: int, total: int)

  /** What the display processor makes of a number; the suffix may be undefined. */
  datatype DisplayValue = DisplayValue(text: string, suffix: Option<string>)

  datatype UnitValue = UnitValue(value: int, unitValue: string)

  datatype TopTableRow = TopTableRow(symbol: string, self: UnitValue, total: UnitValue)

  // ---------------------------------------------------------------------------
  // Data frames

  predicate NumericCells(cs: seq<Cell>) {
    forall i :: 0 <= i < |cs| ==> cs[i].Num?
  }

  /** The fields that may be read as the value or self column. */
  predicate HoldsNumbers(f: Field) {
    f.name == "value" || f.name == "self" || f.ftype == NumberType
  }

  /** The shape of a profile data frame: all columns have the same length, and
      the columns the aggregation may add up hold numbers. */
  predicate WellFormed(frame: DataFrame) {
    && (forall i, j :: 0 <= i < |frame.fields| && 0 <= j < |frame.fields| ==>
          |frame.fields[i].values| == |frame.fields[j].values|)
    && (forall i :: 0 <= i < |frame.fields| && HoldsNumbers(frame.fields[i]) ==>
          NumericCells(frame.fields[i].values))
  }

  // ---------------------------------------------------------------------------
  // Field selection

  /** What `fields.find` looks for. */
  datatype Probe = ByName(name: string) | ByType(ftype: FieldType)

  predicate Matches(f: Field, p: Probe) {
    match p
    case ByName(n) => f.name == n
    case ByType(t) => f.ftype == t
  }

  /** Index of the first field matching `p`, like `Array.prototype.find`. */
  function FindFirst(fields: seq<Field>, p: Probe): (r: Option<nat>)
    ensures r.Some? ==> r.value < |fields| && Matches(fields[r.value], p)
    ensures r.Some? ==> forall j :: 0 <= j < r.value ==> !Matches(fields[j], p)
    ensures r.None? <==> forall j :: 0 <= j < |fields| ==> !Matches(fields[j], p)
  {
    if |fields| == 0 then None
    else if Matches(fields[0], p) then Some(0)
    else
      match FindFirst(fields[1..], p)
      case None => None
      case Some(k) => Some(k + 1)
  }

  /** The field named `name`, falling back to the first numeric field; this is
      how both the value field and the self field are chosen. */
  function SelectField(fields: seq<Field>, name: string): (r: Option<nat>)
    ensures r.Some? ==> r.value < |fields|
    // a field with that name wins, and it is the first one
    ensures (exists j :: 0 <= j < |fields| && fields[j].name == name) ==>
              r.Some? && fields[r.value].name == name &&
              forall j :: 0 <= j < r.value ==> fields[j].name != name
    // otherwise the first number field, if any
    ensures (forall j :: 0 <= j < |fields| ==> fields[j].name != name) ==>
              (r.Some? ==> fields[r.value].ftype == NumberType &&
                           forall j :: 0 <= j < r.value ==> fields[j].ftype != NumberType)
    ensures r.None? <==>
              forall j :: 0 <= j < |fields| ==> fields[j].name != name && fields[j].ftype != NumberType
  {
    var byName := FindFirst(fields, ByName(name));
    if byName.Some? then byName else FindFirst(fields, ByType(NumberType))
  }

  /** The label field is only ever the one named `label`. */
  function LabelField(fields: seq<Field>): (r: Option<nat>)
    ensures r.Some? ==> r.value < |fields| && fields[r.value].name == "label" &&
                        forall j :: 0 <= j < r.value ==> fields[j].name != "label"
    ensures r.None? <==> forall j :: 0 <= j < |fields| ==> fields[j].name != "label"
  {
    FindFirst(fields, ByName("label"))
  }

  datatype Selection = Selection(valueField: Field, selfField: Field, labelField: Field)

  /** The three fields the aggregation reads, or None when one is missing. */
  function Select(frame: DataFrame): Option<Selection> {
    var v := SelectField(frame.fields, "value");
    var s := SelectField(frame.fields, "self");
    var l := LabelField(frame.fields);
    if v.Some? && s.Some? && l.Some? then
      Some(Selection(frame.fields[v.value], frame.fields[s.value], frame.fields[l.value]))
    else None
  }

  /** In a well-formed frame the selected value and self columns hold numbers
      and all three columns have the same length. */
  lemma SelectionReadable(frame: DataFrame)
    requires WellFormed(frame)
    requires Select(frame).Some?
    ensures Readable(Select(frame).value)
  {
  }

  // ---------------------------------------------------------------------------
  // Reference definition of the aggregation

  /** The three columns as plain sequences, labels already resolved. */
  datatype Columns = Columns(labels: seq<string>, selfs: seq<int>, totals: seq<int>)

  /** The columns the aggregation pass reads, row by row. */
  predicate Parallel(valueValues: seq<Cell>, selfValues: seq<Cell>, labelValues: seq<Cell>) {
    && NumericCells(valueValues)
    && NumericCells(selfValues)
    && |selfValues| == |valueValues|
    && |labelValues| == |valueValues|
  }

  function Resolve(valueValues: seq<Cell>, selfValues: seq<Cell>, labelValues: seq<Cell>,
                   getLabelValue: Cell -> string): (c: Columns)
    requires Parallel(valueValues, selfValues, labelValues)
    ensures |c.labels| == |c.selfs| == |c.totals| == |valueValues|
  {
    var n := |valueValues|;
    Columns(seq(n, i requires 0 <= i < n => getLabelValue(labelValues[i])),
            seq(n, i requires 0 <= i < n => selfValues[i].n),
            seq(n, i requires 0 <= i < n => valueValues[i].n))
  }

  /** Row `i` of the resolved columns is read from row `i` of the cells. */
  lemma ResolveRow(valueValues: seq<Cell>, selfValues: seq<Cell>, labelValues: seq<Cell>,
                   getLabelValue: Cell -> string, i: nat)
    requires Parallel(valueValues, selfValues, labelValues)
    requires i < |valueValues|
    ensures var c := Resolve(valueValues, selfValues, labelValues, getLabelValue);
            && c.labels[i] == getLabelValue(labelValues[i])
            && c.selfs[i] == selfValues[i].n
            && c.totals[i] == valueValues[i].n
  {
  }

  /** The selected columns can be read in parallel as numbers and labels. */
  predicate Readable(sel: Selection) {
    Parallel(sel.valueField.values, sel.selfField.values, sel.labelField.values)
  }

  function ColumnsOf(sel: Selection, getLabelValue: Cell -> string): Columns
    requires Readable(sel)
  {
    Resolve(sel.valueField.values, sel.selfField.values, sel.labelField.values, getLabelValue)
  }

  function Sum(xs: seq<int>): int {
    if |xs| == 0 then 0 else Sum(xs[..|xs| - 1]) + xs[|xs| - 1]
  }

  /** Sum of `xs[i]` over the rows `i` whose label is `k`. */
  function SumFor(labels: seq<string>, xs: seq<int>, k: string): int
    requires |labels| == |xs|
  {
    if |labels| == 0 then 0
    else
      SumFor(labels[..|labels| - 1], xs[..|xs| - 1], k)
      + (if labels[|labels| - 1] == k then xs[|xs| - 1] else 0)
  }

  /** The strings a list holds, as a set. */
  function Elements(ks: seq<string>): set<string> {
    set i | 0 <= i < |ks| :: ks[i]
  }

  /** `table` holds, for exactly the labels that occur, the sums of their rows. */
  predicate Aggregates(table: map<string, Totals>, labels: seq<string>, selfs: seq<int>, totals: seq<int>)
    requires |labels| == |selfs| == |totals|
  {
    && table.Keys == Elements(labels)
    && forall k :: k in table ==>
         table[k] == Totals(SumFor(labels, selfs, k), SumFor(labels, totals, k))
  }

  lemma {:induction false} SumForAbsent(labels: seq<string>, xs: seq<int>, k: string)
    requires |labels| == |xs|
    requires k !in Elements(labels)
    ensures SumFor(labels, xs, k) == 0
  {
    if |labels| > 0 {
      var n := |labels| - 1;
      assert labels[n] in Elements(labels);
      assert Elements(labels[..n]) <= Elements(labels) by {
        forall x | x in Elements(labels[..n]) ensures x in Elements(labels) {
          var j :| 0 <= j < n && labels[..n][j] == x;
          assert labels[j] == x;
        }
      }
      SumForAbsent(labels[..n], xs[..n], k);
    }
  }

  // ---------------------------------------------------------------------------
  // The aggregation pass

  /** `x ? x + v : v` on a sum that may still be undefined: a zero or missing
      sum is falsy, and then the new value replaces it. */
  function Accumulate(acc: Option<int>, v: int): (r: int)
    ensures r == acc.GetOr(0) + v
  {
    match acc
    case None => v
    case Some(x) => if x != 0 then x + v else v
  }

  /** One pass over the parallel columns building `label -> {self, total}`,
      with the falsy-guarded accumulation of the source. */
  method AggregateColumns(valueValues: seq<Cell>, selfValues: seq<Cell>, labelValues: seq<Cell>,
                          getLabelValue: Cell -> string)
    returns (table: map<string, Totals>)
    requires Parallel(valueValues, selfValues, labelValues)
    ensures var c := Resolve(valueValues, selfValues, labelValues, getLabelValue);
            Aggregates(table, c.labels, c.selfs, c.totals)
  {
    table := map[];
    ghost var c := Resolve(valueValues, selfValues, labelValues, getLabelValue);
    var i := 0;
    while i < |valueValues|
      invariant 0 <= i <= |valueValues|
      invariant Aggregates(table, c.labels[..i], c.selfs[..i], c.totals[..i])
    {
      var value := valueValues[i].n;
      var self := selfValues[i].n;
      var symbol := getLabelValue(labelValues[i]);
      ResolveRow(valueValues, selfValues, labelValues, getLabelValue, i);
      var prevSelf := if symbol in table then Some(table[symbol].self) else None;
      var prevTotal := if symbol in table then Some(table[symbol].total) else None;
      var entry := Totals(Accumulate(prevSelf, self), Accumulate(prevTotal, value));
      AggregateStep(table, c.labels, c.selfs, c.totals, i);
      table := table[symbol := entry];
      i := i + 1;
    }
    assert c.labels[..i] == c.labels && c.selfs[..i] == c.selfs && c.totals[..i] == c.totals;
  }

  /** The aggregation table of a data frame: empty unless the value, self and
      label fields are all present. */
  method SortLevelsIntoTable(frame: DataFrame, getLabelValue: Cell -> string)
    returns (table: map<string, Totals>)
    requires WellFormed(frame)
    ensures Select(frame).None? ==> table == map[]
    ensures Select(frame).Some? ==>
              Readable(Select(frame).value) &&
              var c := ColumnsOf(Select(frame).value, getLabelValue);
              Aggregates(table, c.labels, c.selfs, c.totals)
  {
    var sel := Select(frame);
    if sel.None? {
      return map[];
    }
    SelectionReadable(frame);
    table := AggregateColumns(sel.value.valueField.values, sel.value.selfField.values,
                              sel.value.labelField.values, getLabelValue);
  }

  /** One iteration of the aggregation loop keeps `Aggregates`. */
  lemma AggregateStep(table: map<string, Totals>, labels: seq<string>, selfs: seq<int>, totals: seq<int>, i: nat)
    requires |labels| == |selfs| == |totals|
    requires i < |labels|
    requires Aggregates(table, labels[..i], selfs[..i], totals[..i])
    ensures
      var prev := if labels[i] in table then table[labels[i]] else Totals(0, 0);
      Aggregates(table[labels[i] := Totals(prev.self + selfs[i], prev.total + totals[i])],
                 labels[..i + 1], selfs[..i + 1], totals[..i + 1])
  {
    var l, s, t := labels[..i + 1], selfs[..i + 1], totals[..i + 1];
    assert l[..i] == labels[..i] && s[..i] == selfs[..i] && t[..i] == totals[..i];
    assert Elements(l) == Elements(labels[..i]) + {labels[i]} by {
      forall x | x in Elements(l) ensures x in Elements(labels[..i]) + {labels[i]} {
        var j :| 0 <= j < i + 1 && l[j] == x;
        if j < i {
          assert labels[..i][j] == x;
        }
      }
      forall x | x in Elements(labels[..i]) ensures x in Elements(l) {
        var j :| 0 <= j < i && labels[..i][j] == x;
        assert l[j] == x;
      }
      assert l[i] == labels[i];
    }
    if labels[i] !in table {
      SumForAbsent(labels[..i], selfs[..i], labels[i]);
      SumForAbsent(labels[..i], totals[..i], labels[i]);
    }
  }

  // ---------------------------------------------------------------------------
  // Unit strings

  /** JavaScript's `text + suffix`, where an undefined suffix prints as "undefined". */
  function Concat(text: string, suffix: Option<string>): string {
    text + suffix.GetOr("undefined")
  }

  predicate IsSampleUnit(unit: Option<string>) {
    unit == Some(BytesUnit) || unit == Some(NanosecondsUnit)
  }

  /** The display string for one number: byte and nanosecond columns always
      concatenate text and suffix; any other unit drops a missing or empty suffix. */
  function UnitString(unit: Option<string>, dv: DisplayValue): (r: string)
    ensures IsSampleUnit(unit) ==> r == Concat(dv.text, dv.suffix)
    ensures !IsSampleUnit(unit) ==> r == dv.text + dv.suffix.GetOr("")
  {
    var unitValue := Concat(dv.text, dv.suffix);
    if unit == Some(BytesUnit) then unitValue
    else if unit == Some(NanosecondsUnit) then unitValue
    else if dv.suffix.None? || dv.suffix.value == "" then dv.text
    else unitValue
  }

  /** The special case for bytes and nanoseconds only matters when the suffix
      is undefined: with any defined suffix every unit gives the same string. */
  lemma UnitsDisagreeOnlyWithoutSuffix(u1: Option<string>, u2: Option<string>, dv: DisplayValue)
    requires UnitString(u1, dv) != UnitString(u2, dv)
    ensures dv.suffix.None?
  {
  }

  // ---------------------------------------------------------------------------
  // Assembly

  function Row(key: string, t: Totals, selfField: Field, valueField: Field,
               display: (Field, int) -> DisplayValue): TopTableRow
  {
    TopTableRow(key,
                UnitValue(t.self, UnitString(selfField.unit, display(selfField, t.self))),
                UnitValue(t.total, UnitString(valueField.unit, display(valueField, t.total))))
  }

  /** The rows' symbols, in row order. */
  function SymbolList(rows: seq<TopTableRow>): (r: seq<string>)
    ensures |r| == |rows|
  {
    seq(|rows|, i requires 0 <= i < |rows| => rows[i].symbol)
  }

  function Symbols(rows: seq<TopTableRow>): set<string> {
    set i | 0 <= i < |rows| :: rows[i].symbol
  }

  predicate Distinct(ks: seq<string>) {
    forall i, j :: 0 <= i < j < |ks| ==> ks[i] != ks[j]
  }

  lemma ElementsSnoc(ks: seq<string>, k: string)
    ensures Elements(ks + [k]) == Elements(ks) + {k}
  {
    var ks' := ks + [k];
    forall x | x in Elements(ks') ensures x in Elements(ks) + {k} {
      var i :| 0 <= i < |ks'| && ks'[i] == x;
      if i < |ks| {
        assert ks[i] == x;
      }
    }
    forall x | x in Elements(ks) ensures x in Elements(ks') {
      var i :| 0 <= i < |ks| && ks[i] == x;
      assert ks'[i] == x;
    }
    assert ks'[|ks|] == k;
  }
  /** The keys of a table, each once, in the unspecified order of `for…in`. */
  method EnumerateKeys(keySet: set<string>) returns (keys: seq<string>)
    ensures Distinct(keys)
    ensures Elements(keys) == keySet
    ensures |keys| == |keySet|
  {
    keys := [];
    var remaining := keySet;
    while remaining != {}
      invariant Elements(keys) + remaining == keySet
      invariant Elements(keys) !! remaining
      invariant |keys| + |remaining| == |keySet|
      invariant Distinct(keys)
      decreases remaining
    {
      var key :| key in remaining;
      assert forall i :: 0 <= i < |keys| ==> keys[i] in Elements(keys);
      ElementsSnoc(keys, key);
      keys := keys + [key];
      remaining := remaining - {key};
    }
  }

  /** One row per key of the table, in whatever order the keys are visited,
      each copying its key's sums and formatting them with its column's unit. */
  method AssembleTopTable(table: map<string, Totals>, selfField: Field, valueField: Field,
                          display: (Field, int) -> DisplayValue)
    returns (rows: seq<TopTableRow>)
    ensures |rows| == |table|
    ensures Distinct(SymbolList(rows))
    ensures Symbols(rows) == table.Keys
    ensures forall i :: 0 <= i < |rows| ==>
              && rows[i].symbol in table
              && rows[i].self.value == table[rows[i].symbol].self
              && rows[i].total.value == table[rows[i].symbol].total
              && rows[i].self.unitValue == UnitString(selfField.unit, display(selfField, rows[i].self.value))
              && rows[i].total.unitValue == UnitString(valueField.unit, display(valueField, rows[i].total.value))
  {
    var keys := EnumerateKeys(table.Keys);
    rows := seq(|keys|, i requires 0 <= i < |keys| && keys[i] in table =>
                  Row(keys[i], table[keys[i]], selfField, valueField, display));
    assert forall i :: 0 <= i < |keys| ==> keys[i] in Elements(keys);
    assert forall i :: 0 <= i < |rows| ==> rows[i].symbol == keys[i];
    assert Symbols(rows) == Elements(keys) by {
      forall x | x in Elements(keys) ensures x in Symbols(rows) {
        var i :| 0 <= i < |keys| && keys[i] == x;
        assert rows[i].symbol == x;
      }
    }
  }

  // ---------------------------------------------------------------------------
  // Conservation

  /** `SumFor` of each key in `ks`. */
  function KeySums(ks: seq<string>, labels: seq<string>, xs: seq<int>): (r: seq<int>)
    requires |labels| == |xs|
    ensures |r| == |ks|
    ensures forall i :: 0 <= i < |ks| ==> r[i] == SumFor(labels, xs, ks[i])
  {
    if |ks| == 0 then [] else KeySums(ks[..|ks| - 1], labels, xs) + [SumFor(labels, xs, ks[|ks| - 1])]
  }

  lemma {:induction false} SumOfEmptyColumns(ks: seq<string>)
    ensures Sum(KeySums(ks, [], [])) == 0
  {
    if |ks| > 0 {
      var r := KeySums(ks, [], []);
      assert r[..|r| - 1] == KeySums(ks[..|ks| - 1], [], []);
      SumOfEmptyColumns(ks[..|ks| - 1]);
    }
  }

  /** Adding one row to the columns adds its value to exactly one key's sum. */
  lemma {:induction false} KeySumsSnoc(ks: seq<string>, labels: seq<string>, xs: seq<int>)
    requires |labels| == |xs| > 0
    requires Distinct(ks)
    ensures var n := |labels| - 1;
            Sum(KeySums(ks, labels, xs)) ==
            Sum(KeySums(ks, labels[..n], xs[..n])) + (if labels[n] in ks then xs[n] else 0)
  {
    var n := |labels| - 1;
    if |ks| > 0 {
      var m := |ks| - 1;
      var r := KeySums(ks, labels, xs);
      var r' := KeySums(ks, labels[..n], xs[..n]);
      assert r[..m] == KeySums(ks[..m], labels, xs);
      assert r'[..m] == KeySums(ks[..m], labels[..n], xs[..n]);
      assert Distinct(ks[..m]);
      KeySumsSnoc(ks[..m], labels, xs);
      assert labels[n] in ks <==> labels[n] in ks[..m] || labels[n] == ks[m] by {
        assert ks == ks[..m] + [ks[m]];
      }
      assert labels[n] == ks[m] ==> labels[n] !in ks[..m];
    }
  }

  /** The sums over a duplicate-free list of keys that covers every label add
      up to the column sum. */
  lemma {:induction false} KeySumsConserve(ks: seq<string>, labels: seq<string>, xs: seq<int>)
    requires |labels| == |xs|
    requires Distinct(ks)
    requires Elements(labels) <= Elements(ks)
    ensures Sum(KeySums(ks, labels, xs)) == Sum(xs)
  {
    if |labels| == 0 {
      SumOfEmptyColumns(ks);
      assert labels == [] && xs == [];
    } else {
      var n := |labels| - 1;
      assert labels[n] in Elements(labels);
      var m :| 0 <= m < |ks| && ks[m] == labels[n];
      assert labels[n] in ks;
      assert Elements(labels[..n]) <= Elements(labels) by {
        forall x | x in Elements(labels[..n]) ensures x in Elements(labels) {
          var j :| 0 <= j < n && labels[..n][j] == x;
          assert labels[j] == x;
        }
      }
      KeySumsConserve(ks, labels[..n], xs[..n]);
      KeySumsSnoc(ks, labels, xs);
    }
  }

  function SelfValues(rows: seq<TopTableRow>): (r: seq<int>)
    ensures |r| == |rows|
  {
    seq(|rows|, i requires 0 <= i < |rows| => rows[i].self.value)
  }

  function TotalValues(rows: seq<TopTableRow>): (r: seq<int>)
    ensures |r| == |rows|
  {
    seq(|rows|, i requires 0 <= i < |rows| => rows[i].total.value)
  }

  // ---------------------------------------------------------------------------
  // The effect: aggregate, then assemble

  /** Every row carries one resolved label and that label's sums, and every
      label has a row. */
  predicate Describes(rows: seq<TopTableRow>, c: Columns)
    requires |c.labels| == |c.selfs| == |c.totals|
  {
    && Symbols(rows) == Elements(c.labels)
    && forall i :: 0 <= i < |rows| ==>
         && rows[i].self.value == SumFor(c.labels, c.selfs, rows[i].symbol)
         && rows[i].total.value == SumFor(c.labels, c.totals, rows[i].symbol)
  }

  /** Conservation: the rows' self and total values add up to the column sums. */
  lemma RowsConserve(rows: seq<TopTableRow>, c: Columns)
    requires |c.labels| == |c.selfs| == |c.totals|
    requires Distinct(SymbolList(rows))
    requires Describes(rows, c)
    ensures Sum(SelfValues(rows)) == Sum(c.selfs)
    ensures Sum(TotalValues(rows)) == Sum(c.totals)
  {
    var ks := SymbolList(rows);
    assert Distinct(ks);
    assert Elements(c.labels) <= Elements(ks) by {
      forall x | x in Elements(c.labels) ensures x in Elements(ks) {
        assert x in Symbols(rows);
        var i :| 0 <= i < |rows| && rows[i].symbol == x;
        assert ks[i] == x;
      }
    }
    KeySumsConserve(ks, c.labels, c.selfs);
    KeySumsConserve(ks, c.labels, c.totals);
    assert SelfValues(rows) == KeySums(ks, c.labels, c.selfs);
    assert TotalValues(rows) == KeySums(ks, c.labels, c.totals);
  }

  /** Each row's display strings come from its column's unit. */
  predicate Formatted(rows: seq<TopTableRow>, sel: Selection, display: (Field, int) -> DisplayValue) {
    forall i :: 0 <= i < |rows| ==>
      && rows[i].self.unitValue == UnitString(sel.selfField.unit, display(sel.selfField, rows[i].self.value))
      && rows[i].total.unitValue == UnitString(sel.valueField.unit, display(sel.valueField, rows[i].total.value))
  }

  /** The top table for a data frame. */
  method TopTableFor(frame: DataFrame, getLabelValue: Cell -> string,
                     display: (Field, int) -> DisplayValue)
    returns (rows: seq<TopTableRow>)
    requires WellFormed(frame)
    ensures Select(frame).None? ==> rows == []
    ensures Distinct(SymbolList(rows))
    ensures Select(frame).Some? ==> Readable(Select(frame).value)
    ensures Select(frame).Some? ==> Describes(rows, ColumnsOf(Select(frame).value, getLabelValue))
    ensures Select(frame).Some? ==> Formatted(rows, Select(frame).value, display)
    // nothing is lost or counted twice
    ensures Select(frame).Some? ==>
              Sum(SelfValues(rows)) == Sum(ColumnsOf(Select(frame).value, getLabelValue).selfs)
    ensures Select(frame).Some? ==>
              Sum(TotalValues(rows)) == Sum(ColumnsOf(Select(frame).value, getLabelValue).totals)
  {
    var table := SortLevelsIntoTable(frame, getLabelValue);
    var sel := Select(frame);
    if sel.None? {
      return [];
    }
    rows := AssembleTopTable(table, sel.value.selfField, sel.value.valueField, display);
    ghost var c := ColumnsOf(sel.value, getLabelValue);
    assert Describes(rows, c);
    RowsConserve(rows, c);
  }

  /** Without fields named `value` or `self`, both fall back to the first
      number field, so self and total are read from the same column. */
  lemma FallbackSharesColumn(frame: DataFrame, getLabelValue: Cell -> string)
    requires WellFormed(frame)
    requires forall j :: 0 <= j < |frame.fields| ==>
               frame.fields[j].name != "value" && frame.fields[j].name != "self"
    requires Select(frame).Some?
    ensures Readable(Select(frame).value)
    ensures var c := ColumnsOf(Select(frame).value, getLabelValue);
            c.selfs == c.totals &&
            forall k :: SumFor(c.labels, c.selfs, k) == SumFor(c.labels, c.totals, k)
  {
  }

  /** Consequently, without fields named `value` or `self`, every row of the
      top table has equal self and total. */
  lemma FallbackRowsAgree(frame: DataFrame, getLabelValue: Cell -> string, rows: seq<TopTableRow>)
    requires WellFormed(frame)
    requires forall j :: 0 <= j < |frame.fields| ==>
               frame.fields[j].name != "value" && frame.fields[j].name != "self"
    requires Select(frame).Some?
    requires Readable(Select(frame).value)
    requires Describes(rows, ColumnsOf(Select(frame).value, getLabelValue))
    ensures forall i :: 0 <= i < |rows| ==> rows[i].self.value == rows[i].total.value
  {
  }
}
