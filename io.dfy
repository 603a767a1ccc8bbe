/** Loading events from a CSV file (festival_roi/io.py). Opening and
    tokenising the file is not modelled: the loader receives the header
    (absent for an empty file) and the data rows as dictionaries from column
    name to cell text, with a column missing from a short row simply absent
    from its dictionary. Python's `float()` and `int()` on cell text are
    parameters, partial functions that yield `None` where Python raises. */
module Io {
  import opened Seqs
  import opened Text
  import opened Models

  type Row = map<string, string>

  /** Why loading stopped: missing required columns (with the message the
      loader raises) or the first row that could not be converted. */
  datatype LoadError =
    | MissingColumnsError(message: string)
    | InvalidRow(row: Row)

  /** The four required column names, in Python's sorted order. */
  const RequiredColumns: seq<string> := ["attendance", "cost", "name", "revenue"]

  lemma RequiredColumnsSorted()
    ensures StrictlySorted(RequiredColumns)
  {
    assert LexLess("attendance", "cost") && LexLess("attendance", "name") && LexLess("attendance", "revenue");
    assert LexLess("cost", "name") && LexLess("cost", "revenue") && LexLess("name", "revenue");
  }

  /** `reader.fieldnames or []`: an absent header counts as no columns. */
  function HeaderNames(header: Option<seq<string>>): seq<string>
  {
    if header.Some? then header.value else []
  }

  function NotIn(names: seq<string>): string -> bool
  {
    c => c !in names
  }

  /** `sorted(required - set(fieldnames))`: exactly the required columns the
      header lacks, in sorted order without repeats. */
  function MissingColumns(header: Option<seq<string>>): (m: seq<string>)
    ensures StrictlySorted(m)
    ensures forall c :: c in m <==> c in RequiredColumns && c !in HeaderNames(header)
    ensures m == [] <==> forall c :: c in RequiredColumns ==> c in HeaderNames(header)
  {
    var m := Filter(RequiredColumns, NotIn(HeaderNames(header)));
    FilterSpec(RequiredColumns, NotIn(HeaderNames(header)));
    RequiredColumnsSorted();
    SubsequenceSorted(m, RequiredColumns);
    forall c | c in m ensures c in RequiredColumns {
      assert NotIn(HeaderNames(header))(c);
      assert c in multiset(m);
    }
    forall c | c in RequiredColumns && c !in HeaderNames(header) ensures c in m {
      assert NotIn(HeaderNames(header))(c);
      assert c in multiset(RequiredColumns);
    }
    assert m == [] || m[0] in m;
    m
  }

  /** The error raised for missing columns. */
  function MissingColumnsMessage(missing: seq<string>): (r: string)
    ensures |r| >= 30 && r[..30] == "CSV missing required columns: "
    ensures r[30..] == Join(missing, ", ")
  {
    "CSV missing required columns: " + Join(missing, ", ")
  }

  /** An empty file has no header, so all four names are reported. */
  lemma AbsentHeaderMessage()
    ensures MissingColumnsMessage(MissingColumns(None)) == "CSV missing required columns: " + "attendance, cost, name, revenue"
  {
    AbsentHeaderMissesAll();
    RequiredColumnsJoined();
  }

  lemma AbsentHeaderMissesAll()
    ensures MissingColumns(None) == RequiredColumns
  {
    RequiredColumnsSorted();
    StrictlySortedUnique(MissingColumns(None), RequiredColumns);
  }

  lemma RequiredColumnsJoined()
    ensures Join(RequiredColumns, ", ") == "attendance, cost, name, revenue"
  {
  }

  /** A header lacking only `revenue` reports just that column. */
  lemma MissingRevenueMessage()
    ensures MissingColumnsMessage(MissingColumns(Some(["name", "cost", "attendance"])))
         == "CSV missing required columns: " + "revenue"
  {
    var m := MissingColumns(Some(["name", "cost", "attendance"]));
    forall c ensures c in m <==> c in ["revenue"] {
    }
    StrictlySortedUnique(m, ["revenue"]);
    assert m == ["revenue"];
  }

  /** The cell of `column` in a row, `None` when the row lacks it. */
  function Cell(raw: Row, column: string): Option<string>
  {
    if column in raw then Some(raw[column]) else None
  }

  /** The conversion inside the loader's `try`: the name is taken as it is
      (an absent name cell becomes the empty string), cost and revenue go
      through `float()` and attendance through `int()`. No sign is checked. */
  function ConvertRow(raw: Row, parseFloat: string -> Option<real>, parseInt: string -> Option<int>): (r: Option<FestivalEvent>)
    ensures r.Some? <==>
      "cost" in raw && parseFloat(raw["cost"]).Some?
      && "revenue" in raw && parseFloat(raw["revenue"]).Some?
      && "attendance" in raw && parseInt(raw["attendance"]).Some?
    ensures r.Some? ==>
      r.value.name == (if "name" in raw then raw["name"] else "")
      && Some(r.value.cost) == parseFloat(raw["cost"])
      && Some(r.value.revenue) == parseFloat(raw["revenue"])
      && Some(r.value.attendance) == parseInt(raw["attendance"])
  {
    var name := if "name" in raw then raw["name"] else "";
    match (Cell(raw, "cost"), Cell(raw, "revenue"), Cell(raw, "attendance"))
    case (Some(c), Some(v), Some(a)) =>
      (match (parseFloat(c), parseFloat(v), parseInt(a))
       case (Some(cost), Some(revenue), Some(attendance)) => Some(FestivalEvent(name, cost, revenue, attendance))
       case _ => None)
    case _ => None
  }

  /** Row `i` is the first one that does not convert. */
  predicate FirstBadRow(rows: seq<Row>, i: nat, parseFloat: string -> Option<real>, parseInt: string -> Option<int>)
  {
    i < |rows| && ConvertRow(rows[i], parseFloat, parseInt).None?
    && forall j :: 0 <= j < i ==> ConvertRow(rows[j], parseFloat, parseInt).Some?
  }

  /** `load_events`: the column check, then every row converted in file
      order; the first failing row aborts the whole load. */
  method LoadEvents(header: Option<seq<string>>, rows: seq<Row>, parseFloat: string -> Option<real>, parseInt: string -> Option<int>)
    returns (r: Result<seq<FestivalEvent>, LoadError>)
    ensures MissingColumns(header) != [] ==> r == Failure(MissingColumnsError(MissingColumnsMessage(MissingColumns(header))))
    ensures MissingColumns(header) == [] ==>
      (r.Success? <==> forall i :: 0 <= i < |rows| ==> ConvertRow(rows[i], parseFloat, parseInt).Some?)
    ensures r.Success? ==> |r.value| == |rows|
    ensures r.Success? ==> forall i :: 0 <= i < |rows| ==> ConvertRow(rows[i], parseFloat, parseInt) == Some(r.value[i])
    ensures MissingColumns(header) == [] && r.Failure? ==>
      exists i: nat :: FirstBadRow(rows, i, parseFloat, parseInt) && r.error == InvalidRow(rows[i])
  {
    var missing := MissingColumns(header);
    if missing != [] {
      return Failure(MissingColumnsError(MissingColumnsMessage(missing)));
    }
    var events: seq<FestivalEvent> := [];
    var i := 0;
    while i < |rows|
      invariant 0 <= i <= |rows|
      invariant |events| == i
      invariant forall j :: 0 <= j < i ==> ConvertRow(rows[j], parseFloat, parseInt) == Some(events[j])
    {
      var converted := ConvertRow(rows[i], parseFloat, parseInt);
      if converted.None? {
        assert FirstBadRow(rows, i, parseFloat, parseInt);
        return Failure(InvalidRow(rows[i]));
      }
      events := events + [converted.value];
      i := i + 1;
    }
    return Success(events);
  }
}
