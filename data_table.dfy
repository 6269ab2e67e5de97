/** The generic table of src/components/DataTable.tsx: a case-insensitive
    search over every field of a row, a sort by one column in either
    direction, and the header click that toggles the sort. */
module DataTable {
  import opened Wrappers
  import opened Text
  import Seqs

  /** A field value: a string or a number. */
  datatype Value = Str(s: string) | Num(n: int)

  /** A row is an object from field names to values. */
  type Row = map<string, Value>

  /** `String(v)`. */
  function ValueString(v: Value): (r: string)
    ensures v.Str? ==> r == v.s
    ensures v.Num? ==> r == IntToString(v.n)
  {
    match v
    case Str(s) => s
    case Num(n) => IntToString(n)
  }

  /** Some field of the row, rendered and lower-cased, contains the lower-cased term. */
  predicate RowMatches(row: Row, term: string) {
    exists k :: k in row && Contains(Lower(ValueString(row[k])), Lower(term))
  }

  /** The filter test: an empty term keeps every row. */
  predicate Keep(row: Row, term: string) {
    term == "" || RowMatches(row, term)
  }

  /** `filteredData`. */
  function FilteredData(data: seq<Row>, term: string): (r: seq<Row>)
    ensures Seqs.SubseqOf(r, data)
    ensures forall row :: row in r <==> row in data && Keep(row, term)
    ensures forall row :: row in data ==> multiset(r)[row] == if Keep(row, term) then multiset(data)[row] else 0
    ensures term == "" ==> r == data
  {
    var keep := row => Keep(row, term);
    var r := Seqs.Filter(data, keep);
    forall row
      ensures row in r <==> row in data && Keep(row, term)
      ensures row in data ==> multiset(r)[row] == if Keep(row, term) then multiset(data)[row] else 0
    {
      assert keep(row) == Keep(row, term);
    }
    if term == "" then
      assert forall row :: keep(row);
      r
    else r
  }

  /** With a non-empty term, a row is kept iff one of its fields contains the
      term at some index, whatever the case of the letters the model covers. */
  lemma FilterKeepsMatchingRows(data: seq<Row>, term: string, row: Row)
    requires term != "" && row in data
    ensures row in FilteredData(data, term) <==> exists k :: k in row && HasIgnoringCase(ValueString(row[k]), term)
  {
    forall k | k in row
      ensures Contains(Lower(ValueString(row[k])), Lower(term)) <==> HasIgnoringCase(ValueString(row[k]), term)
    {
      ContainsIff(Lower(ValueString(row[k])), Lower(term));
    }
  }

  // ---------------------------------------------------------------------------
  // The comparator

  /** JavaScript `<` on strings: lexicographic order of the characters. */
  predicate StrLess(a: string, b: string)
    ensures IsPrefix(a, b) ==> (StrLess(a, b) <==> |a| < |b|)
    ensures IsPrefix(b, a) ==> !StrLess(a, b)
  {
    if a == [] then b != []
    else if b == [] then false
    else if a[0] < b[0] then true
    else if a[0] == b[0] then StrLess(a[1..], b[1..])
    else false
  }

  /** `a < b` on field values: numbers numerically, strings lexicographically;
      a number sorts before a string. */
  predicate Less(a: Value, b: Value)
    ensures Less(a, b) ==> a != b
    ensures a.Num? && b.Str? ==> Less(a, b)
  {
    match (a, b)
    case (Num(x), Num(y)) => x < y
    case (Str(x), Str(y)) => StrLessIrreflexive(x); StrLess(x, y)
    case (Num(_), Str(_)) => true
    case (Str(_), Num(_)) => false
  }

  lemma {:induction false} StrLessIrreflexive(a: string)
    ensures !StrLess(a, a)
    decreases |a|
  {
    if a != [] {
      StrLessIrreflexive(a[1..]);
    }
  }

  lemma {:induction false} StrLessTransitive(a: string, b: string, c: string)
    requires StrLess(a, b) && StrLess(b, c)
    ensures StrLess(a, c)
    decreases |a|
  {
    if a != [] && a[0] == b[0] && b[0] == c[0] {
      StrLessTransitive(a[1..], b[1..], c[1..]);
    }
  }

  lemma {:induction false} StrLessTrichotomous(a: string, b: string)
    ensures a == b || StrLess(a, b) || StrLess(b, a)
    decreases |a|
  {
    if a != [] && b != [] && a[0] == b[0] {
      StrLessTrichotomous(a[1..], b[1..]);
      if a[1..] == b[1..] {
        assert a == [a[0]] + a[1..] && b == [b[0]] + b[1..];
      }
    }
  }

  /** `Less` is a strict total order on values. */
  lemma LessStrictTotalOrder(a: Value, b: Value, c: Value)
    ensures !Less(a, a)
    ensures Less(a, b) && Less(b, c) ==> Less(a, c)
    ensures a == b || Less(a, b) || Less(b, a)
  {
    if a.Str? {
      StrLessIrreflexive(a.s);
      if b.Str? {
        StrLessTrichotomous(a.s, b.s);
        if c.Str? && Less(a, b) && Less(b, c) {
          StrLessTransitive(a.s, b.s, c.s);
        }
      }
    }
  }

  datatype Direction = Asc | Desc

  /** The sort comparator: -1, 1 or 0 as `a` goes before, after or level with `b`. */
  function Compare(a: Value, b: Value, dir: Direction): (c: int)
    ensures c in {-1, 0, 1}
    ensures c == 0 <==> !Less(a, b) && !Less(b, a)
    ensures dir == Asc ==> (c < 0 <==> Less(a, b))
    ensures dir == Desc ==> (c < 0 <==> Less(b, a))
  {
    LessStrictTotalOrder(a, b, a);
    if Less(a, b) then (if dir == Asc then -1 else 1)
    else if Less(b, a) then (if dir == Asc then 1 else -1)
    else 0
  }

  /** `a` may precede `b` in the output: the comparator does not put it after. */
  predicate Precedes(a: Value, b: Value, dir: Direction) {
    Compare(a, b, dir) <= 0
  }

  lemma PrecedesTotal(a: Value, b: Value, dir: Direction)
    ensures Precedes(a, b, dir) || Precedes(b, a, dir)
  {
    LessStrictTotalOrder(a, b, a);
  }

  lemma PrecedesTransitive(a: Value, b: Value, c: Value, dir: Direction)
    requires Precedes(a, b, dir) && Precedes(b, c, dir)
    ensures Precedes(a, c, dir)
  {
    LessStrictTotalOrder(a, b, c);
    LessStrictTotalOrder(c, b, a);
    LessStrictTotalOrder(a, c, b);
    LessStrictTotalOrder(b, a, c);
    LessStrictTotalOrder(c, a, b);
  }

  // ---------------------------------------------------------------------------
  // The sort

  predicate HasKey(rows: seq<Row>, key: string) {
    forall i :: 0 <= i < |rows| ==> key in rows[i]
  }

  /** The rows are in comparator order by `key`. */
  predicate Sorted(rows: seq<Row>, key: string, dir: Direction)
    requires HasKey(rows, key)
  {
    forall i, j :: 0 <= i < j < |rows| ==> Precedes(rows[i][key], rows[j][key], dir)
  }

  /** A row that may precede every row of a sorted list can head it. */
  lemma ConsSorted(y: Row, tail: seq<Row>, key: string, dir: Direction)
    requires key in y && HasKey(tail, key) && Sorted(tail, key, dir)
    requires forall j :: 0 <= j < |tail| ==> Precedes(y[key], tail[j][key], dir)
    ensures HasKey([y] + tail, key) && Sorted([y] + tail, key, dir)
  {
    var r := [y] + tail;
    forall i, j | 0 <= i < j < |r| ensures Precedes(r[i][key], r[j][key], dir) {
      if i > 0 { assert r[i] == tail[i - 1] && r[j] == tail[j - 1]; }
    }
  }

  /** Inserts `x` before the first row it may precede. */
  function Insert(x: Row, rows: seq<Row>, key: string, dir: Direction): (r: seq<Row>)
    requires key in x && HasKey(rows, key)
    ensures multiset(r) == multiset(rows) + multiset{x}
    ensures HasKey(r, key)
    ensures Sorted(rows, key, dir) ==> Sorted(r, key, dir)
    decreases |rows|
  {
    if rows == [] then [x]
    else if Precedes(x[key], rows[0][key], dir) then
      assert Sorted(rows, key, dir) ==> Sorted([x] + rows, key, dir) by {
        if Sorted(rows, key, dir) {
          forall j | 0 <= j < |rows| ensures Precedes(x[key], rows[j][key], dir) {
            if j > 0 { PrecedesTransitive(x[key], rows[0][key], rows[j][key], dir); }
          }
          ConsSorted(x, rows, key, dir);
        }
      }
      [x] + rows
    else
      var tail := Insert(x, rows[1..], key, dir);
      assert rows == [rows[0]] + rows[1..];
      PrecedesTotal(x[key], rows[0][key], dir);
      assert Sorted(rows, key, dir) ==> Sorted([rows[0]] + tail, key, dir) by {
        if Sorted(rows, key, dir) {
          assert Sorted(rows[1..], key, dir);
          forall j | 0 <= j < |tail| ensures Precedes(rows[0][key], tail[j][key], dir) {
            assert tail[j] in multiset(tail);
            assert tail[j] == x || tail[j] in rows[1..];
          }
          ConsSorted(rows[0], tail, key, dir);
        }
      }
      [rows[0]] + tail
  }

  /** `[...rows].sort(comparator)` by `key` in direction `dir`. */
  function SortRows(rows: seq<Row>, key: string, dir: Direction): (r: seq<Row>)
    requires HasKey(rows, key)
    ensures multiset(r) == multiset(rows)
    ensures HasKey(r, key)
    ensures Sorted(r, key, dir)
    decreases |rows|
  {
    if rows == [] then []
    else
      assert rows == [rows[0]] + rows[1..];
      Insert(rows[0], SortRows(rows[1..], key, dir), key, dir)
  }

  /** In ascending order the column never decreases; in descending order it
      never increases. */
  lemma SortedMeansMonotone(rows: seq<Row>, key: string, dir: Direction, i: int, j: int)
    requires HasKey(rows, key) && Sorted(rows, key, dir) && 0 <= i < j < |rows|
    ensures dir == Asc ==> !Less(rows[j][key], rows[i][key])
    ensures dir == Desc ==> !Less(rows[i][key], rows[j][key])
  {
    assert Precedes(rows[i][key], rows[j][key], dir);
    LessStrictTotalOrder(rows[i][key], rows[j][key], rows[i][key]);
  }

  /** The sort state: a column key (or none) and a direction. */
  datatype SortConfig = SortConfig(key: Option<string>, direction: Direction)

  const InitialSort := SortConfig(None, Asc)

  /** `sortedData`: the filtered rows unchanged without a (truthy) key,
      otherwise a sorted copy. */
  function SortedData(filtered: seq<Row>, config: SortConfig): (r: seq<Row>)
    requires Truthy(config.key) ==> HasKey(filtered, config.key.value)
    ensures !Truthy(config.key) ==> r == filtered
    ensures multiset(r) == multiset(filtered)
    ensures Truthy(config.key) ==> HasKey(r, config.key.value) && Sorted(r, config.key.value, config.direction)
  {
    if !Truthy(config.key) then filtered
    else SortRows(filtered, config.key.value, config.direction)
  }

  /** `handleSort(key)`: the new configuration. */
  function NextSort(current: SortConfig, key: string): (r: SortConfig)
    ensures r.key == Some(key)
    ensures r.direction == Desc <==> current.key == Some(key) && current.direction == Asc
  {
    SortConfig(Some(key), if current.key == Some(key) && current.direction == Asc then Desc else Asc)
  }

  /** Two clicks on the column already sorted ascending return to the same
      configuration; two clicks on another column sort it descending. */
  lemma TwoClicks(current: SortConfig, key: string)
    ensures current == SortConfig(Some(key), Asc) ==> NextSort(NextSort(current, key), key) == current
    ensures current.key != Some(key) ==> NextSort(NextSort(current, key), key) == SortConfig(Some(key), Desc)
    ensures NextSort(NextSort(NextSort(current, key), key), key).key == Some(key)
  {
  }

  /** The `colSpan` of the empty-result row: one more column when any action
      callback is given. */
  function EmptyRowSpan(columns: nat, onEdit: bool, onDelete: bool, onView: bool): (span: nat)
    ensures span == columns + 1 <==> onEdit || onDelete || onView
    ensures span == columns <==> !(onEdit || onDelete || onView)
  {
    columns + (if onEdit || onDelete || onView then 1 else 0)
  }

  /** Filtering keeps the key present in every row. */
  lemma FilteredHasKey(data: seq<Row>, term: string, key: string)
    requires HasKey(data, key)
    ensures HasKey(FilteredData(data, term), key)
  {
    var f := FilteredData(data, term);
    forall i | 0 <= i < |f| ensures key in f[i] {
      assert f[i] in data;
    }
  }

  /** Two lists with the same multiset have the same members. */
  lemma SameMultisetSameMembers(a: seq<Row>, b: seq<Row>)
    requires multiset(a) == multiset(b)
    ensures forall row :: row in a <==> row in b
  {
    forall row ensures row in a <==> row in b {
      assert row in a <==> row in multiset(a);
      assert row in b <==> row in multiset(b);
    }
  }

  /** The table's two state cells. `data` is a property, passed to `Displayed`. */
  class TableState {
    var searchTerm: string
    var sortConfig: SortConfig

    constructor ()
      ensures searchTerm == "" && sortConfig == InitialSort
    {
      searchTerm := "";
      sortConfig := InitialSort;
    }

    /** The rows shown for `data`: filtered, then sorted. */
    function Displayed(data: seq<Row>): (r: seq<Row>)
      reads this
      requires Truthy(sortConfig.key) ==> HasKey(data, sortConfig.key.value)
      ensures multiset(r) == multiset(FilteredData(data, searchTerm))
      ensures forall row :: row in r <==> row in data && Keep(row, searchTerm)
      ensures !Truthy(sortConfig.key) ==> r == FilteredData(data, searchTerm)
      ensures Truthy(sortConfig.key) ==>
                HasKey(r, sortConfig.key.value) && Sorted(r, sortConfig.key.value, sortConfig.direction)
    {
      var f := FilteredData(data, searchTerm);
      assert Truthy(sortConfig.key) ==> HasKey(f, sortConfig.key.value) by {
        if Truthy(sortConfig.key) { FilteredHasKey(data, searchTerm, sortConfig.key.value); }
      }
      var r := SortedData(f, sortConfig);
      SameMultisetSameMembers(r, f);
      r
    }

    /** A click on a sortable header. */
    method HandleSort(key: string)
      modifies this
      ensures sortConfig == NextSort(old(sortConfig), key)
      ensures searchTerm == old(searchTerm)
    {
      sortConfig := SortConfig(Some(key), if sortConfig.key == Some(key) && sortConfig.direction == Asc then Desc else Asc);
    }

    /** A change of the search input. */
    method SetSearchTerm(term: string)
      modifies this
      ensures searchTerm == term && sortConfig == old(sortConfig)
    {
      searchTerm := term;
    }
  }
}
