/**
 * The metadata generator: the distinct (product_id, product) pairs of the
 * combined sales table, first occurrences kept in order, and the count it
 * reports.
 */
module GenerateMetadata {
  import opened Wrappers
  import opened Schema

  const ProcessedPath := "data/processed/historical_sales.csv"
  const MetaPath := "data/processed/product_metadata.csv"

  /** The only error: the combined table is missing. */
  datatype Error = FileNotFound(message: string)

  /** The file written, the table written to it and the product count the script reports. */
  datatype Output = Output(path: string, table: seq<ProductPair>, reportedCount: int)

  /** The two columns the generator reads from the combined table. */
  function Pairs(rows: seq<SalesRow>): (ps: seq<ProductPair>)
    ensures |ps| == |rows|
    ensures forall i :: 0 <= i < |ps| ==> ps[i] == ProductPair(rows[i].productId, rows[i].product)
  {
    seq(|rows|, i requires 0 <= i < |rows| => ProductPair(rows[i].productId, rows[i].product))
  }

  ghost predicate NoDuplicates<T>(s: seq<T>) {
    forall i, j :: 0 <= i < j < |s| ==> s[i] != s[j]
  }

  /** The index of the first occurrence of `x` in `s`. */
  function FirstIndex<T(==)>(s: seq<T>, x: T): (k: nat)
    requires x in s
    ensures k < |s| && s[k] == x && x !in s[..k]
  {
    var front := s[..|s| - 1];
    assert s == front + [s[|s| - 1]];
    if x in front then FirstIndex(front, x) else |s| - 1
  }

  /**
   * `drop_duplicates()`: each value at its first occurrence, the rest
   * dropped. The result has no duplicates and holds exactly the values of
   * the input.
   */
  function DropDuplicates<T(==, !new)>(s: seq<T>): (r: seq<T>)
    ensures NoDuplicates(r)
    ensures forall x :: x in r <==> x in s
    decreases |s|
  {
    if s == [] then []
    else
      var front := s[..|s| - 1];
      assert s == front + [s[|s| - 1]];
      var kept := DropDuplicates(front);
      if s[|s| - 1] in kept then kept else kept + [s[|s| - 1]]
  }

  /** The first occurrence of a value in a prefix is its first occurrence in the whole. */
  lemma FirstIndexInPrefix<T>(s: seq<T>, n: nat, x: T)
    requires n <= |s| && x in s[..n]
    ensures FirstIndex(s, x) == FirstIndex(s[..n], x)
  {
  }

  /**
   * The kept values appear in the order of their first occurrences in the
   * input.
   */
  lemma {:induction false} DropDuplicatesKeepsFirstOrder<T(!new)>(s: seq<T>)
    ensures forall i, j :: 0 <= i < j < |DropDuplicates(s)| ==>
      FirstIndex(s, DropDuplicates(s)[i]) < FirstIndex(s, DropDuplicates(s)[j])
    decreases |s|
  {
    if s != [] {
      var n := |s| - 1;
      var front := s[..n];
      assert s == front + [s[n]];
      var kept := DropDuplicates(front);
      DropDuplicatesKeepsFirstOrder(front);
      var r := DropDuplicates(s);
      forall i, j | 0 <= i < j < |r|
        ensures FirstIndex(s, r[i]) < FirstIndex(s, r[j])
      {
        assert r[i] == kept[i] && r[i] in front;
        FirstIndexInPrefix(s, n, r[i]);
        if j < |kept| {
          assert r[j] == kept[j];
          FirstIndexInPrefix(s, n, r[j]);
          assert FirstIndex(front, kept[i]) < FirstIndex(front, kept[j]);
        } else {
          assert r[j] == s[n] && s[n] !in front;
          assert FirstIndex(s, s[n]) == n;
          assert FirstIndex(front, r[i]) < n;
        }
      }
    }
  }

  /** A sequence without duplicates has as many distinct values as elements. */
  lemma {:induction false} DistinctCount<T>(s: seq<T>)
    requires NoDuplicates(s)
    ensures |set x | x in s| == |s|
  {
    if s != [] {
      var front := s[..|s| - 1];
      assert s == front + [s[|s| - 1]];
      DistinctCount(front);
      assert (set x | x in s) == (set x | x in front) + {s[|s| - 1]};
    }
  }

  /**
   * The generator: fails before reading or writing anything when the
   * combined table is missing; otherwise writes the distinct pairs and
   * reports their number.
   */
  function Generate(source: Option<seq<SalesRow>>): (r: Result<Output, Error>)
    ensures source.None? <==> r.Failure?
    ensures source.None? ==> r.error == FileNotFound(ProcessedPath + " not found. Generate sales data first.")
    ensures r.Success? ==>
      && r.value.path == MetaPath
      && r.value.table == DropDuplicates(Pairs(source.value))
      && NoDuplicates(r.value.table)
      && (forall p :: p in r.value.table <==> p in Pairs(source.value))
      && r.value.reportedCount == |set p | p in Pairs(source.value)|
  {
    match source
    case None => Failure(FileNotFound(ProcessedPath + " not found. Generate sales data first."))
    case Some(rows) =>
      var table := DropDuplicates(Pairs(rows));
      DistinctCount(table);
      assert (set p | p in table) == (set p | p in Pairs(rows));
      Success(Output(MetaPath, table, |table|))
  }

  /**
   * Duplicates are judged on the whole pair: one product id under two
   * names keeps two rows.
   */
  lemma SameIdTwoNamesKeepsBoth(id: string, name1: string, name2: string)
    requires name1 != name2
    ensures |DropDuplicates([ProductPair(id, name1), ProductPair(id, name2), ProductPair(id, name1)])| == 2
  {
    var p1, p2 := ProductPair(id, name1), ProductPair(id, name2);
    assert [p1][..0] == [];
    assert DropDuplicates([p1]) == [p1];
    assert [p1, p2][..1] == [p1];
    assert DropDuplicates([p1, p2]) == [p1, p2];
    assert [p1, p2, p1][..2] == [p1, p2];
  }
}
