/** A table with a unique key, and the upsert of a list of rows that executemany runs on it.
  *
  * `merge(old, new)` is the row that ON CONFLICT leaves: for DO NOTHING it is the old row,
  * for DO UPDATE the new row with the columns that the statement does not set taken from
  * the old one.
  */
module KeyedTable {
  import opened Wrappers

  datatype Row<K, R> = Row(key: K, cells: R)

  function Put<K, R>(t: map<K, R>, row: Row<K, R>, merge: (R, R) -> R): map<K, R> {
    t[row.key := if row.key in t then merge(t[row.key], row.cells) else row.cells]
  }

  function UpsertAll<K, R>(t: map<K, R>, rows: seq<Row<K, R>>, merge: (R, R) -> R): map<K, R> {
    if rows == [] then t
    else Put(UpsertAll(t, rows[..|rows| - 1], merge), rows[|rows| - 1], merge)
  }

  method ExecuteMany<K(==), R>(t: map<K, R>, rows: seq<Row<K, R>>, merge: (R, R) -> R) returns (t': map<K, R>)
    ensures t' == UpsertAll(t, rows, merge)
  {
    t' := t;
    for k := 0 to |rows|
      invariant t' == UpsertAll(t, rows[..k], merge)
    {
      assert rows[..k + 1][..k] == rows[..k];
      var row := rows[k];
      if row.key in t' {
        t' := t'[row.key := merge(t'[row.key], row.cells)];
      } else {
        t' := t'[row.key := row.cells];
      }
    }
    assert rows[..|rows|] == rows;
  }

  // ---- keys ---------------------------------------------------------------------------

  predicate Mentions<K(==), R>(rows: seq<Row<K, R>>, k: K) {
    exists i :: 0 <= i < |rows| && rows[i].key == k
  }

  ghost predicate DistinctKeys<K, R>(rows: seq<Row<K, R>>) {
    forall i, j :: 0 <= i < j < |rows| ==> rows[i].key != rows[j].key
  }

  ghost function Lookup<K, R>(t: map<K, R>, k: K): Option<R> {
    if k in t then Some(t[k]) else None
  }

  // The keys of the table afterwards are the old ones and those of the rows; a row whose
  // key is not mentioned is untouched.
  lemma {:induction false} UpsertKeys<K, R>(t: map<K, R>, rows: seq<Row<K, R>>, merge: (R, R) -> R, k: K)
    ensures k in UpsertAll(t, rows, merge) <==> k in t || Mentions(rows, k)
    ensures !Mentions(rows, k) ==> Lookup(UpsertAll(t, rows, merge), k) == Lookup(t, k)
  {
    if rows != [] {
      var init, last := rows[..|rows| - 1], rows[|rows| - 1];
      UpsertKeys(t, init, merge, k);
      assert forall i :: 0 <= i < |init| ==> init[i] == rows[i];
      if Mentions(rows, k) && last.key != k {
        var i :| 0 <= i < |rows| && rows[i].key == k;
        assert init[i].key == k;
      }
      if Mentions(init, k) {
        var i :| 0 <= i < |init| && init[i].key == k;
        assert rows[i].key == k;
      }
    }
  }

  // ---- the row a key ends with --------------------------------------------------------

  // Later rows win over earlier ones, and a row merged into itself is itself.
  ghost predicate LastWins<R(!new)>(merge: (R, R) -> R) {
    && (forall a, b, c :: merge(merge(a, b), c) == merge(a, c))
    && (forall a :: merge(a, a) == a)
  }

  function FirstFor<K(==), R>(rows: seq<Row<K, R>>, k: K): R
    requires Mentions(rows, k)
    decreases |rows|
  {
    if rows[0].key == k then rows[0].cells
    else
      assert exists i :: 1 <= i < |rows| && rows[i].key == k;
      assert Mentions(rows[1..], k) by {
        var i :| 1 <= i < |rows| && rows[i].key == k;
        assert rows[1..][i - 1].key == k;
      }
      FirstFor(rows[1..], k)
  }

  function LastFor<K(==), R>(rows: seq<Row<K, R>>, k: K): R
    requires Mentions(rows, k)
    decreases |rows|
  {
    var n := |rows| - 1;
    if rows[n].key == k then rows[n].cells
    else
      assert Mentions(rows[..n], k) by {
        var i :| 0 <= i < |rows| && rows[i].key == k;
        assert rows[..n][i].key == k;
      }
      LastFor(rows[..n], k)
  }

  lemma {:induction false} FirstForInit<K, R>(rows: seq<Row<K, R>>, k: K)
    requires rows != [] && Mentions(rows[..|rows| - 1], k)
    ensures Mentions(rows, k) && FirstFor(rows, k) == FirstFor(rows[..|rows| - 1], k)
    decreases |rows|
  {
    var init := rows[..|rows| - 1];
    var i :| 0 <= i < |init| && init[i].key == k;
    assert rows[i].key == k;
    if rows[0].key != k {
      assert init[1..] == rows[1..][..|rows[1..]| - 1];
      assert init[1..][i - 1].key == k;
      FirstForInit(rows[1..], k);
    }
  }

  // A mentioned key ends with its last row, merged into the row it had before, or into its
  // first row if it had none.
  lemma {:induction false} UpsertRow<K, R(!new)>(t: map<K, R>, rows: seq<Row<K, R>>, merge: (R, R) -> R, k: K)
    requires LastWins(merge) && Mentions(rows, k)
    ensures Lookup(UpsertAll(t, rows, merge), k) ==
      Some(merge(Lookup(t, k).GetOr(FirstFor(rows, k)), LastFor(rows, k)))
    decreases |rows|
  {
    var n := |rows| - 1;
    var init, last := rows[..n], rows[n];
    UpsertKeys(t, init, merge, k);
    if Mentions(init, k) {
      FirstForInit(rows, k);
      UpsertRow(t, init, merge, k);
    } else {
      assert forall i :: 0 <= i < n ==> rows[i] == init[i];
      if k !in t { OnlyRow(rows, k); }
    }
  }

  lemma {:induction false} OnlyRow<K, R>(rows: seq<Row<K, R>>, k: K)
    requires rows != [] && !Mentions(rows[..|rows| - 1], k) && rows[|rows| - 1].key == k
    ensures Mentions(rows, k) && FirstFor(rows, k) == rows[|rows| - 1].cells
    decreases |rows|
  {
    var n := |rows| - 1;
    if n > 0 {
      assert rows[..n][0] == rows[0];
      var rest := rows[1..];
      assert !Mentions(rest[..|rest| - 1], k) by {
        assert rest[..|rest| - 1] == rows[..n][1..];
        forall i | 0 <= i < n - 1 ensures rest[i].key != k { assert rows[..n][i + 1] == rest[i]; }
      }
      OnlyRow(rest, k);
    }
  }

  // With distinct keys every row of the list lands: inserted as it is, or merged.
  lemma UpsertDistinct<K, R(!new)>(t: map<K, R>, rows: seq<Row<K, R>>, merge: (R, R) -> R, i: nat)
    requires LastWins(merge) && DistinctKeys(rows) && i < |rows|
    ensures Lookup(UpsertAll(t, rows, merge), rows[i].key) ==
      Some(if rows[i].key in t then merge(t[rows[i].key], rows[i].cells) else rows[i].cells)
  {
    var k := rows[i].key;
    UpsertRow(t, rows, merge, k);
    FirstDistinct(rows, i);
    LastDistinct(rows, i);
  }

  lemma {:induction false} FirstDistinct<K, R>(rows: seq<Row<K, R>>, i: nat)
    requires DistinctKeys(rows) && i < |rows|
    ensures Mentions(rows, rows[i].key) && FirstFor(rows, rows[i].key) == rows[i].cells
    decreases |rows|
  {
    if i > 0 { FirstDistinct(rows[1..], i - 1); }
  }

  lemma {:induction false} LastDistinct<K, R>(rows: seq<Row<K, R>>, i: nat)
    requires DistinctKeys(rows) && i < |rows|
    ensures Mentions(rows, rows[i].key) && LastFor(rows, rows[i].key) == rows[i].cells
    decreases |rows|
  {
    var n := |rows| - 1;
    if i < n {
      assert rows[..n][i] == rows[i];
      LastDistinct(rows[..n], i);
    }
  }

  // Running the same upsert again changes nothing, repeated keys included.
  lemma UpsertAgain<K(!new), R(!new)>(t: map<K, R>, rows: seq<Row<K, R>>, merge: (R, R) -> R)
    requires LastWins(merge)
    ensures UpsertAll(UpsertAll(t, rows, merge), rows, merge) == UpsertAll(t, rows, merge)
  {
    var once := UpsertAll(t, rows, merge);
    var twice := UpsertAll(once, rows, merge);
    forall k ensures Lookup(twice, k) == Lookup(once, k) {
      UpsertKeys(once, rows, merge, k);
      if Mentions(rows, k) {
        UpsertRow(t, rows, merge, k);
        UpsertRow(once, rows, merge, k);
      }
    }
    assert forall k :: Lookup(twice, k) == Lookup(once, k);
    SameLookups(twice, once);
  }

  lemma SameLookups<K(!new), R>(t: map<K, R>, u: map<K, R>)
    requires forall k :: Lookup(t, k) == Lookup(u, k)
    ensures t == u
  {
    assert forall k :: k in t <==> Lookup(t, k).Some?;
    assert forall k :: k in u <==> Lookup(u, k).Some?;
    assert forall k :: k in t ==> Lookup(t, k) == Some(t[k]);
  }

  // ---- counting ------------------------------------------------------------------------

  // The number of rows whose key is not in `known`: the planner's insert count.
  function CountNew<K, R>(rows: seq<Row<K, R>>, known: set<K>): nat {
    if rows == [] then 0
    else CountNew(rows[..|rows| - 1], known) + (if rows[|rows| - 1].key in known then 0 else 1)
  }

  function CountKnown<K, R>(rows: seq<Row<K, R>>, known: set<K>): nat {
    if rows == [] then 0
    else CountKnown(rows[..|rows| - 1], known) + (if rows[|rows| - 1].key in known then 1 else 0)
  }

  // The places in the list whose key is known, or is not.
  ghost function Places<K, R>(rows: seq<Row<K, R>>, known: set<K>, found: bool): set<int> {
    set i | 0 <= i < |rows| && (rows[i].key in known) == found
  }

  lemma PlacesNext<K, R>(rows: seq<Row<K, R>>, known: set<K>, found: bool)
    requires rows != []
    ensures var n := |rows| - 1;
      Places(rows, known, found) ==
        Places(rows[..n], known, found) + if (rows[n].key in known) == found then {n} else {}
  {
    var n := |rows| - 1;
    assert forall i :: 0 <= i < n ==> rows[..n][i] == rows[i];
  }

  lemma {:induction false} CountsArePlaces<K, R>(rows: seq<Row<K, R>>, known: set<K>)
    ensures CountNew(rows, known) == |Places(rows, known, false)|
    ensures CountKnown(rows, known) == |Places(rows, known, true)|
  {
    if rows == [] {
      assert Places(rows, known, false) == {} && Places(rows, known, true) == {};
    } else {
      var n := |rows| - 1;
      CountsArePlaces(rows[..n], known);
      PlacesNext(rows, known, false);
      PlacesNext(rows, known, true);
    }
  }

  lemma {:induction false} CountsAddUp<K, R>(rows: seq<Row<K, R>>, known: set<K>)
    ensures CountNew(rows, known) + CountKnown(rows, known) == |rows|
  {
    if rows != [] { CountsAddUp(rows[..|rows| - 1], known); }
  }

  // No key that is missing from `known` is listed twice.
  ghost predicate NewKeysDistinct<K, R>(rows: seq<Row<K, R>>, known: set<K>) {
    forall i, j :: 0 <= i < j < |rows| && rows[i].key == rows[j].key ==> rows[i].key in known
  }

  // The table grows by exactly the predicted number of inserts if and only if no new key
  // is listed twice; otherwise it grows by less.
  lemma {:induction false} Growth<K(!new), R>(t: map<K, R>, rows: seq<Row<K, R>>, merge: (R, R) -> R)
    ensures |UpsertAll(t, rows, merge)| <= |t| + CountNew(rows, t.Keys)
    ensures |UpsertAll(t, rows, merge)| == |t| + CountNew(rows, t.Keys) <==> NewKeysDistinct(rows, t.Keys)
    decreases |rows|
  {
    if rows != [] {
      var n := |rows| - 1;
      var init, last := rows[..n], rows[n];
      Growth(t, init, merge);
      var before := UpsertAll(t, init, merge);
      UpsertKeys(t, init, merge, last.key);
      PutSize(before, last, merge);
      NewKeysSplit(rows, t.Keys);
    }
  }

  lemma PutSize<K, R>(t: map<K, R>, row: Row<K, R>, merge: (R, R) -> R)
    ensures |Put(t, row, merge)| == |t| + (if row.key in t then 0 else 1)
  {
    var t' := Put(t, row, merge);
    assert t'.Keys == t.Keys + {row.key};
    assert |t'| == |t'.Keys| && |t| == |t.Keys|;
  }

  lemma NewKeysSplit<K, R>(rows: seq<Row<K, R>>, known: set<K>)
    requires rows != []
    ensures var n := |rows| - 1;
      NewKeysDistinct(rows, known) <==>
        NewKeysDistinct(rows[..n], known) && (rows[n].key in known || !Mentions(rows[..n], rows[n].key))
  {
    var n := |rows| - 1;
    var init, last := rows[..n], rows[n];
    assert forall i :: 0 <= i < n ==> init[i] == rows[i];
    if NewKeysDistinct(rows, known) && Mentions(init, last.key) {
      var i :| 0 <= i < n && init[i].key == last.key;
      assert rows[i].key == rows[n].key;
    }
    if NewKeysDistinct(init, known) && (last.key in known || !Mentions(init, last.key)) {
      forall i, j | 0 <= i < j < |rows| && rows[i].key == rows[j].key ensures rows[i].key in known {
        if j == n {
          assert init[i].key == last.key;
        } else {
          assert init[i].key == init[j].key;
        }
      }
    }
  }
}
