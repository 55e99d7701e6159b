/** The three list operations the store is built from: `find`, the
    `map` that replaces rows by id, and the `filter` that drops rows by id,
    together with the change-feed merge they implement. Every table row has a
    string primary key, given here by `key`. */
module Tables {
  import opened Types

  /** The index `Array.prototype.find` stops at: the first element satisfying `p`. */
  function FindFirst<T>(s: seq<T>, p: T -> bool): (r: Option<nat>)
    ensures r.Some? ==> r.value < |s| && p(s[r.value])
    ensures r.Some? ==> forall j :: 0 <= j < r.value ==> !p(s[j])
    ensures r.None? ==> forall j :: 0 <= j < |s| ==> !p(s[j])
  {
    if s == [] then None
    else if p(s[0]) then Some(0)
    else match FindFirst(s[1..], p)
      case None => None
      case Some(k) => Some(k + 1)
  }

  /** Applies `f` to every row whose key is `id`, leaving the others alone. */
  function MapWhere<T>(table: seq<T>, key: T -> string, id: string, f: T -> T): (r: seq<T>)
    ensures |r| == |table|
    ensures forall i :: 0 <= i < |table| && key(table[i]) == id ==> r[i] == f(table[i])
    ensures forall i :: 0 <= i < |table| && key(table[i]) != id ==> r[i] == table[i]
  {
    if table == [] then []
    else [if key(table[0]) == id then f(table[0]) else table[0]] + MapWhere(table[1..], key, id, f)
  }

  /** Replaces every row that has the same key as `row` by `row`. */
  function ReplaceById<T>(table: seq<T>, key: T -> string, row: T): (r: seq<T>)
    ensures |r| == |table|
    ensures forall i :: 0 <= i < |table| ==> r[i] == if key(table[i]) == key(row) then row else table[i]
  {
    MapWhere(table, key, key(row), _ => row)
  }

  /** Keeps the rows whose key is not `id`, in their order. */
  function RemoveById<T>(table: seq<T>, key: T -> string, id: string): (r: seq<T>)
    ensures |r| <= |table|
    ensures forall i :: 0 <= i < |r| ==> r[i] in table && key(r[i]) != id
    ensures forall i :: 0 <= i < |table| && key(table[i]) != id ==> table[i] in r
    ensures (forall i :: 0 <= i < |table| ==> key(table[i]) != id) ==> r == table
  {
    if table == [] then []
    else if key(table[0]) == id then RemoveById(table[1..], key, id)
    else [table[0]] + RemoveById(table[1..], key, id)
  }

  /** One event of the backend's change feed for a table. */
  datatype Change<T> = Insert(row: T) | Update(row: T) | Delete(oldId: string)

  /** Merges one change-feed event into the local copy of a table:
      an insert appends, an update replaces by id, a delete filters by id. */
  function Apply<T(!new)>(table: seq<T>, key: T -> string, c: Change<T>): (r: seq<T>)
    ensures c.Insert? ==> r == table + [c.row]
    ensures c.Update? ==> |r| == |table|
    ensures c.Update? ==> forall i :: 0 <= i < |table| ==> r[i] == if key(table[i]) == key(c.row) then c.row else table[i]
    ensures c.Delete? ==> forall i :: 0 <= i < |r| ==> key(r[i]) != c.oldId
    ensures c.Delete? ==> forall x :: multiset(r)[x] == if key(x) == c.oldId then 0 else multiset(table)[x]
  {
    match c
    case Insert(row) => table + [row]
    case Update(row) => ReplaceById(table, key, row)
    case Delete(id) =>
      RemoveCounts(table, key, id);
      RemoveById(table, key, id)
  }

  /** A delete keeps every row without the id exactly as often as it occurs,
      and no row with it. */
  lemma {:induction false} RemoveCounts<T(!new)>(table: seq<T>, key: T -> string, id: string)
    ensures forall x :: multiset(RemoveById(table, key, id))[x] == if key(x) == id then 0 else multiset(table)[x]
  {
    if table != [] {
      assert table == [table[0]] + table[1..];
      RemoveCounts(table[1..], key, id);
    }
  }

  lemma {:induction false} RemoveAppend<T>(a: seq<T>, b: seq<T>, key: T -> string, id: string)
    ensures RemoveById(a + b, key, id) == RemoveById(a, key, id) + RemoveById(b, key, id)
  {
    if a != [] {
      assert (a + b)[1..] == a[1..] + b;
      RemoveAppend(a[1..], b, key, id);
    } else {
      assert a + b == b;
    }
  }

  lemma {:induction false} RemoveAfterReplace<T>(table: seq<T>, key: T -> string, row: T)
    ensures RemoveById(ReplaceById(table, key, row), key, key(row)) == RemoveById(table, key, key(row))
  {
    if table != [] {
      var r := ReplaceById(table, key, row);
      assert r == [r[0]] + r[1..];
      assert r[1..] == ReplaceById(table[1..], key, row);
      RemoveAfterReplace(table[1..], key, row);
    }
  }

  /** Inserting a row, updating it and deleting it again leaves the table as
      deleting that id alone would: the three events cancel out. */
  lemma {:induction false} InsertUpdateDeleteCancels<T(!new)>(table: seq<T>, key: T -> string, x: T, y: T)
    requires key(y) == key(x)
    ensures Apply(Apply(Apply(table, key, Insert(x)), key, Update(y)), key, Delete(key(x)))
         == RemoveById(table, key, key(x))
  {
    var t1 := table + [x];
    var t2 := ReplaceById(t1, key, y);
    assert t2 == ReplaceById(table, key, y) + [y];
    RemoveAppend(ReplaceById(table, key, y), [y], key, key(x));
    assert RemoveById([y], key, key(x)) == [];
    RemoveAfterReplace(table, key, y);
  }

  /** The same three events applied to an empty table leave it empty. */
  lemma InsertUpdateDeleteOnEmpty<T(!new)>(key: T -> string, x: T, y: T)
    requires key(y) == key(x)
    ensures Apply(Apply(Apply([], key, Insert(x)), key, Update(y)), key, Delete(key(x))) == []
  {
    InsertUpdateDeleteCancels([], key, x, y);
  }

  /** The backend's echo of an update that was already applied locally
      changes nothing. */
  lemma UpdateEchoIsNoOp<T(!new)>(table: seq<T>, key: T -> string, row: T)
    ensures Apply(Apply(table, key, Update(row)), key, Update(row)) == Apply(table, key, Update(row))
  {
  }
}
