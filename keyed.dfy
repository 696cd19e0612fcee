/** A relational table with a unique key, as Prisma sees one: rows in a
    sequence, `findUnique` by key, `upsert` (create or overwrite) and
    `createMany` (all rows or, on a key collision, none). */
module Keyed {
  import opened Wrappers

  /** The table's unique-key constraint. */
  predicate KeysUnique<R, K(==,!new)>(key: R -> K, rows: seq<R>)
  {
    forall i, j :: 0 <= i < j < |rows| ==> key(rows[i]) != key(rows[j])
  }

  /** `findUnique({ where: key })`. */
  function Find<R, K(==,!new)>(key: R -> K, rows: seq<R>, k: K): (r: Option<R>)
    ensures r.Some? ==> key(r.value) == k && r.value in rows
    ensures r.None? <==> forall i :: 0 <= i < |rows| ==> key(rows[i]) != k
  {
    if rows == [] then None
    else if key(rows[0]) == k then Some(rows[0])
    else Find(key, rows[1..], k)
  }

  /** `upsert`: the row with `row`'s key is overwritten in place, or `row`
      is appended when there is none. */
  function Upsert<R, K(==,!new)>(key: R -> K, rows: seq<R>, row: R): (t: seq<R>)
    ensures Find(key, t, key(row)) == Some(row)
    ensures forall k :: k != key(row) ==> Find(key, t, k) == Find(key, rows, k)
    ensures |t| == |rows| || |t| == |rows| + 1
  {
    if rows == [] then [row]
    else if key(rows[0]) == key(row) then [row] + rows[1..]
    else
      var rest := Upsert(key, rows[1..], row);
      assert ([rows[0]] + rest)[1..] == rest;
      [rows[0]] + rest
  }

  lemma {:induction false} UpsertKeepsKeysUnique<R, K(!new)>(key: R -> K, rows: seq<R>, row: R)
    requires KeysUnique(key, rows)
    ensures KeysUnique(key, Upsert(key, rows, row))
  {
    if rows != [] && key(rows[0]) != key(row) {
      UpsertKeepsKeysUnique(key, rows[1..], row);
      var rest := Upsert(key, rows[1..], row);
      forall j | 0 <= j < |rest| ensures key(rest[j]) != key(rows[0]) {
        if key(rest[j]) == key(rows[0]) {
          FindInUniqueRows(key, rest, j);
        }
      }
    }
  }

  lemma FindInUniqueRows<R, K(!new)>(key: R -> K, rows: seq<R>, j: nat)
    requires KeysUnique(key, rows) && j < |rows|
    ensures Find(key, rows, key(rows[j])) == Some(rows[j])
  {
    if j > 0 && key(rows[0]) != key(rows[j]) {
      FindInUniqueRows(key, rows[1..], j - 1);
    }
  }

  /** Upserting the same row twice is the same as upserting it once. */
  lemma {:induction false} UpsertIdempotent<R, K(!new)>(key: R -> K, rows: seq<R>, row: R)
    ensures Upsert(key, Upsert(key, rows, row), row) == Upsert(key, rows, row)
  {
    if rows != [] && key(rows[0]) != key(row) {
      UpsertIdempotent(key, rows[1..], row);
      var once := Upsert(key, rows, row);
      assert once[0] == rows[0] && once[1..] == Upsert(key, rows[1..], row);
    }
  }

  /** `createMany({ data: batch })` without `skipDuplicates`: the batch is
      appended when no key collides with a stored row or with another row of
      the batch, and otherwise the statement fails and nothing is stored. */
  function InsertMany<R, K(==,!new)>(key: R -> K, rows: seq<R>, batch: seq<R>): (r: Option<seq<R>>)
    ensures r.Some? <==> KeysUnique(key, batch) && forall i :: 0 <= i < |batch| ==> Find(key, rows, key(batch[i])).None?
    ensures r.Some? ==> r.value == rows + batch
    ensures r.Some? && KeysUnique(key, rows) ==> KeysUnique(key, r.value)
  {
    if KeysUnique(key, batch) && (forall i :: 0 <= i < |batch| ==> Find(key, rows, key(batch[i])).None?)
    then Some(rows + batch)
    else None
  }
}
