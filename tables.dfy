/**
 * One database table: its rows by id, and the auto-increment counter
 * that hands out ids. Ids start at 1 and are never handed out twice.
 */
module Tables {

  datatype Table<R> = Table(rows: map<nat, R>, next: nat) {

    /** Every stored id was handed out earlier by the counter. */
    predicate Valid() {
      next >= 1 && forall id :: id in rows ==> 1 <= id < next
    }

    /** `objects.create`: store `r` under the next id. */
    function Insert(r: R): (t: Table<R>)
      requires Valid()
      ensures t.Valid()
      ensures next !in rows
      ensures t.rows.Keys == rows.Keys + {next} && t.rows[next] == r
      ensures forall id :: id in rows ==> t.rows[id] == rows[id]
      ensures |t.rows| == |rows| + 1
      ensures t.next > next
    {
      Table(rows[next := r], next + 1)
    }

    /** `save()` on a stored record: replace the row under `id`. */
    function Overwrite(id: nat, r: R): (t: Table<R>)
      requires Valid() && id in rows
      ensures t.Valid()
      ensures t.rows.Keys == rows.Keys && t.rows[id] == r
      ensures forall k :: k in rows && k != id ==> t.rows[k] == rows[k]
      ensures t.next == next
    {
      Table(rows[id := r], next)
    }

    /** Delete the rows whose ids are in `ids`; the counter does not move back. */
    function Remove(ids: set<nat>): (t: Table<R>)
      requires Valid()
      ensures t.Valid()
      ensures t.rows.Keys == rows.Keys - ids
      ensures forall k :: k in t.rows ==> t.rows[k] == rows[k]
      ensures t.next == next
    {
      Table(rows - ids, next)
    }
  }

  function Empty<R>(): (t: Table<R>)
    ensures t.Valid() && t.rows == map[] && t.next == 1
  {
    Table(map[], 1)
  }
}
