/**
 * The population table as the components see it: one record per simulant id. The masked
 * assignment `pop.loc[ids, column] = value` becomes an update of the selected rows.
 */
module Frames {

  /** The table after the rows in `ids` were rewritten by `f` and all other rows kept. */
  function Updated<R>(rows: map<int, R>, ids: set<int>, f: (int, R) -> R): (r: map<int, R>)
    ensures r.Keys == rows.Keys
    ensures forall id :: id in rows && id in ids ==> r[id] == f(id, rows[id])
    ensures forall id :: id in rows && id !in ids ==> r[id] == rows[id]
  {
    map id | id in rows :: if id in ids then f(id, rows[id]) else rows[id]
  }

  /** `pop.loc[ids, column] = value`, row by row. */
  method SetWhere<R>(rows: map<int, R>, ids: set<int>, f: (int, R) -> R) returns (r: map<int, R>)
    ensures r == Updated(rows, ids, f)
  {
    r := rows;
    var todo := ids;
    while todo != {}
      invariant todo <= ids
      invariant r == Updated(rows, ids - todo, f)
      decreases |todo|
    {
      var id := Pick(todo);
      if id in r {
        r := r[id := f(id, rows[id])];
      }
      todo := todo - {id};
      assert r == Updated(rows, ids - todo, f);
    }
    assert ids - todo == ids;
  }

  /** Some element of a non-empty set of ids. */
  method Pick(s: set<int>) returns (x: int)
    requires s != {}
    ensures x in s
  {
    assert exists y :: y in s by {
      if forall y :: y !in s {
        assert false;
      }
    }
    x :| x in s;
  }

  /** Two tables with the same ids and the same row under each id are the same table. */
  lemma SameRows<R>(a: map<int, R>, b: map<int, R>)
    requires a.Keys == b.Keys
    requires forall id :: id in a ==> a[id] == b[id]
    ensures a == b
  {
    assert forall id :: id in a ==> id in b && a[id] == b[id];
    assert forall id :: id in b ==> id in a;
  }

  /** The ids of the rows satisfying a condition. */
  function Where<R>(rows: map<int, R>, p: (int, R) -> bool): (r: set<int>)
    ensures forall id :: id in r <==> id in rows && p(id, rows[id])
  {
    set id | id in rows && p(id, rows[id])
  }
}
