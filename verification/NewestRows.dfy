/**
 * A table of rows by instant that is read window by window, and the
 * assumption on its reader: each window is answered with its newest rows.
 */
module NewestRows {
  import opened Basics
  import opened Grid
  import opened SortedSets

  /** What the exchange holds: at most one row for each instant of the grid, which says when it opens. */
  predicate Universe<R>(u: map<int, R>, openOf: R -> Option<int>, step: nat)
    requires step > 0
  {
    forall k :: k in u ==> k % step == 0 && openOf(u[k]) == Some(k)
  }

  /** The instants of a window, both ends included, that have a row. */
  function KeysIn<R>(u: map<int, R>, lo: int, hi: int): set<int> { set k | k in u && lo <= k <= hi }

  /** The rows are those of the keys, in any order. */
  ghost predicate RowsAre<R(!new)>(rows: seq<R>, u: map<int, R>, keys: set<int>)
    requires keys <= u.Keys
  {
    && (forall k :: k in keys ==> u[k] in rows)
    && (forall row :: row in rows ==> exists k :: k in keys && u[k] == row)
  }

  /** The newest rows of the window, as many as the limit allows. */
  ghost predicate Newest<R(!new)>(rows: seq<R>, u: map<int, R>, lo: int, hi: int, limit: int) {
    exists keys: set<int> :: NewestKeys(keys, KeysIn(u, lo, hi), limit) && RowsAre(rows, u, keys)
  }

  /** Window start, window end, row limit; none when no rows come back. */
  type Reader<!R> = (int, int, int) -> Option<seq<R>>

  /** Every window is answered with its newest rows. */
  ghost predicate Honest<R(!new)>(reader: Reader<R>, u: map<int, R>) {
    forall lo, hi, limit :: limit >= 0 ==>
      reader(lo, hi, limit).Some? && Newest(reader(lo, hi, limit).value, u, lo, hi, limit)
  }

  /** The last `limit` rows of a window. */
  function Serve<R>(u: map<int, R>, lo: int, hi: int, limit: nat): seq<R> {
    var keys := LastKeys(KeysIn(u, lo, hi), limit);
    seq(|keys|, i requires 0 <= i < |keys| => assert keys[i] in KeysIn(u, lo, hi); u[keys[i]])
  }

  /** Serving the newest rows is honest, whatever the exchange holds: the assumption on readers can be met. */
  lemma ServeIsHonest<R(!new)>(u: map<int, R>, reader: Reader<R>)
    requires forall lo, hi, limit :: limit >= 0 ==> reader(lo, hi, limit) == Some(Serve(u, lo, hi, limit))
    ensures Honest(reader, u)
  {
    forall lo, hi, limit | limit >= 0 ensures Newest(Serve(u, lo, hi, limit), u, lo, hi, limit) {
      ServeIsNewest(u, lo, hi, limit);
    }
  }

  predicate Has<R>(u: map<int, R>, keys: seq<int>) { forall i :: 0 <= i < |keys| ==> keys[i] in u }

  lemma ServedRows<R(!new)>(u: map<int, R>, keys: seq<int>, rows: seq<R>)
    requires Has(u, keys) && |rows| == |keys|
    requires forall i :: 0 <= i < |rows| ==> rows[i] == u[keys[i]]
    ensures Members(keys) <= u.Keys && RowsAre(rows, u, Members(keys))
  {
    forall k | k in Members(keys) ensures k in u && u[k] in rows {
      var i :| 0 <= i < |keys| && keys[i] == k;
      assert rows[i] == u[k];
    }
    forall row | row in rows ensures exists k :: k in Members(keys) && u[k] == row {
      var i :| 0 <= i < |rows| && rows[i] == row;
      var k := keys[i];
      assert k in Members(keys) && u[k] == row;
    }
  }

  lemma ServeIsNewest<R(!new)>(u: map<int, R>, lo: int, hi: int, limit: nat)
    ensures Newest(Serve(u, lo, hi, limit), u, lo, hi, limit)
  {
    var all := KeysIn(u, lo, hi);
    var keys := LastKeys(all, limit);
    hide LastKeys, NewestKeys, Members;
    LastKeysAreNewest(all, limit);
    forall i | 0 <= i < |keys| ensures keys[i] in u {
      assert keys[i] in all;
    }
    ServedRows(u, keys, Serve(u, lo, hi, limit));
    hide Serve, RowsAre, KeysIn, Has;
    assert NewestKeys(Members(keys), all, limit) && RowsAre(Serve(u, lo, hi, limit), u, Members(keys));
  }

  /** When the limit covers the grid of the window, the newest rows are all of them. */
  lemma NewestIsAll<R(!new)>(rows: seq<R>, u: map<int, R>, openOf: R -> Option<int>, lo: int, hi: int, limit: int,
                             step: nat)
    requires step > 0 && Universe(u, openOf, step) && |Opens(lo, hi, step)| <= limit
    requires Newest(rows, u, lo, hi, limit)
    ensures RowsAre(rows, u, KeysIn(u, lo, hi))
  {
    var all := KeysIn(u, lo, hi);
    assert all <= Opens(lo, hi, step);
    var keys :| NewestKeys(keys, all, limit) && RowsAre(rows, u, keys);
    NewestAreAll(keys, all, limit, Opens(lo, hi, step));
  }
}
