/**
 * The JPA repositories behind the backend services, seen as a table from
 * generated ids to rows. Ids are handed out in increasing order, so every
 * stored id is below the next one; `findAll` lists the rows in id order.
 */
module Repository {

  /** The stored ids below `n`: each once, in increasing order. */
  function IdsBelow<E>(rows: map<nat, E>, n: nat): (ids: seq<nat>)
    ensures forall i :: 0 <= i < |ids| ==> ids[i] in rows && ids[i] < n
    ensures forall i, j :: 0 <= i < j < |ids| ==> ids[i] < ids[j]
    ensures forall k :: k in rows && k < n ==> k in ids
  {
    if n == 0 then []
    else
      var init := IdsBelow(rows, n - 1);
      if n - 1 in rows then init + [n - 1] else init
  }

  /** The rows whose ids are below `n`, one per stored id, in increasing id order. */
  function Below<E(==)>(rows: map<nat, E>, n: nat): (r: seq<E>)
    ensures |r| <= n
    ensures forall i :: 0 <= i < |r| ==> r[i] in rows.Values
  {
    if n == 0 then []
    else
      var init := Below(rows, n - 1);
      if n - 1 in rows then init + [rows[n - 1]] else init
  }

  /** The listing holds the row of each stored id below `n`, once, in increasing id order. */
  lemma {:induction false} BelowListsIdsInOrder<E>(rows: map<nat, E>, n: nat)
    ensures |Below(rows, n)| == |IdsBelow(rows, n)|
    ensures forall i :: 0 <= i < |Below(rows, n)| ==> Below(rows, n)[i] == rows[IdsBelow(rows, n)[i]]
  {
    if n > 0 {
      BelowListsIdsInOrder(rows, n - 1);
    }
  }

  /** Every stored row with an id below `n` is listed. */
  lemma {:induction false} BelowContains<E>(rows: map<nat, E>, n: nat, k: nat)
    requires k in rows && k < n
    ensures exists i :: 0 <= i < |Below(rows, n)| && Below(rows, n)[i] == rows[k]
  {
    var init := Below(rows, n - 1);
    if k == n - 1 {
      assert Below(rows, n)[|init|] == rows[k];
    } else {
      BelowContains(rows, n - 1, k);
      var i :| 0 <= i < |init| && init[i] == rows[k];
      assert Below(rows, n)[i] == rows[k];
    }
  }

  /** Rows stored at or above `n` do not affect the listing below `n`. */
  lemma {:induction false} BelowIgnoresHigher<E>(rows: map<nat, E>, n: nat, k: nat, e: E)
    requires n <= k
    ensures Below(rows[k := e], n) == Below(rows, n)
  {
    if n > 0 {
      BelowIgnoresHigher(rows, n - 1, k, e);
    }
  }

  /** A row stored under the next id is listed last. */
  lemma BelowAppend<E>(rows: map<nat, E>, n: nat, e: E)
    ensures Below(rows[n := e], n + 1) == Below(rows, n) + [e]
  {
    BelowIgnoresHigher(rows, n, n, e);
  }
}
