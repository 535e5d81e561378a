/** The outbox table of either service: rows in `createdAt` order, and the query for a batch of pending ones. */
module OutboxTable {
  const MAX_RETRIES: nat := 5
  const BATCH_SIZE: nat := 10

  datatype Row<P> = Row(payload: P, processed: bool, retryCount: nat, failed: bool) {
    predicate Settled() { processed || failed }
  }

  function NewRow<P>(payload: P): Row<P> { Row(payload, false, 0, false) }

  /** One fetched row: its place in the table and the retry count it had when fetched. */
  datatype Fetched = Fetched(id: nat, retryCount: nat)

  /** The places of the first `limit` pending rows from place `i` on. */
  function PendingFrom<P>(rows: seq<Row<P>>, i: nat, limit: nat): (batch: seq<Fetched>)
    ensures |batch| <= limit
    decreases |rows| - i
  {
    if i >= |rows| || limit == 0 then []
    else if rows[i].Settled() then PendingFrom(rows, i + 1, limit)
    else [Fetched(i, rows[i].retryCount)] + PendingFrom(rows, i + 1, limit - 1)
  }

  function Fetch<P>(rows: seq<Row<P>>): seq<Fetched> { PendingFrom(rows, 0, BATCH_SIZE) }

  function Processed<P>(rows: seq<Row<P>>, id: nat): seq<Row<P>>
    requires id < |rows|
  {
    rows[id := rows[id].(processed := true)]
  }

  /** The write-back of a failure: one more than the count fetched, poisoned at the fifth. */
  function Retried<P>(rows: seq<Row<P>>, f: Fetched): seq<Row<P>>
    requires f.id < |rows|
  {
    rows[f.id := rows[f.id].(retryCount := f.retryCount + 1, failed := f.retryCount + 1 >= MAX_RETRIES)]
  }

  /** A fetched batch names pending rows in table order, and skips no pending row before its last. */
  lemma {:induction false} FetchIsInOrder<P>(rows: seq<Row<P>>, i: nat, limit: nat)
    ensures forall p {:trigger PendingFrom(rows, i, limit)[p]} :: 0 <= p < |PendingFrom(rows, i, limit)| ==>
              var f := PendingFrom(rows, i, limit)[p];
              i <= f.id < |rows| && !rows[f.id].Settled() && f.retryCount == rows[f.id].retryCount
    ensures forall p, q :: 0 <= p < q < |PendingFrom(rows, i, limit)| ==>
              PendingFrom(rows, i, limit)[p].id < PendingFrom(rows, i, limit)[q].id
    ensures forall p, k | 0 <= p < |PendingFrom(rows, i, limit)| && i <= k < PendingFrom(rows, i, limit)[p].id ::
              rows[k].Settled() || Fetched(k, rows[k].retryCount) in PendingFrom(rows, i, limit)[..p]
    decreases |rows| - i
  {
    var batch := PendingFrom(rows, i, limit);
    if i < |rows| && limit > 0 {
      if rows[i].Settled() {
        FetchIsInOrder(rows, i + 1, limit);
      } else {
        FetchIsInOrder(rows, i + 1, limit - 1);
        var rest := PendingFrom(rows, i + 1, limit - 1);
        forall p, k | 0 <= p < |batch| && i <= k < batch[p].id
          ensures rows[k].Settled() || Fetched(k, rows[k].retryCount) in batch[..p]
        {
          if k == i {
            assert batch[0] in batch[..p];
          } else {
            assert batch[p] == rest[p - 1] && batch[..p] == [batch[0]] + rest[..p - 1];
          }
        }
      }
    }
  }

  /** How many rows from place `i` up to place `k` are pending. */
  function PendingBetween<P>(rows: seq<Row<P>>, i: nat, k: nat): nat
    requires k <= |rows|
    decreases k - i
  {
    if i >= k then 0 else (if rows[i].Settled() then 0 else 1) + PendingBetween(rows, i + 1, k)
  }

  predicate NamedIn(batch: seq<Fetched>, k: nat) { exists p :: 0 <= p < |batch| && batch[p].id == k }

  lemma NamedFirst(f: Fetched, rest: seq<Fetched>, k: nat)
    ensures NamedIn([f] + rest, k) <==> f.id == k || NamedIn(rest, k)
  {
    var batch := [f] + rest;
    if f.id == k {
      assert batch[0].id == k;
    } else if NamedIn(rest, k) {
      var p :| 0 <= p < |rest| && rest[p].id == k;
      assert batch[p + 1].id == k;
    }
  }

  lemma {:induction false} PendingFromNames<P>(rows: seq<Row<P>>, i: nat, limit: nat, k: nat)
    requires i <= k < |rows|
    ensures NamedIn(PendingFrom(rows, i, limit), k) <==>
        !rows[k].processed && !rows[k].failed && PendingBetween(rows, i, k) < limit
    decreases |rows| - i
  {
    FetchIsInOrder(rows, i, limit);
    if limit > 0 && rows[i].Settled() {
      if i < k { PendingFromNames(rows, i + 1, limit, k); }
    } else if limit > 0 {
      NamedFirst(Fetched(i, rows[i].retryCount), PendingFrom(rows, i + 1, limit - 1), k);
      if i < k { PendingFromNames(rows, i + 1, limit - 1, k); }
    }
  }

  /** A row is in the batch exactly if it is pending and fewer than ten rows before it are. */
  lemma FetchNamesExactly<P>(rows: seq<Row<P>>, k: nat)
    requires k < |rows|
    ensures NamedIn(Fetch(rows), k) <==> !rows[k].processed && !rows[k].failed && PendingBetween(rows, 0, k) < 10
  {
    PendingFromNames(rows, 0, BATCH_SIZE, k);
  }
}
