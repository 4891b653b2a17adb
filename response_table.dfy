/**
 * The client's table of responses, keyed by transaction identifier, and the
 * decision whether a caller has to wait for a response. The transport's
 * delivery path writes the table (one entry per delivered response); a caller
 * consults it before it suspends itself.
 */
module ResponseTable {
  import opened StunTypes

  type Table = map<TransactionId, StunMessage>

  /** One delivery from the transport: the request it answers and the response (or failure) received. */
  datatype Delivery = Delivery(request: StunMessage, response: StunMessage)

  /**
   * The table once `response` has been recorded for `request`: the entry for
   * the request's transaction identifier is `response`, whatever it held
   * before, and every other entry is as it was.
   */
  function Put(table: Table, request: StunMessage, response: StunMessage): (t: Table)
    ensures request.transactionId in t && t[request.transactionId] == response
    ensures t.Keys == table.Keys + {request.transactionId}
    ensures forall id :: id in table && id != request.transactionId ==> t[id] == table[id]
  {
    table[request.transactionId := response]
  }

  /** A caller with budget `waitTime` suspends itself for `request` only when it may wait and no response is recorded. */
  predicate ShouldWait(table: Table, request: StunMessage, waitTime: int64) {
    waitTime != 0 && request.transactionId !in table
  }

  /** The table after the transport delivered `deliveries`, in order. */
  function DeliverAll(table: Table, deliveries: seq<Delivery>): Table
    decreases |deliveries|
  {
    if deliveries == [] then table
    else
      var last := deliveries[|deliveries| - 1];
      Put(DeliverAll(table, deliveries[..|deliveries| - 1]), last.request, last.response)
  }

  /** The response of the last delivery that answers transaction `id`, if any does. */
  function LastResponseFor(deliveries: seq<Delivery>, id: TransactionId): Option<StunMessage>
    decreases |deliveries|
  {
    if deliveries == [] then None
    else if deliveries[|deliveries| - 1].request.transactionId == id then Some(deliveries[|deliveries| - 1].response)
    else LastResponseFor(deliveries[..|deliveries| - 1], id)
  }

  /** Whether some delivery answers transaction `id`. */
  predicate Answers(deliveries: seq<Delivery>, id: TransactionId) {
    exists k :: 0 <= k < |deliveries| && deliveries[k].request.transactionId == id
  }

  /** `LastResponseFor` finds a response exactly when some delivery answers `id`. */
  lemma {:induction false} LastResponseForFound(deliveries: seq<Delivery>, id: TransactionId)
    ensures LastResponseFor(deliveries, id).Some? <==> Answers(deliveries, id)
  {
    if deliveries != [] {
      var n := |deliveries| - 1;
      var front := deliveries[..n];
      LastResponseForFound(front, id);
      if deliveries[n].request.transactionId != id {
        if Answers(deliveries, id) {
          var k :| 0 <= k < |deliveries| && deliveries[k].request.transactionId == id;
          assert k < n && front[k] == deliveries[k];
        }
        if Answers(front, id) {
          var k :| 0 <= k < |front| && front[k].request.transactionId == id;
          assert deliveries[k] == front[k];
        }
      }
    }
  }

  /**
   * Correlation: the entry for `id` after a run of deliveries is the response
   * of the last delivery for `id`; deliveries for other transactions leave it
   * as it was, present or absent.
   */
  lemma {:induction false} DeliverAllLookup(table: Table, deliveries: seq<Delivery>, id: TransactionId)
    ensures id in DeliverAll(table, deliveries) <==> id in table || LastResponseFor(deliveries, id).Some?
    ensures LastResponseFor(deliveries, id).Some? ==>
              DeliverAll(table, deliveries)[id] == LastResponseFor(deliveries, id).value
    ensures LastResponseFor(deliveries, id).None? && id in table ==>
              DeliverAll(table, deliveries)[id] == table[id]
  {
    if deliveries != [] {
      DeliverAllLookup(table, deliveries[..|deliveries| - 1], id);
    }
  }

  /** A response delivered for one transaction never answers another. */
  lemma {:induction false} OtherDeliveriesDoNotAnswer(table: Table, deliveries: seq<Delivery>, id: TransactionId)
    requires !Answers(deliveries, id)
    ensures id in DeliverAll(table, deliveries) <==> id in table
    ensures id in table ==> DeliverAll(table, deliveries)[id] == table[id]
  {
    LastResponseForFound(deliveries, id);
    DeliverAllLookup(table, deliveries, id);
  }

  /**
   * No lost wakeup: once a response for the request has been delivered, a
   * caller never waits for it; a caller waits only when it has a non-zero
   * budget and no response for its transaction was ever recorded.
   */
  lemma {:induction false} NoLostWakeup(table: Table, deliveries: seq<Delivery>, request: StunMessage, waitTime: int64)
    ensures ShouldWait(DeliverAll(table, deliveries), request, waitTime)
        <==> waitTime != 0 && request.transactionId !in table && !Answers(deliveries, request.transactionId)
  {
    LastResponseForFound(deliveries, request.transactionId);
    DeliverAllLookup(table, deliveries, request.transactionId);
  }

  /** Recording a second response for the same transaction replaces the first. */
  lemma SecondResponseOverwrites(table: Table, request: StunMessage, first: StunMessage, second: StunMessage)
    ensures Put(Put(table, request, first), request, second) == Put(table, request, second)
  {
  }
}
