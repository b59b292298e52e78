/** Fulfilment of one item, derived from its execution and its receipts
    (backend/app/services/fulfillment.py). */
module Fulfillment {
  import opened Common
  import opened Procurement

  datatype FulfillmentStatus = Inactive | PendingPurchase | Purchased | PartiallyReceived | Fulfilled

  function StatusOf(item: Item, execution: Option<Execution>, received: nat): Result<FulfillmentStatus> {
    if !item.active then Ok(Inactive)
    else if execution.None? then Ok(PendingPurchase)
    else if !item.warehouse then
      if received != 0 then Err(FulfillmentInvariantViolation) else Ok(Fulfilled)
    else if received > execution.value.quantity then Err(FulfillmentInvariantViolation)
    else if received == execution.value.quantity then Ok(Fulfilled)
    else if received > 0 then Ok(PartiallyReceived)
    else Ok(Purchased)
  }

  function ValidateExecution(item: Item, execution: Option<Execution>): Outcome {
    if !item.active then Fail(InvalidRequestItem)
    else if execution.Some? && execution.value.request != item.request then Fail(FulfillmentInvariantViolation)
    else Pass
  }

  function ValidateReceipt(item: Item, execution: Execution, received: nat, quantity: nat): Outcome {
    if !item.warehouse then Fail(WarehouseNotRequired)
    else if execution.request != item.request then Fail(FulfillmentInvariantViolation)
    else if quantity == 0 then Fail(ValidationError)
    else if received + quantity > execution.quantity then Fail(OverReceipt)
    else Pass
  }

  predicate AllExecuted(items: seq<Item>, executions: seq<Execution>) {
    forall i :: i in Actives(items) ==> FindExecution(executions, i).Some?
  }

  /** Progress order of the derived status. */
  function Rank(status: FulfillmentStatus): nat {
    match status
    case Inactive => 0
    case PendingPurchase => 1
    case Purchased => 2
    case PartiallyReceived => 3
    case Fulfilled => 4
  }

  /** The derived status of item `i` of the aggregate, as get_detail shows it. */
  function ItemStatus(s: Aggregate, i: nat): Result<FulfillmentStatus>
    requires i < |s.items|
  {
    var e := FindExecution(s.executions, i);
    if e.None? then StatusOf(s.items[i], None, 0)
    else StatusOf(s.items[i], Some(s.executions[e.value]), Received(s.receipts, e.value))
  }
}
