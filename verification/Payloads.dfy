/** Identifiers and signed payloads shared by the ledger, the stock and the action records. */
module Payloads {
  import opened Wrappers

  type CaseId = string
  type ActionId = string
  type Actor = string
  type Sku = string
  type OrderId = Option<string> // a case may have no order yet

  datatype Payload =
    | RefundPayload(order: OrderId, amount: nat, requiresReturn: bool)
    | ResendPayload(order: OrderId, sku: Sku, cost: nat)

  /** The idempotency key, named by the case and payload it is the digest of. */
  datatype Key = Key(caseId: CaseId, payload: Payload)
}
