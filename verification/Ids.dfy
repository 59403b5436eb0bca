/** Identifiers. The source derives most of them by hashing their ingredients; a digest
    is modelled by the ingredients themselves, so ids are equal exactly when those are. */
module Ids {

  datatype Id =
    | Text(text: string)
    | PaperOrderId(idempotencyKey: string)
    | PaperFillId(orderId: Id, matchCount: nat, shares: nat, price: int)
    | AckEventId(ackOrder: Id, ackSequence: nat)
    | FillEventId(fillId: Id)
    | CancelEventId(cancelOrder: Id, cancelSequence: nat)
    | RejectEventId(rejectOrder: Id, rejectSequence: nat)
}
