// The calls to the Lightning daemon whose effects matter, as a history of events.
// A call that returned an error leaves no event.
module Lnd {
  import opened Prelude
  import opened Bitcoin
  import opened Session

  datatype LndEvent =
    // SendOutputScript: coins locked in a transit output
    | SentOutput(side: Role, sat: int, script: Bytes, at: OutPoint)
    // ComputeInputScript: a witness over one input of a transaction
    | Signed(side: Role, tx: Tx, index: nat, key: Bytes, script: Bytes, sat: int, stack: seq<Bytes>)
    // SignOutputRaw plus the SIGHASH_ALL byte the service appends: a signature over input
    // 0, which spends an output of this value under this witness script
    | SignedRaw(side: Role, tx: Tx, key: Bytes, script: Bytes, sat: int, sig: Bytes)
    // OpenChannelWithShim acknowledged: the point asked for and the point returned
    | Opened(side: Role, expected: OutPoint, actual: PointText)
    // PublishTransaction called with a funding transaction
    | PublishedFunding(side: Role, tx: Tx)
    // PublishTransaction called with a fully signed orphan recovery
    | PublishedRecovery(side: Role, tx: Tx)
}
