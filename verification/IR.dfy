/** The transfer vocabulary of src/etha/comm/ir.py and transfer.py. */
module IR {

  /** How a chunk's bytes cross ranks; `NoWire` takes part in a reduction and ships nothing. */
  datatype Transport = P2P | Broadcast | Local | NoWire

  datatype ReduceOp = SumOp | AvgOp | MaxOp | MinOp | ProductOp

  /** A rank and one cell (multi-index) of its local grid. */
  datatype Endpoint = Endpoint(rank: nat, cell: seq<nat>)

  /** One source cell and every target cell it feeds. */
  datatype Route = Route(src: Endpoint, dsts: seq<Endpoint>, kind: Transport)

  /** A process-group handle and the operation reduced over it. */
  datatype PartialGroup = PartialGroup(group: nat, op: ReduceOp)

  /** Chunks with equal keys may share a bucket. */
  datatype BucketKey = BucketKey(
    srcRank: nat, dstRanks: seq<nat>, partialSig: seq<PartialGroup>, cellKey: seq<nat>, transport: Transport)
}
