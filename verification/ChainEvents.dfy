/** What the header service pushes. Hashes, roots and keys are opaque strings. */
module ChainEvents {

  type Height = nat

  datatype Header = Header(hash: string, root: string)

  datatype Outpoint = Outpoint(txid: string, vout: nat)

  datatype ChainEvent =
    | Tip(height: Height)
    | TipAge
    | Fork(height: Height)
    | Reorg(forkHeight: Height, deactivated: map<Height, Header>)
    | Invalidated(blockHash: string)
    | Frozen(outpoint: Outpoint)
    | Split(key: string, forkHeight: Height)
    | SplitResolved(key: string, forkHeight: Height)
}
