// Values shared by every layer of the model: votes, signatures, validators.
//
// Cryptography is idealised: a signature carries the key that made it and the
// message it covers, and sign bytes are kept as the structured value they
// encode.  Both encodings are injective by construction.
module Types {
  import opened Arith

  datatype Option<+T> = None | Some(value: T)

  type ChainID = string
  type Peer = nat

  // Addresses stand for fixed-width byte strings in `bytes.Compare` order.
  // Address 0 is the empty string.
  type Address = nat
  type PubKey = nat

  // A key hashes to a non-empty address, and different keys to different ones.
  function AddressOf(key: PubKey): Address { key + 1 }

  // PartSetHeader: what one way of cutting a block into parts is known by.  A root
  // stands for a Merkle root; root 0 is the empty string.
  datatype PartsHeader = PartsHeader(total: int, root: nat)

  const NO_PARTS := PartsHeader(0, 0)

  // A block hash, possibly empty, and a part-set header; neither determines the other.
  datatype BlockID = NoHash(parts: PartsHeader) | Block(id: nat, parts: PartsHeader)
  {
    // Whether the hash is that of block `b`.
    predicate Names(b: nat) { Block? && id == b }
    predicate IsZero() { NoHash? && parts.total == 0 }
  }

  const NilBlock := NoHash(NO_PARTS)

  datatype VoteType = Prevote | Precommit | UnknownType

  datatype SignBytes =
    | VoteBytes(chain: ChainID, height: int, round: int, kind: VoteType, block: BlockID, time: int)
    | ProposalBytes(chain: ChainID, height: int, round: int, parts: PartsHeader,
                    polRound: int, polBlock: BlockID, time: int)

  datatype Signature = Signature(key: PubKey, msg: SignBytes, salt: nat)

  datatype Vote = Vote(addr: Address, index: int, height: int, round: int, time: int,
                       kind: VoteType, block: BlockID, sig: Signature)
  {
    function Bytes(chain: ChainID): SignBytes {
      VoteBytes(chain, height, round, kind, block, time)
    }

    predicate Verify(chain: ChainID, key: PubKey) {
      AddressOf(key) == addr && sig.key == key && sig.msg == Bytes(chain)
    }
  }

  datatype Validator = Validator(addr: Address, key: PubKey, power: Int64, accum: Int64)
}
