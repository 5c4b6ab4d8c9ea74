module Wrappers {
  datatype Option<+T> = None | Some(value: T)
}

/** Transactions, blocks and memos as values. JSON text is replaced by datatypes; a block hash
    and a transaction proof are replaced by what they are computed from. */
module Types {
  import opened Wrappers

  type Pid = int
  type Time = int

  /** The chain id that the relayers reserve for the relay chain. */
  const RELAY: Pid := 30000

  /** Other stands for any text that is none of the three names. */
  datatype ChainClass = Ethereum | Tendermint | Simple | Other(id: nat)

  /** The memo types that gateways look at; any other type is Ordinary. */
  datatype Kind = CtxSrc | CtxDst | CtxInter | CtxHdr | CtxDstL1 | Ordinary

  datatype TxStatus = Invalid | Created | Pending | Proposing | Success | Failed

  /** "send/..." for users, "proc/owner/dst/dst" for the connector of a gateway. */
  datatype Sender = User(name: string) | Gateway(owner: Pid, dst: Pid)

  datatype Header = Header(height: nat, txs: seq<Tx>)

  /** A SHA-256 digest in hexadecimal. */
  type Address = s: string | |s| == 64 && forall i | 0 <= i < |s| :: IsHexDigit(s[i])
    witness seq(64, _ => '0')

  predicate IsHexDigit(c: char) {
    '0' <= c <= '9' || 'a' <= c <= 'f'
  }

  /** What a user wants to deploy: something that cannot be unpickled, or pickled again; a contract
      whose `init` raises; or a contract, which goes to the given address. */
  datatype Code = Garbage | FailingInit | Contract(address: Address, data: string)

  /** The call in the address and data fields. SetKeys calls the key-value contract; Deploy has an
      empty address; NoContract calls an address at which nothing is deployed. Malformed is any
      other call of a contract that raises before it writes: an illegal function, a wrong number
      or type of arguments, no JSON; `text` is whether the error message can be encoded. All
      others call the light client. */
  datatype Call =
    | AppInit(dst: Pid, dstClass: ChainClass)
    | SetParaId(id: string)
    | SetParaType(paratype: ChainClass)
    | HeaderSync(pid: Pid, class_: ChainClass, height: nat, header: Header)
    | ValidateState(pid: Pid, class_: ChainClass, height: nat, state: Tx)
    | SetKeys
    | Malformed(text: bool)
    | Deploy(code: Code)
    | NoContract

  /** The part of a transaction that no chain changes. `text` is whether sender, address and data
      are texts that can be encoded, as hashing needs. `src` and `dst` are memo fields and -1
      when the memo has none. */
  datatype Item = Item(sender: Sender, call: Call, text: bool, kind: Kind, src: Pid, dst: Pid)

  datatype Tag = Listened | Ready | Send | OtherTag

  datatype Mark = Mark(tag: Tag, at: Time)

  /** What can be wrong with a memo that a user sends: an entry of "ts" that should be a list is
      none, or "dst" is no number. NoPutList also stands for a memo or a "ts" that is no dictionary. */
  datatype Flaw = NoPutList | NoGetList | NoCommitList | NoRelayerList | NoNumber

  /** The "ts" dictionary of a memo. `init` is None when it has none that is a number. */
  datatype Trace =
    Trace(init: Option<Time>, mpPut: seq<Time>, mpGet: seq<Time>, commit: seq<Time>, relayer: seq<Mark>, flaws: set<Flaw>)

  const NO_TRACE := Trace(None, [], [], [], [], {})

  datatype Out =
    | NoOut
    | HeaderStored(pid: Pid, height: nat)
    | StateStored(pid: Pid, height: nat, idx: nat)
    | MissingHeader(pid: Pid, height: nat)
    | NoParaType
    | NoDelay
    | Raised

  datatype Response = Response(code: nat, out: Out)

  datatype Tx = Tx(item: Item, trace: Trace, height: nat, status: TxStatus, out: Out)

  datatype Block = Block(height: nat, txs: seq<Tx>)

  function HeaderOf(b: Block): Header {
    Header(b.height, b.txs)
  }

  /** What Transaction.hash() covers: everything but the memo and the dynamic fields. */
  datatype TxId = TxId(sender: Sender, call: Call)

  function Id(item: Item): TxId {
    TxId(item.sender, item.call)
  }

  /** Transactions have the same hash exactly when sender, address and data agree, up to a collision. */
  lemma HashCovers(a: Item, b: Item)
    ensures Id(a) == Id(b) <==> a.sender == b.sender && a.call == b.call
  {
  }

  // ----- what ends a mining loop -----

  /** Executing the call raises outside the executor's exception handler. */
  predicate Crashes(call: Call) {
    call.NoContract? || (call.Deploy? && call.code.Garbage?)
  }

  /** Committing the transaction raises: its commit times are no list, it cannot be hashed, or its
      answer cannot be encoded. */
  predicate Unfit(tx: Tx) {
    NoCommitList in tx.trace.flaws || !tx.item.text || tx.item.call == Malformed(false)
  }

  predicate Sound(tx: Tx) {
    !Crashes(tx.item.call) && !Unfit(tx)
  }
}
