/**
  The `Block` record of blockchain.py: five stored fields, a hash derived
  from them, and the dictionary form `vars(block)` that `block_mining`
  hands out and `obtain_block_object` turns back into a block.
 */
module Blocks {
  import opened Wrappers

  /** One transaction record, the dict `{'sender': ..., 'recipient': ..., 'quantity': ...}`. */
  datatype Transaction = Transaction(sender: string, recipient: string, quantity: int)

  /**
    The `prev_hash` field: the integer `0` that genesis is built with, or the
    hex digest string of the predecessor that `block_mining` passes.
   */
  datatype PrevHash = Number(n: int) | Hex(digest: string)

  /** A block. Python timestamps are floats; they are reals here. */
  datatype Block = Block(index: int, proofNo: int, prevHash: PrevHash, data: seq<Transaction>, timestamp: real)

  /**
    `timestamp or time.time()`: an absent timestamp, and equally a zero one
    (zero is falsy), is replaced by the clock reading `now`.
   */
  function StoredTimestamp(timestamp: Option<real>, now: real): (t: real)
    ensures timestamp.Some? && timestamp.value != 0.0 ==> t == timestamp.value
    ensures timestamp.None? || timestamp.value == 0.0 ==> t == now
  {
    match timestamp
    case Some(given) => if given != 0.0 then given else now
    case None => now
  }

  /** The constructor `Block(index, proof_no, prev_hash, data, timestamp=None)`. */
  function MakeBlock(index: int, proofNo: int, prevHash: PrevHash, data: seq<Transaction>,
                     timestamp: Option<real>, now: real): (b: Block)
    ensures b.index == index && b.proofNo == proofNo && b.prevHash == prevHash && b.data == data
    ensures b.timestamp == StoredTimestamp(timestamp, now)
    ensures b.timestamp != 0.0 || now == 0.0
  {
    Block(index, proofNo, prevHash, data, StoredTimestamp(timestamp, now))
  }

  /**
    The two hashing collaborators, left abstract: `hashlib.sha256(text.encode()).hexdigest()`
    and the text `"{}{}{}{}{}".format(...)` of a block's five fields.
   */
  datatype Hasher = Hasher(sha256: string -> string, blockText: Block -> string)

  /** The property `calculate_hash`: the digest of the block's five-field text. */
  function CalculateHash(h: Hasher, b: Block): string {
    h.sha256(h.blockText(b))
  }

  /** The hash is fixed by the five stored fields: blocks that agree on them hash alike. */
  lemma HashDeterministic(h: Hasher, b1: Block, b2: Block)
    requires b1.index == b2.index && b1.proofNo == b2.proofNo && b1.prevHash == b2.prevHash
    requires b1.data == b2.data && b1.timestamp == b2.timestamp
    ensures CalculateHash(h, b1) == CalculateHash(h, b2)
  {
  }

  /** A value held in a block's dictionary form. */
  datatype Value =
    | IntValue(i: int)
    | StrValue(s: string)
    | FloatValue(f: real)
    | ListValue(transactions: seq<Transaction>)
    | NoneValue

  /** A block's dictionary form, keyed by attribute name. */
  type Record = map<string, Value>

  /** The attribute names `obtain_block_object` looks up, in the order it looks them up. */
  const BlockKeys: seq<string> := ["index", "proof_no", "prev_hash", "data", "timestamp"]

  /** What can go wrong when rehydrating a record. */
  datatype RecordError =
    | KeyError(key: string)   // the dict lookup `block_data[key]` fails
    | WrongType(key: string)  // the value is not of the type the field holds

  function PrevHashValue(p: PrevHash): Value {
    match p
    case Number(n) => IntValue(n)
    case Hex(d) => StrValue(d)
  }

  /** `vars(block)`: the block's attribute dictionary. */
  function Vars(b: Block): (r: Record)
    ensures r.Keys == set k | k in BlockKeys
  {
    map["index" := IntValue(b.index),
        "proof_no" := IntValue(b.proofNo),
        "prev_hash" := PrevHashValue(b.prevHash),
        "data" := ListValue(b.data),
        "timestamp" := FloatValue(b.timestamp)]
  }

  /** The first attribute name, in lookup order, that the record lacks. */
  function FirstMissingKey(r: Record, keys: seq<string>): (missing: Option<string>)
    ensures missing.None? <==> forall k :: k in keys ==> k in r
    ensures missing.Some? ==> missing.value !in r && exists i :: 0 <= i < |keys| && keys[i] == missing.value
                                                        && forall j :: 0 <= j < i ==> keys[j] in r
  {
    if keys == [] then None
    else if keys[0] !in r then Some(keys[0])
    else
      var rest := FirstMissingKey(r, keys[1..]);
      if rest.Some? then
        ghost var i :| 0 <= i < |keys[1..]| && keys[1..][i] == rest.value
          && forall j :: 0 <= j < i ==> keys[1..][j] in r;
        assert keys[i + 1] == rest.value;
        rest
      else rest
  }

  function AsPrevHash(v: Value): Option<PrevHash> {
    match v
    case IntValue(n) => Some(Number(n))
    case StrValue(d) => Some(Hex(d))
    case _ => None
  }

  /**
    The timestamp argument: a float or an int (held as its real value), or
    None (which the constructor replaces by the clock).
   */
  function AsTimestamp(v: Value): Option<Option<real>> {
    match v
    case FloatValue(t) => Some(Some(t))
    case IntValue(t) => Some(Some(t as real))
    case NoneValue => Some(None)
    case _ => None
  }

  /**
    `obtain_block_object(block_data)`: passes the five looked-up values to the
    Block constructor; a missing key raises `KeyError` for the first one missing.
   */
  function ObtainBlockObject(r: Record, now: real): (res: Result<Block, RecordError>)
    ensures res.Success? <==>
      && (forall k :: k in BlockKeys ==> k in r)
      && r["index"].IntValue? && r["proof_no"].IntValue? && AsPrevHash(r["prev_hash"]).Some?
      && r["data"].ListValue? && AsTimestamp(r["timestamp"]).Some?
    ensures res.Failure? && res.error.KeyError? ==> res.error.key in BlockKeys && res.error.key !in r
    ensures res.Failure? && res.error.KeyError? ==> FirstMissingKey(r, BlockKeys) == Some(res.error.key)
    ensures (forall k :: k in BlockKeys ==> k in r) ==> res.Success? || res.error.WrongType?
    ensures res.Success? ==>
      && res.value.index == r["index"].i && res.value.proofNo == r["proof_no"].i
      && res.value.prevHash == AsPrevHash(r["prev_hash"]).value && res.value.data == r["data"].transactions
      && res.value.timestamp == StoredTimestamp(AsTimestamp(r["timestamp"]).value, now)
  {
    match FirstMissingKey(r, BlockKeys)
    case Some(key) => Failure(KeyError(key))
    case None =>
      if !r["index"].IntValue? then Failure(WrongType("index"))
      else if !r["proof_no"].IntValue? then Failure(WrongType("proof_no"))
      else if AsPrevHash(r["prev_hash"]).None? then Failure(WrongType("prev_hash"))
      else if !r["data"].ListValue? then Failure(WrongType("data"))
      else if AsTimestamp(r["timestamp"]).None? then Failure(WrongType("timestamp"))
      else Success(MakeBlock(r["index"].i, r["proof_no"].i, AsPrevHash(r["prev_hash"]).value,
                             r["data"].transactions, AsTimestamp(r["timestamp"]).value, now))
  }

  /**
    Rehydrating `vars(b)` gives back `b` exactly when its timestamp survives
    `timestamp or time.time()`: a zero timestamp is replaced by the clock.
   */
  lemma RecordRoundTrip(b: Block, now: real)
    ensures ObtainBlockObject(Vars(b), now) == Success(b) <==> b.timestamp != 0.0 || now == 0.0
  {
  }

  /** For any block whose timestamp is non-zero, the rehydrated block hashes like the original. */
  lemma RecordRoundTripHash(h: Hasher, b: Block, now: real)
    requires b.timestamp != 0.0
    ensures ObtainBlockObject(Vars(b), now).Success?
    ensures CalculateHash(h, ObtainBlockObject(Vars(b), now).value) == CalculateHash(h, b)
  {
  }
}
