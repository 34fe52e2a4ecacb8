/**
  The `Blockchain` class of blockchain.py: the proof-of-work puzzle and its
  search, the pairwise validity check, rehydration, and the ledger object
  that owns the chain, the pending transactions and the node addresses.
 */
module Ledger {
  import opened Wrappers
  import opened Decimal
  import opened Blocks

  /** The digest prefix a proof must produce: four leading hex zeros. */
  const ProofPrefix: string := "0000"

  /** The puzzle text `f'{last_proof}{proof}'`: the two integers' decimal texts, concatenated. */
  function ProofText(lastProof: int, proof: int): string {
    IntToDecimal(lastProof) + IntToDecimal(proof)
  }

  /**
    Cut where the first operand's text ends, the puzzle text reads back as
    the two operands; without that cut it can be ambiguous (ProofTextAmbiguous).
   */
  lemma ProofTextSplits(lastProof: int, proof: int)
    ensures var text, cut := ProofText(lastProof, proof), |IntToDecimal(lastProof)|;
            cut <= |text| && IsDecimalText(text[..cut]) && IsDecimalText(text[cut..])
            && ParseDecimal(text[..cut]) == lastProof && ParseDecimal(text[cut..]) == proof
  {
    var first, second := IntToDecimal(lastProof), IntToDecimal(proof);
    assert (first + second)[..|first|] == first && (first + second)[|first|..] == second;
    IntToDecimalRoundTrip(lastProof);
    IntToDecimalRoundTrip(proof);
  }

  /** Concatenation loses the boundary: the pairs (1, 23) and (12, 3) give the same puzzle text. */
  lemma ProofTextAmbiguous()
    ensures ProofText(1, 23) == ProofText(12, 3) == "123"
  {
  }

  /** Python's `digest[:4]`: the first four characters, or all of them when there are fewer. */
  function Prefix4(digest: string): (prefix: string)
    ensures |prefix| == if |digest| < 4 then |digest| else 4
    ensures prefix == digest[..|prefix|]
  {
    if |digest| < 4 then digest else digest[..4]
  }

  /** `guess_hash[:4] == "0000"`, which holds exactly when the digest starts with four zeros. */
  predicate HasProofPrefix(digest: string)
    ensures HasProofPrefix(digest) <==> |digest| >= 4 && forall i :: 0 <= i < 4 ==> digest[i] == '0'
  {
    Prefix4(digest) == ProofPrefix
  }

  /**
    `verifying_proof(last_proof, proof)`. Both callers, `proof_of_work` and
    `check_validity`, pass the NEW proof first and the previous one second.
   */
  predicate VerifyingProof(sha256: string -> string, lastProof: int, proof: int) {
    HasProofPrefix(sha256(ProofText(lastProof, proof)))
  }

  /** A proof is accepted exactly when the digest of the pair's text starts with four zeros. */
  lemma VerifyingProofMeaning(sha256: string -> string, lastProof: int, proof: int)
    ensures VerifyingProof(sha256, lastProof, proof) <==>
      var digest := sha256(IntToDecimal(lastProof) + IntToDecimal(proof));
      |digest| >= 4 && forall i :: 0 <= i < 4 ==> digest[i] == '0'
  {
  }

  /**
    `proof_of_work(prev_proof)`: tries 0, 1, 2, ... and returns the first
    candidate `p` with `verifying_proof(p, prev_proof)`. The search ends only
    if some candidate succeeds, which the caller must supply.
   */
  method ProofOfWork(sha256: string -> string, prevProof: int) returns (proofNo: nat)
    requires exists p: nat :: VerifyingProof(sha256, p, prevProof)
    ensures VerifyingProof(sha256, proofNo, prevProof)
    ensures forall q: nat :: q < proofNo ==> !VerifyingProof(sha256, q, prevProof)
  {
    ghost var solution: nat :| VerifyingProof(sha256, solution, prevProof);
    proofNo := 0;
    while !VerifyingProof(sha256, proofNo, prevProof)
      invariant proofNo <= solution
      invariant forall q: nat :: q < proofNo ==> !VerifyingProof(sha256, q, prevProof)
      decreases solution - proofNo
    {
      proofNo := proofNo + 1;
    }
  }

  /**
    `check_validity(block, prev_block)` with its fourth test calling the
    existing `verifying_proof(block.proof_no, prev_block.proof_no)`: the four
    tests in source order, each failing test answering false.
   */
  function CheckValidity(h: Hasher, block: Block, prevBlock: Block): (valid: bool)
    ensures valid <==>
      && prevBlock.index + 1 == block.index
      && prevBlock.timestamp < block.timestamp
      && block.prevHash == Hex(CalculateHash(h, prevBlock))
      && VerifyingProof(h.sha256, block.proofNo, prevBlock.proofNo)
  {
    if prevBlock.index + 1 != block.index then false
    else if prevBlock.timestamp >= block.timestamp then false
    else if Hex(CalculateHash(h, prevBlock)) != block.prevHash then false
    else if !VerifyingProof(h.sha256, block.proofNo, prevBlock.proofNo) then false
    else true
  }

  /** Equal timestamps are rejected, whatever the other fields hold. */
  lemma EqualTimestampsRejected(h: Hasher, block: Block, prevBlock: Block)
    requires block.timestamp == prevBlock.timestamp
    ensures !CheckValidity(h, block, prevBlock)
  {
  }

  /**
    Tamper detection: if the predecessor is replaced by a block whose
    recomputed hash differs, a successor that linked to the original no
    longer checks against the replacement.
   */
  lemma TamperedPredecessorRejected(h: Hasher, block: Block, prevBlock: Block, tampered: Block)
    requires CheckValidity(h, block, prevBlock)
    requires CalculateHash(h, tampered) != CalculateHash(h, prevBlock)
    ensures !CheckValidity(h, block, tampered)
  {
  }

  /** A predecessor with the integer `prev_hash` form can only be the start: nothing links by a number. */
  lemma NumberPrevHashNeverLinks(h: Hasher, block: Block, prevBlock: Block)
    requires block.prevHash.Number?
    ensures !CheckValidity(h, block, prevBlock)
  {
  }

  /** The errors the as-written code raises. */
  datatype PythonError =
    | AttributeError(name: string)
    | TypeError(call: CallError)

  /**
    `check_validity` as written: reaching the fourth test looks up
    `Blockchain.verify_proof`, an attribute the class does not have.
   */
  function CheckValidityAsWritten(h: Hasher, block: Block, prevBlock: Block): (r: Result<bool, PythonError>)
    ensures r.Success? ==> !r.value
  {
    if prevBlock.index + 1 != block.index then Success(false)
    else if prevBlock.timestamp >= block.timestamp then Success(false)
    else if Hex(CalculateHash(h, prevBlock)) != block.prevHash then Success(false)
    else Failure(AttributeError("verify_proof"))
  }

  /**
    As written, no pair is ever accepted: every pair the intended check
    accepts makes the written one raise, and the written one answers false
    exactly on the pairs that fail one of the first three tests.
   */
  lemma CheckValidityAsWrittenNeverAccepts(h: Hasher, block: Block, prevBlock: Block)
    ensures CheckValidityAsWritten(h, block, prevBlock) != Success(true)
    ensures CheckValidity(h, block, prevBlock) ==>
      CheckValidityAsWritten(h, block, prevBlock) == Failure(AttributeError("verify_proof"))
    ensures CheckValidityAsWritten(h, block, prevBlock).Success? <==>
      !(&& prevBlock.index + 1 == block.index
        && prevBlock.timestamp < block.timestamp
        && block.prevHash == Hex(CalculateHash(h, prevBlock)))
  {
  }

  /** A concrete pair on which the written check raises while the intended one accepts. */
  lemma CheckValidityAsWrittenRaises()
    ensures var h := Hasher(text => ProofPrefix, b => "");
            var genesis := Block(0, 0, Number(0), [], 1.0);
            var next := Block(1, 0, Hex(ProofPrefix), [], 2.0);
            CheckValidity(h, next, genesis)
            && CheckValidityAsWritten(h, next, genesis) == Failure(AttributeError("verify_proof"))
  {
  }

  /** A Python call's keyword arguments that do not fit the callee's parameters. */
  datatype CallError = UnexpectedKeyword(keyword: string) | MissingArgument(parameter: string)

  /** The first element of `xs` that `ys` does not contain. */
  function FirstNotIn(xs: seq<string>, ys: seq<string>): (r: Option<string>)
    ensures r.None? <==> forall x :: x in xs ==> x in ys
    ensures r.Some? ==> r.value !in ys && exists i :: 0 <= i < |xs| && xs[i] == r.value
                                                     && forall j :: 0 <= j < i ==> xs[j] in ys
  {
    if xs == [] then None
    else if xs[0] !in ys then Some(xs[0])
    else
      var rest := FirstNotIn(xs[1..], ys);
      if rest.Some? then
        ghost var i :| 0 <= i < |xs[1..]| && xs[1..][i] == rest.value && rest.value !in ys
          && forall j :: 0 <= j < i ==> xs[1..][j] in ys;
        assert xs[i + 1] == rest.value;
        rest
      else rest
  }

  /**
    Binding keyword arguments to a function's parameters, as Python does: the
    first keyword naming no parameter raises, then the first parameter left
    without an argument does.
   */
  function BindKeywords(parameters: seq<string>, keywords: seq<string>): (r: Outcome<CallError>)
    ensures r.Pass? <==> (forall k :: k in keywords ==> k in parameters)
                         && (forall p :: p in parameters ==> p in keywords)
    ensures r.Fail? && r.error.UnexpectedKeyword? ==>
      r.error.keyword in keywords && r.error.keyword !in parameters
    ensures r.Fail? && r.error.MissingArgument? ==>
      r.error.parameter in parameters && r.error.parameter !in keywords
  {
    match FirstNotIn(keywords, parameters)
    case Some(k) => Fail(UnexpectedKeyword(k))
    case None =>
      match FirstNotIn(parameters, keywords)
      case Some(p) => Fail(MissingArgument(p))
      case None => Pass
  }

  /** The parameters of `new_data`, after `self`. */
  const NewDataParameters: seq<string> := ["sender", "recipient", "quantity"]

  /** The keywords `block_mining` passes to `new_data`, as written. */
  const MiningRewardKeywords: seq<string> := ["sender", "receiver", "quanntity"]

  /** The reward call as written raises a TypeError naming `receiver`; with the parameter names it binds. */
  lemma MiningRewardCallRejected()
    ensures BindKeywords(NewDataParameters, MiningRewardKeywords) == Fail(UnexpectedKeyword("receiver"))
    ensures BindKeywords(NewDataParameters, NewDataParameters) == Pass
  {
  }

  /** The fixed sender and quantity of the mining reward. */
  const RewardSender: string := "0"
  const RewardQuantity: int := 1

  class Blockchain {
    var chain: seq<Block>
    var currentData: seq<Transaction>
    var nodes: set<string>

    /** Every block sits at the position its index names. */
    ghost predicate Indexed()
      reads this
    {
      forall i :: 0 <= i < |chain| ==> chain[i].index == i
    }

    /** The object invariant: genesis exists and every block is at its index. */
    ghost predicate Valid()
      reads this
    {
      |chain| >= 1 && Indexed()
    }

    /** `Blockchain()`: empty buffer and node set, and a genesis block built at time `now`. */
    constructor (now: real)
      ensures Valid()
      ensures chain == [Block(0, 0, Number(0), [], now)]
      ensures currentData == [] && nodes == {}
    {
      chain := [];
      currentData := [];
      nodes := {};
      new;
      ConstructGenesis(now);
    }

    /** `construct_genesis`: `construct_block(proof_no=0, prev_hash=0)`. */
    method ConstructGenesis(now: real)
      requires Indexed()
      modifies this
      ensures Indexed()
      ensures chain == old(chain) + [Block(|old(chain)|, 0, Number(0), old(currentData), now)]
      ensures currentData == [] && nodes == old(nodes)
    {
      var genesis := ConstructBlock(0, Number(0), now);
    }

    /**
      `construct_block(proof_no, prev_hash)`: builds the block at the next
      index from the pending buffer, empties the buffer, appends the block.
     */
    method ConstructBlock(proofNo: int, prevHash: PrevHash, now: real) returns (block: Block)
      requires Indexed()
      modifies this
      ensures Indexed()
      ensures block == Block(|old(chain)|, proofNo, prevHash, old(currentData), now)
      ensures chain == old(chain) + [block]
      ensures currentData == [] && nodes == old(nodes)
    {
      block := MakeBlock(|chain|, proofNo, prevHash, currentData, None, now);
      currentData := [];
      chain := chain + [block];
    }

    /** `new_data(sender, recipient, quantity)`: queues one transaction record. */
    method NewData(sender: string, recipient: string, quantity: int) returns (ok: bool)
      modifies this
      ensures ok
      ensures currentData == old(currentData) + [Transaction(sender, recipient, quantity)]
      ensures chain == old(chain) && nodes == old(nodes)
    {
      currentData := currentData + [Transaction(sender, recipient, quantity)];
      ok := true;
    }

    /** The property `latest_block`: the tip, whose index is one less than the chain's length. */
    function LatestBlock(): (tip: Block)
      reads this
      requires Valid()
      ensures tip == chain[|chain| - 1] && tip.index == |chain| - 1
    {
      chain[|chain| - 1]
    }

    /**
      `block_mining(details_miner)` with the reward call's keywords matching
      `new_data`: queue the reward, solve the puzzle on the tip's proof, and
      append a block linked to the tip's hash.
     */
    method BlockMining(h: Hasher, detailsMiner: string, now: real) returns (record: Record)
      requires Valid()
      requires exists p: nat :: VerifyingProof(h.sha256, p, LatestBlock().proofNo)
      modifies this
      ensures Valid()
      ensures |chain| == |old(chain)| + 1 && chain[..|old(chain)|] == old(chain)
      ensures var tip := old(chain)[|old(chain)| - 1];
              var block := chain[|chain| - 1];
              && block.index == |old(chain)|
              && block.data == old(currentData) + [Transaction(RewardSender, detailsMiner, RewardQuantity)]
              && block.prevHash == Hex(CalculateHash(h, tip))
              && block.timestamp == now
              && block.proofNo >= 0 && VerifyingProof(h.sha256, block.proofNo, tip.proofNo)
              && (forall q: nat :: q < block.proofNo ==> !VerifyingProof(h.sha256, q, tip.proofNo))
              && record == Vars(block)
              && (tip.timestamp < now ==> CheckValidity(h, block, tip))
      ensures currentData == [] && nodes == old(nodes)
    {
      var ok := NewData(RewardSender, detailsMiner, RewardQuantity);
      var lastBlock := LatestBlock();
      var lastProofNo := lastBlock.proofNo;
      var proofNo := ProofOfWork(h.sha256, lastProofNo);
      var lastHash := CalculateHash(h, lastBlock);
      var block := ConstructBlock(proofNo, Hex(lastHash), now);
      record := Vars(block);
    }

    /**
      `block_mining` as written: `new_data` is called with `receiver=` and
      `quanntity=`, which raises TypeError before anything is queued or
      appended. The method has no `modifies` clause: the ledger is untouched.
     */
    method BlockMiningAsWritten(detailsMiner: string) returns (r: Result<Record, PythonError>)
      ensures r == Failure(TypeError(UnexpectedKeyword("receiver")))
    {
      var binding := BindKeywords(NewDataParameters, MiningRewardKeywords);
      MiningRewardCallRejected();
      r := Failure(TypeError(binding.error));
    }

    /** `create_node(address)`: adds the address to the node set; adding it twice changes nothing. */
    method CreateNode(address: string) returns (ok: bool)
      modifies this
      ensures ok
      ensures nodes == old(nodes) + {address}
      ensures address in old(nodes) ==> nodes == old(nodes)
      ensures chain == old(chain) && currentData == old(currentData)
    {
      nodes := nodes + {address};
      ok := true;
    }
  }

  /**
    A block mined on top of `tip` at a later time, with a solved proof and
    the tip's hash as its link, passes the pairwise check against the tip.
   */
  lemma MinedBlockIsValid(h: Hasher, tip: Block, proofNo: int, data: seq<Transaction>, now: real)
    requires tip.timestamp < now
    requires VerifyingProof(h.sha256, proofNo, tip.proofNo)
    ensures CheckValidity(h, Block(tip.index + 1, proofNo, Hex(CalculateHash(h, tip)), data, now), tip)
  {
  }

  /**
    A client scenario: start a ledger, queue alice's payment to bob, mine for
    carol. With a digest that always starts with four zeros, the first
    candidate proof, 0, is accepted.
   */
  method MiningScenario()
  {
    var h := Hasher(text => ProofPrefix, b => "");
    var ledger := new Blockchain(1.0);
    var ok := ledger.NewData("alice", "bob", 5);
    assert VerifyingProof(h.sha256, 0, ledger.LatestBlock().proofNo);
    var record := ledger.BlockMining(h, "carol", 2.0);
    assert |ledger.chain| == 2;
    assert ledger.chain[1].data == [Transaction("alice", "bob", 5), Transaction("0", "carol", 1)];
    assert VerifyingProof(h.sha256, 0, ledger.chain[0].proofNo);
    assert ledger.chain[1].proofNo == 0;
    assert CheckValidity(h, ledger.chain[1], ledger.chain[0]);
    assert ledger.currentData == [];
  }
}
