# A hash-linked proof-of-work ledger, modelled in Dafny

This project models `blockchain.py`, a small sequential ledger. It has two classes.

- `Block` holds five fields: `index`, `proof_no`, `prev_hash`, `data` and `timestamp`. Its hash is the SHA-256 hex digest of those fields' text.
- `Blockchain` owns three things:
  - the chain of blocks, which starts with a genesis block;
  - the pending transaction buffer `current_data`;
  - a set of node addresses.

  It also holds the proof-of-work puzzle, the linear proof search, the pairwise validity check, mining, and the rehydration of a block from its attribute dictionary.

Layout:

- `wrappers.dfy`: `Option`, `Result` and `Outcome`. They stand for the exceptions the Python code raises.
- `decimal.dfy` (module `Decimal`): Python's `str()` of an integer, used in the puzzle text `f'{last_proof}{proof}'`. A parser serves as its reference definition, and the round trip is proved.
- `block.dfy` (module `Blocks`): the `Block` record and the `timestamp or time.time()` rule. It also holds the abstract hash, `vars(block)`, and `obtain_block_object` with its `KeyError` path. Rehydration is proved to round-trip.
- `blockchain.dfy` (module `Ledger`): the puzzle predicate and the `proof_of_work` search, a loop proved to return the least solution. It also holds `check_validity`, the `Blockchain` class with its three fields, and the as-written variants of the two defective code paths. It ends with a client scenario: alice pays bob, then a block is mined for carol.

Collaborators are parameters:

- SHA-256 and the block's format string are the two fields of a `Hasher` value of functions. They are deterministic and otherwise unconstrained.
- The clock reading `time.time()` is a `now: real` argument.

Modelling choices:

- The puzzle text is `str(new proof)` followed by `str(previous proof)`. `proof_of_work` calls `verifying_proof(candidate, prev_proof)` (blockchain.py:84), and `verifying_proof` formats its first argument first (blockchain.py:92). `check_validity` passes `(block.proof_no, prev_block.proof_no)` in the same order.
- `latest_block` on an empty chain would raise `IndexError` (blockchain.py:99). The object invariant `Valid()` makes that case unreachable, since the constructor builds genesis and no operation removes blocks.
- A record missing a key raises `KeyError` for the first missing key in lookup order (blockchain.py:126-130).
- As written, `check_validity` raises `AttributeError` and `block_mining` raises `TypeError` (see Findings). The model uses the intended behaviour and keeps the as-written behaviour beside it.

## Model

| member | source | states |
|---|---|---|
| `Blocks.StoredTimestamp` | blockchain.py:18 | a given non-zero timestamp is kept; a missing or zero one (falsy) becomes the clock reading |
| `Blocks.MakeBlock` | blockchain.py:6-18 | the constructor stores index, proof, prev_hash and data as given, and the timestamp by the `timestamp or time.time()` rule; the stored timestamp is non-zero unless the clock read zero |
| `Blocks.CalculateHash` | blockchain.py:20-24 | no contract of its own: the digest of the block's text, both abstract; specified through `Blocks.HashDeterministic` |
| `Blocks.HashDeterministic` | blockchain.py:20-24 | blocks agreeing on the five stored fields have the same `calculate_hash` |
| `Blocks.Vars` | blockchain.py:116 | `vars(block)` has exactly the five attribute keys |
| `Blocks.FirstMissingKey` | blockchain.py:125-131 | returns a key the record lacks such that every key before it in lookup order is present; none exactly when all are present |
| `Blocks.ObtainBlockObject` | blockchain.py:123-131 | succeeds iff all five keys are present with field-shaped values; a KeyError names the first missing key in lookup order; on success the fields are the record's, with the timestamp rule applied |
| `Blocks.RecordRoundTrip` | blockchain.py:123-131 | rehydrating `vars(b)` yields `b` if and only if `b.timestamp` is non-zero or the clock reads zero |
| `Blocks.RecordRoundTripHash` | blockchain.py:20-24 | for a block with non-zero timestamp, the rehydrated block has the original's hash |
| `Decimal.NatToDecimal` | blockchain.py:92 | `str()` of a non-negative int: non-empty, all digits, no leading zero, one character exactly below 10 |
| `Decimal.IntToDecimal` | blockchain.py:92 | `str()` of an int has decimal shape and starts with '-' exactly for negatives |
| `Decimal.NatToDecimalRoundTrip` | blockchain.py:92 | reading back the digits of `str(n)` gives `n` |
| `Decimal.IntToDecimalRoundTrip` | blockchain.py:92 | parsing `str(n)` gives `n`, negatives included |
| `Decimal.IntToDecimalInjective` | blockchain.py:92 | distinct integers print differently; this holds operand by operand only, since the concatenated puzzle text is ambiguous (`Ledger.ProofTextAmbiguous`) |
| `Ledger.ProofText` | blockchain.py:92 | no contract of its own: `f'{last_proof}{proof}'`; specified through `Ledger.ProofTextSplits` |
| `Ledger.ProofTextSplits` | blockchain.py:92 | cut after the first operand's text, the puzzle text parses back to the two operands |
| `Ledger.ProofTextAmbiguous` | blockchain.py:92 | the pairs (1, 23) and (12, 3) give the same puzzle text "123" |
| `Ledger.Prefix4` | blockchain.py:94 | Python's `digest[:4]`: a prefix of the digest, of length four or the whole digest when shorter |
| `Ledger.HasProofPrefix` | blockchain.py:94 | `digest[:4] == "0000"` holds iff the digest has at least four characters and the first four are '0' |
| `Ledger.VerifyingProof` | blockchain.py:89-94 | no contract of its own: `HasProofPrefix` of the digest of the puzzle text; specified through `Ledger.VerifyingProofMeaning` and `Ledger.HasProofPrefix` |
| `Ledger.VerifyingProofMeaning` | blockchain.py:89-94 | a proof is accepted iff the digest of `str(last_proof) + str(proof)` has at least four characters and the first four are '0' |
| `Ledger.ProofOfWork` | blockchain.py:76-87 | the returned proof is a natural number that satisfies `verifying_proof(p, prev_proof)`, and no smaller natural number does |
| `Ledger.CheckValidity` | blockchain.py:49-64 | true iff index contiguity, strictly increasing timestamp, hash link to the predecessor and the proof predicate all hold |
| `Ledger.EqualTimestampsRejected` | blockchain.py:54-56 | two blocks with equal timestamps never check as valid |
| `Ledger.TamperedPredecessorRejected` | blockchain.py:57-59 | replacing a valid predecessor by one with a different recomputed hash makes the check fail |
| `Ledger.NumberPrevHashNeverLinks` | blockchain.py:57-59 | a block whose prev_hash is the integer form (genesis's `0`) never checks against any predecessor |
| `Ledger.CheckValidityAsWritten` | blockchain.py:60-62 | as written, the check either answers false or raises; it never answers true |
| `Ledger.CheckValidityAsWrittenNeverAccepts` | blockchain.py:49-64 | as written, no pair is accepted; every pair the intended check accepts raises AttributeError; it answers false exactly on the pairs that fail one of the first three tests |
| `Ledger.CheckValidityAsWrittenRaises` | blockchain.py:60 | a concrete linked pair that the intended check accepts and the written check raises on |
| `Ledger.FirstNotIn` | blockchain.py:102-106 | returns the first element not in the other list, and none exactly when every element is there |
| `Ledger.BindKeywords` | blockchain.py:102-106 | keyword binding passes iff keywords and parameters name the same set; an unexpected keyword or missing parameter is reported correctly |
| `Ledger.MiningRewardCallRejected` | blockchain.py:102-106 | `new_data(sender=, receiver=, quanntity=)` fails on `receiver`; the parameter names `recipient`, `quantity` bind |
| `Ledger.Blockchain.constructor` | blockchain.py:31-35 | a new ledger has exactly the genesis block (index 0, proof 0, prev_hash 0, no data), an empty buffer and no nodes |
| `Ledger.Blockchain.ConstructGenesis` | blockchain.py:37-39 | appends a block with proof 0 and prev_hash 0 at the next index, holding the drained buffer |
| `Ledger.Blockchain.ConstructBlock` | blockchain.py:41-46 | appends exactly one block, at index = old length, holding the old buffer; earlier blocks unchanged; buffer emptied; returns the new tip; keeps `chain[i].index == i` |
| `Ledger.Blockchain.NewData` | blockchain.py:66-73 | appends one `{sender, recipient, quantity}` record to the buffer, returns true, leaves chain and nodes unchanged |
| `Ledger.Blockchain.LatestBlock` | blockchain.py:96-99 | the tip is the last block and its index is the chain length minus one; always defined under the invariant |
| `Ledger.Blockchain.BlockMining` | blockchain.py:101-116 | chain grows by one; the new block holds the old buffer plus the reward ("0" to the miner, quantity 1), links to the old tip's hash, and carries the least proof for the old tip's proof; buffer empty; returns its `vars`; valid against the old tip when time advanced |
| `Ledger.Blockchain.BlockMiningAsWritten` | blockchain.py:101-106 | as written, mining raises TypeError for the keyword `receiver`; the ledger is unchanged |
| `Ledger.Blockchain.CreateNode` | blockchain.py:118-120 | adds the address to the node set (idempotent), returns true, leaves chain and buffer unchanged |
| `Ledger.MinedBlockIsValid` | blockchain.py:108-114 | a block built on the tip's hash with a solved proof and a later timestamp passes the pairwise check against the tip |

## Left out

- SHA-256 and hex encoding (blockchain.py:24, 93) are abstract functions in `Hasher`. Collision resistance is not modelled. So tamper detection is stated for a tampered block whose recomputed hash differs.
- The exact text `"{}{}{}{}{}".format(...)` of a block is not modelled. That covers Python's `str()` of a list of dicts and of a float. It is the abstract `Hasher.blockText`.
- `time.time()` is the `now` parameter. Float timestamps are Dafny reals, so rounding is not modelled.
- `__repr__` (blockchain.py:26-27) is a display helper and has no contract.
- `Ledger.ProofOfWork`: the source loops forever when no proof exists. The model requires that some natural number solves the puzzle; that solution bounds the loop. Divergence is not modelled.
- `Ledger.Blockchain.BlockMining`: this method requires a solution to exist, for the same reason as `ProofOfWork`.
- `Blocks.ObtainBlockObject`: Python does not check value types. The model's typed `Block` cannot hold a wrong-typed value, so it answers `WrongType` where Python would build an ill-typed block.
- `Blocks.ObtainBlockObject`: an integer timestamp such as `1700000000` is accepted and held as its real value. Python keeps the int, whose text in the hashed string differs from a float's; the block text is abstract, so that difference is not captured.
- `Blocks.Vars`, `Ledger.Blockchain.BlockMining`, `Blocks.ObtainBlockObject`: aliasing is not modelled. `vars(block)` (blockchain.py:116) is the block's live attribute dict, so writing to it or to its `data` list changes the block inside `chain`. `obtain_block_object` hands the record's `data` list to the new block (blockchain.py:129), so the two share one list. The model returns values, so these writes cannot reach the chain.
- Transaction fields are typed as (string, string, int). Python accepts any values.
- No whole-chain validity walk is modelled, because the source has none. Cancellation, locking, peer broadcast and persistence are not modelled either; the source has none of them.

## Findings

| source | as written | input that shows it | evidently intended | confidence | as-written member | corrected member |
|---|---|---|---|---|---|---|
| blockchain.py:60 | the fourth test calls `Blockchain.verify_proof`, which does not exist, so reaching it raises AttributeError and no pair is ever valid | genesis `Block(0, 0, 0, [], 1.0)` and `Block(1, 0, <genesis hash>, [], 2.0)` under a digest starting with "0000" | `verifying_proof(block.proof_no, prev_block.proof_no)`, the order `proof_of_work` uses | high, not executed | `Ledger.CheckValidityAsWrittenRaises` | `Ledger.CheckValidity` |
| blockchain.py:102-106 | `new_data` is called with `receiver=` and `quanntity=`, which match no parameter, so `block_mining` raises TypeError before queuing or appending anything | any call `block_mining("carol")` | the reward `("0", miner, 1)` is queued, then `construct_block` drains it into the new block | high, not executed | `Ledger.Blockchain.BlockMiningAsWritten` | `Ledger.Blockchain.BlockMining` |
