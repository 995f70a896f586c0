# A verified model of a block-lattice ledger

This project models the core of a small block-lattice ledger in Rust. Every
account owns a chain of blocks. Each block names its predecessor
(`previous`) by hash. Funds move through a send block on the sender's chain
and a matching open block (the first block of a new account) or receive block
on the recipient's chain. A change block re-delegates the representative.

The model has one file per part of the source:

- `types.dfy` (src/types.rs): the byte-string types, the little-endian views
  of `Work` and `Balance`, the work digest's `u64` reading and its threshold
  test, and `Balance` order, `+` and `-`. Module `Errors` declares the
  `Failure` kinds.
- `transaction.dfy` (src/transaction.rs): the four block variants, the field
  list each variant hashes, Blake2b hashing of those fields, the work element,
  and the work digest with its check.
- `blockstore.dfy` (src/blockstorage.rs and src/transaction.rs): two modules.
  - Module `BlockStore` holds the ledger's read operations (`lookup`,
    `find_head`, `find_balance`, `is_unspent`) and the chain walk
    `find_open` / `find_key`, as functions over the three maps.
  - Module `Verification` holds the per-variant verification chains. Each
    is stated twice: as the source's sequence of `?` steps, and as a list of
    checks whose first failure decides (`FirstFailure`). The two are proved
    equal.
- `ledger.dfy` (src/blockstorage.rs): class `Storage`.
  - The three maps are fields. `new` is the constructor. The `find_open` walk
    is a loop. `insert` verifies, derives, checks for a fork, then writes.
  - `Admit` and `Commit` state as functions of the ledger what `insert`
    decides and what it writes. The lemmas prove the ledger invariants
    `insert` keeps:
    - chains are closed and acyclic;
    - every head is a block of its own account;
    - every opened account has a head;
    - a block with a successor is no head;
    - no forks: no two stored blocks extend the same block, and no two stored
      open blocks open the same account, so each account's chain is a single
      path from one open block.
  - Further lemmas prove the fork rule and the consequences of the unspent
    set never being written.
- `legacy.dfy` (src/lib.rs): the earlier self-contained snapshot of the same
  design. It reuses the block datatypes and hashing, which are identical. It
  has its own work test (inverted), its own verification chains (no balance
  check, no unspent check) and a `find_open` that answers None on a missing
  link.
- `wrappers.dfy`: `Option` and `Result`, with `:-` propagation in the role of
  Rust's `?`.

Blake2b (RFC 7693) and the two signature schemes are not modelled. They are
uninterpreted functions held in a `Crypto` value, a parameter of the functions
and a constant of the class. The two signature schemes are distinct:

- the current code (src/transaction.rs) verifies with ed25519-dalek's
  Ed25519 instantiated with Blake2b in place of SHA-512, after parsing the key
  and the signature separately;
- the legacy code (src/lib.rs) verifies with ring's standard Ed25519
  (RFC 8032, SHA-512), which parses and checks in one call.

A signature valid under one scheme says nothing about the other. Blake2b
takes the concatenation of the parts fed to the streaming hasher. A
ghost rank on block hashes witnesses that chains are acyclic. The walk's
termination rests on it.

Two behaviours are modelled as the code has them:

- Send's `verify_balance` looks the signer's account key up with
  `find_balance`, where a block hash is expected (src/transaction.rs:181).
  `Ledger.SendBalanceLooksUpKey` and `Ledger.GenesisLedgerRejectsSends` state
  what follows. On the ledger `Storage::new` builds, no send is admitted
  unless the genesis block's hash equals its account key.
- The hashed element lists carry no variant tag.
  `Transactions.ReceiveAndChangeCanShareHash` shows a receive block and a
  change block that hash equal.

## Model

| member | source | states |
|---|---|---|
| Types.LeDecodeBound | src/types.rs:23-27 | the little-endian value of n bytes is below 256^n, so a work digest reads as a u64 |
| Types.LeDecodeEncode | src/types.rs:23-27 | writing a value below 256^len in len little-endian bytes and reading it back gives the value |
| Types.LeEncodeDecode | src/types.rs:23-27 | reading bytes and writing the value back in as many bytes gives the same bytes |
| Types.LeDecodeInjective | src/types.rs:23-27 | equal-length byte strings with the same little-endian value are equal |
| Types.WorkHash.ToU64 | src/types.rs:23-27 | `Into<u64>` is the little-endian reading of the 8 digest bytes, a u64 |
| Types.WorkHash.Verify | src/types.rs:19-21 | a digest passes iff its little-endian u64 reading is strictly above the threshold 0xffffffc000000000 |
| Types.WorkThresholdBits | src/types.rs:18-21 | a digest is accepted iff its top 26 bits are all ones and its low 38 bits are not all zero |
| Types.WorkThresholdBoundary | src/types.rs:18-21 | the comparison is strict: the threshold 0xffffffc000000000 itself is rejected and the next value accepted |
| Types.WorkBytesDecode | src/types.rs:10-14 | the 8-byte view of a nonce reads back as the nonce |
| Types.WorkBytesInjective | src/types.rs:10-14 | distinct nonces have distinct 8-byte views |
| Types.Balance.Plus | src/types.rs:37-42 | `+` is the numeric sum, defined only when it stays below 2^128 |
| Types.Balance.Minus | src/types.rs:44-49 | `-` is the numeric difference, defined only when the subtrahend is not larger |
| Types.BalanceOrder | src/types.rs:28-29 | the derived order on balances is a strict total order |
| Types.MinusPlus | src/types.rs:37-49 | (a - b) + b == a whenever b <= a |
| Types.BalanceBytesDecode | src/types.rs:31-35 | the 16-byte view of a balance reads back as the amount |
| Types.BalanceBytesInjective | src/types.rs:31-35 | distinct balances have distinct 16-byte views |
| Transactions.HashElements | src/transaction.rs:137-142 | each variant's element list (open here; send, receive and change at lines 190-195, 251-256, 290-295) has three, three, two and two fields, and fed to the hasher one after another they are exactly the variant's written-out input |
| Transactions.HashOf | src/transaction.rs:17-25 | a block's hash is Blake2b-32 of its element list fed element by element |
| Transactions.HashInputDeterminesLink | src/transaction.rs:137-142 | two blocks with the same hashed bytes are both open or both not, name the same account if open, and the same `previous` otherwise, whatever their variants, nonces and signatures |
| Transactions.HashIgnoresWorkAndSignature | src/transaction.rs:137-142 | blocks differing only in nonce and signature hash equal, for every variant |
| Transactions.HashInputDeterminesFields | src/transaction.rs:190-195 | within one variant, equal hashed bytes mean equal hashed fields (balance included), so only Blake2b can collide them |
| Transactions.ReceiveAndChangeCanShareHash | src/transaction.rs:251-256 | a receive and a change block with the same `previous` and source = representative have equal element lists and equal hashes |
| Transactions.WorkElement | src/transaction.rs:144-151 | the work element is the account for an open block and `previous` for the other three |
| Transactions.WorkCalculate | src/transaction.rs:51-67 | the digest for a candidate nonce is Blake2b-8 fed the nonce's bytes, then the block's work element |
| Transactions.WorkValidate | src/transaction.rs:51-64 | the block's own digest is Blake2b-8 fed the bytes of the nonce it carries, then its work element |
| Transactions.WorkInputLayout | src/transaction.rs:48-58 | a work digest is Blake2b-8 of 40 bytes: the nonce little-endian, then the work element |
| Transactions.VerifyWork | src/transaction.rs:36-43 | Ok iff the block's own digest read as u64 exceeds the threshold, otherwise `Work` |
| Transactions.WorkDependsOnlyOnElement | src/transaction.rs:61-68 | two blocks with the same nonce and work element pass or fail the work check together |
| Transactions.FoundWorkVerifies | src/transaction.rs:61-68 | a nonce that `work_calculate` accepts, put into the block, makes `verify_work` pass |
| BlockStore.Lookup | src/blockstorage.rs:115-117 | Some exactly for stored hashes, with the stored block |
| BlockStore.FindHead | src/blockstorage.rs:118-120 | Some exactly for accounts with a head, with that head |
| BlockStore.FindBalance | src/blockstorage.rs:121-123 | Some exactly for stored hashes, with the stored balance |
| BlockStore.IsUnspent | src/blockstorage.rs:124-126 | true exactly for hashes in the `unspent` set |
| BlockStore.FindOpen | src/blockstorage.rs:18-40 | on a closed, acyclic ledger: None iff the start is absent; a stored open block is its own root |
| BlockStore.FindKey | src/blockstorage.rs:14-16 | Some iff the start is stored |
| BlockStore.FindOpenIsStored | src/blockstorage.rs:18-40 | the walk ends at an open block stored in the ledger, so `find_key` yields the account of a stored open block |
| BlockStore.FindOpenStep | src/blockstorage.rs:26-34 | a block's chain has the same root as its predecessor's |
| BlockStore.FindOpenFrame | src/blockstorage.rs:169-171 | adding blocks under fresh hashes leaves the root of every existing chain unchanged |
| Verification.FirstFailure | src/transaction.rs:161-166 | a `?` chain is Ok iff every check passes, and otherwise fails with the error of a failing check all of whose predecessors pass |
| Verification.CheckSignature | src/transaction.rs:128-135 | Ok iff the key parses, the signature parses and the signature over the hash verifies; otherwise `Signature` |
| Verification.OpenVerifySig | src/transaction.rs:128-135 | Ok iff the block is signed by the account it opens; otherwise `Signature` |
| Verification.OpenVerifyParent | src/transaction.rs:116-127 | Ok iff the source is a stored send to the block's account; otherwise `Missing` when the source is absent and `Invalid` when it is present |
| Verification.VerifyOpen | src/transaction.rs:110-127 | open verification is the first failure of: signature under the block's own account, work, source present (`Missing`), source a send to the account (`Invalid`) |
| Verification.VerifyChainSig | src/transaction.rs:167-175 | on success the signer is the account at the root of `previous`'s chain and the block is signed by it |
| Verification.SendVerifyBalance | src/transaction.rs:176-187 | Ok iff the signer's key names a stored entry whose balance is not below the declared balance; otherwise `Unreachable` when there is no such entry and `OverSend` when there is |
| Verification.VerifySend | src/transaction.rs:161-187 | send verification is the first failure of: work, signer found (`Missing`), signature, the signer key stored as a block hash (`Unreachable`), declared balance not above that block's balance (`OverSend`) |
| Verification.ReceiveVerifyParent | src/transaction.rs:219-239 | Ok iff the source is a stored send to the signer and is unspent; otherwise `Missing` when absent, `Invalid` when not a send to the signer, `Received` when spent |
| Verification.VerifyReceive | src/transaction.rs:213-249 | receive verification is the first failure of: work, signer found, signature, source present, source a send to the signer (`Invalid`), source unspent (`Received`) |
| Verification.VerifyChange | src/transaction.rs:274-288 | change verification is the first failure of: signer found, signature, then work |
| Verification.Verify | src/transaction.rs:79-87 | `Transaction::verify` is the first failure of the block variant's check list |
| Verification.VerifyErrors | src/transaction.rs:79-87 | verification never reports `Fork`, `Duplicate` or `ZeroSend` |
| Ledger.SentAmount | src/blockstorage.rs:132-139 | Ok iff the source is a stored send whose `previous` is stored and whose balance is not above that block's; the amount is the difference; `Invalid` when the source is stored but no send, `Unreachable` otherwise |
| Ledger.DeriveAfterVerify | src/blockstorage.rs:130-165 | after a successful verification on a closed ledger, send and change blocks always derive; an open block derives iff its source send did not raise its balance; a receive block also needs its previous balance plus the amount to stay below 2^128; the only error is `Unreachable` |
| Ledger.Derive | src/blockstorage.rs:130-165 | per variant: open takes the sent amount, its account and no parent; receive takes the previous balance plus the sent amount; send takes the declared balance; change keeps the previous balance; the key is the root account of `previous`, the parent is `previous` |
| Ledger.Admit | src/blockstorage.rs:127-168 | a verification error is returned unchanged, and so is a derivation error after a successful verification; success iff verification and derivation succeed and the account's head equals the block's parent, with the derived values |
| Ledger.Commit | src/blockstorage.rs:169-171 | the block is stored under its hash with the derived balance, the account's head moves to it, and every other entry and `unspent` are unchanged |
| Ledger.GenesisConsistent | src/blockstorage.rs:82-96 | the ledger `new` builds satisfies every invariant |
| Ledger.AdmitNeedsHead | src/blockstorage.rs:166-168 | an admitted open names an account without a head, and any other admitted block's `previous` is some account's head |
| Ledger.StoredBlockRejected | src/blockstorage.rs:166-168 | a block whose hashed bytes equal those of a stored block fails: the same block again, the same block with another nonce or signature, or a change block laid out like a stored receive |
| Ledger.ResubmissionIsNoCollision | src/blockstorage.rs:169-170 | re-submitting a stored block with any nonce and signature is within what `insert` assumes of Blake2b |
| Ledger.AdmittedExtends | src/blockstorage.rs:166-168 | an admitted block is fresh, and opens an account without a head or extends the head of the account owning its predecessor |
| Ledger.CommitKeepsChains | src/blockstorage.rs:169-171 | a commit keeps every stored block's `previous` stored, and the chains acyclic |
| Ledger.CommitKeepsRoots | src/blockstorage.rs:169-171 | after a commit every old block has the same owning account, and the new block belongs to the derived account |
| Ledger.CommitKeepsHeadsOwned | src/blockstorage.rs:169-171 | after a commit every head is a stored block of the account it heads |
| Ledger.CommitKeepsHeadsAreTips | src/blockstorage.rs:169-171 | after a commit no block that has a successor is a head |
| Ledger.CommitKeepsNoForks | src/blockstorage.rs:166-171 | after a commit no two stored blocks extend the same block and no two stored open blocks open the same account |
| Ledger.CommitKeepsOpenedHeads | src/blockstorage.rs:169-171 | after a commit every opened account has a head |
| Ledger.CommitKeepsOwnHashes | src/blockstorage.rs:169-170 | the genesis ledger and every commit store each block under its own hash |
| Ledger.CommitKeepsConsistency | src/blockstorage.rs:169-171 | committing a block that extends the ledger keeps all five invariants: closed acyclic chains, owned heads, opened accounts with heads, heads as tips, and no forks |
| Ledger.ForkExactlyWhenHeadMoved | src/blockstorage.rs:166-168 | `insert` fails with `Fork` iff verification and derivation succeed and the account's head is not the block's parent |
| Ledger.OpenedAccountCannotReopen | src/blockstorage.rs:166-168 | a second open for an account that has a head is rejected |
| Ledger.SendOpenedAtMostOnce | src/transaction.rs:110-127 | although open never consults `unspent`, once an open for a send is committed every open naming the same source fails |
| Ledger.ReceiveRejectedWhileNothingUnspent | src/transaction.rs:234-238 | while `unspent` is empty every receive fails, with `Received` or an earlier check's error |
| Ledger.SendBalanceLooksUpKey | src/transaction.rs:176-187 | once work and signature pass, a send verifies only if the signer's key is also a stored block hash, and fails with `Unreachable` otherwise |
| Ledger.GenesisLedgerRejectsSends | src/transaction.rs:181 | on the ledger `new` builds, every send fails unless the genesis block's hash equals its account key |
| Ledger.Storage.constructor | src/blockstorage.rs:82-96 | `new` stores exactly the genesis open with its balance, maps its account to its hash, leaves `unspent` empty, and the invariants hold |
| Ledger.Storage.FindOpen | src/blockstorage.rs:18-40 | the loop returns what the chain walk specifies |
| Ledger.Storage.FindKey | src/blockstorage.rs:14-16 | returns the root account of the chain, Some iff the hash is stored |
| Ledger.Storage.DeriveStep | src/blockstorage.rs:130-165 | returns the derivation `Derive` specifies, with the key found by the loop |
| Ledger.Storage.AdmitStep | src/blockstorage.rs:128-168 | returns what `Admit` specifies and changes nothing |
| Ledger.Storage.CommitStep | src/blockstorage.rs:169-171 | the two writes: the new state is `Commit` of the old, and the invariants are kept |
| Ledger.Storage.Insert | src/blockstorage.rs:127-173 | keeps the invariants; on an admitted block returns Ok with the state `Commit` gives, and otherwise returns the error and changes nothing |
| Legacy.Lookup | src/lib.rs:368-370 | Some exactly for stored hashes, with the stored block |
| Legacy.FindHead | src/lib.rs:371-373 | Some exactly for accounts with a head, with that head |
| Legacy.FindOpen | src/lib.rs:344-359 | the legacy walk answers Some only from a stored start, and a stored open block is its own answer |
| Legacy.FindOpenIsStored | src/lib.rs:344-359 | whatever open block the legacy walk answers is stored in the ledger |
| Legacy.FindOpenAgrees | src/lib.rs:344-359 | on a ledger with closed chains the legacy walk and the current walk find the same open block |
| Legacy.FindOpenLoop | src/lib.rs:344-359 | the loop returns what the legacy walk specifies: None at the first missing link |
| Legacy.VerifyWork | src/lib.rs:75-82 | Ok iff the digest read as u64 is strictly below the threshold, otherwise `Work` |
| Legacy.WorkTestInverted | src/lib.rs:75-82 | no digest passes both work tests, and every digest except the threshold passes exactly one |
| Legacy.VerifySig | src/lib.rs:170-177 | Ok iff ring's standard Ed25519 (SHA-512) accepts the signature over the block hash under the key, a scheme distinct from the current code's; otherwise `Signature` |
| Legacy.ChainSig | src/lib.rs:268-280 | on success the signer is the account of the open block the walk finds from `previous`, and the block is signed by it |
| Legacy.VerifyParent | src/lib.rs:158-169 | Ok iff the source is a stored send to the key; otherwise `Missing` when it is absent and `Invalid` when present |
| Legacy.VerifyOpen | src/lib.rs:153-157 | open verification is the first failure of: signature, legacy work, source present, source a send to the account |
| Legacy.VerifySend | src/lib.rs:204-208 | send verification is the first failure of: legacy work, walk finds an open (`Missing`), signature; there is no balance check |
| Legacy.VerifyReceive | src/lib.rs:247-251 | receive verification is the first failure of: legacy work, walk, signature, source present, source a send to the signer; there is no unspent check |
| Legacy.VerifyChange | src/lib.rs:307-310 | change verification is the first failure of: walk, signature, then legacy work |
| Legacy.Verify | src/lib.rs:119-130 | the legacy `Transaction::verify` is, for each variant, the first failure of that variant's legacy check list |
| Legacy.VerifyErrors | src/lib.rs:119-130 | the legacy chains only report `Signature`, `Work`, `Missing` or `Invalid` |
| Legacy.SendVerifiesWithoutBalance | src/lib.rs:204-220 | a legacy send verifies iff its work is below the threshold and it is signed by the account the walk finds, whatever balance it declares |
| Legacy.CurrentBlocksFailLegacyChecks | src/lib.rs:75-82 | on a ledger with closed chains, every block the current rules verify fails the legacy rules, with `Work` or `Signature`: send and receive fail with `Work`; open and change fail with `Work` exactly when ring's scheme accepts their signature |

## Left out

- Blake2b and Ed25519 internals, and the parsing of keys and signatures, are foreign library calls. They are uninterpreted functions of a `Crypto` value.
- The nonce search `compute_work` (src/work.rs) is randomised and unbounded. It is left out; `Transactions.FoundWorkVerifies` states what its result is for.
- The test harness (src/tests.rs) uses real keys, nonces and hashes, which abstract crypto cannot reproduce. Its send-then-open scenario is what `Ledger.GenesisLedgerRejectsSends` is about.
- The genesis block, its balance and `Storage::new_test` come from a module that is not part of this model. Genesis block and balance are constructor parameters; `new_test` is `new` with other parameters.
- The commented-out `calculate_balance` (src/blockstorage.rs:48-71) is not code. `Blockchain::process` (src/lib.rs:396-405) is `unimplemented!()`. Neither is modelled.
- The `unsafe transmute` byte views of `Work` and `Balance` are modelled as little-endian encodings, as on a little-endian host. Memory reinterpretation is not modelled.
- The `&mut self` receivers are borrow mechanics only; there is no concurrency to model.
- Ledger.Storage.Insert: requires that when the new block's hash already names a stored block, the two were hashed from the same bytes. Only a true Blake2b collision (equal hashes of different bytes) is excluded. Re-submission with any nonce or signature, and a block of another variant with the same hashed bytes, are allowed, and fail.
- Ledger.Storage.Insert: the unconditional `panic!()` after the two writes (src/blockstorage.rs:172) is a leftover. The model returns success there.
- Ledger.Derive: a u128 underflow or overflow in the balance arithmetic (src/blockstorage.rs:139, 150-151) panics in a debug build and wraps in a release build. The model reports it as `Unreachable` and never wraps.
- BlockStore.FindOpen: the `unreachable!()` inside the walk (src/blockstorage.rs:32) is excluded by requiring closed, acyclic chains. `Ledger.Storage` keeps this as an invariant. The model does not capture what the source does on a broken ledger (a panic or an endless loop).
- Legacy.FindOpenLoop: requires the linked part of the legacy ledger to be acyclic. On a cycle of `previous` links the source loops forever, which the model does not capture.
- Ledger.Storage.Insert: the fact that every block is stored under its own hash is proved separately (`Ledger.CommitKeepsOwnHashes`). It is not part of the class invariant, because nothing `insert` decides depends on it.
- The failure kinds `Duplicate` and `ZeroSend` are declared but never raised, in the source as in the model.
