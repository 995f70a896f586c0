/** The read side of the `BlockStorage` trait of src/blockstorage.rs, over the
    three maps that `Storage` keeps: `lookup`, `find_head`, `find_balance`,
    `is_unspent`, and the chain walk `find_open` / `find_key` as functions. Block
    verification consults the ledger through these; class Ledger.Storage holds
    the maps and runs the walk as a loop. */
module BlockStore {
  import opened Wrappers
  import opened Types
  import opened Transactions

  /** A stored block and the balance its account holds right after it. */
  datatype Entry = Entry(tx: Transaction, balance: Balance)

  /** The state of `Storage`: `transactions`, `heads` and `unspent`. */
  datatype Store = Store(
    transactions: map<Hash, Entry>,
    heads: map<PubKey, Hash>,
    unspent: set<Hash>)

  function Lookup(s: Store, h: Hash): (r: Option<Transaction>)
    ensures r.Some? <==> h in s.transactions
    ensures r.Some? ==> r.value == s.transactions[h].tx
  {
    if h in s.transactions then Some(s.transactions[h].tx) else None
  }

  function FindHead(s: Store, k: PubKey): (r: Option<Hash>)
    ensures r.Some? <==> k in s.heads
    ensures r.Some? ==> r.value == s.heads[k]
  {
    if k in s.heads then Some(s.heads[k]) else None
  }

  /** The balance stored with a block; takes a block hash, but any 32 bytes
      type-check here, an account key included. */
  function FindBalance(s: Store, h: Hash): (r: Option<Balance>)
    ensures r.Some? <==> h in s.transactions
    ensures r.Some? ==> r.value == s.transactions[h].balance
  {
    if h in s.transactions then Some(s.transactions[h].balance) else None
  }

  /** `is_unspent`: membership in the `unspent` set. */
  predicate IsUnspent(s: Store, h: Hash)
    ensures IsUnspent(s, h) <==> h in s.unspent
  {
    h in s.unspent
  }

  /** Chain closure with a witness of acyclicity: every stored block's
      `previous` is stored, and has a smaller rank. Closure is what rules out the
      `unreachable!()` inside the walk; the rank makes the walk terminate. */
  ghost predicate Chained(s: Store, rank: map<Hash, nat>)
  {
    && s.transactions.Keys <= rank.Keys
    && forall h | h in s.transactions && s.transactions[h].tx.Previous().Some? ::
         && s.transactions[h].tx.Previous().value in s.transactions
         && rank[s.transactions[h].tx.Previous().value] < rank[h]
  }

  ghost predicate OpenStored(s: Store, o: OpenBlock)
  {
    exists g :: g in s.transactions && s.transactions[g].tx == Open(o)
  }

  /** `find_open`: the open block at the root of the chain through `h`. */
  function FindOpen(s: Store, ghost rank: map<Hash, nat>, h: Hash): (r: Option<OpenBlock>)
    requires Chained(s, rank)
    ensures r.Some? <==> h in s.transactions
    ensures h in s.transactions && s.transactions[h].tx.Open? ==> r == Some(s.transactions[h].tx.open)
    decreases if h in s.transactions then rank[h] else 0
  {
    match Lookup(s, h)
    case None => None
    case Some(Open(o)) => Some(o)
    case Some(tx) => FindOpen(s, rank, tx.Previous().value)
  }

  /** `find_key`: the account of that open block, the key that signs the chain. */
  function FindKey(s: Store, ghost rank: map<Hash, nat>, h: Hash): (r: Option<PubKey>)
    requires Chained(s, rank)
    ensures r.Some? <==> h in s.transactions
  {
    match FindOpen(s, rank, h)
    case None => None
    case Some(o) => Some(o.account)
  }

  /** The walk ends at a stored open block, so the key it yields is the account
      of an open block in the ledger. */
  lemma {:induction false} FindOpenIsStored(s: Store, rank: map<Hash, nat>, h: Hash)
    requires Chained(s, rank)
    requires h in s.transactions
    ensures OpenStored(s, FindOpen(s, rank, h).value)
    ensures exists o :: OpenStored(s, o) && o.account == FindKey(s, rank, h).value
    decreases rank[h]
  {
    var tx := s.transactions[h].tx;
    if !tx.Open? {
      FindOpenIsStored(s, rank, tx.Previous().value);
    }
    assert OpenStored(s, FindOpen(s, rank, h).value);
  }

  /** A block's chain has the same root as its predecessor's. */
  lemma FindOpenStep(s: Store, rank: map<Hash, nat>, h: Hash)
    requires Chained(s, rank)
    requires h in s.transactions && s.transactions[h].tx.Previous().Some?
    ensures FindOpen(s, rank, h) == FindOpen(s, rank, s.transactions[h].tx.Previous().value)
  {
  }

  /** Adding a block under a fresh hash leaves every existing chain's root alone. */
  lemma {:induction false} FindOpenFrame(s: Store, rank: map<Hash, nat>, s': Store, rank': map<Hash, nat>, h: Hash)
    requires Chained(s, rank) && Chained(s', rank')
    requires s.transactions.Keys <= s'.transactions.Keys
    requires forall g | g in s.transactions :: s'.transactions[g] == s.transactions[g]
    requires h in s.transactions
    ensures FindOpen(s', rank', h) == FindOpen(s, rank, h)
    decreases rank[h]
  {
    var tx := s.transactions[h].tx;
    if !tx.Open? {
      FindOpenFrame(s, rank, s', rank', tx.Previous().value);
    }
  }
}

/** The verification chains of src/transaction.rs. Each variant's `verify` runs
    its checks in a fixed order and returns the error of the first one that
    fails; it only reads the ledger. */
module Verification {
  import opened Wrappers
  import opened Errors
  import opened Types
  import opened Transactions
  import opened BlockStore

  /** One check of a verification chain and the error it reports. */
  datatype Check = Check(passes: bool, error: Failure)

  /** The reference semantics of a `?` chain: the first failing check decides. */
  function FirstFailure(checks: seq<Check>): (r: Result<(), Failure>)
    ensures r.Ok? <==> forall i | 0 <= i < |checks| :: checks[i].passes
    ensures r.Err? ==> exists i | 0 <= i < |checks| ::
      && !checks[i].passes && checks[i].error == r.error
      && forall j | 0 <= j < i :: checks[j].passes
  {
    if checks == [] then Ok(())
    else if !checks[0].passes then Err(checks[0].error)
    else
      var rest := FirstFailure(checks[1..]);
      assert forall i | 1 <= i < |checks| :: checks[i] == checks[1..][i - 1];
      rest
  }

  /** One step of `FirstFailure` along a check list: check `k` fails, or the
      rest decides. */
  lemma FirstFailureAt(checks: seq<Check>, k: nat)
    requires k < |checks|
    ensures FirstFailure(checks[k..]) ==
      (if checks[k].passes then FirstFailure(checks[k + 1..]) else Err(checks[k].error))
  {
    assert checks[k..][1..] == checks[k + 1..];
  }

  /** `FirstFailure` of a list of up to six checks, unrolled. */
  lemma FirstFailureUnrolled(checks: seq<Check>)
    requires 1 <= |checks| <= 6
    ensures FirstFailure(checks) ==
      if !checks[0].passes then Err(checks[0].error)
      else if |checks| == 1 then Ok(())
      else if !checks[1].passes then Err(checks[1].error)
      else if |checks| == 2 then Ok(())
      else if !checks[2].passes then Err(checks[2].error)
      else if |checks| == 3 then Ok(())
      else if !checks[3].passes then Err(checks[3].error)
      else if |checks| == 4 then Ok(())
      else if !checks[4].passes then Err(checks[4].error)
      else if |checks| == 5 then Ok(())
      else if !checks[5].passes then Err(checks[5].error)
      else Ok(())
  {
    assert checks[0..] == checks;
    assert checks[|checks|..] == [];
    FirstFailureAt(checks, 0);
    if 1 < |checks| { FirstFailureAt(checks, 1); }
    if 2 < |checks| { FirstFailureAt(checks, 2); }
    if 3 < |checks| { FirstFailureAt(checks, 3); }
    if 4 < |checks| { FirstFailureAt(checks, 4); }
    if 5 < |checks| { FirstFailureAt(checks, 5); }
  }

  /** The key and the block's signature parse, and the signature over the block's
      hash verifies under the key. */
  predicate SignedBy(c: Crypto, key: PubKey, tx: Transaction)
  {
    && c.publicKeyFromBytes(key)
    && c.signatureFromBytes(tx.SignatureValue())
    && c.ed25519Verify(key, HashOf(c, tx), tx.SignatureValue())
  }

  /** The block stored under `h` is a send to `key`. */
  predicate SendsTo(s: Store, h: Hash, key: PubKey)
  {
    && h in s.transactions
    && s.transactions[h].tx.Send?
    && s.transactions[h].tx.send.destination == key
  }

  /** `PublicKey::from_bytes`, `Signature::from_bytes`, then `verify`; any of the
      three failing is a `Signature` failure. */
  function CheckSignature(c: Crypto, key: PubKey, msg: Hash, sig: Signature): (r: Result<(), Failure>)
    ensures r.Ok? <==> c.publicKeyFromBytes(key) && c.signatureFromBytes(sig) && c.ed25519Verify(key, msg, sig)
    ensures r.Err? ==> r.error == Failure.Signature
  {
    if !c.publicKeyFromBytes(key) then Err(Failure.Signature)
    else if !c.signatureFromBytes(sig) then Err(Failure.Signature)
    else if c.ed25519Verify(key, msg, sig) then Ok(())
    else Err(Failure.Signature)
  }

  // Open: signature against its own account, work, then the source send.

  /** `verify_sig` of open: the signer is the account the block opens. */
  function OpenVerifySig(c: Crypto, o: OpenBlock): (r: Result<(), Failure>)
    ensures r.Ok? <==> SignedBy(c, o.account, Open(o))
    ensures r.Err? ==> r.error == Failure.Signature
  {
    CheckSignature(c, o.account, HashOf(c, Open(o)), o.signature)
  }

  /** `verify_parent` of open: the source must be a stored send to the account. */
  function OpenVerifyParent(s: Store, o: OpenBlock): (r: Result<(), Failure>)
    ensures r.Ok? <==> SendsTo(s, o.source, o.account)
    ensures r.Err? ==> r.error == (if o.source in s.transactions then Invalid else Missing)
  {
    var source :- Lookup(s, o.source).OkOr(Missing);
    match source
    case Send(sb) => if sb.destination != o.account then Err(Invalid) else Ok(())
    case _ => Err(Invalid)
  }

  function OpenChecks(c: Crypto, s: Store, o: OpenBlock): seq<Check>
  {
    [ Check(SignedBy(c, o.account, Open(o)), Failure.Signature),
      Check(VerifyWork(c, Open(o)).Ok?, Failure.Work),
      Check(o.source in s.transactions, Missing),
      Check(SendsTo(s, o.source, o.account), Invalid) ]
  }

  function VerifyOpen(c: Crypto, s: Store, o: OpenBlock): (r: Result<(), Failure>)
    ensures r == FirstFailure(OpenChecks(c, s, o))
  {
    FirstFailureUnrolled(OpenChecks(c, s, o));
    var _ :- OpenVerifySig(c, o);
    var _ :- VerifyWork(c, Open(o));
    OpenVerifyParent(s, o)
  }

  /** `verify_sig` of send, receive and change: the signer is the account of the
      chain's open block, found from `previous`; `Missing` if there is none. */
  function VerifyChainSig(c: Crypto, s: Store, ghost rank: map<Hash, nat>, tx: Transaction): (r: Result<PubKey, Failure>)
    requires Chained(s, rank)
    requires !tx.Open?
    ensures r.Ok? ==> FindKey(s, rank, tx.Previous().value) == Some(r.value) && SignedBy(c, r.value, tx)
  {
    var key :- FindKey(s, rank, tx.Previous().value).OkOr(Missing);
    var _ :- CheckSignature(c, key, HashOf(c, tx), tx.SignatureValue());
    Ok(key)
  }

  // Send: work, signer, then the balance check.

  /** `verify_balance` as written: the balance is looked up under the signer's
      account key, where `find_balance` expects a block hash. */
  function SendVerifyBalance(s: Store, sb: SendBlock, key: PubKey): (r: Result<(), Failure>)
    ensures r.Ok? <==> key in s.transactions && !s.transactions[key].balance.Below(sb.balance)
    ensures r.Err? ==> r.error == (if key in s.transactions then OverSend else Unreachable)
  {
    var bal :- FindBalance(s, key).OkOr(Unreachable);
    if sb.balance.Below(bal) || sb.balance == bal then Ok(()) else Err(OverSend)
  }

  function SendChecks(c: Crypto, s: Store, ghost rank: map<Hash, nat>, sb: SendBlock): seq<Check>
    requires Chained(s, rank)
  {
    var key := FindKey(s, rank, sb.previous);
    [ Check(VerifyWork(c, Send(sb)).Ok?, Failure.Work),
      Check(key.Some?, Missing),
      Check(key.Some? && SignedBy(c, key.value, Send(sb)), Failure.Signature),
      Check(key.Some? && key.value in s.transactions, Unreachable),
      Check(key.Some? && key.value in s.transactions && !s.transactions[key.value].balance.Below(sb.balance), OverSend) ]
  }

  function VerifySend(c: Crypto, s: Store, ghost rank: map<Hash, nat>, sb: SendBlock): (r: Result<(), Failure>)
    requires Chained(s, rank)
    ensures r == FirstFailure(SendChecks(c, s, rank, sb))
  {
    FirstFailureUnrolled(SendChecks(c, s, rank, sb));
    var _ :- VerifyWork(c, Send(sb));
    var key :- VerifyChainSig(c, s, rank, Send(sb));
    SendVerifyBalance(s, sb, key)
  }

  // Receive: work, signer, then the source send and its unspent status.

  /** `verify_parent` of receive: the source must be a stored send to the
      signer, and still unspent. */
  function ReceiveVerifyParent(s: Store, rb: ReceiveBlock, key: PubKey): (r: Result<(), Failure>)
    ensures r.Ok? <==> SendsTo(s, rb.source, key) && rb.source in s.unspent
    ensures r.Err? ==> r.error == (if rb.source !in s.transactions then Missing
                                   else if !SendsTo(s, rb.source, key) then Invalid
                                   else Received)
  {
    var source :- Lookup(s, rb.source).OkOr(Missing);
    match source
    case Send(sb) =>
      if sb.destination != key then Err(Invalid)
      else if IsUnspent(s, rb.source) then Ok(())
      else Err(Received)
    case _ => Err(Invalid)
  }

  function ReceiveChecks(c: Crypto, s: Store, ghost rank: map<Hash, nat>, rb: ReceiveBlock): seq<Check>
    requires Chained(s, rank)
  {
    var key := FindKey(s, rank, rb.previous);
    [ Check(VerifyWork(c, Receive(rb)).Ok?, Failure.Work),
      Check(key.Some?, Missing),
      Check(key.Some? && SignedBy(c, key.value, Receive(rb)), Failure.Signature),
      Check(rb.source in s.transactions, Missing),
      Check(key.Some? && SendsTo(s, rb.source, key.value), Invalid),
      Check(rb.source in s.unspent, Received) ]
  }

  function VerifyReceive(c: Crypto, s: Store, ghost rank: map<Hash, nat>, rb: ReceiveBlock): (r: Result<(), Failure>)
    requires Chained(s, rank)
    ensures r == FirstFailure(ReceiveChecks(c, s, rank, rb))
  {
    FirstFailureUnrolled(ReceiveChecks(c, s, rank, rb));
    var _ :- VerifyWork(c, Receive(rb));
    var key :- VerifyChainSig(c, s, rank, Receive(rb));
    ReceiveVerifyParent(s, rb, key)
  }

  // Change: signer first, then work.

  function ChangeChecks(c: Crypto, s: Store, ghost rank: map<Hash, nat>, cb: ChangeBlock): seq<Check>
    requires Chained(s, rank)
  {
    var key := FindKey(s, rank, cb.previous);
    [ Check(key.Some?, Missing),
      Check(key.Some? && SignedBy(c, key.value, Change(cb)), Failure.Signature),
      Check(VerifyWork(c, Change(cb)).Ok?, Failure.Work) ]
  }

  function VerifyChange(c: Crypto, s: Store, ghost rank: map<Hash, nat>, cb: ChangeBlock): (r: Result<(), Failure>)
    requires Chained(s, rank)
    ensures r == FirstFailure(ChangeChecks(c, s, rank, cb))
  {
    FirstFailureUnrolled(ChangeChecks(c, s, rank, cb));
    var _ :- VerifyChainSig(c, s, rank, Change(cb));
    VerifyWork(c, Change(cb))
  }

  /** `Transaction::verify`: dispatch on the variant. */
  function Verify(c: Crypto, s: Store, ghost rank: map<Hash, nat>, tx: Transaction): (r: Result<(), Failure>)
    requires Chained(s, rank)
    ensures r == FirstFailure(
      match tx
      case Open(o) => OpenChecks(c, s, o)
      case Send(sb) => SendChecks(c, s, rank, sb)
      case Receive(rb) => ReceiveChecks(c, s, rank, rb)
      case Change(cb) => ChangeChecks(c, s, rank, cb))
  {
    match tx
    case Open(o) => VerifyOpen(c, s, o)
    case Send(sb) => VerifySend(c, s, rank, sb)
    case Receive(rb) => VerifyReceive(c, s, rank, rb)
    case Change(cb) => VerifyChange(c, s, rank, cb)
  }

  /** Verification reports only check failures: never `Fork`, `Duplicate` or `ZeroSend`. */
  lemma VerifyErrors(c: Crypto, s: Store, rank: map<Hash, nat>, tx: Transaction)
    requires Chained(s, rank)
    ensures Verify(c, s, rank, tx).Err? ==>
      Verify(c, s, rank, tx).error in {Failure.Work, Failure.Signature, Missing, Invalid, Unreachable, OverSend, Received}
  {
    match tx {
      case Open(o) =>
        var checks := OpenChecks(c, s, o);
        assert forall i | 0 <= i < |checks| :: checks[i].error in {Failure.Work, Failure.Signature, Missing, Invalid, Unreachable, OverSend, Received};
      case Send(sb) =>
        var checks := SendChecks(c, s, rank, sb);
        assert forall i | 0 <= i < |checks| :: checks[i].error in {Failure.Work, Failure.Signature, Missing, Invalid, Unreachable, OverSend, Received};
      case Receive(rb) =>
        var checks := ReceiveChecks(c, s, rank, rb);
        assert forall i | 0 <= i < |checks| :: checks[i].error in {Failure.Work, Failure.Signature, Missing, Invalid, Unreachable, OverSend, Received};
      case Change(cb) =>
        var checks := ChangeChecks(c, s, rank, cb);
        assert forall i | 0 <= i < |checks| :: checks[i].error in {Failure.Work, Failure.Signature, Missing, Invalid, Unreachable, OverSend, Received};
    }
  }
}
