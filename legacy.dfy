/** The earlier, self-contained snapshot of the ledger in src/lib.rs. Its block
    variants, field lists, hashing and work digest are those of module
    Transactions; what differs is the work test (inverted), the verification
    chains (no balance check, no unspent check, change checks the signature
    first) and a store without balances or an unspent set, whose `find_open`
    walk answers None on any missing link. */
module Legacy {
  import opened Wrappers
  import opened Errors
  import opened Types
  import opened Transactions
  import BlockStore
  import opened Verification

  /** The legacy `Storage`: blocks by hash and account heads, nothing else. */
  datatype LegacyStore = LegacyStore(transactions: map<Hash, Transaction>, heads: map<PubKey, Hash>)

  function Lookup(s: LegacyStore, h: Hash): (r: Option<Transaction>)
    ensures r.Some? <==> h in s.transactions
    ensures r.Some? ==> r.value == s.transactions[h]
  {
    if h in s.transactions then Some(s.transactions[h]) else None
  }

  function FindHead(s: LegacyStore, k: PubKey): (r: Option<Hash>)
    ensures r.Some? <==> k in s.heads
    ensures r.Some? ==> r.value == s.heads[k]
  {
    if k in s.heads then Some(s.heads[k]) else None
  }

  /** The blocks and heads of a current ledger, balances and `unspent` dropped. */
  function Project(s: BlockStore.Store): (r: LegacyStore)
    ensures r.transactions.Keys == s.transactions.Keys
    ensures forall h | h in s.transactions :: r.transactions[h] == s.transactions[h].tx
    ensures r.heads == s.heads
  {
    LegacyStore(map h | h in s.transactions :: s.transactions[h].tx, s.heads)
  }

  /** Acyclicity where chains are linked: a stored block whose `previous` is
      also stored ranks above it. Links may dangle. */
  ghost predicate Ranked(s: LegacyStore, rank: map<Hash, nat>)
  {
    && s.transactions.Keys <= rank.Keys
    && forall h | h in s.transactions && s.transactions[h].Previous().Some? && s.transactions[h].Previous().value in s.transactions ::
         rank[s.transactions[h].Previous().value] < rank[h]
  }

  /** `find_open`: the open block reached from `h` through `previous` links, or
      None as soon as a link is missing. */
  function FindOpen(s: LegacyStore, ghost rank: map<Hash, nat>, h: Hash): (r: Option<OpenBlock>)
    requires Ranked(s, rank)
    ensures r.Some? ==> h in s.transactions
    ensures h in s.transactions && s.transactions[h].Open? ==> r == Some(s.transactions[h].open)
    decreases if h in s.transactions then rank[h] + 1 else 0
  {
    match Lookup(s, h)
    case None => None
    case Some(Open(o)) => Some(o)
    case Some(tx) => FindOpen(s, rank, tx.Previous().value)
  }

  /** What the walk returns is an open block stored in the ledger. */
  lemma {:induction false} FindOpenIsStored(s: LegacyStore, rank: map<Hash, nat>, h: Hash)
    requires Ranked(s, rank)
    ensures FindOpen(s, rank, h).Some? ==> exists g :: g in s.transactions && s.transactions[g] == Open(FindOpen(s, rank, h).value)
    decreases if h in s.transactions then rank[h] + 1 else 0
  {
    if h in s.transactions && !s.transactions[h].Open? {
      FindOpenIsStored(s, rank, s.transactions[h].Previous().value);
    }
  }

  /** On a current ledger, whose chains are closed, the legacy walk and the
      current one find the same open block. */
  lemma {:induction false} FindOpenAgrees(s: BlockStore.Store, rank: map<Hash, nat>, h: Hash)
    requires BlockStore.Chained(s, rank)
    ensures Ranked(Project(s), rank)
    ensures FindOpen(Project(s), rank, h) == BlockStore.FindOpen(s, rank, h)
    decreases if h in s.transactions then rank[h] + 1 else 0
  {
    if h in s.transactions && !s.transactions[h].tx.Open? {
      FindOpenAgrees(s, rank, s.transactions[h].tx.Previous().value);
    }
  }

  /** The walk as the source runs it: a loop reassigning `hash`, then a second
      lookup of the open block found. */
  method FindOpenLoop(s: LegacyStore, ghost rank: map<Hash, nat>, h: Hash) returns (r: Option<OpenBlock>)
    requires Ranked(s, rank)
    ensures r == FindOpen(s, rank, h)
  {
    var hash := h;
    while true
      invariant FindOpen(s, rank, hash) == FindOpen(s, rank, h)
      decreases if hash in s.transactions then rank[hash] + 1 else 0
    {
      match Lookup(s, hash) {
        case Some(Open(_)) => break;
        case Some(Send(t)) => hash := t.previous;
        case Some(Receive(t)) => hash := t.previous;
        case Some(Change(t)) => hash := t.previous;
        case None => return None;
      }
    }
    r := Some(s.transactions[hash].open);
  }

  /** The legacy `verify_work`: Ok when the digest is strictly BELOW the
      threshold. */
  function VerifyWork(c: Crypto, tx: Transaction): (r: Result<(), Failure>)
    ensures r.Ok? <==> WorkValidate(c, tx).ToU64() < WORK_THRESHOLD
    ensures r.Err? ==> r.error == Failure.Work
  {
    if WorkValidate(c, tx).ToU64() < WORK_THRESHOLD then Ok(()) else Err(Failure.Work)
  }

  /** The legacy test is the inverse of the current one: no digest passes both,
      and every digest but the threshold itself passes exactly one. */
  lemma WorkTestInverted(c: Crypto, tx: Transaction)
    ensures VerifyWork(c, tx).Ok? ==> Transactions.VerifyWork(c, tx).Err?
    ensures VerifyWork(c, tx).Ok? <==>
      Transactions.VerifyWork(c, tx).Err? && WorkValidate(c, tx).ToU64() != WORK_THRESHOLD
  {
  }

  /** ring's Ed25519 (the standard scheme, with SHA-512) accepts the block's
      signature over its hash under `key`. */
  predicate RingSigned(c: Crypto, key: PubKey, tx: Transaction)
  {
    c.ringEd25519Verify(key, HashOf(c, tx), tx.SignatureValue())
  }

  /** ring's `signature::verify`: one call that parses the key and the
      signature and checks it; any failure is a `Signature` failure. */
  function VerifySig(c: Crypto, key: PubKey, tx: Transaction): (r: Result<(), Failure>)
    ensures r.Ok? <==> RingSigned(c, key, tx)
    ensures r.Err? ==> r.error == Failure.Signature
  {
    if c.ringEd25519Verify(key, HashOf(c, tx), tx.SignatureValue()) then Ok(()) else Err(Failure.Signature)
  }

  /** `verify_sig` of send, receive and change: the signer is the account of the
      open block the walk finds, `Missing` if it finds none. */
  function ChainSig(c: Crypto, s: LegacyStore, ghost rank: map<Hash, nat>, tx: Transaction): (r: Result<PubKey, Failure>)
    requires Ranked(s, rank) && !tx.Open?
    ensures r.Ok? ==> OpenOf(s, rank, tx).Some? && r.value == OpenOf(s, rank, tx).value.account
    ensures r.Ok? ==> RingSigned(c, r.value, tx)
  {
    var o :- FindOpen(s, rank, tx.Previous().value).OkOr(Missing);
    var _ :- VerifySig(c, o.account, tx);
    Ok(o.account)
  }

  /** The open block at the root of a non-open block's chain, if the walk finds one. */
  function OpenOf(s: LegacyStore, ghost rank: map<Hash, nat>, tx: Transaction): Option<OpenBlock>
    requires Ranked(s, rank) && !tx.Open?
  {
    FindOpen(s, rank, tx.Previous().value)
  }

  /** The source stored under `h` is a send to `key`. */
  predicate SendsTo(s: LegacyStore, h: Hash, key: PubKey)
  {
    h in s.transactions && s.transactions[h].Send? && s.transactions[h].send.destination == key
  }

  /** `verify_parent` of open and receive: `Missing` if the source is absent,
      `Invalid` unless it is a send to `key`. */
  function VerifyParent(s: LegacyStore, source: Hash, key: PubKey): (r: Result<(), Failure>)
    ensures r.Ok? <==> SendsTo(s, source, key)
    ensures r.Err? ==> r.error == (if source in s.transactions then Invalid else Missing)
  {
    var src :- Lookup(s, source).OkOr(Missing);
    match src
    case Send(sb) => if sb.destination != key then Err(Invalid) else Ok(())
    case _ => Err(Invalid)
  }

  function OpenChecks(c: Crypto, s: LegacyStore, o: OpenBlock): seq<Check>
  {
    [ Check(RingSigned(c, o.account, Open(o)), Failure.Signature),
      Check(VerifyWork(c, Open(o)).Ok?, Failure.Work),
      Check(o.source in s.transactions, Missing),
      Check(SendsTo(s, o.source, o.account), Invalid) ]
  }

  function SendChecks(c: Crypto, s: LegacyStore, ghost rank: map<Hash, nat>, sb: SendBlock): seq<Check>
    requires Ranked(s, rank)
  {
    var o := OpenOf(s, rank, Send(sb));
    [ Check(VerifyWork(c, Send(sb)).Ok?, Failure.Work),
      Check(o.Some?, Missing),
      Check(o.Some? && RingSigned(c, o.value.account, Send(sb)), Failure.Signature) ]
  }

  function ReceiveChecks(c: Crypto, s: LegacyStore, ghost rank: map<Hash, nat>, rb: ReceiveBlock): seq<Check>
    requires Ranked(s, rank)
  {
    var o := OpenOf(s, rank, Receive(rb));
    [ Check(VerifyWork(c, Receive(rb)).Ok?, Failure.Work),
      Check(o.Some?, Missing),
      Check(o.Some? && RingSigned(c, o.value.account, Receive(rb)), Failure.Signature),
      Check(rb.source in s.transactions, Missing),
      Check(o.Some? && SendsTo(s, rb.source, o.value.account), Invalid) ]
  }

  function ChangeChecks(c: Crypto, s: LegacyStore, ghost rank: map<Hash, nat>, cb: ChangeBlock): seq<Check>
    requires Ranked(s, rank)
  {
    var o := OpenOf(s, rank, Change(cb));
    [ Check(o.Some?, Missing),
      Check(o.Some? && RingSigned(c, o.value.account, Change(cb)), Failure.Signature),
      Check(VerifyWork(c, Change(cb)).Ok?, Failure.Work) ]
  }

  /** `OpenTransaction::verify`: signature, work, then the source send. */
  function VerifyOpen(c: Crypto, s: LegacyStore, o: OpenBlock): (r: Result<(), Failure>)
    ensures r == FirstFailure(OpenChecks(c, s, o))
  {
    FirstFailureUnrolled(OpenChecks(c, s, o));
    var _ :- VerifySig(c, o.account, Open(o));
    var _ :- VerifyWork(c, Open(o));
    VerifyParent(s, o.source, o.account)
  }

  /** `SendTransaction::verify`: work, then the signer. */
  function VerifySend(c: Crypto, s: LegacyStore, ghost rank: map<Hash, nat>, sb: SendBlock): (r: Result<(), Failure>)
    requires Ranked(s, rank)
    ensures r == FirstFailure(SendChecks(c, s, rank, sb))
  {
    FirstFailureUnrolled(SendChecks(c, s, rank, sb));
    var _ :- VerifyWork(c, Send(sb));
    var _ :- ChainSig(c, s, rank, Send(sb));
    Ok(())
  }

  /** `ReceiveTransaction::verify`: work, the signer, then the source send. */
  function VerifyReceive(c: Crypto, s: LegacyStore, ghost rank: map<Hash, nat>, rb: ReceiveBlock): (r: Result<(), Failure>)
    requires Ranked(s, rank)
    ensures r == FirstFailure(ReceiveChecks(c, s, rank, rb))
  {
    FirstFailureUnrolled(ReceiveChecks(c, s, rank, rb));
    var _ :- VerifyWork(c, Receive(rb));
    var key :- ChainSig(c, s, rank, Receive(rb));
    VerifyParent(s, rb.source, key)
  }

  /** `ChangeTransaction::verify`: the signer first, then work. */
  function VerifyChange(c: Crypto, s: LegacyStore, ghost rank: map<Hash, nat>, cb: ChangeBlock): (r: Result<(), Failure>)
    requires Ranked(s, rank)
    ensures r == FirstFailure(ChangeChecks(c, s, rank, cb))
  {
    FirstFailureUnrolled(ChangeChecks(c, s, rank, cb));
    var _ :- ChainSig(c, s, rank, Change(cb));
    VerifyWork(c, Change(cb))
  }

  /** `Transaction::verify` of src/lib.rs: dispatch on the variant. */
  function Verify(c: Crypto, s: LegacyStore, ghost rank: map<Hash, nat>, tx: Transaction): (r: Result<(), Failure>)
    requires Ranked(s, rank)
    ensures tx.Open? ==> r == FirstFailure(OpenChecks(c, s, tx.open))
    ensures tx.Send? ==> r == FirstFailure(SendChecks(c, s, rank, tx.send))
    ensures tx.Receive? ==> r == FirstFailure(ReceiveChecks(c, s, rank, tx.receive))
    ensures tx.Change? ==> r == FirstFailure(ChangeChecks(c, s, rank, tx.change))
  {
    match tx
    case Open(o) => VerifyOpen(c, s, o)
    case Send(sb) => VerifySend(c, s, rank, sb)
    case Receive(rb) => VerifyReceive(c, s, rank, rb)
    case Change(cb) => VerifyChange(c, s, rank, cb)
  }

  /** The legacy chains only ever report `Signature`, `Work`, `Missing` or
      `Invalid`: never `Received` (there is no unspent check), never `OverSend`
      (there is no balance check). */
  lemma VerifyErrors(c: Crypto, s: LegacyStore, rank: map<Hash, nat>, tx: Transaction)
    requires Ranked(s, rank)
    ensures Verify(c, s, rank, tx).Err? ==>
      Verify(c, s, rank, tx).error in {Failure.Signature, Failure.Work, Missing, Invalid}
  {
    match tx {
      case Open(o) =>
        var checks := OpenChecks(c, s, o);
        assert forall i | 0 <= i < |checks| :: checks[i].error in {Failure.Signature, Failure.Work, Missing, Invalid};
      case Send(sb) =>
        var checks := SendChecks(c, s, rank, sb);
        assert forall i | 0 <= i < |checks| :: checks[i].error in {Failure.Signature, Failure.Work, Missing, Invalid};
      case Receive(rb) =>
        var checks := ReceiveChecks(c, s, rank, rb);
        assert forall i | 0 <= i < |checks| :: checks[i].error in {Failure.Signature, Failure.Work, Missing, Invalid};
      case Change(cb) =>
        var checks := ChangeChecks(c, s, rank, cb);
        assert forall i | 0 <= i < |checks| :: checks[i].error in {Failure.Signature, Failure.Work, Missing, Invalid};
    }
  }

  /** A legacy send verifies on signer and work alone: its declared balance is
      never compared with anything in the ledger. */
  lemma SendVerifiesWithoutBalance(c: Crypto, s: LegacyStore, rank: map<Hash, nat>, sb: SendBlock)
    requires Ranked(s, rank)
    ensures Verify(c, s, rank, Send(sb)).Ok? <==>
      && VerifyWork(c, Send(sb)).Ok?
      && FindOpen(s, rank, sb.previous).Some?
      && RingSigned(c, FindOpen(s, rank, sb.previous).value.account, Send(sb))
  {
  }

  /** Every block the current ledger verifies, the legacy chains reject: the
      two work tests are disjoint, and on a current ledger the legacy walk finds
      the same signer. Send and receive test work first and fail with `Work`;
      open and change test ring's signature first, so they fail with `Work`
      exactly when ring also accepts the signature, and with `Signature`
      otherwise. */
  lemma CurrentBlocksFailLegacyChecks(c: Crypto, s: BlockStore.Store, rank: map<Hash, nat>, tx: Transaction)
    requires BlockStore.Chained(s, rank)
    requires Verification.Verify(c, s, rank, tx).Ok?
    ensures Ranked(Project(s), rank)
    ensures Verify(c, Project(s), rank, tx).Err?
    ensures Verify(c, Project(s), rank, tx).error in {Failure.Work, Failure.Signature}
    ensures tx.Send? || tx.Receive? ==> Verify(c, Project(s), rank, tx) == Err(Failure.Work)
    ensures tx.Open? ==>
      (Verify(c, Project(s), rank, tx) == Err(Failure.Work) <==> RingSigned(c, tx.open.account, tx))
    ensures tx.Change? ==>
      (Verify(c, Project(s), rank, tx) == Err(Failure.Work) <==>
         && BlockStore.FindKey(s, rank, tx.change.previous).Some?
         && RingSigned(c, BlockStore.FindKey(s, rank, tx.change.previous).value, tx))
  {
    FindOpenAgrees(s, rank, WorkElement(tx));
    if !tx.Open? {
      FindOpenAgrees(s, rank, tx.Previous().value);
    }
  }
}
