/** The ledger storage engine of src/blockstorage.rs: class `Storage` with its
    three maps, the `find_open` walk as a loop, and `insert`, which verifies a
    block, derives its balance, owner and required parent, checks for a fork and
    commits. `Admit` and `Commit` state what `insert` does as functions of the
    ledger's state, and the lemmas below are about them. */
module Ledger {
  import opened Wrappers
  import opened Errors
  import opened Types
  import opened Transactions
  import opened BlockStore
  import opened Verification

  /** What `insert` derives for a block: the account balance after it, the
      account that owns it, and the head it must extend. */
  datatype Derived = Derived(balance: Balance, key: PubKey, parent: Option<Hash>)

  /** `source` names a stored send whose `previous` is stored too. */
  ghost predicate StoredSend(s: Store, source: Hash)
  {
    && source in s.transactions && s.transactions[source].tx.Send?
    && s.transactions[source].tx.send.previous in s.transactions
  }

  /** The balance before the stored send minus the balance it leaves behind,
      as an unbounded integer: negative when the send declared more than its
      predecessor held. */
  ghost function SendDelta(s: Store, source: Hash): int
    requires StoredSend(s, source)
  {
    s.transactions[s.transactions[source].tx.send.previous].balance.amount - s.transactions[source].balance.amount
  }

  /** The amount moved by the send stored under `source`: the balance at the
      send's `previous` minus the balance the send leaves behind. A u128
      underflow, a panic in the source, is reported as `Unreachable`. */
  function SentAmount(s: Store, source: Hash): (r: Result<Balance, Failure>)
    ensures r.Ok? <==> StoredSend(s, source) && SendDelta(s, source) >= 0
    ensures r.Ok? ==> r.value.amount == SendDelta(s, source)
    ensures r.Err? ==> r.error == (if source in s.transactions && !s.transactions[source].tx.Send? then Invalid
                                   else Unreachable)
  {
    var bal :- FindBalance(s, source).OkOr(Unreachable);
    var prev :- (match Lookup(s, source)
                 case None => Err(Unreachable)
                 case Some(Send(sb)) => Ok(sb.previous)
                 case Some(_) => Err(Invalid));
    var prevBal :- FindBalance(s, prev).OkOr(Unreachable);
    if prevBal.amount < bal.amount then Err(Unreachable)
    else Ok(prevBal.Minus(bal))
  }

  /** The derivation step of `insert`, per variant. */
  function Derive(s: Store, ghost rank: map<Hash, nat>, tx: Transaction): (r: Result<Derived, Failure>)
    requires Chained(s, rank)
    ensures r.Ok? ==> r.value.parent == tx.Previous()
    ensures r.Ok? && tx.Open? ==> r.value.key == tx.open.account
    ensures r.Ok? && !tx.Open? ==> FindKey(s, rank, tx.Previous().value) == Some(r.value.key)
    ensures r.Ok? && tx.Open? ==> SentAmount(s, tx.open.source) == Ok(r.value.balance)
    ensures r.Ok? && tx.Receive? ==>
      && SentAmount(s, tx.receive.source).Ok?
      && tx.receive.previous in s.transactions
      && r.value.balance.amount
         == s.transactions[tx.receive.previous].balance.amount + SentAmount(s, tx.receive.source).value.amount
    ensures r.Ok? && tx.Send? ==> r.value.balance == tx.send.balance
    ensures r.Ok? && tx.Change? ==> FindBalance(s, tx.change.previous) == Some(r.value.balance)
    ensures r.Err? ==> r.error in {Unreachable, Invalid}
  {
    match tx
    case Open(o) =>
      var amount :- SentAmount(s, o.source);
      Ok(Derived(amount, o.account, None))
    case Receive(rb) =>
      var gain :- SentAmount(s, rb.source);
      var prevBal :- FindBalance(s, rb.previous).OkOr(Unreachable);
      if prevBal.amount + gain.amount >= TWO_128 then Err(Unreachable)
      else
        var key := FindKey(s, rank, rb.previous);
        if key.None? then Err(Unreachable)
        else Ok(Derived(prevBal.Plus(gain), key.value, Some(rb.previous)))
    case Send(sb) =>
      var key :- FindKey(s, rank, sb.previous).OkOr(Unreachable);
      Ok(Derived(sb.balance, key, Some(sb.previous)))
    case Change(cb) =>
      var bal :- FindBalance(s, cb.previous).OkOr(Unreachable);
      var key := FindKey(s, rank, cb.previous);
      if key.None? then Err(Unreachable)
      else Ok(Derived(bal, key.value, Some(cb.previous)))
  }

  /** After a successful verification on a closed ledger every lookup of the
      derivation finds its entry: send and change blocks always derive, and open
      and receive blocks fail only on the u128 arithmetic, with `Unreachable`.
      The arithmetic can fail, because send verification compares the declared
      balance with an unrelated entry (`SendBalanceLooksUpKey`). */
  lemma DeriveAfterVerify(c: Crypto, s: Store, rank: map<Hash, nat>, tx: Transaction)
    requires Chained(s, rank)
    requires Verify(c, s, rank, tx).Ok?
    ensures Derive(s, rank, tx).Err? ==> Derive(s, rank, tx).error == Unreachable
    ensures tx.Send? || tx.Change? ==> Derive(s, rank, tx).Ok?
    ensures tx.Open? ==> StoredSend(s, tx.open.source)
    ensures tx.Open? ==> (Derive(s, rank, tx).Ok? <==> SendDelta(s, tx.open.source) >= 0)
    ensures tx.Receive? ==> StoredSend(s, tx.receive.source) && tx.receive.previous in s.transactions
    ensures tx.Receive? ==>
      (Derive(s, rank, tx).Ok? <==>
         && SendDelta(s, tx.receive.source) >= 0
         && s.transactions[tx.receive.previous].balance.amount + SendDelta(s, tx.receive.source) < TWO_128)
  {
    match tx
    case Open(o) =>
      assert OpenChecks(c, s, o)[3].passes;
      DeriveFromSource(s, rank, tx, o.source);
    case Send(sb) =>
      assert SendChecks(c, s, rank, sb)[1].passes;
      DeriveFromPrevious(s, rank, tx);
    case Receive(rb) =>
      assert ReceiveChecks(c, s, rank, rb)[1].passes;
      assert ReceiveChecks(c, s, rank, rb)[4].passes;
      DeriveFromSource(s, rank, tx, rb.source);
    case Change(cb) =>
      assert ChangeChecks(c, s, rank, cb)[0].passes;
      DeriveFromPrevious(s, rank, tx);
  }

  /** A send or change block whose `previous` is stored always derives. */
  lemma DeriveFromPrevious(s: Store, rank: map<Hash, nat>, tx: Transaction)
    requires Chained(s, rank)
    requires (tx.Send? || tx.Change?) && tx.Previous().value in s.transactions
    ensures Derive(s, rank, tx).Ok?
  {
  }

  /** The derivation of an open or receive block whose source is a stored send
      (and, for a receive, whose `previous` is stored): only the arithmetic can
      fail. */
  lemma DeriveFromSource(s: Store, rank: map<Hash, nat>, tx: Transaction, source: Hash)
    requires Chained(s, rank)
    requires tx.Open? || tx.Receive?
    requires source == (if tx.Open? then tx.open.source else tx.receive.source)
    requires source in s.transactions && s.transactions[source].tx.Send?
    requires tx.Receive? ==> tx.receive.previous in s.transactions
    ensures StoredSend(s, source)
    ensures Derive(s, rank, tx).Err? ==> Derive(s, rank, tx).error == Unreachable
    ensures tx.Open? ==> (Derive(s, rank, tx).Ok? <==> SendDelta(s, source) >= 0)
    ensures tx.Receive? ==>
      (Derive(s, rank, tx).Ok? <==>
         && SendDelta(s, source) >= 0
         && s.transactions[tx.receive.previous].balance.amount + SendDelta(s, source) < TWO_128)
  {
    assert s.transactions[source].tx.Previous().Some?;
  }

  /** Everything `insert` decides before it writes: verification, derivation and
      the fork check, each failing with its own error. */
  function Admit(c: Crypto, s: Store, ghost rank: map<Hash, nat>, tx: Transaction): (r: Result<Derived, Failure>)
    requires Chained(s, rank)
    ensures Verify(c, s, rank, tx).Err? ==> r == Err(Verify(c, s, rank, tx).error)
    ensures Verify(c, s, rank, tx).Ok? && Derive(s, rank, tx).Err? ==> r == Err(Derive(s, rank, tx).error)
    ensures r.Ok? <==> Verify(c, s, rank, tx).Ok? && Derive(s, rank, tx).Ok?
                       && FindHead(s, Derive(s, rank, tx).value.key) == tx.Previous()
    ensures r.Ok? ==> r == Derive(s, rank, tx)
  {
    var _ :- Verify(c, s, rank, tx);
    var d :- Derive(s, rank, tx);
    if FindHead(s, d.key) != d.parent then Err(Fork) else Ok(d)
  }

  /** The two writes of `insert`. */
  function Commit(c: Crypto, s: Store, tx: Transaction, d: Derived): (r: Store)
    ensures r.transactions.Keys == s.transactions.Keys + {HashOf(c, tx)}
    ensures r.transactions[HashOf(c, tx)] == Entry(tx, d.balance)
    ensures forall g | g in s.transactions && g != HashOf(c, tx) :: r.transactions[g] == s.transactions[g]
    ensures r.heads.Keys == s.heads.Keys + {d.key}
    ensures r.heads[d.key] == HashOf(c, tx)
    ensures forall k | k in s.heads && k != d.key :: r.heads[k] == s.heads[k]
    ensures r.unspent == s.unspent
  {
    Store(s.transactions[HashOf(c, tx) := Entry(tx, d.balance)],
          s.heads[d.key := HashOf(c, tx)],
          s.unspent)
  }

  /** The ledger right after `Storage::new`: the genesis open block alone. */
  function GenesisStore(c: Crypto, genesis: OpenBlock, balance: Balance): Store
  {
    var h := HashOf(c, Open(genesis));
    Store(map[h := Entry(Open(genesis), balance)], map[genesis.account := h], {})
  }

  /** Every block is stored under its own hash. */
  ghost predicate StoredUnderOwnHash(c: Crypto, s: Store)
  {
    forall h | h in s.transactions :: HashOf(c, s.transactions[h].tx) == h
  }

  /** Every head is a stored block of the account it is the head of. */
  ghost predicate HeadsOwned(s: Store, rank: map<Hash, nat>)
    requires Chained(s, rank)
  {
    forall k | k in s.heads :: s.heads[k] in s.transactions && FindKey(s, rank, s.heads[k]) == Some(k)
  }

  /** Every opened account has a head. */
  ghost predicate OpenedHaveHeads(s: Store)
  {
    forall h | h in s.transactions && s.transactions[h].tx.Open? :: s.transactions[h].tx.open.account in s.heads
  }

  /** A block that has a successor is no account's head. */
  ghost predicate HeadsAreTips(s: Store)
  {
    forall h | h in s.transactions && s.transactions[h].tx.Previous().Some? ::
      s.transactions[h].tx.Previous().value !in s.heads.Values
  }

  /** No forks: two distinct stored blocks never extend the same block, and
      two distinct stored open blocks never open the same account, so every
      account's chain is a single path starting at one open block. */
  ghost predicate NoForks(s: Store)
  {
    && (forall g, h | g in s.transactions && h in s.transactions && g != h
          && s.transactions[g].tx.Previous().Some? ::
          s.transactions[g].tx.Previous() != s.transactions[h].tx.Previous())
    && (forall g, h | g in s.transactions && h in s.transactions && g != h
          && s.transactions[g].tx.Open? && s.transactions[h].tx.Open? ::
          s.transactions[g].tx.open.account != s.transactions[h].tx.open.account)
  }

  /** The invariants the ledger keeps: chains are closed and acyclic, and the
      four properties above. That blocks are stored under their own hash
      is kept by every commit too (`CommitKeepsOwnHashes`), but nothing `insert`
      decides depends on it. */
  ghost predicate Consistent(s: Store, rank: map<Hash, nat>)
  {
    && Chained(s, rank)
    && HeadsOwned(s, rank)
    && OpenedHaveHeads(s)
    && HeadsAreTips(s)
    && NoForks(s)
  }

  /** Blake2b collision resistance, as far as `insert` relies on it: if the new
      block's hash already names a stored block, Blake2b was fed the same bytes
      for both. The two blocks may still differ in nonce, signature or variant. */
  predicate NoCollision(c: Crypto, s: Store, tx: Transaction)
  {
    HashOf(c, tx) in s.transactions ==> HashInput(s.transactions[HashOf(c, tx)].tx) == HashInput(tx)
  }

  /** Re-submitting a stored block with any nonce and signature is not a
      collision, so `insert` accepts it as input (and rejects it). */
  lemma ResubmissionIsNoCollision(c: Crypto, s: Store, tx: Transaction, w: Work, sig: Signature)
    requires HashOf(c, tx) in s.transactions && s.transactions[HashOf(c, tx)].tx == tx
    ensures NoCollision(c, s, tx.WithWorkAndSignature(w, sig))
  {
    HashIgnoresWorkAndSignature(c, tx, w, sig);
  }

  /** The rank the new block gets: one more than its predecessor's. */
  ghost function RankAfter(c: Crypto, s: Store, rank: map<Hash, nat>, tx: Transaction): map<Hash, nat>
  {
    var p := tx.Previous();
    rank[HashOf(c, tx) := if p.Some? && p.value in rank then rank[p.value] + 1 else 0]
  }

  lemma GenesisConsistent(c: Crypto, genesis: OpenBlock, balance: Balance)
    ensures Consistent(GenesisStore(c, genesis, balance), map[HashOf(c, Open(genesis)) := 0])
  {
    var s := GenesisStore(c, genesis, balance);
    var h := HashOf(c, Open(genesis));
    var rank := map[h := 0];
    assert FindKey(s, rank, h) == Some(genesis.account);
  }

  /** What admission needs of the heads: an open block's account has none yet,
      and any other block's parent is its account's head. */
  lemma AdmitNeedsHead(c: Crypto, s: Store, rank: map<Hash, nat>, tx: Transaction)
    requires Chained(s, rank)
    requires Admit(c, s, rank, tx).Ok?
    ensures tx.Open? ==> tx.open.account !in s.heads
    ensures !tx.Open? ==> tx.Previous().value in s.heads.Values
  {
    var d := Derive(s, rank, tx).value;
    if !tx.Open? {
      assert s.heads[d.key] == tx.Previous().value;
    }
  }

  /** A block whose hashed bytes equal those of a stored block fails: a
      re-submitted block, with the same or another nonce or signature, and a
      change block shaped like a stored receive. Its account already has a
      head (open), or its parent already has a successor (the others). */
  lemma StoredBlockRejected(c: Crypto, s: Store, rank: map<Hash, nat>, tx: Transaction, g: Hash)
    requires Consistent(s, rank)
    requires g in s.transactions && HashInput(s.transactions[g].tx) == HashInput(tx)
    ensures Admit(c, s, rank, tx).Err?
  {
    HashInputDeterminesLink(s.transactions[g].tx, tx);
    if Admit(c, s, rank, tx).Ok? {
      AdmitNeedsHead(c, s, rank, tx);
    }
  }

  /** What committing relies on: the block is fresh, and it either opens an
      account that has no head yet or extends the current head of the account
      that owns its predecessor. */
  ghost predicate Extends(c: Crypto, s: Store, rank: map<Hash, nat>, tx: Transaction, d: Derived)
  {
    && Chained(s, rank)
    && HashOf(c, tx) !in s.transactions
    && (tx.Open? ==> d.key == tx.open.account && d.key !in s.heads)
    && (!tx.Open? ==>
          && tx.Previous().value in s.transactions
          && FindKey(s, rank, tx.Previous().value) == Some(d.key)
          && FindHead(s, d.key) == tx.Previous())
  }

  lemma CommitKeepsChains(c: Crypto, s: Store, rank: map<Hash, nat>, tx: Transaction, d: Derived)
    requires Extends(c, s, rank, tx, d)
    ensures Chained(Commit(c, s, tx, d), RankAfter(c, s, rank, tx))
  {
    var h := HashOf(c, tx);
    var s' := Commit(c, s, tx, d);
    var rank' := RankAfter(c, s, rank, tx);
    forall g | g in s'.transactions && s'.transactions[g].tx.Previous().Some?
      ensures s'.transactions[g].tx.Previous().value in s'.transactions
      ensures rank'[s'.transactions[g].tx.Previous().value] < rank'[g]
    {
      if g != h {
        assert s'.transactions[g] == s.transactions[g];
      }
    }
  }

  /** After the commit every old block has the same chain root, and the new
      block belongs to the derived account. */
  lemma CommitKeepsRoots(c: Crypto, s: Store, rank: map<Hash, nat>, tx: Transaction, d: Derived,
                         s': Store, rank': map<Hash, nat>)
    requires Extends(c, s, rank, tx, d)
    requires s' == Commit(c, s, tx, d) && rank' == RankAfter(c, s, rank, tx) && Chained(s', rank')
    ensures forall g | g in s.transactions :: FindKey(s', rank', g) == FindKey(s, rank, g)
    ensures FindKey(s', rank', HashOf(c, tx)) == Some(d.key)
  {
    forall g | g in s.transactions
      ensures FindKey(s', rank', g) == FindKey(s, rank, g)
    {
      FindOpenFrame(s, rank, s', rank', g);
    }
    if !tx.Open? {
      FindOpenStep(s', rank', HashOf(c, tx));
    }
  }

  lemma CommitKeepsHeadsOwned(c: Crypto, s: Store, rank: map<Hash, nat>, tx: Transaction, d: Derived,
                              s': Store, rank': map<Hash, nat>)
    requires Extends(c, s, rank, tx, d) && HeadsOwned(s, rank)
    requires s' == Commit(c, s, tx, d) && rank' == RankAfter(c, s, rank, tx) && Chained(s', rank')
    ensures HeadsOwned(s', rank')
  {
    CommitKeepsRoots(c, s, rank, tx, d, s', rank');
    forall k | k in s'.heads
      ensures s'.heads[k] in s'.transactions && FindKey(s', rank', s'.heads[k]) == Some(k)
    {
      if k == d.key {
        assert s'.heads[k] == HashOf(c, tx);
      } else {
        var g := s.heads[k];
        assert s'.heads[k] == g && g in s.transactions;
        assert FindKey(s, rank, g) == Some(k);
      }
    }
  }

  lemma CommitKeepsHeadsAreTips(c: Crypto, s: Store, rank: map<Hash, nat>, tx: Transaction, d: Derived)
    requires Extends(c, s, rank, tx, d) && HeadsOwned(s, rank) && HeadsAreTips(s)
    ensures HeadsAreTips(Commit(c, s, tx, d))
  {
    var h := HashOf(c, tx);
    var s' := Commit(c, s, tx, d);
    forall g | g in s'.transactions && s'.transactions[g].tx.Previous().Some?
      ensures s'.transactions[g].tx.Previous().value !in s'.heads.Values
    {
      var p := s'.transactions[g].tx.Previous().value;
      if g != h {
        assert s'.transactions[g] == s.transactions[g];
      }
      assert p in s.transactions;
      forall k | k in s'.heads
        ensures s'.heads[k] != p
      {
        if k != d.key {
          assert s'.heads[k] == s.heads[k];
          if g == h {
            assert FindKey(s, rank, s.heads[k]) == Some(k);
          }
        }
      }
    }
  }

  /** A commit creates no fork: the new block's parent is a head, which no
      stored block extends yet, and a new open block's account has no head, so
      no stored open block names it. */
  lemma CommitKeepsNoForks(c: Crypto, s: Store, rank: map<Hash, nat>, tx: Transaction, d: Derived)
    requires Extends(c, s, rank, tx, d) && HeadsAreTips(s) && OpenedHaveHeads(s) && NoForks(s)
    ensures NoForks(Commit(c, s, tx, d))
  {
    var h := HashOf(c, tx);
    var s' := Commit(c, s, tx, d);
    forall g | g in s.transactions
      ensures s.transactions[g].tx.Previous().Some? ==> s.transactions[g].tx.Previous() != tx.Previous()
      ensures s.transactions[g].tx.Open? && tx.Open? ==> s.transactions[g].tx.open.account != tx.open.account
    {
      if !tx.Open? {
        assert s.heads[d.key] == tx.Previous().value;
      }
    }
    forall g, g' | g in s'.transactions && g' in s'.transactions && g != g'
      ensures s'.transactions[g].tx.Previous().Some? ==>
                s'.transactions[g].tx.Previous() != s'.transactions[g'].tx.Previous()
      ensures s'.transactions[g].tx.Open? && s'.transactions[g'].tx.Open? ==>
                s'.transactions[g].tx.open.account != s'.transactions[g'].tx.open.account
    {
      if g != h {
        assert s'.transactions[g] == s.transactions[g];
      }
      if g' != h {
        assert s'.transactions[g'] == s.transactions[g'];
      }
    }
  }

  lemma CommitKeepsOpenedHeads(c: Crypto, s: Store, rank: map<Hash, nat>, tx: Transaction, d: Derived)
    requires Extends(c, s, rank, tx, d) && OpenedHaveHeads(s)
    ensures OpenedHaveHeads(Commit(c, s, tx, d))
  {
  }

  /** The ledger is content-addressed: the genesis block is stored under its
      hash, and every commit stores the new block under its own. */
  lemma CommitKeepsOwnHashes(c: Crypto, s: Store, tx: Transaction, d: Derived)
    requires StoredUnderOwnHash(c, s)
    ensures StoredUnderOwnHash(c, Commit(c, s, tx, d))
    ensures forall genesis: OpenBlock, balance: Balance :: StoredUnderOwnHash(c, GenesisStore(c, genesis, balance))
  {
  }

  /** Committing a block that `Extends` the ledger, under its own hash, keeps
      every invariant. */
  lemma CommitKeepsConsistency(c: Crypto, s: Store, rank: map<Hash, nat>, tx: Transaction, d: Derived)
    requires Consistent(s, rank) && Extends(c, s, rank, tx, d)
    ensures Consistent(Commit(c, s, tx, d), RankAfter(c, s, rank, tx))
  {
    var s', rank' := Commit(c, s, tx, d), RankAfter(c, s, rank, tx);
    CommitKeepsChains(c, s, rank, tx, d);
    CommitKeepsHeadsOwned(c, s, rank, tx, d, s', rank');
    CommitKeepsHeadsAreTips(c, s, rank, tx, d);
    CommitKeepsOpenedHeads(c, s, rank, tx, d);
    CommitKeepsNoForks(c, s, rank, tx, d);
  }

  /** An admitted block extends the ledger: it is fresh and continues the head
      of the account that owns it. */
  lemma AdmittedExtends(c: Crypto, s: Store, rank: map<Hash, nat>, tx: Transaction, d: Derived)
    requires Consistent(s, rank) && NoCollision(c, s, tx)
    requires Admit(c, s, rank, tx) == Ok(d)
    ensures Extends(c, s, rank, tx, d)
  {
    if HashOf(c, tx) in s.transactions {
      StoredBlockRejected(c, s, rank, tx, HashOf(c, tx));
    }
  }

  /** `insert` fails with `Fork` exactly when a verified block with a derivable
      balance does not extend its account's current head. */
  lemma ForkExactlyWhenHeadMoved(c: Crypto, s: Store, rank: map<Hash, nat>, tx: Transaction)
    requires Chained(s, rank)
    ensures Admit(c, s, rank, tx) == Err(Fork) <==>
      && Verify(c, s, rank, tx).Ok?
      && Derive(s, rank, tx).Ok?
      && FindHead(s, Derive(s, rank, tx).value.key) != tx.Previous()
  {
    VerifyErrors(c, s, rank, tx);
  }

  /** An account that already has a head cannot be opened again. */
  lemma OpenedAccountCannotReopen(c: Crypto, s: Store, rank: map<Hash, nat>, o: OpenBlock)
    requires Chained(s, rank)
    requires o.account in s.heads
    ensures Admit(c, s, rank, Open(o)).Err?
  {
  }

  /** Open never consults `unspent`, yet a send is opened at most once: once an
      open for it is committed, every open naming the same source fails. */
  lemma SendOpenedAtMostOnce(c: Crypto, s: Store, rank: map<Hash, nat>, o1: OpenBlock, o2: OpenBlock, rank': map<Hash, nat>)
    requires Chained(s, rank)
    requires Admit(c, s, rank, Open(o1)).Ok?
    requires o2.source == o1.source
    requires Chained(Commit(c, s, Open(o1), Admit(c, s, rank, Open(o1)).value), rank')
    ensures Admit(c, Commit(c, s, Open(o1), Admit(c, s, rank, Open(o1)).value), rank', Open(o2)).Err?
  {
    var d := Admit(c, s, rank, Open(o1)).value;
    var s' := Commit(c, s, Open(o1), d);
    assert VerifyOpen(c, s, o1).Ok?;
    assert SendsTo(s, o1.source, o1.account);
  }

  /** While nothing is unspent, no receive block is admitted: it fails with
      `Received`, or with an error of an earlier check. */
  lemma ReceiveRejectedWhileNothingUnspent(c: Crypto, s: Store, rank: map<Hash, nat>, rb: ReceiveBlock)
    requires Chained(s, rank)
    requires s.unspent == {}
    ensures Admit(c, s, rank, Receive(rb)).Err?
    ensures Admit(c, s, rank, Receive(rb)).error in {Failure.Work, Missing, Failure.Signature, Invalid, Received}
  {
    var checks := ReceiveChecks(c, s, rank, rb);
    assert !checks[5].passes;
    assert forall i | 0 <= i < |checks| :: checks[i].error in {Failure.Work, Missing, Failure.Signature, Invalid, Received};
  }

  /** As written, the send balance check looks the signer's account key up as a
      block hash: once work and signature pass, a send whose signer key is not
      also the hash of a stored block fails with `Unreachable`. */
  lemma SendBalanceLooksUpKey(c: Crypto, s: Store, rank: map<Hash, nat>, sb: SendBlock)
    requires Chained(s, rank)
    requires VerifyWork(c, Send(sb)).Ok?
    requires FindKey(s, rank, sb.previous).Some?
    requires SignedBy(c, FindKey(s, rank, sb.previous).value, Send(sb))
    ensures VerifySend(c, s, rank, sb).Ok? ==> FindKey(s, rank, sb.previous).value in s.transactions
    ensures FindKey(s, rank, sb.previous).value !in s.transactions ==> VerifySend(c, s, rank, sb) == Err(Unreachable)
  {
    FirstFailureUnrolled(SendChecks(c, s, rank, sb));
  }

  /** So on the ledger `Storage::new` builds, where the only block is the genesis
      open, no send is admitted unless that block's hash equals its account key:
      the send-then-open scenario stops at the send. */
  lemma GenesisLedgerRejectsSends(c: Crypto, genesis: OpenBlock, balance: Balance, rank: map<Hash, nat>, sb: SendBlock)
    requires Chained(GenesisStore(c, genesis, balance), rank)
    requires HashOf(c, Open(genesis)) != genesis.account
    ensures Admit(c, GenesisStore(c, genesis, balance), rank, Send(sb)).Err?
  {
    var s := GenesisStore(c, genesis, balance);
    var h := HashOf(c, Open(genesis));
    var key := FindKey(s, rank, sb.previous);
    if key.Some? {
      assert sb.previous == h;
      assert key.value == genesis.account;
      assert !SendChecks(c, s, rank, sb)[3].passes;
    }
  }

  /** The in-memory ledger. Blake2b and Ed25519 are fixed per ledger; the
      genesis block and balance are construction parameters. */
  class Storage {
    const crypto: Crypto
    var transactions: map<Hash, Entry>
    var heads: map<PubKey, Hash>
    var unspent: set<Hash>
    ghost var rank: map<Hash, nat>

    function State(): Store
      reads this
    {
      Store(transactions, heads, unspent)
    }

    ghost predicate Valid()
      reads this
    {
      Consistent(State(), rank)
    }

    /** `Storage::new`: the genesis open block with its balance, the genesis
        account's head, and nothing unspent. */
    constructor (crypto: Crypto, genesis: OpenBlock, genesisBalance: Balance)
      ensures Valid()
      ensures this.crypto == crypto
      ensures State() == GenesisStore(crypto, genesis, genesisBalance)
      ensures unspent == {}
    {
      this.crypto := crypto;
      var h := HashOf(crypto, Open(genesis));
      transactions := map[h := Entry(Open(genesis), genesisBalance)];
      heads := map[genesis.account := h];
      unspent := {};
      rank := map[h := 0];
      new;
      GenesisConsistent(crypto, genesis, genesisBalance);
    }

    /** `find_open`: one lookup that may miss, then a walk along `previous`
        links that cannot miss on a valid ledger, then the open block. */
    method FindOpen(h: Hash) returns (r: Option<OpenBlock>)
      requires Chained(State(), rank)
      ensures r == BlockStore.FindOpen(State(), rank, h)
    {
      var first := Lookup(State(), h);
      if first.None? {
        return None;
      }
      var hash := if first.value.Open? then h else first.value.Previous().value;
      while true
        invariant hash in transactions
        invariant BlockStore.FindOpen(State(), rank, hash) == BlockStore.FindOpen(State(), rank, h)
        decreases rank[hash]
      {
        var tx := transactions[hash].tx;
        if tx.Open? {
          break;
        }
        hash := tx.Previous().value;
      }
      r := Some(transactions[hash].tx.open);
    }

    /** `find_key`: the account of the chain's open block. */
    method FindKey(h: Hash) returns (r: Option<PubKey>)
      requires Chained(State(), rank)
      ensures r == BlockStore.FindKey(State(), rank, h)
      ensures r.Some? <==> h in transactions
    {
      var o := FindOpen(h);
      r := if o.Some? then Some(o.value.account) else None;
    }

    /** The derivation half of `insert`: the new balance, the owning key (found
        by walking the chain) and the head the block must extend. */
    method DeriveStep(tx: Transaction) returns (r: Result<Derived, Failure>)
      requires Chained(State(), rank)
      ensures r == Derive(State(), rank, tx)
    {
      match tx {
        case Open(o) =>
          var amount :- SentAmount(State(), o.source);
          r := Ok(Derived(amount, o.account, None));
        case Receive(rb) =>
          var gain :- SentAmount(State(), rb.source);
          var prevBal :- FindBalance(State(), rb.previous).OkOr(Unreachable);
          if prevBal.amount + gain.amount >= TWO_128 {
            // u128 overflow, a panic in the source
            return Err(Unreachable);
          }
          // `previous` is stored, so the walk finds its account
          var key := FindKey(rb.previous);
          r := Ok(Derived(prevBal.Plus(gain), key.value, Some(rb.previous)));
        case Send(sb) =>
          var found := FindKey(sb.previous);
          var key :- found.OkOr(Unreachable);
          r := Ok(Derived(sb.balance, key, Some(sb.previous)));
        case Change(cb) =>
          var bal :- FindBalance(State(), cb.previous).OkOr(Unreachable);
          var key := FindKey(cb.previous);
          r := Ok(Derived(bal, key.value, Some(cb.previous)));
      }
    }

    /** The checking half of `insert`: verification, derivation and the fork
        check, in the source's order; the ledger is only read. */
    method AdmitStep(tx: Transaction) returns (r: Result<Derived, Failure>)
      requires Chained(State(), rank)
      ensures r == Admit(crypto, State(), rank, tx)
    {
      var _ :- Verify(crypto, State(), rank, tx);
      var d :- DeriveStep(tx);
      if FindHead(State(), d.key) != d.parent {
        return Err(Fork);
      }
      r := Ok(d);
    }

    /** The two writes at the end of `insert`: the block under its hash with
        the derived balance, and the account's head moved to it. */
    method CommitStep(tx: Transaction, d: Derived)
      requires Valid() && Extends(crypto, State(), rank, tx, d)
      modifies this
      ensures Valid()
      ensures State() == Commit(crypto, old(State()), tx, d)
    {
      ghost var before, rank0 := State(), rank;
      var hash := HashOf(crypto, tx);
      transactions := transactions[hash := Entry(tx, d.balance)];
      heads := heads[d.key := hash];
      rank := RankAfter(crypto, before, rank0, tx);
      CommitKeepsConsistency(crypto, before, rank0, tx, d);
    }

    /** `insert`. Requires only that the block's hash does not collide with a
        different stored block. `unspent` is never written. */
    method Insert(tx: Transaction) returns (r: Result<(), Failure>)
      requires Valid()
      requires NoCollision(crypto, State(), tx)
      modifies this
      ensures Valid()
      ensures var a := Admit(crypto, old(State()), old(rank), tx);
        if a.Ok? then r == Ok(()) && State() == Commit(crypto, old(State()), tx, a.value)
        else r == Err(a.error) && State() == old(State())
    {
      var d :- AdmitStep(tx);
      AdmittedExtends(crypto, State(), rank, tx, d);
      CommitStep(tx, d);
      // The source ends `insert` with an unconditional `panic!()` after these
      // two writes, a leftover; the model returns success instead.
      r := Ok(());
    }
  }
}
