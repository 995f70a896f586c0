/** The block type system of src/transaction.rs: the four block variants, the
    field lists they hash, and the proof-of-work check every variant shares.
    The verification chains that consult the ledger live in module Verification. */
module Transactions {
  import opened Wrappers
  import opened Errors
  import opened Types

  /** The foreign cryptography, left uninterpreted. Blake2b (RFC 7693) with a
      32-byte and with an 8-byte output are two functions of the bytes fed to the
      streaming hasher, so a digest of several parts depends only on their
      concatenation. The current code's Ed25519 (RFC 8032, instantiated with
      Blake2b instead of SHA-512) is split into the two byte-parsing steps and
      the check itself. The legacy code uses ring's standard Ed25519 (with
      SHA-512) instead, a separate scheme that parses and checks in one call. */
  datatype Crypto = Crypto(
    blake2b32: seq<Byte> -> Hash,
    blake2b8: seq<Byte> -> Bytes8,
    publicKeyFromBytes: PubKey -> bool,
    signatureFromBytes: Signature -> bool,
    ed25519Verify: (PubKey, Hash, Signature) -> bool,
    ringEd25519Verify: (PubKey, Hash, Signature) -> bool)

  datatype OpenBlock = OpenBlock(
    account: PubKey, source: Hash, representative: PubKey, work: Work, signature: Signature)

  datatype SendBlock = SendBlock(
    previous: Hash, balance: Balance, destination: PubKey, work: Work, signature: Signature)

  datatype ReceiveBlock = ReceiveBlock(
    previous: Hash, source: Hash, work: Work, signature: Signature)

  datatype ChangeBlock = ChangeBlock(
    previous: Hash, representative: PubKey, work: Work, signature: Signature)

  datatype Transaction =
    | Open(open: OpenBlock)
    | Send(send: SendBlock)
    | Receive(receive: ReceiveBlock)
    | Change(change: ChangeBlock)
  {
    /** The block this one extends on its account's chain; an open block starts a chain. */
    function Previous(): (r: Option<Hash>)
      ensures r.None? <==> Open?
    {
      match this
      case Open(_) => None
      case Send(s) => Some(s.previous)
      case Receive(r) => Some(r.previous)
      case Change(c) => Some(c.previous)
    }

    function WorkValue(): Work
    {
      match this
      case Open(o) => o.work
      case Send(s) => s.work
      case Receive(r) => r.work
      case Change(c) => c.work
    }

    function SignatureValue(): Signature
    {
      match this
      case Open(o) => o.signature
      case Send(s) => s.signature
      case Receive(r) => r.signature
      case Change(c) => c.signature
    }

    /** The same block with its nonce and signature replaced. */
    function WithWorkAndSignature(w: Work, sig: Signature): (r: Transaction)
      ensures r.WorkValue() == w && r.SignatureValue() == sig
    {
      match this
      case Open(o) => Open(o.(work := w, signature := sig))
      case Send(s) => Send(s.(work := w, signature := sig))
      case Receive(r) => Receive(r.(work := w, signature := sig))
      case Change(c) => Change(c.(work := w, signature := sig))
    }
  }

  /** The bytes the streaming hasher is fed: the elements back to back. */
  function Concat(parts: seq<seq<Byte>>): seq<Byte>
  {
    if parts == [] then [] else parts[0] + Concat(parts[1..])
  }

  lemma ConcatPair(a: seq<Byte>, b: seq<Byte>)
    ensures Concat([a, b]) == a + b
  {
    assert [a, b][1..] == [b];
    assert [b][1..] == [];
    assert Concat([b]) == b + Concat([]);
  }

  /** The hashed bytes of each variant, written out. */
  function HashInput(tx: Transaction): seq<Byte>
  {
    match tx
    case Open(o) => o.source + o.representative + o.account
    case Send(s) => s.previous + s.destination + s.balance.Bytes()
    case Receive(r) => r.previous + r.source
    case Change(c) => c.previous + c.representative
  }

  /** `hash_elements`: the fields each variant hashes, in order; fed to the
      hasher one after the other they are the variant's written-out input. */
  function HashElements(tx: Transaction): (r: seq<seq<Byte>>)
    ensures |r| == (if tx.Open? || tx.Send? then 3 else 2)
    ensures Concat(r) == HashInput(tx)
  {
    var e := match tx
      case Open(o) => [o.source, o.representative, o.account]
      case Send(s) => [s.previous, s.destination, s.balance.Bytes()]
      case Receive(r) => [r.previous, r.source]
      case Change(c) => [c.previous, c.representative];
    assert Concat(e[|e| - 1..]) == e[|e| - 1];
    assert |e| == 3 ==> Concat(e[1..]) == e[1] + e[2] by {
      if |e| == 3 {
        assert e[1..][1..] == e[2..];
      }
    }
    e
  }

  /** `hash_impl`: Blake2b-32 over the variant's element list. */
  function HashOf(c: Crypto, tx: Transaction): (r: Hash)
    ensures r == c.blake2b32(Concat(HashElements(tx)))
  {
    c.blake2b32(HashInput(tx))
  }

  /** The hashed input's length per variant: 96 bytes for open, 80 for send,
      64 for receive and change. */
  lemma HashInputLayout(tx: Transaction)
    ensures |HashInput(tx)| == (if tx.Open? then 96 else if tx.Send? then 80 else 64)
  {
  }

  /** Blocks that differ only in nonce and signature have the same hash. */
  lemma HashIgnoresWorkAndSignature(c: Crypto, tx: Transaction, w: Work, sig: Signature)
    ensures HashOf(c, tx.WithWorkAndSignature(w, sig)) == HashOf(c, tx)
  {
  }

  /** Within a variant the hashed bytes determine every hashed field, so two
      blocks of one variant collide only through Blake2b itself. */
  lemma HashInputDeterminesFields(a: Transaction, b: Transaction)
    requires HashInput(a) == HashInput(b)
    requires (a.Open? && b.Open?) || (a.Send? && b.Send?) || (a.Receive? && b.Receive?) || (a.Change? && b.Change?)
    ensures a.WithWorkAndSignature(b.WorkValue(), b.SignatureValue()) == b
  {
    HashInputLayout(a);
    HashInputLayout(b);
    var x := HashInput(a);
    match a
    case Open(o) =>
      assert o.source == x[..32] == b.open.source;
      assert o.representative == x[32..64] == b.open.representative;
      assert o.account == x[64..] == b.open.account;
    case Send(s) =>
      assert s.previous == x[..32] == b.send.previous;
      assert s.destination == x[32..64] == b.send.destination;
      assert s.balance.Bytes() == x[64..] == b.send.balance.Bytes();
      BalanceBytesInjective(s.balance, b.send.balance);
    case Receive(r) =>
      assert r.previous == x[..32] == b.receive.previous;
      assert r.source == x[32..] == b.receive.source;
    case Change(ch) =>
      assert ch.previous == x[..32] == b.change.previous;
      assert ch.representative == x[32..] == b.change.representative;
  }

  /** Equal hashed bytes mean the same chain link: both blocks are open blocks
      of the same account, or neither is and both extend the same block. */
  lemma HashInputDeterminesLink(a: Transaction, b: Transaction)
    requires HashInput(a) == HashInput(b)
    ensures a.Open? <==> b.Open?
    ensures a.Open? ==> a.open.account == b.open.account
    ensures a.Previous() == b.Previous()
  {
    HashInputLayout(a);
    HashInputLayout(b);
    var x := HashInput(a);
    if a.Open? {
      assert a.open.account == x[64..] == b.open.account;
    } else {
      assert a.Previous().value == x[..32] == b.Previous().value;
    }
  }

  /** The element lists carry no variant tag: a receive and a change block with
      the same `previous` whose source equals the representative hash equal. */
  lemma ReceiveAndChangeCanShareHash(c: Crypto, p: Hash, x: Bytes32, w: Work, sig: Signature)
    ensures HashElements(Receive(ReceiveBlock(p, x, w, sig))) == HashElements(Change(ChangeBlock(p, x, w, sig)))
    ensures HashOf(c, Receive(ReceiveBlock(p, x, w, sig))) == HashOf(c, Change(ChangeBlock(p, x, w, sig)))
  {
  }

  /** `work_element`: the account for an open block, `previous` otherwise. */
  function WorkElement(tx: Transaction): (r: Bytes32)
    ensures tx.Open? ==> r == tx.open.account
    ensures tx.Previous().Some? ==> r == tx.Previous().value
  {
    match tx
    case Open(o) => o.account
    case Send(s) => s.previous
    case Receive(r) => r.previous
    case Change(c) => c.previous
  }

  /** `work_calculate` / `work_impl`: Blake2b-8 of the nonce bytes followed by
      the work element. */
  function WorkCalculate(c: Crypto, tx: Transaction, w: Work): (r: WorkHash)
    ensures r.bytes == c.blake2b8(Concat([w.Bytes(), WorkElement(tx)]))
  {
    ConcatPair(w.Bytes(), WorkElement(tx));
    WorkHash(c.blake2b8(w.Bytes() + WorkElement(tx)))
  }

  /** The 40 bytes behind a work digest: the nonce, little-endian, then the
      work element. */
  lemma WorkInputLayout(c: Crypto, tx: Transaction, w: Work)
    ensures exists input: seq<Byte> ::
      && WorkCalculate(c, tx, w) == WorkHash(c.blake2b8(input))
      && |input| == 40
      && LeDecode(input[..8]) == w.nonce
      && input[8..] == WorkElement(tx)
  {
    var input := w.Bytes() + WorkElement(tx);
    WorkBytesDecode(w);
    assert input[..8] == w.Bytes();
    assert input[8..] == WorkElement(tx);
  }

  /** `work_validate`: the digest of the block's own nonce. */
  function WorkValidate(c: Crypto, tx: Transaction): (r: WorkHash)
    ensures r.bytes == c.blake2b8(Concat([tx.WorkValue().Bytes(), WorkElement(tx)]))
  {
    WorkCalculate(c, tx, tx.WorkValue())
  }

  /** `verify_work`: Ok exactly when the block's own digest passes the threshold. */
  function VerifyWork(c: Crypto, tx: Transaction): (r: Result<(), Failure>)
    ensures r.Ok? <==> WorkValidate(c, tx).ToU64() > WORK_THRESHOLD
    ensures r.Err? ==> r.error == Failure.Work
  {
    if WorkValidate(c, tx).Verify() then Ok(()) else Err(Failure.Work)
  }

  /** The work digest is a function of the nonce and the work element alone: a
      nonce found for one block is valid for every block with the same element. */
  lemma WorkDependsOnlyOnElement(c: Crypto, a: Transaction, b: Transaction)
    requires WorkElement(a) == WorkElement(b) && a.WorkValue() == b.WorkValue()
    ensures VerifyWork(c, a) == VerifyWork(c, b)
  {
  }

  /** A nonce search that stops at a nonce `work_calculate` accepts (the role
      of `compute_work` in src/work.rs) yields a block that passes `verify_work`. */
  lemma FoundWorkVerifies(c: Crypto, tx: Transaction, w: Work)
    requires WorkCalculate(c, tx, w).Verify()
    ensures VerifyWork(c, tx.WithWorkAndSignature(w, tx.SignatureValue())).Ok?
  {
  }
}
