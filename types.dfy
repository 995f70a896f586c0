/** The failure kinds a block insertion can report. The module that declares
    them in the repository is not part of this model; the variants are those of
    src/lib.rs:376-394 plus `OverSend` and `Unreachable`, which
    src/transaction.rs:181-183 raises. */
module Errors {

  datatype Failure =
    | Duplicate    // the transaction is already recorded (never raised)
    | Signature    // a key or signature does not parse, or does not verify
    | Fork         // the block's parent is not the head of its owner's chain
    | Work         // the proof of work is below the threshold
    | Received     // the referenced send has already been received
    | ZeroSend     // a send must move a nonzero amount (never raised)
    | Missing      // a block the transaction references is absent
    | Invalid      // a referenced block has the wrong variant or destination
    | OverSend     // a send declares more than the account holds
    | Unreachable  // a lookup that the ledger's invariants should make succeed failed
}

/** The value types of src/types.rs: fixed-width byte strings, the proof-of-work
    nonce and digest, and the 128-bit balance. The `unsafe transmute` byte views
    of the source are modelled as little-endian encodings. */
module Types {

  type Byte = b: int | 0 <= b < 256

  /** `[u8; 32]`: a block hash and an account key have the same type. */
  type Bytes32 = s: seq<Byte> | |s| == 32 witness Zeros(32)
  type Bytes64 = s: seq<Byte> | |s| == 64 witness Zeros(64)
  type Bytes16 = s: seq<Byte> | |s| == 16 witness Zeros(16)
  type Bytes8 = s: seq<Byte> | |s| == 8 witness Zeros(8)

  type Hash = Bytes32
  type PubKey = Bytes32
  type Signature = Bytes64

  const TWO_64: nat := 0x1_0000_0000_0000_0000
  const TWO_128: nat := 0x1_0000_0000_0000_0000_0000_0000_0000_0000

  type U64 = n: int | 0 <= n < TWO_64
  type U128 = n: int | 0 <= n < TWO_128

  function Zeros(n: nat): (z: seq<Byte>)
    ensures |z| == n
  {
    seq(n, _ => 0)
  }

  function Pow256(k: nat): (p: nat)
    ensures p > 0
  {
    if k == 0 then 1 else 256 * Pow256(k - 1)
  }

  lemma Pow256Widths()
    ensures Pow256(8) == TWO_64 && Pow256(16) == TWO_128
  {
    assert Pow256(4) == 0x1_0000_0000;
    assert Pow256(8) == TWO_64;
    assert Pow256(12) == 0x1_0000_0000_0000_0000_0000_0000;
  }

  /** Little-endian reading: the sum of `b[i] * 256^i`. */
  function LeDecode(b: seq<Byte>): nat
  {
    if b == [] then 0 else b[0] + 256 * LeDecode(b[1..])
  }

  /** Little-endian writing of the low `len` bytes of `n`. */
  function LeEncode(n: nat, len: nat): (r: seq<Byte>)
    ensures |r| == len
  {
    if len == 0 then [] else [n % 256] + LeEncode(n / 256, len - 1)
  }

  lemma {:induction false} LeDecodeBound(b: seq<Byte>)
    ensures LeDecode(b) < Pow256(|b|)
  {
    if b != [] {
      LeDecodeBound(b[1..]);
    }
  }

  lemma {:induction false} LeDecodeEncode(n: nat, len: nat)
    requires n < Pow256(len)
    ensures LeDecode(LeEncode(n, len)) == n
  {
    if len > 0 {
      LeDecodeEncode(n / 256, len - 1);
      assert LeEncode(n, len)[1..] == LeEncode(n / 256, len - 1);
    }
  }

  lemma {:induction false} LeEncodeDecode(b: seq<Byte>)
    ensures LeEncode(LeDecode(b), |b|) == b
  {
    if b != [] {
      LeEncodeDecode(b[1..]);
      assert (b[0] + 256 * LeDecode(b[1..])) / 256 == LeDecode(b[1..]);
    }
  }

  /** Equal-length byte strings with the same little-endian value are equal. */
  lemma LeDecodeInjective(a: seq<Byte>, b: seq<Byte>)
    requires |a| == |b| && LeDecode(a) == LeDecode(b)
    ensures a == b
  {
    LeEncodeDecode(a);
    LeEncodeDecode(b);
  }

  /** The proof-of-work nonce, `Work(u64)`. */
  datatype Work = Work(nonce: U64) {

    /** The 8-byte view hashed in front of the work element (little-endian). */
    function Bytes(): Bytes8
    {
      LeEncode(nonce, 8)
    }
  }

  /** Reading the 8 bytes back gives the nonce. */
  lemma WorkBytesDecode(w: Work)
    ensures LeDecode(w.Bytes()) == w.nonce
  {
    Pow256Widths();
    LeDecodeEncode(w.nonce, 8);
  }

  lemma WorkBytesInjective(w1: Work, w2: Work)
    requires w1.Bytes() == w2.Bytes()
    ensures w1 == w2
  {
    WorkBytesDecode(w1);
    WorkBytesDecode(w2);
  }

  /** `RAI_WORK_THRESHOLD`, 0xffffffc000000000 = (2^26 - 1) * 2^38. */
  const WORK_THRESHOLD: U64 := 0xffff_ffc0_0000_0000
  const TWO_38: nat := 0x40_0000_0000
  const TWO_26: nat := 0x400_0000

  /** The 8-byte digest of a nonce and its block's work element. */
  datatype WorkHash = WorkHash(bytes: Bytes8) {

    /** `Into<u64>`: `LE::read_u64` of the 8 bytes. */
    function ToU64(): (r: U64)
      ensures r == LeDecode(bytes)
    {
      LeDecodeBound(bytes);
      LeDecode(bytes)
    }

    /** Work is accepted when its value strictly exceeds the threshold. */
    predicate Verify()
      ensures Verify() <==> LeDecode(bytes) > WORK_THRESHOLD
    {
      ToU64() > WORK_THRESHOLD
    }
  }

  /** Accepted digests are exactly those whose top 26 bits are all ones and
      whose low 38 bits are not all zero. */
  lemma WorkThresholdBits(w: WorkHash)
    ensures w.Verify() <==> w.ToU64() / TWO_38 == TWO_26 - 1 && w.ToU64() % TWO_38 != 0
  {
    var v := w.ToU64();
    var q, r := v / TWO_38, v % TWO_38;
    assert v == q * TWO_38 + r;
    assert q < TWO_26;
  }

  /** The comparison is strict: the threshold itself fails, the next value passes. */
  lemma WorkThresholdBoundary()
    ensures !WorkHash(LeEncode(WORK_THRESHOLD, 8)).Verify()
    ensures WorkHash(LeEncode(WORK_THRESHOLD + 1, 8)).Verify()
  {
    LeDecodeEncode(WORK_THRESHOLD, 8);
    LeDecodeEncode(WORK_THRESHOLD + 1, 8);
  }

  /** `Balance(u128)`, compared numerically (derived `Ord`). Its `+` and `-`
      are defined only where the u128 arithmetic does not overflow. */
  datatype Balance = Balance(amount: U128) {

    predicate Below(other: Balance)
    {
      amount < other.amount
    }

    function Plus(other: Balance): (r: Balance)
      requires amount + other.amount < TWO_128
      ensures r.amount - other.amount == amount
    {
      Balance(amount + other.amount)
    }

    function Minus(other: Balance): (r: Balance)
      requires other.amount <= amount
      ensures r.amount + other.amount == amount
    {
      Balance(amount - other.amount)
    }

    /** The 16-byte view hashed into a send block (little-endian). */
    function Bytes(): Bytes16
    {
      LeEncode(amount, 16)
    }
  }

  /** `Below` is a strict total order on balances. */
  lemma BalanceOrder(a: Balance, b: Balance, c: Balance)
    ensures !a.Below(a)
    ensures a.Below(b) && b.Below(c) ==> a.Below(c)
    ensures a != b ==> a.Below(b) || b.Below(a)
  {
  }

  /** Subtracting and adding back the same balance is the identity. */
  lemma MinusPlus(a: Balance, b: Balance)
    requires b.amount <= a.amount
    ensures a.Minus(b).Plus(b) == a
  {
  }

  /** Reading the 16 bytes back gives the amount. */
  lemma BalanceBytesDecode(b: Balance)
    ensures LeDecode(b.Bytes()) == b.amount
  {
    Pow256Widths();
    LeDecodeEncode(b.amount, 16);
  }

  lemma BalanceBytesInjective(a: Balance, b: Balance)
    requires a.Bytes() == b.Bytes()
    ensures a == b
  {
    BalanceBytesDecode(a);
    BalanceBytesDecode(b);
  }
}
