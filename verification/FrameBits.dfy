/** Masking and length fields bit by bit and byte by byte (RFC 6455 sections 5.2 and 5.3). */
module FrameBits {
  import opened Common
  import opened FrameCodec

  function BitAt(n: nat, k: nat): nat {
    if k == 0 then n % 2 else BitAt(n / 2, k - 1)
  }

  lemma {:induction false} XorBitAt(a: nat, b: nat, n: nat, k: nat)
    requires k < n
    ensures BitAt(XorBits(a, b, n), k) == (BitAt(a, k) + BitAt(b, k)) % 2
  {
    var high := XorBits(a / 2, b / 2, n - 1);
    Halves(high, if a % 2 == b % 2 then 0 else 1);
    if k > 0 {
      XorBitAt(a / 2, b / 2, n - 1, k - 1);
    }
  }

  lemma Halves(high: nat, low: nat)
    requires low < 2
    ensures (2 * high + low) / 2 == high && (2 * high + low) % 2 == low
  {
  }

  /** Byte `i` of a masked payload has a bit set exactly if that bit differs between byte `i` of the payload
      and byte `i` modulo 4 of the key. */
  lemma MaskedBits(payload: Bytes, key: Bytes, i: nat, k: nat)
    requires |key| == 4 && i < |payload| && k < 8
    ensures |Masked(payload, key)| == |payload|
    ensures BitAt(Masked(payload, key)[i], k) == 1 <==> BitAt(payload[i], k) != BitAt(key[i % 4], k)
    ensures BitAt(payload[i], k) < 2 && BitAt(key[i % 4], k) < 2 && BitAt(Masked(payload, key)[i], k) < 2
  {
    XorBitAt(payload[i], key[i % 4], 8, k);
    BitIsBit(payload[i], k);
    BitIsBit(key[i % 4], k);
  }

  lemma {:induction false} BitIsBit(n: nat, k: nat)
    ensures BitAt(n, k) < 2
  {
    if k > 0 {
      BitIsBit(n / 2, k - 1);
    }
  }

  /** A length field is read with its most significant byte first: a byte more makes the others count 256
      times as much. */
  lemma FieldValue(s: Bytes, last: Byte)
    ensures FromBe([]) == 0 && FromBe(s + [last]) == 256 * FromBe(s) + last
    ensures |s| == 1 ==> FromBe(s + [last]) == 256 * s[0] + last
  {
    assert (s + [last])[..|s|] == s;
    assert |s| == 1 ==> s[..0] == [];
  }

  /** The first frame of a buffer: fin bit and opcode in its first byte; mask bit and length in its second,
      or in the two or eight bytes after it; then the key, if there is one, and the payload. It is refused
      if it declares more than 16 MiB, and awaited if it is not there in full. */
  lemma FrameLayout(b: Bytes)
    ensures |b| < 2 || (b[1] % 128 == 126 && |b| < 4) || (b[1] % 128 == 127 && |b| < 10) ==> ParseOne(b) == Need
    ensures |b| >= 2 && (b[1] % 128 == 126 ==> |b| >= 4) && (b[1] % 128 == 127 ==> |b| >= 10) ==>
      var short, m := b[1] % 128, if b[1] >= 128 then 4 else 0;
      var start := if short == 126 then 4 else if short == 127 then 10 else 2;
      var length := if short == 126 then 256 * b[2] + b[3] else if short == 127 then FromBe(b[2..10]) else short;
      if length > 16 * 1024 * 1024 then ParseOne(b) == TooLarge
      else if |b| < start + m + length then ParseOne(b) == Need
      else
        && ParseOne(b).Got? && ParseOne(b).size == start + m + length
        && ParseOne(b).frame.fin == (b[0] >= 128) && ParseOne(b).frame.opcode == b[0] % 16
        && ParseOne(b).frame.payload ==
             if m == 4 then Masked(b[start + 4..start + 4 + length], b[start..start + 4]) else b[start..start + length]
  {
    hide Masked;
    if |b| >= 4 {
      FieldValue(b[2..3], b[3]);
      assert b[2..4] == b[2..3] + [b[3]];
    }
    hide FromBe;
  }
}
