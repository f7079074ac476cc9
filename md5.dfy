/**
 * The hand-written MD5 of apps/worker/src/utils/crypto.ts (`md5Hex`),
 * against the algorithm of RFC 1321: padding (section 3.1), length field
 * (section 3.2), the 64-step block function (section 3.4) and the output
 * (section 3.5).
 *
 * The input is the byte sequence `TextEncoder.encode` produces. Words are
 * `bv32`, so every `+` wraps modulo 2^32 as the source's `>>> 0` does;
 * JavaScript's signed results of `~`, `&`, `|` and `^` have the same 32 bits.
 */
module Md5 {

  type Byte = x: int | 0 <= x < 256

  const TwoTo32: int := 0x1_0000_0000

  // ---------------------------------------------------------------------
  // Padding
  // ---------------------------------------------------------------------

  /**
   * `padLen`: the zero bytes between the 0x80 marker and the length field.
   * The operand of the outer `%` is positive, so JavaScript's truncating
   * remainder and Dafny's agree.
   */
  function PadLength(len: nat): (p: nat)
    ensures p < 64 && (len + 1 + p + 8) % 64 == 0
  {
    ((56 - (len + 1) % 64) + 64) % 64
  }

  /** `setUint32(at, v, true)`: v as four bytes, least significant first. */
  function Le32(v: nat): (r: seq<Byte>)
    requires v < TwoTo32
    ensures |r| == 4
  {
    [v % 256, v / 0x100 % 256, v / 0x1_0000 % 256, v / 0x100_0000 % 256]
  }

  function Zeros(n: nat): (r: seq<Byte>)
    ensures |r| == n && forall k :: 0 <= k < n ==> r[k] == 0
  {
    seq(n, _ => 0)
  }

  /** The padded buffer: input, 0x80, `padLen` zeros, low 32 bits of the bit length, a zero word. */
  function Padded(input: seq<Byte>): (buf: seq<Byte>)
    ensures |buf| == |input| + 1 + PadLength(|input|) + 8
  {
    input + [0x80] + Zeros(PadLength(|input|)) + Le32(|input| * 8 % TwoTo32) + [0, 0, 0, 0]
  }

  /** The buffer is a whole number of 64-byte blocks, and at most 72 bytes longer than the input. */
  lemma PaddedLength(input: seq<Byte>)
    ensures |Padded(input)| % 64 == 0
    ensures |input| + 9 <= |Padded(input)| <= |input| + 72
  {
  }

  /** Section 3.1: the input is kept, then one 0x80 byte, then zero bytes up to the length field. */
  lemma PaddedContents(input: seq<Byte>)
    ensures var buf := Padded(input);
      && buf[..|input|] == input
      && buf[|input|] == 0x80
      && forall k :: |input| < k < |buf| - 8 ==> buf[k] == 0
  {
    var buf := Padded(input);
    assert buf[..|input|] == input;
  }

  /** A 64-bit value as eight bytes, least significant first (section 3.2). */
  function Le64(v: nat): (r: seq<Byte>)
    requires v < TwoTo32 * TwoTo32
    ensures |r| == 8
  {
    Le32(v % TwoTo32) + Le32(v / TwoTo32)
  }

  lemma Le32Zero(v: nat)
    requires v < TwoTo32
    ensures Le32(v) == [0, 0, 0, 0] <==> v == 0
  {
  }

  /** The buffer ends with the length word the source writes and a zero word. */
  lemma LengthTail(input: seq<Byte>)
    ensures var buf := Padded(input);
      buf[|buf| - 8..] == Le32(|input| * 8 % TwoTo32) + [0, 0, 0, 0]
  {
    var buf := Padded(input);
    assert buf[|buf| - 8..] == Le32(|input| * 8 % TwoTo32) + [0, 0, 0, 0];
  }

  /** A 64-bit field has a zero high word exactly when the value fits in 32 bits. */
  lemma Le64HighZero(bits: nat)
    requires bits < TwoTo32 * TwoTo32
    ensures Le64(bits) == Le32(bits % TwoTo32) + [0, 0, 0, 0] <==> bits < TwoTo32
  {
    Le32Zero(bits / TwoTo32);
    if bits >= TwoTo32 {
      assert Le64(bits)[4..] == Le32(bits / TwoTo32);
    }
  }

  /** Reducing modulo a multiple of m first does not change the remainder modulo m. */
  lemma ModOfMod(x: nat, m: nat, k: nat)
    requires m > 0 && k > 0
    ensures x % (m * k) % m == x % m
  {
    var q := x / (m * k);
    var r := x % (m * k);
    assert x == (q * k) * m + r by {
      assert x == q * (m * k) + r;
      assert q * (m * k) == (q * k) * m;
    }
    ModShift(r, q * k, m);
  }

  lemma ModShift(r: nat, n: nat, m: nat)
    requires m > 0
    ensures (n * m + r) % m == r % m
  {
    var y := n * m + r;
    var d := y / m - n - r / m;
    assert d * m == r % m - y % m by {
      assert y == (y / m) * m + y % m;
      assert r == (r / m) * m + r % m;
      assert d * m == (y / m) * m - n * m - (r / m) * m;
    }
    MulBound(d, m);
  }

  /** A nonzero multiple of m is at least m away from zero. */
  lemma {:induction false} MulBound(d: int, m: nat)
    requires m > 0
    ensures d > 0 ==> d * m >= m
    ensures d < 0 ==> d * m + m <= 0
    decreases if d < 0 then -d else d
  {
    if d > 1 {
      MulBound(d - 1, m);
      assert d * m == (d - 1) * m + m;
    } else if d < -1 {
      MulBound(d + 1, m);
      assert d * m == (d + 1) * m - m;
    }
  }

  /**
   * Section 3.2 asks for the low 64 bits of the bit length. The buffer's
   * last 8 bytes are that field exactly when the bit length, taken modulo
   * 2^64, fits in 32 bits, so in particular for every input shorter than
   * 2^29 bytes.
   */
  lemma LengthField(input: seq<Byte>)
    ensures var buf := Padded(input);
      buf[|buf| - 8..] == Le64(|input| * 8 % (TwoTo32 * TwoTo32)) <==> |input| * 8 % (TwoTo32 * TwoTo32) < TwoTo32
    ensures |input| < 0x2000_0000 ==> var buf := Padded(input);
      buf[|buf| - 8..] == Le64(|input| * 8)
  {
    var n := |input| * 8;
    var bits := n % (TwoTo32 * TwoTo32);
    LengthTail(input);
    ModOfMod(n, TwoTo32, TwoTo32);
    assert bits % TwoTo32 == n % TwoTo32;
    Le64HighZero(bits);
    if |input| < 0x2000_0000 {
      assert n < TwoTo32;
      assert bits == n;
    }
  }

  /** A 2^29-byte input: the buffer records a zero bit length where section 3.2 records 2^32. */
  lemma LengthFieldAt2To29()
    ensures var len := 0x2000_0000;
      Le32(len * 8 % TwoTo32) + [0, 0, 0, 0] != Le64(len * 8)
  {
    assert Le64(0x2000_0000 * 8)[4] == 1;
  }

  // ---------------------------------------------------------------------
  // Block function
  // ---------------------------------------------------------------------

  /** The four state words, `[A, B, C, D]` or `[a0, b0, c0, d0]`. */
  type Words = w: seq<bv32> | |w| == 4 witness [0, 0, 0, 0]

  /** `a0`..`d0` before the first block (section 3.3). */
  const Init: Words := [0x67452301, 0xefcdab89, 0x98badcfe, 0x10325476]

  /** `s[i]`: each round of 16 steps repeats its own four shift amounts. */
  function Shift(i: nat): (n: bv32)
    requires i < 64
    ensures 0 < n < 32
  {
    var col := i % 4;
    if i < 16 then [7, 12, 17, 22][col]
    else if i < 32 then [5, 9, 14, 20][col]
    else if i < 48 then [4, 11, 16, 23][col]
    else [6, 10, 15, 21][col]
  }

  /** The table `K` (the integer parts of 2^32 * |sin(i + 1)|), one row of 16 per round. */
  const T: seq<bv32> :=
    [
      0xd76aa478, 0xe8c7b756, 0x242070db, 0xc1bdceee, 0xf57c0faf, 0x4787c62a, 0xa8304613, 0xfd469501,
      0x698098d8, 0x8b44f7af, 0xffff5bb1, 0x895cd7be, 0x6b901122, 0xfd987193, 0xa679438e, 0x49b40821]
    + [
      0xf61e2562, 0xc040b340, 0x265e5a51, 0xe9b6c7aa, 0xd62f105d, 0x02441453, 0xd8a1e681, 0xe7d3fbc8,
      0x21e1cde6, 0xc33707d6, 0xf4d50d87, 0x455a14ed, 0xa9e3e905, 0xfcefa3f8, 0x676f02d9, 0x8d2a4c8a]
    + [
      0xfffa3942, 0x8771f681, 0x6d9d6122, 0xfde5380c, 0xa4beea44, 0x4bdecfa9, 0xf6bb4b60, 0xbebfbc70,
      0x289b7ec6, 0xeaa127fa, 0xd4ef3085, 0x04881d05, 0xd9d4d039, 0xe6db99e5, 0x1fa27cf8, 0xc4ac5665]
    + [
      0xf4292244, 0x432aff97, 0xab9423a7, 0xfc93a039, 0x655b59c3, 0x8f0ccc92, 0xffeff47d, 0x85845dd1,
      0x6fa87e4f, 0xfe2ce6e0, 0xa3014314, 0x4e0811a1, 0xf7537e82, 0xbd3af235, 0x2ad7d2bb, 0xeb86d391]

  /** `rotl`: a 32-bit left rotation. */
  function RotL(x: bv32, n: bv32): bv32
    requires 0 < n < 32
  {
    (x << n) | (x >> (32 - n))
  }

  /** `F` of step i: the functions F, G, H and I of section 3.4, one per round of 16 steps. */
  function Mix(i: nat, b: bv32, c: bv32, d: bv32): bv32
    requires i < 64
  {
    if i < 16 then (b & c) | (!b & d)
    else if i < 32 then (d & b) | (!d & c)
    else if i < 48 then b ^ c ^ d
    else c ^ (b | !d)
  }

  /** `g` of step i: which message word step i reads. */
  function WordIndex(i: nat): (g: nat)
    requires i < 64
    ensures g < 16
  {
    if i < 16 then i
    else if i < 32 then (5 * i + 1) % 16
    else if i < 48 then (3 * i + 5) % 16
    else (7 * i) % 16
  }

  /** One step: `A = D; D = C; C = B; B = B + rotl(F + A + K[i] + M[g], s[i])`. */
  function Step(h: Words, i: nat, m: seq<bv32>): Words
    requires i < 64 && |m| == 16
  {
    var f := Mix(i, h[1], h[2], h[3]) + h[0] + T[i] + m[WordIndex(i)];
    [h[3], h[1] + RotL(f, Shift(i)), h[1], h[2]]
  }

  /** The first n steps of a block. */
  function Steps(h: Words, m: seq<bv32>, n: nat): Words
    requires n <= 64 && |m| == 16
  {
    if n == 0 then h else Step(Steps(h, m, n - 1), n - 1, m)
  }

  /** `a0 = (a0 + A) >>> 0` and so on: word-wise addition modulo 2^32. */
  function AddWords(h: Words, r: Words): Words
  {
    [h[0] + r[0], h[1] + r[1], h[2] + r[2], h[3] + r[3]]
  }

  /** One 64-byte block: run the 64 steps, then add the result into `a0`..`d0`. */
  function Compress(h: Words, m: seq<bv32>): Words
    requires |m| == 16
  {
    AddWords(h, Steps(h, m, 64))
  }

  /** `view.getUint32(at, true)`. */
  function WordAt(buf: seq<Byte>, at: nat): bv32
    requires at + 4 <= |buf|
  {
    ((buf[at] as int) + 0x100 * (buf[at + 1] as int) + 0x1_0000 * (buf[at + 2] as int)
      + 0x100_0000 * (buf[at + 3] as int)) as bv32
  }

  /** A word whose four bytes add up to v, least significant first, is v. */
  lemma WordAtValue(buf: seq<Byte>, at: nat, v: nat)
    requires at + 4 <= |buf| && v < TwoTo32
    requires (buf[at] as int) + 0x100 * (buf[at + 1] as int) + 0x1_0000 * (buf[at + 2] as int)
      + 0x100_0000 * (buf[at + 3] as int) == v
    ensures WordAt(buf, at) == v as bv32
  {
  }

  /** The 16 words `M` of block k. */
  function BlockWords(buf: seq<Byte>, k: nat): (m: seq<bv32>)
    requires 64 * k + 64 <= |buf|
    ensures |m| == 16
  {
    seq(16, j requires 0 <= j < 16 => WordAt(buf, 64 * k + 4 * j))
  }

  /** `a0`..`d0` after the first k blocks of the buffer. */
  function AfterBlocks(buf: seq<Byte>, k: nat): Words
    requires 64 * k <= |buf|
  {
    if k == 0 then Init else Compress(AfterBlocks(buf, k - 1), BlockWords(buf, k - 1))
  }

  /** The digest words of an input: every block of its padded buffer. */
  function Digest(input: seq<Byte>): Words
  {
    PaddedLength(input);
    var buf := Padded(input);
    AfterBlocks(buf, |buf| / 64)
  }

  // ---------------------------------------------------------------------
  // Output
  // ---------------------------------------------------------------------

  const HexDigits: string := "0123456789abcdef"

  /** `b.toString(16).padStart(2, "0")`. */
  function ByteHex(b: Byte): (s: string)
    ensures |s| == 2
  {
    [HexDigits[b / 16], HexDigits[b % 16]]
  }

  /** `rv.setUint32(at, w, true)`: a word's bytes, least significant first. */
  function WordBytes(w: bv32): (r: seq<Byte>)
    ensures |r| == 4
  {
    Le32(w as int)
  }

  /** The `map(...).join("")` over the bytes. */
  function HexOf(bytes: seq<Byte>): (s: string)
    ensures |s| == 2 * |bytes|
  {
    if bytes == [] then "" else ByteHex(bytes[0]) + HexOf(bytes[1..])
  }

  /** Every character of the encoding is a lowercase hexadecimal digit. */
  lemma {:induction false} HexOfDigits(bytes: seq<Byte>)
    ensures forall k :: 0 <= k < |HexOf(bytes)| ==> HexOf(bytes)[k] in HexDigits
  {
    if bytes != [] {
      HexOfDigits(bytes[1..]);
      var s := HexOf(bytes);
      assert s[0] == HexDigits[bytes[0] / 16] && s[1] == HexDigits[bytes[0] % 16];
      forall k | 0 <= k < |s|
        ensures s[k] in HexDigits
      {
        if k >= 2 {
          assert s[k] == HexOf(bytes[1..])[k - 2];
        }
      }
    }
  }

  /** Hex-encoding a concatenation is concatenating the encodings. */
  lemma {:induction false} HexOfAppend(x: seq<Byte>, y: seq<Byte>)
    ensures HexOf(x + y) == HexOf(x) + HexOf(y)
  {
    if x == [] {
      assert x + y == y;
    } else {
      assert (x + y)[1..] == x[1..] + y;
      HexOfAppend(x[1..], y);
    }
  }

  /** A word's encoding is its four bytes' encodings in order. */
  lemma HexOfFour(a: Byte, b: Byte, c: Byte, d: Byte)
    ensures HexOf([a, b, c, d]) == ByteHex(a) + ByteHex(b) + ByteHex(c) + ByteHex(d)
  {
    assert [a, b, c, d] == [a] + [b] + [c] + [d];
    HexOfAppend([a] + [b] + [c], [d]);
    HexOfAppend([a] + [b], [c]);
    HexOfAppend([a], [b]);
    assert HexOf([a]) == ByteHex(a) by { assert [a][1..] == []; }
    assert HexOf([b]) == ByteHex(b) by { assert [b][1..] == []; }
    assert HexOf([c]) == ByteHex(c) by { assert [c][1..] == []; }
    assert HexOf([d]) == ByteHex(d) by { assert [d][1..] == []; }
  }

  /** Section 3.5: `a0`, `b0`, `c0`, `d0` serialised low byte first. */
  function DigestBytes(h: Words): (r: seq<Byte>)
    ensures |r| == 16
  {
    WordBytes(h[0]) + WordBytes(h[1]) + WordBytes(h[2]) + WordBytes(h[3])
  }

  /** The value `md5Hex` returns: 32 lowercase hexadecimal digits. */
  function Md5HexOf(input: seq<Byte>): string
  {
    HexOf(DigestBytes(Digest(input)))
  }

  /** The hex digest is the four state words' encodings in order. */
  lemma Md5HexWords(input: seq<Byte>)
    ensures var h := Digest(input);
      Md5HexOf(input) == HexOf(WordBytes(h[0])) + HexOf(WordBytes(h[1])) + HexOf(WordBytes(h[2])) + HexOf(WordBytes(h[3]))
  {
    var h := Digest(input);
    HexOfAppend(WordBytes(h[0]) + WordBytes(h[1]) + WordBytes(h[2]), WordBytes(h[3]));
    HexOfAppend(WordBytes(h[0]) + WordBytes(h[1]), WordBytes(h[2]));
    HexOfAppend(WordBytes(h[0]), WordBytes(h[1]));
  }

  /** Once the state words and their encodings are known, so is the hex digest. */
  lemma Md5HexFromWords(input: seq<Byte>, h: Words, s: string)
    requires Digest(input) == h
    requires HexOf(WordBytes(h[0])) + HexOf(WordBytes(h[1])) + HexOf(WordBytes(h[2])) + HexOf(WordBytes(h[3])) == s
    ensures Md5HexOf(input) == s
  {
    Md5HexWords(input);
  }

  /** The digest is always 32 lowercase hexadecimal digits, whatever the input. */
  lemma Md5HexShape(input: seq<Byte>)
    ensures |Md5HexOf(input)| == 32
    ensures forall k :: 0 <= k < 32 ==> Md5HexOf(input)[k] in "0123456789abcdef"
  {
    HexOfDigits(DigestBytes(Digest(input)));
  }

  // ---------------------------------------------------------------------
  // `md5Hex`, step by step
  // ---------------------------------------------------------------------

  /** `view.setUint32(at, v, true)` on the buffer. */
  method PutUint32(buf: array<Byte>, at: nat, v: nat)
    requires at + 4 <= buf.Length && v < TwoTo32
    modifies buf
    ensures buf[..] == old(buf[..at]) + Le32(v) + old(buf[at + 4..])
  {
    var bytes := Le32(v);
    buf[at] := bytes[0];
    buf[at + 1] := bytes[1];
    buf[at + 2] := bytes[2];
    buf[at + 3] := bytes[3];
    assert buf[..] == old(buf[..at]) + Le32(v) + old(buf[at + 4..]);
  }

  /** The pre-processing: a zeroed buffer, the input copied in, the marker and the length field. */
  method Pad(input: seq<Byte>) returns (buf: array<Byte>)
    ensures fresh(buf) && buf[..] == Padded(input)
  {
    var len := |input|;
    var padLen := ((56 - (len + 1) % 64) + 64) % 64;
    buf := new Byte[len + 1 + padLen + 8](_ => 0);
    for k := 0 to len
      invariant buf[..k] == input[..k]
      invariant forall j :: k <= j < buf.Length ==> buf[j] == 0
    {
      buf[k] := input[k];
    }
    buf[len] := 0x80;
    PutUint32(buf, buf.Length - 8, len * 8 % TwoTo32);
    PutUint32(buf, buf.Length - 4, 0);
    assert buf[..] == Padded(input);
  }

  /** The loop `for (let i = 0; i < 64; i++)`, one `Step` per iteration, then the addition into `a0`..`d0`. */
  method ProcessBlock(h: Words, m: seq<bv32>) returns (r: Words)
    requires |m| == 16
    ensures r == Compress(h, m)
  {
    r := h;
    for i := 0 to 64
      invariant r == Steps(h, m, i)
    {
      r := Step(r, i, m);
    }
    r := AddWords(h, r);
  }

  /** The inner `for (j ...)` loop: the 16 little-endian words of the block at `offset`. */
  method ReadBlock(buf: seq<Byte>, offset: nat) returns (m: seq<bv32>)
    requires offset % 64 == 0 && offset + 64 <= |buf|
    ensures m == BlockWords(buf, offset / 64)
  {
    var words := new bv32[16](_ => 0);
    for j := 0 to 16
      invariant words[..j] == BlockWords(buf, offset / 64)[..j]
    {
      words[j] := WordAt(buf, offset + j * 4);
    }
    m := words[..];
  }

  /** One more block extends the fold by one `Compress`. */
  lemma AfterBlocksStep(buf: seq<Byte>, offset: nat)
    requires offset % 64 == 0 && offset + 64 <= |buf|
    ensures (offset + 64) / 64 == offset / 64 + 1
    ensures AfterBlocks(buf, (offset + 64) / 64) == Compress(AfterBlocks(buf, offset / 64), BlockWords(buf, offset / 64))
  {
    assert (offset + 64) / 64 == offset / 64 + 1;
  }

  /** `md5Hex`: pad, fold every 64-byte block into `a0`..`d0`, print the digest in hex. */
  method Md5Hex(input: seq<Byte>) returns (hex: string)
    ensures hex == Md5HexOf(input)
  {
    var buf := Pad(input);
    var bytes := buf[..];
    PaddedLength(input);
    var h := Init;
    var offset := 0;
    while offset < |bytes|
      invariant offset % 64 == 0 && offset <= |bytes|
      invariant h == AfterBlocks(bytes, offset / 64)
      decreases |bytes| - offset
    {
      var m := ReadBlock(bytes, offset);
      h := ProcessBlock(h, m);
      AfterBlocksStep(bytes, offset);
      offset := offset + 64;
    }
    assert h == Digest(input);
    hex := HexOf(DigestBytes(h));
  }
}
