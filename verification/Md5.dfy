/**
 The streaming hash of src/md5.c: an object that buffers partial blocks and
 keeps the message length in two 32-bit words. For every way of cutting a
 message into chunks it yields the one-shot digest of RFC 1321.
 */
module Md5 {
  import opened Md5Compress

  type Byte = bv8

  const TWO32: nat := 0x1_0000_0000
  const TWO64: nat := 0x1_0000_0000_0000_0000

  // ---------------------------------------------------------------------
  // The specification: sections 3.1 to 3.5 of RFC 1321.
  // ---------------------------------------------------------------------

  const INITIAL: Regs := Regs(0x67452301, 0xefcdab89, 0x98badcfe, 0x10325476)

  /** A word from four bytes, low-order byte first. */
  function LoadWord(b: seq<Byte>): Word
    requires |b| == 4
  {
    (b[0] as Word) | (b[1] as Word << 8) | (b[2] as Word << 16) | (b[3] as Word << 24)
  }

  function Words(block: seq<Byte>): (x: seq<Word>)
    requires |block| == 64
    ensures |x| == 16
  {
    seq(16, i requires 0 <= i < 16 => LoadWord(block[4 * i..4 * i + 4]))
  }

  function Compress(h: Regs, block: seq<Byte>): Regs
    requires |block| == 64
  {
    CompressWords(h, Words(block))
  }

  /** What the sixty-four steps make of the registers is added to what they were. */
  lemma CompressAdds(h: Regs, block: seq<Byte>)
    requires |block| == 64
    ensures
      var r, e := Compress(h, block), Steps(h, Words(block), 64);
      r == Regs(Plus(h.a, e.a), Plus(h.b, e.b), Plus(h.c, e.c), Plus(h.d, e.d))
  {
    hide Steps, Words, Plus;
  }

  /** The registers after all complete blocks of a message; a shorter tail is ignored. */
  function Blocks(h: Regs, m: seq<Byte>): Regs
    decreases |m|
  {
    if |m| < 64 then h else Blocks(Compress(h, m[..64]), m[64..])
  }

  function Zeros(n: nat): (z: seq<Byte>)
    ensures |z| == n && forall i :: 0 <= i < n ==> z[i] == 0
  {
    seq(n, _ => 0)
  }

  function Pow256(k: nat): (p: nat)
    ensures p > 0
  {
    if k == 0 then 1 else 0x100 * Pow256(k - 1)
  }

  /** Digit k (low-order first) of a number in base 256. */
  function Digit(n: nat, k: nat): (d: nat)
    ensures d < 0x100
  {
    (n / Pow256(k)) % 0x100
  }

  function ByteAt(n: nat, k: nat): Byte
  {
    Digit(n, k) as Byte
  }

  /** The bit length modulo 2^64, as eight bytes. */
  function LengthBytes(n: nat): (b: seq<Byte>)
    ensures |b| == 8
  {
    seq(8, k requires 0 <= k < 8 => ByteAt((8 * n) % TWO64, k))
  }

  /** What is appended to a message of n bytes. */
  function Padding(n: nat): (p: seq<Byte>)
    ensures (n + |p|) % 64 == 0
  {
    [0x80] + Zeros((55 - n) % 64) + LengthBytes(n)
  }

  /** The four bytes of a word, low-order byte first. */
  function StoreWord(w: Word): seq<Byte>
  {
    [(w & 0xff) as Byte, ((w >> 8) & 0xff) as Byte,
     ((w >> 16) & 0xff) as Byte, ((w >> 24) & 0xff) as Byte]
  }

  function Output(r: Regs): (d: seq<Byte>)
    ensures |d| == 16
  {
    StoreWord(r.a) + StoreWord(r.b) + StoreWord(r.c) + StoreWord(r.d)
  }

  /** The digest of a message. */
  function Digest(m: seq<Byte>): (d: seq<Byte>)
    ensures |d| == 16
  {
    Output(Blocks(INITIAL, m + Padding(|m|)))
  }

  // ---------------------------------------------------------------------
  // Facts about the specification.
  // ---------------------------------------------------------------------

  /** Words are written to the digest in the byte order in which blocks are read. */
  lemma LoadStore(w: Word)
    ensures LoadWord(StoreWord(w)) == w
  {
  }

  lemma StoreLoad(b: seq<Byte>)
    requires |b| == 4
    ensures StoreWord(LoadWord(b)) == b
  {
  }

  /** Hashing whole blocks first and the rest later changes nothing. */
  lemma {:induction false} BlocksAppend(h: Regs, m: seq<Byte>, rest: seq<Byte>)
    requires |m| % 64 == 0
    ensures Blocks(h, m + rest) == Blocks(Blocks(h, m), rest)
    decreases |m|
  {
    if |m| == 0 {
      assert m + rest == rest;
    } else {
      assert (m + rest)[..64] == m[..64];
      assert (m + rest)[64..] == m[64..] + rest;
      BlocksAppend(Compress(h, m[..64]), m[64..], rest);
    }
  }

  /** The complete blocks of a message. */
  function Whole(m: seq<Byte>): (w: seq<Byte>)
    ensures |w| % 64 == 0
  {
    m[..|m| - |m| % 64]
  }

  /** The bytes after the last complete block. */
  function Tail(m: seq<Byte>): (t: seq<Byte>)
    ensures |t| == |m| % 64 && Whole(m) + t == m
  {
    m[|m| - |m| % 64..]
  }

  lemma ConcatAssociative<T>(a: seq<T>, b: seq<T>, c: seq<T>)
    ensures a + b + c == a + (b + c)
  {
  }

  lemma OneBlock(h: Regs, b: seq<Byte>)
    requires |b| == 64
    ensures Blocks(h, b) == Compress(h, b)
  {
    hide Compress;
    assert b[..64] == b && b[64..] == [];
  }

  /** A chunk that completes the tail makes one more block. */
  lemma CompleteBlock(m: seq<Byte>, chunk: seq<Byte>)
    requires |m| % 64 + |chunk| == 64
    ensures Whole(m + chunk) == m + chunk && Aligned(|m| + |chunk|)
    ensures Blocks(INITIAL, m + chunk)
         == Compress(Blocks(INITIAL, Whole(m)), Tail(m) + chunk)
  {
    hide Compress, Blocks, Whole, Tail, Aligned;
    FillsBlock(|m|, |chunk|);
    AllWhole(m + chunk);
    ConcatAssociative(Whole(m), Tail(m), chunk);
    LastBlock(Whole(m), Tail(m) + chunk);
  }

  lemma LastBlock(w: seq<Byte>, b: seq<Byte>)
    requires |w| % 64 == 0 && |b| == 64
    ensures Blocks(INITIAL, w + b) == Compress(Blocks(INITIAL, w), b)
  {
    hide Compress, Blocks;
    BlocksAppend(INITIAL, w, b);
    OneBlock(Blocks(INITIAL, w), b);
  }

  lemma FillsBlock(len: nat, n: nat)
    requires len % 64 + n == 64
    ensures Aligned(len + n)
  {
  }

  lemma AllWhole(m: seq<Byte>)
    requires Aligned(|m|)
    ensures Whole(m) == m
  {
  }

  /** The count words before and after adding n bytes: carry by unsigned overflow. */
  lemma CountCarry(len: nat, n: nat, c0: nat, c1: nat, c0': nat, c1': nat)
    requires n < 0x1000_0000
    requires c0 == (8 * len) % TWO32 && c1 == (8 * len) / TWO32 % TWO32
    requires c0' == (c0 + 8 * n) % TWO32
    requires c1' == (if c0' < 8 * n then (c1 + 1) % TWO32 else c1)
    ensures c0' == (8 * (len + n)) % TWO32 && c1' == (8 * (len + n)) / TWO32 % TWO32
  {
    var q := (8 * len) / TWO32;
    assert 8 * (len + n) == TWO32 * q + (c0 + 8 * n);
    if c0 + 8 * n < TWO32 {
      assert (8 * (len + n)) / TWO32 == q;
    } else {
      assert 8 * (len + n) == TWO32 * (q + 1) + (c0 + 8 * n - TWO32);
      assert (8 * (len + n)) / TWO32 == q + 1;
    }
  }

  /** The buffer offset read from the low count word. */
  lemma OffsetFromCount(len: nat, c0: nat)
    requires c0 == (8 * len) % TWO32
    ensures (c0 / 8) % 64 == len % 64
  {
    var q := (8 * len) / TWO32;
    assert 8 * len == TWO32 * q + c0;
    assert c0 / 8 == len - 0x2000_0000 * q;
    SameOffset(c0 / 8, 0x80_0000 * q);
  }

  lemma SameOffset(n: nat, k: nat)
    ensures (n + 64 * k) % 64 == n % 64
  {
  }

  lemma WordsOfLength(len: nat, c0: nat, c1: nat)
    requires c0 == (8 * len) % TWO32 && c1 == (8 * len) / TWO32 % TWO32
    ensures (8 * len) % TWO64 == TWO32 * c1 + c0
  {
  }

  lemma LowByte(c0: nat, c1: nat, k: nat)
    requires c0 < TWO32 && k < 4
    ensures Digit(TWO32 * c1 + c0, k) == Digit(c0, k)
  {
    var p := Pow256(k);
    var m := if k == 0 then 0x100_0000 else if k == 1 then 0x1_0000 else if k == 2 then 0x100 else 1;
    assert TWO32 == p * (0x100 * m) by {
      assert Pow256(1) == 0x100 && Pow256(2) == 0x1_0000;
    }
    LowQuotient(c0, c1, p, 0x100 * m);
    assert (0x100 * (m * c1) + c0 / p) % 0x100 == (c0 / p) % 0x100;
  }

  lemma LowQuotient(c0: nat, c1: nat, p: nat, m: nat)
    requires p > 0 && TWO32 == p * m
    ensures (TWO32 * c1 + c0) / p == m * c1 + c0 / p
  {
    var q := m * c1 + c0 / p;
    assert p * q == (p * m) * c1 + p * (c0 / p);
    DivUnique(TWO32 * c1 + c0, p, q, c0 % p);
  }

  lemma HighByte(c0: nat, c1: nat, k: nat)
    requires c0 < TWO32 && 4 <= k < 8
    ensures Digit(TWO32 * c1 + c0, k) == Digit(c1, k - 4)
  {
    HighPower(k);
    DivTwice(c0, c1, Pow256(k - 4));
  }

  lemma {:induction false} HighPower(k: nat)
    requires k >= 4
    ensures Pow256(k) == TWO32 * Pow256(k - 4)
    decreases k
  {
    if k == 4 {
      assert Pow256(1) == 0x100 && Pow256(2) == 0x1_0000 && Pow256(3) == 0x100_0000;
    } else {
      HighPower(k - 1);
    }
  }

  lemma DivTwice(c0: nat, c1: nat, p: nat)
    requires c0 < TWO32 && p > 0
    ensures (TWO32 * c1 + c0) / (TWO32 * p) == c1 / p
  {
    var q, r := c1 / p, c1 % p;
    assert c1 == p * q + r;
    var d := TWO32 * p;
    assert TWO32 * c1 + c0 == d * q + (TWO32 * r + c0) by {
      assert TWO32 * (p * q) == d * q;
    }
    assert TWO32 * r + c0 < d by {
      assert TWO32 * (r + 1) <= TWO32 * p;
    }
    DivUnique(TWO32 * c1 + c0, d, q, TWO32 * r + c0);
  }

  lemma DivUnique(n: nat, d: nat, q: nat, r: nat)
    requires d > 0 && n == d * q + r && r < d
    ensures n / d == q
  {
    MulMonotone(d, q + 1, n / d);
    MulMonotone(d, n / d + 1, q);
  }

  lemma MulMonotone(d: nat, x: int, y: int)
    ensures x <= y ==> d * x <= d * y
  {
  }

  /** The bytes of the two count words are the bytes of the 64-bit length. */
  lemma CountBytes(len: nat, c0: nat, c1: nat, k: nat)
    requires c0 == (8 * len) % TWO32 && c1 == (8 * len) / TWO32 % TWO32 && k < 8
    ensures LengthBytes(len)[k] == if k < 4 then ByteAt(c0, k) else ByteAt(c1, k - 4)
  {
    hide Digit;
    WordsOfLength(len, c0, c1);
    if k < 4 {
      LowByte(c0, c1, k);
    } else {
      HighByte(c0, c1, k);
    }
  }

  // ---------------------------------------------------------------------
  // The program: md5_state_t and its operations.
  // ---------------------------------------------------------------------

  class State {
    var count0: nat
    var count1: nat
    var abcd: Regs
    const buf: array<Byte>
    /** Everything appended so far. */
    ghost var message: seq<Byte>

    ghost predicate Counted()
      reads this
    {
      && count0 == (8 * |message|) % TWO32
      && count1 == (8 * |message|) / TWO32 % TWO32
    }

    ghost predicate Valid()
      reads this, buf
    {
      && buf.Length == 64
      && Counted()
      && abcd == Blocks(INITIAL, Whole(message))
      && buf[..|message| % 64] == Tail(message)
    }

    /** md5_init */
    constructor ()
      ensures Valid() && message == [] && fresh(buf)
    {
      buf := new Byte[64];
      count0, count1 := 0, 0;
      abcd := Regs(0x67452301, T_MASK ^ 0x10325476, T_MASK ^ 0x67452301, 0x10325476);
      message := [];
    }

    /** md5_process: one block, read from an array at an offset. */
    method Process(data: array<Byte>, off: nat)
      requires off + 64 <= data.Length
      modifies this`abcd
      ensures abcd == Compress(old(abcd), data[off..off + 64])
    {
      hide Words, Steps, AddRegs;
      var x := LoadBlock(data, off);
      ghost var h := abcd;
      NoSteps(h, x);
      var a, b, c, d := Round1(x, h, abcd.a, abcd.b, abcd.c, abcd.d);
      a, b, c, d := Round2(x, h, a, b, c, d);
      a, b, c, d := Round3(x, h, a, b, c, d);
      a, b, c, d := Round4(x, h, a, b, c, d);
      abcd := AddRegs(abcd, Regs(a, b, c, d));
    }

    /** memcpy into the buffer. */
    method CopyIn(data: array<Byte>, from: nat, at: nat, n: nat)
      requires from + n <= data.Length && at + n <= buf.Length && data != buf
      modifies buf
      ensures buf[..at + n] == old(buf[..at]) + data[from..from + n]
    {
      for i := 0 to n
        invariant buf[..at + i] == old(buf[..at]) + data[from..from + i]
      {
        buf[at + i] := data[from + i];
      }
    }

    /** The head of md5_append: the offset into the buffer, then the new length. */
    method AddCount(data: array<Byte>, nbytes: nat) returns (offset: nat)
      requires Counted() && 0 < nbytes <= data.Length && nbytes < 0x1000_0000
      modifies this`count0, this`count1, this`message
      ensures Counted() && offset == |old(message)| % 64
      ensures message == old(message) + data[..nbytes]
    {
      OffsetFromCount(|message|, count0);
      offset := (count0 / 8) % 64;
      var nbits := 8 * nbytes;

      ghost var c0, c1 := count0, count1;
      count1 := (count1 + nbytes / 0x2000_0000) % TWO32;
      count0 := (count0 + nbits) % TWO32;
      if count0 < nbits {
        count1 := (count1 + 1) % TWO32;
      }
      CountCarry(|message|, nbytes, c0, c1, count0, count1);
      message := message + data[..nbytes];
    }

    /** The full blocks of md5_append. */
    method ProcessBlocks(data: array<Byte>, p0: nat, left0: nat, ghost m: seq<Byte>)
      returns (p: nat, left: nat)
      requires p0 + left0 <= data.Length && Aligned(|m| + p0)
      requires abcd == Blocks(INITIAL, m + data[..p0])
      modifies this`abcd
      ensures p + left == p0 + left0 && left < 64 && Aligned(|m| + p)
      ensures abcd == Blocks(INITIAL, m + data[..p])
    {
      hide Compress, Blocks, Aligned;
      ghost var chunk := data[..];
      p, left := p0, left0;
      while left >= 64
        invariant p + left == p0 + left0 && Aligned(|m| + p)
        invariant abcd == Blocks(INITIAL, m + chunk[..p])
      {
        Process(data, p);
        NextBlock(m, chunk, p);
        p := p + 64;
        left := left - 64;
      }
    }

    /** The initial partial block of md5_append: copy, and hash the block if it is complete. */
    method FillBuffer(data: array<Byte>, offset: nat, nbytes: nat, ghost m: seq<Byte>)
      returns (copy: nat)
      requires buf.Length == 64 && data != buf && 0 < offset == |m| % 64 && nbytes <= data.Length
      requires abcd == Blocks(INITIAL, Whole(m)) && buf[..offset] == Tail(m)
      modifies this`abcd, buf
      ensures copy == if offset + nbytes > 64 then 64 - offset else nbytes
      ensures offset + copy < 64 ==>
                abcd == old(abcd) && buf[..offset + nbytes] == Tail(m) + data[..nbytes]
      ensures offset + copy == 64 ==>
                Aligned(|m| + copy) && abcd == Blocks(INITIAL, m + data[..copy])
    {
      hide Compress, Blocks, Whole, Tail, Aligned;
      copy := if offset + nbytes > 64 then 64 - offset else nbytes;
      CopyIn(data, 0, offset, copy);
      assert buf[..offset + copy] == Tail(m) + data[..copy];
      if offset + copy == 64 {
        Process(buf, 0);
        CompleteBlock(m, data[..copy]);
      }
    }

    /** The final partial block of md5_append. */
    method StoreRest(data: array<Byte>, p: nat, nbytes: nat, ghost m: seq<Byte>)
      requires buf.Length == 64 && data != buf && Counted()
      requires p <= nbytes <= data.Length && nbytes - p < 64 && Aligned(|m| + p)
      requires message == m + data[..nbytes] && abcd == Blocks(INITIAL, m + data[..p])
      modifies buf
      ensures Valid()
    {
      hide Compress, Blocks, Whole, Tail, Aligned;
      ghost var chunk := data[..nbytes];
      Remainder(m, chunk, p);
      assert chunk[..p] == data[..p] && chunk[p..] == data[p..nbytes];
      if nbytes - p != 0 {
        CopyIn(data, p, 0, nbytes - p);
      }
    }

    /** md5_append */
    method Append(data: array<Byte>, nbytes: int)
      requires Valid() && data != buf
      requires nbytes <= data.Length && nbytes < 0x1000_0000
      modifies this, buf
      ensures Valid()
      ensures message == old(message) + data[..if nbytes > 0 then nbytes else 0]
    {
      hide Compress, Blocks, Whole, Tail, Aligned;
      AppendNothing(message, data[..0]);
      if nbytes <= 0 {
        return;
      }
      ghost var m := message;
      var offset := AddCount(data, nbytes);
      var p, left := 0, nbytes;
      if offset != 0 {
        var copy := FillBuffer(data, offset, nbytes, m);
        if offset + copy < 64 {
          StillPartial(m, data[..nbytes]);
          return;
        }
        p := copy;
        left := left - copy;
      } else {
        AtBoundary(m);
      }
      p, left := ProcessBlocks(data, p, left, m);
      StoreRest(data, p, nbytes, m);
    }

    /** The eight length bytes that md5_finish saves before it pads. */
    method SaveLength() returns (data: array<Byte>)
      requires Counted()
      ensures fresh(data) && data[..] == LengthBytes(|message|)
    {
      hide LengthBytes, ByteAt, Digit;
      data := new Byte[8];
      for i := 0 to 8
        invariant forall k :: 0 <= k < i ==> data[k] == LengthBytes(|message|)[k]
      {
        CountBytes(|message|, count0, count1, i);
        data[i] := if i < 4 then ByteAt(count0, i) else ByteAt(count1, i - 4);
      }
    }

    /** md5_finish */
    method Finish() returns (digest: seq<Byte>)
      requires Valid()
      modifies this, buf
      ensures digest == Digest(old(message))
    {
      hide Blocks, LengthBytes, Output, Whole, Tail;
      ghost var m := message;
      var pad := new Byte[64](i => if i == 0 then 0x80 else 0);
      var data := SaveLength();
      OffsetFromCount(|m|, count0);
      var n := (55 - count0 / 8) % 64 + 1;
      PadLength(|m|, count0 / 8);
      assert pad[..n] == [0x80] + Zeros(n - 1);
      Append(pad, n);
      Append(data, 8);
      assert data[..8] == data[..];
      ConcatAssociative(m, [0x80] + Zeros(n - 1), LengthBytes(|m|));
      assert message == m + Padding(|m|);
      AtBoundary(message);
      digest := Output(abcd);
    }
  }

  lemma PadLength(len: nat, c: nat)
    requires c % 64 == len % 64
    ensures (55 - c) % 64 == (55 - len) % 64
  {
    assert (55 - c) % 64 == (55 - c % 64) % 64;
    assert (55 - len) % 64 == (55 - len % 64) % 64;
  }

  // ---------------------------------------------------------------------
  // The chunked hashing loop of src/util.cpp.
  // ---------------------------------------------------------------------

  function Flatten(chunks: seq<seq<Byte>>): seq<Byte>
  {
    if chunks == [] then [] else Flatten(chunks[..|chunks| - 1]) + chunks[|chunks| - 1]
  }

  const HEX_DIGITS: string := "0123456789abcdef"

  function HexDigit(d: nat): (c: char)
    requires d < 16
    ensures c == if d < 10 then '0' + d as char else 'a' + (d - 10) as char
  {
    HEX_DIGITS[d]
  }

  /** The "%02x" format. */
  function HexNumber(n: nat): (s: string)
    requires n < 256
    ensures |s| == 2
  {
    [HexDigit(n / 16), HexDigit(n % 16)]
  }

  function HexByte(b: Byte): (s: string)
    ensures |s| == 2
  {
    HexNumber(b as int)
  }

  lemma HexNumberInjective(m: nat, n: nat)
    requires m < 256 && n < 256 && HexNumber(m) == HexNumber(n)
    ensures m == n
  {
    hide HexDigit;
    var s, t := HexNumber(m), HexNumber(n);
    assert s[0] == HexDigit(m / 16) && t[0] == HexDigit(n / 16);
    assert s[1] == HexDigit(m % 16) && t[1] == HexDigit(n % 16);
    HexDigitInjective(m / 16, n / 16);
    HexDigitInjective(m % 16, n % 16);
  }

  lemma HexByteInjective(b: Byte, c: Byte)
    requires HexByte(b) == HexByte(c)
    ensures b == c
  {
    hide HexNumber;
    HexNumberInjective(b as int, c as int);
    ByteOfInt(b, b as int);
    ByteOfInt(c, c as int);
  }

  lemma ByteOfInt(b: Byte, n: nat)
    requires n == b as int
    ensures n as Byte == b
  {
  }

  lemma HexDigitInjective(d: nat, e: nat)
    requires d < 16 && e < 16 && HexDigit(d) == HexDigit(e)
    ensures d == e
  {
  }

  /** Two lower-case digits per byte, high digit first. */
  function Hex(d: seq<Byte>): (s: string)
    ensures |s| == 2 * |d|
  {
    if d == [] then "" else Hex(d[..|d| - 1]) + HexByte(d[|d| - 1])
  }

  /** The value of a lower-case hexadecimal digit. */
  function HexValue(c: char): int
  {
    if '0' <= c <= '9' then c as int - '0' as int else c as int - 'a' as int + 10
  }

  /** A byte is read back from its two lower-case digits, high digit first. */
  lemma HexNumberReads(n: nat)
    requires n < 256
    ensures forall i :: 0 <= i < 2 ==> '0' <= HexNumber(n)[i] <= '9' || 'a' <= HexNumber(n)[i] <= 'f'
    ensures 16 * HexValue(HexNumber(n)[0]) + HexValue(HexNumber(n)[1]) == n
  {
  }

  /** The digits of byte i are at 2i and 2i + 1. */
  lemma {:induction false} HexAt(d: seq<Byte>, i: nat)
    requires i < |d|
    ensures Hex(d)[2 * i..2 * i + 2] == HexByte(d[i])
    decreases |d|
  {
    hide HexByte;
    var n := |d| - 1;
    if i < n {
      HexAt(d[..n], i);
      assert Hex(d)[2 * i..2 * i + 2] == Hex(d[..n])[2 * i..2 * i + 2];
    }
  }

  /** The printed checksum determines the digest. */
  lemma {:induction false} HexInjective(d: seq<Byte>, e: seq<Byte>)
    requires Hex(d) == Hex(e)
    ensures d == e
  {
    hide HexByte;
    assert |Hex(d)| == |Hex(e)|;
    if d != [] {
      var n := |d| - 1;
      SamePieces(Hex(d[..n]), HexByte(d[n]), Hex(e[..n]), HexByte(e[n]));
      HexInjective(d[..n], e[..n]);
      HexByteInjective(d[n], e[n]);
      assert d == d[..n] + [d[n]] && e == e[..n] + [e[n]];
    }
  }

  lemma SamePieces<T>(a: seq<T>, b: seq<T>, c: seq<T>, d: seq<T>)
    requires |a| == |c| && a + b == c + d
    ensures a == c && b == d
  {
    PrefixSuffix(a, b);
    PrefixSuffix(c, d);
  }

  method HexOutput(digest: seq<Byte>) returns (hex: string)
    ensures hex == Hex(digest)
  {
    hide HexByte;
    hex := "";
    for di := 0 to |digest|
      invariant hex == Hex(digest[..di])
    {
      assert digest[..di + 1][..di] == digest[..di];
      hex := hex + HexByte(digest[di]);
    }
    assert digest[..|digest|] == digest;
  }

  /** get_md5sum: the results of the successive reads, each at most the buffer size. */
  method HashChunks(chunks: seq<seq<Byte>>) returns (hex: string)
    requires forall c :: c in chunks ==> 0 < |c| <= 1024
    ensures hex == Hex(Digest(Flatten(chunks)))
  {
    hide Digest, Output, Blocks, Whole, Tail;
    var state := new State();
    var buff := new Byte[1024];
    for i := 0 to |chunks|
      invariant state.Valid() && fresh(state) && fresh(state.buf) && state.buf != buff
      invariant state.message == Flatten(chunks[..i])
    {
      var chunk := chunks[i];
      assert chunk in chunks;
      ReadInto(buff, chunk);
      state.Append(buff, |chunk|);
      assert chunks[..i + 1][..i] == chunks[..i];
    }
    assert chunks[..|chunks|] == chunks;
    var digest := state.Finish();
    hex := HexOutput(digest);
  }

  method ReadInto(buff: array<Byte>, chunk: seq<Byte>)
    requires |chunk| <= buff.Length
    modifies buff
    ensures buff[..|chunk|] == chunk
  {
    for i := 0 to |chunk|
      invariant buff[..i] == chunk[..i]
    {
      buff[i] := chunk[i];
    }
  }

  lemma AtBoundary(m: seq<Byte>)
    requires |m| % 64 == 0
    ensures Aligned(|m|) && Whole(m) == m
  {
  }

  predicate Aligned(n: nat) { n % 64 == 0 }

  lemma NoSteps(h: Regs, x: seq<Word>)
    requires |x| == 16
    ensures Steps(h, x, 0) == h
  {
  }

  lemma NextBlock(m: seq<Byte>, chunk: seq<Byte>, p: nat)
    requires p + 64 <= |chunk| && Aligned(|m| + p)
    ensures Aligned(|m| + p + 64)
    ensures Blocks(INITIAL, m + chunk[..p + 64])
         == Compress(Blocks(INITIAL, m + chunk[..p]), chunk[p..p + 64])
  {
    hide Compress, Blocks;
    var w, b := m + chunk[..p], chunk[p..p + 64];
    SplitAt(m, chunk, p, p + 64);
    BlocksAppend(INITIAL, w, b);
    OneBlock(Blocks(INITIAL, w), b);
  }

  lemma SplitAt<T>(m: seq<T>, chunk: seq<T>, p: nat, q: nat)
    requires p <= q <= |chunk|
    ensures m + chunk[..q] == m + chunk[..p] + chunk[p..q]
  {
  }

  lemma StillPartial(m: seq<Byte>, chunk: seq<Byte>)
    requires |m| % 64 + |chunk| < 64
    ensures |m + chunk| % 64 == |m| % 64 + |chunk|
    ensures Whole(m + chunk) == Whole(m) && Tail(m + chunk) == Tail(m) + chunk
  {
    ConcatAssociative(Whole(m), Tail(m), chunk);
    assert |m + chunk| % 64 == |m| % 64 + |chunk|;
    PrefixSuffix(Whole(m), Tail(m) + chunk);
  }

  lemma Remainder(m: seq<Byte>, chunk: seq<Byte>, p: nat)
    requires p <= |chunk| < p + 64 && Aligned(|m| + p)
    ensures |m + chunk| % 64 == |chunk| - p
    ensures Whole(m + chunk) == m + chunk[..p] && Tail(m + chunk) == chunk[p..]
  {
    SplitAt(m, chunk, p, |chunk|);
    assert chunk[..|chunk|] == chunk && chunk[p..|chunk|] == chunk[p..];
    assert |m + chunk| % 64 == |chunk| - p;
    PrefixSuffix(m + chunk[..p], chunk[p..]);
  }

  lemma AppendNothing<T>(a: seq<T>, b: seq<T>)
    requires b == []
    ensures a + b == a
  {
  }

  lemma PrefixSuffix<T>(a: seq<T>, b: seq<T>)
    ensures (a + b)[..|a|] == a && (a + b)[|a|..] == b
  {
  }

  lemma FourOf<T>(s: seq<T>, p: nat)
    requires p + 4 <= |s|
    ensures s[p..p + 4] == [s[p], s[p + 1], s[p + 2], s[p + 3]]
  {
  }

  /** The byte-to-word loads of md5_process. */
  method LoadBlock(data: array<Byte>, off: nat) returns (x: seq<Word>)
    requires off + 64 <= data.Length
    ensures x == Words(data[off..off + 64])
  {
    hide LoadWord;
    x := [];
    ghost var block := data[off..off + 64];
    for i := 0 to 16
      invariant |x| == i
      invariant forall k :: 0 <= k < i ==> x[k] == Words(block)[k]
    {
      var j := off + 4 * i;
      var w := JoinBytes(data[j], data[j + 1], data[j + 2], data[j + 3]);
      FourOf(block, 4 * i);
      x := x + [w];
    }
  }

  /** Shift and add, as the byte-order-neutral path of md5_process does. */
  method JoinBytes(b0: Byte, b1: Byte, b2: Byte, b3: Byte) returns (w: Word)
    ensures w == LoadWord([b0, b1, b2, b3])
  {
    w := (b0 as Word) + (b1 as Word << 8) + (b2 as Word << 16) + (b3 as Word << 24);
  }
}
