/**
 The compression step of src/md5.c (md5_process), proved equal to the
 table-driven loop of section 3.4 of RFC 1321.
 */
module Md5Compress {
  type Word = bv32

  // ---------------------------------------------------------------------
  // The specification: section 3.4 of RFC 1321.
  // ---------------------------------------------------------------------

  function F(x: Word, y: Word, z: Word): Word { (x & y) | (!x & z) }
  function G(x: Word, y: Word, z: Word): Word { (x & z) | (y & !z) }
  function H(x: Word, y: Word, z: Word): Word { x ^ y ^ z }
  function I(x: Word, y: Word, z: Word): Word { y ^ (x | !z) }

  /** Addition modulo 2^32. */
  function Plus(x: Word, y: Word): Word { x + y }
  function Sum4(w: Word, x: Word, y: Word, z: Word): Word { w + x + y + z }

  /** Circular left shift. */
  function RotL(x: Word, n: nat): Word
    requires n < 32
  {
    x.RotateLeft(n)
  }

  /** The registers A, B, C, D. */
  datatype Regs = Regs(a: Word, b: Word, c: Word, d: Word)

  /** The sine table: entry i is the integer part of 2^32 * |sin(i+1)|. */
  function Sine(i: nat): Word
    requires i < 64
  {
    if i < 16 then Sine1(i) else if i < 32 then Sine2(i)
    else if i < 48 then Sine3(i) else Sine4(i)
  }

  function Sine1(i: nat): Word
  {
    match i
    case 0 => 0xd76aa478
    case 1 => 0xe8c7b756
    case 2 => 0x242070db
    case 3 => 0xc1bdceee
    case 4 => 0xf57c0faf
    case 5 => 0x4787c62a
    case 6 => 0xa8304613
    case 7 => 0xfd469501
    case 8 => 0x698098d8
    case 9 => 0x8b44f7af
    case 10 => 0xffff5bb1
    case 11 => 0x895cd7be
    case 12 => 0x6b901122
    case 13 => 0xfd987193
    case 14 => 0xa679438e
    case _ => 0x49b40821
  }

  function Sine2(i: nat): Word
  {
    match i
    case 16 => 0xf61e2562
    case 17 => 0xc040b340
    case 18 => 0x265e5a51
    case 19 => 0xe9b6c7aa
    case 20 => 0xd62f105d
    case 21 => 0x02441453
    case 22 => 0xd8a1e681
    case 23 => 0xe7d3fbc8
    case 24 => 0x21e1cde6
    case 25 => 0xc33707d6
    case 26 => 0xf4d50d87
    case 27 => 0x455a14ed
    case 28 => 0xa9e3e905
    case 29 => 0xfcefa3f8
    case 30 => 0x676f02d9
    case _ => 0x8d2a4c8a
  }

  function Sine3(i: nat): Word
  {
    match i
    case 32 => 0xfffa3942
    case 33 => 0x8771f681
    case 34 => 0x6d9d6122
    case 35 => 0xfde5380c
    case 36 => 0xa4beea44
    case 37 => 0x4bdecfa9
    case 38 => 0xf6bb4b60
    case 39 => 0xbebfbc70
    case 40 => 0x289b7ec6
    case 41 => 0xeaa127fa
    case 42 => 0xd4ef3085
    case 43 => 0x04881d05
    case 44 => 0xd9d4d039
    case 45 => 0xe6db99e5
    case 46 => 0x1fa27cf8
    case _ => 0xc4ac5665
  }

  function Sine4(i: nat): Word
  {
    match i
    case 48 => 0xf4292244
    case 49 => 0x432aff97
    case 50 => 0xab9423a7
    case 51 => 0xfc93a039
    case 52 => 0x655b59c3
    case 53 => 0x8f0ccc92
    case 54 => 0xffeff47d
    case 55 => 0x85845dd1
    case 56 => 0x6fa87e4f
    case 57 => 0xfe2ce6e0
    case 58 => 0xa3014314
    case 59 => 0x4e0811a1
    case 60 => 0xf7537e82
    case 61 => 0xbd3af235
    case 62 => 0x2ad7d2bb
    case _ => 0xeb86d391
  }


  /** The shift amounts, four per round. */
  const SHIFTS: seq<nat> := [7, 12, 17, 22, 5, 9, 14, 20, 4, 11, 16, 23, 6, 10, 15, 21]

  /** The auxiliary function of step i. */
  function Mix(i: nat, x: Word, y: Word, z: Word): Word
  {
    if i < 16 then F(x, y, z) else if i < 32 then G(x, y, z)
    else if i < 48 then H(x, y, z) else I(x, y, z)
  }

  /** Which word of the block step i reads. */
  function WordIndex(i: nat): (k: nat)
    ensures k < 16
  {
    if i < 16 then i else if i < 32 then (5 * i + 1) % 16
    else if i < 48 then (3 * i + 5) % 16 else (7 * i) % 16
  }

  function ShiftOf(i: nat): (s: nat)
    requires i < 64
    ensures 0 < s < 32
  {
    SHIFTS[4 * (i / 16) + i % 4]
  }

  /** The word that step i computes. */
  function NewWord(i: nat, a: Word, b: Word, c: Word, d: Word, xk: Word): Word
    requires i < 64
  {
    Plus(RotL(Sum4(a, Mix(i, b, c, d), xk, Sine(i)), ShiftOf(i)), b)
  }

  /** One step of the loop: compute a new word, then rotate the registers. */
  function Step(r: Regs, x: seq<Word>, i: nat): Regs
    requires |x| == 16 && i < 64
  {
    Regs(r.d, NewWord(i, r.a, r.b, r.c, r.d, x[WordIndex(i)]), r.b, r.c)
  }

  /** The first n steps. */
  function Steps(r: Regs, x: seq<Word>, n: nat): Regs
    requires |x| == 16 && n <= 64
  {
    if n == 0 then r else Step(Steps(r, x, n - 1), x, n - 1)
  }

  /** Four steps bring the registers back to their original roles. */
  lemma FourSteps(r: Regs, x: seq<Word>, n: nat, a: Word, b: Word, c: Word, d: Word)
    requires |x| == 16 && n + 4 <= 64
    requires Regs(a, b, c, d) == Steps(r, x, n)
    ensures
      var a' := NewWord(n, a, b, c, d, x[WordIndex(n)]);
      var d' := NewWord(n + 1, d, a', b, c, x[WordIndex(n + 1)]);
      var c' := NewWord(n + 2, c, d', a', b, x[WordIndex(n + 2)]);
      var b' := NewWord(n + 3, b, c', d', a', x[WordIndex(n + 3)]);
      Steps(r, x, n + 4) == Regs(a', b', c', d')
  {
    hide NewWord, WordIndex;
    assert Steps(r, x, n + 2) == Step(Steps(r, x, n + 1), x, n + 1);
  }

  function AddRegs(p: Regs, q: Regs): Regs
  {
    Regs(Plus(p.a, q.a), Plus(p.b, q.b), Plus(p.c, q.c), Plus(p.d, q.d))
  }

  /** The chaining function: what one block does to the registers. */
  function CompressWords(h: Regs, x: seq<Word>): Regs
    requires |x| == 16
  {
    AddRegs(h, Steps(h, x, 64))
  }

  // ---------------------------------------------------------------------
  // The program: unrolled rounds with rotating register roles.
  // ---------------------------------------------------------------------

  const T_MASK: Word := 0xffffffff

  /** The ROTATE_LEFT macro: two shifts and an or. */
  function Rotate(x: Word, n: nat): (r: Word)
    requires 0 < n < 32
    ensures r == RotL(x, n)
  {
    (x << n) | (x >> (32 - n))
  }

  /** The SET macro of round 1; the step number is only there for the proof. */
  method SetF(ghost i: nat, a: Word, b: Word, c: Word, d: Word, xk: Word, s: nat, ti: Word)
    returns (r: Word)
    requires 0 <= i < 16 && s == ShiftOf(i) && ti == Sine(i)
    ensures r == NewWord(i, a, b, c, d, xk)
  {
    hide Sine, ShiftOf, Rotate, RotL, F, G, H, I, Plus, Sum4;
    var t := Sum4(a, F(b, c, d), xk, ti);
    r := Plus(Rotate(t, s), b);
  }

  /** The SET macro of round 2; the step number is only there for the proof. */
  method SetG(ghost i: nat, a: Word, b: Word, c: Word, d: Word, xk: Word, s: nat, ti: Word)
    returns (r: Word)
    requires 16 <= i < 32 && s == ShiftOf(i) && ti == Sine(i)
    ensures r == NewWord(i, a, b, c, d, xk)
  {
    hide Sine, ShiftOf, Rotate, RotL, F, G, H, I, Plus, Sum4;
    var t := Sum4(a, G(b, c, d), xk, ti);
    r := Plus(Rotate(t, s), b);
  }

  /** The SET macro of round 3; the step number is only there for the proof. */
  method SetH(ghost i: nat, a: Word, b: Word, c: Word, d: Word, xk: Word, s: nat, ti: Word)
    returns (r: Word)
    requires 32 <= i < 48 && s == ShiftOf(i) && ti == Sine(i)
    ensures r == NewWord(i, a, b, c, d, xk)
  {
    hide Sine, ShiftOf, Rotate, RotL, F, G, H, I, Plus, Sum4;
    var t := Sum4(a, H(b, c, d), xk, ti);
    r := Plus(Rotate(t, s), b);
  }

  /** The SET macro of round 4; the step number is only there for the proof. */
  method SetI(ghost i: nat, a: Word, b: Word, c: Word, d: Word, xk: Word, s: nat, ti: Word)
    returns (r: Word)
    requires 48 <= i < 64 && s == ShiftOf(i) && ti == Sine(i)
    ensures r == NewWord(i, a, b, c, d, xk)
  {
    hide Sine, ShiftOf, Rotate, RotL, F, G, H, I, Plus, Sum4;
    var t := Sum4(a, I(b, c, d), xk, ti);
    r := Plus(Rotate(t, s), b);
  }

  /** The inline word indices, shifts and constants of round 1 agree with the tables. */
  lemma Indices1()
    ensures WordIndex(0) == 0 && ShiftOf(0) == 7
    ensures WordIndex(1) == 1 && ShiftOf(1) == 12
    ensures WordIndex(2) == 2 && ShiftOf(2) == 17
    ensures WordIndex(3) == 3 && ShiftOf(3) == 22
    ensures WordIndex(4) == 4 && ShiftOf(4) == 7
    ensures WordIndex(5) == 5 && ShiftOf(5) == 12
    ensures WordIndex(6) == 6 && ShiftOf(6) == 17
    ensures WordIndex(7) == 7 && ShiftOf(7) == 22
    ensures WordIndex(8) == 8 && ShiftOf(8) == 7
    ensures WordIndex(9) == 9 && ShiftOf(9) == 12
    ensures WordIndex(10) == 10 && ShiftOf(10) == 17
    ensures WordIndex(11) == 11 && ShiftOf(11) == 22
    ensures WordIndex(12) == 12 && ShiftOf(12) == 7
    ensures WordIndex(13) == 13 && ShiftOf(13) == 12
    ensures WordIndex(14) == 14 && ShiftOf(14) == 17
    ensures WordIndex(15) == 15 && ShiftOf(15) == 22
  {
  }

  lemma Sines1()
    ensures Sine(0) == T_MASK ^ 0x28955b87
    ensures Sine(1) == T_MASK ^ 0x173848a9
    ensures Sine(2) == 0x242070db
    ensures Sine(3) == T_MASK ^ 0x3e423111
    ensures Sine(4) == T_MASK ^ 0x0a83f050
    ensures Sine(5) == 0x4787c62a
    ensures Sine(6) == T_MASK ^ 0x57cfb9ec
    ensures Sine(7) == T_MASK ^ 0x02b96afe
    ensures Sine(8) == 0x698098d8
    ensures Sine(9) == T_MASK ^ 0x74bb0850
    ensures Sine(10) == T_MASK ^ 0x0000a44e
    ensures Sine(11) == T_MASK ^ 0x76a32841
    ensures Sine(12) == 0x6b901122
    ensures Sine(13) == T_MASK ^ 0x02678e6c
    ensures Sine(14) == T_MASK ^ 0x5986bc71
    ensures Sine(15) == 0x49b40821
  {
  }

  /** Round 1 of md5_process: sixteen assignments whose register roles rotate. */
  method Round1(x: seq<Word>, ghost r0: Regs, a0: Word, b0: Word, c0: Word, d0: Word)
    returns (a: Word, b: Word, c: Word, d: Word)
    requires |x| == 16
    requires Regs(a0, b0, c0, d0) == Steps(r0, x, 0)
    ensures Regs(a, b, c, d) == Steps(r0, x, 16)
  {
    hide NewWord, Steps, Step, Sine, ShiftOf, WordIndex;
    Indices1(); Sines1();
    a, b, c, d := a0, b0, c0, d0;
    FourSteps(r0, x, 0, a, b, c, d);
    a := SetF(0, a, b, c, d, x[0], 7, T_MASK ^ 0x28955b87);
    d := SetF(1, d, a, b, c, x[1], 12, T_MASK ^ 0x173848a9);
    c := SetF(2, c, d, a, b, x[2], 17, 0x242070db);
    b := SetF(3, b, c, d, a, x[3], 22, T_MASK ^ 0x3e423111);
    FourSteps(r0, x, 4, a, b, c, d);
    a := SetF(4, a, b, c, d, x[4], 7, T_MASK ^ 0x0a83f050);
    d := SetF(5, d, a, b, c, x[5], 12, 0x4787c62a);
    c := SetF(6, c, d, a, b, x[6], 17, T_MASK ^ 0x57cfb9ec);
    b := SetF(7, b, c, d, a, x[7], 22, T_MASK ^ 0x02b96afe);
    FourSteps(r0, x, 8, a, b, c, d);
    a := SetF(8, a, b, c, d, x[8], 7, 0x698098d8);
    d := SetF(9, d, a, b, c, x[9], 12, T_MASK ^ 0x74bb0850);
    c := SetF(10, c, d, a, b, x[10], 17, T_MASK ^ 0x0000a44e);
    b := SetF(11, b, c, d, a, x[11], 22, T_MASK ^ 0x76a32841);
    FourSteps(r0, x, 12, a, b, c, d);
    a := SetF(12, a, b, c, d, x[12], 7, 0x6b901122);
    d := SetF(13, d, a, b, c, x[13], 12, T_MASK ^ 0x02678e6c);
    c := SetF(14, c, d, a, b, x[14], 17, T_MASK ^ 0x5986bc71);
    b := SetF(15, b, c, d, a, x[15], 22, 0x49b40821);
  }

  /** The inline word indices, shifts and constants of round 2 agree with the tables. */
  lemma Indices2()
    ensures WordIndex(16) == 1 && ShiftOf(16) == 5
    ensures WordIndex(17) == 6 && ShiftOf(17) == 9
    ensures WordIndex(18) == 11 && ShiftOf(18) == 14
    ensures WordIndex(19) == 0 && ShiftOf(19) == 20
    ensures WordIndex(20) == 5 && ShiftOf(20) == 5
    ensures WordIndex(21) == 10 && ShiftOf(21) == 9
    ensures WordIndex(22) == 15 && ShiftOf(22) == 14
    ensures WordIndex(23) == 4 && ShiftOf(23) == 20
    ensures WordIndex(24) == 9 && ShiftOf(24) == 5
    ensures WordIndex(25) == 14 && ShiftOf(25) == 9
    ensures WordIndex(26) == 3 && ShiftOf(26) == 14
    ensures WordIndex(27) == 8 && ShiftOf(27) == 20
    ensures WordIndex(28) == 13 && ShiftOf(28) == 5
    ensures WordIndex(29) == 2 && ShiftOf(29) == 9
    ensures WordIndex(30) == 7 && ShiftOf(30) == 14
    ensures WordIndex(31) == 12 && ShiftOf(31) == 20
  {
  }

  lemma Sines2()
    ensures Sine(16) == T_MASK ^ 0x09e1da9d
    ensures Sine(17) == T_MASK ^ 0x3fbf4cbf
    ensures Sine(18) == 0x265e5a51
    ensures Sine(19) == T_MASK ^ 0x16493855
    ensures Sine(20) == T_MASK ^ 0x29d0efa2
    ensures Sine(21) == 0x02441453
    ensures Sine(22) == T_MASK ^ 0x275e197e
    ensures Sine(23) == T_MASK ^ 0x182c0437
    ensures Sine(24) == 0x21e1cde6
    ensures Sine(25) == T_MASK ^ 0x3cc8f829
    ensures Sine(26) == T_MASK ^ 0x0b2af278
    ensures Sine(27) == 0x455a14ed
    ensures Sine(28) == T_MASK ^ 0x561c16fa
    ensures Sine(29) == T_MASK ^ 0x03105c07
    ensures Sine(30) == 0x676f02d9
    ensures Sine(31) == T_MASK ^ 0x72d5b375
  {
  }

  /** Round 2 of md5_process: sixteen assignments whose register roles rotate. */
  method Round2(x: seq<Word>, ghost r0: Regs, a0: Word, b0: Word, c0: Word, d0: Word)
    returns (a: Word, b: Word, c: Word, d: Word)
    requires |x| == 16
    requires Regs(a0, b0, c0, d0) == Steps(r0, x, 16)
    ensures Regs(a, b, c, d) == Steps(r0, x, 32)
  {
    hide NewWord, Steps, Step, Sine, ShiftOf, WordIndex;
    Indices2(); Sines2();
    a, b, c, d := a0, b0, c0, d0;
    FourSteps(r0, x, 16, a, b, c, d);
    a := SetG(16, a, b, c, d, x[1], 5, T_MASK ^ 0x09e1da9d);
    d := SetG(17, d, a, b, c, x[6], 9, T_MASK ^ 0x3fbf4cbf);
    c := SetG(18, c, d, a, b, x[11], 14, 0x265e5a51);
    b := SetG(19, b, c, d, a, x[0], 20, T_MASK ^ 0x16493855);
    FourSteps(r0, x, 20, a, b, c, d);
    a := SetG(20, a, b, c, d, x[5], 5, T_MASK ^ 0x29d0efa2);
    d := SetG(21, d, a, b, c, x[10], 9, 0x02441453);
    c := SetG(22, c, d, a, b, x[15], 14, T_MASK ^ 0x275e197e);
    b := SetG(23, b, c, d, a, x[4], 20, T_MASK ^ 0x182c0437);
    FourSteps(r0, x, 24, a, b, c, d);
    a := SetG(24, a, b, c, d, x[9], 5, 0x21e1cde6);
    d := SetG(25, d, a, b, c, x[14], 9, T_MASK ^ 0x3cc8f829);
    c := SetG(26, c, d, a, b, x[3], 14, T_MASK ^ 0x0b2af278);
    b := SetG(27, b, c, d, a, x[8], 20, 0x455a14ed);
    FourSteps(r0, x, 28, a, b, c, d);
    a := SetG(28, a, b, c, d, x[13], 5, T_MASK ^ 0x561c16fa);
    d := SetG(29, d, a, b, c, x[2], 9, T_MASK ^ 0x03105c07);
    c := SetG(30, c, d, a, b, x[7], 14, 0x676f02d9);
    b := SetG(31, b, c, d, a, x[12], 20, T_MASK ^ 0x72d5b375);
  }

  /** The inline word indices, shifts and constants of round 3 agree with the tables. */
  lemma Indices3()
    ensures WordIndex(32) == 5 && ShiftOf(32) == 4
    ensures WordIndex(33) == 8 && ShiftOf(33) == 11
    ensures WordIndex(34) == 11 && ShiftOf(34) == 16
    ensures WordIndex(35) == 14 && ShiftOf(35) == 23
    ensures WordIndex(36) == 1 && ShiftOf(36) == 4
    ensures WordIndex(37) == 4 && ShiftOf(37) == 11
    ensures WordIndex(38) == 7 && ShiftOf(38) == 16
    ensures WordIndex(39) == 10 && ShiftOf(39) == 23
    ensures WordIndex(40) == 13 && ShiftOf(40) == 4
    ensures WordIndex(41) == 0 && ShiftOf(41) == 11
    ensures WordIndex(42) == 3 && ShiftOf(42) == 16
    ensures WordIndex(43) == 6 && ShiftOf(43) == 23
    ensures WordIndex(44) == 9 && ShiftOf(44) == 4
    ensures WordIndex(45) == 12 && ShiftOf(45) == 11
    ensures WordIndex(46) == 15 && ShiftOf(46) == 16
    ensures WordIndex(47) == 2 && ShiftOf(47) == 23
  {
  }

  lemma Sines3()
    ensures Sine(32) == T_MASK ^ 0x0005c6bd
    ensures Sine(33) == T_MASK ^ 0x788e097e
    ensures Sine(34) == 0x6d9d6122
    ensures Sine(35) == T_MASK ^ 0x021ac7f3
    ensures Sine(36) == T_MASK ^ 0x5b4115bb
    ensures Sine(37) == 0x4bdecfa9
    ensures Sine(38) == T_MASK ^ 0x0944b49f
    ensures Sine(39) == T_MASK ^ 0x4140438f
    ensures Sine(40) == 0x289b7ec6
    ensures Sine(41) == T_MASK ^ 0x155ed805
    ensures Sine(42) == T_MASK ^ 0x2b10cf7a
    ensures Sine(43) == 0x04881d05
    ensures Sine(44) == T_MASK ^ 0x262b2fc6
    ensures Sine(45) == T_MASK ^ 0x1924661a
    ensures Sine(46) == 0x1fa27cf8
    ensures Sine(47) == T_MASK ^ 0x3b53a99a
  {
  }

  /** Round 3 of md5_process: sixteen assignments whose register roles rotate. */
  method Round3(x: seq<Word>, ghost r0: Regs, a0: Word, b0: Word, c0: Word, d0: Word)
    returns (a: Word, b: Word, c: Word, d: Word)
    requires |x| == 16
    requires Regs(a0, b0, c0, d0) == Steps(r0, x, 32)
    ensures Regs(a, b, c, d) == Steps(r0, x, 48)
  {
    hide NewWord, Steps, Step, Sine, ShiftOf, WordIndex;
    Indices3(); Sines3();
    a, b, c, d := a0, b0, c0, d0;
    FourSteps(r0, x, 32, a, b, c, d);
    a := SetH(32, a, b, c, d, x[5], 4, T_MASK ^ 0x0005c6bd);
    d := SetH(33, d, a, b, c, x[8], 11, T_MASK ^ 0x788e097e);
    c := SetH(34, c, d, a, b, x[11], 16, 0x6d9d6122);
    b := SetH(35, b, c, d, a, x[14], 23, T_MASK ^ 0x021ac7f3);
    FourSteps(r0, x, 36, a, b, c, d);
    a := SetH(36, a, b, c, d, x[1], 4, T_MASK ^ 0x5b4115bb);
    d := SetH(37, d, a, b, c, x[4], 11, 0x4bdecfa9);
    c := SetH(38, c, d, a, b, x[7], 16, T_MASK ^ 0x0944b49f);
    b := SetH(39, b, c, d, a, x[10], 23, T_MASK ^ 0x4140438f);
    FourSteps(r0, x, 40, a, b, c, d);
    a := SetH(40, a, b, c, d, x[13], 4, 0x289b7ec6);
    d := SetH(41, d, a, b, c, x[0], 11, T_MASK ^ 0x155ed805);
    c := SetH(42, c, d, a, b, x[3], 16, T_MASK ^ 0x2b10cf7a);
    b := SetH(43, b, c, d, a, x[6], 23, 0x04881d05);
    FourSteps(r0, x, 44, a, b, c, d);
    a := SetH(44, a, b, c, d, x[9], 4, T_MASK ^ 0x262b2fc6);
    d := SetH(45, d, a, b, c, x[12], 11, T_MASK ^ 0x1924661a);
    c := SetH(46, c, d, a, b, x[15], 16, 0x1fa27cf8);
    b := SetH(47, b, c, d, a, x[2], 23, T_MASK ^ 0x3b53a99a);
  }

  /** The inline word indices, shifts and constants of round 4 agree with the tables. */
  lemma Indices4()
    ensures WordIndex(48) == 0 && ShiftOf(48) == 6
    ensures WordIndex(49) == 7 && ShiftOf(49) == 10
    ensures WordIndex(50) == 14 && ShiftOf(50) == 15
    ensures WordIndex(51) == 5 && ShiftOf(51) == 21
    ensures WordIndex(52) == 12 && ShiftOf(52) == 6
    ensures WordIndex(53) == 3 && ShiftOf(53) == 10
    ensures WordIndex(54) == 10 && ShiftOf(54) == 15
    ensures WordIndex(55) == 1 && ShiftOf(55) == 21
    ensures WordIndex(56) == 8 && ShiftOf(56) == 6
    ensures WordIndex(57) == 15 && ShiftOf(57) == 10
    ensures WordIndex(58) == 6 && ShiftOf(58) == 15
    ensures WordIndex(59) == 13 && ShiftOf(59) == 21
    ensures WordIndex(60) == 4 && ShiftOf(60) == 6
    ensures WordIndex(61) == 11 && ShiftOf(61) == 10
    ensures WordIndex(62) == 2 && ShiftOf(62) == 15
    ensures WordIndex(63) == 9 && ShiftOf(63) == 21
  {
  }

  lemma Sines4()
    ensures Sine(48) == T_MASK ^ 0x0bd6ddbb
    ensures Sine(49) == 0x432aff97
    ensures Sine(50) == T_MASK ^ 0x546bdc58
    ensures Sine(51) == T_MASK ^ 0x036c5fc6
    ensures Sine(52) == 0x655b59c3
    ensures Sine(53) == T_MASK ^ 0x70f3336d
    ensures Sine(54) == T_MASK ^ 0x00100b82
    ensures Sine(55) == T_MASK ^ 0x7a7ba22e
    ensures Sine(56) == 0x6fa87e4f
    ensures Sine(57) == T_MASK ^ 0x01d3191f
    ensures Sine(58) == T_MASK ^ 0x5cfebceb
    ensures Sine(59) == 0x4e0811a1
    ensures Sine(60) == T_MASK ^ 0x08ac817d
    ensures Sine(61) == T_MASK ^ 0x42c50dca
    ensures Sine(62) == 0x2ad7d2bb
    ensures Sine(63) == T_MASK ^ 0x14792c6e
  {
  }

  /** Round 4 of md5_process: sixteen assignments whose register roles rotate. */
  method Round4(x: seq<Word>, ghost r0: Regs, a0: Word, b0: Word, c0: Word, d0: Word)
    returns (a: Word, b: Word, c: Word, d: Word)
    requires |x| == 16
    requires Regs(a0, b0, c0, d0) == Steps(r0, x, 48)
    ensures Regs(a, b, c, d) == Steps(r0, x, 64)
  {
    hide NewWord, Steps, Step, Sine, ShiftOf, WordIndex;
    Indices4(); Sines4();
    a, b, c, d := a0, b0, c0, d0;
    FourSteps(r0, x, 48, a, b, c, d);
    a := SetI(48, a, b, c, d, x[0], 6, T_MASK ^ 0x0bd6ddbb);
    d := SetI(49, d, a, b, c, x[7], 10, 0x432aff97);
    c := SetI(50, c, d, a, b, x[14], 15, T_MASK ^ 0x546bdc58);
    b := SetI(51, b, c, d, a, x[5], 21, T_MASK ^ 0x036c5fc6);
    FourSteps(r0, x, 52, a, b, c, d);
    a := SetI(52, a, b, c, d, x[12], 6, 0x655b59c3);
    d := SetI(53, d, a, b, c, x[3], 10, T_MASK ^ 0x70f3336d);
    c := SetI(54, c, d, a, b, x[10], 15, T_MASK ^ 0x00100b82);
    b := SetI(55, b, c, d, a, x[1], 21, T_MASK ^ 0x7a7ba22e);
    FourSteps(r0, x, 56, a, b, c, d);
    a := SetI(56, a, b, c, d, x[8], 6, 0x6fa87e4f);
    d := SetI(57, d, a, b, c, x[15], 10, T_MASK ^ 0x01d3191f);
    c := SetI(58, c, d, a, b, x[6], 15, T_MASK ^ 0x5cfebceb);
    b := SetI(59, b, c, d, a, x[13], 21, 0x4e0811a1);
    FourSteps(r0, x, 60, a, b, c, d);
    a := SetI(60, a, b, c, d, x[4], 6, T_MASK ^ 0x08ac817d);
    d := SetI(61, d, a, b, c, x[11], 10, T_MASK ^ 0x42c50dca);
    c := SetI(62, c, d, a, b, x[2], 15, 0x2ad7d2bb);
    b := SetI(63, b, c, d, a, x[9], 21, T_MASK ^ 0x14792c6e);
  }

}
