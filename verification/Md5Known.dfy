/**
 A known answer of RFC 1321 (section A.5): the digest of "abc", four steps at a time.
 */
module Md5Known {
  import opened Md5Compress
  import opened Md5

  const ABC: seq<Byte> := [0x61, 0x62, 0x63]

  /** The words of the one padded block. */
  ghost predicate IsAbc(x: seq<Word>)
  {
    |x| == 16 && x[0] == 0x80636261 && x[14] == 0x00000018 && forall i :: 0 < i < 16 && i != 14 ==> x[i] == 0
  }

  lemma Parts0()
    ensures F(0xefcdab89, 0x98badcfe, 0x10325476) == 0x98badcfe && Sine(0) == 0xd76aa478
    ensures Sum4(0x67452301, 0x98badcfe, 0x80636261, 0xd76aa478) == 0x57ce06d8
    ensures RotL(0x57ce06d8, 7) == 0xe7036c2b && Plus(0xe7036c2b, 0xefcdab89) == 0xd6d117b4
    ensures F(0xd6d117b4, 0xefcdab89, 0x98badcfe) == 0xceebcbca && Sine(1) == 0xe8c7b756
    ensures Sum4(0x10325476, 0xceebcbca, 0, 0xe8c7b756) == 0xc7e5d796
    ensures RotL(0xc7e5d796, 12) == 0x5d796c7e && Plus(0x5d796c7e, 0xd6d117b4) == 0x344a8432
    ensures F(0x344a8432, 0xd6d117b4, 0xefcdab89) == 0xdfc52fb9 && Sine(2) == 0x242070db
    ensures Sum4(0x98badcfe, 0xdfc52fb9, 0, 0x242070db) == 0x9ca07d92
    ensures RotL(0x9ca07d92, 17) == 0xfb253940 && Plus(0xfb253940, 0x344a8432) == 0x2f6fbd72
    ensures F(0x2f6fbd72, 0x344a8432, 0xd6d117b4) == 0xf4da86b6 && Sine(3) == 0xc1bdceee
    ensures Sum4(0xefcdab89, 0xf4da86b6, 0, 0xc1bdceee) == 0xa666012d
    ensures RotL(0xa666012d, 22) == 0x4b699980 && Plus(0x4b699980, 0x2f6fbd72) == 0x7ad956f2
  {
    hide Sine;
    Sines1();
  }

  lemma Words0()
    ensures NewWord(0, 0x67452301, 0xefcdab89, 0x98badcfe, 0x10325476, 0x80636261) == 0xd6d117b4
    ensures NewWord(1, 0x10325476, 0xd6d117b4, 0xefcdab89, 0x98badcfe, 0) == 0x344a8432
    ensures NewWord(2, 0x98badcfe, 0x344a8432, 0xd6d117b4, 0xefcdab89, 0) == 0x2f6fbd72
    ensures NewWord(3, 0xefcdab89, 0x2f6fbd72, 0x344a8432, 0xd6d117b4, 0) == 0x7ad956f2
  {
    hide Sine, ShiftOf, F, G, H, I, Sum4, RotL, Plus;
    Parts0();
    Indices1();
  }

  lemma Parts1()
    ensures F(0x7ad956f2, 0x2f6fbd72, 0x344a8432) == 0x2e4b9472 && Sine(4) == 0xf57c0faf
    ensures Sum4(0xd6d117b4, 0x2e4b9472, 0, 0xf57c0faf) == 0xfa98bbd5
    ensures RotL(0xfa98bbd5, 7) == 0x4c5deafd && Plus(0x4c5deafd, 0x7ad956f2) == 0xc73741ef
    ensures F(0xc73741ef, 0x7ad956f2, 0x2f6fbd72) == 0x6a59fcf2 && Sine(5) == 0x4787c62a
    ensures Sum4(0x344a8432, 0x6a59fcf2, 0, 0x4787c62a) == 0xe62c474e
    ensures RotL(0xe62c474e, 12) == 0xc474ee62 && Plus(0xc474ee62, 0xc73741ef) == 0x8bac3051
    ensures F(0x8bac3051, 0xc73741ef, 0x7ad956f2) == 0xf37546e3 && Sine(6) == 0xa8304613
    ensures Sum4(0x2f6fbd72, 0xf37546e3, 0, 0xa8304613) == 0xcb154a68
    ensures RotL(0xcb154a68, 17) == 0x94d1962a && Plus(0x94d1962a, 0x8bac3051) == 0x207dc67b
    ensures F(0x207dc67b, 0x8bac3051, 0xc73741ef) == 0xc72e01d5 && Sine(7) == 0xfd469501
    ensures Sum4(0x7ad956f2, 0xc72e01d5, 0, 0xfd469501) == 0x3f4dedc8
    ensures RotL(0x3f4dedc8, 22) == 0x720fd37b && Plus(0x720fd37b, 0x207dc67b) == 0x928d99f6
  {
    hide Sine;
    Sines1();
  }

  lemma Words1()
    ensures NewWord(4, 0xd6d117b4, 0x7ad956f2, 0x2f6fbd72, 0x344a8432, 0) == 0xc73741ef
    ensures NewWord(5, 0x344a8432, 0xc73741ef, 0x7ad956f2, 0x2f6fbd72, 0) == 0x8bac3051
    ensures NewWord(6, 0x2f6fbd72, 0x8bac3051, 0xc73741ef, 0x7ad956f2, 0) == 0x207dc67b
    ensures NewWord(7, 0x7ad956f2, 0x207dc67b, 0x8bac3051, 0xc73741ef, 0) == 0x928d99f6
  {
    hide Sine, ShiftOf, F, G, H, I, Sum4, RotL, Plus;
    Parts1();
    Indices1();
  }

  lemma Parts2()
    ensures F(0x928d99f6, 0x207dc67b, 0x8bac3051) == 0x092da073 && Sine(8) == 0x698098d8
    ensures Sum4(0xc73741ef, 0x092da073, 0, 0x698098d8) == 0x39e57b3a
    ensures RotL(0x39e57b3a, 7) == 0xf2bd9d1c && Plus(0xf2bd9d1c, 0x928d99f6) == 0x854b3712
    ensures F(0x854b3712, 0x928d99f6, 0x207dc67b) == 0xa03dd17b && Sine(9) == 0x8b44f7af
    ensures Sum4(0x8bac3051, 0xa03dd17b, 0, 0x8b44f7af) == 0xb72ef97b
    ensures RotL(0xb72ef97b, 12) == 0xef97bb72 && Plus(0xef97bb72, 0x854b3712) == 0x74e2f284
    ensures F(0x74e2f284, 0x854b3712, 0x928d99f6) == 0x864f3b72 && Sine(10) == 0xffff5bb1
    ensures Sum4(0x207dc67b, 0x864f3b72, 0, 0xffff5bb1) == 0xa6cc5d9e
    ensures RotL(0xa6cc5d9e, 17) == 0xbb3d4d98 && Plus(0xbb3d4d98, 0x74e2f284) == 0x3020401c
    ensures F(0x3020401c, 0x74e2f284, 0x854b3712) == 0xb56b7706 && Sine(11) == 0x895cd7be
    ensures Sum4(0x928d99f6, 0xb56b7706, 0, 0x895cd7be) == 0xd155e8ba
    ensures RotL(0xd155e8ba, 22) == 0x2eb4557a && Plus(0x2eb4557a, 0x3020401c) == 0x5ed49596
  {
    hide Sine;
    Sines1();
  }

  lemma Words2()
    ensures NewWord(8, 0xc73741ef, 0x928d99f6, 0x207dc67b, 0x8bac3051, 0) == 0x854b3712
    ensures NewWord(9, 0x8bac3051, 0x854b3712, 0x928d99f6, 0x207dc67b, 0) == 0x74e2f284
    ensures NewWord(10, 0x207dc67b, 0x74e2f284, 0x854b3712, 0x928d99f6, 0) == 0x3020401c
    ensures NewWord(11, 0x928d99f6, 0x3020401c, 0x74e2f284, 0x854b3712, 0) == 0x5ed49596
  {
    hide Sine, ShiftOf, F, G, H, I, Sum4, RotL, Plus;
    Parts2();
    Indices1();
  }

  lemma Parts3()
    ensures F(0x5ed49596, 0x3020401c, 0x74e2f284) == 0x30226214 && Sine(12) == 0x6b901122
    ensures Sum4(0x854b3712, 0x30226214, 0, 0x6b901122) == 0x20fdaa48
    ensures RotL(0x20fdaa48, 7) == 0x7ed52410 && Plus(0x7ed52410, 0x5ed49596) == 0xdda9b9a6
    ensures F(0xdda9b9a6, 0x5ed49596, 0x3020401c) == 0x7c80d19e && Sine(13) == 0xfd987193
    ensures Sum4(0x74e2f284, 0x7c80d19e, 0, 0xfd987193) == 0xeefc35b5
    ensures RotL(0xeefc35b5, 12) == 0xc35b5eef && Plus(0xc35b5eef, 0xdda9b9a6) == 0xa1051895
    ensures F(0xa1051895, 0xdda9b9a6, 0x5ed49596) == 0xdfd19d86 && Sine(14) == 0xa679438e
    ensures Sum4(0x3020401c, 0xdfd19d86, 0x00000018, 0xa679438e) == 0xb66b2148
    ensures RotL(0xb66b2148, 17) == 0x42916cd6 && Plus(0x42916cd6, 0xa1051895) == 0xe396856b
    ensures F(0xe396856b, 0xa1051895, 0xdda9b9a6) == 0xbd2d3885 && Sine(15) == 0x49b40821
    ensures Sum4(0x5ed49596, 0xbd2d3885, 0, 0x49b40821) == 0x65b5d63c
    ensures RotL(0x65b5d63c, 22) == 0x8f196d75 && Plus(0x8f196d75, 0xe396856b) == 0x72aff2e0
  {
    hide Sine;
    Sines1();
  }

  lemma Words3()
    ensures NewWord(12, 0x854b3712, 0x5ed49596, 0x3020401c, 0x74e2f284, 0) == 0xdda9b9a6
    ensures NewWord(13, 0x74e2f284, 0xdda9b9a6, 0x5ed49596, 0x3020401c, 0) == 0xa1051895
    ensures NewWord(14, 0x3020401c, 0xa1051895, 0xdda9b9a6, 0x5ed49596, 0x00000018) == 0xe396856b
    ensures NewWord(15, 0x5ed49596, 0xe396856b, 0xa1051895, 0xdda9b9a6, 0) == 0x72aff2e0
  {
    hide Sine, ShiftOf, F, G, H, I, Sum4, RotL, Plus;
    Parts3();
    Indices1();
  }

  lemma Parts4()
    ensures G(0x72aff2e0, 0xe396856b, 0xa1051895) == 0x629795ea && Sine(16) == 0xf61e2562
    ensures Sum4(0xdda9b9a6, 0x629795ea, 0, 0xf61e2562) == 0x365f74f2
    ensures RotL(0x365f74f2, 5) == 0xcbee9e46 && Plus(0xcbee9e46, 0x72aff2e0) == 0x3e9e9126
    ensures G(0x3e9e9126, 0x72aff2e0, 0xe396856b) == 0x32bff3a2 && Sine(17) == 0xc040b340
    ensures Sum4(0xa1051895, 0x32bff3a2, 0, 0xc040b340) == 0x9405bf77
    ensures RotL(0x9405bf77, 9) == 0x0b7eef28 && Plus(0x0b7eef28, 0x3e9e9126) == 0x4a1d804e
    ensures G(0x4a1d804e, 0x3e9e9126, 0x72aff2e0) == 0x4e1d8146 && Sine(18) == 0x265e5a51
    ensures Sum4(0xe396856b, 0x4e1d8146, 0, 0x265e5a51) == 0x58126102
    ensures RotL(0x58126102, 14) == 0x98409604 && Plus(0x98409604, 0x4a1d804e) == 0xe25e1652
    ensures G(0xe25e1652, 0x4a1d804e, 0x3e9e9126) == 0x621f104a && Sine(19) == 0xe9b6c7aa
    ensures Sum4(0x72aff2e0, 0x621f104a, 0x80636261, 0xe9b6c7aa) == 0x3ee92d35
    ensures RotL(0x3ee92d35, 20) == 0xd353ee92 && Plus(0xd353ee92, 0xe25e1652) == 0xb5b204e4
  {
    hide Sine;
    Sines2();
  }

  lemma Words4()
    ensures NewWord(16, 0xdda9b9a6, 0x72aff2e0, 0xe396856b, 0xa1051895, 0) == 0x3e9e9126
    ensures NewWord(17, 0xa1051895, 0x3e9e9126, 0x72aff2e0, 0xe396856b, 0) == 0x4a1d804e
    ensures NewWord(18, 0xe396856b, 0x4a1d804e, 0x3e9e9126, 0x72aff2e0, 0) == 0xe25e1652
    ensures NewWord(19, 0x72aff2e0, 0xe25e1652, 0x4a1d804e, 0x3e9e9126, 0x80636261) == 0xb5b204e4
  {
    hide Sine, ShiftOf, F, G, H, I, Sum4, RotL, Plus;
    Parts4();
    Indices2();
  }

  lemma Parts5()
    ensures G(0xb5b204e4, 0xe25e1652, 0x4a1d804e) == 0xa0521654 && Sine(20) == 0xd62f105d
    ensures Sum4(0x3e9e9126, 0xa0521654, 0, 0xd62f105d) == 0xb51fb7d7
    ensures RotL(0xb51fb7d7, 5) == 0xa3f6faf6 && Plus(0xa3f6faf6, 0xb5b204e4) == 0x59a8ffda
    ensures G(0x59a8ffda, 0xb5b204e4, 0xe25e1652) == 0x55a816f6 && Sine(21) == 0x02441453
    ensures Sum4(0x4a1d804e, 0x55a816f6, 0, 0x02441453) == 0xa209ab97
    ensures RotL(0xa209ab97, 9) == 0x13572f44 && Plus(0x13572f44, 0x59a8ffda) == 0x6d002f1e
    ensures G(0x6d002f1e, 0x59a8ffda, 0xb5b204e4) == 0x6d08ff1e && Sine(22) == 0xd8a1e681
    ensures Sum4(0xe25e1652, 0x6d08ff1e, 0, 0xd8a1e681) == 0x2808fbf1
    ensures RotL(0x2808fbf1, 14) == 0x3efc4a02 && Plus(0x3efc4a02, 0x6d002f1e) == 0xabfc7920
    ensures G(0xabfc7920, 0x6d002f1e, 0x59a8ffda) == 0x2da87904 && Sine(23) == 0xe7d3fbc8
    ensures Sum4(0xb5b204e4, 0x2da87904, 0, 0xe7d3fbc8) == 0xcb2e79b0
    ensures RotL(0xcb2e79b0, 20) == 0x9b0cb2e7 && Plus(0x9b0cb2e7, 0xabfc7920) == 0x47092c07
  {
    hide Sine;
    Sines2();
  }

  lemma Words5()
    ensures NewWord(20, 0x3e9e9126, 0xb5b204e4, 0xe25e1652, 0x4a1d804e, 0) == 0x59a8ffda
    ensures NewWord(21, 0x4a1d804e, 0x59a8ffda, 0xb5b204e4, 0xe25e1652, 0) == 0x6d002f1e
    ensures NewWord(22, 0xe25e1652, 0x6d002f1e, 0x59a8ffda, 0xb5b204e4, 0) == 0xabfc7920
    ensures NewWord(23, 0xb5b204e4, 0xabfc7920, 0x6d002f1e, 0x59a8ffda, 0) == 0x47092c07
  {
    hide Sine, ShiftOf, F, G, H, I, Sum4, RotL, Plus;
    Parts5();
    Indices2();
  }

  lemma Parts6()
    ensures G(0x47092c07, 0xabfc7920, 0x6d002f1e) == 0xc7fc7c26 && Sine(24) == 0x21e1cde6
    ensures Sum4(0x59a8ffda, 0xc7fc7c26, 0, 0x21e1cde6) == 0x438749e6
    ensures RotL(0x438749e6, 5) == 0x70e93cc8 && Plus(0x70e93cc8, 0x47092c07) == 0xb7f268cf
    ensures G(0xb7f268cf, 0x47092c07, 0xabfc7920) == 0xe7f16c07 && Sine(25) == 0xc33707d6
    ensures Sum4(0x6d002f1e, 0xe7f16c07, 0x00000018, 0xc33707d6) == 0x1828a313
    ensures RotL(0x1828a313, 9) == 0x51462630 && Plus(0x51462630, 0xb7f268cf) == 0x09388eff
    ensures G(0x09388eff, 0xb7f268cf, 0x47092c07) == 0xb1fa4ccf && Sine(26) == 0xf4d50d87
    ensures Sum4(0xabfc7920, 0xb1fa4ccf, 0, 0xf4d50d87) == 0x52cbd376
    ensures RotL(0x52cbd376, 14) == 0xf4dd94b2 && Plus(0xf4dd94b2, 0x09388eff) == 0xfe1623b1
    ensures G(0xfe1623b1, 0x09388eff, 0xb7f268cf) == 0xbe1aa6b1 && Sine(27) == 0x455a14ed
    ensures Sum4(0x47092c07, 0xbe1aa6b1, 0, 0x455a14ed) == 0x4a7de7a5
    ensures RotL(0x4a7de7a5, 20) == 0x7a54a7de && Plus(0x7a54a7de, 0xfe1623b1) == 0x786acb8f
  {
    hide Sine;
    Sines2();
  }

  lemma Words6()
    ensures NewWord(24, 0x59a8ffda, 0x47092c07, 0xabfc7920, 0x6d002f1e, 0) == 0xb7f268cf
    ensures NewWord(25, 0x6d002f1e, 0xb7f268cf, 0x47092c07, 0xabfc7920, 0x00000018) == 0x09388eff
    ensures NewWord(26, 0xabfc7920, 0x09388eff, 0xb7f268cf, 0x47092c07, 0) == 0xfe1623b1
    ensures NewWord(27, 0x47092c07, 0xfe1623b1, 0x09388eff, 0xb7f268cf, 0) == 0x786acb8f
  {
    hide Sine, ShiftOf, F, G, H, I, Sum4, RotL, Plus;
    Parts6();
    Indices2();
  }

  lemma Parts7()
    ensures G(0x786acb8f, 0xfe1623b1, 0x09388eff) == 0xfe2eab8f && Sine(28) == 0xa9e3e905
    ensures Sum4(0xb7f268cf, 0xfe2eab8f, 0, 0xa9e3e905) == 0x6004fd63
    ensures RotL(0x6004fd63, 5) == 0x009fac6c && Plus(0x009fac6c, 0x786acb8f) == 0x790a77fb
    ensures G(0x790a77fb, 0x786acb8f, 0xfe1623b1) == 0x786aebbf && Sine(29) == 0xfcefa3f8
    ensures Sum4(0x09388eff, 0x786aebbf, 0, 0xfcefa3f8) == 0x7e931eb6
    ensures RotL(0x7e931eb6, 9) == 0x263d6cfd && Plus(0x263d6cfd, 0x790a77fb) == 0x9f47e4f8
    ensures G(0x9f47e4f8, 0x790a77fb, 0x786acb8f) == 0x1942f4f8 && Sine(30) == 0x676f02d9
    ensures Sum4(0xfe1623b1, 0x1942f4f8, 0, 0x676f02d9) == 0x7ec81b82
    ensures RotL(0x7ec81b82, 14) == 0x06e09fb2 && Plus(0x06e09fb2, 0x9f47e4f8) == 0xa62884aa
    ensures G(0xa62884aa, 0x9f47e4f8, 0x790a77fb) == 0xa64d84aa && Sine(31) == 0x8d2a4c8a
    ensures Sum4(0x786acb8f, 0xa64d84aa, 0, 0x8d2a4c8a) == 0xabe29cc3
    ensures RotL(0xabe29cc3, 20) == 0xcc3abe29 && Plus(0xcc3abe29, 0xa62884aa) == 0x726342d3
  {
    hide Sine;
    Sines2();
  }

  lemma Words7()
    ensures NewWord(28, 0xb7f268cf, 0x786acb8f, 0xfe1623b1, 0x09388eff, 0) == 0x790a77fb
    ensures NewWord(29, 0x09388eff, 0x790a77fb, 0x786acb8f, 0xfe1623b1, 0) == 0x9f47e4f8
    ensures NewWord(30, 0xfe1623b1, 0x9f47e4f8, 0x790a77fb, 0x786acb8f, 0) == 0xa62884aa
    ensures NewWord(31, 0x786acb8f, 0xa62884aa, 0x9f47e4f8, 0x790a77fb, 0) == 0x726342d3
  {
    hide Sine, ShiftOf, F, G, H, I, Sum4, RotL, Plus;
    Parts7();
    Indices2();
  }

  lemma Parts8()
    ensures H(0x726342d3, 0xa62884aa, 0x9f47e4f8) == 0x4b0c2281 && Sine(32) == 0xfffa3942
    ensures Sum4(0x790a77fb, 0x4b0c2281, 0, 0xfffa3942) == 0xc410d3be
    ensures RotL(0xc410d3be, 4) == 0x410d3bec && Plus(0x410d3bec, 0x726342d3) == 0xb3707ebf
    ensures H(0xb3707ebf, 0x726342d3, 0xa62884aa) == 0x673bb8c6 && Sine(33) == 0x8771f681
    ensures Sum4(0x9f47e4f8, 0x673bb8c6, 0, 0x8771f681) == 0x8df5943f
    ensures RotL(0x8df5943f, 11) == 0xaca1fc6f && Plus(0xaca1fc6f, 0xb3707ebf) == 0x60127b2e
    ensures H(0x60127b2e, 0xb3707ebf, 0x726342d3) == 0xa1014742 && Sine(34) == 0x6d9d6122
    ensures Sum4(0xa62884aa, 0xa1014742, 0, 0x6d9d6122) == 0xb4c72d0e
    ensures RotL(0xb4c72d0e, 16) == 0x2d0eb4c7 && Plus(0x2d0eb4c7, 0x60127b2e) == 0x8d212ff5
    ensures H(0x8d212ff5, 0x60127b2e, 0xb3707ebf) == 0x5e432a64 && Sine(35) == 0xfde5380c
    ensures Sum4(0x726342d3, 0x5e432a64, 0x00000018, 0xfde5380c) == 0xce8ba55b
    ensures RotL(0xce8ba55b, 23) == 0xade745d2 && Plus(0xade745d2, 0x8d212ff5) == 0x3b0875c7
  {
    hide Sine;
    Sines3();
  }

  lemma Words8()
    ensures NewWord(32, 0x790a77fb, 0x726342d3, 0xa62884aa, 0x9f47e4f8, 0) == 0xb3707ebf
    ensures NewWord(33, 0x9f47e4f8, 0xb3707ebf, 0x726342d3, 0xa62884aa, 0) == 0x60127b2e
    ensures NewWord(34, 0xa62884aa, 0x60127b2e, 0xb3707ebf, 0x726342d3, 0) == 0x8d212ff5
    ensures NewWord(35, 0x726342d3, 0x8d212ff5, 0x60127b2e, 0xb3707ebf, 0x00000018) == 0x3b0875c7
  {
    hide Sine, ShiftOf, F, G, H, I, Sum4, RotL, Plus;
    Parts8();
    Indices3();
  }

  lemma Parts9()
    ensures H(0x3b0875c7, 0x8d212ff5, 0x60127b2e) == 0xd63b211c && Sine(36) == 0xa4beea44
    ensures Sum4(0xb3707ebf, 0xd63b211c, 0, 0xa4beea44) == 0x2e6a8a1f
    ensures RotL(0x2e6a8a1f, 4) == 0xe6a8a1f2 && Plus(0xe6a8a1f2, 0x3b0875c7) == 0x21b117b9
    ensures H(0x21b117b9, 0x3b0875c7, 0x8d212ff5) == 0x97984d8b && Sine(37) == 0x4bdecfa9
    ensures Sum4(0x60127b2e, 0x97984d8b, 0, 0x4bdecfa9) == 0x43899862
    ensures RotL(0x43899862, 11) == 0x4cc3121c && Plus(0x4cc3121c, 0x21b117b9) == 0x6e7429d5
    ensures H(0x6e7429d5, 0x21b117b9, 0x3b0875c7) == 0x74cd4bab && Sine(38) == 0xf6bb4b60
    ensures Sum4(0x8d212ff5, 0x74cd4bab, 0, 0xf6bb4b60) == 0xf8a9c700
    ensures RotL(0xf8a9c700, 16) == 0xc700f8a9 && Plus(0xc700f8a9, 0x6e7429d5) == 0x3575227e
    ensures H(0x3575227e, 0x6e7429d5, 0x21b117b9) == 0x7ab01c12 && Sine(39) == 0xbebfbc70
    ensures Sum4(0x3b0875c7, 0x7ab01c12, 0, 0xbebfbc70) == 0x74784e49
    ensures RotL(0x74784e49, 23) == 0x24ba3c27 && Plus(0x24ba3c27, 0x3575227e) == 0x5a2f5ea5
  {
    hide Sine;
    Sines3();
  }

  lemma Words9()
    ensures NewWord(36, 0xb3707ebf, 0x3b0875c7, 0x8d212ff5, 0x60127b2e, 0) == 0x21b117b9
    ensures NewWord(37, 0x60127b2e, 0x21b117b9, 0x3b0875c7, 0x8d212ff5, 0) == 0x6e7429d5
    ensures NewWord(38, 0x8d212ff5, 0x6e7429d5, 0x21b117b9, 0x3b0875c7, 0) == 0x3575227e
    ensures NewWord(39, 0x3b0875c7, 0x3575227e, 0x6e7429d5, 0x21b117b9, 0) == 0x5a2f5ea5
  {
    hide Sine, ShiftOf, F, G, H, I, Sum4, RotL, Plus;
    Parts9();
    Indices3();
  }

  lemma Parts10()
    ensures H(0x5a2f5ea5, 0x3575227e, 0x6e7429d5) == 0x012e550e && Sine(40) == 0x289b7ec6
    ensures Sum4(0x21b117b9, 0x012e550e, 0, 0x289b7ec6) == 0x4b7aeb8d
    ensures RotL(0x4b7aeb8d, 4) == 0xb7aeb8d4 && Plus(0xb7aeb8d4, 0x5a2f5ea5) == 0x11de1779
    ensures H(0x11de1779, 0x5a2f5ea5, 0x3575227e) == 0x7e846ba2 && Sine(41) == 0xeaa127fa
    ensures Sum4(0x6e7429d5, 0x7e846ba2, 0x80636261, 0xeaa127fa) == 0x57fd1fd2
    ensures RotL(0x57fd1fd2, 11) == 0xe8fe92bf && Plus(0xe8fe92bf, 0x11de1779) == 0xfadcaa38
    ensures H(0xfadcaa38, 0x11de1779, 0x5a2f5ea5) == 0xb12de3e4 && Sine(42) == 0xd4ef3085
    ensures Sum4(0x3575227e, 0xb12de3e4, 0, 0xd4ef3085) == 0xbb9236e7
    ensures RotL(0xbb9236e7, 16) == 0x36e7bb92 && Plus(0x36e7bb92, 0xfadcaa38) == 0x31c465ca
    ensures H(0x31c465ca, 0xfadcaa38, 0x11de1779) == 0xdac6d88b && Sine(43) == 0x04881d05
    ensures Sum4(0x5a2f5ea5, 0xdac6d88b, 0, 0x04881d05) == 0x397e5435
    ensures RotL(0x397e5435, 23) == 0x1a9cbf2a && Plus(0x1a9cbf2a, 0x31c465ca) == 0x4c6124f4
  {
    hide Sine;
    Sines3();
  }

  lemma Words10()
    ensures NewWord(40, 0x21b117b9, 0x5a2f5ea5, 0x3575227e, 0x6e7429d5, 0) == 0x11de1779
    ensures NewWord(41, 0x6e7429d5, 0x11de1779, 0x5a2f5ea5, 0x3575227e, 0x80636261) == 0xfadcaa38
    ensures NewWord(42, 0x3575227e, 0xfadcaa38, 0x11de1779, 0x5a2f5ea5, 0) == 0x31c465ca
    ensures NewWord(43, 0x5a2f5ea5, 0x31c465ca, 0xfadcaa38, 0x11de1779, 0) == 0x4c6124f4
  {
    hide Sine, ShiftOf, F, G, H, I, Sum4, RotL, Plus;
    Parts10();
    Indices3();
  }

  lemma Parts11()
    ensures H(0x4c6124f4, 0x31c465ca, 0xfadcaa38) == 0x8779eb06 && Sine(44) == 0xd9d4d039
    ensures Sum4(0x11de1779, 0x8779eb06, 0, 0xd9d4d039) == 0x732cd2b8
    ensures RotL(0x732cd2b8, 4) == 0x32cd2b87 && Plus(0x32cd2b87, 0x4c6124f4) == 0x7f2e507b
    ensures H(0x7f2e507b, 0x4c6124f4, 0x31c465ca) == 0x028b1145 && Sine(45) == 0xe6db99e5
    ensures Sum4(0xfadcaa38, 0x028b1145, 0, 0xe6db99e5) == 0xe4435562
    ensures RotL(0xe4435562, 11) == 0x1aab1722 && Plus(0x1aab1722, 0x7f2e507b) == 0x99d9679d
    ensures H(0x99d9679d, 0x7f2e507b, 0x4c6124f4) == 0xaa961312 && Sine(46) == 0x1fa27cf8
    ensures Sum4(0x31c465ca, 0xaa961312, 0, 0x1fa27cf8) == 0xfbfcf5d4
    ensures RotL(0xfbfcf5d4, 16) == 0xf5d4fbfc && Plus(0xf5d4fbfc, 0x99d9679d) == 0x8fae6399
    ensures H(0x8fae6399, 0x99d9679d, 0x7f2e507b) == 0x6959547f && Sine(47) == 0xc4ac5665
    ensures Sum4(0x4c6124f4, 0x6959547f, 0, 0xc4ac5665) == 0x7a66cfd8
    ensures RotL(0x7a66cfd8, 23) == 0xec3d3367 && Plus(0xec3d3367, 0x8fae6399) == 0x7beb9700
  {
    hide Sine;
    Sines3();
  }

  lemma Words11()
    ensures NewWord(44, 0x11de1779, 0x4c6124f4, 0x31c465ca, 0xfadcaa38, 0) == 0x7f2e507b
    ensures NewWord(45, 0xfadcaa38, 0x7f2e507b, 0x4c6124f4, 0x31c465ca, 0) == 0x99d9679d
    ensures NewWord(46, 0x31c465ca, 0x99d9679d, 0x7f2e507b, 0x4c6124f4, 0) == 0x8fae6399
    ensures NewWord(47, 0x4c6124f4, 0x8fae6399, 0x99d9679d, 0x7f2e507b, 0) == 0x7beb9700
  {
    hide Sine, ShiftOf, F, G, H, I, Sum4, RotL, Plus;
    Parts11();
    Indices3();
  }

  lemma Parts12()
    ensures I(0x7beb9700, 0x8fae6399, 0x99d9679d) == 0xf041fcfb && Sine(48) == 0xf4292244
    ensures Sum4(0x7f2e507b, 0xf041fcfb, 0x80636261, 0xf4292244) == 0xe3fcd21b
    ensures RotL(0xe3fcd21b, 6) == 0xff3486f8 && Plus(0xff3486f8, 0x7beb9700) == 0x7b201df8
    ensures I(0x7b201df8, 0x7beb9700, 0x8fae6399) == 0x009a0afe && Sine(49) == 0x432aff97
    ensures Sum4(0x99d9679d, 0x009a0afe, 0, 0x432aff97) == 0xdd9e7232
    ensures RotL(0xdd9e7232, 10) == 0x79c8cb76 && Plus(0x79c8cb76, 0x7b201df8) == 0xf4e8e96e
    ensures I(0xf4e8e96e, 0x7b201df8, 0x7beb9700) == 0x8fdcf407 && Sine(50) == 0xab9423a7
    ensures Sum4(0x8fae6399, 0x8fdcf407, 0x00000018, 0xab9423a7) == 0xcb1f7b5f
    ensures RotL(0xcb1f7b5f, 15) == 0xbdafe58f && Plus(0xbdafe58f, 0xf4e8e96e) == 0xb298cefd
    ensures I(0xb298cefd, 0xf4e8e96e, 0x7b201df8) == 0x42370791 && Sine(51) == 0xfc93a039
    ensures Sum4(0x7beb9700, 0x42370791, 0, 0xfc93a039) == 0xbab63eca
    ensures RotL(0xbab63eca, 21) == 0xd95756c7 && Plus(0xd95756c7, 0xb298cefd) == 0x8bf025c4
  {
    hide Sine;
    Sines4();
  }

  lemma Words12()
    ensures NewWord(48, 0x7f2e507b, 0x7beb9700, 0x8fae6399, 0x99d9679d, 0x80636261) == 0x7b201df8
    ensures NewWord(49, 0x99d9679d, 0x7b201df8, 0x7beb9700, 0x8fae6399, 0) == 0xf4e8e96e
    ensures NewWord(50, 0x8fae6399, 0xf4e8e96e, 0x7b201df8, 0x7beb9700, 0x00000018) == 0xb298cefd
    ensures NewWord(51, 0x7beb9700, 0xb298cefd, 0xf4e8e96e, 0x7b201df8, 0) == 0x8bf025c4
  {
    hide Sine, ShiftOf, F, G, H, I, Sum4, RotL, Plus;
    Parts12();
    Indices4();
  }

  lemma Parts13()
    ensures I(0x8bf025c4, 0xb298cefd, 0xf4e8e96e) == 0x396ff928 && Sine(52) == 0x655b59c3
    ensures Sum4(0x7b201df8, 0x396ff928, 0, 0x655b59c3) == 0x19eb70e3
    ensures RotL(0x19eb70e3, 6) == 0x7adc38c6 && Plus(0x7adc38c6, 0x8bf025c4) == 0x06cc5e8a
    ensures I(0x06cc5e8a, 0x8bf025c4, 0xb298cefd) == 0xc41f5a4e && Sine(53) == 0x8f0ccc92
    ensures Sum4(0xf4e8e96e, 0xc41f5a4e, 0, 0x8f0ccc92) == 0x4815104e
    ensures RotL(0x4815104e, 10) == 0x54413920 && Plus(0x54413920, 0x06cc5e8a) == 0x5b0d97aa
    ensures I(0x5b0d97aa, 0x06cc5e8a, 0x8bf025c4) == 0x79c38131 && Sine(54) == 0xffeff47d
    ensures Sum4(0xb298cefd, 0x79c38131, 0, 0xffeff47d) == 0x2c4c44ab
    ensures RotL(0x2c4c44ab, 15) == 0x22559626 && Plus(0x22559626, 0x5b0d97aa) == 0x7d632dd0
    ensures I(0x7d632dd0, 0x5b0d97aa, 0x06cc5e8a) == 0xa67e3a5f && Sine(55) == 0x85845dd1
    ensures Sum4(0x8bf025c4, 0xa67e3a5f, 0, 0x85845dd1) == 0xb7f2bdf4
    ensures RotL(0xb7f2bdf4, 21) == 0xbe96fe57 && Plus(0xbe96fe57, 0x7d632dd0) == 0x3bfa2c27
  {
    hide Sine;
    Sines4();
  }

  lemma Words13()
    ensures NewWord(52, 0x7b201df8, 0x8bf025c4, 0xb298cefd, 0xf4e8e96e, 0) == 0x06cc5e8a
    ensures NewWord(53, 0xf4e8e96e, 0x06cc5e8a, 0x8bf025c4, 0xb298cefd, 0) == 0x5b0d97aa
    ensures NewWord(54, 0xb298cefd, 0x5b0d97aa, 0x06cc5e8a, 0x8bf025c4, 0) == 0x7d632dd0
    ensures NewWord(55, 0x8bf025c4, 0x7d632dd0, 0x5b0d97aa, 0x06cc5e8a, 0) == 0x3bfa2c27
  {
    hide Sine, ShiftOf, F, G, H, I, Sum4, RotL, Plus;
    Parts13();
    Indices4();
  }

  lemma Parts14()
    ensures I(0x3bfa2c27, 0x7d632dd0, 0x5b0d97aa) == 0xc29941a7 && Sine(56) == 0x6fa87e4f
    ensures Sum4(0x06cc5e8a, 0xc29941a7, 0, 0x6fa87e4f) == 0x390e1e80
    ensures RotL(0x390e1e80, 6) == 0x4387a00e && Plus(0x4387a00e, 0x3bfa2c27) == 0x7f81cc35
    ensures I(0x7f81cc35, 0x3bfa2c27, 0x7d632dd0) == 0xc467f218 && Sine(57) == 0xfe2ce6e0
    ensures Sum4(0x5b0d97aa, 0xc467f218, 0, 0xfe2ce6e0) == 0x1da270a2
    ensures RotL(0x1da270a2, 10) == 0x89c28876 && Plus(0x89c28876, 0x7f81cc35) == 0x094454ab
    ensures I(0x094454ab, 0x7f81cc35, 0x3bfa2c27) == 0xb2c41bce && Sine(58) == 0xa3014314
    ensures Sum4(0x7d632dd0, 0xb2c41bce, 0, 0xa3014314) == 0xd3288cb2
    ensures RotL(0xd3288cb2, 15) == 0x46596994 && Plus(0x46596994, 0x094454ab) == 0x4f9dbe3f
    ensures I(0x4f9dbe3f, 0x094454ab, 0x7f81cc35) == 0xc6bbeb54 && Sine(59) == 0x4e0811a1
    ensures Sum4(0x3bfa2c27, 0xc6bbeb54, 0, 0x4e0811a1) == 0x50be291c
    ensures RotL(0x50be291c, 21) == 0x238a17c5 && Plus(0x238a17c5, 0x4f9dbe3f) == 0x7327d604
  {
    hide Sine;
    Sines4();
  }

  lemma Words14()
    ensures NewWord(56, 0x06cc5e8a, 0x3bfa2c27, 0x7d632dd0, 0x5b0d97aa, 0) == 0x7f81cc35
    ensures NewWord(57, 0x5b0d97aa, 0x7f81cc35, 0x3bfa2c27, 0x7d632dd0, 0) == 0x094454ab
    ensures NewWord(58, 0x7d632dd0, 0x094454ab, 0x7f81cc35, 0x3bfa2c27, 0) == 0x4f9dbe3f
    ensures NewWord(59, 0x3bfa2c27, 0x4f9dbe3f, 0x094454ab, 0x7f81cc35, 0) == 0x7327d604
  {
    hide Sine, ShiftOf, F, G, H, I, Sum4, RotL, Plus;
    Parts14();
    Indices4();
  }

  lemma Parts15()
    ensures I(0x7327d604, 0x4f9dbe3f, 0x094454ab) == 0xb822416b && Sine(60) == 0xf7537e82
    ensures Sum4(0x7f81cc35, 0xb822416b, 0, 0xf7537e82) == 0x2ef78c22
    ensures RotL(0x2ef78c22, 6) == 0xbde3088b && Plus(0xbde3088b, 0x7327d604) == 0x310ade8f
    ensures I(0x310ade8f, 0x7327d604, 0x4f9dbe3f) == 0xc24d09cb && Sine(61) == 0xbd3af235
    ensures Sum4(0x094454ab, 0xc24d09cb, 0, 0xbd3af235) == 0x88cc50ab
    ensures RotL(0x88cc50ab, 10) == 0x3142ae23 && Plus(0x3142ae23, 0x310ade8f) == 0x624d8cb2
    ensures I(0x624d8cb2, 0x310ade8f, 0x7327d604) == 0xdfd77374 && Sine(62) == 0x2ad7d2bb
    ensures Sum4(0x4f9dbe3f, 0xdfd77374, 0, 0x2ad7d2bb) == 0x5a4d046e
    ensures RotL(0x5a4d046e, 15) == 0x82372d26 && Plus(0x82372d26, 0x624d8cb2) == 0xe484b9d8
    ensures I(0xe484b9d8, 0x624d8cb2, 0x310ade8f) == 0x8cb8354a && Sine(63) == 0xeb86d391
    ensures Sum4(0x7327d604, 0x8cb8354a, 0, 0xeb86d391) == 0xeb66dedf
    ensures RotL(0xeb66dedf, 21) == 0xdbfd6cdb && Plus(0xdbfd6cdb, 0xe484b9d8) == 0xc08226b3
  {
    hide Sine;
    Sines4();
  }

  lemma Words15()
    ensures NewWord(60, 0x7f81cc35, 0x7327d604, 0x4f9dbe3f, 0x094454ab, 0) == 0x310ade8f
    ensures NewWord(61, 0x094454ab, 0x310ade8f, 0x7327d604, 0x4f9dbe3f, 0) == 0x624d8cb2
    ensures NewWord(62, 0x4f9dbe3f, 0x624d8cb2, 0x310ade8f, 0x7327d604, 0) == 0xe484b9d8
    ensures NewWord(63, 0x7327d604, 0xe484b9d8, 0x624d8cb2, 0x310ade8f, 0) == 0xc08226b3
  {
    hide Sine, ShiftOf, F, G, H, I, Sum4, RotL, Plus;
    Parts15();
    Indices4();
  }

  lemma Round1(x: seq<Word>)
    requires IsAbc(x) && Steps(INITIAL, x, 0) == Regs(0x67452301, 0xefcdab89, 0x98badcfe, 0x10325476)
    ensures Steps(INITIAL, x, 16) == Regs(0xdda9b9a6, 0x72aff2e0, 0xe396856b, 0xa1051895)
  {
    hide NewWord, Steps, WordIndex;
    Indices1();
    Words0();
    FourSteps(INITIAL, x, 0, 0x67452301, 0xefcdab89, 0x98badcfe, 0x10325476);
    Words1();
    FourSteps(INITIAL, x, 4, 0xd6d117b4, 0x7ad956f2, 0x2f6fbd72, 0x344a8432);
    Words2();
    FourSteps(INITIAL, x, 8, 0xc73741ef, 0x928d99f6, 0x207dc67b, 0x8bac3051);
    Words3();
    FourSteps(INITIAL, x, 12, 0x854b3712, 0x5ed49596, 0x3020401c, 0x74e2f284);
  }

  lemma Round2(x: seq<Word>)
    requires IsAbc(x) && Steps(INITIAL, x, 16) == Regs(0xdda9b9a6, 0x72aff2e0, 0xe396856b, 0xa1051895)
    ensures Steps(INITIAL, x, 32) == Regs(0x790a77fb, 0x726342d3, 0xa62884aa, 0x9f47e4f8)
  {
    hide NewWord, Steps, WordIndex;
    Indices2();
    Words4();
    FourSteps(INITIAL, x, 16, 0xdda9b9a6, 0x72aff2e0, 0xe396856b, 0xa1051895);
    Words5();
    FourSteps(INITIAL, x, 20, 0x3e9e9126, 0xb5b204e4, 0xe25e1652, 0x4a1d804e);
    Words6();
    FourSteps(INITIAL, x, 24, 0x59a8ffda, 0x47092c07, 0xabfc7920, 0x6d002f1e);
    Words7();
    FourSteps(INITIAL, x, 28, 0xb7f268cf, 0x786acb8f, 0xfe1623b1, 0x09388eff);
  }

  lemma Round3(x: seq<Word>)
    requires IsAbc(x) && Steps(INITIAL, x, 32) == Regs(0x790a77fb, 0x726342d3, 0xa62884aa, 0x9f47e4f8)
    ensures Steps(INITIAL, x, 48) == Regs(0x7f2e507b, 0x7beb9700, 0x8fae6399, 0x99d9679d)
  {
    hide NewWord, Steps, WordIndex;
    Indices3();
    Words8();
    FourSteps(INITIAL, x, 32, 0x790a77fb, 0x726342d3, 0xa62884aa, 0x9f47e4f8);
    Words9();
    FourSteps(INITIAL, x, 36, 0xb3707ebf, 0x3b0875c7, 0x8d212ff5, 0x60127b2e);
    Words10();
    FourSteps(INITIAL, x, 40, 0x21b117b9, 0x5a2f5ea5, 0x3575227e, 0x6e7429d5);
    Words11();
    FourSteps(INITIAL, x, 44, 0x11de1779, 0x4c6124f4, 0x31c465ca, 0xfadcaa38);
  }

  lemma Round4(x: seq<Word>)
    requires IsAbc(x) && Steps(INITIAL, x, 48) == Regs(0x7f2e507b, 0x7beb9700, 0x8fae6399, 0x99d9679d)
    ensures Steps(INITIAL, x, 64) == Regs(0x310ade8f, 0xc08226b3, 0xe484b9d8, 0x624d8cb2)
  {
    hide NewWord, Steps, WordIndex;
    Indices4();
    Words12();
    FourSteps(INITIAL, x, 48, 0x7f2e507b, 0x7beb9700, 0x8fae6399, 0x99d9679d);
    Words13();
    FourSteps(INITIAL, x, 52, 0x7b201df8, 0x8bf025c4, 0xb298cefd, 0xf4e8e96e);
    Words14();
    FourSteps(INITIAL, x, 56, 0x06cc5e8a, 0x3bfa2c27, 0x7d632dd0, 0x5b0d97aa);
    Words15();
    FourSteps(INITIAL, x, 60, 0x7f81cc35, 0x7327d604, 0x4f9dbe3f, 0x094454ab);
  }

  lemma AbcCompressed(x: seq<Word>)
    requires IsAbc(x)
    ensures CompressWords(INITIAL, x) == Regs(0x98500190, 0xb04fd23c, 0x7d3f96d6, 0x727fe128)
  {
    hide Steps;
    NoSteps(INITIAL, x);
    Round1(x);
    Round2(x);
    Round3(x);
    Round4(x);
  }

  /** The padded block is little-endian throughout. */
  lemma AbcBlock()
    ensures |ABC + Padding(3)| == 64 && IsAbc(Words(ABC + Padding(3)))
  {
    hide LoadWord, LengthBytes;
    var m := ABC + Padding(3);
    AbcLength();
    AbcLoads();
    assert m[0..4] == [0x61, 0x62, 0x63, 0x80];
    assert m[56..60] == [24, 0, 0, 0] && m[60..64] == [0, 0, 0, 0];
    forall i | 0 < i < 14
      ensures m[4 * i..4 * i + 4] == [0, 0, 0, 0]
    {
    }
  }

  lemma AbcLength()
    ensures LengthBytes(3) == [24, 0, 0, 0, 0, 0, 0, 0]
  {
    assert Pow256(1) == 0x100 && Pow256(2) == 0x1_0000 && Pow256(3) == 0x100_0000 && Pow256(4) == TWO32;
    assert Pow256(5) == 0x100 * TWO32 && Pow256(6) == 0x1_0000 * TWO32 && Pow256(7) == 0x100_0000 * TWO32;
  }

  lemma AbcLoads()
    ensures LoadWord([0x61, 0x62, 0x63, 0x80]) == 0x80636261
    ensures LoadWord([24, 0, 0, 0]) == 0x00000018 && LoadWord([0, 0, 0, 0]) == 0
  {
  }

  lemma AbcOutput()
    ensures Output(Regs(0x98500190, 0xb04fd23c, 0x7d3f96d6, 0x727fe128)) == [0x90, 0x01, 0x50, 0x98, 0x3c, 0xd2, 0x4f, 0xb0, 0xd6, 0x96, 0x3f, 0x7d, 0x28, 0xe1, 0x7f, 0x72]
  {
  }

  /** The digest of "abc". */
  lemma AbcDigest()
    ensures Digest(ABC) == [0x90, 0x01, 0x50, 0x98, 0x3c, 0xd2, 0x4f, 0xb0, 0xd6, 0x96, 0x3f, 0x7d, 0x28, 0xe1, 0x7f, 0x72]
  {
    hide Compress, Output, Padding, Words;
    AbcBlock();
    AbcOutput();
    OneBlock(INITIAL, ABC + Padding(3));
    AbcCompressed(Words(ABC + Padding(3)));
    AbcCompress(ABC + Padding(3));
  }

  lemma AbcCompress(block: seq<Byte>)
    requires |block| == 64
    ensures Compress(INITIAL, block) == CompressWords(INITIAL, Words(block))
  {
    hide CompressWords;
  }

  lemma ByteValue(b: Byte, n: nat)
    requires n == b as int
    ensures HexByte(b) == HexNumber(n)
  {
  }

  lemma AbcBytes1()
    ensures HexByte(0x90) == "90"
    ensures HexByte(0x01) == "01"
    ensures HexByte(0x50) == "50"
    ensures HexByte(0x98) == "98"
  {
    ByteValue(0x90, 0x90);
    ByteValue(0x01, 0x01);
    ByteValue(0x50, 0x50);
    ByteValue(0x98, 0x98);
  }

  lemma AbcBytes2()
    ensures HexByte(0x3c) == "3c"
    ensures HexByte(0xd2) == "d2"
    ensures HexByte(0x4f) == "4f"
    ensures HexByte(0xb0) == "b0"
  {
    ByteValue(0x3c, 0x3c);
    ByteValue(0xd2, 0xd2);
    ByteValue(0x4f, 0x4f);
    ByteValue(0xb0, 0xb0);
  }

  lemma AbcBytes3()
    ensures HexByte(0xd6) == "d6"
    ensures HexByte(0x96) == "96"
    ensures HexByte(0x3f) == "3f"
    ensures HexByte(0x7d) == "7d"
  {
    ByteValue(0xd6, 0xd6);
    ByteValue(0x96, 0x96);
    ByteValue(0x3f, 0x3f);
    ByteValue(0x7d, 0x7d);
  }

  lemma AbcBytes4()
    ensures HexByte(0x28) == "28"
    ensures HexByte(0xe1) == "e1"
    ensures HexByte(0x7f) == "7f"
    ensures HexByte(0x72) == "72"
  {
    ByteValue(0x28, 0x28);
    ByteValue(0xe1, 0xe1);
    ByteValue(0x7f, 0x7f);
    ByteValue(0x72, 0x72);
  }

  lemma AbcByteAt(d: seq<Byte>, t: string, i: nat)
    requires d == [0x90, 0x01, 0x50, 0x98, 0x3c, 0xd2, 0x4f, 0xb0, 0xd6, 0x96, 0x3f, 0x7d, 0x28, 0xe1, 0x7f, 0x72]
    requires t == "900150983cd24fb0d6963f7d28e17f72" && i < 16
    ensures HexByte(d[i])[0] == t[2 * i] && HexByte(d[i])[1] == t[2 * i + 1]
  {
    hide HexByte;
    AbcBytes1();
    AbcBytes2();
    AbcBytes3();
    AbcBytes4();
    match i
    case 0 => assert t[0] == '9' && t[1] == '0';
    case 1 => assert t[2] == '0' && t[3] == '1';
    case 2 => assert t[4] == '5' && t[5] == '0';
    case 3 => assert t[6] == '9' && t[7] == '8';
    case 4 => assert t[8] == '3' && t[9] == 'c';
    case 5 => assert t[10] == 'd' && t[11] == '2';
    case 6 => assert t[12] == '4' && t[13] == 'f';
    case 7 => assert t[14] == 'b' && t[15] == '0';
    case 8 => assert t[16] == 'd' && t[17] == '6';
    case 9 => assert t[18] == '9' && t[19] == '6';
    case 10 => assert t[20] == '3' && t[21] == 'f';
    case 11 => assert t[22] == '7' && t[23] == 'd';
    case 12 => assert t[24] == '2' && t[25] == '8';
    case 13 => assert t[26] == 'e' && t[27] == '1';
    case 14 => assert t[28] == '7' && t[29] == 'f';
    case _ => assert t[30] == '7' && t[31] == '2';
  }

  /** And how it is printed. */
  lemma AbcPrinted()
    ensures Hex(Digest(ABC)) == "900150983cd24fb0d6963f7d28e17f72"
  {
    hide Digest, Hex, HexByte;
    AbcDigest();
    var d, s, t := Digest(ABC), Hex(Digest(ABC)), "900150983cd24fb0d6963f7d28e17f72";
    forall k | 0 <= k < 32
      ensures s[k] == t[k]
    {
      var i := k / 2;
      HexAt(d, i);
      AbcByteAt(d, t, i);
      PairAt(s, i);
      assert k == 2 * i || k == 2 * i + 1;
    }
  }

  lemma PairAt(s: string, i: nat)
    requires 2 * i + 2 <= |s|
    ensures s[2 * i..2 * i + 2][0] == s[2 * i] && s[2 * i..2 * i + 2][1] == s[2 * i + 1]
  {
  }

  // ---------------------------------------------------------------------
  // The padding, for every length.
  // ---------------------------------------------------------------------

  /** The number that bytes stand for, low-order byte first. */
  ghost function LittleEndian(b: seq<Byte>): nat
  {
    if b == [] then 0 else b[0] as int + 0x100 * LittleEndian(b[1..])
  }

  ghost function BytesOf(n: nat, k: nat): (b: seq<Byte>)
    ensures |b| == k && forall i :: 0 <= i < k ==> b[i] == ByteAt(n, i)
  {
    seq(k, i requires 0 <= i < k => ByteAt(n, i))
  }

  lemma NextDigit(n: nat, i: nat)
    ensures ByteAt(n, i + 1) == ByteAt(n / 0x100, i)
  {
    DivTwice(n, Pow256(i));
  }

  lemma DivTwice(n: nat, p: nat)
    requires p > 0
    ensures n / (0x100 * p) == n / 0x100 / p
  {
    var m, s := n / 0x100, n % 0x100;
    var q, r := m / p, m % p;
    DivMod(m, p);
    Spread(p, q, r, m);
    assert n == 0x100 * m + s && 0x100 * r + s < 0x100 * p;
    DivUnique(n, 0x100 * p, q, 0x100 * r + s);
  }

  lemma DivMod(m: nat, p: nat)
    requires p > 0
    ensures m == p * (m / p) + m % p && m % p < p
  {
  }

  lemma Spread(p: nat, q: nat, r: nat, m: nat)
    requires m == p * q + r
    ensures 0x100 * m == (0x100 * p) * q + 0x100 * r
  {
  }

  lemma IntOfByte(d: nat)
    requires d < 0x100
    ensures (d as Byte) as int == d
  {
    assert d % 0x100 == d;
  }

  lemma ByteIsDigit(n: nat)
    ensures ByteAt(n, 0) as int == n % 0x100
  {
    var d := n % 0x100;
    IntOfByte(d);
    assert Digit(n, 0) == d by { assert Pow256(0) == 1 && n / 1 == n; }
  }

  lemma {:induction false} BytesValue(n: nat, k: nat)
    requires n < Pow256(k)
    ensures LittleEndian(BytesOf(n, k)) == n
    decreases k
  {
    hide ByteAt;
    var b := BytesOf(n, k);
    if k > 0 {
      ByteIsDigit(n);
      var m := n / 0x100;
      forall i | 0 <= i < k - 1
        ensures b[1..][i] == BytesOf(m, k - 1)[i]
      {
        NextDigit(n, i);
      }
      assert b[1..] == BytesOf(m, k - 1);
      assert m < Pow256(k - 1) by { assert Pow256(k) == 0x100 * Pow256(k - 1); }
      BytesValue(m, k - 1);
    }
  }

  lemma PowerOfEight()
    ensures Pow256(8) == TWO64
  {
    assert Pow256(1) == 0x100 && Pow256(2) == 0x1_0000 && Pow256(3) == 0x100_0000 && Pow256(4) == TWO32;
    assert Pow256(5) == 0x100 * TWO32 && Pow256(6) == 0x1_0000 * TWO32 && Pow256(7) == 0x100_0000 * TWO32;
  }

  /** The padding is 0x80, the fewest zeros that make whole blocks, and the bit length modulo 2^64. */
  lemma PaddingShape(n: nat)
    ensures
      var p := Padding(n);
      && 9 <= |p| <= 72 && (n + |p|) % 64 == 0
      && p[0] == 0x80 && (forall i :: 1 <= i < |p| - 8 ==> p[i] == 0)
      && LittleEndian(p[|p| - 8..]) == (8 * n) % TWO64
  {
    hide ByteAt, LittleEndian;
    var m := (8 * n) % TWO64;
    PowerOfEight();
    BytesValue(m, 8);
    assert LengthBytes(n) == BytesOf(m, 8);
    var p := Padding(n);
    assert p[|p| - 8..] == LengthBytes(n);
  }
}
