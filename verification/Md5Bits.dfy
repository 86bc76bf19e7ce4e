/**
 The auxiliary functions of RFC 1321, section 3.4, as truth tables: under a mask in
 which an argument is all ones or all zeros. For a mask of one bit that is always so.
 */
module Md5Bits {
  import opened Md5Compress

  /** Under a mask of a single bit a word is all ones or all zeros. */
  lemma SingleBit(x: Word, m: Word)
    requires m & (m - 1) == 0
    ensures x & m == m || x & m == 0
  {
  }

  /** F is y where x is set and z where it is not. */
  lemma TableOfF(x: Word, y: Word, z: Word, m: Word)
    ensures x & m == m ==> F(x, y, z) & m == y & m
    ensures x & m == 0 ==> F(x, y, z) & m == z & m
  {
  }

  /** G is x where z is set and y where it is not. */
  lemma TableOfG(x: Word, y: Word, z: Word, m: Word)
    ensures z & m == m ==> G(x, y, z) & m == x & m
    ensures z & m == 0 ==> G(x, y, z) & m == y & m
  {
  }

  /** H is z where x and y agree and not z where they differ. */
  lemma TableOfH(x: Word, y: Word, z: Word, m: Word)
    ensures x & m == y & m ==> H(x, y, z) & m == z & m
    ensures x & m == !y & m ==> H(x, y, z) & m == !z & m
  {
  }

  /** I is y where x is not set and z is, and not y elsewhere. */
  lemma TableOfI(x: Word, y: Word, z: Word, m: Word)
    ensures x & m == 0 && z & m == m ==> I(x, y, z) & m == y & m
    ensures x & m == m || z & m == 0 ==> I(x, y, z) & m == !y & m
  {
  }
}
