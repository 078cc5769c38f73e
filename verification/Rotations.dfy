/**
 What the rotation of digest.c does to the bits of a word, for each shift of MD5
 and SHA-1: the high-order bits become the low-order ones, and the others move up.
 */
module Rotations {
  import opened Words

  lemma By1(w: word)
    ensures RotateLeft(w, 1) & 0x1 == w >> 31 && RotateLeft(w, 1) >> 1 == w & 0x7fffffff
  {
  }

  lemma By4(w: word)
    ensures RotateLeft(w, 4) & 0xf == w >> 28 && RotateLeft(w, 4) >> 4 == w & 0xfffffff
  {
  }

  lemma By5(w: word)
    ensures RotateLeft(w, 5) & 0x1f == w >> 27 && RotateLeft(w, 5) >> 5 == w & 0x7ffffff
  {
  }

  lemma By6(w: word)
    ensures RotateLeft(w, 6) & 0x3f == w >> 26 && RotateLeft(w, 6) >> 6 == w & 0x3ffffff
  {
  }

  lemma By7(w: word)
    ensures RotateLeft(w, 7) & 0x7f == w >> 25 && RotateLeft(w, 7) >> 7 == w & 0x1ffffff
  {
  }

  lemma By9(w: word)
    ensures RotateLeft(w, 9) & 0x1ff == w >> 23 && RotateLeft(w, 9) >> 9 == w & 0x7fffff
  {
  }

  lemma By10(w: word)
    ensures RotateLeft(w, 10) & 0x3ff == w >> 22 && RotateLeft(w, 10) >> 10 == w & 0x3fffff
  {
  }

  lemma By11(w: word)
    ensures RotateLeft(w, 11) & 0x7ff == w >> 21 && RotateLeft(w, 11) >> 11 == w & 0x1fffff
  {
  }

  lemma By12(w: word)
    ensures RotateLeft(w, 12) & 0xfff == w >> 20 && RotateLeft(w, 12) >> 12 == w & 0xfffff
  {
  }

  lemma By14(w: word)
    ensures RotateLeft(w, 14) & 0x3fff == w >> 18 && RotateLeft(w, 14) >> 14 == w & 0x3ffff
  {
  }

  lemma By15(w: word)
    ensures RotateLeft(w, 15) & 0x7fff == w >> 17 && RotateLeft(w, 15) >> 15 == w & 0x1ffff
  {
  }

  lemma By16(w: word)
    ensures RotateLeft(w, 16) & 0xffff == w >> 16 && RotateLeft(w, 16) >> 16 == w & 0xffff
  {
  }

  lemma By17(w: word)
    ensures RotateLeft(w, 17) & 0x1ffff == w >> 15 && RotateLeft(w, 17) >> 17 == w & 0x7fff
  {
  }

  lemma By20(w: word)
    ensures RotateLeft(w, 20) & 0xfffff == w >> 12 && RotateLeft(w, 20) >> 20 == w & 0xfff
  {
  }

  lemma By21(w: word)
    ensures RotateLeft(w, 21) & 0x1fffff == w >> 11 && RotateLeft(w, 21) >> 21 == w & 0x7ff
  {
  }

  lemma By22(w: word)
    ensures RotateLeft(w, 22) & 0x3fffff == w >> 10 && RotateLeft(w, 22) >> 22 == w & 0x3ff
  {
  }

  lemma By23(w: word)
    ensures RotateLeft(w, 23) & 0x7fffff == w >> 9 && RotateLeft(w, 23) >> 23 == w & 0x1ff
  {
  }

  lemma By30(w: word)
    ensures RotateLeft(w, 30) & 0x3fffffff == w >> 2 && RotateLeft(w, 30) >> 30 == w & 0x3
  {
  }
}
