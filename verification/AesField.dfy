/**
 The field GF(2^8) of AES and its S-box (sections 4.2 and 5.1.1 of FIPS 197).
 */
module AesField {

  // Multiplication by x, modulo x^8 + x^4 + x^3 + x + 1.
  function Xtime(b: bv8): bv8 {
    ((b & 0x7f) << 1) ^ ((b >> 7) * 0x1b)
  }

  // Addition.
  function Plus(a: bv8, b: bv8): bv8 { a ^ b }

  function Bit(b: bv8, mask: bv8, a: bv8): bv8 { if b & mask != 0 then a else 0 }

  function Mul(a: bv8, b: bv8): bv8 {
    var a1 := Xtime(a);
    var a2 := Xtime(a1);
    var a3 := Xtime(a2);
    var a4 := Xtime(a3);
    var a5 := Xtime(a4);
    var a6 := Xtime(a5);
    var a7 := Xtime(a6);
    Bit(b, 1, a) ^ Bit(b, 2, a1) ^ Bit(b, 4, a2) ^ Bit(b, 8, a3)
    ^ Bit(b, 16, a4) ^ Bit(b, 32, a5) ^ Bit(b, 64, a6) ^ Bit(b, 128, a7)
  }

  // The multiplicative inverses, a row for each high half byte; 0 stands for
  // itself.
  function Row0(x: bv8): bv8 {
    if x & 8 == 0 then
      if x & 4 == 0 then
        (if x & 2 == 0 then (if x & 1 == 0 then 0x00 else 0x01)
         else (if x & 1 == 0 then 0x8d else 0xf6))
      else (if x & 2 == 0 then (if x & 1 == 0 then 0xcb else 0x52) else (if x & 1 == 0 then 0x7b else 0xd1))
    else
      if x & 4 == 0 then
        (if x & 2 == 0 then (if x & 1 == 0 then 0xe8 else 0x4f)
         else (if x & 1 == 0 then 0x29 else 0xc0))
      else (if x & 2 == 0 then (if x & 1 == 0 then 0xb0 else 0xe1) else (if x & 1 == 0 then 0xe5 else 0xc7))
  }

  function Row1(x: bv8): bv8 {
    if x & 8 == 0 then
      if x & 4 == 0 then
        (if x & 2 == 0 then (if x & 1 == 0 then 0x74 else 0xb4)
         else (if x & 1 == 0 then 0xaa else 0x4b))
      else (if x & 2 == 0 then (if x & 1 == 0 then 0x99 else 0x2b) else (if x & 1 == 0 then 0x60 else 0x5f))
    else
      if x & 4 == 0 then
        (if x & 2 == 0 then (if x & 1 == 0 then 0x58 else 0x3f)
         else (if x & 1 == 0 then 0xfd else 0xcc))
      else (if x & 2 == 0 then (if x & 1 == 0 then 0xff else 0x40) else (if x & 1 == 0 then 0xee else 0xb2))
  }

  function Row2(x: bv8): bv8 {
    if x & 8 == 0 then
      if x & 4 == 0 then
        (if x & 2 == 0 then (if x & 1 == 0 then 0x3a else 0x6e)
         else (if x & 1 == 0 then 0x5a else 0xf1))
      else (if x & 2 == 0 then (if x & 1 == 0 then 0x55 else 0x4d) else (if x & 1 == 0 then 0xa8 else 0xc9))
    else
      if x & 4 == 0 then
        (if x & 2 == 0 then (if x & 1 == 0 then 0xc1 else 0x0a)
         else (if x & 1 == 0 then 0x98 else 0x15))
      else (if x & 2 == 0 then (if x & 1 == 0 then 0x30 else 0x44) else (if x & 1 == 0 then 0xa2 else 0xc2))
  }

  function Row3(x: bv8): bv8 {
    if x & 8 == 0 then
      if x & 4 == 0 then
        (if x & 2 == 0 then (if x & 1 == 0 then 0x2c else 0x45)
         else (if x & 1 == 0 then 0x92 else 0x6c))
      else (if x & 2 == 0 then (if x & 1 == 0 then 0xf3 else 0x39) else (if x & 1 == 0 then 0x66 else 0x42))
    else
      if x & 4 == 0 then
        (if x & 2 == 0 then (if x & 1 == 0 then 0xf2 else 0x35)
         else (if x & 1 == 0 then 0x20 else 0x6f))
      else (if x & 2 == 0 then (if x & 1 == 0 then 0x77 else 0xbb) else (if x & 1 == 0 then 0x59 else 0x19))
  }

  function Row4(x: bv8): bv8 {
    if x & 8 == 0 then
      if x & 4 == 0 then
        (if x & 2 == 0 then (if x & 1 == 0 then 0x1d else 0xfe)
         else (if x & 1 == 0 then 0x37 else 0x67))
      else (if x & 2 == 0 then (if x & 1 == 0 then 0x2d else 0x31) else (if x & 1 == 0 then 0xf5 else 0x69))
    else
      if x & 4 == 0 then
        (if x & 2 == 0 then (if x & 1 == 0 then 0xa7 else 0x64)
         else (if x & 1 == 0 then 0xab else 0x13))
      else (if x & 2 == 0 then (if x & 1 == 0 then 0x54 else 0x25) else (if x & 1 == 0 then 0xe9 else 0x09))
  }

  function Row5(x: bv8): bv8 {
    if x & 8 == 0 then
      if x & 4 == 0 then
        (if x & 2 == 0 then (if x & 1 == 0 then 0xed else 0x5c)
         else (if x & 1 == 0 then 0x05 else 0xca))
      else (if x & 2 == 0 then (if x & 1 == 0 then 0x4c else 0x24) else (if x & 1 == 0 then 0x87 else 0xbf))
    else
      if x & 4 == 0 then
        (if x & 2 == 0 then (if x & 1 == 0 then 0x18 else 0x3e)
         else (if x & 1 == 0 then 0x22 else 0xf0))
      else (if x & 2 == 0 then (if x & 1 == 0 then 0x51 else 0xec) else (if x & 1 == 0 then 0x61 else 0x17))
  }

  function Row6(x: bv8): bv8 {
    if x & 8 == 0 then
      if x & 4 == 0 then
        (if x & 2 == 0 then (if x & 1 == 0 then 0x16 else 0x5e)
         else (if x & 1 == 0 then 0xaf else 0xd3))
      else (if x & 2 == 0 then (if x & 1 == 0 then 0x49 else 0xa6) else (if x & 1 == 0 then 0x36 else 0x43))
    else
      if x & 4 == 0 then
        (if x & 2 == 0 then (if x & 1 == 0 then 0xf4 else 0x47)
         else (if x & 1 == 0 then 0x91 else 0xdf))
      else (if x & 2 == 0 then (if x & 1 == 0 then 0x33 else 0x93) else (if x & 1 == 0 then 0x21 else 0x3b))
  }

  function Row7(x: bv8): bv8 {
    if x & 8 == 0 then
      if x & 4 == 0 then
        (if x & 2 == 0 then (if x & 1 == 0 then 0x79 else 0xb7)
         else (if x & 1 == 0 then 0x97 else 0x85))
      else (if x & 2 == 0 then (if x & 1 == 0 then 0x10 else 0xb5) else (if x & 1 == 0 then 0xba else 0x3c))
    else
      if x & 4 == 0 then
        (if x & 2 == 0 then (if x & 1 == 0 then 0xb6 else 0x70)
         else (if x & 1 == 0 then 0xd0 else 0x06))
      else (if x & 2 == 0 then (if x & 1 == 0 then 0xa1 else 0xfa) else (if x & 1 == 0 then 0x81 else 0x82))
  }

  function Row8(x: bv8): bv8 {
    if x & 8 == 0 then
      if x & 4 == 0 then
        (if x & 2 == 0 then (if x & 1 == 0 then 0x83 else 0x7e)
         else (if x & 1 == 0 then 0x7f else 0x80))
      else (if x & 2 == 0 then (if x & 1 == 0 then 0x96 else 0x73) else (if x & 1 == 0 then 0xbe else 0x56))
    else
      if x & 4 == 0 then
        (if x & 2 == 0 then (if x & 1 == 0 then 0x9b else 0x9e)
         else (if x & 1 == 0 then 0x95 else 0xd9))
      else (if x & 2 == 0 then (if x & 1 == 0 then 0xf7 else 0x02) else (if x & 1 == 0 then 0xb9 else 0xa4))
  }

  function Row9(x: bv8): bv8 {
    if x & 8 == 0 then
      if x & 4 == 0 then
        (if x & 2 == 0 then (if x & 1 == 0 then 0xde else 0x6a)
         else (if x & 1 == 0 then 0x32 else 0x6d))
      else (if x & 2 == 0 then (if x & 1 == 0 then 0xd8 else 0x8a) else (if x & 1 == 0 then 0x84 else 0x72))
    else
      if x & 4 == 0 then
        (if x & 2 == 0 then (if x & 1 == 0 then 0x2a else 0x14)
         else (if x & 1 == 0 then 0x9f else 0x88))
      else (if x & 2 == 0 then (if x & 1 == 0 then 0xf9 else 0xdc) else (if x & 1 == 0 then 0x89 else 0x9a))
  }

  function Row10(x: bv8): bv8 {
    if x & 8 == 0 then
      if x & 4 == 0 then
        (if x & 2 == 0 then (if x & 1 == 0 then 0xfb else 0x7c)
         else (if x & 1 == 0 then 0x2e else 0xc3))
      else (if x & 2 == 0 then (if x & 1 == 0 then 0x8f else 0xb8) else (if x & 1 == 0 then 0x65 else 0x48))
    else
      if x & 4 == 0 then
        (if x & 2 == 0 then (if x & 1 == 0 then 0x26 else 0xc8)
         else (if x & 1 == 0 then 0x12 else 0x4a))
      else (if x & 2 == 0 then (if x & 1 == 0 then 0xce else 0xe7) else (if x & 1 == 0 then 0xd2 else 0x62))
  }

  function Row11(x: bv8): bv8 {
    if x & 8 == 0 then
      if x & 4 == 0 then
        (if x & 2 == 0 then (if x & 1 == 0 then 0x0c else 0xe0)
         else (if x & 1 == 0 then 0x1f else 0xef))
      else (if x & 2 == 0 then (if x & 1 == 0 then 0x11 else 0x75) else (if x & 1 == 0 then 0x78 else 0x71))
    else
      if x & 4 == 0 then
        (if x & 2 == 0 then (if x & 1 == 0 then 0xa5 else 0x8e)
         else (if x & 1 == 0 then 0x76 else 0x3d))
      else (if x & 2 == 0 then (if x & 1 == 0 then 0xbd else 0xbc) else (if x & 1 == 0 then 0x86 else 0x57))
  }

  function Row12(x: bv8): bv8 {
    if x & 8 == 0 then
      if x & 4 == 0 then
        (if x & 2 == 0 then (if x & 1 == 0 then 0x0b else 0x28)
         else (if x & 1 == 0 then 0x2f else 0xa3))
      else (if x & 2 == 0 then (if x & 1 == 0 then 0xda else 0xd4) else (if x & 1 == 0 then 0xe4 else 0x0f))
    else
      if x & 4 == 0 then
        (if x & 2 == 0 then (if x & 1 == 0 then 0xa9 else 0x27)
         else (if x & 1 == 0 then 0x53 else 0x04))
      else (if x & 2 == 0 then (if x & 1 == 0 then 0x1b else 0xfc) else (if x & 1 == 0 then 0xac else 0xe6))
  }

  function Row13(x: bv8): bv8 {
    if x & 8 == 0 then
      if x & 4 == 0 then
        (if x & 2 == 0 then (if x & 1 == 0 then 0x7a else 0x07)
         else (if x & 1 == 0 then 0xae else 0x63))
      else (if x & 2 == 0 then (if x & 1 == 0 then 0xc5 else 0xdb) else (if x & 1 == 0 then 0xe2 else 0xea))
    else
      if x & 4 == 0 then
        (if x & 2 == 0 then (if x & 1 == 0 then 0x94 else 0x8b)
         else (if x & 1 == 0 then 0xc4 else 0xd5))
      else (if x & 2 == 0 then (if x & 1 == 0 then 0x9d else 0xf8) else (if x & 1 == 0 then 0x90 else 0x6b))
  }

  function Row14(x: bv8): bv8 {
    if x & 8 == 0 then
      if x & 4 == 0 then
        (if x & 2 == 0 then (if x & 1 == 0 then 0xb1 else 0x0d)
         else (if x & 1 == 0 then 0xd6 else 0xeb))
      else (if x & 2 == 0 then (if x & 1 == 0 then 0xc6 else 0x0e) else (if x & 1 == 0 then 0xcf else 0xad))
    else
      if x & 4 == 0 then
        (if x & 2 == 0 then (if x & 1 == 0 then 0x08 else 0x4e)
         else (if x & 1 == 0 then 0xd7 else 0xe3))
      else (if x & 2 == 0 then (if x & 1 == 0 then 0x5d else 0x50) else (if x & 1 == 0 then 0x1e else 0xb3))
  }

  function Row15(x: bv8): bv8 {
    if x & 8 == 0 then
      if x & 4 == 0 then
        (if x & 2 == 0 then (if x & 1 == 0 then 0x5b else 0x23)
         else (if x & 1 == 0 then 0x38 else 0x34))
      else (if x & 2 == 0 then (if x & 1 == 0 then 0x68 else 0x46) else (if x & 1 == 0 then 0x03 else 0x8c))
    else
      if x & 4 == 0 then
        (if x & 2 == 0 then (if x & 1 == 0 then 0xdd else 0x9c)
         else (if x & 1 == 0 then 0x7d else 0xa0))
      else (if x & 2 == 0 then (if x & 1 == 0 then 0xcd else 0x1a) else (if x & 1 == 0 then 0x41 else 0x1c))
  }

  function Inverse(x: bv8): bv8 {
    if x & 0x80 == 0 then
      if x & 0x40 == 0 then
        if x & 0x20 == 0 then (if x & 0x10 == 0 then Row0(x) else Row1(x))
        else (if x & 0x10 == 0 then Row2(x) else Row3(x))
      else
        if x & 0x20 == 0 then (if x & 0x10 == 0 then Row4(x) else Row5(x))
        else (if x & 0x10 == 0 then Row6(x) else Row7(x))
    else
      if x & 0x40 == 0 then
        if x & 0x20 == 0 then (if x & 0x10 == 0 then Row8(x) else Row9(x))
        else (if x & 0x10 == 0 then Row10(x) else Row11(x))
      else
        if x & 0x20 == 0 then (if x & 0x10 == 0 then Row12(x) else Row13(x))
        else (if x & 0x10 == 0 then Row14(x) else Row15(x))
  }

  // They are the inverses, and inverting twice is the identity.
  lemma InverseInverts(x: bv8)
    ensures x != 0 ==> Mul(x, Inverse(x)) == 1
    ensures Inverse(0) == 0
  {
  }

  lemma InverseTwice(x: bv8)
    ensures Inverse(Inverse(x)) == x
  {
  }

  // The affine map of the S-box and the one that undoes it.
  function Affine(b: bv8): bv8 {
    b ^ b.RotateLeft(1) ^ b.RotateLeft(2) ^ b.RotateLeft(3) ^ b.RotateLeft(4) ^ 0x63
  }

  function InvAffine(b: bv8): bv8 {
    b.RotateLeft(1) ^ b.RotateLeft(3) ^ b.RotateLeft(6) ^ 0x05
  }

  lemma AffineBack(b: bv8)
    ensures InvAffine(Affine(b)) == b
  {
  }

  function Sbox(x: bv8): bv8 { Affine(Inverse(x)) }

  function InvSbox(x: bv8): bv8 { Inverse(InvAffine(x)) }

  lemma SboxBack(x: bv8)
    ensures InvSbox(Sbox(x)) == x
  {
    hide Inverse, Affine, InvAffine;
    AffineBack(Inverse(x));
    InverseTwice(x);
  }

  lemma XtimePlus(a: bv8, b: bv8)
    ensures Xtime(Plus(a, b)) == Plus(Xtime(a), Xtime(b))
  {
  }
}
