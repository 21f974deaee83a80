/**
 The AES key schedule (section 5.2 of FIPS 197) and the cipher context
 (aes_generic.c), filled in place and used by the table-driven rounds.
 */
module AesKeys {
  import opened AesField
  import opened AesWords
  import opened AesCipher

  const EINVAL: int := 22
  const MAX_WORDS: nat := 60

  // ------------------------------------------------------ the key expansion

  // Powers of x, the round constants.
  function PowX(n: nat): bv8 { if n == 0 then 1 else Xtime(PowX(n - 1)) }

  function SubWord(w: bv32): bv32 { Word(Col(Sbox(Byte0(w)), Sbox(Byte1(w)), Sbox(Byte2(w)), Sbox(Byte3(w)))) }
  function RotWord(w: bv32): bv32 { Word(Col(Byte1(w), Byte2(w), Byte3(w), Byte0(w))) }

  predicate KeySize(n: nat) { n == 4 || n == 6 || n == 8 }

  // What is added to the word nk places back.
  function Temp(nk: nat, i: nat, t: bv32): bv32
    requires KeySize(nk) && i >= nk
  {
    if i % nk == 0 then PlusW(SubWord(RotWord(t)), Word(Col(PowX(i / nk - 1), 0, 0, 0)))
    else if nk > 6 && i % nk == 4 then SubWord(t)
    else t
  }

  // The i-th word of the expanded key.
  function W(key: seq<bv32>, i: nat): bv32
    requires KeySize(|key|)
  {
    if i < |key| then key[i] else PlusW(W(key, i - |key|), Temp(|key|, i, W(key, i - 1)))
  }

  function NrRounds(nk: nat): nat { nk + 6 }

  function Slot(key: seq<bv32>, r: nat): State
    requires KeySize(|key|)
  {
    State(W(key, 4 * r), W(key, 4 * r + 1), W(key, 4 * r + 2), W(key, 4 * r + 3))
  }

  // The schedule, a slot a round.
  function Schedule(key: seq<bv32>): (ks: seq<State>)
    requires KeySize(|key|)
    ensures |ks| == NrRounds(|key|) + 1
  {
    seq(NrRounds(|key|) + 1, r requires 0 <= r <= NrRounds(|key|) => Slot(key, r))
  }

  // ------------------------------------------------------------ the tables

  const RCO_TAB: seq<bv32> := [1, 2, 4, 8, 16, 32, 64, 128, 27, 54]

  lemma RcoBytes()
    ensures PowX(1) == 2 && PowX(2) == 4 && PowX(3) == 8 && PowX(4) == 16 && PowX(5) == 32
    ensures PowX(6) == 64 && PowX(7) == 128 && PowX(8) == 27 && PowX(9) == 54
  {
    assert PowX(1) == 2;
    assert PowX(2) == 4;
    assert PowX(3) == 8;
    assert PowX(4) == 16;
    assert PowX(5) == 32;
    assert PowX(6) == 64;
    assert PowX(7) == 128;
    assert PowX(8) == 27;
    assert PowX(9) == 54;
  }

  lemma RcoWords()
    ensures Word(Col(1, 0, 0, 0)) == 1 && Word(Col(2, 0, 0, 0)) == 2 && Word(Col(4, 0, 0, 0)) == 4
    ensures Word(Col(8, 0, 0, 0)) == 8 && Word(Col(16, 0, 0, 0)) == 16 && Word(Col(32, 0, 0, 0)) == 32
    ensures Word(Col(64, 0, 0, 0)) == 64 && Word(Col(128, 0, 0, 0)) == 128 && Word(Col(27, 0, 0, 0)) == 27
    ensures Word(Col(54, 0, 0, 0)) == 54
  {
  }

  // rco_tab holds the round constants.
  lemma RcoIs(i: nat)
    requires i < 10
    ensures RCO_TAB[i] == Word(Col(PowX(i), 0, 0, 0))
  {
    hide Word, Xtime;
    RcoBytes();
    RcoWords();
  }

  // ls_box, after or without a rotation
  function LsBox(x: bv32): bv32 {
    Sum(L0(Sbox(Byte0(x))), L1(Sbox(Byte1(x))), L2(Sbox(Byte2(x))), L3(Sbox(Byte3(x))))
  }

  lemma LsBoxIs(x: bv32)
    ensures LsBox(x) == SubWord(x) && Ror8(x) == RotWord(x)
  {
    hide Sum, Word, Sbox, L0, L1, L2, L3, Byte0, Byte1, Byte2, Byte3, Ror8;
    LastPacks(Sbox(Byte0(x)), Sbox(Byte1(x)), Sbox(Byte2(x)), Sbox(Byte3(x)));
    RorBytes(x);
    WordUnpack(Ror8(x), Unpack(x));
  }

  // ------------------------------------------------------ the decryption keys

  lemma {:induction false} InnerAt(ks: seq<State>, i: nat)
    requires i < |ks|
    ensures |Inner(ks)| == |ks| && Inner(ks)[i] == ImixState(ks[|ks| - 1 - i])
    decreases |ks|
  {
    hide ImixState;
    var n := |ks| - 1;
    if i > 0 {
      InnerAt(ks[..n], i - 1);
    } else if n > 0 {
      InnerAt(ks[..n], 0);
    }
  }

  // The reversed schedule, slot by slot.
  lemma ReversedAt(ks: seq<State>, r: nat)
    requires |ks| >= 2 && r < |ks|
    ensures |Reversed(ks)| == |ks|
    ensures Reversed(ks)[r] == if r == 0 || r == |ks| - 1 then ks[|ks| - 1 - r] else ImixState(ks[|ks| - 1 - r])
  {
    hide ImixState;
    var mid := ks[1..|ks| - 1];
    if mid != [] { InnerAt(mid, if 0 < r < |ks| - 1 then r - 1 else 0); }
  }
}
