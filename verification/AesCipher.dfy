/**
 Table-driven AES (aes_generic.c): encryption rounds, decryption by the
 Equivalent Inverse Cipher (section 5.3.5 of FIPS 197), and the round trip.
 */
module AesCipher {
  import opened AesField
  import opened AesWords

  datatype State = State(w0: bv32, w1: bv32, w2: bv32, w3: bv32)

  function Xor(x: State, y: State): State {
    State(PlusW(x.w0, y.w0), PlusW(x.w1, y.w1), PlusW(x.w2, y.w2), PlusW(x.w3, y.w3))
  }

  // ---------------------------------------------------------------- tables

  // crypto_ft_tab and crypto_fl_tab, for a substituted byte
  function Ft0(s: bv8): bv32 { Word(Col(Mul(s, 2), s, s, Mul(s, 3))) }
  function Ft1(s: bv8): bv32 { Word(Col(Mul(s, 3), Mul(s, 2), s, s)) }
  function Ft2(s: bv8): bv32 { Word(Col(s, Mul(s, 3), Mul(s, 2), s)) }
  function Ft3(s: bv8): bv32 { Word(Col(s, s, Mul(s, 3), Mul(s, 2))) }

  function L0(s: bv8): bv32 { Word(Col(s, 0, 0, 0)) }
  function L1(s: bv8): bv32 { Word(Col(0, s, 0, 0)) }
  function L2(s: bv8): bv32 { Word(Col(0, 0, s, 0)) }
  function L3(s: bv8): bv32 { Word(Col(0, 0, 0, s)) }

  // crypto_it_tab
  function It0(s: bv8): bv32 { Word(Col(Mul(s, 0xe), Mul(s, 9), Mul(s, 0xd), Mul(s, 0xb))) }
  function It1(s: bv8): bv32 { Word(Col(Mul(s, 0xb), Mul(s, 0xe), Mul(s, 9), Mul(s, 0xd))) }
  function It2(s: bv8): bv32 { Word(Col(Mul(s, 0xd), Mul(s, 0xb), Mul(s, 0xe), Mul(s, 9))) }
  function It3(s: bv8): bv32 { Word(Col(Mul(s, 9), Mul(s, 0xd), Mul(s, 0xb), Mul(s, 0xe))) }

  function Sum(a: bv32, b: bv32, c: bv32, d: bv32): bv32 { PlusW(PlusW(PlusW(a, b), c), d) }

  // f_rn and f_rl, i_rn and i_rl: one word from one byte of each of four words
  function Frn(a: bv32, b: bv32, c: bv32, d: bv32, k: bv32): bv32 {
    PlusW(Sum(Ft0(Sbox(Byte0(a))), Ft1(Sbox(Byte1(b))), Ft2(Sbox(Byte2(c))), Ft3(Sbox(Byte3(d)))), k)
  }

  function Frl(a: bv32, b: bv32, c: bv32, d: bv32, k: bv32): bv32 {
    PlusW(Sum(L0(Sbox(Byte0(a))), L1(Sbox(Byte1(b))), L2(Sbox(Byte2(c))), L3(Sbox(Byte3(d)))), k)
  }

  function Irn(a: bv32, b: bv32, c: bv32, d: bv32, k: bv32): bv32 {
    PlusW(Sum(It0(InvSbox(Byte0(a))), It1(InvSbox(Byte1(b))), It2(InvSbox(Byte2(c))), It3(InvSbox(Byte3(d)))), k)
  }

  function Irl(a: bv32, b: bv32, c: bv32, d: bv32, k: bv32): bv32 {
    PlusW(Sum(L0(InvSbox(Byte0(a))), L1(InvSbox(Byte1(b))), L2(InvSbox(Byte2(c))), L3(InvSbox(Byte3(d)))), k)
  }

  // f_nround, f_lround, i_nround, i_lround
  function FRound(b: State, k: State): State {
    State(Frn(b.w0, b.w1, b.w2, b.w3, k.w0), Frn(b.w1, b.w2, b.w3, b.w0, k.w1),
          Frn(b.w2, b.w3, b.w0, b.w1, k.w2), Frn(b.w3, b.w0, b.w1, b.w2, k.w3))
  }

  function FLast(b: State, k: State): State {
    State(Frl(b.w0, b.w1, b.w2, b.w3, k.w0), Frl(b.w1, b.w2, b.w3, b.w0, k.w1),
          Frl(b.w2, b.w3, b.w0, b.w1, k.w2), Frl(b.w3, b.w0, b.w1, b.w2, k.w3))
  }

  function IRound(b: State, k: State): State {
    State(Irn(b.w0, b.w3, b.w2, b.w1, k.w0), Irn(b.w1, b.w0, b.w3, b.w2, k.w1),
          Irn(b.w2, b.w1, b.w0, b.w3, k.w2), Irn(b.w3, b.w2, b.w1, b.w0, k.w3))
  }

  function ILast(b: State, k: State): State {
    State(Irl(b.w0, b.w3, b.w2, b.w1, k.w0), Irl(b.w1, b.w0, b.w3, b.w2, k.w1),
          Irl(b.w2, b.w1, b.w0, b.w3, k.w2), Irl(b.w3, b.w2, b.w1, b.w0, k.w3))
  }

  // ------------------------------------------------------- what they compute

  // SubBytes and ShiftRows of one output column, and their inverses.
  function SubCol(a: bv32, b: bv32, c: bv32, d: bv32): Col {
    Col(Sbox(Byte0(a)), Sbox(Byte1(b)), Sbox(Byte2(c)), Sbox(Byte3(d)))
  }

  function InvSubCol(a: bv32, b: bv32, c: bv32, d: bv32): Col {
    Col(InvSbox(Byte0(a)), InvSbox(Byte1(b)), InvSbox(Byte2(c)), InvSbox(Byte3(d)))
  }

  function SubShift(b: State): State {
    State(Word(SubCol(b.w0, b.w1, b.w2, b.w3)), Word(SubCol(b.w1, b.w2, b.w3, b.w0)),
          Word(SubCol(b.w2, b.w3, b.w0, b.w1)), Word(SubCol(b.w3, b.w0, b.w1, b.w2)))
  }

  function InvSubShift(b: State): State {
    State(Word(InvSubCol(b.w0, b.w3, b.w2, b.w1)), Word(InvSubCol(b.w1, b.w0, b.w3, b.w2)),
          Word(InvSubCol(b.w2, b.w1, b.w0, b.w3)), Word(InvSubCol(b.w3, b.w2, b.w1, b.w0)))
  }

  function MixWord(w: bv32): bv32 { Word(Mix(Unpack(w))) }

  function MixState(b: State): State { State(MixWord(b.w0), MixWord(b.w1), MixWord(b.w2), MixWord(b.w3)) }

  // imix_col on every column
  function ImixState(b: State): State { State(ImixCol(b.w0), ImixCol(b.w1), ImixCol(b.w2), ImixCol(b.w3)) }

  lemma PlusChain(a: bv8, b: bv8, c: bv8, d: bv8)
    ensures Plus(Plus(Plus(a, b), c), d) == Plus4(a, b, c, d)
  {
    hide Plus;
    Assoc(Plus(a, b), c, d);
  }

  // Adding four packed columns.
  lemma SumCols(x: Col, y: Col, z: Col, t: Col)
    ensures Sum(Word(x), Word(y), Word(z), Word(t)) ==
              Word(Col(Plus4(x.a, y.a, z.a, t.a), Plus4(x.b, y.b, z.b, t.b), Plus4(x.c, y.c, z.c, t.c),
                       Plus4(x.d, y.d, z.d, t.d)))
  {
    hide Plus, PlusW, Word, Plus4;
    WordPlus(x, y);
    WordPlus(PlusCol(x, y), z);
    WordPlus(PlusCol(PlusCol(x, y), z), t);
    PlusChain(x.a, y.a, z.a, t.a);
    PlusChain(x.b, y.b, z.b, t.b);
    PlusChain(x.c, y.c, z.c, t.c);
    PlusChain(x.d, y.d, z.d, t.d);
  }

  // The T tables add up to MixColumns of the substituted column ...
  lemma FtMixes(p: bv8, q: bv8, r: bv8, s: bv8)
    ensures Sum(Ft0(p), Ft1(q), Ft2(r), Ft3(s)) == Word(Mix(Col(p, q, r, s)))
  {
    hide Sum, Word, Mul, Plus4;
    SumCols(Col(Mul(p, 2), p, p, Mul(p, 3)), Col(Mul(q, 3), Mul(q, 2), q, q),
            Col(r, Mul(r, 3), Mul(r, 2), r), Col(s, s, Mul(s, 3), Mul(s, 2)));
    Turn(p, Mul(q, 2), Mul(r, 3), s);
    Turn(p, q, Mul(r, 2), Mul(s, 3));
    Turn(q, Mul(r, 2), Mul(s, 3), p);
    Turn(Mul(p, 3), q, r, Mul(s, 2));
    Turn(q, r, Mul(s, 2), Mul(p, 3));
    Turn(r, Mul(s, 2), Mul(p, 3), q);
  }

  // ... the inverse ones to InvMixColumns ...
  lemma ItMixes(p: bv8, q: bv8, r: bv8, s: bv8)
    ensures Sum(It0(p), It1(q), It2(r), It3(s)) == Word(InvMix(Col(p, q, r, s)))
  {
    hide Sum, Word, Mul, Plus4;
    SumCols(Col(Mul(p, 0xe), Mul(p, 9), Mul(p, 0xd), Mul(p, 0xb)),
            Col(Mul(q, 0xb), Mul(q, 0xe), Mul(q, 9), Mul(q, 0xd)),
            Col(Mul(r, 0xd), Mul(r, 0xb), Mul(r, 0xe), Mul(r, 9)),
            Col(Mul(s, 9), Mul(s, 0xd), Mul(s, 0xb), Mul(s, 0xe)));
    Turn(Mul(p, 9), Mul(q, 0xe), Mul(r, 0xb), Mul(s, 0xd));
    Turn(Mul(p, 0xd), Mul(q, 9), Mul(r, 0xe), Mul(s, 0xb));
    Turn(Mul(q, 9), Mul(r, 0xe), Mul(s, 0xb), Mul(p, 0xd));
    Turn(Mul(p, 0xb), Mul(q, 0xd), Mul(r, 9), Mul(s, 0xe));
    Turn(Mul(q, 0xd), Mul(r, 9), Mul(s, 0xe), Mul(p, 0xb));
    Turn(Mul(r, 9), Mul(s, 0xe), Mul(p, 0xb), Mul(q, 0xd));
  }

  lemma Alone(a: bv8)
    ensures Plus4(a, 0, 0, 0) == a && Plus4(0, a, 0, 0) == a && Plus4(0, 0, a, 0) == a && Plus4(0, 0, 0, a) == a
  {
  }

  // ... and the last-round tables to the column itself.
  lemma LastPacks(p: bv8, q: bv8, r: bv8, s: bv8)
    ensures Sum(L0(p), L1(q), L2(r), L3(s)) == Word(Col(p, q, r, s))
  {
    hide Sum, Word, Plus4;
    SumCols(Col(p, 0, 0, 0), Col(0, q, 0, 0), Col(0, 0, r, 0), Col(0, 0, 0, s));
    Alone(p);
    Alone(q);
    Alone(r);
    Alone(s);
  }

  // A word of each kind of round.
  lemma Words(a: bv32, b: bv32, c: bv32, d: bv32, k: bv32)
    ensures Frn(a, b, c, d, k) == PlusW(MixWord(Word(SubCol(a, b, c, d))), k)
    ensures Frl(a, b, c, d, k) == PlusW(Word(SubCol(a, b, c, d)), k)
    ensures Irn(a, b, c, d, k) == PlusW(ImixCol(Word(InvSubCol(a, b, c, d))), k)
    ensures Irl(a, b, c, d, k) == PlusW(Word(InvSubCol(a, b, c, d)), k)
  {
    hide Sum, Word, Mul, PlusW, Sbox, InvSbox, Mix, InvMix, ImixCol, Byte0, Byte1, Byte2, Byte3, Ft0, Ft1, Ft2, Ft3,
         L0, L1, L2, L3, It0, It1, It2, It3, Unpack;
    var x, y := SubCol(a, b, c, d), InvSubCol(a, b, c, d);
    FtMixes(x.a, x.b, x.c, x.d);
    LastPacks(x.a, x.b, x.c, x.d);
    ItMixes(y.a, y.b, y.c, y.d);
    LastPacks(y.a, y.b, y.c, y.d);
    WordUnpack(0, x);
    ImixIsInvMix(y);
  }

  // The rounds of sections 5.1 and 5.3.5.
  lemma Rounds(b: State, k: State)
    ensures FRound(b, k) == Xor(MixState(SubShift(b)), k)
    ensures FLast(b, k) == Xor(SubShift(b), k)
    ensures IRound(b, k) == Xor(ImixState(InvSubShift(b)), k)
    ensures ILast(b, k) == Xor(InvSubShift(b), k)
  {
    hide Frn, Frl, Irn, Irl, PlusW, Word, SubCol, InvSubCol, MixWord, ImixCol;
    Words(b.w0, b.w1, b.w2, b.w3, k.w0);
    Words(b.w1, b.w2, b.w3, b.w0, k.w1);
    Words(b.w2, b.w3, b.w0, b.w1, k.w2);
    Words(b.w3, b.w0, b.w1, b.w2, k.w3);
    Words(b.w0, b.w3, b.w2, b.w1, k.w0);
    Words(b.w1, b.w0, b.w3, b.w2, k.w1);
    Words(b.w2, b.w1, b.w0, b.w3, k.w2);
    Words(b.w3, b.w2, b.w1, b.w0, k.w3);
  }

  // ----------------------------------------------------------- undoing steps

  lemma ColBytes(x: Col)
    ensures Byte0(Word(x)) == x.a && Byte1(Word(x)) == x.b && Byte2(Word(x)) == x.c && Byte3(Word(x)) == x.d
  {
    PackBytes(x.a, x.b, x.c, x.d);
  }

  // The bytes of one word, gathered back from where ShiftRows put them.
  lemma WordBack(w: bv32, p: Col, q: Col, r: Col, s: Col)
    requires p.a == Sbox(Byte0(w)) && q.b == Sbox(Byte1(w)) && r.c == Sbox(Byte2(w)) && s.d == Sbox(Byte3(w))
    ensures Word(InvSubCol(Word(p), Word(q), Word(r), Word(s))) == w
  {
    hide Word, Byte0, Byte1, Byte2, Byte3, Sbox, InvSbox;
    ColBytes(p);
    ColBytes(q);
    ColBytes(r);
    ColBytes(s);
    SboxBack(Byte0(w));
    SboxBack(Byte1(w));
    SboxBack(Byte2(w));
    SboxBack(Byte3(w));
    WordUnpack(w, p);
  }

  lemma SubShiftBack(b: State)
    ensures InvSubShift(SubShift(b)) == b
  {
    hide Word, Byte0, Byte1, Byte2, Byte3, Sbox, InvSbox, InvSubCol;
    var c0, c1 := SubCol(b.w0, b.w1, b.w2, b.w3), SubCol(b.w1, b.w2, b.w3, b.w0);
    var c2, c3 := SubCol(b.w2, b.w3, b.w0, b.w1), SubCol(b.w3, b.w0, b.w1, b.w2);
    WordBack(b.w0, c0, c3, c2, c1);
    WordBack(b.w1, c1, c0, c3, c2);
    WordBack(b.w2, c2, c1, c0, c3);
    WordBack(b.w3, c3, c2, c1, c0);
  }

  lemma WordCancel(x: bv32, k: bv32)
    ensures PlusW(PlusW(x, k), k) == x
  {
  }

  lemma XorCancel(x: State, k: State)
    ensures Xor(Xor(x, k), k) == x
  {
    hide PlusW;
    WordCancel(x.w0, k.w0);
    WordCancel(x.w1, k.w1);
    WordCancel(x.w2, k.w2);
    WordCancel(x.w3, k.w3);
  }

  // The inverse mix of a mixed word with a key added: the key's inverse mix stays.
  lemma ImixWord(w: bv32, k: bv32)
    ensures ImixCol(PlusW(MixWord(w), k)) == PlusW(w, ImixCol(k))
  {
    hide Word, Unpack, PlusW, ImixCol, InvMix, Mix;
    var m, c := Mix(Unpack(w)), Unpack(k);
    WordUnpack(w, m);
    WordUnpack(k, c);
    WordPlus(m, c);
    ImixIsInvMix(PlusCol(m, c));
    InvMixPlus(m, c);
    InvMixOfMix(Unpack(w));
    ImixIsInvMix(c);
    WordPlus(Unpack(w), InvMix(c));
  }

  lemma ImixOfMix(x: State, k: State)
    ensures ImixState(Xor(MixState(x), k)) == Xor(x, ImixState(k))
  {
    hide MixWord, PlusW, ImixCol;
    ImixWord(x.w0, k.w0);
    ImixWord(x.w1, k.w1);
    ImixWord(x.w2, k.w2);
    ImixWord(x.w3, k.w3);
  }

  // One decryption round undoes one encryption round, a substitution apart.
  lemma RoundBack(x: State, k: State)
    ensures IRound(SubShift(FRound(x, k)), ImixState(k)) == SubShift(x)
  {
    hide FRound, FLast, IRound, ILast, SubShift, InvSubShift, MixState, ImixState, Xor;
    var y := FRound(x, k);
    Rounds(x, k);
    Rounds(SubShift(y), ImixState(k));
    SubShiftBack(y);
    ImixOfMix(SubShift(x), k);
    XorCancel(SubShift(x), ImixState(k));
  }

  // ------------------------------------------------------------- the cipher

  function FRounds(b: State, ks: seq<State>): State
    decreases |ks|
  {
    if ks == [] then b else FRounds(FRound(b, ks[0]), ks[1..])
  }

  function IRounds(b: State, ks: seq<State>): State
    decreases |ks|
  {
    if ks == [] then b else IRounds(IRound(b, ks[0]), ks[1..])
  }

  // aes_encrypt and aes_decrypt, for a key schedule of one slot per round
  function Encrypt(ks: seq<State>, block: State): State
    requires |ks| >= 2
  {
    FLast(FRounds(Xor(block, ks[0]), ks[1..|ks| - 1]), ks[|ks| - 1])
  }

  function Decrypt(ks: seq<State>, block: State): State
    requires |ks| >= 2
  {
    ILast(IRounds(Xor(block, ks[0]), ks[1..|ks| - 1]), ks[|ks| - 1])
  }

  // The schedule reversed, its inner slots through the inverse mix.
  function Inner(ks: seq<State>): seq<State> {
    if ks == [] then [] else [ImixState(ks[|ks| - 1])] + Inner(ks[..|ks| - 1])
  }

  function Reversed(ks: seq<State>): (r: seq<State>)
    requires |ks| >= 2
  {
    [ks[|ks| - 1]] + Inner(ks[1..|ks| - 1]) + [ks[0]]
  }

  lemma {:induction false} FRoundsLast(b: State, ks: seq<State>)
    requires ks != []
    ensures FRounds(b, ks) == FRound(FRounds(b, ks[..|ks| - 1]), ks[|ks| - 1])
    decreases |ks|
  {
    hide FRound;
    if |ks| > 1 {
      FRoundsLast(FRound(b, ks[0]), ks[1..]);
      assert ks[1..][..|ks| - 2] == ks[..|ks| - 1][1..];
    }
  }

  lemma {:induction false} RoundsBack(b: State, ks: seq<State>)
    ensures IRounds(SubShift(FRounds(b, ks)), Inner(ks)) == SubShift(b)
    decreases |ks|
  {
    hide FRound, IRound, SubShift, ImixState;
    if ks != [] {
      var n := |ks| - 1;
      var x := FRounds(b, ks[..n]);
      FRoundsLast(b, ks);
      RoundBack(x, ks[n]);
      assert Inner(ks)[1..] == Inner(ks[..n]);
      RoundsBack(b, ks[..n]);
    }
  }

  // Decryption under the reversed schedule undoes encryption, for any schedule
  // and any block.
  lemma DecryptsEncrypted(ks: seq<State>, block: State)
    requires |ks| >= 2
    ensures |Reversed(ks)| >= 2 && Decrypt(Reversed(ks), Encrypt(ks, block)) == block
  {
    hide FRounds, IRounds, FLast, ILast, SubShift, InvSubShift, Xor, Inner, FRound, IRound, MixState, ImixState;
    var n := |ks| - 1;
    var mid := ks[1..n];
    var d := Reversed(ks);
    assert d[0] == ks[n] && d[|d| - 1] == ks[0] && d[1..|d| - 1] == Inner(mid);
    var s0 := Xor(block, ks[0]);
    var s := FRounds(s0, mid);
    Rounds(s, ks[n]);
    XorCancel(SubShift(s), ks[n]);
    RoundsBack(s0, mid);
    Rounds(SubShift(s0), ks[0]);
    SubShiftBack(s0);
    XorCancel(block, ks[0]);
  }
}
