/**
 Columns as packed words (aes_generic.c): byte selection, rotation, doubling of
 four bytes at once, and the mix and inverse mix of a column.
 */
module AesWords {
  import opened AesField

  // A column of the state, first byte lowest.
  datatype Col = Col(a: bv8, b: bv8, c: bv8, d: bv8)

  // byte(x, n)
  function Byte0(w: bv32): bv8 { (w & 0xff) as bv8 }
  function Byte1(w: bv32): bv8 { ((w >> 8) & 0xff) as bv8 }
  function Byte2(w: bv32): bv8 { ((w >> 16) & 0xff) as bv8 }
  function Byte3(w: bv32): bv8 { ((w >> 24) & 0xff) as bv8 }

  function Pack(a: bv8, b: bv8, c: bv8, d: bv8): bv32 {
    (a as bv32) | ((b as bv32) << 8) | ((c as bv32) << 16) | ((d as bv32) << 24)
  }

  function Word(c: Col): bv32 { Pack(c.a, c.b, c.c, c.d) }
  function Unpack(w: bv32): Col { Col(Byte0(w), Byte1(w), Byte2(w), Byte3(w)) }

  // ror32
  function Ror8(w: bv32): bv32 { (w >> 8) | (w << 24) }
  function Ror16(w: bv32): bv32 { (w >> 16) | (w << 16) }
  function Ror24(w: bv32): bv32 { (w >> 24) | (w << 8) }

  function StarX(x: bv32): bv32 { ((x & 0x7f7f7f7f) << 1) ^ (((x & 0x80808080) >> 7) * 0x1b) }

  function PlusW(x: bv32, y: bv32): bv32 { x ^ y }

  // imix_col
  function ImixCol(x: bv32): bv32 {
    var u := StarX(x);
    var v := StarX(u);
    var w := StarX(v);
    var t := PlusW(w, x);
    PlusW(PlusW(PlusW(u, v), w), PlusW(PlusW(Ror8(PlusW(u, t)), Ror16(PlusW(v, t))), Ror24(t)))
  }

  // ----------------------------------------------------------- packed bytes

  lemma PackBytes(a: bv8, b: bv8, c: bv8, d: bv8)
    ensures var w := Pack(a, b, c, d); Byte0(w) == a && Byte1(w) == b && Byte2(w) == c && Byte3(w) == d
  {
  }

  lemma BytesPack(w: bv32)
    ensures Pack(Byte0(w), Byte1(w), Byte2(w), Byte3(w)) == w
  {
  }

  lemma WordUnpack(w: bv32, c: Col)
    ensures Word(Unpack(w)) == w && Unpack(Word(c)) == c
  {
    hide Pack, Byte0, Byte1, Byte2, Byte3;
    BytesPack(w);
    PackBytes(c.a, c.b, c.c, c.d);
  }

  lemma PackPlus(a: bv8, b: bv8, c: bv8, d: bv8, e: bv8, f: bv8, g: bv8, h: bv8)
    ensures PlusW(Pack(a, b, c, d), Pack(e, f, g, h)) == Pack(Plus(a, e), Plus(b, f), Plus(c, g), Plus(d, h))
  {
    assert Pack(a, b, c, d) ^ Pack(e, f, g, h) == Pack(a ^ e, b ^ f, c ^ g, d ^ h);
  }

  lemma RorBytes(w: bv32)
    ensures Unpack(Ror8(w)) == Col(Byte1(w), Byte2(w), Byte3(w), Byte0(w))
    ensures Unpack(Ror16(w)) == Col(Byte2(w), Byte3(w), Byte0(w), Byte1(w))
    ensures Unpack(Ror24(w)) == Col(Byte3(w), Byte0(w), Byte1(w), Byte2(w))
  {
  }

  // Rotating a packed column.
  lemma RorPack(a: bv8, b: bv8, c: bv8, d: bv8)
    ensures Ror8(Pack(a, b, c, d)) == Pack(b, c, d, a)
    ensures Ror16(Pack(a, b, c, d)) == Pack(c, d, a, b)
    ensures Ror24(Pack(a, b, c, d)) == Pack(d, a, b, c)
  {
    hide Pack, Byte0, Byte1, Byte2, Byte3, Ror8, Ror16, Ror24;
    var w := Pack(a, b, c, d);
    PackBytes(a, b, c, d);
    RorBytes(w);
    BytesPack(Ror8(w));
    BytesPack(Ror16(w));
    BytesPack(Ror24(w));
  }

  // star_x doubles each of the four bytes in the field.
  lemma StarBytes(a: bv8, b: bv8, c: bv8, d: bv8)
    ensures StarX(Pack(a, b, c, d)) == Pack(Xtime(a), Xtime(b), Xtime(c), Xtime(d))
  {
  }

  // -------------------------------------------------------------- the mixes

  function X2(a: bv8): bv8 { Xtime(Xtime(a)) }
  function X3(a: bv8): bv8 { Xtime(X2(a)) }

  function Plus3(a: bv8, b: bv8, c: bv8): bv8 { Plus(Plus(a, b), c) }
  function Plus4(a: bv8, b: bv8, c: bv8, d: bv8): bv8 { Plus(Plus(a, b), Plus(c, d)) }

  // The multiples the mixes use, as sums of doublings.
  function M3(a: bv8): bv8 { Plus(Xtime(a), a) }
  function M9(a: bv8): bv8 { Plus(X3(a), a) }
  function MB(a: bv8): bv8 { Plus3(X3(a), Xtime(a), a) }
  function MD(a: bv8): bv8 { Plus3(X3(a), X2(a), a) }
  function ME(a: bv8): bv8 { Plus3(X3(a), X2(a), Xtime(a)) }

  lemma MulSmall(a: bv8)
    ensures Mul(a, 2) == Xtime(a) && Mul(a, 3) == M3(a)
  {
  }

  lemma MulNine(a: bv8)
    ensures Mul(a, 9) == M9(a) && Mul(a, 0xb) == MB(a)
  {
  }

  lemma MulLarge(a: bv8)
    ensures Mul(a, 0xd) == MD(a) && Mul(a, 0xe) == ME(a)
  {
  }

  lemma Comm(a: bv8, b: bv8)
    ensures Plus(a, b) == Plus(b, a)
  {
  }

  lemma Assoc(a: bv8, b: bv8, c: bv8)
    ensures Plus(Plus(a, b), c) == Plus(a, Plus(b, c))
  {
  }

  lemma Swap2(a: bv8, b: bv8, c: bv8, d: bv8)
    ensures Plus(Plus(a, b), Plus(c, d)) == Plus(Plus(a, c), Plus(b, d))
  {
    hide Plus;
    Assoc(a, b, Plus(c, d));
    Assoc(b, c, d);
    Comm(b, c);
    Assoc(c, b, d);
    Assoc(a, c, Plus(b, d));
  }

  lemma Swap3(a: bv8, b: bv8, c: bv8, d: bv8, e: bv8, f: bv8)
    ensures Plus3(Plus(a, b), Plus(c, d), Plus(e, f)) == Plus(Plus3(a, c, e), Plus3(b, d, f))
  {
    hide Plus;
    Swap2(a, b, c, d);
    Swap2(Plus(a, c), Plus(b, d), e, f);
  }

  lemma Swap4(a: bv8, b: bv8, c: bv8, d: bv8, e: bv8, f: bv8, g: bv8, h: bv8)
    ensures Plus4(Plus(a, e), Plus(b, f), Plus(c, g), Plus(d, h)) == Plus(Plus4(a, b, c, d), Plus4(e, f, g, h))
  {
    hide Plus;
    Swap2(a, e, b, f);
    Swap2(c, g, d, h);
    Swap2(Plus(a, b), Plus(e, f), Plus(c, d), Plus(g, h));
  }

  lemma X3Plus(a: bv8, b: bv8)
    ensures X2(Plus(a, b)) == Plus(X2(a), X2(b)) && X3(Plus(a, b)) == Plus(X3(a), X3(b))
  {
    hide Xtime, Plus;
    XtimePlus(a, b);
    XtimePlus(Xtime(a), Xtime(b));
    XtimePlus(X2(a), X2(b));
  }

  lemma MultiplesPlus(a: bv8, b: bv8)
    ensures M3(Plus(a, b)) == Plus(M3(a), M3(b))
    ensures M9(Plus(a, b)) == Plus(M9(a), M9(b))
    ensures MB(Plus(a, b)) == Plus(MB(a), MB(b))
    ensures MD(Plus(a, b)) == Plus(MD(a), MD(b))
    ensures ME(Plus(a, b)) == Plus(ME(a), ME(b))
  {
    hide Xtime, X2, X3, Plus, Plus3;
    XtimePlus(a, b);
    X3Plus(a, b);
    Swap2(Xtime(a), Xtime(b), a, b);
    Swap2(X3(a), X3(b), a, b);
    Swap3(X3(a), X3(b), Xtime(a), Xtime(b), a, b);
    Swap3(X3(a), X3(b), X2(a), X2(b), a, b);
    Swap3(X3(a), X3(b), X2(a), X2(b), Xtime(a), Xtime(b));
  }

  // A row of MixColumns and of InvMixColumns (sections 5.1.3 and 5.3.3); the
  // other rows rotate the column.
  function MixRow(a: bv8, b: bv8, c: bv8, d: bv8): bv8 { Plus4(Mul(a, 2), Mul(b, 3), c, d) }
  function InvRow(a: bv8, b: bv8, c: bv8, d: bv8): bv8 { Plus4(Mul(a, 0xe), Mul(b, 0xb), Mul(c, 0xd), Mul(d, 9)) }

  function Mix(x: Col): Col {
    Col(MixRow(x.a, x.b, x.c, x.d), MixRow(x.b, x.c, x.d, x.a), MixRow(x.c, x.d, x.a, x.b), MixRow(x.d, x.a, x.b, x.c))
  }

  function InvMix(x: Col): Col {
    Col(InvRow(x.a, x.b, x.c, x.d), InvRow(x.b, x.c, x.d, x.a), InvRow(x.c, x.d, x.a, x.b), InvRow(x.d, x.a, x.b, x.c))
  }

  lemma MixRowIs(a: bv8, b: bv8, c: bv8, d: bv8)
    ensures MixRow(a, b, c, d) == Plus4(Xtime(a), M3(b), c, d)
  {
    hide Mul, Xtime, M3, Plus4;
    MulSmall(a);
    MulSmall(b);
  }

  lemma InvRowIs(a: bv8, b: bv8, c: bv8, d: bv8)
    ensures InvRow(a, b, c, d) == Plus4(ME(a), MB(b), MD(c), M9(d))
  {
    hide Mul, ME, MB, MD, M9, Plus4;
    MulLarge(a);
    MulNine(b);
    MulLarge(c);
    MulNine(d);
  }

  // The inverse mix is linear ...
  lemma InvRowPlus(a: bv8, b: bv8, c: bv8, d: bv8, e: bv8, f: bv8, g: bv8, h: bv8)
    ensures InvRow(Plus(a, e), Plus(b, f), Plus(c, g), Plus(d, h)) == Plus(InvRow(a, b, c, d), InvRow(e, f, g, h))
  {
    hide InvRow, ME, MB, MD, M9, Plus, Plus4;
    InvRowIs(Plus(a, e), Plus(b, f), Plus(c, g), Plus(d, h));
    InvRowIs(a, b, c, d);
    InvRowIs(e, f, g, h);
    MultiplesPlus(a, e);
    MultiplesPlus(b, f);
    MultiplesPlus(c, g);
    MultiplesPlus(d, h);
    Swap4(ME(a), MB(b), MD(c), M9(d), ME(e), MB(f), MD(g), M9(h));
  }

  function PlusCol(x: Col, y: Col): Col { Col(Plus(x.a, y.a), Plus(x.b, y.b), Plus(x.c, y.c), Plus(x.d, y.d)) }

  lemma InvMixPlus(x: Col, y: Col)
    ensures InvMix(PlusCol(x, y)) == PlusCol(InvMix(x), InvMix(y))
  {
    hide InvRow, Plus;
    InvRowPlus(x.a, x.b, x.c, x.d, y.a, y.b, y.c, y.d);
    InvRowPlus(x.b, x.c, x.d, x.a, y.b, y.c, y.d, y.a);
    InvRowPlus(x.c, x.d, x.a, x.b, y.c, y.d, y.a, y.b);
    InvRowPlus(x.d, x.a, x.b, x.c, y.d, y.a, y.b, y.c);
  }

  // ... and undoes the mix: the coefficients of one byte add up to 1 in its own
  // row and to 0 in the others.
  lemma OwnRow(a: bv8)
    ensures Plus4(ME(Xtime(a)), MB(a), MD(a), M9(M3(a))) == a
  {
  }

  lemma OtherRows(b: bv8)
    ensures Plus4(ME(M3(b)), MB(Xtime(b)), MD(b), M9(b)) == 0
    ensures Plus4(ME(b), MB(M3(b)), MD(Xtime(b)), M9(b)) == 0
    ensures Plus4(ME(b), MB(b), MD(M3(b)), M9(Xtime(b))) == 0
  {
  }

  lemma Zeros(a: bv8)
    ensures Plus4(a, 0, 0, 0) == a
  {
  }

  lemma Turn(a: bv8, b: bv8, c: bv8, d: bv8)
    ensures Plus4(b, c, d, a) == Plus4(a, b, c, d)
  {
    hide Plus;
    Comm(Plus(b, c), Plus(d, a));
    Comm(d, a);
    Swap2(a, d, b, c);
    Comm(d, c);
  }

  // Sums of four sums, by rows or by columns.
  lemma Transpose(a0: bv8, a1: bv8, a2: bv8, a3: bv8, b0: bv8, b1: bv8, b2: bv8, b3: bv8,
                  c0: bv8, c1: bv8, c2: bv8, c3: bv8, d0: bv8, d1: bv8, d2: bv8, d3: bv8)
    ensures Plus4(Plus4(a0, b0, c0, d0), Plus4(b1, c1, d1, a1), Plus4(c2, d2, a2, b2), Plus4(d3, a3, b3, c3)) ==
            Plus4(Plus4(a0, a1, a2, a3), Plus4(b0, b1, b2, b3), Plus4(c0, c1, c2, c3), Plus4(d0, d1, d2, d3))
  {
    hide Plus;
    Turn(a1, b1, c1, d1);
    Turn(b2, c2, d2, a2);
    Turn(a2, b2, c2, d2);
    Turn(c3, d3, a3, b3);
    Turn(b3, c3, d3, a3);
    Turn(a3, b3, c3, d3);
    Turn(d3, a3, b3, c3);
    Swap4(a0, b0, c0, d0, a1, b1, c1, d1);
    Swap4(a2, b2, c2, d2, a3, b3, c3, d3);
    Swap4(Plus(a0, a1), Plus(b0, b1), Plus(c0, c1), Plus(d0, d1), Plus(a2, a3), Plus(b2, b3), Plus(c2, c3),
          Plus(d2, d3));
  }

  lemma MultiplesPlus4(a: bv8, b: bv8, c: bv8, d: bv8)
    ensures ME(Plus4(a, b, c, d)) == Plus4(ME(a), ME(b), ME(c), ME(d))
    ensures MB(Plus4(a, b, c, d)) == Plus4(MB(a), MB(b), MB(c), MB(d))
    ensures MD(Plus4(a, b, c, d)) == Plus4(MD(a), MD(b), MD(c), MD(d))
    ensures M9(Plus4(a, b, c, d)) == Plus4(M9(a), M9(b), M9(c), M9(d))
  {
    hide ME, MB, MD, M9, M3, Plus;
    MultiplesPlus(a, b);
    MultiplesPlus(c, d);
    MultiplesPlus(Plus(a, b), Plus(c, d));
  }

  lemma InvRowOfMix(a: bv8, b: bv8, c: bv8, d: bv8)
    ensures InvRow(MixRow(a, b, c, d), MixRow(b, c, d, a), MixRow(c, d, a, b), MixRow(d, a, b, c)) == a
  {
    hide InvRow, MixRow, ME, MB, MD, M9, M3, Xtime, Plus4;
    InvRowIs(MixRow(a, b, c, d), MixRow(b, c, d, a), MixRow(c, d, a, b), MixRow(d, a, b, c));
    MixRowIs(a, b, c, d);
    MixRowIs(b, c, d, a);
    MixRowIs(c, d, a, b);
    MixRowIs(d, a, b, c);
    MultiplesPlus4(Xtime(a), M3(b), c, d);
    MultiplesPlus4(Xtime(b), M3(c), d, a);
    MultiplesPlus4(Xtime(c), M3(d), a, b);
    MultiplesPlus4(Xtime(d), M3(a), b, c);
    Transpose(ME(Xtime(a)), MB(a), MD(a), M9(M3(a)), ME(M3(b)), MB(Xtime(b)), MD(b), M9(b),
              ME(c), MB(M3(c)), MD(Xtime(c)), M9(c), ME(d), MB(d), MD(M3(d)), M9(Xtime(d)));
    OwnRow(a);
    OtherRows(b);
    OtherRows(c);
    OtherRows(d);
    Zeros(a);
  }

  lemma InvMixOfMix(x: Col)
    ensures InvMix(Mix(x)) == x
  {
    hide InvRow, MixRow;
    InvRowOfMix(x.a, x.b, x.c, x.d);
    InvRowOfMix(x.b, x.c, x.d, x.a);
    InvRowOfMix(x.c, x.d, x.a, x.b);
    InvRowOfMix(x.d, x.a, x.b, x.c);
  }

  // ------------------------------------------------------ packed inverse mix

  lemma WordPlus(x: Col, y: Col)
    ensures PlusW(Word(x), Word(y)) == Word(PlusCol(x, y))
  {
    hide Pack, Plus, PlusW;
    PackPlus(x.a, x.b, x.c, x.d, y.a, y.b, y.c, y.d);
  }

  lemma SumsOfDoublings(a: bv8)
    ensures Plus3(Xtime(a), X2(a), X3(a)) == ME(a)
    ensures Plus(Xtime(a), M9(a)) == MB(a) && Plus(X2(a), M9(a)) == MD(a)
  {
    hide Xtime, X2, X3, Plus;
    Assoc(Xtime(a), X2(a), X3(a));
    Comm(X2(a), X3(a));
    Comm(Xtime(a), Plus(X3(a), X2(a)));
    Assoc(Xtime(a), X3(a), a);
    Comm(Xtime(a), X3(a));
    Assoc(X2(a), X3(a), a);
    Comm(X2(a), X3(a));
  }

  lemma StarCol(x: Col)
    ensures StarX(Word(x)) == Word(Col(Xtime(x.a), Xtime(x.b), Xtime(x.c), Xtime(x.d)))
  {
    StarBytes(x.a, x.b, x.c, x.d);
  }

  lemma RorCol(x: Col)
    ensures Ror8(Word(x)) == Word(Col(x.b, x.c, x.d, x.a))
    ensures Ror16(Word(x)) == Word(Col(x.c, x.d, x.a, x.b))
    ensures Ror24(Word(x)) == Word(Col(x.d, x.a, x.b, x.c))
  {
    RorPack(x.a, x.b, x.c, x.d);
  }

  lemma RowOfSums(a: bv8, b: bv8, c: bv8, d: bv8)
    ensures Plus(ME(a), Plus(Plus(MB(b), MD(c)), M9(d))) == InvRow(a, b, c, d)
  {
    hide Plus, InvRow, ME, MB, MD, M9;
    InvRowIs(a, b, c, d);
    Assoc(MB(b), MD(c), M9(d));
    Assoc(ME(a), MB(b), Plus(MD(c), M9(d)));
  }

  // The packed arithmetic of imix_col is InvMixColumns.
  lemma ImixIsInvMix(x: Col)
    ensures ImixCol(Word(x)) == Word(InvMix(x))
  {
    hide StarX, Word, Ror8, Ror16, Ror24, PlusW, InvRow, Xtime, Plus, ME, MB, MD;
    var u := Col(Xtime(x.a), Xtime(x.b), Xtime(x.c), Xtime(x.d));
    var v := Col(X2(x.a), X2(x.b), X2(x.c), X2(x.d));
    var w := Col(X3(x.a), X3(x.b), X3(x.c), X3(x.d));
    var t := Col(M9(x.a), M9(x.b), M9(x.c), M9(x.d));
    StarCol(x);
    StarCol(u);
    StarCol(v);
    WordPlus(w, x);
    assert PlusCol(w, x) == t;
    WordPlus(u, v);
    WordPlus(PlusCol(u, v), w);
    WordPlus(u, t);
    WordPlus(v, t);
    SumsOfDoublings(x.a);
    SumsOfDoublings(x.b);
    SumsOfDoublings(x.c);
    SumsOfDoublings(x.d);
    var e := Col(ME(x.a), ME(x.b), ME(x.c), ME(x.d));
    var b := Col(MB(x.a), MB(x.b), MB(x.c), MB(x.d));
    var d := Col(MD(x.a), MD(x.b), MD(x.c), MD(x.d));
    assert PlusCol(PlusCol(u, v), w) == e;
    assert PlusCol(u, t) == b && PlusCol(v, t) == d;
    RorCol(b);
    RorCol(d);
    RorCol(t);
    var b' := Col(b.b, b.c, b.d, b.a);
    var d' := Col(d.c, d.d, d.a, d.b);
    var t' := Col(t.d, t.a, t.b, t.c);
    WordPlus(b', d');
    WordPlus(PlusCol(b', d'), t');
    WordPlus(e, PlusCol(PlusCol(b', d'), t'));
    RowOfSums(x.a, x.b, x.c, x.d);
    RowOfSums(x.b, x.c, x.d, x.a);
    RowOfSums(x.c, x.d, x.a, x.b);
    RowOfSums(x.d, x.a, x.b, x.c);
  }
}
