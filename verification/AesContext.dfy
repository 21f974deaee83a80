/**
 The cipher context: both key schedules filled in place, and blocks encrypted and
 decrypted with them.
 */
module AesContext {
  import opened AesField
  import opened AesWords
  import opened AesCipher
  import opened AesKeys

  // le32_to_cpu
  function WordAt(bytes: seq<bv8>, i: nat): bv32
    requires 4 * i + 4 <= |bytes|
  {
    Word(Col(bytes[4 * i], bytes[4 * i + 1], bytes[4 * i + 2], bytes[4 * i + 3]))
  }

  function KeyWords(bytes: seq<bv8>): (r: seq<bv32>)
    ensures |r| == |bytes| / 4
  {
    seq(|bytes| / 4, i requires 0 <= i < |bytes| / 4 => WordAt(bytes, i))
  }

  function Block(bytes: seq<bv8>): State
    requires |bytes| == 16
  {
    State(WordAt(bytes, 0), WordAt(bytes, 1), WordAt(bytes, 2), WordAt(bytes, 3))
  }

  // cpu_to_le32
  function WordBytes(w: bv32): (r: seq<bv8>)
    ensures |r| == 4
  {
    [Byte0(w), Byte1(w), Byte2(w), Byte3(w)]
  }

  function Bytes(b: State): (r: seq<bv8>)
    ensures |r| == 16
  {
    WordBytes(b.w0) + WordBytes(b.w1) + WordBytes(b.w2) + WordBytes(b.w3)
  }

  lemma WordAtBytes(w: bv32)
    ensures Word(Col(Byte0(w), Byte1(w), Byte2(w), Byte3(w))) == w
  {
    BytesPack(w);
  }

  lemma BlockOfBytes(b: State)
    ensures Block(Bytes(b)) == b
  {
    hide Word, Byte0, Byte1, Byte2, Byte3;
    WordAtBytes(b.w0);
    WordAtBytes(b.w1);
    WordAtBytes(b.w2);
    WordAtBytes(b.w3);
  }

  lemma BytesOfWord(bytes: seq<bv8>, i: nat)
    requires 4 * i + 4 <= |bytes|
    ensures WordBytes(WordAt(bytes, i)) == bytes[4 * i..4 * i + 4]
  {
    hide Word, Byte0, Byte1, Byte2, Byte3;
    ColBytes(Col(bytes[4 * i], bytes[4 * i + 1], bytes[4 * i + 2], bytes[4 * i + 3]));
  }

  lemma BytesOfBlock(bytes: seq<bv8>)
    requires |bytes| == 16
    ensures Bytes(Block(bytes)) == bytes
  {
    hide WordAt, WordBytes;
    BytesOfWord(bytes, 0);
    BytesOfWord(bytes, 1);
    BytesOfWord(bytes, 2);
    BytesOfWord(bytes, 3);
    assert bytes == bytes[0..4] + bytes[4..8] + bytes[8..12] + bytes[12..16];
  }

  // aes_encrypt and aes_decrypt on bytes, under a key of 16, 24 or 32 bytes
  function EncryptBytes(key: seq<bv8>, bytes: seq<bv8>): seq<bv8>
    requires KeySize(|key| / 4) && |bytes| == 16
  {
    Bytes(Encrypt(Schedule(KeyWords(key)), Block(bytes)))
  }

  function DecryptBytes(key: seq<bv8>, bytes: seq<bv8>): seq<bv8>
    requires KeySize(|key| / 4) && |bytes| == 16
  {
    ReversedAt(Schedule(KeyWords(key)), 0);
    Bytes(Decrypt(Reversed(Schedule(KeyWords(key))), Block(bytes)))
  }

  // Decryption undoes encryption, for every key and every block.
  lemma RoundTrip(key: seq<bv8>, bytes: seq<bv8>)
    requires (|key| == 16 || |key| == 24 || |key| == 32) && |bytes| == 16
    ensures |EncryptBytes(key, bytes)| == 16 && DecryptBytes(key, EncryptBytes(key, bytes)) == bytes
  {
    hide Bytes, Block, Schedule, Encrypt, Decrypt, Reversed;
    var ks := Schedule(KeyWords(key));
    var c := Encrypt(ks, Block(bytes));
    ReversedAt(ks, 0);
    DecryptsEncrypted(ks, Block(bytes));
    BlockOfBytes(c);
    BytesOfBlock(bytes);
  }

  class AesCtx {
    const keyEnc: array<bv32>
    const keyDec: array<bv32>
    var keyLength: nat

    constructor ()
      ensures fresh(keyEnc) && fresh(keyDec) && keyEnc.Length == MAX_WORDS && keyDec.Length == MAX_WORDS
              && keyEnc != keyDec
    {
      keyEnc, keyDec, keyLength := new bv32[MAX_WORDS], new bv32[MAX_WORDS], 0;
    }

    ghost predicate Valid()
      reads this
    {
      keyEnc.Length == MAX_WORDS && keyDec.Length == MAX_WORDS && keyEnc != keyDec
    }

    // The first n words are those of the expanded key.
    ghost predicate Matches(key: seq<bv32>, n: nat)
      reads keyEnc
    {
      KeySize(|key|) && n <= keyEnc.Length && forall j :: 0 <= j < n ==> keyEnc[j] == W(key, j)
    }

    // Both schedules are those of the key.
    ghost predicate Expanded(key: seq<bv32>)
      reads this, keyEnc, keyDec
    {
      && Valid() && KeySize(|key|) && keyLength == 4 * |key|
      && var last := 4 * NrRounds(|key|);
         && Matches(key, last + 4)
         && (forall c :: 0 <= c < 4 ==> keyDec[c] == W(key, last + c) && keyDec[last + c] == W(key, c))
         && (forall i :: 4 <= i < last ==> 4 <= Mirror(last, i) < last && keyDec[Mirror(last, i)] == ImixCol(W(key, i)))
    }

    // One word of the expansion, from what is to be added.
    method Put(ghost key: seq<bv32>, nk: nat, j: nat, temp: bv32) returns (t: bv32)
      requires Valid() && nk == |key| && Matches(key, j) && nk <= j < MAX_WORDS && temp == Temp(nk, j, W(key, j - 1))
      modifies keyEnc
      ensures Matches(key, j + 1) && t == W(key, j)
      ensures forall i :: 0 <= i < keyEnc.Length && i != j ==> keyEnc[i] == old(keyEnc[i])
    {
      hide Temp, PlusW;
      assert W(key, j) == PlusW(W(key, j - nk), temp);
      t := PlusW(keyEnc[j - nk], temp);
      keyEnc[j] := t;
    }

    // The first word of a group: j is nk * i + nk.
    method First(ghost key: seq<bv32>, nk: nat, i: nat, j: nat, t0: bv32) returns (t: bv32)
      requires Valid() && nk == |key| && Matches(key, j) && GroupStart(nk, i, j) && t0 == W(key, j - 1)
      modifies keyEnc
      ensures Matches(key, j + 1) && t == W(key, j)
    {
      hide LsBox, SubWord, RotWord, Ror8, PlusW, Word, PowX, W;
      LsBoxIs(t0);
      LsBoxIs(Ror8(t0));
      RcoIs(i);
      t := Put(key, nk, j, PlusW(LsBox(Ror8(t0)), RCO_TAB[i]));
    }

    // loop4 and loop8tophalf: a group word, then three more.
    method FourWords(ghost key: seq<bv32>, nk: nat, i: nat, j: nat, t0: bv32) returns (t: bv32)
      requires Valid() && nk == |key| && Matches(key, j) && GroupStart(nk, i, j) && j + 4 <= MAX_WORDS
               && t0 == W(key, j - 1)
      modifies keyEnc
      ensures Matches(key, j + 4) && t == W(key, j + 3)
    {
      hide PlusW, W, SubWord, RotWord, Word;
      t := First(key, nk, i, j, t0);
      Within(nk, j, 1);
      t := Put(key, nk, j + 1, t);
      Within(nk, j, 2);
      t := Put(key, nk, j + 2, t);
      Within(nk, j, 3);
      t := Put(key, nk, j + 3, t);
    }

    // loop6
    method SixWords(ghost key: seq<bv32>, i: nat, t0: bv32) returns (t: bv32)
      requires Valid() && |key| == 6 && Matches(key, 6 * i + 6) && i < 8 && t0 == W(key, 6 * i + 5)
      modifies keyEnc
      ensures Matches(key, 6 * i + 12) && t == W(key, 6 * i + 11)
    {
      hide PlusW, W, SubWord, RotWord, Word;
      var j := 6 * i + 6;
      t := FourWords(key, 6, i, j, t0);
      Within(6, j, 4);
      t := Put(key, 6, j + 4, t);
      Within(6, j, 5);
      t := Put(key, 6, j + 5, t);
    }

    // loop8
    method EightWords(ghost key: seq<bv32>, i: nat, t0: bv32) returns (t: bv32)
      requires Valid() && |key| == 8 && Matches(key, 8 * i + 8) && i < 6 && t0 == W(key, 8 * i + 7)
      modifies keyEnc
      ensures Matches(key, 8 * i + 16) && t == W(key, 8 * i + 15)
    {
      hide PlusW, W, SubWord, RotWord, Word, LsBox;
      var j := 8 * i + 8;
      t := FourWords(key, 8, i, j, t0);
      LsBoxIs(t);
      t := LowWords(key, j, LsBox(t));
    }

    // ... its second half
    method LowWords(ghost key: seq<bv32>, j: nat, t0: bv32) returns (t: bv32)
      requires Valid() && |key| == 8 && j % 8 == 0 && 8 <= j <= 48 && Matches(key, j + 4)
               && t0 == SubWord(W(key, j + 3))
      modifies keyEnc
      ensures Matches(key, j + 8) && t == W(key, j + 7)
    {
      hide PlusW, W, SubWord, RotWord, Word, LsBox;
      Within(8, j, 4);
      t := Put(key, 8, j + 4, t0);
      Within(8, j, 5);
      t := Put(key, 8, j + 5, t);
      Within(8, j, 6);
      t := Put(key, 8, j + 6, t);
      Within(8, j, 7);
      t := Put(key, 8, j + 7, t);
    }

    // The switch of crypto_aes_expand_key: the key itself, then the groups.
    method FillEnc(key: seq<bv32>)
      requires Valid() && KeySize(|key|)
      modifies keyEnc
      ensures Matches(key, 4 * NrRounds(|key|) + 4)
    {
      hide W;
      var nk := |key|;
      var t := Copy(key);
      var i := 0;
      if nk == 4 {
        while i < 10
          invariant i <= 10 && Matches(key, 4 * i + 4) && t == W(key, 4 * i + 3)
        {
          t := FourWords(key, 4, i, 4 * i + 4, t);
          i := i + 1;
        }
      } else if nk == 6 {
        while i < 8
          invariant i <= 8 && Matches(key, 6 * i + 6) && t == W(key, 6 * i + 5)
        {
          t := SixWords(key, i, t);
          i := i + 1;
        }
      } else {
        while i < 6
          invariant i <= 6 && Matches(key, 8 * i + 8) && t == W(key, 8 * i + 7)
        {
          t := EightWords(key, i, t);
          i := i + 1;
        }
        t := FourWords(key, 8, i, 8 * i + 8, t);
      }
    }

    method Copy(key: seq<bv32>) returns (t: bv32)
      requires Valid() && KeySize(|key|)
      modifies keyEnc
      ensures Matches(key, |key|) && t == W(key, |key| - 1)
    {
      var nk := |key|;
      var n := 0;
      while n < nk
        invariant n <= nk && forall j :: 0 <= j < n ==> keyEnc[j] == key[j]
      {
        keyEnc[n] := key[n];
        n := n + 1;
      }
      return keyEnc[nk - 1];
    }

    // The outer slots of the decryption keys ...
    method FillEnds(last: nat)
      requires Valid() && 4 <= last && last + 4 <= MAX_WORDS
      modifies keyDec
      ensures forall d :: 0 <= d < 4 ==> keyDec[d] == keyEnc[last + d] && keyDec[last + d] == keyEnc[d]
    {
      var c := 0;
      while c < 4
        invariant c <= 4
        invariant forall d :: 0 <= d < c ==> keyDec[d] == keyEnc[last + d] && keyDec[last + d] == keyEnc[d]
      {
        keyDec[c], keyDec[last + c] := keyEnc[last + c], keyEnc[c];
        c := c + 1;
      }
    }

    // ... and the inner ones, mirrored and through the inverse mix.
    method FillInner(last: nat)
      requires Valid() && 4 <= last && last + 4 <= MAX_WORDS && last % 4 == 0
      modifies keyDec
      ensures forall k :: 4 <= k < last ==> 4 <= Mirror(last, k) < last && keyDec[Mirror(last, k)] == ImixCol(keyEnc[k])
      ensures forall d :: 0 <= d < 4 || last <= d < last + 4 ==> keyDec[d] == old(keyDec[d])
    {
      hide ImixCol, Mirror;
      var i := 4;
      while i < last
        invariant 4 <= i <= last
        invariant forall k :: 4 <= k < i ==>
                    4 <= Mirror(last, k) < last && keyDec[Mirror(last, k)] == ImixCol(keyEnc[k])
        invariant forall d :: 0 <= d < 4 || last <= d < last + 4 ==> keyDec[d] == old(keyDec[d])
      {
        forall k | 4 <= k < i ensures Mirror(last, k) != Mirror(last, i) { MirrorDistinct(last, k, i); }
        MirrorInside(last, i);
        var j := Mirror(last, i);
        keyDec[j] := ImixCol(keyEnc[i]);
        i := i + 1;
      }
    }

    // crypto_aes_expand_key
    method ExpandKey(inKey: seq<bv8>, keyLen: nat) returns (ret: int)
      requires Valid() && |inKey| == keyLen
      modifies this, keyEnc, keyDec
      ensures Valid() && (ret == 0 <==> keyLen == 16 || keyLen == 24 || keyLen == 32)
      ensures ret != 0 ==> ret == -EINVAL && unchanged(this) && unchanged(keyEnc) && unchanged(keyDec)
      ensures ret == 0 ==> Expanded(KeyWords(inKey))
    {
      hide W, ImixCol, KeyWords, Mirror;
      if keyLen != 16 && keyLen != 24 && keyLen != 32 { return -EINVAL; }
      keyLength := keyLen;
      var key := KeyWords(inKey);
      FillEnc(key);
      FillEnds(keyLen + 24);
      FillInner(keyLen + 24);
      return 0;
    }

    // The slot of a round, at *kp and the three words after it.
    function EncSlot(r: nat): State
      requires 4 * r + 4 <= keyEnc.Length
      reads keyEnc
    {
      State(keyEnc[4 * r], keyEnc[4 * r + 1], keyEnc[4 * r + 2], keyEnc[4 * r + 3])
    }

    function DecSlot(r: nat): State
      requires 4 * r + 4 <= keyDec.Length
      reads keyDec
    {
      State(keyDec[4 * r], keyDec[4 * r + 1], keyDec[4 * r + 2], keyDec[4 * r + 3])
    }

    lemma EncSlots(key: seq<bv32>, r: nat)
      requires Expanded(key) && r <= NrRounds(|key|)
      ensures EncSlot(r) == Schedule(key)[r]
    {
      hide W;
    }

    // The slots mirrored from inside the schedule.
    lemma DecAt(key: seq<bv32>, r: nat, c: nat)
      requires Expanded(key) && 0 < r < NrRounds(|key|) && c < 4
      ensures 4 * r + c < keyDec.Length && keyDec[4 * r + c] == ImixCol(W(key, 4 * (NrRounds(|key|) - r) + c))
    {
      hide W, ImixCol, Mirror;
      var n := NrRounds(|key|);
      var i := 4 * (n - r) + c;
      MirrorAt(4 * n, n - r, c);
      assert 4 <= i < 4 * n;
      assert keyDec[Mirror(4 * n, i)] == ImixCol(W(key, i));
    }

    lemma DecInner(key: seq<bv32>, r: nat)
      requires Expanded(key) && 0 < r < NrRounds(|key|)
      ensures 4 * r + 4 <= keyDec.Length && KeySize(|key|) && DecSlot(r) == ImixState(Slot(key, NrRounds(|key|) - r))
    {
      hide Expanded, W, ImixCol;
      Sizes(key);
      DecAt(key, r, 0);
      DecAt(key, r, 1);
      DecAt(key, r, 2);
      DecAt(key, r, 3);
    }

    lemma DecOuter(key: seq<bv32>)
      requires Expanded(key)
      ensures DecSlot(0) == Slot(key, NrRounds(|key|)) && DecSlot(NrRounds(|key|)) == Slot(key, 0)
    {
      hide W, ImixCol, Mirror;
    }

    lemma DecSlots(key: seq<bv32>, r: nat)
      requires Expanded(key) && r <= NrRounds(|key|)
      ensures |Reversed(Schedule(key))| == NrRounds(|key|) + 1 && DecSlot(r) == Reversed(Schedule(key))[r]
    {
      hide Expanded, Slot, ImixState, Reversed, Schedule, DecSlot;
      var n := NrRounds(|key|);
      Sizes(key);
      ReversedAt(Schedule(key), r);
      ScheduleAt(key, n - r);
      if r == 0 || r == n { DecOuter(key); } else { DecInner(key, r); }
    }

    lemma Sizes(key: seq<bv32>)
      requires Expanded(key)
      ensures KeySize(|key|) && keyLength == 4 * |key| && keyEnc.Length == MAX_WORDS && keyDec.Length == MAX_WORDS
    {
    }

    // Two encryption rounds, from b0 to b1 and back.
    method TwoRounds(ghost key: seq<bv32>, r: nat, b: State) returns (b0: State)
      requires Expanded(key) && r + 2 <= NrRounds(|key|)
      ensures var ks, n := Schedule(key), NrRounds(|key|); FRounds(b0, ks[r + 2..n]) == FRounds(b, ks[r..n])
    {
      hide FRound, FRounds, Schedule, W, ImixCol;
      EncSlots(key, r);
      EncSlots(key, r + 1);
      var b1 := FRound(b, EncSlot(r));
      b0 := FRound(b1, EncSlot(r + 1));
      FRoundsNext(b, Schedule(key), r, NrRounds(|key|));
      FRoundsNext(b1, Schedule(key), r + 1, NrRounds(|key|));
    }

    // aes_encrypt, between the byte swaps
    method EncryptRounds(ghost key: seq<bv32>, b: State) returns (b0: State)
      requires KeySize(|key|) && Expanded(key)
      ensures b0 == Encrypt(Schedule(key), b)
    {
      hide Expanded, FRound, FRounds, FLast, Schedule, Xor, EncSlot;
      ghost var n := NrRounds(|key|);
      Sizes(key);
      EncSlots(key, 0);
      EncSlots(key, n - 1);
      EncSlots(key, n);
      b0 := Xor(b, EncSlot(0));
      var r := 1;
      if keyLength > 24 {
        b0 := TwoRounds(key, r, b0);
        r := r + 2;
      }
      if keyLength > 16 {
        b0 := TwoRounds(key, r, b0);
        r := r + 2;
      }
      b0 := TwoRounds(key, r, b0);
      b0 := TwoRounds(key, r + 2, b0);
      b0 := TwoRounds(key, r + 4, b0);
      b0 := TwoRounds(key, r + 6, b0);
      FRoundsNext(b0, Schedule(key), n - 1, n);
      var b1 := FRound(b0, EncSlot(r + 8));
      NoRounds(b1, Schedule(key)[n..n]);
      b0 := FLast(b1, EncSlot(r + 9));
    }

    // aes_encrypt
    method EncryptBlock(ghost key: seq<bv8>, input: seq<bv8>) returns (output: seq<bv8>)
      requires KeySize(|key| / 4) && Expanded(KeyWords(key)) && |input| == 16
      ensures output == EncryptBytes(key, input)
    {
      hide Expanded, Schedule, Block, Bytes, KeyWords, Encrypt;
      var b0 := EncryptRounds(KeyWords(key), Block(input));
      output := Bytes(b0);
    }

    method TwoInvRounds(ghost key: seq<bv32>, r: nat, b: State) returns (b0: State)
      requires Expanded(key) && r + 2 <= NrRounds(|key|)
      ensures var ks, n := Reversed(Schedule(key)), NrRounds(|key|);
              |ks| == n + 1 && IRounds(b0, ks[r + 2..n]) == IRounds(b, ks[r..n])
    {
      hide IRound, IRounds, Schedule, Reversed, W, ImixCol;
      DecSlots(key, r);
      DecSlots(key, r + 1);
      var b1 := IRound(b, DecSlot(r));
      b0 := IRound(b1, DecSlot(r + 1));
      IRoundsNext(b, Reversed(Schedule(key)), r, NrRounds(|key|));
      IRoundsNext(b1, Reversed(Schedule(key)), r + 1, NrRounds(|key|));
    }

    // aes_decrypt, between the byte swaps
    method DecryptRounds(ghost key: seq<bv32>, b: State) returns (b0: State)
      requires KeySize(|key|) && Expanded(key)
      ensures |Reversed(Schedule(key))| >= 2 && b0 == Decrypt(Reversed(Schedule(key)), b)
    {
      hide Expanded, IRound, IRounds, ILast, Schedule, Reversed, Xor, DecSlot;
      ghost var n := NrRounds(|key|);
      ghost var ks := Reversed(Schedule(key));
      Sizes(key);
      DecSlots(key, 0);
      DecSlots(key, n - 1);
      DecSlots(key, n);
      b0 := Xor(b, DecSlot(0));
      var r := 1;
      if keyLength > 24 {
        b0 := TwoInvRounds(key, r, b0);
        r := r + 2;
      }
      if keyLength > 16 {
        b0 := TwoInvRounds(key, r, b0);
        r := r + 2;
      }
      b0 := TwoInvRounds(key, r, b0);
      b0 := TwoInvRounds(key, r + 2, b0);
      b0 := TwoInvRounds(key, r + 4, b0);
      b0 := TwoInvRounds(key, r + 6, b0);
      IRoundsNext(b0, ks, n - 1, n);
      var b1 := IRound(b0, DecSlot(r + 8));
      NoRounds(b1, ks[n..n]);
      b0 := ILast(b1, DecSlot(r + 9));
    }

    // aes_decrypt
    method DecryptBlock(ghost key: seq<bv8>, input: seq<bv8>) returns (output: seq<bv8>)
      requires KeySize(|key| / 4) && Expanded(KeyWords(key)) && |input| == 16
      ensures output == DecryptBytes(key, input)
    {
      hide Expanded, Schedule, Reversed, Block, Bytes, KeyWords, Decrypt;
      var b0 := DecryptRounds(KeyWords(key), Block(input));
      output := Bytes(b0);
    }
  }

  lemma NoRounds(b: State, ks: seq<State>)
    requires ks == []
    ensures FRounds(b, ks) == b && IRounds(b, ks) == b
  {
  }

  lemma ScheduleAt(key: seq<bv32>, r: nat)
    requires KeySize(|key|) && r <= NrRounds(|key|)
    ensures Schedule(key)[r] == Slot(key, r)
  {
  }

  lemma MirrorAt(last: nat, q: nat, c: nat)
    requires c < 4 && 4 * q <= last
    ensures Mirror(last, 4 * q + c) == last - 4 * q + c
  {
  }

  lemma FRoundsNext(b: State, ks: seq<State>, r: nat, n: nat)
    requires r < n <= |ks|
    ensures FRounds(FRound(b, ks[r]), ks[r + 1..n]) == FRounds(b, ks[r..n])
  {
    hide FRound;
    assert ks[r..n][1..] == ks[r + 1..n];
  }

  lemma IRoundsNext(b: State, ks: seq<State>, r: nat, n: nat)
    requires r < n <= |ks|
    ensures IRounds(IRound(b, ks[r]), ks[r + 1..n]) == IRounds(b, ks[r..n])
  {
    hide IRound;
    assert ks[r..n][1..] == ks[r + 1..n];
  }

  // Where the word i of the encryption keys goes.
  function Mirror(last: nat, i: nat): int { last - i / 4 * 4 + i % 4 }

  lemma MirrorInside(last: nat, i: nat)
    requires last % 4 == 0 && 4 <= i < last
    ensures 4 <= Mirror(last, i) < last
  {
  }

  lemma MirrorDistinct(last: nat, i: nat, j: nat)
    requires i < j
    ensures Mirror(last, i) != Mirror(last, j)
  {
  }

  // j is the i-th group start after the key itself.
  ghost predicate GroupStart(nk: nat, i: nat, j: nat) {
    KeySize(nk) && i < 10 && j % nk == 0 && j / nk == i + 1 && nk <= j < MAX_WORDS
  }

  lemma Within(nk: nat, j: nat, c: nat)
    requires KeySize(nk) && 0 < c < nk && j % nk == 0
    ensures (j + c) % nk == c
  {
    if nk == 4 {
    } else if nk == 6 {
    } else {
    }
  }
}
