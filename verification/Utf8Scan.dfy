/**
 * The quick check for UTF-8 that precedes the full validator.
 */
module Utf8Scan {

  type Byte = bv8

  predicate IsContinuation(b: Byte) {
    0x80 <= b <= 0xBF
  }

  /** A lead byte and as many continuation bytes as its value announces. */
  predicate IsBlock(b: seq<Byte>) {
    && 1 <= |b| <= 4
    && (match |b|
        case 1 => b[0] <= 0x7F
        case 2 => 0xC0 <= b[0] <= 0xDF
        case 3 => 0xE0 <= b[0] <= 0xEF
        case _ => 0xF0 <= b[0] <= 0xF7)
    && forall i :: 1 <= i < |b| ==> IsContinuation(b[i])
  }

  function Concat(blocks: seq<seq<Byte>>): seq<Byte> {
    if blocks == [] then [] else blocks[0] + Concat(blocks[1..])
  }

  predicate AllBlocks(blocks: seq<seq<Byte>>) {
    forall b <- blocks :: IsBlock(b)
  }

  ghost predicate SplitsIntoBlocks(data: seq<Byte>) {
    exists blocks :: AllBlocks(blocks) && Concat(blocks) == data
  }

  /** A block in front does not change whether the rest splits. */
  lemma BlockInFront(block: seq<Byte>, rest: seq<Byte>)
    requires IsBlock(block)
    ensures SplitsIntoBlocks(block + rest) <==> SplitsIntoBlocks(rest)
  {
    if SplitsIntoBlocks(rest) {
      var blocks :| AllBlocks(blocks) && Concat(blocks) == rest;
      assert ([block] + blocks)[1..] == blocks;
      assert AllBlocks([block] + blocks) && Concat([block] + blocks) == block + rest;
    }
    if SplitsIntoBlocks(block + rest) {
      var blocks :| AllBlocks(blocks) && Concat(blocks) == block + rest;
      FirstBlock(blocks, block, rest);
    }
  }

  /** The first block of a split is determined by its lead byte. */
  lemma FirstBlock(blocks: seq<seq<Byte>>, block: seq<Byte>, rest: seq<Byte>)
    requires AllBlocks(blocks) && IsBlock(block) && Concat(blocks) == block + rest
    ensures SplitsIntoBlocks(rest)
  {
    var data := block + rest;
    assert blocks != [];
    var first := blocks[0];
    assert first in blocks;
    assert first[0] == data[0] == block[0];
    assert |first| == |block|;
    assert rest == data[|block|..] == Concat(blocks[1..]);
    assert AllBlocks(blocks[1..]);
  }

  /** With no block in front, nothing splits. */
  lemma NoBlockInFront(data: seq<Byte>)
    requires data != [] && forall n :: 1 <= n <= |data| ==> !IsBlock(data[..n])
    ensures !SplitsIntoBlocks(data)
  {
    forall blocks | AllBlocks(blocks) ensures Concat(blocks) != data {
      if blocks != [] {
        var first := blocks[0];
        assert first in blocks;
        assert Concat(blocks)[..|first|] == first;
      }
    }
  }

  lemma MasksAreRanges(b: Byte)
    ensures b & 0x80 == 0x00 <==> b <= 0x7F
    ensures b & 0xE0 == 0xC0 <==> 0xC0 <= b <= 0xDF
    ensures b & 0xF0 == 0xE0 <==> 0xE0 <= b <= 0xEF
    ensures b & 0xF8 == 0xF0 <==> 0xF0 <= b <= 0xF7
    ensures b & 0xC0 == 0x80 <==> IsContinuation(b)
  {
  }

  predicate Tail(b: Byte) {
    b & 0xC0 == 0x80
  }

  /** The scan's test for a block of `n` bytes in front. */
  predicate Fits(rest: seq<Byte>, n: nat)
    requires rest != []
  {
    match n
    case 1 => rest[0] & 0x80 == 0x00
    case 2 => rest[0] & 0xE0 == 0xC0 && |rest| >= 2 && Tail(rest[1])
    case 3 => rest[0] & 0xF0 == 0xE0 && |rest| >= 3 && Tail(rest[1]) && Tail(rest[2])
    case 4 => rest[0] & 0xF8 == 0xF0 && |rest| >= 4 && Tail(rest[1]) && Tail(rest[2]) && Tail(rest[3])
    case _ => false
  }

  lemma FitsIsBlock(rest: seq<Byte>, n: nat)
    requires rest != []
    ensures Fits(rest, n) <==> n <= |rest| && IsBlock(rest[..n])
  {
    MasksAreRanges(rest[0]);
    if |rest| >= 2 { MasksAreRanges(rest[1]); }
    if |rest| >= 3 { MasksAreRanges(rest[2]); }
    if |rest| >= 4 { MasksAreRanges(rest[3]); }
  }

  lemma BlockConsumed(rest: seq<Byte>, n: nat)
    requires rest != [] && Fits(rest, n)
    ensures n <= |rest| && (SplitsIntoBlocks(rest) <==> SplitsIntoBlocks(rest[n..]))
  {
    FitsIsBlock(rest, n);
    BlockInFront(rest[..n], rest[n..]);
    assert rest == rest[..n] + rest[n..];
  }

  lemma NothingFits(rest: seq<Byte>)
    requires rest != [] && !Fits(rest, 1) && !Fits(rest, 2) && !Fits(rest, 3) && !Fits(rest, 4)
    ensures !SplitsIntoBlocks(rest)
  {
    forall n: nat | 1 <= n <= |rest| ensures !IsBlock(rest[..n]) {
      FitsIsBlock(rest, n);
    }
    NoBlockInFront(rest);
  }

  /** Main result: the scan accepts exactly the byte strings that split into blocks. */
  method Scan(data: seq<Byte>) returns (ok: bool)
    ensures ok <==> SplitsIntoBlocks(data)
  {
    var i := 0;
    assert data[0..] == data;
    while i < |data|
      invariant 0 <= i <= |data|
      invariant SplitsIntoBlocks(data) <==> SplitsIntoBlocks(data[i..])
    {
      hide SplitsIntoBlocks;
      ghost var rest := data[i..];
      MasksAreRanges(data[i]);
      var n := 0;
      if data[i] & 0x80 == 0x00 {
        n := 1;
      } else if data[i] & 0xE0 == 0xC0 {
        if i + 1 >= |data| || data[i + 1] & 0xC0 != 0x80 {
          NothingFits(rest);
          return false;
        }
        n := 2;
      } else if data[i] & 0xF0 == 0xE0 {
        if i + 2 >= |data| || data[i + 1] & 0xC0 != 0x80 || data[i + 2] & 0xC0 != 0x80 {
          NothingFits(rest);
          return false;
        }
        n := 3;
      } else if data[i] & 0xF8 == 0xF0 {
        if i + 3 >= |data| || data[i + 1] & 0xC0 != 0x80 || data[i + 2] & 0xC0 != 0x80 || data[i + 3] & 0xC0 != 0x80 {
          NothingFits(rest);
          return false;
        }
        n := 4;
      } else {
        NothingFits(rest);
        return false;
      }
      BlockConsumed(rest, n);
      assert rest[n..] == data[i + n..];
      i := i + n;
    }
    assert data[i..] == [];
    assert AllBlocks([]) && Concat([]) == [];
    ok := true;
  }

  // ----- against RFC 3629 -----

  predicate In(b: Byte, low: Byte, high: Byte) {
    low <= b <= high
  }

  /** UTF8-char, section 4 of RFC 3629. */
  predicate IsUtf8Char(c: seq<Byte>) {
    match |c|
    case 1 => In(c[0], 0x00, 0x7F)
    case 2 => In(c[0], 0xC2, 0xDF) && IsContinuation(c[1])
    case 3 =>
      && ((c[0] == 0xE0 && In(c[1], 0xA0, 0xBF)) || (In(c[0], 0xE1, 0xEC) && IsContinuation(c[1]))
          || (c[0] == 0xED && In(c[1], 0x80, 0x9F)) || (In(c[0], 0xEE, 0xEF) && IsContinuation(c[1])))
      && IsContinuation(c[2])
    case 4 =>
      && ((c[0] == 0xF0 && In(c[1], 0x90, 0xBF)) || (In(c[0], 0xF1, 0xF3) && IsContinuation(c[1]))
          || (c[0] == 0xF4 && In(c[1], 0x80, 0x8F)))
      && IsContinuation(c[2]) && IsContinuation(c[3])
    case _ => false
  }

  /** UTF8-octets: a sequence of characters. */
  ghost predicate IsUtf8(data: seq<Byte>) {
    exists chars :: Concat(chars) == data && forall c <- chars :: IsUtf8Char(c)
  }

  /** Main result: every well-formed string gets past the scan. */
  lemma WellFormedSplits(data: seq<Byte>)
    requires IsUtf8(data)
    ensures SplitsIntoBlocks(data)
  {
    var chars :| Concat(chars) == data && forall c <- chars :: IsUtf8Char(c);
    forall c <- chars ensures IsBlock(c) {
      CharIsBlock(c);
    }
    assert AllBlocks(chars);
  }

  lemma CharIsBlock(c: seq<Byte>)
    requires IsUtf8Char(c)
    ensures IsBlock(c)
  {
  }

  /** The converse fails: an overlong encoding of NUL gets past the scan, but is not well formed. */
  lemma OverlongPassesScan()
    ensures SplitsIntoBlocks([0xC0, 0x80]) && !IsUtf8([0xC0, 0x80])
  {
    var data: seq<Byte> := [0xC0, 0x80];
    assert [data][1..] == [] && Concat([data]) == data + Concat([]);
    assert AllBlocks([data]) && Concat([data]) == data;
    forall chars | forall c <- chars :: IsUtf8Char(c) ensures Concat(chars) != data {
      if chars != [] {
        assert chars[0] in chars;
        assert Concat(chars)[0] == chars[0][0];
      }
    }
  }

  /** Main result: `checkValidUTF8` answers exactly as the full validator does, provided that the
      validator accepts well-formed strings only. */
  method CheckValidUTF8(data: seq<Byte>, isValidUtf8: seq<Byte> -> bool) returns (ok: bool)
    requires isValidUtf8(data) ==> IsUtf8(data)
    ensures ok == isValidUtf8(data)
  {
    var passed := Scan(data);
    if !passed {
      if isValidUtf8(data) { WellFormedSplits(data); }
      return false;
    }
    ok := isValidUtf8(data);
  }
}
