// The bit tree packed eight nodes to a byte, node 0 in the highest bit of byte 0 (bitmap.cpp).
module Bitmap {
  import opened Powers
  import opened BuddyTree
  import opened BuddyBlocks

  function Mask(offset: nat): bv8
    requires offset < 8
  {
    (1 as bv8) << (7 - offset)
  }

  predicate Has(b: bv8, offset: nat)
    requires offset < 8
  {
    b & Mask(offset) != 0
  }

  predicate BitAt(s: seq<bv8>, i: nat)
    requires i < 8 * |s|
  {
    Has(s[i / 8], i % 8)
  }

  lemma MaskBits(b: bv8, i: nat, j: nat)
    requires i < 8 && j < 8
    ensures ((b | Mask(i)) & Mask(j) != 0) <==> i == j || b & Mask(j) != 0
    ensures ((b & !Mask(i)) & Mask(j) != 0) <==> i != j && b & Mask(j) != 0
  {
  }

  // Two bytes with the same eight bits are the same byte.
  lemma BitsDecideByte(a: bv8, b: bv8)
    requires forall j :: 0 <= j < 8 ==> (a & Mask(j) != 0 <==> b & Mask(j) != 0)
    ensures a == b
  {
    assert Mask(0) == 0x80 && Mask(1) == 0x40 && Mask(2) == 0x20 && Mask(3) == 0x10;
    assert Mask(4) == 0x08 && Mask(5) == 0x04 && Mask(6) == 0x02 && Mask(7) == 0x01;
    assert forall j :: 0 <= j < 8 ==> (a & Mask(j) != 0 <==> b & Mask(j) != 0);
  }

  method BitmapInit(bitmap: array<bv8>)
    requires bitmap.Length >= 1
    modifies bitmap
    ensures forall i: nat :: i < 8 * bitmap.Length ==> (BitAt(bitmap[..], i) <==> i == 0)
  {
    for i := 1 to bitmap.Length
      invariant forall m :: 1 <= m < i ==> bitmap[m] == 0
    {
      bitmap[i] := 0;
    }
    bitmap[0] := 0x80;
    assert forall j: nat :: j < 8 ==> ((0x80 as bv8) & Mask(j) != 0 <==> j == 0);
  }

  // The address formula: the sum of the rows above, plus the position in the row.
  method BitIndex(address: nat, entry: nat, n: nat, heapStart: nat) returns (bitIndex: nat)
    requires entry <= n && heapStart <= address
    ensures bitIndex == IndexOf(n, (address - heapStart) / 4096, entry)
  {
    var rowStart := 0;
    for i := 0 to n - entry
      invariant rowStart == Pow2(i) - 1
    {
      rowStart := rowStart + Pow2(i);
    }
    bitIndex := rowStart + Div((address - heapStart) / 4096, Pow2(entry));
  }

  method CheckBit(bitmap: array<bv8>, bitIndex: nat) returns (value: nat)
    requires bitIndex < 8 * bitmap.Length
    ensures value == if BitAt(bitmap[..], bitIndex) then 1 else 0
  {
    var byteIndex, offset := bitIndex / 8, bitIndex % 8;
    value := if bitmap[byteIndex] & Mask(offset) != 0 then 1 else 0;
  }

  function WithBit(b: bv8, offset: nat, value: nat): bv8
    requires offset < 8
  {
    if value == 1 then b | Mask(offset) else b & !Mask(offset)
  }

  function SetIn(s: seq<bv8>, i: nat, value: nat): (t: seq<bv8>)
    requires i < 8 * |s|
    ensures |t| == |s|
  {
    s[i / 8 := WithBit(s[i / 8], i % 8, value)]
  }

  lemma SetInBits(s: seq<bv8>, i: nat, value: nat)
    requires i < 8 * |s|
    ensures forall j: nat :: j < 8 * |s| ==>
            (BitAt(SetIn(s, i, value), j) <==> if j == i then value == 1 else BitAt(s, j))
  {
    hide *;
    forall j: nat | j < 8 * |s|
      ensures BitAt(SetIn(s, i, value), j) <==> if j == i then value == 1 else BitAt(s, j)
    {
      SetInBit(s, i, value, j);
    }
  }

  lemma SetInBit(s: seq<bv8>, i: nat, value: nat, j: nat)
    requires i < 8 * |s| && j < 8 * |s|
    ensures BitAt(SetIn(s, i, value), j) <==> if j == i then value == 1 else BitAt(s, j)
  {
    hide Has, WithBit;
    SplitIndex(i, j);
    if i / 8 == j / 8 {
      WithBitAt(s[i / 8], i % 8, value, j % 8);
    }
  }

  lemma WithBitAt(b: bv8, i: nat, value: nat, j: nat)
    requires i < 8 && j < 8
    ensures Has(WithBit(b, i, value), j) <==> if i == j then value == 1 else Has(b, j)
  {
    hide Mask;
    MaskBits(b, i, j);
  }

  // A node is its byte and its offset in it.
  lemma SplitIndex(i: nat, j: nat)
    ensures i == j <==> i / 8 == j / 8 && i % 8 == j % 8
  {
  }

  // t is s with bit x set (or cleared).
  ghost predicate BitChanged(s: seq<bv8>, t: seq<bv8>, x: nat, value: bool) {
    |s| == |t| && forall y: nat :: y < 8 * |s| ==> (BitAt(t, y) <==> if y == x then value else BitAt(s, y))
  }

  // Exactly the named node's bit changes.
  method SetBit(bitmap: array<bv8>, bitIndex: nat, value: nat)
    requires bitIndex < 8 * bitmap.Length
    modifies bitmap
    ensures BitChanged(old(bitmap[..]), bitmap[..], bitIndex, value == 1)
  {
    ghost var was := bitmap[..];
    var byteIndex, offset := bitIndex / 8, bitIndex % 8;
    bitmap[byteIndex] := WithBit(bitmap[byteIndex], offset, value);
    assert bitmap[..] == SetIn(was, bitIndex, value);
    SetInBits(was, bitIndex, value);
  }

  // On any node but the root, the other child of the same parent.
  method FindBuddyIndex(bitIndex: nat) returns (buddyIndex: int)
    ensures bitIndex > 0 ==> buddyIndex == Sibling(bitIndex)
    ensures bitIndex == 0 ==> buddyIndex == -1
  {
    if bitIndex % 2 > 0 {
      buddyIndex := bitIndex + 1;
    } else {
      buddyIndex := bitIndex - 1;
    }
  }
}
