// Physical memory as an array of bytes, read and written in little-endian 64-bit words.
module Memory64 {

  type byte = b: int | 0 <= b < 256

  const TWO_TO_64 := 0x1_0000_0000_0000_0000

  // The k bytes from address a on, least significant first.
  function Le(s: seq<byte>, a: nat, k: nat): (v: nat)
    requires a + k <= |s|
    decreases k
  {
    if k == 0 then 0 else s[a] + 256 * Le(s, a + 1, k - 1)
  }

  function Word(s: seq<byte>, a: nat): nat
    requires a + 8 <= |s|
  {
    Le(s, a, 8)
  }

  // The unsigned 32-bit number at address a.
  function Half(s: seq<byte>, a: nat): nat
    requires a + 4 <= |s|
  {
    Le(s, a, 4)
  }

  // s and t differ at most in [lo, hi).
  ghost predicate SameOutside(s: seq<byte>, t: seq<byte>, lo: int, hi: int) {
    |s| == |t| && forall a :: 0 <= a < |s| && !(lo <= a < hi) ==> s[a] == t[a]
  }

  lemma {:induction false} LeKept(s: seq<byte>, t: seq<byte>, a: nat, k: nat)
    requires |s| == |t| && a + k <= |s|
    requires forall i :: a <= i < a + k ==> s[i] == t[i]
    ensures Le(s, a, k) == Le(t, a, k)
    decreases k
  {
    if k > 0 {
      LeKept(s, t, a + 1, k - 1);
    }
  }

  // A word that no changed byte belongs to keeps its value.
  lemma WordsKept(s: seq<byte>, t: seq<byte>, lo: int, hi: int)
    requires SameOutside(s, t, lo, hi)
    ensures forall a: nat {:trigger Word(t, a)} :: a + 8 <= |s| && (a + 8 <= lo || hi <= a) ==> Word(t, a) == Word(s, a)
  {
    forall a: nat | a + 8 <= |s| && (a + 8 <= lo || hi <= a)
      ensures Word(t, a) == Word(s, a)
    {
      LeKept(s, t, a, 8);
    }
  }

  method Load64(mem: array<byte>, a: nat) returns (v: nat)
    requires a + 8 <= mem.Length
    ensures v == Word(mem[..], a)
  {
    v := Word(mem[..], a);
  }

  method Store64(mem: array<byte>, a: nat, v: nat)
    requires a + 8 <= mem.Length && v < TWO_TO_64
    modifies mem
    ensures Word(mem[..], a) == v
    ensures SameOutside(old(mem[..]), mem[..], a, a + 8)
  {
    StoreBytes(mem, a, v, 8);
  }

  method Load32(mem: array<byte>, a: nat) returns (v: nat)
    requires a + 4 <= mem.Length
    ensures v == Half(mem[..], a)
  {
    v := Half(mem[..], a);
  }

  method Store32(mem: array<byte>, a: nat, v: nat)
    requires a + 4 <= mem.Length && v < 0x1_0000_0000
    modifies mem
    ensures Half(mem[..], a) == v
    ensures SameOutside(old(mem[..]), mem[..], a, a + 4)
  {
    StoreBytes(mem, a, v, 4);
  }

  function Pow256(k: nat): nat {
    if k == 0 then 1 else 256 * Pow256(k - 1)
  }

  method StoreBytes(mem: array<byte>, a: nat, v: nat, k: nat)
    requires a + k <= mem.Length && v < Pow256(k)
    modifies mem
    ensures Le(mem[..], a, k) == v
    ensures SameOutside(old(mem[..]), mem[..], a, a + k)
    decreases k
  {
    if k > 0 {
      mem[a] := v % 256;
      StoreBytes(mem, a + 1, v / 256, k - 1);
    }
  }
}
