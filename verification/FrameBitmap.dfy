/** The bits of the frame allocator's byte bitmap. A set bit is a frame in use. */
module FrameBitmap {

  function Mask(k: nat): bv8
    requires k < 8
  {
    match k
    case 0 => 0x01
    case 1 => 0x02
    case 2 => 0x04
    case 3 => 0x08
    case 4 => 0x10
    case 5 => 0x20
    case 6 => 0x40
    case 7 => 0x80
  }

  lemma SetBit(b: bv8, k: nat, j: nat)
    requires k < 8 && j < 8
    ensures (b | Mask(k)) & Mask(j) != 0 <==> j == k || b & Mask(j) != 0
  {
  }

  lemma ClearBit(b: bv8, k: nat, j: nat)
    requires k < 8 && j < 8
    ensures (b & !Mask(k)) & Mask(j) != 0 <==> j != k && b & Mask(j) != 0
  {
  }

  lemma FullByte(j: nat)
    requires j < 8
    ensures 0xFF & Mask(j) != 0
  {
  }

  predicate Used(bytes: seq<bv8>, i: nat)
    requires i < 8 * |bytes|
  {
    bytes[i / 8] & Mask(i % 8) != 0
  }

  method Mark(bitmap: array<bv8>, i: nat)
    requires i < 8 * bitmap.Length
    modifies bitmap
    ensures forall j: nat :: j < 8 * bitmap.Length ==> (Used(bitmap[..], j) <==> j == i || old(Used(bitmap[..], j)))
  {
    ghost var was := bitmap[..];
    bitmap[i / 8] := bitmap[i / 8] | Mask(i % 8);
    forall j: nat | j < 8 * bitmap.Length ensures Used(bitmap[..], j) <==> j == i || Used(was, j) {
      if j / 8 == i / 8 {
        SetBit(was[i / 8], i % 8, j % 8);
      }
    }
  }

  method Unmark(bitmap: array<bv8>, i: nat)
    requires i < 8 * bitmap.Length
    modifies bitmap
    ensures forall j: nat :: j < 8 * bitmap.Length ==> (Used(bitmap[..], j) <==> j != i && old(Used(bitmap[..], j)))
  {
    ghost var was := bitmap[..];
    bitmap[i / 8] := bitmap[i / 8] & !Mask(i % 8);
    forall j: nat | j < 8 * bitmap.Length ensures Used(bitmap[..], j) <==> j != i && Used(was, j) {
      if j / 8 == i / 8 {
        ClearBit(was[i / 8], i % 8, j % 8);
      }
    }
  }

  /** Mark `count` bits from `i`. */
  method MarkRun(bitmap: array<bv8>, i: nat, count: nat)
    requires i + count <= 8 * bitmap.Length
    modifies bitmap
    ensures forall j: nat :: j < 8 * bitmap.Length ==>
      (Used(bitmap[..], j) <==> i <= j < i + count || old(Used(bitmap[..], j)))
  {
    var n := 0;
    while n < count
      invariant 0 <= n <= count
      invariant forall j: nat :: j < 8 * bitmap.Length ==>
        (Used(bitmap[..], j) <==> i <= j < i + n || old(Used(bitmap[..], j)))
    {
      Mark(bitmap, i + n);
      n := n + 1;
    }
  }

  method UnmarkRun(bitmap: array<bv8>, i: nat, count: nat)
    requires i + count <= 8 * bitmap.Length
    modifies bitmap
    ensures forall j: nat :: j < 8 * bitmap.Length ==>
      (Used(bitmap[..], j) <==> !(i <= j < i + count) && old(Used(bitmap[..], j)))
  {
    var n := 0;
    while n < count
      invariant 0 <= n <= count
      invariant forall j: nat :: j < 8 * bitmap.Length ==>
        (Used(bitmap[..], j) <==> !(i <= j < i + n) && old(Used(bitmap[..], j)))
    {
      Unmark(bitmap, i + n);
      n := n + 1;
    }
  }

  /** `k_memset(…, 0xFF, …)`: everything starts out in use. */
  method MarkAll(bitmap: array<bv8>)
    modifies bitmap
    ensures forall j: nat :: j < 8 * bitmap.Length ==> Used(bitmap[..], j)
  {
    var n := 0;
    while n < bitmap.Length
      invariant 0 <= n <= bitmap.Length
      invariant forall b :: 0 <= b < n ==> bitmap[b] == 0xFF
    {
      bitmap[n] := 0xFF;
      n := n + 1;
    }
    forall j: nat | j < 8 * bitmap.Length ensures Used(bitmap[..], j) {
      FullByte(j % 8);
    }
  }
}
