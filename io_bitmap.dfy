/**
 * The layout of the VMX I/O bitmaps (Intel SDM Vol. 3C, section 24.6.4):
 * bitmap A holds one bit for each port 0x0000-0x7FFF, bitmap B one bit for
 * each port 0x8000-0xFFFF; a set bit makes an access to that port exit.
 * Each bitmap is one 4 KiB page; the bit of port `p` is bit `p % 8` of byte
 * `(p % 0x8000) / 8` of its bitmap.
 */
module IoBitmap {
  /** A 16-bit I/O port address. */
  newtype Port = p: int | 0 <= p < 0x1_0000

  const BITMAP_SIZE: nat := 4096

  /** The single-bit masks of a byte, bit 0 first. */
  function Mask(b: nat): bv8
    requires b < 8
  {
    [0x01, 0x02, 0x04, 0x08, 0x10, 0x20, 0x40, 0x80][b]
  }

  predicate BitOf(x: bv8, b: nat)
    requires b < 8
  {
    x & Mask(b) != 0
  }

  /** Setting bit `b` of a byte sets that bit and leaves the seven others as they were. */
  lemma SetBitEffect(x: bv8, b: nat, c: nat)
    requires b < 8 && c < 8
    ensures BitOf(x | Mask(b), c) == (c == b || BitOf(x, c))
  {
  }

  /** Clearing bit `b` of a byte clears that bit and leaves the seven others as they were. */
  lemma ClearBitEffect(x: bv8, b: nat, c: nat)
    requires b < 8 && c < 8
    ensures BitOf(x & !Mask(b), c) == (c != b && BitOf(x, c))
  {
  }

  /** A byte of all ones has every bit set; a zero byte has none. */
  lemma FullAndEmptyBytes(b: nat)
    requires b < 8
    ensures BitOf(0xFF, b) && !BitOf(0, b)
  {
  }

  /** Whether port `p` lies in bitmap B. */
  predicate InB(p: Port) { p >= 0x8000 }

  function ByteOf(p: Port): (i: nat)
    ensures i < BITMAP_SIZE
  {
    (p as int % 0x8000) / 8
  }

  function BitIndexOf(p: Port): (b: nat)
    ensures b < 8
  {
    p as int % 8
  }

  /** Two ports in the same bitmap and the same byte are the same port exactly when they use the same bit. */
  lemma SameByteSameBit(p: Port, q: Port)
    requires InB(p) == InB(q) && ByteOf(p) == ByteOf(q)
    ensures (BitIndexOf(p) == BitIndexOf(q)) == (p == q)
  {
  }

  /** Whether an access to port `p` exits, given the contents of bitmaps A and B. */
  predicate Trapped(a: seq<bv8>, b: seq<bv8>, p: Port)
    requires |a| == BITMAP_SIZE && |b| == BITMAP_SIZE
  {
    BitOf(if InB(p) then b[ByteOf(p)] else a[ByteOf(p)], BitIndexOf(p))
  }

  /** The bitmaps after the bit of port `p` is set (`trap`) or cleared. */
  function SetPort(a: seq<bv8>, b: seq<bv8>, p: Port, trap: bool): (r: (seq<bv8>, seq<bv8>))
    requires |a| == BITMAP_SIZE && |b| == BITMAP_SIZE
    ensures |r.0| == BITMAP_SIZE && |r.1| == BITMAP_SIZE
  {
    var i, m := ByteOf(p), Mask(BitIndexOf(p));
    if InB(p) then
      (a, b[i := if trap then b[i] | m else b[i] & !m])
    else
      (a[i := if trap then a[i] | m else a[i] & !m], b)
  }

  /** The byte of port `q` after port `p`'s bit is set or cleared. */
  lemma SetPortByte(a: seq<bv8>, b: seq<bv8>, p: Port, trap: bool, q: Port)
    requires |a| == BITMAP_SIZE && |b| == BITMAP_SIZE
    ensures var r := SetPort(a, b, p, trap);
      var x := if InB(q) then b[ByteOf(q)] else a[ByteOf(q)];
      var m := Mask(BitIndexOf(p));
      (if InB(q) then r.1[ByteOf(q)] else r.0[ByteOf(q)])
        == if InB(q) == InB(p) && ByteOf(q) == ByteOf(p) then (if trap then x | m else x & !m) else x
  {
  }

  /** Setting or clearing bit `b` of a byte, seen from bit `c`. */
  lemma UpdateBit(x: bv8, b: nat, c: nat, trap: bool)
    requires b < 8 && c < 8
    ensures BitOf(if trap then x | Mask(b) else x & !Mask(b), c) == if c == b then trap else BitOf(x, c)
  {
    if trap {
      SetBitEffect(x, b, c);
    } else {
      ClearBitEffect(x, b, c);
    }
  }

  /** A port sharing `p`'s byte: only `p`'s own bit changes. */
  lemma SetPortSameByte(a: seq<bv8>, b: seq<bv8>, p: Port, trap: bool, q: Port)
    requires |a| == BITMAP_SIZE && |b| == BITMAP_SIZE
    requires InB(q) == InB(p) && ByteOf(q) == ByteOf(p)
    ensures var r := SetPort(a, b, p, trap);
      Trapped(r.0, r.1, q) == if q == p then trap else Trapped(a, b, q)
  {
    SetPortByte(a, b, p, trap, q);
    var x := if InB(q) then b[ByteOf(q)] else a[ByteOf(q)];
    SameByteSameBit(p, q);
    UpdateBit(x, BitIndexOf(p), BitIndexOf(q), trap);
  }

  /** Setting or clearing port `p`'s bit decides `p`, and leaves port `q` alone when it is another port. */
  lemma SetPortAt(a: seq<bv8>, b: seq<bv8>, p: Port, trap: bool, q: Port)
    requires |a| == BITMAP_SIZE && |b| == BITMAP_SIZE
    ensures var r := SetPort(a, b, p, trap);
      Trapped(r.0, r.1, q) == if q == p then trap else Trapped(a, b, q)
  {
    if InB(q) == InB(p) && ByteOf(q) == ByteOf(p) {
      SetPortSameByte(a, b, p, trap, q);
    } else {
      SetPortByte(a, b, p, trap, q);
    }
  }

  /** The same for every port at once. */
  lemma SetPortEffect(a: seq<bv8>, b: seq<bv8>, p: Port, trap: bool)
    requires |a| == BITMAP_SIZE && |b| == BITMAP_SIZE
    ensures var r := SetPort(a, b, p, trap);
      forall q: Port :: Trapped(r.0, r.1, q) == if q == p then trap else Trapped(a, b, q)
  {
    forall q: Port
      ensures var r := SetPort(a, b, p, trap);
        Trapped(r.0, r.1, q) == if q == p then trap else Trapped(a, b, q)
    {
      SetPortAt(a, b, p, trap, q);
    }
  }

  /** Bitmaps filled with one byte value: 0xFF traps every port, 0 passes every port through. */
  lemma FilledBitmaps(a: seq<bv8>, b: seq<bv8>, fill: bv8)
    requires |a| == BITMAP_SIZE && |b| == BITMAP_SIZE
    requires fill == 0xFF || fill == 0
    requires forall i :: 0 <= i < BITMAP_SIZE ==> a[i] == fill && b[i] == fill
    ensures forall q: Port :: Trapped(a, b, q) == (fill == 0xFF)
  {
    forall q: Port
      ensures Trapped(a, b, q) == (fill == 0xFF)
    {
      FullAndEmptyBytes(BitIndexOf(q));
    }
  }
}
