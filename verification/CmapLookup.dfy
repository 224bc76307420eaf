/**
 The lookups the OpenType specification defines for the character map ('cmap' table, section "Format 4:
 Segment mapping to delta values" and section "Format 12: Segmented coverage"), told by the addresses of
 its arrays, and that what the reader collects is what they give a glyph.
 */
module CmapLookup {
  import opened BinaryData
  import opened Wrappers
  import opened Cmap
  import Canonical

  // ---- Numbers ----

  /** Numbers are stored with the highest byte first, negative ones as their complement. */
  lemma ReadsBigEndian(n: nat)
    requires n < 0x1_0000_0000
    ensures n < 0x1_0000 ==> U16(Canonical.BigEndian(n, 2), 0) == n && S16(Canonical.BigEndian(n, 2), 0) % 0x1_0000 == n
    ensures n < 0x1_0000 ==> (S16(Canonical.BigEndian(n, 2), 0) < 0 <==> n >= 0x8000)
    ensures U32(Canonical.BigEndian(n, 4), 0) == n
  {
    var b := Canonical.BigEndian(n, 4);
    BigEndianBytes(n);
    assert b[0] as nat == n / 0x100 / 0x100 / 0x100 % 0x100 && b[1] as nat == n / 0x100 / 0x100 % 0x100;
    if n < 0x1_0000 {
      var two := Canonical.BigEndian(n, 2);
      assert two[1] as nat == n % 0x100 && two[0] as nat == n / 0x100 % 0x100;
    }
  }

  lemma BigEndianBytes(n: nat)
    ensures Canonical.BigEndian(n, 4) ==
            [n / 0x100 / 0x100 / 0x100 % 0x100, n / 0x100 / 0x100 % 0x100, n / 0x100 % 0x100, n % 0x100]
    ensures Canonical.BigEndian(n, 2) == [n / 0x100 % 0x100, n % 0x100]
  {
    assert Canonical.BigEndian(n / 0x100 / 0x100 / 0x100, 1) == [n / 0x100 / 0x100 / 0x100 % 0x100];
    assert Canonical.BigEndian(n / 0x100 / 0x100, 2) == [n / 0x100 / 0x100 / 0x100 % 0x100, n / 0x100 / 0x100 % 0x100];
    assert Canonical.BigEndian(n / 0x100, 1) == [n / 0x100 % 0x100];
  }

  // ---- Format 4 ----

  function Count(cmap: Bytes, offset: nat): nat
    requires offset + 8 <= |cmap|
  {
    U16(cmap, offset + 6) / 2
  }

  /** The subtable lies in the table, and its four arrays can be read. */
  predicate Within4(cmap: Bytes, offset: nat) {
    && offset + 4 <= |cmap|
    && var length := U16(cmap, offset + 2);
    && 16 <= length && offset + length <= |cmap|
    && (Count(cmap, offset) > 0 ==> offset + 16 + 8 * Count(cmap, offset) <= |cmap|)
  }

  lemma ReadableExactly(cmap: Bytes, offset: nat)
    ensures Readable4(cmap, offset) <==> Within4(cmap, offset)
  {
  }

  function EndCode(cmap: Bytes, offset: nat, i: nat): nat
    requires Within4(cmap, offset) && i < Count(cmap, offset)
  {
    U16(cmap, offset + 14 + 2 * i)
  }

  /** After the end codes comes a padding word. */
  function StartCode(cmap: Bytes, offset: nat, i: nat): nat
    requires Within4(cmap, offset) && i < Count(cmap, offset)
  {
    U16(cmap, offset + 16 + 2 * Count(cmap, offset) + 2 * i)
  }

  /** A delta counts modulo 65536, so its sign does not matter. */
  function IdDelta(cmap: Bytes, offset: nat, i: nat): nat
    requires Within4(cmap, offset) && i < Count(cmap, offset)
  {
    U16(cmap, offset + 16 + 4 * Count(cmap, offset) + 2 * i)
  }

  function RangeOffsetAddress(cmap: Bytes, offset: nat, i: nat): nat
    requires Within4(cmap, offset) && i < Count(cmap, offset)
  {
    offset + 16 + 6 * Count(cmap, offset) + 2 * i
  }

  function IdRangeOffset(cmap: Bytes, offset: nat, i: nat): nat
    requires Within4(cmap, offset) && i < Count(cmap, offset)
  {
    U16(cmap, RangeOffsetAddress(cmap, offset, i))
  }

  /** A range offset counts from its own address. */
  function GlyphAddress(cmap: Bytes, offset: nat, i: nat, c: nat): int
    requires Within4(cmap, offset) && i < Count(cmap, offset)
  {
    RangeOffsetAddress(cmap, offset, i) + IdRangeOffset(cmap, offset, i) + 2 * (c - StartCode(cmap, offset, i))
  }

  /** The first segment whose end code is not below the code point, from segment `i` on. */
  function SegmentFor(cmap: Bytes, offset: nat, c: nat, i: nat): (r: nat)
    requires Within4(cmap, offset) && i <= Count(cmap, offset)
    ensures i <= r <= Count(cmap, offset)
    decreases Count(cmap, offset) - i
  {
    if i == Count(cmap, offset) || EndCode(cmap, offset, i) >= c then i else SegmentFor(cmap, offset, c, i + 1)
  }

  /** The glyph of a code point: zero, the missing glyph, unless its segment starts at or before it. */
  function Lookup4(cmap: Bytes, offset: nat, c: nat): nat
    requires Within4(cmap, offset)
  {
    var i := SegmentFor(cmap, offset, c, 0);
    if i == Count(cmap, offset) || StartCode(cmap, offset, i) > c then 0
    else if IdRangeOffset(cmap, offset, i) == 0 then (c + IdDelta(cmap, offset, i)) % 0x1_0000
    else if GlyphAddress(cmap, offset, i, c) + 2 > |cmap| then 0
    else
      var glyph := U16(cmap, GlyphAddress(cmap, offset, i, c));
      if glyph == 0 then 0 else (glyph + IdDelta(cmap, offset, i)) % 0x1_0000
  }

  /** Segments are sorted and disjoint. */
  ghost predicate Sorted4(cmap: Bytes, offset: nat)
    requires Within4(cmap, offset)
  {
    forall i: nat, j: nat :: i < j < Count(cmap, offset) ==> EndCode(cmap, offset, i) < StartCode(cmap, offset, j)
  }

  /** The reader's segment is the row of the four arrays. */
  lemma SegmentIsRow(cmap: Bytes, offset: nat, i: nat)
    requires Readable4(cmap, offset) && Within4(cmap, offset) && i < Count(cmap, offset)
    ensures SegmentCount(cmap, offset) == Count(cmap, offset)
    ensures var s := SegmentAt(cmap, offset, i);
            && s.start == StartCode(cmap, offset, i) && s.end == EndCode(cmap, offset, i)
            && (s.delta == IdDelta(cmap, offset, i) || s.delta == IdDelta(cmap, offset, i) - 0x1_0000)
            && s.rangeOffset == IdRangeOffset(cmap, offset, i) && s.position == RangeOffsetAddress(cmap, offset, i)
  {
  }

  lemma SameModulo(x: nat, signed: int, unsigned: nat)
    requires signed == unsigned || signed == unsigned - 0x1_0000
    ensures (x + signed) % 0x1_0000 == (x + unsigned) % 0x1_0000
  {
  }

  /** A code point is shown by a segment exactly if the segment's row of the arrays gives it a glyph. */
  lemma ShownByRow(cmap: Bytes, offset: nat, i: nat, c: nat)
    requires Readable4(cmap, offset) && Within4(cmap, offset) && i < Count(cmap, offset)
    ensures Shown(cmap, offset, i, c) <==>
              && StartCode(cmap, offset, i) <= c <= EndCode(cmap, offset, i)
              && (if IdRangeOffset(cmap, offset, i) == 0 then (c + IdDelta(cmap, offset, i)) % 0x1_0000 != 0
                  else && GlyphAddress(cmap, offset, i, c) + 2 <= |cmap|
                       && var glyph := U16(cmap, GlyphAddress(cmap, offset, i, c));
                          glyph != 0 && (glyph + IdDelta(cmap, offset, i)) % 0x1_0000 != 0)
  {
    hide U16;
    SegmentIsRow(cmap, offset, i);
    var s := SegmentAt(cmap, offset, i);
    SameModulo(c, s.delta, IdDelta(cmap, offset, i));
    if Covers(s, c) && s.rangeOffset != 0 && GlyphInside(s, c, |cmap|) {
      assert GlyphPosition(s, c) == GlyphAddress(cmap, offset, i, c);
      SameModulo(U16(cmap, GlyphPosition(s, c)), s.delta, IdDelta(cmap, offset, i));
    }
  }

  lemma {:induction false} SegmentForFindsTheCover(cmap: Bytes, offset: nat, c: nat, i: nat, k: nat)
    requires Within4(cmap, offset) && Sorted4(cmap, offset) && i <= k < Count(cmap, offset)
    requires StartCode(cmap, offset, k) <= c <= EndCode(cmap, offset, k)
    ensures SegmentFor(cmap, offset, c, i) == k
    decreases k - i
  {
    if i < k {
      SegmentForFindsTheCover(cmap, offset, c, i + 1, k);
    }
  }

  /** Over sorted disjoint segments, what is shown is what the lookup gives a glyph. */
  lemma ShownIsLookup4(cmap: Bytes, offset: nat, c: nat)
    requires Within4(cmap, offset) && Sorted4(cmap, offset)
    ensures Readable4(cmap, offset)
    ensures ShownBy(cmap, offset, SegmentCount(cmap, offset), c) <==> Lookup4(cmap, offset, c) != 0
  {
    ReadableExactly(cmap, offset);
    assert SegmentCount(cmap, offset) == Count(cmap, offset);
    if ShownBy(cmap, offset, SegmentCount(cmap, offset), c) {
      var k: nat :| k < SegmentCount(cmap, offset) && Shown(cmap, offset, k, c);
      ShownByRow(cmap, offset, k, c);
      SegmentForFindsTheCover(cmap, offset, c, 0, k);
    }
    var i := SegmentFor(cmap, offset, c, 0);
    if i < Count(cmap, offset) {
      ShownByRow(cmap, offset, i, c);
      SegmentForEnds(cmap, offset, c, 0);
      assert Lookup4(cmap, offset, c) != 0 ==> Shown(cmap, offset, i, c);
    }
  }

  lemma {:induction false} SegmentForEnds(cmap: Bytes, offset: nat, c: nat, i: nat)
    requires Within4(cmap, offset) && i <= Count(cmap, offset)
    ensures var r := SegmentFor(cmap, offset, c, i); r < Count(cmap, offset) ==> EndCode(cmap, offset, r) >= c
    decreases Count(cmap, offset) - i
  {
    if i < Count(cmap, offset) && EndCode(cmap, offset, i) < c {
      SegmentForEnds(cmap, offset, c, i + 1);
    }
  }

  /** The subtable is rejected for its glyph indices exactly if one that is looked up lies beyond its own end. */
  lemma GlyphsInsideExactly(cmap: Bytes, offset: nat)
    requires Within4(cmap, offset)
    ensures Readable4(cmap, offset)
    ensures GlyphsInside(cmap, offset, SegmentCount(cmap, offset)) <==>
              forall i: nat, c: nat {:trigger GlyphAddress(cmap, offset, i, c)} ::
                i < Count(cmap, offset) && c != 0xFFFF && StartCode(cmap, offset, i) <= c <= EndCode(cmap, offset, i)
                && IdRangeOffset(cmap, offset, i) != 0 ==>
                  GlyphAddress(cmap, offset, i, c) + 2 <= offset + U16(cmap, offset + 2)
  {
    ReadableExactly(cmap, offset);
    forall i: nat | i < Count(cmap, offset)
      ensures SegmentAt(cmap, offset, i).start == StartCode(cmap, offset, i)
      ensures SegmentAt(cmap, offset, i).end == EndCode(cmap, offset, i)
      ensures SegmentAt(cmap, offset, i).rangeOffset == IdRangeOffset(cmap, offset, i)
      ensures SegmentAt(cmap, offset, i).position == RangeOffsetAddress(cmap, offset, i)
    {
      SegmentIsRow(cmap, offset, i);
    }
    if forall i: nat, c: nat {:trigger GlyphAddress(cmap, offset, i, c)} ::
         i < Count(cmap, offset) && c != 0xFFFF && StartCode(cmap, offset, i) <= c <= EndCode(cmap, offset, i)
         && IdRangeOffset(cmap, offset, i) != 0 ==>
           GlyphAddress(cmap, offset, i, c) + 2 <= offset + U16(cmap, offset + 2) {
      forall i: nat, c: nat | i < SegmentCount(cmap, offset) && c != LAST_CODE && Covers(SegmentAt(cmap, offset, i), c)
        ensures GlyphInside(SegmentAt(cmap, offset, i), c, End4(cmap, offset))
      {
        assert GlyphAddress(cmap, offset, i, c) == GlyphPosition(SegmentAt(cmap, offset, i), c);
      }
    }
    if GlyphsInside(cmap, offset, SegmentCount(cmap, offset)) {
      forall i: nat, c: nat | i < Count(cmap, offset) && c != 0xFFFF
                              && StartCode(cmap, offset, i) <= c <= EndCode(cmap, offset, i) && IdRangeOffset(cmap, offset, i) != 0
        ensures GlyphAddress(cmap, offset, i, c) + 2 <= offset + U16(cmap, offset + 2)
      {
        assert Covers(SegmentAt(cmap, offset, i), c);
      }
    }
  }

  // ---- Formats 12 and 13 ----

  /** The subtable lies in the table, and its groups in the subtable. */
  predicate Within12(cmap: Bytes, offset: nat) {
    && offset + 8 <= |cmap|
    && var length := U32(cmap, offset + 4);
    && 16 <= length && offset + length <= |cmap|
    && 16 + 12 * U32(cmap, offset + 12) <= length
  }

  lemma Readable12Exactly(cmap: Bytes, offset: nat)
    ensures Readable12(cmap, offset) <==> Within12(cmap, offset)
  {
  }

  function StartChar(cmap: Bytes, offset: nat, i: nat): nat
    requires Within12(cmap, offset) && i < U32(cmap, offset + 12)
  {
    U32(cmap, offset + 16 + 12 * i)
  }

  function EndChar(cmap: Bytes, offset: nat, i: nat): nat
    requires Within12(cmap, offset) && i < U32(cmap, offset + 12)
  {
    U32(cmap, offset + 16 + 12 * i + 4)
  }

  function GlyphOf(cmap: Bytes, offset: nat, i: nat): nat
    requires Within12(cmap, offset) && i < U32(cmap, offset + 12)
  {
    U32(cmap, offset + 16 + 12 * i + 8)
  }

  /** The first group whose end is not below the code point, from group `i` on. */
  function GroupFor(cmap: Bytes, offset: nat, c: nat, i: nat): (r: nat)
    requires Within12(cmap, offset) && i <= U32(cmap, offset + 12)
    ensures i <= r <= U32(cmap, offset + 12)
    decreases U32(cmap, offset + 12) - i
  {
    if i == U32(cmap, offset + 12) || EndChar(cmap, offset, i) >= c then i else GroupFor(cmap, offset, c, i + 1)
  }

  /** Consecutive glyphs in format 12, one glyph for the whole group in format 13. */
  function Lookup12(cmap: Bytes, offset: nat, many: bool, c: nat): nat
    requires Within12(cmap, offset)
  {
    var i := GroupFor(cmap, offset, c, 0);
    if i == U32(cmap, offset + 12) || StartChar(cmap, offset, i) > c then 0
    else if many then GlyphOf(cmap, offset, i)
    else GlyphOf(cmap, offset, i) + (c - StartChar(cmap, offset, i))
  }

  ghost predicate Sorted12(cmap: Bytes, offset: nat)
    requires Within12(cmap, offset)
  {
    forall i: nat, j: nat :: i < j < U32(cmap, offset + 12) ==> EndChar(cmap, offset, i) < StartChar(cmap, offset, j)
  }

  lemma {:induction false} GroupForFindsTheCover(cmap: Bytes, offset: nat, c: nat, i: nat, k: nat)
    requires Within12(cmap, offset) && Sorted12(cmap, offset) && i <= k < U32(cmap, offset + 12)
    requires StartChar(cmap, offset, k) <= c <= EndChar(cmap, offset, k)
    ensures GroupFor(cmap, offset, c, i) == k
    decreases k - i
  {
    if i < k {
      GroupForFindsTheCover(cmap, offset, c, i + 1, k);
    }
  }

  lemma {:induction false} GroupForEnds(cmap: Bytes, offset: nat, c: nat, i: nat)
    requires Within12(cmap, offset) && i <= U32(cmap, offset + 12)
    ensures var r := GroupFor(cmap, offset, c, i); r < U32(cmap, offset + 12) ==> EndChar(cmap, offset, r) >= c
    decreases U32(cmap, offset + 12) - i
  {
    if i < U32(cmap, offset + 12) && EndChar(cmap, offset, i) < c {
      GroupForEnds(cmap, offset, c, i + 1);
    }
  }

  /** Over sorted disjoint groups, what is collected is what the lookup gives a glyph. */
  lemma CollectedIsLookup12(cmap: Bytes, offset: nat, many: bool, c: nat)
    requires Within12(cmap, offset) && Sorted12(cmap, offset)
    ensures Readable12(cmap, offset)
    ensures InGroups(cmap, offset, many, GroupCount(cmap, offset), c) <==> Lookup12(cmap, offset, many, c) != 0
  {
    Readable12Exactly(cmap, offset);
    if InGroups(cmap, offset, many, GroupCount(cmap, offset), c) {
      var k: nat :| k < GroupCount(cmap, offset) && InGroup(cmap, offset, many, k, c);
      GroupForFindsTheCover(cmap, offset, c, 0, k);
    }
    if Lookup12(cmap, offset, many, c) != 0 {
      GroupForEnds(cmap, offset, c, 0);
      assert InGroup(cmap, offset, many, GroupFor(cmap, offset, c, 0), c);
    }
  }

  // ---- The table ----

  /** Record `i` is there and carries the tag of the character map. */
  predicate Tagged(data: Bytes, i: nat) {
    28 + 16 * i <= |data| && data[12 + 16 * i..16 + 16 * i] == Ascii("cmap")
  }

  lemma TaggedFits(data: Bytes, i: nat)
    ensures Tagged(data, i) <==> RecordFits(data, i) && IsCmapRecord(data, i)
  {
    assert Ascii("cmap") == CMAP_TAG;
  }

  /** The table found is that of the first tagged record, cut short at the end of the file. */
  lemma {:induction false} FindsTheFirst(data: Bytes, count: nat, i: nat, k: nat)
    requires i <= k < count && Tagged(data, k) && forall j: nat :: i <= j < k ==> !Tagged(data, j)
    ensures 28 + 16 * k <= |data|
    ensures var from, length := U32(data, 20 + 16 * k), U32(data, 24 + 16 * k);
            FindCmap(data, count, i) == Some(data[Min(from, |data|)..Min(from + length, |data|)])
    decreases k - i
  {
    hide U32, U16;
    TaggedFits(data, i);
    if i < k {
      FindsTheFirst(data, count, i + 1, k);
    }
  }

  /** Without a tagged record, or when the file ends before it, there is none. */
  lemma {:induction false} FindsNone(data: Bytes, count: nat, i: nat)
    requires forall k: nat :: i <= k < count ==> !Tagged(data, k)
    ensures FindCmap(data, count, i).None?
    decreases if i < count then count - i else 0
  {
    TaggedFits(data, i);
    if i < count {
      FindsNone(data, count, i + 1);
    }
  }
}
