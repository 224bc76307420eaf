/**
 The code points a font can show, read from its character map (OpenType 'cmap' table). `None` is a
 rejection: an explicit check that fails or a read outside the data.
 */
module Cmap {
  import opened BinaryData
  import opened Wrappers

  const LAST_CODE := 0xFFFF

  /** A big-endian unsigned read; the caller shows that it is in bounds. */
  function U16(data: Bytes, at: nat): (v: nat)
    requires at + 2 <= |data|
    ensures v < 0x1_0000
  {
    (data[at] as nat) * 0x100 + data[at + 1] as nat
  }

  function S16(data: Bytes, at: nat): (v: int)
    requires at + 2 <= |data|
    ensures -0x8000 <= v < 0x8000
  {
    var u := U16(data, at);
    if u < 0x8000 then u else u - 0x1_0000
  }

  function U32(data: Bytes, at: nat): (v: nat)
    requires at + 4 <= |data|
    ensures v < 0x1_0000_0000
  {
    U16(data, at) * 0x1_0000 + U16(data, at + 2)
  }

  // ---- Format 4: segment mapping to delta values ----

  predicate Header4(cmap: Bytes, offset: nat) {
    && offset + 4 <= |cmap|
    && 16 <= U16(cmap, offset + 2)
    && End4(cmap, offset) <= |cmap|
  }

  function End4(cmap: Bytes, offset: nat): nat
    requires offset + 4 <= |cmap|
  {
    offset + U16(cmap, offset + 2)
  }

  function SegmentCount(cmap: Bytes, offset: nat): nat
    requires Header4(cmap, offset)
  {
    U16(cmap, offset + 6) / 2
  }

  /** Where the last of the four parallel arrays starts. */
  function RangeOffsets(cmap: Bytes, offset: nat): nat
    requires Header4(cmap, offset)
  {
    offset + 14 + 6 * SegmentCount(cmap, offset) + 2
  }

  /** The entries of the first `n` segments can be read. */
  predicate Fits(cmap: Bytes, offset: nat, n: nat) {
    && Header4(cmap, offset)
    && n <= SegmentCount(cmap, offset)
    && (n > 0 ==> RangeOffsets(cmap, offset) + 2 * n <= |cmap|)
  }

  /** A format 4 subtable whose header and arrays can be read. */
  predicate Readable4(cmap: Bytes, offset: nat) {
    Header4(cmap, offset) && Fits(cmap, offset, SegmentCount(cmap, offset))
  }

  /** One segment; `position` is where its range offset is stored. */
  datatype Segment = Segment(start: nat, end: nat, delta: int, rangeOffset: nat, position: nat)

  function SegmentAt(cmap: Bytes, offset: nat, i: nat): Segment
    requires Fits(cmap, offset, i + 1)
  {
    var n := SegmentCount(cmap, offset);
    Segment(
      U16(cmap, offset + 14 + 2 * n + 2 + 2 * i),
      U16(cmap, offset + 14 + 2 * i),
      S16(cmap, offset + 14 + 4 * n + 2 + 2 * i),
      U16(cmap, RangeOffsets(cmap, offset) + 2 * i),
      RangeOffsets(cmap, offset) + 2 * i)
  }

  predicate Covers(s: Segment, c: nat) {
    s.start <= c <= s.end
  }

  function GlyphPosition(s: Segment, c: nat): nat
    requires Covers(s, c)
  {
    s.position + s.rangeOffset + 2 * (c - s.start)
  }

  /** The glyph index array entry of a covered code point lies inside the subtable. */
  predicate GlyphInside(s: Segment, c: nat, end: nat)
    requires Covers(s, c)
  {
    s.rangeOffset == 0 || GlyphPosition(s, c) + 2 <= end
  }

  /** The glyph a segment gives; all delta arithmetic is modulo 65536. */
  function SegmentGlyph(cmap: Bytes, s: Segment, c: nat): nat
    requires Covers(s, c) && GlyphInside(s, c, |cmap|)
  {
    if s.rangeOffset == 0 then (c + s.delta) % 0x1_0000
    else
      var glyph := U16(cmap, GlyphPosition(s, c));
      if glyph == 0 then 0 else (glyph + s.delta) % 0x1_0000
  }

  /** Every glyph index that will be read lies inside the subtable. */
  ghost predicate GlyphsInside(cmap: Bytes, offset: nat, n: nat)
    requires Fits(cmap, offset, n)
  {
    forall i: nat, c: nat {:trigger Covers(SegmentAt(cmap, offset, i), c)} ::
      i < n && c != LAST_CODE && Covers(SegmentAt(cmap, offset, i), c) ==>
        GlyphInside(SegmentAt(cmap, offset, i), c, End4(cmap, offset))
  }

  ghost predicate Shown(cmap: Bytes, offset: nat, i: nat, c: nat)
    requires Fits(cmap, offset, i + 1)
  {
    && Covers(SegmentAt(cmap, offset, i), c)
    && GlyphInside(SegmentAt(cmap, offset, i), c, |cmap|)
    && SegmentGlyph(cmap, SegmentAt(cmap, offset, i), c) != 0
  }

  /** Some of the first `n` segments gives the code point a glyph. */
  ghost predicate ShownBy(cmap: Bytes, offset: nat, n: nat, c: nat)
    requires Fits(cmap, offset, n)
  {
    exists i: nat :: i < n && Shown(cmap, offset, i, c)
  }

  /** One segment's code points added to the result, or a rejection. */
  method ReadSegment(cmap: Bytes, offset: nat, index: nat, before: set<nat>) returns (result: Option<set<nat>>)
    requires Fits(cmap, offset, index + 1)
    ensures result.Some? <==>
              forall c: nat :: c != LAST_CODE && Covers(SegmentAt(cmap, offset, index), c) ==>
                GlyphInside(SegmentAt(cmap, offset, index), c, End4(cmap, offset))
    ensures result.Some? ==>
              forall c: nat :: c in result.value <==> c in before || (c != LAST_CODE && Shown(cmap, offset, index, c))
  {
    var n := SegmentCount(cmap, offset);
    var start := U16(cmap, offset + 14 + 2 * n + 2 + 2 * index);
    var stop := U16(cmap, offset + 14 + 2 * index);
    var delta := S16(cmap, offset + 14 + 4 * n + 2 + 2 * index);
    var rangeOffsetPosition := RangeOffsets(cmap, offset) + 2 * index;
    var rangeOffset := U16(cmap, rangeOffsetPosition);
    ghost var s := SegmentAt(cmap, offset, index);
    var found: set<nat> := before;
    var codePoint := start;
    while codePoint <= stop
      invariant start <= codePoint
      invariant forall c: nat :: start <= c < codePoint && c <= stop && c != LAST_CODE ==> GlyphInside(s, c, End4(cmap, offset))
      invariant forall c: nat :: c in found <==> c in before || (c < codePoint && c != LAST_CODE && Shown(cmap, offset, index, c))
      decreases stop as int + 1 - codePoint as int
    {
      if codePoint != LAST_CODE {
        var glyph;
        if rangeOffset == 0 {
          glyph := (codePoint + delta) % 0x1_0000;
        } else {
          var glyphPosition := rangeOffsetPosition + rangeOffset + 2 * (codePoint - start);
          if glyphPosition + 2 > End4(cmap, offset) {
            assert Covers(s, codePoint) && !GlyphInside(s, codePoint, End4(cmap, offset));
            return None;
          }
          glyph := U16(cmap, glyphPosition);
          if glyph != 0 {
            glyph := (glyph + delta) % 0x1_0000;
          }
        }
        assert Shown(cmap, offset, index, codePoint) <==> glyph != 0;
        if glyph != 0 {
          found := found + {codePoint};
        }
      }
      codePoint := codePoint + 1;
    }
    result := Some(found);
  }

  /** Accepts exactly the subtables all of whose reads are in bounds, and returns exactly what a segment shows. */
  method ReadFormat4(cmap: Bytes, offset: nat) returns (result: Option<set<nat>>)
    ensures result.Some? <==>
              Readable4(cmap, offset) && GlyphsInside(cmap, offset, SegmentCount(cmap, offset))
    ensures result.Some? ==>
              forall c: nat :: c in result.value <==> c != LAST_CODE && ShownBy(cmap, offset, SegmentCount(cmap, offset), c)
  {
    if offset + 4 > |cmap| {
      return None;
    }
    var length := U16(cmap, offset + 2);
    var end := offset + length;
    if end > |cmap| || length < 16 {
      return None;
    }
    var segmentCount := U16(cmap, offset + 6) / 2;
    var found: set<nat> := {};
    for index := 0 to segmentCount
      invariant Fits(cmap, offset, index)
      invariant GlyphsInside(cmap, offset, index)
      invariant forall c: nat :: c in found <==> c != LAST_CODE && ShownBy(cmap, offset, index, c)
    {
      if RangeOffsets(cmap, offset) + 2 * index + 2 > |cmap| {
        return None;
      }
      var more := ReadSegment(cmap, offset, index, found);
      if more.None? {
        return None;
      }
      found := more.value;
      OneMoreSegment(cmap, offset, index);
    }
    result := Some(found);
  }

  lemma OneMoreSegment(cmap: Bytes, offset: nat, n: nat)
    requires Fits(cmap, offset, n + 1)
    ensures forall c: nat :: ShownBy(cmap, offset, n + 1, c) <==> ShownBy(cmap, offset, n, c) || Shown(cmap, offset, n, c)
  {
    forall c: nat
      ensures ShownBy(cmap, offset, n + 1, c) <==> ShownBy(cmap, offset, n, c) || Shown(cmap, offset, n, c)
    {
      if Shown(cmap, offset, n, c) {
        assert ShownBy(cmap, offset, n + 1, c);
      }
      if ShownBy(cmap, offset, n, c) {
        var i: nat :| i < n && Shown(cmap, offset, i, c);
        assert Shown(cmap, offset, i, c) && i < n + 1;
      }
    }
  }

  // ---- Formats 12 and 13: segmented coverage and many-to-one ranges ----

  predicate Header12(cmap: Bytes, offset: nat) {
    && offset + 8 <= |cmap|
    && 16 <= U32(cmap, offset + 4)
    && offset + U32(cmap, offset + 4) <= |cmap|
  }

  function GroupCount(cmap: Bytes, offset: nat): nat
    requires Header12(cmap, offset)
  {
    U32(cmap, offset + 12)
  }

  /** The first `n` groups lie inside the subtable. */
  predicate GroupsFit(cmap: Bytes, offset: nat, n: nat) {
    && Header12(cmap, offset)
    && n <= GroupCount(cmap, offset)
    && 16 + 12 * n <= U32(cmap, offset + 4)
  }

  predicate Readable12(cmap: Bytes, offset: nat) {
    Header12(cmap, offset) && GroupsFit(cmap, offset, GroupCount(cmap, offset))
  }

  datatype Group = Group(start: nat, end: nat, glyph: nat)

  function GroupAt(cmap: Bytes, offset: nat, i: nat): Group
    requires GroupsFit(cmap, offset, i + 1)
  {
    Group(U32(cmap, offset + 16 + 12 * i), U32(cmap, offset + 20 + 12 * i), U32(cmap, offset + 24 + 12 * i))
  }

  /** Format 13 gives the whole group one glyph, format 12 consecutive ones. */
  function GroupGlyph(g: Group, many: bool, c: nat): nat
    requires g.start <= c <= g.end
  {
    if many then g.glyph else g.glyph + c - g.start
  }

  ghost predicate InGroup(cmap: Bytes, offset: nat, many: bool, i: nat, c: nat)
    requires GroupsFit(cmap, offset, i + 1)
  {
    var g := GroupAt(cmap, offset, i);
    g.start <= c <= g.end && GroupGlyph(g, many, c) != 0
  }

  ghost predicate InGroups(cmap: Bytes, offset: nat, many: bool, n: nat, c: nat)
    requires GroupsFit(cmap, offset, n)
  {
    exists i: nat :: i < n && InGroup(cmap, offset, many, i, c)
  }

  method ReadGroup(cmap: Bytes, offset: nat, many: bool, index: nat, before: set<nat>) returns (found: set<nat>)
    requires GroupsFit(cmap, offset, index + 1)
    ensures forall c: nat :: c in found <==> c in before || InGroup(cmap, offset, many, index, c)
  {
    var position := offset + 16 + 12 * index;
    var start, stop, glyph := U32(cmap, position), U32(cmap, position + 4), U32(cmap, position + 8);
    found := before;
    var codePoint := start;
    while codePoint <= stop
      invariant start <= codePoint && (start <= stop ==> codePoint <= stop + 1)
      invariant forall c: nat :: c in found <==> c in before || (c < codePoint && InGroup(cmap, offset, many, index, c))
      decreases stop as int + 1 - codePoint as int
    {
      var glyphId := if many then glyph else glyph + codePoint - start;
      assert InGroup(cmap, offset, many, index, codePoint) <==> glyphId != 0;
      if glyphId != 0 {
        found := found + {codePoint};
      }
      codePoint := codePoint + 1;
    }
  }

  method ReadFormat12(cmap: Bytes, offset: nat, many: bool) returns (result: Option<set<nat>>)
    ensures result.Some? <==> Readable12(cmap, offset)
    ensures result.Some? ==>
              forall c: nat :: c in result.value <==> InGroups(cmap, offset, many, GroupCount(cmap, offset), c)
  {
    if offset + 8 > |cmap| {
      return None;
    }
    var length := U32(cmap, offset + 4);
    var end := offset + length;
    if end > |cmap| || length < 16 {
      return None;
    }
    var groupCount := GroupCount(cmap, offset);
    var found: set<nat> := {};
    for index := 0 to groupCount
      invariant GroupsFit(cmap, offset, index)
      invariant forall c: nat :: c in found <==> InGroups(cmap, offset, many, index, c)
    {
      var position := offset + 16 + 12 * index;
      if position + 12 > end {
        return None;
      }
      found := ReadGroup(cmap, offset, many, index, found);
      OneMoreGroup(cmap, offset, many, index);
    }
    result := Some(found);
  }

  lemma OneMoreGroup(cmap: Bytes, offset: nat, many: bool, n: nat)
    requires GroupsFit(cmap, offset, n + 1)
    ensures forall c: nat :: InGroups(cmap, offset, many, n + 1, c) <==> InGroups(cmap, offset, many, n, c) || InGroup(cmap, offset, many, n, c)
  {
    forall c: nat
      ensures InGroups(cmap, offset, many, n + 1, c) <==> InGroups(cmap, offset, many, n, c) || InGroup(cmap, offset, many, n, c)
    {
      if InGroup(cmap, offset, many, n, c) {
        assert InGroups(cmap, offset, many, n + 1, c);
      }
      if InGroups(cmap, offset, many, n, c) {
        var i: nat :| i < n && InGroup(cmap, offset, many, i, c);
        assert InGroup(cmap, offset, many, i, c) && i < n + 1;
      }
    }
  }

  // ---- The whole font ----

  const CMAP_TAG: Bytes := [0x63, 0x6D, 0x61, 0x70]

  predicate RecordFits(data: Bytes, i: nat) {
    12 + 16 * i + 16 <= |data|
  }

  predicate IsCmapRecord(data: Bytes, i: nat)
    requires RecordFits(data, i)
  {
    data[12 + 16 * i..16 + 16 * i] == CMAP_TAG
  }

  function Min(a: nat, b: nat): nat {
    if a < b then a else b
  }

  /** The bytes a table record points at; a slice beyond the file is cut short. */
  function TableBytes(data: Bytes, i: nat): Bytes
    requires RecordFits(data, i)
  {
    var from, length := U32(data, 20 + 16 * i), U32(data, 24 + 16 * i);
    data[Min(from, |data|)..Min(from + length, |data|)]
  }

  /** The first record tagged 'cmap', provided every record up to it can be read. */
  function FindCmap(data: Bytes, count: nat, i: nat): Option<Bytes>
    decreases if i < count then count - i else 0
  {
    if i >= count || !RecordFits(data, i) then None
    else if IsCmapRecord(data, i) then Some(TableBytes(data, i))
    else FindCmap(data, count, i + 1)
  }

  method LocateCmap(data: Bytes) returns (cmap: Option<Bytes>)
    requires |data| >= 12
    ensures cmap == FindCmap(data, U16(data, 4), 0)
  {
    var count := U16(data, 4);
    for i := 0 to count
      invariant FindCmap(data, count, 0) == FindCmap(data, count, i)
    {
      if 12 + 16 * i + 16 > |data| {
        return None;
      }
      if data[12 + 16 * i..16 + 16 * i] == CMAP_TAG {
        return Some(TableBytes(data, i));
      }
    }
    cmap := None;
  }

  /** The offset in subtable record `i`. */
  function SubtableOffset(cmap: Bytes, i: nat): nat
    requires 4 + 8 * i + 8 <= |cmap|
  {
    U32(cmap, 8 + 8 * i)
  }

  ghost predicate SubtableOk(cmap: Bytes, offset: nat) {
    && offset + 2 <= |cmap|
    && (U16(cmap, offset) == 4 ==> Readable4(cmap, offset) && GlyphsInside(cmap, offset, SegmentCount(cmap, offset)))
    && (U16(cmap, offset) == 12 || U16(cmap, offset) == 13 ==> Readable12(cmap, offset))
  }

  /** A subtable in one of the supported formats shows the code point. */
  ghost predicate SubtableShows(cmap: Bytes, offset: nat, c: nat)
    requires SubtableOk(cmap, offset)
  {
    if U16(cmap, offset) == 4 then c != LAST_CODE && ShownBy(cmap, offset, SegmentCount(cmap, offset), c)
    else if U16(cmap, offset) == 12 || U16(cmap, offset) == 13
    then InGroups(cmap, offset, U16(cmap, offset) == 13, GroupCount(cmap, offset), c)
    else false
  }

  method ReadSubtable(cmap: Bytes, offset: nat) returns (result: Option<set<nat>>)
    ensures result.Some? <==> SubtableOk(cmap, offset)
    ensures result.Some? ==> forall c: nat :: c in result.value <==> SubtableShows(cmap, offset, c)
  {
    if offset + 2 > |cmap| {
      return None;
    }
    var format := U16(cmap, offset);
    if format == 4 {
      result := ReadFormat4(cmap, offset);
    } else if format == 12 || format == 13 {
      result := ReadFormat12(cmap, offset, format == 13);
    } else {
      result := Some({});
    }
  }

  /** Every subtable can be read, and some code point is shown. */
  ghost predicate FontOk(cmap: Bytes) {
    && |cmap| >= 4
    && 4 + 8 * U16(cmap, 2) <= |cmap|
    && (forall i: nat :: i < U16(cmap, 2) ==> SubtableOk(cmap, SubtableOffset(cmap, i)))
    && (exists c: nat :: FontShows(cmap, c))
  }

  ghost predicate FontShows(cmap: Bytes, c: nat)
    requires |cmap| >= 4 && 4 + 8 * U16(cmap, 2) <= |cmap|
    requires forall i: nat :: i < U16(cmap, 2) ==> SubtableOk(cmap, SubtableOffset(cmap, i))
  {
    exists i: nat :: i < U16(cmap, 2) && SubtableShows(cmap, SubtableOffset(cmap, i), c)
  }

  /** The union over the distinct subtable offsets; an empty union is rejected like a broken table. */
  method FontCodePoints(data: Bytes) returns (result: Option<set<nat>>)
    ensures result.Some? <==>
              && |data| >= 12 && FindCmap(data, U16(data, 4), 0).Some?
              && FontOk(FindCmap(data, U16(data, 4), 0).value)
    ensures result.Some? ==> forall c: nat :: c in result.value <==> FontShows(FindCmap(data, U16(data, 4), 0).value, c)
  {
    hide SubtableOk, SubtableShows, FindCmap;
    if |data| < 12 {
      return None;
    }
    var located := LocateCmap(data);
    if located.None? || |located.value| < 4 {
      return None;
    }
    var cmap := located.value;
    var count := U16(cmap, 2);
    var offsets: set<nat> := {};
    for i := 0 to count
      invariant i > 0 ==> 4 + 8 * i <= |cmap|
      invariant forall o :: o in offsets <==> exists k: nat :: k < i && o == SubtableOffset(cmap, k)
    {
      if 4 + 8 * i + 8 > |cmap| {
        return None;
      }
      offsets := offsets + {SubtableOffset(cmap, i)};
    }
    var codePoints := ReadSubtables(cmap, offsets);
    if FontOk(cmap) {
      forall o: nat | o in offsets ensures SubtableOk(cmap, o) {
        var k: nat :| k < count && o == SubtableOffset(cmap, k);
      }
      var c: nat :| FontShows(cmap, c);
      var k: nat :| k < count && SubtableShows(cmap, SubtableOffset(cmap, k), c);
      assert SubtableOffset(cmap, k) in offsets;
      assert c in codePoints.value;
    }
    if codePoints.None? || codePoints.value == {} {
      return None;
    }
    var c: nat :| c in codePoints.value;
    assert FontShows(cmap, c);
    result := codePoints;
  }

  method ReadSubtables(cmap: Bytes, offsets: set<nat>) returns (result: Option<set<nat>>)
    ensures result.Some? <==> forall o: nat :: o in offsets ==> SubtableOk(cmap, o)
    ensures result.Some? ==>
              forall c: nat :: c in result.value <==> exists o: nat :: o in offsets && SubtableShows(cmap, o, c)
  {
    var found: set<nat> := {};
    var pending := offsets;
    while pending != {}
      invariant pending <= offsets
      invariant forall o: nat :: o in offsets && o !in pending ==> SubtableOk(cmap, o)
      invariant forall c: nat :: c in found <==> exists o: nat :: o in offsets && o !in pending && SubtableShows(cmap, o, c)
      decreases |pending|
    {
      var offset :| offset in pending;
      var more := ReadSubtable(cmap, offset);
      if more.None? {
        return None;
      }
      found := found + more.value;
      pending := pending - {offset};
    }
    result := Some(found);
  }
}
