/**
 The byte strings that are hashed into fingerprints and revisions. Each has a decoder that undoes it,
 so two different inputs never share a byte string.
 */
module Canonical {
  import opened BinaryData
  import opened Wrappers
  import Friendship

  // ---- Numbers ----

  function Pow256(width: nat): (p: nat)
    ensures p > 0
  {
    if width == 0 then 1 else 256 * Pow256(width - 1)
  }

  function BigEndian(n: nat, width: nat): (b: Bytes)
    ensures |b| == width
  {
    if width == 0 then [] else BigEndian(n / 256, width - 1) + [n % 256]
  }

  function BigEndianValue(b: Bytes): nat {
    if |b| == 0 then 0 else 256 * BigEndianValue(b[..|b| - 1]) + b[|b| - 1] as nat
  }

  lemma {:induction false} BigEndianRoundTrip(n: nat, width: nat)
    requires n < Pow256(width)
    ensures BigEndianValue(BigEndian(n, width)) == n
  {
    if width > 0 {
      BigEndianRoundTrip(n / 256, width - 1);
      assert BigEndian(n, width)[..width - 1] == BigEndian(n / 256, width - 1);
    }
  }

  /** The decimal text of a number. */
  function Decimal(n: nat): (b: Bytes)
    ensures |b| > 0
  {
    if n < 10 then [48 + n] else Decimal(n / 10) + [48 + n % 10]
  }

  function DecimalValue(b: Bytes): int {
    if |b| == 0 then 0 else 10 * DecimalValue(b[..|b| - 1]) + b[|b| - 1] as int - 48
  }

  lemma {:induction false} DecimalRoundTrip(n: nat)
    ensures DecimalValue(Decimal(n)) == n
  {
    if n < 10 {
      assert Decimal(n)[..0] == [];
    } else {
      DecimalRoundTrip(n / 10);
      assert Decimal(n)[..|Decimal(n)| - 1] == Decimal(n / 10);
    }
  }

  function Pow10(width: nat): (p: nat)
    ensures p > 0
  {
    if width == 0 then 1 else 10 * Pow10(width - 1)
  }

  /** The decimal text of a number, padded with zeros. */
  function Digits(n: nat, width: nat): (b: Bytes)
    ensures |b| == width
  {
    if width == 0 then [] else Digits(n / 10, width - 1) + [48 + n % 10]
  }

  lemma {:induction false} DigitsRoundTrip(n: nat, width: nat)
    requires n < Pow10(width)
    ensures DecimalValue(Digits(n, width)) == n
  {
    if width > 0 {
      DigitsRoundTrip(n / 10, width - 1);
      assert Digits(n, width)[..width - 1] == Digits(n / 10, width - 1);
    }
  }

  // ---- Times ----

  datatype Instant = Instant(year: nat, month: nat, day: nat, hour: nat, minute: nat, second: nat, micro: nat)
  {
    predicate OnTheClock() {
      1 <= year < 10000 && 1 <= month <= 12 && 1 <= day <= 31 && hour < 24 && minute < 60 && second < 60 && micro < 1000000
    }
  }

  /** A moment in universal time. */
  type Moment = t: Instant | t.OnTheClock() witness Instant(1970, 1, 1, 0, 0, 0, 0)

  function DateText(t: Moment): (b: Bytes)
    ensures |b| == 10
  {
    Digits(t.year, 4) + Ascii("-") + Digits(t.month, 2) + Ascii("-") + Digits(t.day, 2)
  }

  function ClockText(t: Moment): (b: Bytes)
    ensures |b| == 15
  {
    Digits(t.hour, 2) + Ascii(":") + Digits(t.minute, 2) + Ascii(":") + Digits(t.second, 2) + Ascii(".") + Digits(t.micro, 6)
  }

  /** The two forms of a time differ in how they write the zone only. */
  function MomentText(t: Moment, zone: string): Bytes {
    DateText(t) + Ascii("T") + ClockText(t) + Ascii(zone)
  }

  function ReadMoment(b: Bytes): Option<Moment> {
    if |b| < 26 then None
    else
      var year, month, day := DecimalValue(b[..4]), DecimalValue(b[5..7]), DecimalValue(b[8..10]);
      var hour, minute, second := DecimalValue(b[11..13]), DecimalValue(b[14..16]), DecimalValue(b[17..19]);
      var micro := DecimalValue(b[20..26]);
      if year < 0 || month < 0 || day < 0 || hour < 0 || minute < 0 || second < 0 || micro < 0 then None
      else
        var t := Instant(year, month, day, hour, minute, second, micro);
        if t.OnTheClock() then Some(t) else None
  }

  lemma MomentRoundTrip(t: Moment, zone: string)
    ensures ReadMoment(MomentText(t, zone)) == Some(t)
  {
    hide DecimalValue, Digits;
    MomentSlices(t, zone);
    MomentDigits(t);
  }

  lemma MomentDigits(t: Moment)
    ensures DecimalValue(Digits(t.year, 4)) == t.year && DecimalValue(Digits(t.month, 2)) == t.month
    ensures DecimalValue(Digits(t.day, 2)) == t.day && DecimalValue(Digits(t.hour, 2)) == t.hour
    ensures DecimalValue(Digits(t.minute, 2)) == t.minute && DecimalValue(Digits(t.second, 2)) == t.second
    ensures DecimalValue(Digits(t.micro, 6)) == t.micro
  {
    hide DecimalValue, Digits;
    assert Pow10(2) == 100 && Pow10(4) == 10000 && Pow10(6) == 1000000;
    DigitsRoundTrip(t.year, 4);
    DigitsRoundTrip(t.month, 2);
    DigitsRoundTrip(t.day, 2);
    DigitsRoundTrip(t.hour, 2);
    DigitsRoundTrip(t.minute, 2);
    DigitsRoundTrip(t.second, 2);
    DigitsRoundTrip(t.micro, 6);
  }

  lemma MomentSlices(t: Moment, zone: string)
    ensures var b := MomentText(t, zone);
            && |b| >= 26
            && b[..4] == Digits(t.year, 4) && b[5..7] == Digits(t.month, 2) && b[8..10] == Digits(t.day, 2)
            && b[11..13] == Digits(t.hour, 2) && b[14..16] == Digits(t.minute, 2) && b[17..19] == Digits(t.second, 2)
            && b[20..26] == Digits(t.micro, 6)
  {
    hide Digits;
    var d, c, b := DateText(t), ClockText(t), MomentText(t, zone);
    assert b[..10] == d && b[11..26] == c;
    assert b[..4] == d[..4] && b[5..7] == d[5..7] && b[8..10] == d[8..10];
    assert b[11..13] == c[..2] && b[14..16] == c[3..5] && b[17..19] == c[6..8] && b[20..26] == c[9..15];
  }

  // ---- Length-prefixed parts ----

  /** Every part is short enough for its prefix; a longer one overflows and raises. */
  predicate Fits(parts: seq<Bytes>, width: nat) {
    forall i :: 0 <= i < |parts| ==> |parts[i]| < Pow256(width)
  }

  function Framed(parts: seq<Bytes>, width: nat): Bytes {
    if |parts| == 0 then [] else BigEndian(|parts[0]|, width) + parts[0] + Framed(parts[1..], width)
  }

  /** The decoder: None unless the bytes are exactly a sequence of prefixed parts. */
  function Unframed(b: Bytes, width: nat): Option<seq<Bytes>>
    requires width > 0
    decreases |b|
  {
    if |b| == 0 then Some([])
    else if |b| < width then None
    else
      var n := BigEndianValue(b[..width]);
      if |b| < width + n then None
      else
        var rest := Unframed(b[width + n..], width);
        if rest.None? then None else Some([b[width..width + n]] + rest.value)
  }

  lemma {:induction false} FramingRoundTrip(parts: seq<Bytes>, width: nat)
    requires width > 0 && Fits(parts, width)
    ensures Unframed(Framed(parts, width), width) == Some(parts)
  {
    if |parts| > 0 {
      var head, rest := BigEndian(|parts[0]|, width), Framed(parts[1..], width);
      BigEndianRoundTrip(|parts[0]|, width);
      FramingRoundTrip(parts[1..], width);
      var b := Framed(parts, width);
      assert b[..width] == head;
      assert b[width..width + |parts[0]|] == parts[0];
      assert b[width + |parts[0]|..] == rest;
      assert [parts[0]] + parts[1..] == parts;
    }
  }

  // ---- The forms ----

  type Uuid = b: Bytes | |b| == 36 witness seq(36, i => 0)

  function Flag(value: bool, yes: string, no: string): Bytes {
    Ascii(if value then yes else no)
  }

  /** The identity of a delivery request. */
  datatype DeliveryRequest = DeliveryRequest(
    slot: nat, identity: Uuid, channel: Uuid, recipient: Uuid, message: Bytes, receiptRequested: bool)

  function DeliveryParts(r: DeliveryRequest): seq<Bytes> {
    [Ascii("kind"), Ascii("linked-recipient-delivery-request"),
     Ascii("version"), Ascii("v1"),
     Ascii("owner-principal-slot"), Decimal(r.slot),
     Ascii("owner-identity-public-id"), r.identity,
     Ascii("channel-public-id"), r.channel,
     Ascii("recipient-public-id"), r.recipient,
     Ascii("message-fingerprint"), r.message,
     Ascii("receipt-requested"), Flag(r.receiptRequested, "true", "false")]
  }

  function DeliveryForm(r: DeliveryRequest): Option<Bytes> {
    if Fits(DeliveryParts(r), 4) then Some(Framed(DeliveryParts(r), 4)) else None
  }

  function ReadDelivery(b: Bytes): Option<DeliveryRequest> {
    var parts := Unframed(b, 4);
    if || parts.None? || |parts.value| != 16 || DecimalValue(parts.value[5]) < 0
       || |parts.value[7]| != 36 || |parts.value[9]| != 36 || |parts.value[11]| != 36
    then None
    else
      var p := parts.value;
      Some(DeliveryRequest(DecimalValue(p[5]), p[7], p[9], p[11], p[13], p[15] == Ascii("true")))
  }

  lemma DeliveryRoundTrip(r: DeliveryRequest)
    requires DeliveryForm(r).Some?
    ensures ReadDelivery(DeliveryForm(r).value) == Some(r)
  {
    FramingRoundTrip(DeliveryParts(r), 4);
    DecimalRoundTrip(r.slot);
    assert |Ascii("false")| == 5;
  }

  function StateText(state: Friendship.State): Bytes {
    match state
    case Friend => Ascii("friend")
    case NotFriend => Ascii("not_friend")
    case Unknown => Ascii("unknown")
  }

  function ReadState(b: Bytes): Option<Friendship.State> {
    if b == StateText(Friendship.Friend) then Some(Friendship.Friend)
    else if b == StateText(Friendship.NotFriend) then Some(Friendship.NotFriend)
    else if b == StateText(Friendship.Unknown) then Some(Friendship.Unknown)
    else None
  }

  lemma StateRoundTrip(state: Friendship.State)
    ensures ReadState(StateText(state)) == Some(state)
  {
    assert |Ascii("friend")| == 6 && |Ascii("not_friend")| == 10 && |Ascii("unknown")| == 7;
  }

  /** The live state of a delivery target. */
  datatype TargetState = TargetState(
    identity: Uuid, channel: Uuid, provider: Bytes, channelActive: bool, channelUpdatedAt: Moment,
    recipient: Uuid, recipientEnabled: bool, friendship: Friendship.State, recipientUpdatedAt: Moment)

  function TargetParts(t: TargetState): seq<Bytes> {
    [Ascii("v1"), t.identity, t.channel, t.provider, Flag(t.channelActive, "1", "0"), MomentText(t.channelUpdatedAt, "Z"),
     t.recipient, Flag(t.recipientEnabled, "1", "0"), StateText(t.friendship), MomentText(t.recipientUpdatedAt, "Z")]
  }

  function TargetForm(t: TargetState): Option<Bytes> {
    if t.provider != [] && Fits(TargetParts(t), 4) then Some(Framed(TargetParts(t), 4)) else None
  }

  function ReadTarget(b: Bytes): Option<TargetState> {
    var parts := Unframed(b, 4);
    if || parts.None? || |parts.value| != 10
       || |parts.value[1]| != 36 || |parts.value[2]| != 36 || |parts.value[6]| != 36
    then None
    else
      var p := parts.value;
      var channelTime, state, recipientTime := ReadMoment(p[5]), ReadState(p[8]), ReadMoment(p[9]);
      if channelTime.None? || state.None? || recipientTime.None? then None
      else
        Some(TargetState(p[1], p[2], p[3], p[4] == Ascii("1"), channelTime.value,
                         p[6], p[7] == Ascii("1"), state.value, recipientTime.value))
  }

  lemma TargetRoundTrip(t: TargetState)
    requires TargetForm(t).Some?
    ensures ReadTarget(TargetForm(t).value) == Some(t)
  {
    hide MomentText, ReadMoment, StateText, ReadState, Framed, Unframed, Fits;
    FramingRoundTrip(TargetParts(t), 4);
    MomentRoundTrip(t.channelUpdatedAt, "Z");
    MomentRoundTrip(t.recipientUpdatedAt, "Z");
    StateRoundTrip(t.friendship);
    assert Ascii("1")[0] != Ascii("0")[0];
  }

  /** What an unlink confirmation covers; both id lists are sorted, and only the count at the end tells them apart. */
  datatype UnlinkSnapshot = UnlinkSnapshot(
    slot: nat, identity: Uuid, name: Bytes, recipients: seq<Uuid>, channels: seq<Uuid>)

  function Texts(ids: seq<Uuid>): (texts: seq<Bytes>)
    ensures |texts| == |ids| && forall i :: 0 <= i < |ids| ==> texts[i] == ids[i]
  {
    seq(|ids|, i requires 0 <= i < |ids| => ids[i])
  }

  function UnlinkParts(s: UnlinkSnapshot): seq<Bytes> {
    [Ascii("account_unlink"), Decimal(s.slot), s.identity, s.name]
    + Texts(s.recipients) + Texts(s.channels)
    + [Decimal(|s.recipients|), Ascii("delivery_audit_retained=true")]
  }

  function UnlinkForm(s: UnlinkSnapshot): Option<Bytes> {
    if Fits(UnlinkParts(s), 8) then Some(Framed(UnlinkParts(s), 8)) else None
  }

  predicate AllUuids(texts: seq<Bytes>) {
    forall i :: 0 <= i < |texts| ==> |texts[i]| == 36
  }

  function Uuids(texts: seq<Bytes>): seq<Uuid>
    requires AllUuids(texts)
  {
    seq(|texts|, i requires 0 <= i < |texts| => texts[i])
  }

  /** The count is the last part but one; it splits the ids into recipients and channels. */
  function ReadUnlink(b: Bytes): Option<UnlinkSnapshot> {
    var parts := Unframed(b, 8);
    if parts.None? || |parts.value| < 6 then None
    else
      var p := parts.value;
      var count := DecimalValue(p[|p| - 2]);
      if || DecimalValue(p[1]) < 0 || |p[2]| != 36 || !(0 <= count <= |p| - 6)
         || !AllUuids(p[4..4 + count]) || !AllUuids(p[4 + count..|p| - 2])
      then None
      else
        Some(UnlinkSnapshot(DecimalValue(p[1]), p[2], p[3], Uuids(p[4..4 + count]), Uuids(p[4 + count..|p| - 2])))
  }

  lemma UnlinkPartsSplit(s: UnlinkSnapshot)
    ensures var p := UnlinkParts(s); var r := |s.recipients|;
            && |p| == 6 + r + |s.channels|
            && p[1] == Decimal(s.slot) && p[2] == s.identity && p[3] == s.name && p[|p| - 2] == Decimal(r)
            && p[4..4 + r] == Texts(s.recipients) && p[4 + r..|p| - 2] == Texts(s.channels)
  {
    hide Decimal, Ascii;
  }

  lemma TextsRoundTrip(ids: seq<Uuid>)
    ensures AllUuids(Texts(ids)) && Uuids(Texts(ids)) == ids
  {
  }

  lemma UnlinkRoundTrip(s: UnlinkSnapshot)
    requires UnlinkForm(s).Some?
    ensures ReadUnlink(UnlinkForm(s).value) == Some(s)
  {
    hide UnlinkParts, Framed, Unframed, Fits, Decimal, DecimalValue, AllUuids, Uuids, Texts;
    FramingRoundTrip(UnlinkParts(s), 8);
    DecimalRoundTrip(s.slot);
    DecimalRoundTrip(|s.recipients|);
    UnlinkPartsSplit(s);
    TextsRoundTrip(s.recipients);
    TextsRoundTrip(s.channels);
  }

  /** Without the count the lists run into each other: a recipient and a channel trade places unseen. */
  lemma TheCountIsNeeded(id: Uuid)
    ensures var a := UnlinkSnapshot(1, id, [], [id], []); var b := UnlinkSnapshot(1, id, [], [], [id]);
            a != b && UnlinkParts(a)[..5] == UnlinkParts(b)[..5] && |UnlinkParts(a)| == |UnlinkParts(b)| == 7
            && UnlinkParts(a)[6] == UnlinkParts(b)[6]
  {
  }

  // ---- The rich-menu preview ----

  datatype Field = Field(name: Bytes, uri: Bytes)

  datatype PreviewSnapshot = PreviewSnapshot(
    owner: Bytes, provider: Bytes, channel: Bytes, revision: Moment, observation: Bytes,
    template: Bytes, version: nat, fields: seq<Field>, pixels: Bytes)

  function FieldParts(fields: seq<Field>): (parts: seq<Bytes>)
    ensures |parts| == 2 * |fields|
  {
    if |fields| == 0 then [] else FieldParts(fields[..|fields| - 1]) + [fields[|fields| - 1].name, fields[|fields| - 1].uri]
  }

  function PreviewParts(s: PreviewSnapshot): seq<Bytes> {
    [s.owner, s.provider, s.channel, MomentText(s.revision, "+00:00"), s.observation, s.template,
     Decimal(s.version), Decimal(|s.fields|)]
    + FieldParts(s.fields) + [s.pixels]
  }

  function PreviewForm(s: PreviewSnapshot): Option<Bytes> {
    if Fits(PreviewParts(s), 8) then Some(Framed(PreviewParts(s), 8)) else None
  }

  function ReadFields(parts: seq<Bytes>): seq<Field>
    requires |parts| % 2 == 0
  {
    if |parts| == 0 then []
    else ReadFields(parts[..|parts| - 2]) + [Field(parts[|parts| - 2], parts[|parts| - 1])]
  }

  lemma {:induction false} FieldsRoundTrip(fields: seq<Field>)
    ensures ReadFields(FieldParts(fields)) == fields
  {
    if |fields| > 0 {
      FieldsRoundTrip(fields[..|fields| - 1]);
      var parts := FieldParts(fields);
      assert parts[..|parts| - 2] == FieldParts(fields[..|fields| - 1]);
    }
  }

  function ReadPreview(b: Bytes): Option<PreviewSnapshot> {
    var parts := Unframed(b, 8);
    if parts.None? || |parts.value| < 9 then None
    else
      var p := parts.value;
      if ReadMoment(p[3]).None? || DecimalValue(p[6]) < 0 || DecimalValue(p[7]) * 2 != |p| - 9 then None
      else Some(PreviewSnapshot(p[0], p[1], p[2], ReadMoment(p[3]).value, p[4], p[5], DecimalValue(p[6]), ReadFields(p[8..|p| - 1]), p[|p| - 1]))
  }

  lemma PreviewRoundTrip(s: PreviewSnapshot)
    requires PreviewForm(s).Some?
    ensures ReadPreview(PreviewForm(s).value) == Some(s)
  {
    hide MomentText, ReadMoment, Framed, Unframed, Fits;
    var p := PreviewParts(s);
    FramingRoundTrip(p, 8);
    MomentRoundTrip(s.revision, "+00:00");
    DecimalRoundTrip(s.version);
    DecimalRoundTrip(|s.fields|);
    FieldsRoundTrip(s.fields);
    assert p[8..|p| - 1] == FieldParts(s.fields);
  }

  lemma {:induction false} FramingAppends(parts: seq<Bytes>, part: Bytes, width: nat)
    ensures Framed(parts + [part], width) == Framed(parts, width) + BigEndian(|part|, width) + part
  {
    if |parts| == 0 {
      assert [part][1..] == [];
    } else {
      assert (parts + [part])[1..] == parts[1..] + [part];
      FramingAppends(parts[1..], part, width);
    }
  }

  /** Component by component into the digest; a component too long for its prefix raises. */
  method DigestInput(s: PreviewSnapshot) returns (input: Option<Bytes>)
    ensures input == PreviewForm(s)
  {
    var components := [s.owner, s.provider, s.channel, MomentText(s.revision, "+00:00"), s.observation, s.template,
                       Decimal(s.version), Decimal(|s.fields|)];
    ghost var head := components;
    for i := 0 to |s.fields|
      invariant components == head + FieldParts(s.fields[..i])
    {
      components := components + [s.fields[i].name, s.fields[i].uri];
      assert s.fields[..i + 1][..i] == s.fields[..i];
    }
    assert s.fields[..|s.fields|] == s.fields;
    components := components + [s.pixels];
    var digested := [];
    for i := 0 to |components|
      invariant digested == Framed(components[..i], 8)
      invariant Fits(components[..i], 8)
    {
      if |components[i]| >= Pow256(8) {
        return None;
      }
      FramingAppends(components[..i], components[i], 8);
      assert components[..i + 1] == components[..i] + [components[i]];
      digested := digested + BigEndian(|components[i]|, 8) + components[i];
    }
    assert components[..|components|] == components;
    input := Some(digested);
  }

  /** No two different inputs of one kind are written the same. */
  lemma FormsAreInjective(a: DeliveryRequest, b: DeliveryRequest, c: TargetState, d: TargetState,
                          e: UnlinkSnapshot, f: UnlinkSnapshot, g: PreviewSnapshot, h: PreviewSnapshot)
    ensures DeliveryForm(a).Some? && DeliveryForm(a) == DeliveryForm(b) ==> a == b
    ensures TargetForm(c).Some? && TargetForm(c) == TargetForm(d) ==> c == d
    ensures UnlinkForm(e).Some? && UnlinkForm(e) == UnlinkForm(f) ==> e == f
    ensures PreviewForm(g).Some? && PreviewForm(g) == PreviewForm(h) ==> g == h
  {
    if DeliveryForm(a).Some? && DeliveryForm(a) == DeliveryForm(b) {
      DeliveryRoundTrip(a);
      DeliveryRoundTrip(b);
    }
    if TargetForm(c).Some? && TargetForm(c) == TargetForm(d) {
      TargetRoundTrip(c);
      TargetRoundTrip(d);
    }
    if UnlinkForm(e).Some? && UnlinkForm(e) == UnlinkForm(f) {
      UnlinkRoundTrip(e);
      UnlinkRoundTrip(f);
    }
    if PreviewForm(g).Some? && PreviewForm(g) == PreviewForm(h) {
      PreviewRoundTrip(g);
      PreviewRoundTrip(h);
    }
  }
}
