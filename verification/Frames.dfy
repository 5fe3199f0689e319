/**
 * The binary relay protocol: the encoder of sync-harness/src/bots/transport.ts and the two
 * independent decoders relay-go/main.go and relay-rs/src/main.rs. Text and doubles are bytes.
 */
module Frames {
  import opened Common
  import opened Timelines

  type Byte = b: int | 0 <= b < 256

  datatype WireIntent = WirePlay | WirePause | WireSeek

  /** An 0x03 control: `time` is a little-endian double, an absent command id is None. */
  datatype Control = Control(intent: WireIntent, time: seq<Byte>, room: seq<Byte>, cmdId: Option<seq<Byte>>)

  // ---- doubles, as the decoders test them ----

  predicate ExponentFull(d: seq<Byte>)
    requires |d| == 8
  {
    d[7] % 128 == 127 && d[6] >= 240
  }

  predicate MantissaZero(d: seq<Byte>)
    requires |d| == 8
  {
    d[6] % 16 == 0 && d[..6] == [0, 0, 0, 0, 0, 0]
  }

  predicate Zero(d: seq<Byte>)
    requires |d| == 8
  {
    d[7] % 128 == 0 && d[6] == 0 && MantissaZero(d)
  }

  predicate IsNaN(d: seq<Byte>)
    requires |d| == 8
  {
    ExponentFull(d) && !MantissaZero(d)
  }

  predicate IsInf(d: seq<Byte>)
    requires |d| == 8
  {
    ExponentFull(d) && MantissaZero(d)
  }

  /** `x < 0`: false of NaN and of negative zero. */
  predicate BelowZero(d: seq<Byte>)
    requires |d| == 8
  {
    d[7] >= 128 && !IsNaN(d) && !Zero(d)
  }

  // ---- identifiers ----

  /** relay-rs: alphanumeric, underscore or dash. */
  predicate IdByte(b: Byte) {
    48 <= b <= 57 || 65 <= b <= 90 || 97 <= b <= 122 || b == 95 || b == 45
  }

  /** relay-rs: nonempty and at most 64 such bytes. */
  predicate IsValidId(s: seq<Byte>) {
    s != [] && |s| <= 64 && forall i | 0 <= i < |s| :: IdByte(s[i])
  }

  /** relay-go: the class [A-Za-z0-9_-], consumed one byte at a time, between 1 and 64 times. */
  predicate MatchesPattern(s: seq<Byte>) {
    1 <= |s| <= 64 && InClass(s)
  }

  predicate InClass(s: seq<Byte>) {
    s == [] ||
    ((65 <= s[0] <= 90 || 97 <= s[0] <= 122 || 48 <= s[0] <= 57 || s[0] == 95 || s[0] == 45) && InClass(s[1..]))
  }

  lemma {:induction false} ClassIsCharset(s: seq<Byte>)
    ensures InClass(s) <==> forall i | 0 <= i < |s| :: IdByte(s[i])
  {
    if s != [] {
      ClassIsCharset(s[1..]);
      if forall i | 0 <= i < |s[1..]| :: IdByte(s[1..][i]) {
        forall i | 0 < i < |s|
          ensures IdByte(s[i])
        {
          assert s[i] == s[1..][i - 1];
        }
      }
    }
  }

  lemma PatternIsValidId(s: seq<Byte>)
    ensures MatchesPattern(s) <==> IsValidId(s)
  {
    ClassIsCharset(s);
  }

  // ---- UTF-8, which only the Rust decoder demands ----

  predicate Continues(s: seq<Byte>, at: nat, lo: Byte, hi: Byte) {
    at < |s| && lo <= s[at] <= hi
  }

  /** The length of the well-formed UTF-8 sequence at the head of `s`, or 0. */
  function Utf8Head(s: seq<Byte>): nat
    requires s != []
    ensures Utf8Head(s) <= |s|
  {
    var b := s[0];
    if b < 0x80 then 1
    else if 0xC2 <= b <= 0xDF then if Continues(s, 1, 0x80, 0xBF) then 2 else 0
    else if 0xE0 <= b <= 0xEF then
      var lo, hi := if b == 0xE0 then 0xA0 else 0x80, if b == 0xED then 0x9F else 0xBF;
      if Continues(s, 1, lo, hi) && Continues(s, 2, 0x80, 0xBF) then 3 else 0
    else if 0xF0 <= b <= 0xF4 then
      var lo, hi := if b == 0xF0 then 0x90 else 0x80, if b == 0xF4 then 0x8F else 0xBF;
      if Continues(s, 1, lo, hi) && Continues(s, 2, 0x80, 0xBF) && Continues(s, 3, 0x80, 0xBF) then 4 else 0
    else 0
  }

  predicate Utf8(s: seq<Byte>)
    decreases |s|
  {
    s == [] || (Utf8Head(s) > 0 && Utf8(s[Utf8Head(s)..]))
  }

  lemma {:induction false} ValidIdsAreUtf8(s: seq<Byte>)
    requires forall i | 0 <= i < |s| :: IdByte(s[i])
    ensures Utf8(s)
    decreases |s|
  {
    if s != [] {
      ValidIdsAreUtf8(s[1..]);
    }
  }

  // ---- the encoder ----

  function IntentCode(i: WireIntent): Byte {
    match i case WirePlay => 0 case WirePause => 1 case WireSeek => 2
  }

  predicate Encodable(c: Control) {
    |c.time| == 8 && |c.room| < 256 && (c.cmdId.Some? ==> |c.cmdId.value| < 256)
  }

  /** An empty command id is written like an absent one. */
  function Suffix(cmdId: Option<seq<Byte>>): seq<Byte>
    requires cmdId.Some? ==> |cmdId.value| < 256
  {
    if cmdId.None? || cmdId.value == [] then [] else [|cmdId.value|] + cmdId.value
  }

  function Encode(c: Control): seq<Byte>
    requires Encodable(c)
  {
    [3, IntentCode(c.intent)] + c.time + [|c.room|] + c.room + Suffix(c.cmdId)
  }

  /** Copy `bytes` into the buffer behind what is already `written`; the rest of it stays. */
  method CopyInto(frame: array<Byte>, ghost written: seq<Byte>, at: nat, bytes: seq<Byte>)
    requires at == |written| && at + |bytes| <= frame.Length && frame[..at] == written
    modifies frame
    ensures frame[..at + |bytes|] == written + bytes
    ensures forall k | at + |bytes| <= k < frame.Length :: frame[k] == old(frame[k])
  {
    var i := 0;
    while i < |bytes|
      invariant 0 <= i <= |bytes|
      invariant frame[..at + i] == written + bytes[..i]
      invariant forall k | at + i <= k < frame.Length :: frame[k] == old(frame[k])
    {
      frame[at + i] := bytes[i];
      assert frame[..at + i + 1] == frame[..at + i] + [bytes[i]];
      i := i + 1;
    }
    assert bytes[..i] == bytes;
  }

  /** Write everything up to the room name; the rest of the buffer stays. */
  method WriteRoom(frame: array<Byte>, c: Control)
    requires |c.time| == 8 && |c.room| < 256 && 11 + |c.room| <= frame.Length
    modifies frame
    ensures frame[..11 + |c.room|] == [3, IntentCode(c.intent)] + c.time + [|c.room|] + c.room
  {
    var head := [3, IntentCode(c.intent)];
    CopyInto(frame, [], 0, head);
    CopyInto(frame, head, 2, c.time);
    CopyInto(frame, head + c.time, 10, [|c.room|]);
    CopyInto(frame, head + c.time + [|c.room|], 11, c.room);
  }

  /** Append the length and the bytes of a command id. */
  method WriteId(frame: array<Byte>, ghost written: seq<Byte>, at: nat, cmd: seq<Byte>)
    requires at == |written| && |cmd| < 256 && at + 1 + |cmd| == frame.Length && frame[..at] == written
    modifies frame
    ensures frame[..] == written + ([|cmd|] + cmd)
  {
    CopyInto(frame, written, at, [|cmd|]);
    CopyInto(frame, written + [|cmd|], at + 1, cmd);
    assert frame[..frame.Length] == frame[..];
  }

  /** `sendControl` writes the frame into a buffer; a length that does not fit one byte throws. */
  method SendControl(c: Control) returns (sent: Option<seq<Byte>>)
    requires |c.time| == 8
    ensures sent == if Encodable(c) then Some(Encode(c)) else None
  {
    var cmd := c.cmdId.GetOr([]);
    if |c.room| >= 256 || |cmd| >= 256 {
      return None;
    }
    var length := 11 + |c.room| + (if cmd != [] then 1 + |cmd| else 0);
    var frame := new Byte[length](_ => 0);
    WriteRoom(frame, c);
    ghost var fixed := [3, IntentCode(c.intent)] + c.time + [|c.room|] + c.room;
    if cmd != [] {
      WriteId(frame, fixed, 11 + |c.room|, cmd);
    } else {
      assert frame[..] == frame[..11 + |c.room|];
      assert fixed + [] == fixed;
    }
    assert Encode(c) == fixed + Suffix(c.cmdId);
    return Some(frame[..]);
  }

  // ---- the two decoders ----

  function IntentOf(code: Byte): WireIntent
    requires code <= 2
  {
    if code == 0 then WirePlay else if code == 1 then WirePause else WireSeek
  }

  function GoParse(data: seq<Byte>): Option<Control> {
    if |data| < 11 || data[1] > 2 then None
    else
      var time := data[2..10];
      if IsNaN(time) || IsInf(time) || BelowZero(time) then None
      else
        var n: int := data[10];
        if |data| < 11 + n then None
        else
          var room := data[11..11 + n];
          if |data| == 11 + n then Some(Control(IntentOf(data[1]), time, room, None))
          else
            var cl: int := data[11 + n];
            if cl == 0 || cl > 64 || |data| != 12 + n + cl then None
            else
              var cmdId := data[12 + n..12 + n + cl];
              if !MatchesPattern(cmdId) then None else Some(Control(IntentOf(data[1]), time, room, Some(cmdId)))
  }

  function RustParse(data: seq<Byte>): Option<Control> {
    if |data| < 11 then None
    else
      var intent :=
        match data[1] case 0 => Some(WirePlay) case 1 => Some(WirePause) case 2 => Some(WireSeek) case _ => None;
      if intent.None? then None
      else
        var time := data[2..10];
        if ExponentFull(time) || BelowZero(time) then None // not finite, or negative
        else
          var n: int := data[10];
          if |data| < 11 + n || !Utf8(data[11..11 + n]) then None
          else if |data| == 11 + n then Some(Control(intent.value, time, data[11..11 + n], None))
          else
            var cl: int := data[11 + n];
            if cl == 0 || cl > 64 || |data| != 12 + n + cl then None
            else
              var cmdId := data[12 + n..12 + n + cl];
              if !Utf8(cmdId) || !IsValidId(cmdId) then None
              else Some(Control(intent.value, time, data[11..11 + n], Some(cmdId)))
  }

  /** What each relay acts on: a parsed 0x03 frame whose room name passes its own check. */
  function GoHandle(data: seq<Byte>): Option<Control> {
    if data == [] || data[0] != 3 then None
    else
      var c := GoParse(data);
      if c.None? || !MatchesPattern(c.value.room) then None else c
  }

  function RustHandle(data: seq<Byte>): Option<Control> {
    if data == [] || data[0] != 3 then None
    else
      var c := RustParse(data);
      if c.None? || !IsValidId(c.value.room) then None else c
  }

  /**
   * The parsers differ in one thing only: Rust refuses a room name that is not UTF-8. On all other
   * byte strings they agree, refusal or result.
   */
  lemma ParsersDifferOnlyInUtf8(data: seq<Byte>)
    ensures RustParse(data) == if GoParse(data).Some? && !Utf8(GoParse(data).value.room) then None else GoParse(data)
  {
    if |data| >= 11 && |data| > 11 + data[10] as int {
      var n: int := data[10];
      var cl: int := data[11 + n];
      if |data| == 12 + n + cl {
        var cmdId := data[12 + n..12 + n + cl];
        PatternIsValidId(cmdId);
        if IsValidId(cmdId) {
          ValidIdsAreUtf8(cmdId);
        }
      }
    }
  }

  /** The relays accept exactly the same byte strings, with equal results. */
  lemma RelaysAgree(data: seq<Byte>)
    ensures GoHandle(data) == RustHandle(data)
  {
    ParsersDifferOnlyInUtf8(data);
    if GoParse(data).Some? {
      var room := GoParse(data).value.room;
      PatternIsValidId(room);
      if IsValidId(room) {
        ValidIdsAreUtf8(room);
      }
    }
  }

  /** A control the relays act on. */
  predicate Acceptable(c: Control) {
    && |c.time| == 8 && !ExponentFull(c.time) && !BelowZero(c.time)
    && IsValidId(c.room)
    && (c.cmdId.Some? ==> IsValidId(c.cmdId.value))
  }

  /** Frames are canonical: whatever a relay accepts is the encoding of what it decoded. */
  lemma AcceptedFramesAreCanonical(data: seq<Byte>)
    requires GoHandle(data).Some?
    ensures var c := GoHandle(data).value; Acceptable(c) && Encodable(c) && Encode(c) == data
  {
    var c := GoHandle(data).value;
    var n: int := data[10];
    PatternIsValidId(c.room);
    assert data[..2] == [3, IntentCode(c.intent)];
    assert data[..11] == data[..2] + c.time + [n];
    if c.cmdId.Some? {
      PatternIsValidId(c.cmdId.value);
      assert data == data[..11] + c.room + [data[11 + n]] + c.cmdId.value;
    } else {
      assert data == data[..11] + c.room;
    }
  }

  lemma AcceptableRoundTrips(c: Control)
    requires Acceptable(c)
    ensures Encodable(c) && GoHandle(Encode(c)) == Some(c)
  {
    var data := Encode(c);
    var n := |c.room|;
    assert data[2..10] == c.time && data[10] == n && data[11..11 + n] == c.room;
    PatternIsValidId(c.room);
    if c.cmdId.Some? {
      PatternIsValidId(c.cmdId.value);
      assert data[12 + n..12 + n + |c.cmdId.value|] == c.cmdId.value;
    }
  }

  /** Encoding a control and decoding it gives it back if and only if the relays may act on it. */
  lemma ControlsRoundTrip(c: Control)
    requires Encodable(c)
    ensures GoHandle(Encode(c)) == Some(c) <==> Acceptable(c)
  {
    if Acceptable(c) {
      AcceptableRoundTrips(c);
    } else if GoHandle(Encode(c)).Some? {
      AcceptedFramesAreCanonical(Encode(c));
    }
  }

  // ---- timeline frames ----

  /** The committed state as the relays hold it; epoch, position and stamp are doubles. */
  datatype WireTimeline = WireTimeline(
    seqNo: int, epoch: seq<Byte>, isPlaying: bool, mediaTime: seq<Byte>, stampedAt: seq<Byte>, reason: Reason)

  predicate WellFormed(tl: WireTimeline) {
    |tl.epoch| == 8 && |tl.mediaTime| == 8 && |tl.stampedAt| == 8
  }

  /** A reason outside the table encodes as 0. */
  function ReasonCode(r: Reason): Byte {
    match r
    case Play => 0 case Pause => 1 case Seek => 2 case Join => 3 case Snapshot => 4 case Succession => 5
    case _ => 0
  }

  function ReasonOf(code: Byte): Reason {
    match code
    case 0 => Play case 1 => Pause case 2 => Seek case 3 => Join case 4 => Snapshot case 5 => Succession
    case _ => Snapshot
  }

  const U32: int := 0x1_0000_0000

  /** Truncation to 32 bits, little-endian. */
  function U32Bytes(n: int): (r: seq<Byte>)
    ensures |r| == 4
  {
    [n % 256, n / 256 % 256, n / 65536 % 256, n / 16777216 % 256]
  }

  function ReadU32(s: seq<Byte>): int
    requires |s| == 4
  {
    var a: int, b: int, c: int, d: int := s[0], s[1], s[2], s[3];
    a + 256 * b + 65536 * c + 16777216 * d
  }

  function EncodeTimeline(msgType: Byte, tl: WireTimeline): (r: seq<Byte>)
    requires WellFormed(tl)
    ensures |r| == 31
  {
    [msgType] + U32Bytes(tl.seqNo) + tl.epoch + [if tl.isPlaying then 1 else 0]
    + tl.mediaTime + tl.stampedAt + [ReasonCode(tl.reason)]
  }

  /** `encode_timeline` fills a zeroed buffer of 31 bytes. */
  method FillTimeline(msgType: Byte, tl: WireTimeline) returns (frame: seq<Byte>)
    requires WellFormed(tl)
    ensures frame == EncodeTimeline(msgType, tl)
  {
    var buf := new Byte[31](_ => 0);
    CopyInto(buf, [], 0, [msgType]);
    CopyInto(buf, [msgType], 1, U32Bytes(tl.seqNo));
    ghost var start := [msgType] + U32Bytes(tl.seqNo);
    CopyInto(buf, start, 5, tl.epoch);
    if tl.isPlaying {
      CopyInto(buf, start + tl.epoch, 13, [1]);
    }
    ghost var middle := start + tl.epoch + [if tl.isPlaying then 1 else 0];
    assert buf[..14] == buf[..13] + [buf[13]];
    CopyInto(buf, middle, 14, tl.mediaTime);
    CopyInto(buf, middle + tl.mediaTime, 22, tl.stampedAt);
    CopyInto(buf, middle + tl.mediaTime + tl.stampedAt, 30, [ReasonCode(tl.reason)]);
    assert buf[..31] == buf[..];
    frame := buf[..];
  }

  /** A frame shorter than the fields it reads from throws. */
  function DecodeTimeline(buf: seq<Byte>): Option<WireTimeline> {
    if |buf| < 31 then None
    else Some(WireTimeline(ReadU32(buf[1..5]), buf[5..13], buf[13] == 1, buf[14..22], buf[22..30], ReasonOf(buf[30])))
  }

  lemma U32RoundTrip(n: int)
    ensures ReadU32(U32Bytes(n)) == n % U32
  {
    var a := n / 256;
    var b := n / 65536;
    var c := n / 16777216;
    assert b == a / 256 && c == b / 256;
    assert n == 256 * a + n % 256 && a == 256 * b + a % 256 && b == 256 * c + b % 256;
    var d := c / 256;
    assert c == 256 * d + c % 256;
    var low := ReadU32(U32Bytes(n));
    assert n == U32 * d + low && 0 <= low < U32;
    Remainder(n, d, low);
  }

  lemma Remainder(n: int, d: int, low: int)
    requires n == U32 * d + low && 0 <= low < U32
    ensures n % U32 == low
  {
  }

  predicate ListedReason(r: Reason) {
    r in {Play, Pause, Seek, Join, Snapshot, Succession}
  }

  /**
   * A timeline frame carries everything but a sequence number beyond 32 bits and a reason outside
   * the table; so it round-trips if and only if the number fits and the reason is one of the six.
   */
  lemma TimelinesRoundTrip(msgType: Byte, tl: WireTimeline)
    requires WellFormed(tl)
    ensures DecodeTimeline(EncodeTimeline(msgType, tl))
            == Some(tl.(seqNo := tl.seqNo % U32, reason := if ListedReason(tl.reason) then tl.reason else Play))
    ensures DecodeTimeline(EncodeTimeline(msgType, tl)) == Some(tl) <==> 0 <= tl.seqNo < U32 && ListedReason(tl.reason)
  {
    var buf := EncodeTimeline(msgType, tl);
    U32RoundTrip(tl.seqNo);
    assert buf[1..5] == U32Bytes(tl.seqNo) && buf[5..13] == tl.epoch;
    assert buf[14..22] == tl.mediaTime && buf[22..30] == tl.stampedAt;
    SmallIsItsRemainder(tl.seqNo);
  }

  lemma SmallIsItsRemainder(n: int)
    ensures n % U32 == n <==> 0 <= n < U32
  {
  }
}
