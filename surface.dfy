/**
 * The control-surface codec.  Outbound messages are byte lists: MIDI 1.0
 * channel-voice messages (Note On 0x90, Control Change 0xB0, Pitch Bend 0xE0)
 * and two Mackie Control System Exclusive commands framed by 0xF0 ... 0xF7
 * (LCD text 0x12 and LCD colour 0x72).  Inbound messages are routed by their
 * status byte to a strip.
 */
module Surface {
  import opened Common

  const NoteOnStatus := 0x90
  const ControlChangeStatus := 0xB0
  const PitchBendStatus := 0xE0
  const SysExStart := 0xF0
  const SysExEnd := 0xF7

  /** SysEx start, Mackie Control manufacturer id 00 00 66, device id 0x15. */
  const MackieHeader: seq<int> := [SysExStart, 0x00, 0x00, 0x66, 0x15]
  const LcdCommand := 0x12
  const ColorCommand := 0x72

  /** Each strip owns a 7-character cell on each of the two LCD lines. */
  const CellWidth := 7

  function NoteOn(note: int, velocity: int): seq<int> { [NoteOnStatus, note, velocity] }

  function ControlChange(control: int, value: int): seq<int> { [ControlChangeStatus, control, value] }

  /** Motor-fader command for strip `strip`: Pitch Bend on that channel, low byte 1. */
  function FaderPosition(strip: int, position: int): seq<int> { [PitchBendStatus + strip, 1, position] }

  /** Byte offset of a strip's cell: 0x00..0x37 on the upper line, 0x38..0x6F on the lower. */
  function LcdOffset(num: int, line: int): int { 7 * num + 56 * line }

  /** Python's `text[:n]`. */
  function Truncate(text: string, n: nat): (r: string)
    ensures |r| == Min(|text|, n) && r == text[..|r|]
  {
    if |text| <= n then text else text[..n]
  }

  /** Python's `[ord(c) for c in text]`. */
  function Codes(text: string): (r: seq<int>)
    ensures |r| == |text|
    ensures forall i :: 0 <= i < |text| ==> r[i] == text[i] as int
  {
    seq(|text|, i requires 0 <= i < |text| => text[i] as int)
  }

  function LcdClear(offset: int): seq<int>
  {
    MackieHeader + [LcdCommand, offset] + [0, 0, 0, 0, 0, 0, 0] + [SysExEnd]
  }

  function LcdWrite(offset: int, text: string): seq<int>
  {
    MackieHeader + [LcdCommand, offset] + Codes(text) + [SysExEnd]
  }

  /**
   * The messages `write_text(line, text)` sends for strip `num`: nothing for a
   * line other than 0 or 1; otherwise a clear of the cell (seven zero bytes)
   * followed by a write of the text cut to seven characters.
   */
  function WriteText(num: int, line: int, text: string): (msgs: seq<seq<int>>)
    ensures |msgs| == if 0 <= line <= 1 then 2 else 0
  {
    if !(0 <= line <= 1) then []
    else
      var offset := LcdOffset(num, line);
      [LcdClear(offset), LcdWrite(offset, Truncate(text, CellWidth))]
  }

  /** The shape of the two messages of `write_text`. */
  lemma WriteTextShape(num: int, line: int, text: string)
    requires 0 <= line <= 1
    ensures var msgs := WriteText(num, line, text);
      && |msgs| == 2
      && |msgs[0]| == 15
      && msgs[0][..7] == MackieHeader + [LcdCommand, LcdOffset(num, line)]
      && (forall i :: 7 <= i < 14 ==> msgs[0][i] == 0)
      && msgs[0][14] == SysExEnd
      && |msgs[1]| == 8 + Min(|text|, CellWidth)
      && msgs[1][..7] == MackieHeader + [LcdCommand, LcdOffset(num, line)]
      && (forall i :: 0 <= i < Min(|text|, CellWidth) ==> msgs[1][7 + i] == text[i] as int)
      && msgs[1][|msgs[1]| - 1] == SysExEnd
  {
  }

  /** What the surface reads out of an LCD SysEx message: its offset and its character codes. */
  datatype LcdUpdate = LcdUpdate(offset: int, codes: seq<int>)

  function DecodeLcd(m: seq<int>): Option<LcdUpdate>
  {
    if |m| >= 8 && m[..6] == MackieHeader + [LcdCommand] && m[|m| - 1] == SysExEnd
    then Some(LcdUpdate(m[6], m[7..|m| - 1]))
    else None
  }

  predicate IsCharCode(n: int)
  {
    0 <= n < 0xD800 || 0xE000 <= n < 0x11_0000
  }

  /** Character codes back to text (Python's `chr`). */
  function Text(codes: seq<int>): (r: string)
    requires forall i :: 0 <= i < |codes| ==> IsCharCode(codes[i])
    ensures |r| == |codes|
    ensures forall i :: 0 <= i < |codes| ==> r[i] as int == codes[i]
  {
    seq(|codes|, i requires 0 <= i < |codes| && IsCharCode(codes[i]) => codes[i] as char)
  }

  /**
   * Decoding the two LCD messages gives back the cell offset, seven blanks,
   * and the text cut to seven characters.
   */
  lemma LcdRoundTrip(num: int, line: int, text: string)
    requires 0 <= line <= 1
    ensures var msgs := WriteText(num, line, text);
      && DecodeLcd(msgs[0]) == Some(LcdUpdate(LcdOffset(num, line), [0, 0, 0, 0, 0, 0, 0]))
      && DecodeLcd(msgs[1]).Some?
      && DecodeLcd(msgs[1]).value.offset == LcdOffset(num, line)
      && Text(DecodeLcd(msgs[1]).value.codes) == Truncate(text, CellWidth)
  {
    var msgs := WriteText(num, line, text);
    var offset := LcdOffset(num, line);
    var t := Truncate(text, CellWidth);
    assert msgs[1] == MackieHeader + [LcdCommand, offset] + Codes(t) + [SysExEnd];
    assert msgs[1][7..|msgs[1]| - 1] == Codes(t);
    assert msgs[0][7..14] == [0, 0, 0, 0, 0, 0, 0];
    var back := Text(Codes(t));
    assert forall i :: 0 <= i < |t| ==> back[i] == t[i];
  }

  /**
   * The colour SysEx `change_lcd_color(clr)` sends for strip `num`: every
   * strip's colour index in strip order, with this strip's slot replaced by `clr`.
   */
  function ColorPayload(colors: seq<int>, num: int, clr: int): (m: seq<int>)
    requires |colors| == 8 && 0 <= num < 8
    ensures |m| == 15 && m[..6] == MackieHeader + [ColorCommand] && m[14] == SysExEnd
  {
    (MackieHeader + [ColorCommand] + colors + [SysExEnd])[num + 6 := clr]
  }

  /** The colour message is fifteen bytes: header, eight colours with slot `num` set to `clr`, end. */
  lemma ColorPayloadShape(colors: seq<int>, num: int, clr: int)
    requires |colors| == 8 && 0 <= num < 8
    ensures var m := ColorPayload(colors, num, clr);
      && |m| == 15
      && m[..6] == MackieHeader + [ColorCommand] && m[14] == SysExEnd
      && m[6 + num] == clr
      && (forall j :: 0 <= j < 8 && j != num ==> m[6 + j] == colors[j])
  {
  }

  /** The addressed strip's own entry of `colors` is never read. */
  lemma ColorPayloadOwnSlot(colors: seq<int>, num: int, clr: int, x: int)
    requires |colors| == 8 && 0 <= num < 8
    ensures ColorPayload(colors[num := x], num, clr) == ColorPayload(colors, num, clr)
  {
  }

  function DecodeColors(m: seq<int>): Option<seq<int>>
  {
    if |m| == 15 && m[..6] == MackieHeader + [ColorCommand] && m[14] == SysExEnd
    then Some(m[6..14])
    else None
  }

  /** The surface reads the eight colours back, with the addressed slot changed. */
  lemma ColorRoundTrip(colors: seq<int>, num: int, clr: int)
    requires |colors| == 8 && 0 <= num < 8
    ensures DecodeColors(ColorPayload(colors, num, clr)) == Some(colors[num := clr])
  {
    var m := ColorPayload(colors, num, clr);
    assert m[6..14] == colors[num := clr];
  }

  /** An inbound surface message, as the main loop routes it. */
  datatype Inbound =
    | ButtonEvent(strip: int, button: int, value: int)
    | EncoderEvent(strip: int, control: int, value: int)
    | FaderEvent(strip: int, value: int)
      /** Too short (IndexError) or a status with no strip (KeyError on `strips[b1 - 224]`). */
    | Unroutable

  /**
   * Status 144 goes to the button handler and 176 to the encoder handler of
   * strip `b2 % 8`; anything else to the fader handler of strip `b1 - 224`.
   */
  function Route(m: seq<int>): (r: Inbound)
    ensures (r.ButtonEvent? || r.EncoderEvent? || r.FaderEvent?) ==> 0 <= r.strip < 8
    ensures r.Unroutable? <==> |m| < 3 || (m[0] != NoteOnStatus && m[0] != ControlChangeStatus && !(PitchBendStatus <= m[0] < PitchBendStatus + 8))
    ensures r.ButtonEvent? ==> m[0] == NoteOnStatus && r.button == m[1] && r.value == m[2] && r.strip == m[1] % 8
    ensures r.EncoderEvent? ==> m[0] == ControlChangeStatus && r.control == m[1] && r.value == m[2] && r.strip == m[1] % 8
    ensures r.FaderEvent? ==> r.strip == m[0] - PitchBendStatus && r.value == m[2]
  {
    if |m| < 3 then Unroutable
    else if m[0] == 144 then ButtonEvent(m[1] % 8, m[1], m[2])
    else if m[0] == 176 then EncoderEvent(m[1] % 8, m[1], m[2])
    else if 0 <= m[0] - 224 < 8 then FaderEvent(m[0] - 224, m[2])
    else Unroutable
  }

  /** A Note On for control `base + 8 * role` reaches strip `base`. */
  lemma RouteNoteOn(strip: int, role: nat, value: int)
    requires 0 <= strip < 8
    ensures Route(NoteOn(strip + 8 * role, value)) == ButtonEvent(strip, strip + 8 * role, value)
  {
    assert (strip + 8 * role) % 8 == strip;
  }

  /** A motor-fader command read back as input reaches the same strip with the same position. */
  lemma RouteFaderPosition(strip: int, position: int)
    requires 0 <= strip < 8
    ensures Route(FaderPosition(strip, position)) == FaderEvent(strip, position)
  {
  }
}
