/**
 * One channel strip of the surface as a value, and each handler of the
 * `Strip` class as a function from the strip's state (and whatever else the
 * handler reads) to an `Effect`: the new state, the surface messages sent,
 * the mixer requests issued, and whether the handler ran to its end (false
 * where the source raises KeyError on the registry).  The `Bridge.Strip`
 * class is proved to follow these functions.
 */
module Strips {
  import opened Common
  import opened Surface
  import opened Sources
  import opened Mixer

  datatype StripState = StripState(
    rec: int, solo: int, mute: int, select: int,
    encMode: int, encValue: int,
    sourceCnt: int, colorCnt: int,
    sourceIdx: int, colorIdx: int,
    option: int,
    faderCurrent: int, faderBusy: int, faderDelta: int,
    sourceName: string, sourceUuid: string)

  /** The state `__init__` and `reset` give a strip. */
  const Defaults := StripState(
    rec := 0, solo := 0, mute := 0, select := 0,
    encMode := 3, encValue := -81,
    sourceCnt := 0, colorCnt := 7,
    sourceIdx := 0, colorIdx := 7,
    option := 0,
    faderCurrent := 0, faderBusy := 0, faderDelta := 0,
    sourceName := "", sourceUuid := "")

  predicate Bit(x: int) { x == 0 || x == 1 }

  /** The ranges every handler keeps. */
  predicate Valid(s: StripState)
  {
    && Bit(s.rec) && Bit(s.solo) && Bit(s.mute) && Bit(s.select)
    && Bit(s.option) && Bit(s.faderBusy)
    && 0 <= s.encMode < 4
    && 1 <= s.colorCnt <= 8 && 1 <= s.colorIdx <= 8
    && s.sourceCnt >= 0 && s.sourceIdx >= 0
  }

  /** First LED of each encoder-ring mode (`led_modes[m][0]`). */
  const LedBases: seq<int> := [1, 17, 65, 81]

  function LedBase(mode: int): int
    requires 0 <= mode < 4
  {
    LedBases[mode]
  }

  const ColorNames: seq<string> := ["RED", "GREEN", "YELLOW", "BLUE", "MAGENTA", "CYAN", "WHITE", "BLACK"]

  function ColorName(c: int): string
    requires 1 <= c <= 8
  {
    ColorNames[c - 1]
  }

  /** The encoder-ring value shown for the stored balance. */
  function Ring(s: StripState): int
    requires 0 <= s.encMode < 4
  {
    s.encValue + LedBase(s.encMode)
  }

  /** The next encoder-ring mode after a push. */
  function NextEncMode(m: int): (r: int)
    requires 0 <= m < 4
    ensures 0 <= r < 4
  {
    if m + 1 > |LedBases| - 1 then 0 else m + 1
  }

  /** Four pushes bring the ring back to the mode it started in. */
  lemma EncModeCycle(m: int)
    requires 0 <= m < 4
    ensures NextEncMode(NextEncMode(NextEncMode(NextEncMode(m)))) == m
    ensures NextEncMode(m) != m
  {
  }

  // ---------------------------------------------------------------------------
  // Buttons

  /** The role of a button, from its control number: base + 0, 8, 16, 24, 32. */
  datatype Control = Rec | Solo | Mute | Select | EncoderPush | Touch

  function Offset(c: Control): int
    requires c != Touch
  {
    match c
    case Rec => 0
    case Solo => 8
    case Mute => 16
    case Select => 24
    case EncoderPush => 32
  }

  function ControlOf(num: int, button: int): (c: Control)
    ensures c != Touch ==> button == num + Offset(c)
  {
    if button == num then Rec
    else if button == num + 8 then Solo
    else if button == num + 16 then Mute
    else if button == num + 24 then Select
    else if button == num + 32 then EncoderPush
    else Touch
  }

  /** Every role's control number decodes back to that role; every other number is a touch. */
  lemma ControlRoundTrip(num: int, button: int)
    ensures forall c :: c != Touch ==> ControlOf(num, num + Offset(c)) == c
    ensures ControlOf(num, button) == Touch <==> button - num !in {0, 8, 16, 24, 32}
  {
    forall c | c != Touch ensures ControlOf(num, num + Offset(c)) == c {
      match c
      case Rec =>
      case Solo =>
      case Mute =>
      case Select =>
      case EncoderPush =>
    }
  }

  /** What one handler run does to its strip. */
  datatype Effect = Effect(after: StripState, sent: seq<seq<int>>, requested: seq<Request>, ok: bool)

  function Idle(s: StripState): Effect
  {
    Effect(s, [], [], true)
  }

  /** The handler left the strip's selection flag and its assignment alone. */
  predicate Keeps(s: StripState, t: StripState)
  {
    t.select == s.select && t.sourceUuid == s.sourceUuid
  }

  // ---------------------------------------------------------------------------
  // restore() and reset()

  /** `restore`: leave the selection overlay with the cursors back on the committed choices. */
  function Restored(s: StripState): (r: StripState)
    ensures r.select == 0 && r.sourceCnt == s.sourceIdx && r.colorCnt == s.colorIdx
    ensures r.(select := s.select, sourceCnt := s.sourceCnt, colorCnt := s.colorCnt) == s
  {
    s.(sourceCnt := s.sourceIdx, colorCnt := s.colorIdx, select := 0)
  }

  /** The button lights, the ring and the fader as the strip's state has them. */
  function Indicators(num: int, s: StripState): seq<seq<int>>
  {
    [ NoteOn(num, s.rec * 127), NoteOn(num + 8, s.solo * 127), NoteOn(num + 16, s.mute * 127) ]
  }

  /** Messages `restore` sends, for the already restored state `s`. */
  function RestoreMsgs(num: int, s: StripState, colors: seq<int>): seq<seq<int>>
    requires |colors| == 8 && 0 <= num < 8 && 0 <= s.encMode < 4
  {
    WriteText(num, 0, s.sourceName) + WriteText(num, 1, "")
    + [ColorPayload(colors, num, s.colorIdx)]
    + Indicators(num, s)
    + [NoteOn(num + 24, s.select), ControlChange(num + 48, Ring(s)), FaderPosition(num, s.faderCurrent)]
  }

  /** `restore`; `colors` are all strips' colour indices at the call. */
  function Restore(num: int, s: StripState, colors: seq<int>): (e: Effect)
    requires |colors| == 8 && 0 <= num < 8 && Valid(s)
    ensures Valid(e.after) && e.ok && e.requested == []
    ensures e.after.select == 0 && e.after.sourceName == s.sourceName && e.after.sourceUuid == s.sourceUuid
    ensures e.after.sourceCnt == s.sourceIdx && e.after.colorCnt == s.colorIdx
    ensures |e.sent| == 11 && e.sent[..4] == WriteText(num, 0, s.sourceName) + WriteText(num, 1, "")
    ensures e.sent[4] == ColorPayload(colors, num, s.colorIdx)
    ensures e.sent[5..] == [[0x90, num, s.rec * 127], [0x90, num + 8, s.solo * 127], [0x90, num + 16, s.mute * 127],
                            [0x90, num + 24, 0], [0xB0, num + 48, s.encValue + LedBase(s.encMode)], [0xE0 + num, 1, s.faderCurrent]]
    ensures e.after == Restored(s)
  {
    var r := Restored(s);
    Effect(r, RestoreMsgs(num, r, colors), [], true)
  }

  /** Messages the commit of a source sends: name, colour, lights, ring and fader as the strip now has them. */
  function AssignedMsgs(num: int, s: StripState, colors: seq<int>): (m: seq<seq<int>>)
    requires |colors| == 8 && 0 <= num < 8 && 0 <= s.encMode < 4
    ensures |m| == 10 && m[..4] == WriteText(num, 0, s.sourceName) + WriteText(num, 1, "")
    ensures m[4] == ColorPayload(colors, num, s.colorIdx)
    ensures m[5..] == [[0x90, num, s.rec * 127], [0x90, num + 8, s.solo * 127], [0x90, num + 16, s.mute * 127],
                       [0xB0, num + 48, s.encValue + LedBase(s.encMode)], [0xE0 + num, 1, s.faderCurrent]]
  {
    WriteText(num, 0, s.sourceName) + WriteText(num, 1, "")
    + [ColorPayload(colors, num, s.colorIdx)]
    + Indicators(num, s)
    + [ControlChange(num + 48, Ring(s)), FaderPosition(num, s.faderCurrent)]
  }

  function ResetMsgs(num: int, colors: seq<int>): seq<seq<int>>
    requires |colors| == 8 && 0 <= num < 8
  {
    [ColorPayload(colors, num, Defaults.colorIdx)]
    + WriteText(num, 0, "") + WriteText(num, 1, "")
    + [ControlChange(num + 48, 0), NoteOn(num, 0), NoteOn(num + 8, 0), NoteOn(num + 16, 0), FaderPosition(num, 0)]
  }

  /** `reset`: factory defaults, a blank cell, every light, the ring and the fader off. */
  function Reset(num: int, colors: seq<int>): (e: Effect)
    requires |colors| == 8 && 0 <= num < 8
    ensures Valid(e.after) && e.ok && e.requested == []
    ensures e.after == Defaults
    ensures e.after.encMode == 3 && e.after.encValue == -81 && e.after.colorIdx == 7
    ensures e.after.sourceName == "" && e.after.sourceUuid == ""
    ensures e.after.rec == 0 && e.after.solo == 0 && e.after.mute == 0 && e.after.select == 0
    ensures |e.sent| == 10 && e.sent[0] == ColorPayload(colors, num, 7)
    ensures e.sent[1..5] == WriteText(num, 0, "") + WriteText(num, 1, "")
    ensures e.sent[5..] == [[0xB0, num + 48, 0], [0x90, num, 0], [0x90, num + 8, 0], [0x90, num + 16, 0], [0xE0 + num, 1, 0]]
  {
    Effect(Defaults, ResetMsgs(num, colors), [], true)
  }

  // ---------------------------------------------------------------------------
  // REC, SOLO and MUTE

  function Flag(s: StripState, c: Control): int
    requires c == Rec || c == Solo || c == Mute
  {
    match c
    case Rec => s.rec
    case Solo => s.solo
    case Mute => s.mute
  }

  function WithFlag(s: StripState, c: Control, v: int): StripState
    requires c == Rec || c == Solo || c == Mute
  {
    match c
    case Rec => s.(rec := v)
    case Solo => s.(solo := v)
    case Mute => s.(mute := v)
  }

  /** A flag press acts only on a full press (127) of an assigned strip outside the overlay. */
  predicate FlagPressActs(s: StripState, value: int)
  {
    value == 127 && s.select == 0 && s.sourceName != ""
  }

  /** The mixer request that follows a flag change to `v`. */
  function FlagRequest(uuid: string, c: Control, v: int): Request
    requires c == Rec || c == Solo || c == Mute
  {
    match c
    case Rec => SetInputAudioTracks(uuid, v != 0)
    case Solo => SetInputAudioMonitorType(uuid, if v == 1 then MonitorAndOutput else MonitorNone)
    case Mute => SetInputMute(uuid, v != 0)
  }

  /** The REC, SOLO and MUTE branches of `process_button`. */
  function FlagPress(num: int, s: StripState, c: Control, value: int): (e: Effect)
    requires c == Rec || c == Solo || c == Mute
    requires Valid(s)
    ensures Valid(e.after) && e.ok
    ensures Keeps(s, e.after)
    ensures !FlagPressActs(s, value) ==> e == Idle(s)
    ensures FlagPressActs(s, value) ==>
      && Flag(e.after, c) == 1 - Flag(s, c)
      && WithFlag(e.after, c, Flag(s, c)) == s
      && e.sent == [[0x90, num + Offset(c), Flag(e.after, c) * 127]]
      && e.requested == [FlagRequest(s.sourceUuid, c, Flag(e.after, c))]
  {
    if value == 127 && s.select == 0 && s.sourceName != "" then
      match c
      case Rec =>
        var t := s.(rec := 1 - s.rec);
        Effect(t, [NoteOn(num, t.rec * 127)], [SetInputAudioTracks(s.sourceUuid, t.rec != 0)], true)
      case Solo =>
        var t := s.(solo := 1 - s.solo);
        var monitoring := if t.solo == 1 then MonitorAndOutput else MonitorNone;
        Effect(t, [NoteOn(num + 8, t.solo * 127)], [SetInputAudioMonitorType(s.sourceUuid, monitoring)], true)
      case Mute =>
        var t := s.(mute := 1 - s.mute);
        Effect(t, [NoteOn(num + 16, t.mute * 127)], [SetInputMute(s.sourceUuid, t.mute != 0)], true)
    else Idle(s)
  }

  /** Two full presses of the same flag button restore the strip, lights off-on-off or on-off-on. */
  lemma FlagPressTwice(num: int, s: StripState, c: Control)
    requires c == Rec || c == Solo || c == Mute
    requires Valid(s) && FlagPressActs(s, 127)
    ensures var first := FlagPress(num, s, c, 127);
      && FlagPress(num, first.after, c, 127).after == s
      && first.sent == [NoteOn(num + Offset(c), (1 - Flag(s, c)) * 127)]
      && FlagPress(num, first.after, c, 127).sent == [NoteOn(num + Offset(c), Flag(s, c) * 127)]
  {
    var first := FlagPress(num, s, c, 127);
    assert FlagPressActs(first.after, 127) by {
      match c
      case Rec =>
      case Solo =>
      case Mute =>
    }
  }

  // ---------------------------------------------------------------------------
  // Encoder push and the selection overlay

  /** `0 ** option` for option 0 or 1: the overlay toggles between sources (0) and colours (1). */
  function ToggleOverlay(option: int): (r: int)
    requires Bit(option)
    ensures Bit(r) && r != option
  {
    if option == 0 then 1 else 0
  }

  /** Line 0 reads SOURCE and line 1 the name in slot `cursor`; ok is false where that slot is missing. */
  function ShowSource(num: int, s: StripState, reg: seq<Entry>, cursor: int): (e: Effect)
    ensures e.after == s && e.requested == []
    ensures e.ok <==> 0 <= cursor < |reg|
    ensures e.ok ==> e.sent == WriteText(num, 0, "SOURCE") + WriteText(num, 1, reg[cursor].name)
    ensures !e.ok ==> e.sent == WriteText(num, 0, "SOURCE")
  {
    match Lookup(reg, cursor)
    case None => Effect(s, WriteText(num, 0, "SOURCE"), [], false)
    case Some(entry) => Effect(s, WriteText(num, 0, "SOURCE") + WriteText(num, 1, entry.name), [], true)
  }

  /** Line 0 reads COLOR and line 1 the name of colour `c`. */
  function ShowColor(num: int, c: int): seq<seq<int>>
    requires 1 <= c <= 8
  {
    WriteText(num, 0, "COLOR") + WriteText(num, 1, ColorName(c))
  }

  /** The overlay page a strip opens on: its source slot, or its colour when the overlay shows colours. */
  function ShowPage(num: int, s: StripState, reg: seq<Entry>): (e: Effect)
    requires 1 <= s.colorIdx <= 8
    ensures e.after == s && e.requested == []
    ensures e.ok <==> s.option != 0 || 0 <= s.sourceIdx < |reg|
    ensures s.option == 0 ==>
      e.sent == WriteText(num, 0, "SOURCE") + (if e.ok then WriteText(num, 1, reg[s.sourceIdx].name) else [])
    ensures s.option != 0 ==> e.sent == WriteText(num, 0, "COLOR") + WriteText(num, 1, ColorName(s.colorIdx))
  {
    if s.option == 0 then ShowSource(num, s, reg, s.sourceIdx) else Effect(s, ShowColor(num, s.colorIdx), [], true)
  }

  /** The encoder-push branch of `process_button` (after the value check). */
  function PushEncoder(num: int, s: StripState, reg: seq<Entry>): (e: Effect)
    requires Valid(s)
    ensures Valid(e.after) && e.requested == []
    ensures Keeps(s, e.after)
    ensures s.select == 0 && s.sourceIdx != 0 ==>
      e.after == s.(encMode := NextEncMode(s.encMode)) && e.sent == [ControlChange(num + 48, Ring(e.after))] && e.ok
    ensures s.select == 0 && s.sourceIdx == 0 ==> e == Idle(s)
    ensures s.select == 1 ==> e.after == s.(option := 1 - s.option)
    ensures s.select == 1 && s.option == 1 ==> (e.ok <==> 0 <= s.sourceCnt < |reg|)
    ensures s.select == 1 && s.option == 1 ==>
      e.sent == WriteText(num, 0, "SOURCE") + (if e.ok then WriteText(num, 1, reg[s.sourceCnt].name) else [])
    ensures s.select == 1 && s.option == 0 ==>
      e.ok && e.sent == WriteText(num, 0, "COLOR") + WriteText(num, 1, ColorName(s.colorCnt))
  {
    if s.select == 0 then
      if s.sourceIdx != 0 then
        var t := s.(encMode := NextEncMode(s.encMode));
        Effect(t, [ControlChange(num + 48, Ring(t))], [], true)
      else Idle(s)
    else if s.select == 1 then
      var t := s.(option := ToggleOverlay(s.option));
      if t.option == 0 then ShowSource(num, t, reg, t.sourceCnt)
      else Effect(t, ShowColor(num, t.colorCnt), [], true)
    else Idle(s)
  }

  // ---------------------------------------------------------------------------
  // Encoder turn

  /** A turn value below 50 is a step up, above 50 a step down, 50 itself neither. */
  function TurnBalance(v: int, raw: int): int
  {
    if raw < 50 then (if v + 1 > 10 then 10 else v + 1)
    else if raw > 50 then (if v - 1 < 0 then 0 else v - 1)
    else v
  }

  /** An increment never leaves the balance above 10, a decrement never below 0. */
  lemma BalanceClamp(v: int, raw: int)
    ensures raw < 50 ==> TurnBalance(v, raw) <= 10 && (v < 10 ==> TurnBalance(v, raw) == v + 1)
    ensures raw > 50 ==> TurnBalance(v, raw) >= 0 && (v > 0 ==> TurnBalance(v, raw) == v - 1)
    ensures raw == 50 ==> TurnBalance(v, raw) == v
    ensures 0 <= v <= 10 ==> 0 <= TurnBalance(v, raw) <= 10
  {
  }

  /** The balance after a sequence of turns. */
  function TurnAll(v: int, raws: seq<int>): int
    decreases |raws|
  {
    if raws == [] then v else TurnAll(TurnBalance(v, raws[0]), raws[1..])
  }

  /** A balance within [0, 10] stays there under any sequence of turns. */
  lemma {:induction false} BalanceStaysInRange(v: int, raws: seq<int>)
    requires 0 <= v <= 10
    ensures 0 <= TurnAll(v, raws) <= 10
    decreases |raws|
  {
    if raws != [] {
      BalanceClamp(v, raws[0]);
      BalanceStaysInRange(TurnBalance(v, raws[0]), raws[1..]);
    }
  }

  function SourceUp(c: int, size: int): int { if c + 1 > size - 1 then size - 1 else c + 1 }

  function SourceDown(c: int): int { if c - 1 < 0 then 0 else c - 1 }

  function ColorUp(c: int): int { if c + 1 > 8 then 1 else c + 1 }

  function ColorDown(c: int): int { if c - 1 < 1 then 8 else c - 1 }

  /** The source cursor is clamped to the registry's slots: up never passes the last, down never passes 0. */
  lemma SourceCursorClamp(c: int, size: int)
    requires c >= 0 && size >= 2
    ensures 0 <= SourceUp(c, size) <= size - 1
    ensures 0 <= SourceDown(c)
    ensures c <= size - 1 ==> SourceDown(c) <= size - 1
    ensures 0 < c ==> SourceDown(c) == c - 1
    ensures c < size - 1 ==> SourceUp(c, size) == c + 1
  {
  }

  /** The colour cursor wraps within [1, 8] both ways, and a step down undoes a step up. */
  lemma ColorCursorWraps(c: int)
    requires 1 <= c <= 8
    ensures 1 <= ColorUp(c) <= 8 && 1 <= ColorDown(c) <= 8
    ensures ColorDown(ColorUp(c)) == c && ColorUp(ColorDown(c)) == c
    ensures ColorUp(8) == 1 && ColorDown(1) == 8
  {
  }

  /** `process_encoder`; `colors` are all strips' colour indices. */
  function Turn(num: int, s: StripState, raw: int, reg: seq<Entry>, colors: seq<int>): (e: Effect)
    requires Valid(s) && |colors| == 8 && 0 <= num < 8 && |reg| >= 2
    ensures Valid(e.after)
    ensures Keeps(s, e.after)
    ensures s.select == 0 && s.sourceIdx != 0 ==>
      && e.after == s.(encValue := TurnBalance(s.encValue, raw))
      && e.sent == [] && e.ok
      && e.requested == [SetInputAudioBalance(s.sourceUuid, e.after.encValue)]
    ensures s.select == 0 && s.sourceIdx == 0 ==> e == Idle(s)
    ensures s.select == 1 ==> e.requested == [] && e.after.sourceIdx == s.sourceIdx && e.after.colorIdx == s.colorIdx
    ensures s.select == 1 && s.option == 1 && raw != 50 ==>
      && e.after == s.(colorCnt := if raw < 50 then ColorUp(s.colorCnt) else ColorDown(s.colorCnt))
      && e.sent == ShowColor(num, e.after.colorCnt) + [ColorPayload(colors, num, e.after.colorCnt)]
      && e.ok
    ensures s.select == 1 && s.option == 0 && raw < 50 ==>
      e.after == s.(sourceCnt := SourceUp(s.sourceCnt, |reg|)) && e.ok
    ensures s.select == 1 && s.option == 0 && raw > 50 ==>
      e.after == s.(sourceCnt := SourceDown(s.sourceCnt)) && (e.ok <==> SourceDown(s.sourceCnt) < |reg|)
    ensures s.select == 1 && s.option == 0 && raw != 50 ==>
      e.sent == WriteText(num, 0, "SOURCE") + (if e.ok then WriteText(num, 1, reg[e.after.sourceCnt].name) else [])
    ensures s.select == 1 && raw == 50 ==> e == Idle(s)
  {
    if s.select == 0 then
      if s.sourceIdx != 0 then
        var t := s.(encValue := TurnBalance(s.encValue, raw));
        Effect(t, [], [SetInputAudioBalance(s.sourceUuid, t.encValue)], true)
      else Idle(s)
    else if s.select == 1 then
      if raw < 50 then
        if s.option == 0 then TurnSource(num, s, raw, reg)
        else if s.option == 1 then TurnColor(num, s, raw, colors)
        else Idle(s)
      else if raw > 50 then
        if s.option == 0 then TurnSource(num, s, raw, reg)
        else TurnColor(num, s, raw, colors)
      else Idle(s)
    else Idle(s)
  }

  /** A turn on the source page of the overlay: the cursor steps (clamped) and the page shows its slot. */
  function TurnSource(num: int, s: StripState, raw: int, reg: seq<Entry>): (e: Effect)
    requires raw != 50
  {
    var t := s.(sourceCnt := if raw < 50 then SourceUp(s.sourceCnt, |reg|) else SourceDown(s.sourceCnt));
    ShowSource(num, t, reg, t.sourceCnt)
  }

  /** A turn on the colour page of the overlay: the cursor steps (wrapping), shown on the page and on the surface. */
  function TurnColor(num: int, s: StripState, raw: int, colors: seq<int>): (e: Effect)
    requires raw != 50 && |colors| == 8 && 0 <= num < 8 && 1 <= s.colorCnt <= 8
  {
    var t := s.(colorCnt := if raw < 50 then ColorUp(s.colorCnt) else ColorDown(s.colorCnt));
    Effect(t, ShowColor(num, t.colorCnt) + [ColorPayload(colors, num, t.colorCnt)], [], true)
  }

  // ---------------------------------------------------------------------------
  // Fader and fader-echo suppression

  /** The quiet period after a local fader move: 0.3 s in nanoseconds. */
  const FaderTimeout := 300_000_000

  /** `process_fader`: an assigned strip outside the overlay takes the position and starts suppressing echoes. */
  function FaderMove(s: StripState, raw: int, now: int): (e: Effect)
    requires Valid(s)
    ensures Valid(e.after) && e.ok && e.sent == []
    ensures Keeps(s, e.after)
    ensures s.sourceName != "" && s.select == 0 ==>
      && e.after == s.(faderCurrent := raw, faderDelta := now, faderBusy := 1)
      && e.requested == [SetInputVolume(s.sourceUuid, raw)]
    ensures !(s.sourceName != "" && s.select == 0) ==> e == Idle(s)
  {
    if s.sourceName != "" && s.select == 0 then
      Effect(s.(faderCurrent := raw, faderDelta := now, faderBusy := 1), [], [SetInputVolume(s.sourceUuid, raw)], true)
    else Idle(s)
  }

  /** The main loop re-drives a strip's fader once its quiet period has passed. */
  predicate Due(s: StripState, now: int)
  {
    s.faderBusy != 0 && now - s.faderDelta > FaderTimeout
  }

  /** `pos_fader`. */
  function PosFader(num: int, s: StripState): (e: Effect)
    requires Valid(s)
    ensures Valid(e.after) && e.ok && e.requested == []
    ensures Keeps(s, e.after)
    ensures e.after == s.(faderBusy := 0) && e.sent == [FaderPosition(num, s.faderCurrent)]
  {
    Effect(s.(faderBusy := 0), [FaderPosition(num, s.faderCurrent)], [], true)
  }

  // ---------------------------------------------------------------------------
  // Mixer state echoes

  /**
   * The `update_*` handler for a mixer event on this strip: the volume echo is
   * dropped while a local fader move is pending (but not while selected);
   * the others are dropped while selected.
   */
  function Echo(num: int, s: StripState, ev: MixerEvent): (e: Effect)
    requires Valid(s)
    ensures Valid(e.after) && e.ok && e.requested == []
    ensures Keeps(s, e.after)
    ensures ev.VolumeChanged? && s.faderBusy != 0 ==> e == Idle(s)
    ensures ev.VolumeChanged? && s.faderBusy == 0 ==>
      e.after == s.(faderCurrent := ev.position) && e.sent == [FaderPosition(num, ev.position)]
    ensures !ev.VolumeChanged? && s.select != 0 ==> e == Idle(s)
    ensures ev.MuteChanged? && s.select == 0 ==>
      e.after == s.(mute := BoolToInt(ev.muted)) && e.sent == [[0x90, num + 16, if ev.muted then 127 else 0]]
    ensures ev.TracksChanged? && s.select == 0 ==>
      e.after == s.(rec := BoolToInt(ev.track2)) && e.sent == [[0x90, num, if ev.track2 then 127 else 0]]
    ensures ev.BalanceChanged? && s.select == 0 ==>
      e.after == s.(encValue := ev.tenths) && e.sent == [[0xB0, num + 48, ev.tenths + LedBase(s.encMode)]]
    ensures ev.MonitorChanged? && s.select == 0 ==>
      && (e.after.solo == 0 <==> ev.monitoring == MonitorNone)
      && e.after == s.(solo := e.after.solo) && e.sent == [[0x90, num + 8, e.after.solo * 127]]
  {
    match ev
    case VolumeChanged(_, position) =>
      if s.faderBusy != 0 then Idle(s)
      else Effect(s.(faderCurrent := position), [FaderPosition(num, position)], [], true)
    case MuteChanged(_, muted) =>
      if s.select == 0 then
        var t := s.(mute := BoolToInt(muted));
        Effect(t, [NoteOn(num + 16, t.mute * 127)], [], true)
      else Idle(s)
    case TracksChanged(_, track2) =>
      if s.select == 0 then
        var t := s.(rec := BoolToInt(track2));
        Effect(t, [NoteOn(num, t.rec * 127)], [], true)
      else Idle(s)
    case BalanceChanged(_, tenths) =>
      if s.select == 0 then
        var t := s.(encValue := tenths);
        Effect(t, [ControlChange(num + 48, Ring(t))], [], true)
      else Idle(s)
    case MonitorChanged(_, monitoring) =>
      if s.select == 0 then
        var t := s.(solo := if monitoring == MonitorNone then 0 else 1);
        Effect(t, [NoteOn(num + 8, t.solo * 127)], [], true)
      else Idle(s)
  }

  /**
   * Echo suppression over time: after a local move to `raw` at `t0`, a volume
   * echo is ignored until a main-loop tick later than 0.3 s has re-driven the
   * motor to `raw`; after that tick the next echo moves the fader again.
   */
  lemma FaderEchoTimeline(num: int, s: StripState, raw: int, t0: int, t1: int, uuid: string, pos: int)
    requires Valid(s) && s.sourceName != "" && s.select == 0
    ensures var moved := FaderMove(s, raw, t0).after;
      && moved.faderCurrent == raw && moved.faderBusy == 1
      && Echo(num, moved, VolumeChanged(uuid, pos)) == Idle(moved)
      && (t1 - t0 <= FaderTimeout ==> !Due(moved, t1))
      && (t1 - t0 > FaderTimeout ==>
            && Due(moved, t1)
            && PosFader(num, moved).sent == [FaderPosition(num, raw)]
            && Echo(num, PosFader(num, moved).after, VolumeChanged(uuid, pos)).after.faderCurrent == pos)
  {
  }

  /**
   * The solo flag read on assignment is set only for MONITOR_AND_OUTPUT, but
   * the monitor-type echo sets it for anything but NONE: the two disagree on
   * MONITOR_ONLY.
   */
  function SoloOnAssign(m: Monitoring): (r: int)
    ensures r == 0 || r == 1
    ensures r == 1 <==> m == MonitorAndOutput
  {
    if m == MonitorAndOutput then 1 else 0
  }

  lemma MonitorOnlyReadsDifferently(num: int, s: StripState, uuid: string)
    requires Valid(s) && s.select == 0
    ensures Echo(num, s, MonitorChanged(uuid, MonitorOnly)).after.solo == 1
    ensures SoloOnAssign(MonitorOnly) == 0
  {
  }
}
