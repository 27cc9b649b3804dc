/**
 * The bridge as the program runs it: eight `Strip` objects whose fields the
 * handlers update in place, and a `Host` holding them together with the
 * source registry and the two outgoing channels (messages sent to the
 * surface, requests issued to the mixer), each an append-only log.  Every
 * handler is proved to do what the corresponding function of `Strips` or
 * `Console` says.
 */
module Bridge {
  import opened Common
  import opened Surface
  import opened Sources
  import opened Mixer
  import opened Strips
  import opened Console

  lemma Assoc<T>(a: seq<T>, b: seq<T>, c: seq<T>)
    ensures a + b + c == a + (b + c)
  {
  }

  class Strip {
    const num: int
    var rec: int
    var solo: int
    var mute: int
    var select: int
    var encMode: int
    var encValue: int
    var sourceCnt: int
    var colorCnt: int
    var sourceIdx: int
    var colorIdx: int
    var option: int
    var faderCurrent: int
    var faderBusy: int
    var faderDelta: int
    var sourceName: string
    var sourceUuid: string

    /** The strip's fields as a value. */
    function Value(): StripState
      reads this
    {
      StripState(rec, solo, mute, select, encMode, encValue, sourceCnt, colorCnt,
                 sourceIdx, colorIdx, option, faderCurrent, faderBusy, faderDelta,
                 sourceName, sourceUuid)
    }

    /** `Strip(num)`: a strip starts with the factory defaults. */
    constructor (num: int)
      ensures this.num == num && Value() == Defaults
    {
      this.num := num;
      encMode := 3;
      encValue := -81;
      rec := 0;
      solo := 0;
      mute := 0;
      select := 0;
      colorCnt := 7;
      colorIdx := 7;
      option := 0;
      sourceName := "";
      sourceUuid := "";
      sourceCnt := 0;
      sourceIdx := 0;
      faderCurrent := 0;
      faderBusy := 0;
      faderDelta := 0;
    }

    /** This strip is the host's strip number `num`. */
    ghost predicate Member(h: Host)
    {
      h.Wired() && 0 <= num < 8 && h.strips[num] == this
    }

    /** After a handler of this strip alone: its fields and both logs are what effect `e` says. */
    ghost predicate Applied(h: Host, sent0: seq<seq<int>>, requested0: seq<Request>, e: Effect)
      reads this, h
    {
      Value() == e.after && h.sent == sent0 + e.sent && h.requested == requested0 + e.requested
    }

    // -------------------------------------------------------------------------
    // The display

    /** `write_text`. */
    method WriteText(h: Host, line: int, text: string)
      modifies h`sent
      ensures h.sent == old(h.sent) + Surface.WriteText(num, line, text)
    {
      if !(0 <= line <= 1) {
        return;
      }
      var shown := if |text| <= CellWidth then text else text[..CellWidth];
      var offset := 7 * num + 56 * line;
      h.Send(MackieHeader + [LcdCommand, offset] + [0, 0, 0, 0, 0, 0, 0] + [SysExEnd]);
      h.Send(MackieHeader + [LcdCommand, offset] + Codes(shown) + [SysExEnd]);
    }

    /** `change_lcd_color`: the colour indices of all strips, this strip's slot replaced by `clr`. */
    method ChangeLcdColor(h: Host, clr: int)
      requires Member(h)
      modifies h`sent
      ensures h.sent == old(h.sent) + [ColorPayload(h.ColorIdxs(), num, clr)]
    {
      var payload := MackieHeader + [ColorCommand];
      var j := 0;
      while j < 8
        invariant 0 <= j <= 8
        invariant payload == MackieHeader + [ColorCommand] + h.ColorIdxs()[..j]
      {
        assert h.ColorIdxs()[..j + 1] == h.ColorIdxs()[..j] + [h.strips[j].colorIdx];
        payload := payload + [h.strips[j].colorIdx];
        j := j + 1;
      }
      assert h.ColorIdxs()[..8] == h.ColorIdxs();
      payload := payload + [SysExEnd];
      payload := payload[num + 6 := clr];
      h.Send(payload);
    }

    /** Line 0 reads SOURCE, line 1 the name in registry slot `cursor`; false where the slot is missing. */
    method ShowSlot(h: Host, cursor: int) returns (ok: bool)
      modifies h`sent
      ensures var e := ShowSource(num, Value(), h.registry, cursor); h.sent == old(h.sent) + e.sent && ok == e.ok
    {
      WriteText(h, 0, "SOURCE");
      if 0 <= cursor < |h.registry| {
        WriteText(h, 1, h.registry[cursor].name);
        ok := true;
      } else {
        ok := false;
      }
    }

    /** The page the overlay opens on. */
    method ShowPage(h: Host) returns (ok: bool)
      requires 1 <= colorIdx <= 8
      modifies h`sent
      ensures var e := Strips.ShowPage(num, Value(), h.registry); h.sent == old(h.sent) + e.sent && ok == e.ok
    {
      if option == 0 {
        ok := ShowSlot(h, sourceIdx);
      } else {
        ShowColorPage(h, colorIdx);
        ok := true;
      }
    }

    /** Line 0 reads COLOR, line 1 the name of colour `c`. */
    method ShowColorPage(h: Host, c: int)
      requires 1 <= c <= 8
      modifies h`sent
      ensures h.sent == old(h.sent) + ShowColor(num, c)
    {
      WriteText(h, 0, "COLOR");
      WriteText(h, 1, ColorNames[c - 1]);
    }

    // -------------------------------------------------------------------------
    // reset and restore

    /** The state half of `reset`: the factory defaults back in every field. */
    method ClearFields()
      modifies this
      ensures Value() == Defaults
    {
      ClearLooks();
      ClearFlags();
      ClearSource();
      ClearFader();
    }

    method ClearLooks()
      modifies this`encMode, this`encValue, this`colorCnt, this`colorIdx, this`option
      ensures encMode == 3 && encValue == -81 && colorCnt == 7 && colorIdx == 7 && option == 0
    {
      encMode := 3;
      encValue := -81;
      colorCnt := 7;
      colorIdx := 7;
      option := 0;
    }

    method ClearFlags()
      modifies this`rec, this`solo, this`mute, this`select
      ensures rec == 0 && solo == 0 && mute == 0 && select == 0
    {
      rec := 0;
      solo := 0;
      mute := 0;
      select := 0;
    }

    method ClearSource()
      modifies this`sourceName, this`sourceUuid, this`sourceCnt, this`sourceIdx
      ensures sourceName == "" && sourceUuid == "" && sourceCnt == 0 && sourceIdx == 0
    {
      sourceName := "";
      sourceUuid := "";
      sourceCnt := 0;
      sourceIdx := 0;
    }

    method ClearFader()
      modifies this`faderCurrent, this`faderBusy, this`faderDelta
      ensures faderCurrent == 0 && faderBusy == 0 && faderDelta == 0
    {
      faderCurrent := 0;
      faderBusy := 0;
      faderDelta := 0;
    }

    /** The display half of `reset`: colour, blank cell, lights, ring and fader off. */
    method ShowReset(h: Host)
      requires Member(h)
      modifies h`sent
      ensures h.sent == old(h.sent) + ResetMsgs(num, h.ColorIdxs())
    {
      ghost var sent0 := h.sent;
      ChangeLcdColor(h, 7);
      WriteText(h, 0, "");
      WriteText(h, 1, "");
      var dark := [ControlChange(num + 48, 0), NoteOn(num, 0), NoteOn(num + 8, 0), NoteOn(num + 16, 0), FaderPosition(num, 0)];
      h.SendAll(dark);
      var cp := [ColorPayload(h.ColorIdxs(), num, 7)];
      Assoc(sent0, cp, Surface.WriteText(num, 0, ""));
      Assoc(sent0, cp + Surface.WriteText(num, 0, ""), Surface.WriteText(num, 1, ""));
      Assoc(sent0, cp + Surface.WriteText(num, 0, "") + Surface.WriteText(num, 1, ""), dark);
    }

    /** `reset`; the colour message carries the colours after this strip's own reset. */
    method Reset(h: Host)
      requires Member(h)
      modifies this, h`sent
      ensures Value() == Defaults
      ensures h.sent == old(h.sent) + ResetMsgs(num, h.ColorIdxs())
    {
      ClearFields();
      ShowReset(h);
    }

    /** The state half of `restore`: the cursors back on the committed choices, overlay off. */
    method Rewind()
      modifies this`sourceCnt, this`colorCnt, this`select
      ensures Value() == Restored(old(Value()))
    {
      sourceCnt := sourceIdx;
      colorCnt := colorIdx;
      select := 0;
    }

    /** The display half of `restore`: name, colour, lights, ring and fader as the state has them. */
    method ShowRestore(h: Host)
      requires Member(h) && 0 <= encMode < 4
      modifies h`sent
      ensures h.sent == old(h.sent) + RestoreMsgs(num, Value(), h.ColorIdxs())
    {
      ghost var sent0 := h.sent;
      WriteText(h, 0, sourceName);
      WriteText(h, 1, "");
      ChangeLcdColor(h, colorIdx);
      var lights := [NoteOn(num, rec * 127), NoteOn(num + 8, solo * 127), NoteOn(num + 16, mute * 127),
                     NoteOn(num + 24, select), ControlChange(num + 48, encValue + LedBases[encMode]),
                     FaderPosition(num, faderCurrent)];
      h.SendAll(lights);
      var t := Surface.WriteText(num, 0, sourceName) + Surface.WriteText(num, 1, "");
      var cp := [ColorPayload(h.ColorIdxs(), num, colorIdx)];
      Assoc(sent0, Surface.WriteText(num, 0, sourceName), Surface.WriteText(num, 1, ""));
      Assoc(sent0, t, cp);
      Assoc(sent0, t + cp, lights);
      assert lights == Indicators(num, Value()) + [NoteOn(num + 24, select), ControlChange(num + 48, Ring(Value())), FaderPosition(num, faderCurrent)];
    }

    /** `restore`. */
    method Restore(h: Host)
      requires Member(h) && Strips.Valid(Value())
      modifies this, h`sent
      ensures Value() == Restored(old(Value()))
      ensures h.sent == old(h.sent) + RestoreMsgs(num, Value(), h.ColorIdxs())
    {
      Rewind();
      ShowRestore(h);
    }

    // -------------------------------------------------------------------------
    // Handlers of this strip alone

    /** The REC, SOLO and MUTE branches of `process_button`. */
    method PressFlag(h: Host, c: Control, value: int)
      requires c == Rec || c == Solo || c == Mute
      requires Strips.Valid(Value())
      modifies this`rec, this`solo, this`mute, h`sent, h`requested
      ensures Applied(h, old(h.sent), old(h.requested), FlagPress(num, old(Value()), c, value))
    {
      if value == 127 {
        if select == 0 {
          if sourceName != "" {
            match c
            case Rec =>
              rec := 1 - rec;
              h.Send(NoteOn(num, rec * 127));
              h.Ask(SetInputAudioTracks(sourceUuid, rec != 0));
            case Solo =>
              solo := 1 - solo;
              var monitoring := if solo == 1 then MonitorAndOutput else MonitorNone;
              h.Send(NoteOn(num + 8, solo * 127));
              h.Ask(SetInputAudioMonitorType(sourceUuid, monitoring));
            case Mute =>
              mute := 1 - mute;
              h.Send(NoteOn(num + 16, mute * 127));
              h.Ask(SetInputMute(sourceUuid, mute != 0));
          }
        }
      }
    }

    /** The encoder-push branch of `process_button`, after the value check. */
    method PushEncoder(h: Host) returns (ok: bool)
      requires Strips.Valid(Value())
      modifies this`encMode, this`option, h`sent
      ensures var e := Strips.PushEncoder(num, old(Value()), h.registry);
        Applied(h, old(h.sent), h.requested, e) && ok == e.ok
    {
      ok := true;
      if select == 0 {
        if sourceIdx != 0 {
          encMode := encMode + 1;
          if encMode > |LedBases| - 1 {
            encMode := 0;
          }
          h.Send(ControlChange(num + 48, encValue + LedBases[encMode]));
        }
      } else if select == 1 {
        option := if option == 0 then 1 else 0;
        if option == 0 {
          ok := ShowSlot(h, sourceCnt);
        } else {
          ShowColorPage(h, colorCnt);
        }
      }
    }

    /** `process_encoder`, for the turn value `raw`. */
    method ProcessEncoder(h: Host, raw: int) returns (ok: bool)
      requires Member(h) && Strips.Valid(Value()) && |h.registry| >= 2
      modifies this`encValue, this`sourceCnt, this`colorCnt, h`sent, h`requested
      ensures var e := Turn(num, old(Value()), raw, h.registry, old(h.ColorIdxs()));
        Applied(h, old(h.sent), old(h.requested), e) && ok == e.ok
      ensures h.registry == old(h.registry)
    {
      assert select == 0 || select == 1;
      ok := true;
      if select == 0 {
        TurnBalance(h, raw);
      }
      if select == 1 {
        ok := TurnCursor(h, raw);
      }
    }

    /** The half of `process_encoder` outside the overlay: a strip with a source steps its balance. */
    method TurnBalance(h: Host, raw: int)
      requires Member(h) && Strips.Valid(Value()) && |h.registry| >= 2 && select == 0
      modifies this`encValue, h`requested
      ensures Applied(h, h.sent, old(h.requested), Turn(num, old(Value()), raw, h.registry, old(h.ColorIdxs())))
    {
      if sourceIdx != 0 {
        StepBalance(h, raw);
      }
    }

    /** The balance step of `process_encoder`, clamped to [0, 10], and the request that follows it. */
    method StepBalance(h: Host, raw: int)
      modifies this`encValue, h`requested
      ensures Value() == old(Value()).(encValue := Strips.TurnBalance(old(encValue), raw))
      ensures h.requested == old(h.requested) + [SetInputAudioBalance(sourceUuid, encValue)]
    {
      if raw < 50 {
        encValue := encValue + 1;
        if encValue > 10 {
          encValue := 10;
        }
      } else if raw > 50 {
        encValue := encValue - 1;
        if encValue < 0 {
          encValue := 0;
        }
      }
      h.Ask(SetInputAudioBalance(sourceUuid, encValue));
    }

    /** The overlay half of `process_encoder`: the source or colour cursor follows the turn. */
    method TurnCursor(h: Host, raw: int) returns (ok: bool)
      requires Member(h) && Strips.Valid(Value()) && |h.registry| >= 2 && select == 1
      modifies this`sourceCnt, this`colorCnt, h`sent
      ensures var e := Turn(num, old(Value()), raw, h.registry, h.ColorIdxs());
        Applied(h, old(h.sent), h.requested, e) && ok == e.ok
    {
      ok := true;
      if raw < 50 {
        if option == 0 {
          ok := MoveSourceCursor(h, raw);
        } else if option == 1 {
          MoveColorCursor(h, raw);
        }
      } else if raw > 50 {
        if option == 0 {
          ok := MoveSourceCursor(h, raw);
        } else {
          MoveColorCursor(h, raw);
        }
      }
    }

    /** A step of the source cursor, clamped to the registry's slots, and the page for the new slot. */
    method MoveSourceCursor(h: Host, raw: int) returns (ok: bool)
      requires raw != 50
      modifies this`sourceCnt, h`sent
      ensures var e := TurnSource(num, old(Value()), raw, h.registry);
        Applied(h, old(h.sent), h.requested, e) && ok == e.ok
    {
      if raw < 50 {
        sourceCnt := sourceCnt + 1;
        if sourceCnt > |h.registry| - 1 {
          sourceCnt := |h.registry| - 1;
        }
      } else {
        sourceCnt := sourceCnt - 1;
        if sourceCnt < 0 {
          sourceCnt := 0;
        }
      }
      ok := ShowSlot(h, sourceCnt);
    }

    /** A step of the colour cursor, wrapping within [1, 8], with the page and the surface colour for it. */
    method MoveColorCursor(h: Host, raw: int)
      requires Member(h) && raw != 50 && 1 <= colorCnt <= 8
      modifies this`colorCnt, h`sent
      ensures Applied(h, old(h.sent), h.requested, TurnColor(num, old(Value()), raw, h.ColorIdxs()))
    {
      if raw < 50 {
        colorCnt := colorCnt + 1;
        if colorCnt > 8 {
          colorCnt := 1;
        }
      } else {
        colorCnt := colorCnt - 1;
        if colorCnt < 1 {
          colorCnt := 8;
        }
      }
      ShowColorPage(h, colorCnt);
      ChangeLcdColor(h, colorCnt);
    }

    /** `process_fader`, for the position `raw` at time `now` (nanoseconds). */
    method ProcessFader(h: Host, raw: int, now: int)
      requires Strips.Valid(Value())
      modifies this`faderCurrent, this`faderDelta, this`faderBusy, h`requested
      ensures Applied(h, h.sent, old(h.requested), FaderMove(old(Value()), raw, now))
    {
      if sourceName != "" {
        if select == 0 {
          faderCurrent := raw;
          faderDelta := now;
          faderBusy := 1;
          h.Ask(SetInputVolume(sourceUuid, raw));
        }
      }
    }

    /** `pos_fader`. */
    method PosFader(h: Host)
      requires Strips.Valid(Value())
      modifies this`faderBusy, h`sent
      ensures Applied(h, old(h.sent), h.requested, Strips.PosFader(num, old(Value())))
    {
      h.Send(FaderPosition(num, faderCurrent));
      faderBusy := 0;
    }

    /** The `update_*` handler that event `ev` calls for. */
    method Update(h: Host, ev: MixerEvent)
      requires Strips.Valid(Value()) && sourceUuid == ev.uuid
      modifies this`faderCurrent, this`mute, this`rec, this`encValue, this`solo, h`sent
      ensures Applied(h, old(h.sent), h.requested, Echo(num, old(Value()), ev))
    {
      match ev
      case VolumeChanged(_, position) => UpdateFader(h, position);
      case MuteChanged(_, muted) => UpdateMute(h, muted);
      case TracksChanged(_, track2) => UpdateTrack(h, track2);
      case BalanceChanged(_, tenths) => UpdateBalance(h, tenths);
      case MonitorChanged(_, monitoring) => UpdateMonitor(h, monitoring);
    }

    /** `update_fader`, for a volume already converted to a fader position. */
    method UpdateFader(h: Host, position: int)
      requires Strips.Valid(Value())
      modifies this`faderCurrent, h`sent
      ensures Applied(h, old(h.sent), h.requested, Echo(num, old(Value()), VolumeChanged(sourceUuid, position)))
    {
      if faderBusy != 0 {
        return;
      }
      faderCurrent := position;
      h.Send(FaderPosition(num, faderCurrent));
    }

    /** `update_mute`. */
    method UpdateMute(h: Host, muted: bool)
      requires Strips.Valid(Value())
      modifies this`mute, h`sent
      ensures Applied(h, old(h.sent), h.requested, Echo(num, old(Value()), MuteChanged(sourceUuid, muted)))
    {
      if select == 0 {
        mute := BoolToInt(muted);
        h.Send(NoteOn(num + 16, mute * 127));
      }
    }

    /** `update_track`: track 2 is the one REC stands for. */
    method UpdateTrack(h: Host, track2: bool)
      requires Strips.Valid(Value())
      modifies this`rec, h`sent
      ensures Applied(h, old(h.sent), h.requested, Echo(num, old(Value()), TracksChanged(sourceUuid, track2)))
    {
      if select == 0 {
        rec := BoolToInt(track2);
        h.Send(NoteOn(num, rec * 127));
      }
    }

    /** `update_balance`, for a balance already rounded to tenths. */
    method UpdateBalance(h: Host, tenths: int)
      requires Strips.Valid(Value())
      modifies this`encValue, h`sent
      ensures Applied(h, old(h.sent), h.requested, Echo(num, old(Value()), BalanceChanged(sourceUuid, tenths)))
    {
      if select == 0 {
        encValue := tenths;
        h.Send(ControlChange(num + 48, encValue + LedBases[encMode]));
      }
    }

    /** `update_monitor`. */
    method UpdateMonitor(h: Host, monitoring: Monitoring)
      requires Strips.Valid(Value())
      modifies this`solo, h`sent
      ensures Applied(h, old(h.sent), h.requested, Echo(num, old(Value()), MonitorChanged(sourceUuid, monitoring)))
    {
      if select == 0 {
        solo := if monitoring == MonitorNone then 0 else 1;
        h.Send(NoteOn(num + 8, solo * 127));
      }
    }

    /** The select flag toggled, and its light set to the new flag (0 or 1). */
    method ToggleSelect(h: Host)
      modifies this`select, h`sent
      ensures Value() == old(Value()).(select := 1 - old(select))
      ensures h.sent == old(h.sent) + [NoteOn(num + 24, select)]
    {
      select := 1 - select;
      h.Send(NoteOn(num + 24, select));
    }

    /** Committing the colour cursor: the colour chosen becomes the strip's colour. */
    method SettleColor()
      modifies this`colorIdx
      ensures Value() == old(Value()).(colorIdx := old(colorCnt))
    {
      colorIdx := colorCnt;
    }

    /** A newly assigned source takes over the colour and ring mode of every strip holding it, the last one winning. */
    method TakeLooks(h: Host, id: string)
      requires Member(h) && sourceUuid != id
      modifies this`colorCnt, this`colorIdx, this`encMode
      ensures Value() == CopyLooks(old(Value()), old(h.Bank()), id, 8)
    {
      ghost var b0 := h.Bank();
      ghost var s0 := Value();
      for j := 0 to 8
        invariant Value() == CopyLooks(s0, b0, id, j)
      {
        var other := h.strips[j];
        assert other.sourceUuid == b0[j].sourceUuid;
        if other.sourceUuid == id {
          assert other != this && other.colorIdx == b0[j].colorIdx && other.encMode == b0[j].encMode;
          colorCnt := other.colorIdx;
          colorIdx := other.colorIdx;
          encMode := other.encMode;
        }
      }
    }

    /** The five reads for a newly assigned source, then their answers stored with the name, id and slot. */
    method FetchSource(h: Host, e: Entry, rep: SourceReport)
      modifies this`solo, this`encValue, this`rec, this`mute, this`faderCurrent
      modifies this`sourceName, this`sourceUuid, this`sourceIdx, h`requested
      ensures Value() == Fetched(old(Value()), e, rep)
      ensures h.requested == old(h.requested) + FetchRequests(e.id)
      ensures h.registry == old(h.registry) && h.sent == old(h.sent)
    {
      h.AskAll(FetchRequests(e.id));
      TakeFlags(rep);
      TakeLevels(rep);
      TakeName(e);
    }

    /** Monitoring, track 2 and mute as the mixer reported them. */
    method TakeFlags(rep: SourceReport)
      modifies this`solo, this`rec, this`mute
      ensures Value() == old(Value()).(solo := SoloOnAssign(rep.monitoring), rec := BoolToInt(rep.track2), mute := BoolToInt(rep.muted))
    {
      solo := SoloOnAssign(rep.monitoring);
      rec := BoolToInt(rep.track2);
      mute := BoolToInt(rep.muted);
    }

    /** Balance and volume as the mixer reported them; the source cursor becomes the slot. */
    method TakeLevels(rep: SourceReport)
      modifies this`encValue, this`faderCurrent, this`sourceIdx
      ensures Value() == old(Value()).(encValue := rep.balance, faderCurrent := rep.position, sourceIdx := old(sourceCnt))
    {
      encValue := rep.balance;
      faderCurrent := rep.position;
      sourceIdx := sourceCnt;
    }

    method TakeName(e: Entry)
      modifies this`sourceName, this`sourceUuid
      ensures Value() == old(Value()).(sourceName := e.name, sourceUuid := e.id)
    {
      sourceName := e.name;
      sourceUuid := e.id;
    }

    /** The display half of a source commit: name, colour (the cursor follows it), lights, ring and fader. */
    method ShowAssigned(h: Host)
      requires Member(h) && 0 <= encMode < 4
      modifies this`colorCnt, h`sent
      ensures Value() == old(Value()).(colorCnt := old(colorIdx))
      ensures h.sent == old(h.sent) + AssignedMsgs(num, old(Value()), old(h.ColorIdxs()))
    {
      ShowCommitted(h);
      colorCnt := colorIdx;
    }

    method ShowCommitted(h: Host)
      requires Member(h) && 0 <= encMode < 4
      modifies h`sent
      ensures h.sent == old(h.sent) + AssignedMsgs(num, Value(), h.ColorIdxs())
    {
      ghost var sent0 := h.sent;
      WriteText(h, 0, sourceName);
      WriteText(h, 1, "");
      ChangeLcdColor(h, colorIdx);
      var lights := [NoteOn(num, rec * 127), NoteOn(num + 8, solo * 127), NoteOn(num + 16, mute * 127),
                     ControlChange(num + 48, encValue + LedBases[encMode]), FaderPosition(num, faderCurrent)];
      h.SendAll(lights);
      var t := Surface.WriteText(num, 0, sourceName) + Surface.WriteText(num, 1, "");
      var cp := [ColorPayload(h.ColorIdxs(), num, colorIdx)];
      Assoc(sent0, Surface.WriteText(num, 0, sourceName), Surface.WriteText(num, 1, ""));
      Assoc(sent0, t, cp);
      Assoc(sent0, t + cp, lights);
      assert lights == Indicators(num, Value()) + [ControlChange(num + 48, Ring(Value())), FaderPosition(num, faderCurrent)];
    }
  }

  class Host {
    /** `strips`: the eight strips, keyed by their number. */
    const strips: seq<Strip>
    /** `obs_inputs`: slot i of the dictionary is element i. */
    var registry: seq<Entry>
    /** Everything sent to the surface, oldest first. */
    var sent: seq<seq<int>>
    /** Every request issued to the mixer, oldest first. */
    var requested: seq<Request>
    /** False once a handler of the main loop has raised: the loop is over, the callbacks go on. */
    var running: bool

    ghost predicate Wired()
    {
      |strips| == 8 && forall j :: 0 <= j < 8 ==> strips[j].num == j
    }

    /** The strips' states, in strip order. */
    ghost function Bank(): (b: seq<StripState>)
      requires Wired()
      reads strips
      ensures |b| == 8 && forall j :: 0 <= j < 8 ==> b[j] == strips[j].Value()
    {
      Values(0)
    }

    ghost function Values(i: nat): (b: seq<StripState>)
      requires Wired() && i <= 8
      reads strips
      ensures |b| == 8 - i && forall j :: i <= j < 8 ==> b[j - i] == strips[j].Value()
      decreases 8 - i
    {
      if i == 8 then [] else [strips[i].Value()] + Values(i + 1)
    }

    /** Every strip's colour index, in strip order. */
    ghost function ColorIdxs(): (c: seq<int>)
      requires Wired()
      reads strips
      ensures |c| == 8
    {
      [strips[0].colorIdx, strips[1].colorIdx, strips[2].colorIdx, strips[3].colorIdx,
       strips[4].colorIdx, strips[5].colorIdx, strips[6].colorIdx, strips[7].colorIdx]
    }

    lemma ColorsOfBank()
      requires Wired()
      ensures ColorIdxs() == Colors(Bank())
    {
    }

    /** Only strip k changed since the bank was `before`. */
    lemma Updated(before: seq<StripState>, k: int)
      requires Wired() && |before| == 8 && 0 <= k < 8
      requires forall j :: 0 <= j < 8 && j != k ==> strips[j].Value() == before[j]
      ensures Bank() == before[k := strips[k].Value()]
    {
    }

    ghost function State(): World
      requires Wired()
      reads this, strips
    {
      World(Bank(), registry)
    }

    /** What the handlers need: the strips wired, each in range, the registry's sentinels in place. */
    ghost predicate Ready()
      reads this, strips
    {
      Wired() && Shaped(State())
    }

    /** The state and both logs are what outcome `o` says, starting from logs `sent0` and `requested0`. */
    ghost predicate Did(sent0: seq<seq<int>>, requested0: seq<Request>, o: Outcome)
      requires Wired()
      reads this, strips
    {
      State() == o.world && sent == sent0 + o.sent && requested == requested0 + o.requested
    }

    /** The eight strips with their defaults, the sentinel-only registry, nothing sent or asked yet. */
    constructor ()
      ensures Wired() && Bank() == seq(8, j => Defaults) && registry == Initial
      ensures sent == [] && requested == [] && running
    {
      var ss: seq<Strip> := [];
      for j := 0 to 8
        invariant |ss| == j
        invariant forall i :: 0 <= i < j ==> ss[i].num == i && ss[i].Value() == Defaults
      {
        var st := new Strip(j);
        ss := ss + [st];
      }
      strips := ss;
      registry := Initial;
      sent := [];
      requested := [];
      running := true;
      new;
      assert Bank() == seq(8, j => Defaults);
    }

    /** The refill half of a select press: input i written into slot i + 2, one monitor-type probe per input. */
    method RefillRegistry(inputs: seq<Entry>) returns (probes: seq<Request>)
      requires |registry| >= 2
      modifies this`registry
      ensures registry == Refill(old(registry), inputs)
      ensures probes == ProbeRequests(inputs)
    {
      probes := [];
      var i := 0;
      while i < |inputs|
        invariant 0 <= i <= |inputs|
        invariant registry == Refill(old(registry), inputs[..i])
        invariant probes == ProbeRequests(inputs[..i])
      {
        assert inputs[..i + 1] == inputs[..i] + [inputs[i]];
        RefillStep(old(registry), inputs[..i], inputs[i]);
        ProbeStep(inputs[..i], inputs[i]);
        if i + 2 < |registry| {
          registry := registry[i + 2 := inputs[i]];
        } else {
          registry := registry + [inputs[i]];
        }
        probes := probes + [GetInputAudioMonitorType(inputs[i].id)];
        i := i + 1;
      }
      assert inputs[..i] == inputs;
    }

    /**
     * `filter_audio_inputs`: the probes go out as one batch; the slot of every
     * failed probe is dropped and the survivors are renumbered in order.
     */
    method FilterAudioInputs(reqs: seq<Request>, oks: seq<bool>)
      requires |registry| >= 2 + |oks|
      modifies this`registry, this`requested
      ensures requested == old(requested) + [Batch(reqs)]
      ensures registry == Filter(old(registry), oks)
    {
      Ask(Batch(reqs));
      var mask := SlotMask(|registry|, oks);
      var live := Survivors(oks);
      registry := Compact(live, mask);
    }

    /** The slots that survive the probes `oks`, with their entries: the dictionary after the deletions. */
    method Survivors(oks: seq<bool>) returns (live: map<int, Entry>)
      requires |registry| >= 2 + |oks|
      ensures forall k :: k in live <==> 0 <= k < |registry| && SlotMask(|registry|, oks)[k]
      ensures forall k :: k in live ==> live[k] == registry[k]
    {
      live := map k | 0 <= k < |registry| :: registry[k];
      for i := 0 to |oks|
        invariant forall k :: k in live <==> 0 <= k < |registry| && !(2 <= k < 2 + i && !oks[k - 2])
        invariant forall k :: k in live ==> live[k] == registry[k]
      {
        if !oks[i] {
          live := live - {i + 2};
        }
      }
    }

    /** The surviving entries renumbered from 0 in slot order. */
    method Compact(live: map<int, Entry>, mask: seq<bool>) returns (out: seq<Entry>)
      requires |mask| == |registry|
      requires forall k :: k in live <==> 0 <= k < |registry| && mask[k]
      requires forall k :: k in live ==> live[k] == registry[k]
      ensures out == Keep(registry, mask)
    {
      out := [];
      for k := 0 to |registry|
        invariant out == Keep(registry[..k], mask[..k])
      {
        assert registry[..k + 1][..k] == registry[..k] && mask[..k + 1][..k] == mask[..k];
        if k in live {
          out := out + [live[k]];
        }
      }
      assert registry[..|registry|] == registry && mask[..|registry|] == mask;
    }

    /** The search of the mixer callbacks: the first strip, in strip order, holding source `id`, or -1. */
    method FindHolder(id: string) returns (k: int)
      requires Wired()
      ensures k == FirstHolder(Bank(), id)
    {
      var j := 0;
      while j < 8
        invariant 0 <= j <= 8
        invariant forall i :: 0 <= i < j ==> strips[i].sourceUuid != id
      {
        if strips[j].sourceUuid == id {
          return j;
        }
        j := j + 1;
      }
      return -1;
    }

    /** Strip k alone ran a handler with effect `e`, starting from bank `bank0` and logs `sent0`, `requested0`. */
    ghost predicate Stepped(k: int, bank0: seq<StripState>, sent0: seq<seq<int>>, requested0: seq<Request>, e: Effect)
      requires Wired() && 0 <= k < 8 && |bank0| == 8
      reads this, strips
    {
      Bank() == bank0[k := e.after] && sent == sent0 + e.sent && requested == requested0 + e.requested
    }

    /** A step of strip k alone is the console outcome `Lift` describes. */
    lemma Lifted(k: int, w0: World, sent0: seq<seq<int>>, requested0: seq<Request>, e: Effect)
      requires Wired() && 0 <= k < 8 && |w0.bank| == 8 && registry == w0.registry
      requires Stepped(k, w0.bank, sent0, requested0, e)
      ensures Did(sent0, requested0, Lift(w0, k, e))
    {
    }

    /**
     * The five mixer callbacks (`obs_slider_callback`, `obs_mute_callback`,
     * `obs_track_callback`, `obs_balance_callback`, `obs_monitor_callback`):
     * the first strip holding the event's source runs its `update_*` handler.
     */
    method OnMixerEvent(ev: MixerEvent)
      requires Ready()
      modifies this`sent, strips
      ensures Did(old(sent), old(requested), Deliver(old(State()), ev))
    {
      var k := FindHolder(ev.uuid);
      if k >= 0 {
        DeliverToHolder(State(), ev);
        EchoHolder(k, ev);
      }
    }

    /** Strip k, holding the event's source, echoes it. */
    method EchoHolder(k: int, ev: MixerEvent)
      requires Wired() && 0 <= k < 8 && Strips.Valid(strips[k].Value()) && strips[k].sourceUuid == ev.uuid
      modifies this`sent, strips
      ensures Did(old(sent), old(requested), Lift(old(State()), k, Echo(k, old(Bank())[k], ev)))
    {
      ghost var w0 := State();
      EchoOne(k, ev);
      Lifted(k, w0, old(sent), old(requested), Echo(k, w0.bank[k], ev));
    }

    /** The `update_*` handler of strip k for event `ev`. */
    method EchoOne(k: int, ev: MixerEvent)
      requires Wired() && 0 <= k < 8 && Strips.Valid(strips[k].Value()) && strips[k].sourceUuid == ev.uuid
      modifies this`sent, strips[k]
      ensures Stepped(k, old(Bank()), old(sent), old(requested), Echo(k, old(Bank())[k], ev))
    {
      ghost var before := Bank();
      strips[k].Update(this, ev);
      Updated(before, k);
    }

    /** The fader-echo part of the main loop at time `now`: every due strip re-drives its fader. */
    method Tick(now: int)
      requires Ready()
      modifies this`sent, strips
      ensures Did(old(sent), old(requested), Console.Tick(old(State()), now))
    {
      ghost var b0 := Bank();
      for j := 0 to 8
        invariant Bank() == TickAll(b0, now, j).bank
        invariant sent == old(sent) + TickAll(b0, now, j).sent
      {
        ghost var p := TickAll(b0, now, j);
        TickOne(now, j);
        Assoc(old(sent), p.sent, TickStrip(p.bank, now, j).sent);
      }
    }

    /** One strip of the tick. */
    method TickOne(now: int, j: int)
      requires Wired() && 0 <= j < 8 && AllValid(Bank())
      modifies this`sent, strips[j]
      ensures Stepped(j, old(Bank()), old(sent), old(requested), TickStrip(old(Bank()), now, j))
    {
      var st := strips[j];
      if st.faderBusy != 0 && now - st.faderDelta > FaderTimeout {
        ghost var before := Bank();
        st.PosFader(this);
        Updated(before, j);
      }
    }

    /** The start of `main`: every strip reset, in strip order. */
    method Start()
      requires Wired()
      modifies this`sent, strips
      ensures Did(old(sent), old(requested), Console.Start(old(State())))
    {
      ghost var b0 := Bank();
      for j := 0 to 8
        invariant Bank() == ResetAll(b0, j).bank
        invariant sent == old(sent) + ResetAll(b0, j).sent
      {
        ghost var p := ResetAll(b0, j);
        ResetOne(j);
        Assoc(old(sent), p.sent, Strips.Reset(j, Colors(p.bank[j := Defaults])).sent);
      }
    }

    /** `reset` of strip j. */
    method ResetOne(j: int)
      requires Wired() && 0 <= j < 8
      modifies this`sent, strips[j]
      ensures Stepped(j, old(Bank()), old(sent), old(requested), Strips.Reset(j, Colors(old(Bank())[j := Defaults])))
      ensures registry == old(registry)
    {
      ghost var before := Bank();
      strips[j].Reset(this);
      Updated(before, j);
      ColorsOfBank();
    }

    /** `restore` of strip j. */
    method RestoreOne(j: int)
      requires Wired() && 0 <= j < 8 && Strips.Valid(strips[j].Value())
      modifies this`sent, strips[j]
      ensures Stepped(j, old(Bank()), old(sent), old(requested), Restore(j, old(Bank())[j], Colors(old(Bank()))))
      ensures registry == old(registry)
    {
      ghost var before := Bank();
      strips[j].Restore(this);
      Updated(before, j);
      ColorsOfBank();
      ColorsKept(before, j, strips[j].Value());
    }

    /** One strip of the eviction that follows an assignment of `id` to strip k. */
    method EvictOne(k: int, id: string, j: int)
      requires Wired() && 0 <= j < 8
      modifies this`sent, strips[j]
      ensures Stepped(j, old(Bank()), old(sent), old(requested), EvictStrip(old(Bank()), k, id, j))
    {
      var st := strips[j];
      if st.sourceUuid == id && st.num != k {
        ResetOne(j);
      }
    }

    /** Messages `msgs` went out, then outcome `o` happened. */
    lemma Chained(sent0: seq<seq<int>>, requested0: seq<Request>, msgs: seq<seq<int>>, o: Outcome)
      requires Wired() && Did(sent0 + msgs, requested0, o)
      ensures Did(sent0, requested0, Preceded(msgs, o))
    {
      Assoc(sent0, msgs, o.sent);
    }

    /** Outcome `o1` happened, then outcome `o2`. */
    lemma Sequenced(sent0: seq<seq<int>>, requested0: seq<Request>, o1: Outcome, o2: Outcome)
      requires Wired() && Did(sent0 + o1.sent, requested0 + o1.requested, o2)
      ensures Did(sent0, requested0, Then(o1, o2))
    {
      Assoc(sent0, o1.sent, o2.sent);
      Assoc(requested0, o1.requested, o2.requested);
    }

    // -------------------------------------------------------------------------
    // process_button

    /** `process_button` of strip k for control `button` at velocity `value`. */
    method ProcessButton(k: int, button: int, value: int, r: Replies) returns (ok: bool)
      requires Ready() && 0 <= k < 8 && |r.probes| == |r.inputs|
      modifies this`sent, this`requested, this`registry, strips
      ensures var o := ButtonPress(old(State()), k, button, value, r); Did(old(sent), old(requested), o) && ok == o.ok
    {
      ok := true;
      var c := ControlOf(k, button);
      match c
      case Rec => FlagOne(k, c, value);
      case Solo => FlagOne(k, c, value);
      case Mute => FlagOne(k, c, value);
      case Select =>
        if value == 127 {
          ok := PressSelect(k, r);
        }
      case EncoderPush =>
        if value == 127 {
          ok := PushOne(k);
        }
      case Touch =>
    }

    /** The REC, SOLO or MUTE branch on strip k. */
    method FlagOne(k: int, c: Control, value: int)
      requires Wired() && 0 <= k < 8 && Strips.Valid(strips[k].Value())
      requires c == Rec || c == Solo || c == Mute
      modifies this`sent, this`requested, strips[k]
      ensures Did(old(sent), old(requested), Lift(old(State()), k, FlagPress(k, old(Bank())[k], c, value)))
    {
      ghost var w0 := State();
      ghost var e := FlagPress(k, w0.bank[k], c, value);
      strips[k].PressFlag(this, c, value);
      Updated(w0.bank, k);
      Lifted(k, w0, old(sent), old(requested), e);
    }

    /** The encoder-push branch on strip k. */
    method PushOne(k: int) returns (ok: bool)
      requires Wired() && 0 <= k < 8 && Strips.Valid(strips[k].Value())
      modifies this`sent, strips[k]
      ensures var e := Strips.PushEncoder(k, old(Bank())[k], registry);
        Did(old(sent), old(requested), Lift(old(State()), k, e)) && ok == e.ok
    {
      ghost var w0 := State();
      ok := strips[k].PushEncoder(this);
      Updated(w0.bank, k);
      Lifted(k, w0, old(sent), old(requested), Strips.PushEncoder(k, w0.bank[k], registry));
    }

    /** The SELECT branch on strip k, for a full press. */
    method PressSelect(k: int, r: Replies) returns (ok: bool)
      requires Ready() && 0 <= k < 8 && |r.probes| == |r.inputs|
      modifies this`sent, this`requested, this`registry, strips
      ensures var o := SelectPress(old(State()), k, r); Did(old(sent), old(requested), o) && ok == o.ok
    {
      ghost var w0 := State();
      StartSelect(k);
      ok := FollowSelect(k, r);
      SelectLifted(k, r, w0, old(sent), old(requested));
    }

    /** The start of a select press on strip k, as the console describes it. */
    method StartSelect(k: int)
      requires Ready() && 0 <= k < 8
      modifies this`sent, strips
      ensures Ready() && State() == Toggled(old(State()), k) && sent == old(sent) + ToggleMsgs(old(State()), k)
      ensures requested == old(requested)
    {
      ghost var w0 := State();
      ToggleSelection(k, w0.bank);
      ToggleLifted(k, w0, old(sent));
      SelectedWorldShaped(w0, k);
    }

    /** The start of a select press followed by what the new select flag calls for is the whole press. */
    lemma SelectLifted(k: int, r: Replies, w0: World, sent0: seq<seq<int>>, requested0: seq<Request>)
      requires Wired() && Shaped(w0) && 0 <= k < 8 && |r.probes| == |r.inputs| && Shaped(Toggled(w0, k))
      requires var w2 := Toggled(w0, k);
        Did(sent0 + ToggleMsgs(w0, k), requested0, if w2.bank[k].select == 1 then Enter(w2, k, r) else Commit(w2, k, r.report))
      ensures Did(sent0, requested0, SelectPress(w0, k, r))
    {
      SelectPressShape(w0, k, r);
      var w2 := Toggled(w0, k);
      Chained(sent0, requested0, ToggleMsgs(w0, k), if w2.bank[k].select == 1 then Enter(w2, k, r) else Commit(w2, k, r.report));
    }

    /** After the toggle: entering the overlay if strip k is now selected, leaving it otherwise. */
    method FollowSelect(k: int, r: Replies) returns (ok: bool)
      requires Ready() && 0 <= k < 8 && |r.probes| == |r.inputs|
      modifies this`sent, this`requested, this`registry, strips
      ensures var o := if old(strips[k].select) == 1 then Enter(old(State()), k, r) else Commit(old(State()), k, r.report);
        Did(old(sent), old(requested), o) && ok == o.ok
    {
      if strips[k].select == 1 {
        ok := EnterSelection(k, r);
      } else {
        ok := CommitSelection(k, r.report);
      }
    }

    /** The bank and log `ToggleSelection` leaves are the console's start of a select press. */
    lemma ToggleLifted(k: int, w0: World, sent0: seq<seq<int>>)
      requires Wired() && 0 <= k < 8 && |w0.bank| == 8 && AllValid(w0.bank) && registry == w0.registry
      requires Bank() == RestoreOthers(w0.bank, k, 8)[k := w0.bank[k].(select := 1 - w0.bank[k].select)]
      requires sent == sent0 + (RestoreOthersMsgs(w0.bank, k, 8) + [NoteOn(k + 24, 1 - w0.bank[k].select)])
      ensures State() == Toggled(w0, k) && sent == sent0 + ToggleMsgs(w0, k)
    {
      ToggledShape(w0, k);
    }

    /** Every strip but k restored, then strip k's select flag toggled and shown. */
    method ToggleSelection(k: int, ghost b0: seq<StripState>)
      requires Wired() && 0 <= k < 8 && b0 == Bank() && AllValid(b0)
      modifies this`sent, strips
      ensures Bank() == RestoreOthers(b0, k, 8)[k := b0[k].(select := 1 - b0[k].select)]
      ensures sent == old(sent) + (RestoreOthersMsgs(b0, k, 8) + [NoteOn(k + 24, 1 - b0[k].select)])
      ensures registry == old(registry) && requested == old(requested)
    {
      RestoreOthersLoop(k);
      ghost var b1 := Bank();
      assert b1[k] == b0[k];
      ToggleOne(k);
      Assoc(old(sent), RestoreOthersMsgs(b0, k, 8), [NoteOn(k + 24, 1 - b0[k].select)]);
    }

    /** The select flag of strip k toggled and shown. */
    method ToggleOne(k: int)
      requires Wired() && 0 <= k < 8
      modifies this`sent, strips[k]
      ensures Bank() == old(Bank())[k := old(Bank()[k]).(select := 1 - old(Bank()[k].select))]
      ensures sent == old(sent) + [NoteOn(k + 24, 1 - old(Bank()[k].select))]
      ensures registry == old(registry) && requested == old(requested)
    {
      ghost var before := Bank();
      strips[k].ToggleSelect(this);
      Updated(before, k);
    }

    /** The loop of the SELECT branch: `restore` on every strip but k, in strip order. */
    method RestoreOthersLoop(k: int)
      requires Wired() && 0 <= k < 8 && AllValid(Bank())
      modifies this`sent, strips
      ensures Bank() == RestoreOthers(old(Bank()), k, 8)
      ensures sent == old(sent) + RestoreOthersMsgs(old(Bank()), k, 8)
      ensures registry == old(registry) && requested == old(requested)
    {
      ghost var b0 := Bank();
      for j := 0 to 8
        invariant Bank() == RestoreOthers(b0, k, j)
        invariant sent == old(sent) + RestoreOthersMsgs(b0, k, j)
      {
        ghost var b := Bank();
        RestoreOthersStep(b0, k, j);
        if j != k {
          RestoreOne(j);
          Assoc(old(sent), RestoreOthersMsgs(b0, k, j), Restore(j, b[j], Colors(b)).sent);
        }
      }
    }

    /** Entering the overlay on strip k: lights off, the registry refreshed, the first page shown. */
    method EnterSelection(k: int, r: Replies) returns (ok: bool)
      requires Ready() && 0 <= k < 8 && |r.probes| == |r.inputs|
      modifies this`sent, this`requested, this`registry
      ensures var o := Enter(old(State()), k, r); Did(old(sent), old(requested), o) && ok == o.ok
    {
      var dark := [ControlChange(k + 48, 0), NoteOn(k, 0), NoteOn(k + 8, 0), NoteOn(k + 16, 0)];
      SendAll(dark);
      RefreshRegistry(r);
      ghost var sent1 := sent;
      ok := OpenPage(k);
      Assoc(old(sent), dark, sent[|sent1|..]);
    }

    /** Strip k's overlay page drawn; no strip changes. */
    method OpenPage(k: int) returns (ok: bool)
      requires Wired() && 0 <= k < 8 && 1 <= strips[k].colorIdx <= 8
      modifies this`sent
      ensures Bank() == old(Bank())
      ensures var e := ShowPage(k, Bank()[k], registry); sent == old(sent) + e.sent && ok == e.ok
    {
      ok := strips[k].ShowPage(this);
    }

    /** The registry rebuilt from the mixer's input list, then the inputs without audio dropped. */
    method RefreshRegistry(r: Replies)
      requires Wired() && Sources.Valid(registry) && |r.probes| == |r.inputs|
      modifies this`registry, this`requested
      ensures Bank() == old(Bank())
      ensures registry == Refresh(old(registry), r.inputs, r.probes)
      ensures requested == old(requested) + [GetInputList, Batch(ProbeRequests(r.inputs))]
    {
      Ask(GetInputList);
      var probes := RefillRegistry(r.inputs);
      FilterAudioInputs(probes, r.probes);
    }

    /** Leaving the overlay on strip k (its select flag now 0). */
    method CommitSelection(k: int, rep: SourceReport) returns (ok: bool)
      requires Wired() && 0 <= k < 8 && AllValid(Bank()) && strips[k].select == 0
      modifies this`sent, this`requested, strips
      ensures var o := Commit(old(State()), k, rep); Did(old(sent), old(requested), o) && ok == o.ok
    {
      ok := true;
      if strips[k].option == 0 {
        ok := CommitSource(k, rep);
      } else if strips[k].option == 1 {
        CommitColor(k);
      }
    }

    /** Committing the source cursor: CANCEL restores, RESET resets, any other entry is assigned. */
    method CommitSource(k: int, rep: SourceReport) returns (ok: bool)
      requires Wired() && 0 <= k < 8 && AllValid(Bank()) && strips[k].select == 0
      modifies this`sent, this`requested, strips
      ensures var o := Pick(old(State()), k, rep); Did(old(sent), old(requested), o) && ok == o.ok
    {
      var cursor := strips[k].sourceCnt;
      if !(0 <= cursor < |registry|) {
        return false;
      }
      var e := registry[cursor];
      if e.name == "CANCEL" {
        CancelOne(k, rep);
      } else if e.name == "RESET" {
        ResetPicked(k, rep);
      } else {
        AssignPicked(k, rep);
      }
      ok := true;
    }

    /** The entry under strip k's source cursor. */
    ghost predicate Picked(k: int, name: string)
      requires Wired() && 0 <= k < 8
      reads this, strips[k]
    {
      0 <= strips[k].sourceCnt < |registry| && registry[strips[k].sourceCnt].name == name
    }

    /** The CANCEL entry: strip k is restored. */
    method CancelOne(k: int, rep: SourceReport)
      requires Wired() && 0 <= k < 8 && AllValid(Bank()) && strips[k].select == 0 && Picked(k, "CANCEL")
      modifies this`sent, strips[k]
      ensures Did(old(sent), old(requested), Pick(old(State()), k, rep))
    {
      ghost var w0 := State();
      PickCases(w0, k, rep);
      RestoreOne(k);
      Lifted(k, w0, old(sent), old(requested), Restore(k, w0.bank[k], Colors(w0.bank)));
    }

    /** The RESET entry: strip k is reset. */
    method ResetPicked(k: int, rep: SourceReport)
      requires Wired() && 0 <= k < 8 && AllValid(Bank()) && strips[k].select == 0 && Picked(k, "RESET")
      modifies this`sent, strips[k]
      ensures Did(old(sent), old(requested), Pick(old(State()), k, rep))
    {
      ghost var w0 := State();
      PickCases(w0, k, rep);
      ResetOne(k);
      Lifted(k, w0, old(sent), old(requested), Strips.Reset(k, Colors(w0.bank[k := Defaults])));
    }

    /** Any other entry: it is assigned to strip k. */
    method AssignPicked(k: int, rep: SourceReport)
      requires Wired() && 0 <= k < 8 && AllValid(Bank()) && strips[k].select == 0
      requires 0 <= strips[k].sourceCnt < |registry| && !Picked(k, "CANCEL") && !Picked(k, "RESET")
      modifies this`sent, this`requested, strips
      ensures Did(old(sent), old(requested), Pick(old(State()), k, rep))
    {
      ghost var w0 := State();
      var e := registry[strips[k].sourceCnt];
      PickCases(w0, k, rep);
      AssignSource(k, e, rep);
    }

    /** Committing the colour cursor, then `restore`. */
    method CommitColor(k: int)
      requires Wired() && 0 <= k < 8 && Strips.Valid(strips[k].Value())
      modifies this`sent, strips
      ensures Did(old(sent), old(requested), Settle(old(State()), k))
    {
      ghost var w0 := State();
      strips[k].SettleColor();
      Updated(w0.bank, k);
      ghost var w1 := State();
      RestoreOne(k);
      Lifted(k, w1, old(sent), old(requested), Restore(k, w1.bank[k], Colors(w1.bank)));
    }

    /** Assigning entry `e` to strip k: take it over, show it, reset every other strip holding it. */
    method AssignSource(k: int, e: Entry, rep: SourceReport)
      requires Wired() && 0 <= k < 8 && AllValid(Bank()) && strips[k].select == 0
      modifies this`sent, this`requested, strips
      ensures Did(old(sent), old(requested), Assign(old(State()), k, e, rep))
    {
      ghost var w0 := State();
      AdoptOne(k, e, rep);
      ghost var b2 := Bank();
      ghost var requested1 := requested;
      ShowAndEvict(k, e.id, b2);
      AssignLifted(k, e, rep, w0, b2, old(sent), old(requested), requested1);
    }

    /** The rest of an assignment once strip k holds its source: shown, then the other holders reset. */
    method ShowAndEvict(k: int, id: string, ghost b2: seq<StripState>)
      requires Wired() && 0 <= k < 8 && b2 == Bank() && Strips.Valid(b2[k])
      modifies this`sent, strips
      ensures var b3 := b2[k := b2[k].(colorCnt := b2[k].colorIdx)];
        Bank() == Evict(b3, k, id, 8).bank && sent == old(sent) + (AssignedMsgs(k, b2[k], Colors(b2)) + Evict(b3, k, id, 8).sent)
      ensures registry == old(registry) && requested == old(requested)
    {
      ShowAssignedOne(k);
      ghost var sent1 := sent;
      EvictHolders(k, id);
      Assoc(old(sent), AssignedMsgs(k, b2[k], Colors(b2)), sent[|sent1|..]);
    }

    /** Strip k shows the source it was given, and its colour cursor settles on its colour. */
    method ShowAssignedOne(k: int)
      requires Wired() && 0 <= k < 8 && Strips.Valid(strips[k].Value())
      modifies this`sent, strips[k]
      ensures Bank() == old(Bank())[k := old(Bank())[k].(colorCnt := old(Bank())[k].colorIdx)]
      ensures sent == old(sent) + AssignedMsgs(k, old(Bank())[k], Colors(old(Bank())))
      ensures registry == old(registry) && requested == old(requested)
    {
      ghost var before := Bank();
      ColorsOfBank();
      strips[k].ShowAssigned(this);
      Updated(before, k);
    }

    /** Adopting, showing and evicting, in that order, are the console's `Assign`. */
    lemma AssignLifted(k: int, e: Entry, rep: SourceReport, w0: World, b2: seq<StripState>,
                       sent0: seq<seq<int>>, requested0: seq<Request>, requested1: seq<Request>)
      requires Wired() && |w0.bank| == 8 && AllValid(w0.bank) && 0 <= k < 8 && w0.bank[k].select == 0 && registry == w0.registry
      requires b2 == w0.bank[k := Adopted(w0.bank, k, e, rep)]
      requires requested1 == requested0 + if w0.bank[k].sourceUuid != e.id then FetchRequests(e.id) else []
      requires var b3 := b2[k := b2[k].(colorCnt := b2[k].colorIdx)];
        Bank() == Evict(b3, k, e.id, 8).bank && sent == sent0 + (AssignedMsgs(k, b2[k], Colors(b2)) + Evict(b3, k, e.id, 8).sent) &&
        requested == requested1
      ensures Did(sent0, requested0, Assign(w0, k, e, rep))
    {
      var s2 := Adopted(w0.bank, k, e, rep);
      assert b2[k] == s2;
      assert b2[k := s2.(colorCnt := s2.colorIdx)] == w0.bank[k := s2][k := s2.(colorCnt := s2.colorIdx)];
    }

    /** Strip k takes entry `e` over: looks from its holders and state from the mixer, when the source is new. */
    method AdoptOne(k: int, e: Entry, rep: SourceReport)
      requires Wired() && 0 <= k < 8 && AllValid(Bank())
      modifies this`requested, strips[k]
      ensures Bank() == old(Bank())[k := Adopted(old(Bank()), k, e, rep)]
      ensures requested == old(requested) + if old(strips[k].sourceUuid) != e.id then FetchRequests(e.id) else []
      ensures Strips.Valid(strips[k].Value())
      ensures registry == old(registry) && sent == old(sent)
    {
      ghost var b0 := Bank();
      var st := strips[k];
      if st.sourceUuid != e.id {
        st.TakeLooks(this, e.id);
        st.FetchSource(this, e, rep);
      }
      Updated(b0, k);
    }

    /** The closing loop of an assignment: every other strip holding `id` is reset, in strip order. */
    method EvictHolders(k: int, id: string)
      requires Wired() && 0 <= k < 8
      modifies this`sent, strips
      ensures Bank() == Evict(old(Bank()), k, id, 8).bank && sent == old(sent) + Evict(old(Bank()), k, id, 8).sent
      ensures registry == old(registry) && requested == old(requested)
    {
      ghost var b0 := Bank();
      for j := 0 to 8
        invariant Bank() == Evict(b0, k, id, j).bank
        invariant sent == old(sent) + Evict(b0, k, id, j).sent
      {
        ghost var p := Evict(b0, k, id, j);
        EvictOne(k, id, j);
        Assoc(old(sent), p.sent, EvictStrip(p.bank, k, id, j).sent);
      }
    }

    // -------------------------------------------------------------------------
    // main

    /** `process_encoder` of strip k. */
    method EncoderOne(k: int, raw: int) returns (ok: bool)
      requires Ready() && 0 <= k < 8
      modifies this`sent, this`requested, strips[k]
      ensures var e := Turn(k, old(Bank())[k], raw, registry, Colors(old(Bank())));
        Did(old(sent), old(requested), Lift(old(State()), k, e)) && ok == e.ok
    {
      ghost var w0 := State();
      ok := TurnOne(k, raw);
      Lifted(k, w0, old(sent), old(requested), Turn(k, w0.bank[k], raw, registry, Colors(w0.bank)));
    }

    /** `process_encoder` of strip k, as a step of that strip alone. */
    method TurnOne(k: int, raw: int) returns (ok: bool)
      requires Ready() && 0 <= k < 8
      modifies this`sent, this`requested, strips[k]
      ensures var e := Turn(k, old(Bank())[k], raw, registry, Colors(old(Bank())));
        Stepped(k, old(Bank()), old(sent), old(requested), e) && ok == e.ok
    {
      ghost var before := Bank();
      ghost var e := Turn(k, before[k], raw, registry, Colors(before));
      ColorsOfBank();
      assert e == Turn(strips[k].num, strips[k].Value(), raw, registry, ColorIdxs());
      ok := strips[k].ProcessEncoder(this, raw);
      Updated(before, k);
    }

    /** `process_fader` of strip k at time `now`. */
    method FaderOne(k: int, raw: int, now: int)
      requires Wired() && 0 <= k < 8 && Strips.Valid(strips[k].Value())
      modifies this`requested, strips[k]
      ensures Did(old(sent), old(requested), Lift(old(State()), k, FaderMove(old(Bank())[k], raw, now)))
    {
      ghost var w0 := State();
      strips[k].ProcessFader(this, raw, now);
      Updated(w0.bank, k);
      Lifted(k, w0, old(sent), old(requested), FaderMove(w0.bank[k], raw, now));
    }

    /** The routing of a polled message by its status byte. */
    method Dispatch(m: seq<int>, now: int, r: Replies) returns (ok: bool)
      requires Ready() && |r.probes| == |r.inputs|
      modifies this`sent, this`requested, this`registry, strips
      ensures var o := Handle(old(State()), m, now, r); Did(old(sent), old(requested), o) && ok == o.ok
    {
      if |m| < 3 {
        return false;
      }
      var b1, b2, b3 := m[0], m[1], m[2];
      if b1 == 144 {
        ok := ProcessButton(b2 % 8, b2, b3, r);
      } else if b1 == 176 {
        ok := EncoderOne(b2 % 8, b3);
      } else if 0 <= b1 - 224 < 8 {
        FaderOne(b1 - 224, b3, now);
        ok := true;
      } else {
        ok := false;
      }
    }

    /**
     * One pass of the `while True` loop of `main`: the fader echoes at clock
     * reading `now`, then the polled message if any, its fader handler
     * reading the clock as `handled`.
     */
    method Step(now: int, handled: int, incoming: Option<seq<int>>, r: Replies) returns (ok: bool)
      requires Ready() && |r.probes| == |r.inputs|
      modifies this`sent, this`requested, this`registry, strips
      ensures var o := Console.Step(old(State()), now, handled, incoming, r); Did(old(sent), old(requested), o) && ok == o.ok
    {
      ghost var w0 := State();
      Tick(now);
      ok := true;
      if incoming.Some? {
        ghost var t := Console.Tick(w0, now);
        ok := Dispatch(incoming.value, handled, r);
        Chained(old(sent), old(requested), t.sent, Handle(t.world, incoming.value, handled, r));
      }
    }

    /** The mixer's callbacks for events `evs`, in the order they arrive. */
    method DeliverEvents(evs: seq<MixerEvent>)
      requires Ready()
      modifies this`sent, strips
      ensures Did(old(sent), old(requested), DeliverAll(old(State()), evs))
      ensures registry == old(registry) && requested == old(requested) && running == old(running)
    {
      ghost var w0 := State();
      for i := 0 to |evs|
        invariant Wired()
        invariant Did(old(sent), old(requested), DeliverAll(w0, evs[..i]))
      {
        ghost var o := DeliverAll(w0, evs[..i]);
        OnMixerEvent(evs[i]);
        assert evs[..i + 1][..i] == evs[..i];
        Sequenced(old(sent), old(requested), o, Deliver(o.world, evs[i]));
      }
      assert evs[..|evs|] == evs;
    }

    /** Pass `p`: a pass of the loop while it runs, then the callbacks of the events arriving at its closing `await`. */
    method PassOne(p: Poll)
      requires Ready() && |p.replies.probes| == |p.replies.inputs|
      modifies this`sent, this`requested, this`registry, this`running, strips
      ensures var o := if old(running) then Pass(old(State()), p) else Stalled(old(State()), p.events);
        Did(old(sent), old(requested), o) && running == o.ok
    {
      if running {
        running := LivePass(p);
      } else {
        DeliverEvents(p.events);
      }
    }

    /** A pass of the running loop: its step, then the callbacks of the pass's events. */
    method LivePass(p: Poll) returns (ok: bool)
      requires Ready() && |p.replies.probes| == |p.replies.inputs|
      modifies this`sent, this`requested, this`registry, strips
      ensures var o := Pass(old(State()), p); Did(old(sent), old(requested), o) && ok == o.ok
    {
      ghost var w0 := State();
      ok := Step(p.now, p.handled, p.incoming, p.replies);
      ghost var s := Console.Step(w0, p.now, p.handled, p.incoming, p.replies);
      DeliverEvents(p.events);
      Assoc(old(sent), s.sent, DeliverAll(s.world, p.events).sent);
    }

    /** The `while True` loop of `main` over passes `ps`; once a handler has raised, only the callbacks run. */
    method Loop(ps: seq<Poll>)
      requires Ready() && running && Answered(ps)
      modifies this`sent, this`requested, this`registry, this`running, strips
      ensures var o := Run(old(State()), ps); Did(old(sent), old(requested), o) && running == o.ok
    {
      ghost var w0 := State();
      for i := 0 to |ps|
        invariant Wired()
        invariant Did(old(sent), old(requested), Run(w0, ps[..i])) && running == Run(w0, ps[..i]).ok
      {
        ghost var o := Run(w0, ps[..i]);
        PassOne(ps[i]);
        assert ps[..i + 1][..i] == ps[..i];
        Sequenced(old(sent), old(requested), o, if o.ok then Pass(o.world, ps[i]) else Stalled(o.world, ps[i].events));
      }
      assert ps[..|ps|] == ps;
    }

    /** `main` once connected: every strip reset, then the loop. */
    method Serve(ps: seq<Poll>)
      requires Wired() && Sources.Valid(registry) && running && Answered(ps)
      modifies this`sent, this`requested, this`registry, this`running, strips
      ensures var o := Session(old(State()), ps); Did(old(sent), old(requested), o) && running == o.ok
    {
      ghost var w0 := State();
      Start();
      Loop(ps);
      Sequenced(old(sent), old(requested), Console.Start(w0), Run(Console.Start(w0).world, ps));
    }

    /** `midi_out.send_message`. */
    method Send(m: seq<int>)
      modifies this`sent
      ensures sent == old(sent) + [m]
    {
      sent := sent + [m];
    }

    /** `midi_out.send_message` for each of `ms`, in order. */
    method SendAll(ms: seq<seq<int>>)
      modifies this`sent
      ensures sent == old(sent) + ms
    {
      for i := 0 to |ms|
        invariant sent == old(sent) + ms[..i]
      {
        assert ms[..i + 1] == ms[..i] + [ms[i]];
        sent := sent + [ms[i]];
      }
      assert ms[..|ms|] == ms;
    }

    /** Requests `qs` issued in order. */
    method AskAll(qs: seq<Request>)
      modifies this`requested
      ensures requested == old(requested) + qs
    {
      requested := requested + qs;
    }

    /** A request issued to the mixer (its answer is a parameter of the handler that waits for it). */
    method Ask(q: Request)
      modifies this`requested
      ensures requested == old(requested) + [q]
    {
      requested := requested + [q];
    }
  }
}
