# X-Touch Extender bridge for OBS, modelled in Dafny

The program bridges a Behringer X-Touch Extender to the OBS mixer over its
websocket protocol. The surface has eight channel strips. Each strip has
REC, SOLO, MUTE and SELECT buttons, a push encoder with an LED ring, a
motorised fader, and two lines of seven LCD characters with a backlight
colour. Strips talk to the bridge in MIDI: Note On 0x90, Control Change
0xB0 and Pitch Bend 0xE0. The LCD text (command 0x12) and the colours
(command 0x72) are Mackie Control System Exclusive messages.

The model covers five parts of the program.

- **The source registry (`Sources`).** This is the `obs_inputs` table.
  - Slot 0 holds CANCEL and slot 1 holds RESET.
  - A press of SELECT refills slots 2, 3, ... from the mixer's input list, then drops the slots whose monitor-type probe failed and renumbers the rest.
- **Each strip's handlers (`Strips`).** These are the flag buttons, the encoder push and turn, the fader, `reset`, `restore`, and the `update_*` echoes of mixer events.
  - Each handler is a function from the strip's state to an `Effect`: the new state, the messages sent to the surface, the requests issued to the mixer, and whether the handler finished.
  - A handler does not finish where the program would raise KeyError on the registry.
- **The whole console (`Console`).**
  - The handlers that reach across strips: SELECT restores every other strip. Committing a source takes over the previous holder's colour and ring mode, then resets that holder.
  - The routing of a mixer event to the first strip holding its source.
  - The fader-echo suppression: a local fader move makes the strip ignore volume echoes until a main-loop tick more than 0.3 s later drives the motor back.
  - The main loop as a sequence of passes. Each pass is the tick, at most one polled message, and the mixer events whose callbacks run at its closing `await`.
  - Once a handler has raised, only the callbacks run.
- **The program as it runs (`Bridge`).**
  - `Strip` objects whose fields the handlers update in place.
  - A `Host` that holds the eight strips, the registry, and the append-only logs of surface messages and mixer requests.
  - Each method is proved to do what the corresponding `Strips` or `Console` function says.
- **The wire formats (`Surface`).** The codec and its round trips.

Two behaviours of the source are modelled as written:

- A refill from a shorter input list leaves the old table's higher slots in place (`Sources.RefreshKeepsStaleSlots`).
- The solo flag disagrees on MONITOR_ONLY between the two places that set it (`Strips.MonitorOnlyReadsDifferently`):
  - committing a source sets solo only for MONITOR_AND_OUTPUT;
  - the monitor-type echo sets it for every type except NONE.

## Model

| member | source | states |
|---|---|---|
| Common.BoolToInt | Xtouch-Simpleobsws.py:463-466 | Python's `int(bool)`: 1 exactly for true, 0 otherwise |
| Surface.Truncate | Xtouch-Simpleobsws.py:402 | `my_str[:7]`: the first min(len, 7) characters of the text |
| Surface.Codes | Xtouch-Simpleobsws.py:414-415 | one code per character, each equal to that character's `ord` |
| Surface.WriteText | Xtouch-Simpleobsws.py:395-419 | nothing is sent for a line other than 0 or 1, two messages otherwise |
| Surface.WriteTextShape | Xtouch-Simpleobsws.py:395-419 | a 15-byte clear at offset 7*num+56*line with seven zero bytes, then a write of the codes of the text cut to seven characters, both framed by the Mackie LCD header and 0xF7 |
| Surface.LcdRoundTrip | Xtouch-Simpleobsws.py:404-419 | decoding the two messages gives back the cell offset, seven blanks, and exactly the truncated text |
| Surface.ColorPayload | Xtouch-Simpleobsws.py:421-432 | the colour message of `change_lcd_color` is 15 bytes: the Mackie header and command 0x72 first, 0xF7 last |
| Surface.ColorPayloadShape | Xtouch-Simpleobsws.py:421-432 | the colour message is 15 bytes: header and command 0x72, byte 6+num set to the new colour, every other slot the colour index of that strip, then 0xF7 |
| Surface.ColorPayloadOwnSlot | Xtouch-Simpleobsws.py:425-430 | the addressed strip's own stored colour never reaches the message |
| Surface.ColorRoundTrip | Xtouch-Simpleobsws.py:421-432 | the surface decodes the eight colours with only the addressed slot changed |
| Surface.Route | Xtouch-Simpleobsws.py:581-597 | status 144 reaches the button handler and 176 the encoder handler of strip b2 % 8, 224..231 the fader handler of strip b1-224; a short message or any other status makes `main` raise |
| Surface.RouteNoteOn | Xtouch-Simpleobsws.py:589-591 | a Note On for control strip+8*role reaches that strip's button handler with that control |
| Surface.RouteFaderPosition | Xtouch-Simpleobsws.py:595-597 | a motor-fader command read back as input reaches the same strip's fader handler with the same position |
| Mixer.ProbeRequests | Xtouch-Simpleobsws.py:207-209 | one GetInputAudioMonitorType probe per listed input, in input order, for that input's id |
| Sources.Lookup | Xtouch-Simpleobsws.py:225-226 | `obs_inputs[i]` is found exactly for 0 <= i < size and is that slot's entry; otherwise KeyError |
| Sources.Refill | Xtouch-Simpleobsws.py:205-208 | the refilled table is as long as the longer of the old table and the two sentinels plus the input list |
| Sources.RefillStep | Xtouch-Simpleobsws.py:207-208 | writing one more input overwrites slot 2+i when it exists and appends it otherwise |
| Sources.Passing | Xtouch-Simpleobsws.py:37-39 | the increasing list of exactly the indices whose probe succeeded |
| Sources.Keep | Xtouch-Simpleobsws.py:37-41 | never longer than the table it filters |
| Sources.KeepSelects | Xtouch-Simpleobsws.py:37-41 | the kept entries are exactly the entries at the passing indices, in order |
| Sources.SlotMask | Xtouch-Simpleobsws.py:37-39 | one survival bit per slot of the table |
| Sources.Filter | Xtouch-Simpleobsws.py:32-41 | `filter_audio_inputs`: the sentinels and the unprobed slots stay; of the probed slots only those whose probe succeeded stay, in their old order |
| Sources.Refresh | Xtouch-Simpleobsws.py:205-210 | after a refresh the sentinels are in place; the passing inputs follow them, then any stale slots of a longer previous table |
| Sources.RefreshLayout | Xtouch-Simpleobsws.py:205-210 | slots 0 and 1 are CANCEL and RESET; slot 2+j holds the j-th passing input; the rest is exactly the old table's slots beyond the new list |
| Sources.RefreshRebuilds | Xtouch-Simpleobsws.py:205-210 | when the new list is at least as long as the old table, only the sentinels and the passing inputs remain |
| Sources.RefreshKeepsStaleSlots | Xtouch-Simpleobsws.py:205-210 | when the new list is shorter, the old table's last slot survives the refresh |
| Strips.NextEncMode | Xtouch-Simpleobsws.py:306-308 | the next ring mode is again one of the four modes |
| Strips.EncModeCycle | Xtouch-Simpleobsws.py:306-308 | every push changes the mode, and four pushes bring it back |
| Strips.ControlOf | Xtouch-Simpleobsws.py:154-326 | a control number is REC, SOLO, MUTE, SELECT or encoder push exactly at num + 0, 8, 16, 24, 32 |
| Strips.ControlRoundTrip | Xtouch-Simpleobsws.py:154-326 | each role's control number decodes back to that role; every other number is a touch |
| Strips.Restored | Xtouch-Simpleobsws.py:123-126 | `restore` puts the cursors back on the committed source and colour, leaves the overlay, and changes nothing else |
| Strips.Restore | Xtouch-Simpleobsws.py:123-147 | the eleven messages of `restore` in order: the name and a blank line, the colour, the REC/SOLO/MUTE lights, SELECT off, the ring, the fader; no request |
| Strips.Reset | Xtouch-Simpleobsws.py:86-121 | factory defaults, then the colour 7, two blank text lines, ring, lights and fader off, in that order; no request |
| Strips.AssignedMsgs | Xtouch-Simpleobsws.py:270-288 | the ten messages a commit sends, in order: the source name and a blank line, the strip's colour, the REC/SOLO/MUTE lights, the ring, the fader |
| Strips.FlagPress | Xtouch-Simpleobsws.py:154-181 | only a full press on an assigned strip outside the overlay acts: it flips exactly that flag, lights it, and issues the matching tracks, monitor-type or mute request |
| Strips.FlagPressTwice | Xtouch-Simpleobsws.py:154-181 | two full presses of one flag button give back the original strip, with the light going to the flipped value and back |
| Strips.ToggleOverlay | Xtouch-Simpleobsws.py:316 | `0 ** option` switches the overlay between its source page and its colour page |
| Strips.ShowSource | Xtouch-Simpleobsws.py:318-320 | the source page is written exactly when the slot under the cursor exists; otherwise only line 0 is written and the handler raises |
| Strips.ShowPage | Xtouch-Simpleobsws.py:212-218 | the page the overlay opens on: the committed source slot, or the committed colour, written on both lines |
| Strips.PushEncoder | Xtouch-Simpleobsws.py:300-323 | outside the overlay an assigned strip advances its ring mode and shows it; inside, the page flips and is redrawn with the cursor's source or colour |
| Strips.BalanceClamp | Xtouch-Simpleobsws.py:331-341 | a turn below 50 adds one up to 10, above 50 subtracts one down to 0, and 50 changes nothing |
| Strips.BalanceStaysInRange | Xtouch-Simpleobsws.py:331-341 | a balance within [0, 10] stays within it under any sequence of turns |
| Strips.SourceCursorClamp | Xtouch-Simpleobsws.py:346-368 | the source cursor steps by one and stops at slot 0 and at the registry's last slot |
| Strips.ColorCursorWraps | Xtouch-Simpleobsws.py:354-372 | the colour cursor wraps within 1..8 both ways, and a step down undoes a step up |
| Strips.Turn | Xtouch-Simpleobsws.py:328-375 | outside the overlay an assigned strip steps its balance and requests it; inside, the source cursor (clamped) or the colour cursor (wrapping, colour shown too) steps, and the new page is drawn |
| Strips.FaderMove | Xtouch-Simpleobsws.py:377-389 | an assigned strip outside the overlay takes the position, stamps the time, raises the busy flag and requests the volume; otherwise nothing happens |
| Strips.PosFader | Xtouch-Simpleobsws.py:391-393 | the motor is driven to the stored position and the busy flag falls |
| Strips.Echo | Xtouch-Simpleobsws.py:453-486 | a volume echo is dropped while a fader move is pending and moves the fader otherwise; mute, track 2, balance and monitor type are dropped in the overlay and otherwise stored and shown |
| Strips.FaderEchoTimeline | Xtouch-Simpleobsws.py:377-393 | after a local move, a volume echo is ignored; a tick within 0.3 s does not re-drive the motor; a later tick drives it to the moved position, after which echoes move the fader again |
| Strips.SoloOnAssign | Xtouch-Simpleobsws.py:257-260 | the solo flag read on commit is 0 or 1, and 1 exactly for MONITOR_AND_OUTPUT |
| Strips.MonitorOnlyReadsDifferently | Xtouch-Simpleobsws.py:480-485 | a MONITOR_ONLY echo sets solo, but committing a MONITOR_ONLY source does not |
| Console.Colors | Xtouch-Simpleobsws.py:425-426 | the colour indices of all strips, in strip order |
| Console.RestoreOthers | Xtouch-Simpleobsws.py:186-188 | every visited strip other than the pressed one is restored; all others are unchanged |
| Console.Evict | Xtouch-Simpleobsws.py:292-294 | every strip other than the new holder that held the source is back to defaults; the rest are unchanged |
| Console.EvictStrip | Xtouch-Simpleobsws.py:293-294 | one strip is reset exactly when it holds the source and is not the new holder |
| Console.CopyLooks | Xtouch-Simpleobsws.py:235-240 | only the colour, colour cursor and ring mode are taken over |
| Console.Fetched | Xtouch-Simpleobsws.py:242-268 | the strip takes the entry's name and id, the report's balance and fader position, solo/REC/mute set exactly when the report says so, and `source_idx := source_cnt`; nothing else changes |
| Console.Adopted | Xtouch-Simpleobsws.py:235-268 | the strip ends holding the entry; an unchanged source leaves it as it was; a new one keeps its selection, page and cursor and takes the name, the cursor as its source index and the report's balance, fader and solo |
| Console.CopyLooksFromHolder | Xtouch-Simpleobsws.py:235-240 | when one strip alone holds the source, its colour and ring mode are what the new holder takes |
| Console.Drives | Xtouch-Simpleobsws.py:576-578 | the tick's output as an independent list: one fader-position message per due strip, in strip order, read from the bank before the tick; at most one per strip visited, and each is `[224 + num, 1, position]` for one of those strips |
| Console.TickAll | Xtouch-Simpleobsws.py:576-578 | exactly the strips whose quiet period has passed lower their busy flag, and the messages sent are `Drives` of the bank before the tick |
| Console.TickStrip | Xtouch-Simpleobsws.py:577-578 | exactly when the strip is busy and more than 0.3 s have passed, it sends `[224 + num, 1, fader_current]` and lowers its busy flag; otherwise it sends nothing and stays as it was |
| Console.ResetAll | Xtouch-Simpleobsws.py:570-571 | every visited strip is back to factory defaults |
| Console.FirstHolder | Xtouch-Simpleobsws.py:516-520 | the first strip in strip order holding the id, or -1 when none does |
| Console.Assign | Xtouch-Simpleobsws.py:233-294 | the strip holds the entry and has left the overlay; every other former holder is reset; the source's five reads are requested exactly when the assignment changed |
| Console.AssignValid | Xtouch-Simpleobsws.py:233-294 | after an assignment a source is held by no more than one strip and at most one strip is selected |
| Console.AssignUnselects | Xtouch-Simpleobsws.py:233-294 | an assignment from a bank where no strip is selected leaves no strip selected |
| Console.Commit | Xtouch-Simpleobsws.py:220-298 | leaving the overlay raises exactly when the source cursor is off the registry |
| Console.Pick | Xtouch-Simpleobsws.py:222-294 | committing the source page finishes exactly when the cursor's slot exists |
| Console.PickCases | Xtouch-Simpleobsws.py:228-234 | CANCEL restores the strip, RESET resets it, and any other entry is assigned |
| Console.CommitValid | Xtouch-Simpleobsws.py:220-298 | committing keeps at most one strip selected and each source held by at most one strip |
| Console.Enter | Xtouch-Simpleobsws.py:195-218 | entering the overlay turns the ring and the three lights off, refreshes the registry with the input-list request and the batch of probes, and then draws the first page |
| Console.SelectPress | Xtouch-Simpleobsws.py:183-298 | the pressed strip's select flag flips and every other strip ends outside the overlay |
| Console.SelectPressShape | Xtouch-Simpleobsws.py:183-298 | a select press is its start (the restores and the select light) followed by entering or committing |
| Console.Toggled | Xtouch-Simpleobsws.py:186-192 | every other strip is restored and the pressed strip's flag alone flips |
| Console.SelectPressValid | Xtouch-Simpleobsws.py:183-298 | a select press keeps at most one strip selected and each source held by at most one strip |
| Console.SelectedWorldValid | Xtouch-Simpleobsws.py:186-192 | the start of a select press already leaves at most the pressed strip selected |
| Console.ButtonPress | Xtouch-Simpleobsws.py:149-326 | anything but a full press, and any touch, changes nothing |
| Console.ButtonPressValid | Xtouch-Simpleobsws.py:149-326 | every button press keeps the console's invariant |
| Console.Deliver | Xtouch-Simpleobsws.py:516-548 | only the first strip holding the event's source is handled; no other strip changes and nothing is requested |
| Console.DeliverValid | Xtouch-Simpleobsws.py:516-548 | every mixer event keeps the console's invariant |
| Console.DeliverToHolder | Xtouch-Simpleobsws.py:516-548 | an event with a holder is exactly that strip's `update_*` handler |
| Console.Tick | Xtouch-Simpleobsws.py:575-579 | every strip that is busy and more than 0.3 s past its move lowers its busy flag, and the others stay; the messages sent are `Drives`, one fader position per due strip in strip order; nothing is requested |
| Console.TickValid | Xtouch-Simpleobsws.py:575-579 | the tick keeps the console's invariant |
| Console.Step | Xtouch-Simpleobsws.py:573-599 | an empty poll is the tick alone; an unroutable message ends the loop |
| Console.Handle | Xtouch-Simpleobsws.py:581-597 | a message the loop cannot route makes it raise |
| Console.StepValid | Xtouch-Simpleobsws.py:573-599 | every pass keeps the console's invariant |
| Console.SelectPressEnters | Xtouch-Simpleobsws.py:195-218 | entering changes only the pressed strip's select flag, refreshes the registry and requests the list and probes; it raises exactly when the source page's slot is missing |
| Console.SelectPressCancels | Xtouch-Simpleobsws.py:228-229 | committing CANCEL restores the strip and asks nothing of the mixer |
| Console.SelectPressResets | Xtouch-Simpleobsws.py:231-232 | committing RESET returns the strip to factory defaults |
| Console.SelectPressTakesColor | Xtouch-Simpleobsws.py:295-298 | committing the colour page makes the cursor's colour the strip's colour, then restores the strip |
| Console.Settle | Xtouch-Simpleobsws.py:295-298 | the strip becomes Restored with its colour cursor as its colour; the other strips and the registry stay; nothing is requested; its colour message carries the new colour |
| Console.SelectPressAssigns | Xtouch-Simpleobsws.py:233-294 | committing a real source gives it to the strip and resets its previous holder; the mixer is asked exactly when the assignment changed |
| Console.SelectPressTakesOver | Xtouch-Simpleobsws.py:235-268 | a new source brings the holder's colour and ring mode; lights, balance and fader come from the mixer's report; the cursor becomes the committed slot |
| Console.Start | Xtouch-Simpleobsws.py:570-571 | every strip is back at factory defaults, and nothing is requested |
| Console.StartValid | Xtouch-Simpleobsws.py:570-571 | after the resets the console's invariant holds |
| Console.DeliverAll | Xtouch-Simpleobsws.py:516-548 | callbacks never touch the registry, never raise and never request anything |
| Console.DeliverAllValid | Xtouch-Simpleobsws.py:516-548 | any sequence of mixer events keeps the console's invariant |
| Console.DeliverAllAppend | Xtouch-Simpleobsws.py:516-548 | delivering two batches of events in turn is delivering them together |
| Console.Pass | Xtouch-Simpleobsws.py:573-599 | a pass raises exactly when its step does; the callbacks after it never raise |
| Console.Stalled | Xtouch-Simpleobsws.py:516-548 | after the loop has ended, a pass only runs callbacks, and they ask nothing of the mixer |
| Console.Run | Xtouch-Simpleobsws.py:573-599 | any run leaves eight strips in range and the sentinels in place |
| Console.RunAfterFault | Xtouch-Simpleobsws.py:573-599 | once a handler has raised, the rest of the run is exactly all later events delivered in order; nothing more is requested, and the run stays failed |
| Console.PassValid | Xtouch-Simpleobsws.py:573-599 | every pass of the loop, callbacks included, keeps the console's invariant |
| Console.RunValid | Xtouch-Simpleobsws.py:573-599 | every prefix of a run, before or after a fault, keeps the console's invariant |
| Console.Session | Xtouch-Simpleobsws.py:567-599 | after the resets, `main` is the loop run from eight default strips: what it ends with, asks and whether it raised do not depend on the strips' earlier state; the resets' messages go out first |
| Console.SessionValid | Xtouch-Simpleobsws.py:567-599 | from the resets on, the invariant holds whatever the surface sends and the mixer pushes |
| Bridge.Strip.constructor | Xtouch-Simpleobsws.py:67-84 | a new strip has its number and the factory defaults |
| Bridge.Strip.WriteText | Xtouch-Simpleobsws.py:395-419 | `write_text` sends exactly the messages of `Surface.WriteText` |
| Bridge.Strip.ChangeLcdColor | Xtouch-Simpleobsws.py:421-432 | the loop over the strips sends `Surface.ColorPayload` over all strips' colour indices |
| Bridge.Strip.ShowSlot | Xtouch-Simpleobsws.py:318-320 | the source page drawn in place is `Strips.ShowSource`; the result is whether the slot existed |
| Bridge.Strip.ShowPage | Xtouch-Simpleobsws.py:212-218 | the first overlay page sent is `Strips.ShowPage` |
| Bridge.Strip.ShowColorPage | Xtouch-Simpleobsws.py:321-323 | COLOR on line 0 and the colour's name on line 1 |
| Bridge.Strip.ClearFields | Xtouch-Simpleobsws.py:87-103 | every field is back at its factory default |
| Bridge.Strip.Reset | Xtouch-Simpleobsws.py:86-121 | `reset` in place: the defaults, and the messages of `Strips.Reset` for the colours after the reset |
| Bridge.Strip.Restore | Xtouch-Simpleobsws.py:123-147 | `restore` in place: the state `Strips.Restored` and its eleven messages |
| Bridge.Strip.PressFlag | Xtouch-Simpleobsws.py:154-181 | the flag branches update the fields and both logs exactly as `Strips.FlagPress` |
| Bridge.Strip.PushEncoder | Xtouch-Simpleobsws.py:300-323 | the encoder push updates the fields and the log as `Strips.PushEncoder`, and reports its KeyError |
| Bridge.Strip.ProcessEncoder | Xtouch-Simpleobsws.py:328-375 | `process_encoder` updates the fields and both logs as `Strips.Turn`, and reports its KeyError |
| Bridge.Strip.TurnBalance | Xtouch-Simpleobsws.py:330-343 | outside the overlay, the turn is `Strips.Turn` |
| Bridge.Strip.StepBalance | Xtouch-Simpleobsws.py:331-343 | the balance takes its clamped step and is requested at its new value |
| Bridge.Strip.TurnCursor | Xtouch-Simpleobsws.py:345-375 | inside the overlay, the turn is `Strips.Turn` |
| Bridge.Strip.MoveSourceCursor | Xtouch-Simpleobsws.py:346-368 | the source cursor steps, clamped, and its page is drawn |
| Bridge.Strip.MoveColorCursor | Xtouch-Simpleobsws.py:354-375 | the colour cursor steps, wrapping; its page and the surface colour are sent |
| Bridge.Strip.ProcessFader | Xtouch-Simpleobsws.py:377-389 | `process_fader` updates the fields and the request log as `Strips.FaderMove` |
| Bridge.Strip.PosFader | Xtouch-Simpleobsws.py:391-393 | `pos_fader` is `Strips.PosFader` |
| Bridge.Strip.Update | Xtouch-Simpleobsws.py:453-486 | the `update_*` handler for an event is `Strips.Echo` |
| Bridge.Strip.UpdateFader | Xtouch-Simpleobsws.py:453-461 | `update_fader` is the volume case of `Strips.Echo` |
| Bridge.Strip.UpdateMute | Xtouch-Simpleobsws.py:463-466 | `update_mute` is the mute case of `Strips.Echo` |
| Bridge.Strip.UpdateTrack | Xtouch-Simpleobsws.py:468-471 | `update_track` is the track-2 case of `Strips.Echo` |
| Bridge.Strip.UpdateBalance | Xtouch-Simpleobsws.py:473-478 | `update_balance` is the balance case of `Strips.Echo` |
| Bridge.Strip.UpdateMonitor | Xtouch-Simpleobsws.py:480-486 | `update_monitor` is the monitor-type case of `Strips.Echo` |
| Bridge.Strip.ToggleSelect | Xtouch-Simpleobsws.py:191-192 | the select flag flips and its light shows the new flag |
| Bridge.Strip.SettleColor | Xtouch-Simpleobsws.py:297 | the colour cursor becomes the strip's colour |
| Bridge.Strip.TakeLooks | Xtouch-Simpleobsws.py:235-240 | the loop takes the colour and ring mode of the holders, last one winning, as `Console.CopyLooks` |
| Bridge.Strip.FetchSource | Xtouch-Simpleobsws.py:242-268 | the five reads are requested, and their answers are stored with the name, id and committed slot |
| Bridge.Strip.ShowAssigned | Xtouch-Simpleobsws.py:270-288 | a committed source is shown (name, colour, lights, ring, fader), and the colour cursor settles |
| Bridge.Host.constructor | Xtouch-Simpleobsws.py:488-497 | eight strips at their defaults, the sentinel-only registry, empty logs, the loop running |
| Bridge.Host.RefillRegistry | Xtouch-Simpleobsws.py:205-209 | the loop writes the refill of `Sources.Refill` and one probe per input |
| Bridge.Host.FilterAudioInputs | Xtouch-Simpleobsws.py:32-41 | one batch request, then the registry is `Sources.Filter` of the probes |
| Bridge.Host.Survivors | Xtouch-Simpleobsws.py:37-39 | the `pop` loop leaves exactly the slots that survive, with their entries |
| Bridge.Host.Compact | Xtouch-Simpleobsws.py:41 | renumbering the survivors gives `Sources.Keep` of the table |
| Bridge.Host.FindHolder | Xtouch-Simpleobsws.py:516-520 | the callbacks' search finds `Console.FirstHolder` |
| Bridge.Host.OnMixerEvent | Xtouch-Simpleobsws.py:516-548 | the five callbacks do what `Console.Deliver` says |
| Bridge.Host.Tick | Xtouch-Simpleobsws.py:575-579 | the tick loop does what `Console.Tick` says |
| Bridge.Host.Start | Xtouch-Simpleobsws.py:570-571 | the reset loop does what `Console.Start` says |
| Bridge.Host.ProcessButton | Xtouch-Simpleobsws.py:149-326 | `process_button` does what `Console.ButtonPress` says, including whether it raises |
| Bridge.Host.PressSelect | Xtouch-Simpleobsws.py:183-298 | the SELECT branch does what `Console.SelectPress` says |
| Bridge.Host.StartSelect | Xtouch-Simpleobsws.py:186-192 | the restores and the toggle are `Console.Toggled` and its messages |
| Bridge.Host.FollowSelect | Xtouch-Simpleobsws.py:194-298 | after the toggle the strip enters the overlay or commits, as the console says |
| Bridge.Host.ToggleSelection | Xtouch-Simpleobsws.py:186-192 | every other strip is restored, then the pressed strip's flag flips and is shown |
| Bridge.Host.RestoreOthersLoop | Xtouch-Simpleobsws.py:186-188 | the loop restores every strip but the pressed one, in strip order |
| Bridge.Host.EnterSelection | Xtouch-Simpleobsws.py:195-218 | entering the overlay does what `Console.Enter` says |
| Bridge.Host.OpenPage | Xtouch-Simpleobsws.py:212-218 | the first page is `Strips.ShowPage`, and no strip changes |
| Bridge.Host.RefreshRegistry | Xtouch-Simpleobsws.py:204-210 | the list request, the refill and the filter give `Sources.Refresh`; no strip changes |
| Bridge.Host.CommitSelection | Xtouch-Simpleobsws.py:220-298 | leaving the overlay does what `Console.Commit` says |
| Bridge.Host.CommitSource | Xtouch-Simpleobsws.py:222-294 | committing the source page does what `Console.Pick` says, raising when the slot is missing |
| Bridge.Host.CancelOne | Xtouch-Simpleobsws.py:228-229 | CANCEL is `Console.Pick` on a CANCEL slot |
| Bridge.Host.ResetPicked | Xtouch-Simpleobsws.py:231-232 | RESET is `Console.Pick` on a RESET slot |
| Bridge.Host.AssignPicked | Xtouch-Simpleobsws.py:233-294 | any other entry is `Console.Pick` on that slot |
| Bridge.Host.CommitColor | Xtouch-Simpleobsws.py:295-298 | the colour commit does what `Console.Settle` says |
| Bridge.Host.AssignSource | Xtouch-Simpleobsws.py:233-294 | the assignment does what `Console.Assign` says |
| Bridge.Host.ShowAndEvict | Xtouch-Simpleobsws.py:270-294 | the new holder is shown, then every other holder is reset in strip order |
| Bridge.Host.AdoptOne | Xtouch-Simpleobsws.py:234-268 | a new source brings the holders' looks and the mixer's state; the reads are requested only when the source is new |
| Bridge.Host.EvictHolders | Xtouch-Simpleobsws.py:292-294 | the reset loop does what `Console.Evict` says |
| Bridge.Host.EncoderOne | Xtouch-Simpleobsws.py:592-594 | an encoder message is `Strips.Turn` on its strip, lifted to the console |
| Bridge.Host.FaderOne | Xtouch-Simpleobsws.py:595-597 | a fader message is `Strips.FaderMove` on its strip at the handler's clock reading |
| Bridge.Host.Dispatch | Xtouch-Simpleobsws.py:581-597 | the routing does what `Console.Handle` says, including the faults |
| Bridge.Host.Step | Xtouch-Simpleobsws.py:573-599 | one pass of the loop does what `Console.Step` says |
| Bridge.Host.DeliverEvents | Xtouch-Simpleobsws.py:516-548 | the callbacks for a batch of events do what `Console.DeliverAll` says, and leave the registry, the request log and the loop state alone |
| Bridge.Host.PassOne | Xtouch-Simpleobsws.py:573-599 | a running pass is `Console.Pass`; after a fault it is `Console.Stalled`; the loop keeps running exactly when the pass finished |
| Bridge.Host.LivePass | Xtouch-Simpleobsws.py:573-599 | the step followed by its callbacks is `Console.Pass` |
| Bridge.Host.Loop | Xtouch-Simpleobsws.py:573-599 | the `while True` loop over the passes does what `Console.Run` says |
| Bridge.Host.Serve | Xtouch-Simpleobsws.py:567-599 | `main` once connected does what `Console.Session` says |

## Left out

- Floating point.
  - The bridge receives the mixer's state already converted to integers, and its requests carry those integers:
    - the balance times ten (249, 475, and `enc_value / 10` at 343);
    - the volume curves and `my_map` (251-252, 386-387, 458-459, 501-502).
  - The conversions themselves are not modelled.
- The volume meter. `update_volumeter` and `obs_volumeter_callback` (434-451, 505-512) are not modelled, because they turn float levels into decibels with `log10`. The model has no InputVolumeMeters event.
- Interleaving at `await`. A mixer callback can run at any `await`:
  - inside `process_button`, while it waits for the mixer (206, 210, 244-253);
  - after each re-driven fader in the tick (579), at 583, and at 599;
  - at the flag requests of `process_button` (160, 173, 181), at the balance request of `process_encoder` (343) and at the volume request of `process_fader` (389).

  The model delivers a pass's mixer events only after the pass's step. After the awaits at 160, 173, 181 and 389 the handler does nothing more. After 343 only the test `self.select == 1` remains, and it still fails, because no callback changes `select`. So events delivered at these five awaits reach the same state as events delivered after the step. An event that arrives in the middle of a handler or the tick is not modelled.
- Mixer replies. Every request other than the batched probes is taken to succeed. Its reply is a parameter (`Mixer.Replies`), and the batch gives one result per probe (`Console.Answered`). A failing `obs_request` is not modelled.
- The clock. `time.time_ns()` becomes two parameters of each pass: the tick's reading and the fader handler's reading. No order between readings is assumed.
- The `print` calls (15, 22, 326, 398, 557). A touch and a write to a line other than 0 or 1 send nothing.
- Setup and teardown (7-23, 553-565, 601-608): opening the MIDI ports, connecting to the mixer, registering the callbacks, disconnecting, and the event loop. The model starts once the connection is up.
- The endless loop. `while True` becomes a finite sequence of passes. A pass with no message (582-584) is the tick alone.
- The end of `main`:
  - A handler that raises KeyError on the registry (215, 225, 320, 353, 368) or on `strips[b1 - 224]` (596), or IndexError on a short message (585-587), ends the coroutine `main`. The model records this as `ok == false` and `Host.running := false`.
  - After that, the mixer's callbacks go on (`Console.Stalled`).
  - The traceback printed by the event loop is not modelled.
- Byte ranges. Messages are lists of unbounded integers, as the program builds them. What the MIDI library does with a value outside 0..255 is not modelled.
- Console.SelectPress: its ensures states only the select flags. What each case does to the strips, the registry and the logs is stated by `Console.SelectPressEnters`, `SelectPressCancels`, `SelectPressResets`, `SelectPressTakesColor`, `SelectPressAssigns` and `SelectPressTakesOver`.
- Console.Commit: the other strips are stated only as unchanged or reset. `Console.SelectPressAssigns` states which.
- Console.ButtonPress: its ensures states only the cases that do nothing. The acting cases are `Strips.FlagPress`, `Strips.PushEncoder` and `Console.SelectPress`, which it runs on the pressed strip.
- Console.Run: its ensures states only the console's shape. What a run does is stated by `Console.RunAfterFault` and `Console.RunValid`, and by `Bridge.Host.Loop`, which follows it.
