/**
 * The eight strips and the source registry together, as values: the
 * handlers that reach across strips (select, commit, eviction), the routing
 * of mixer events to the first matching strip, the fader-echo tick, and one
 * iteration of the main loop.  `Bridge.Host` is proved to follow these
 * functions.
 */
module Console {
  import opened Common
  import opened Surface
  import opened Sources
  import opened Mixer
  import opened Strips

  datatype World = World(bank: seq<StripState>, registry: seq<Entry>)

  /** Selection is exclusive: at most one strip shows the overlay. */
  predicate AtMostOneSelected(bank: seq<StripState>)
  {
    forall i, j :: 0 <= i < |bank| && 0 <= j < |bank| && bank[i].select != 0 && bank[j].select != 0 ==> i == j
  }

  /** A source is assigned to at most one strip (unassigned strips share the empty id). */
  predicate SoleHolders(bank: seq<StripState>)
  {
    forall i, j :: 0 <= i < |bank| && 0 <= j < |bank| && i != j && bank[i].sourceUuid == bank[j].sourceUuid ==> bank[i].sourceUuid == ""
  }

  predicate AllValid(bank: seq<StripState>)
  {
    forall j :: 0 <= j < |bank| ==> Strips.Valid(bank[j])
  }

  predicate BankValid(bank: seq<StripState>)
  {
    |bank| == 8 && AllValid(bank) && AtMostOneSelected(bank) && SoleHolders(bank)
  }

  predicate Valid(w: World)
  {
    BankValid(w.bank) && Sources.Valid(w.registry)
  }

  /** What the handlers need in order to run: eight strips in range and the sentinels in place. */
  predicate Shaped(w: World)
  {
    |w.bank| == 8 && AllValid(w.bank) && Sources.Valid(w.registry)
  }

  /** Every strip's colour index, in strip order: what each colour message carries. */
  function Colors(bank: seq<StripState>): (c: seq<int>)
    ensures |c| == |bank|
    ensures forall j {:trigger c[j]} :: 0 <= j < |bank| ==> c[j] == bank[j].colorIdx
  {
    seq(|bank|, j requires 0 <= j < |bank| => bank[j].colorIdx)
  }

  /** What one handler run does to the whole console. */
  datatype Outcome = Outcome(world: World, sent: seq<seq<int>>, requested: seq<Request>, ok: bool)

  function Lift(w: World, k: int, e: Effect): Outcome
    requires 0 <= k < |w.bank|
  {
    Outcome(w.(bank := w.bank[k := e.after]), e.sent, e.requested, e.ok)
  }

  /** A strip whose colour index stays puts the same colours on the surface. */
  lemma ColorsKept(bank: seq<StripState>, k: int, t: StripState)
    requires 0 <= k < |bank| && t.colorIdx == bank[k].colorIdx
    ensures Colors(bank[k := t]) == Colors(bank)
  {
  }

  /** Outcome `o`, after messages `msgs` have gone out first. */
  function Preceded(msgs: seq<seq<int>>, o: Outcome): Outcome
  {
    Outcome(o.world, msgs + o.sent, o.requested, o.ok)
  }

  /** A strip's own handler keeps the console's invariant when it keeps its own. */
  lemma LiftValid(bank: seq<StripState>, k: int, e: Effect)
    requires BankValid(bank) && 0 <= k < 8
    requires Strips.Valid(e.after) && Keeps(bank[k], e.after)
    ensures BankValid(bank[k := e.after])
  {
    var b := bank[k := e.after];
    assert forall j :: 0 <= j < 8 ==> b[j].select == bank[j].select && b[j].sourceUuid == bank[j].sourceUuid;
  }

  // ---------------------------------------------------------------------------
  // Loops over all strips, each by the prefix of strips already visited

  /** Strips 0..n-1 other than k restored, in order. */
  function RestoreOthers(bank: seq<StripState>, k: int, n: nat): (b: seq<StripState>)
    requires n <= |bank|
    ensures |b| == |bank|
    ensures forall j :: 0 <= j < |bank| ==> b[j] == if j < n && j != k then Restored(bank[j]) else bank[j]
  {
    if n == 0 then bank
    else
      var p := RestoreOthers(bank, k, n - 1);
      if n - 1 == k then p else p[n - 1 := Restored(p[n - 1])]
  }

  /** The messages of those restores; restoring changes no colour, so each sees the same colours. */
  function RestoreOthersMsgs(bank: seq<StripState>, k: int, n: nat): seq<seq<int>>
    requires |bank| == 8 && AllValid(bank) && n <= 8
  {
    if n == 0 then []
    else RestoreOthersMsgs(bank, k, n - 1) + (if n - 1 == k then [] else Restore(n - 1, bank[n - 1], Colors(bank)).sent)
  }

  /** The restore of strip j, when j is not k, extends both sweeps by one strip. */
  lemma RestoreOthersStep(bank: seq<StripState>, k: int, j: nat)
    requires |bank| == 8 && AllValid(bank) && j < 8
    ensures var b := RestoreOthers(bank, k, j);
      && (j == k ==> RestoreOthers(bank, k, j + 1) == b && RestoreOthersMsgs(bank, k, j + 1) == RestoreOthersMsgs(bank, k, j))
      && (j != k ==>
            && Strips.Valid(b[j])
            && RestoreOthers(bank, k, j + 1) == b[j := Restore(j, b[j], Colors(b)).after]
            && RestoreOthersMsgs(bank, k, j + 1) == RestoreOthersMsgs(bank, k, j) + Restore(j, b[j], Colors(b)).sent)
  {
    RestoreOthersColors(bank, k, j);
  }

  /** A pass over the strips: the new states and the messages sent on the way. */
  datatype Sweep = Sweep(bank: seq<StripState>, sent: seq<seq<int>>)

  /** Strips 0..n-1 other than k that hold `id` reset, in order (each reset sees the colours at its time). */
  function Evict(bank: seq<StripState>, k: int, id: string, n: nat): (r: Sweep)
    requires |bank| == 8 && n <= 8
    ensures |r.bank| == 8
    ensures forall j :: 0 <= j < 8 ==>
      r.bank[j] == if j < n && j != k && bank[j].sourceUuid == id then Defaults else bank[j]
  {
    if n == 0 then Sweep(bank, [])
    else
      var p := Evict(bank, k, id, n - 1);
      var e := EvictStrip(p.bank, k, id, n - 1);
      Sweep(p.bank[n - 1 := e.after], p.sent + e.sent)
  }

  /** One step of the eviction: strip j is reset when it holds `id` and is not strip k. */
  function EvictStrip(bank: seq<StripState>, k: int, id: string, j: int): (e: Effect)
    requires |bank| == 8 && 0 <= j < 8
    ensures e.after == if bank[j].sourceUuid == id && j != k then Defaults else bank[j]
  {
    if bank[j].sourceUuid == id && j != k then Strips.Reset(j, Colors(bank[j := Defaults]))
    else Idle(bank[j])
  }

  /** The looks taken over from strips 0..n-1 holding `id`: the last holder's colour and ring mode. */
  function CopyLooks(s: StripState, bank: seq<StripState>, id: string, n: nat): (r: StripState)
    requires |bank| == 8 && n <= 8
    ensures r == s.(colorCnt := r.colorCnt, colorIdx := r.colorIdx, encMode := r.encMode)
    ensures Strips.Valid(s) && AllValid(bank) ==> Strips.Valid(r)
  {
    if n == 0 then s
    else
      var t := CopyLooks(s, bank, id, n - 1);
      var h := bank[n - 1];
      if h.sourceUuid == id then t.(colorCnt := h.colorIdx, colorIdx := h.colorIdx, encMode := h.encMode) else t
  }

  /** Under sole holding, the looks copied are those of the one strip that holds a non-empty id. */
  lemma {:induction false} CopyLooksFromHolder(s: StripState, bank: seq<StripState>, id: string, n: nat, h: int)
    requires |bank| == 8 && n <= 8 && SoleHolders(bank) && id != ""
    requires 0 <= h < n && bank[h].sourceUuid == id
    ensures CopyLooks(s, bank, id, n) == s.(colorCnt := bank[h].colorIdx, colorIdx := bank[h].colorIdx, encMode := bank[h].encMode)
  {
    if h < n - 1 {
      CopyLooksFromHolder(s, bank, id, n - 1, h);
    } else {
      CopyLooksNone(s, bank, id, n - 1);
    }
  }

  /** With no holder among strips 0..n-1, nothing is copied. */
  lemma {:induction false} CopyLooksNone(s: StripState, bank: seq<StripState>, id: string, n: nat)
    requires |bank| == 8 && n <= 8
    requires forall j :: 0 <= j < n ==> bank[j].sourceUuid != id
    ensures CopyLooks(s, bank, id, n) == s
  {
    if n > 0 {
      CopyLooksNone(s, bank, id, n - 1);
    }
  }

  /** The motor-fader messages for strips 0..n-1 of `bank` that are due at `now`, in strip order. */
  function Drives(bank: seq<StripState>, now: int, n: nat): (r: seq<seq<int>>)
    requires n <= |bank|
    ensures |r| <= n
    ensures forall i :: 0 <= i < |r| ==> |r[i]| == 3 && 0xE0 <= r[i][0] < 0xE0 + n && r[i][1] == 1
  {
    if n == 0 then []
    else Drives(bank, now, n - 1) + if Due(bank[n - 1], now) then [FaderPosition(n - 1, bank[n - 1].faderCurrent)] else []
  }

  /** Strips 0..n-1 whose quiet period has passed have their fader re-driven, in order. */
  function TickAll(bank: seq<StripState>, now: int, n: nat): (r: Sweep)
    requires |bank| == 8 && AllValid(bank) && n <= 8
    ensures |r.bank| == 8 && AllValid(r.bank)
    ensures forall j :: 0 <= j < 8 ==>
      r.bank[j] == if j < n && Due(bank[j], now) then bank[j].(faderBusy := 0) else bank[j]
    ensures r.sent == Drives(bank, now, n)
  {
    if n == 0 then Sweep(bank, [])
    else
      var p := TickAll(bank, now, n - 1);
      var e := TickStrip(p.bank, now, n - 1);
      Sweep(p.bank[n - 1 := e.after], p.sent + e.sent)
  }

  /** One step of the tick: strip j re-drives its fader when its quiet period has passed. */
  function TickStrip(bank: seq<StripState>, now: int, j: int): (e: Effect)
    requires |bank| == 8 && AllValid(bank) && 0 <= j < 8
    ensures Strips.Valid(e.after)
    ensures e.after == if Due(bank[j], now) then bank[j].(faderBusy := 0) else bank[j]
    ensures e.sent == if Due(bank[j], now) then [[0xE0 + j, 1, bank[j].faderCurrent]] else []
  {
    if Due(bank[j], now) then PosFader(j, bank[j]) else Idle(bank[j])
  }

  /** Strips 0..n-1 reset, in order: the start of `main`. */
  function ResetAll(bank: seq<StripState>, n: nat): (r: Sweep)
    requires |bank| == 8 && n <= 8
    ensures |r.bank| == 8
    ensures forall j :: 0 <= j < 8 ==> r.bank[j] == if j < n then Defaults else bank[j]
  {
    if n == 0 then Sweep(bank, [])
    else
      var p := ResetAll(bank, n - 1);
      var b := p.bank[n - 1 := Defaults];
      Sweep(b, p.sent + Strips.Reset(n - 1, Colors(b)).sent)
  }

  /** The first strip (in strip order) assigned `id`, or -1. */
  function FirstHolder(bank: seq<StripState>, id: string): (k: int)
    ensures -1 <= k < |bank|
    ensures k >= 0 ==> bank[k].sourceUuid == id && forall j :: 0 <= j < k ==> bank[j].sourceUuid != id
    ensures k == -1 ==> forall j :: 0 <= j < |bank| ==> bank[j].sourceUuid != id
  {
    if |bank| == 0 then -1
    else if bank[0].sourceUuid == id then 0
    else
      var k := FirstHolder(bank[1..], id);
      if k == -1 then -1 else k + 1
  }

  // ---------------------------------------------------------------------------
  // The select button

  /** The five reads issued for a newly assigned source. */
  function FetchRequests(id: string): seq<Request>
  {
    [GetInputAudioMonitorType(id), GetInputMute(id), GetInputAudioBalance(id), GetInputVolume(id), GetInputAudioTracks(id)]
  }

  /** The state read from the mixer for entry `e`, committed from the cursor. */
  function Fetched(s: StripState, e: Entry, rep: SourceReport): (t: StripState)
    ensures t == s.(solo := t.solo, encValue := t.encValue, rec := t.rec, mute := t.mute, faderCurrent := t.faderCurrent,
                    sourceName := e.name, sourceUuid := e.id, sourceIdx := s.sourceCnt)
    ensures (t.solo == 1 <==> rep.monitoring == MonitorAndOutput) && (t.rec == 1 <==> rep.track2) && (t.mute == 1 <==> rep.muted)
    ensures t.encValue == rep.balance && t.faderCurrent == rep.position
  {
    s.(solo := SoloOnAssign(rep.monitoring), encValue := rep.balance, rec := BoolToInt(rep.track2),
       mute := BoolToInt(rep.muted), faderCurrent := rep.position,
       sourceName := e.name, sourceUuid := e.id, sourceIdx := s.sourceCnt)
  }

  /** Strip k once it has taken entry `e` over: a new source brings the holders' looks and the mixer's state. */
  function Adopted(bank: seq<StripState>, k: int, e: Entry, rep: SourceReport): (t: StripState)
    requires |bank| == 8 && 0 <= k < 8
    ensures t.sourceUuid == e.id
    ensures bank[k].sourceUuid == e.id ==> t == bank[k]
    ensures bank[k].sourceUuid != e.id ==>
      && t.sourceName == e.name && t.sourceIdx == bank[k].sourceCnt
      && t.select == bank[k].select && t.option == bank[k].option && t.sourceCnt == bank[k].sourceCnt
      && t.encValue == rep.balance && t.faderCurrent == rep.position
      && (t.solo == 1 <==> rep.monitoring == MonitorAndOutput)
  {
    var s := bank[k];
    if s.sourceUuid != e.id then Fetched(CopyLooks(s, bank, e.id, 8), e, rep) else s
  }

  /** Assigning entry `e` to strip k on leaving the overlay. */
  function Assign(w: World, k: int, e: Entry, rep: SourceReport): (o: Outcome)
    requires |w.bank| == 8 && AllValid(w.bank) && 0 <= k < 8 && w.bank[k].select == 0
    ensures |o.world.bank| == 8 && AllValid(o.world.bank) && o.world.registry == w.registry && o.ok
    ensures o.world.bank[k].sourceUuid == e.id && o.world.bank[k].select == 0
    ensures o.world.bank[k].colorCnt == o.world.bank[k].colorIdx
    ensures forall j :: 0 <= j < 8 && j != k ==>
      o.world.bank[j] == if w.bank[j].sourceUuid == e.id then Defaults else w.bank[j]
    ensures o.requested == [] <==> w.bank[k].sourceUuid == e.id
    ensures o.requested != [] ==> o.requested == FetchRequests(e.id)
  {
    var changed := w.bank[k].sourceUuid != e.id;
    var s2 := Adopted(w.bank, k, e, rep);
    var b2 := w.bank[k := s2];
    var shown := AssignedMsgs(k, s2, Colors(b2));
    var b3 := b2[k := s2.(colorCnt := s2.colorIdx)];
    var ev := Evict(b3, k, e.id, 8);
    Outcome(World(ev.bank, w.registry), shown + ev.sent, if changed then FetchRequests(e.id) else [], true)
  }

  /** The assigned source ends up with strip k alone, and at most one strip stays selected. */
  lemma AssignValid(w: World, k: int, e: Entry, rep: SourceReport)
    requires BankValid(w.bank) && 0 <= k < 8 && w.bank[k].select == 0
    ensures BankValid(Assign(w, k, e, rep).world.bank)
  {
  }

  /** Assigning from a bank where no strip is selected leaves none selected. */
  lemma AssignUnselects(w: World, k: int, e: Entry, rep: SourceReport)
    requires BankValid(w.bank) && 0 <= k < 8
    requires forall j :: 0 <= j < 8 ==> w.bank[j].select == 0
    ensures forall j :: 0 <= j < 8 ==> Assign(w, k, e, rep).world.bank[j].select == 0
  {
  }

  /** Leaving the overlay (select now 0): commit the source cursor or the colour cursor. */
  function Commit(w: World, k: int, rep: SourceReport): (o: Outcome)
    requires |w.bank| == 8 && AllValid(w.bank) && 0 <= k < 8 && w.bank[k].select == 0
    ensures |o.world.bank| == 8 && AllValid(o.world.bank) && o.world.registry == w.registry
    ensures o.world.bank[k].select == 0
    ensures forall j :: 0 <= j < 8 && j != k ==> o.world.bank[j] == w.bank[j] || o.world.bank[j] == Defaults
    ensures !o.ok <==> w.bank[k].option == 0 && Lookup(w.registry, w.bank[k].sourceCnt).None?
  {
    var s := w.bank[k];
    if s.option == 0 then Pick(w, k, rep)
    else if s.option == 1 then Settle(w, k)
    else Outcome(w, [], [], true)
  }

  /** Leaving the source page: CANCEL restores, RESET resets, any other entry is assigned; a cursor off the registry raises. */
  function Pick(w: World, k: int, rep: SourceReport): (o: Outcome)
    requires |w.bank| == 8 && AllValid(w.bank) && 0 <= k < 8 && w.bank[k].select == 0
    ensures o.ok <==> Lookup(w.registry, w.bank[k].sourceCnt).Some?
  {
    var s := w.bank[k];
    match Lookup(w.registry, s.sourceCnt)
    case None => Outcome(w, [], [], false)
    case Some(e) =>
      if e.name == "CANCEL" then Lift(w, k, Restore(k, s, Colors(w.bank)))
      else if e.name == "RESET" then Lift(w, k, Strips.Reset(k, Colors(w.bank[k := Defaults])))
      else Assign(w, k, e, rep)
  }

  /** The three kinds of entry under the cursor. */
  lemma PickCases(w: World, k: int, rep: SourceReport)
    requires |w.bank| == 8 && AllValid(w.bank) && 0 <= k < 8 && w.bank[k].select == 0
    requires 0 <= w.bank[k].sourceCnt < |w.registry|
    ensures var e := w.registry[w.bank[k].sourceCnt];
      && (e.name == "CANCEL" ==> Pick(w, k, rep) == Lift(w, k, Restore(k, w.bank[k], Colors(w.bank))))
      && (e.name == "RESET" ==> Pick(w, k, rep) == Lift(w, k, Strips.Reset(k, Colors(w.bank[k := Defaults]))))
      && (e.name != "CANCEL" && e.name != "RESET" ==> Pick(w, k, rep) == Assign(w, k, e, rep))
  {
  }

  /** Leaving the colour page: the cursor's colour becomes the strip's, then the strip is restored. */
  function Settle(w: World, k: int): (o: Outcome)
    requires |w.bank| == 8 && 0 <= k < 8 && Strips.Valid(w.bank[k])
    ensures o.ok && o.requested == [] && o.world.registry == w.registry && |o.world.bank| == 8
    ensures o.world.bank[k] == Restored(w.bank[k].(colorIdx := w.bank[k].colorCnt))
    ensures forall j :: 0 <= j < 8 && j != k ==> o.world.bank[j] == w.bank[j]
    ensures |o.sent| == 11 && o.sent[4] == ColorPayload(Colors(w.bank), k, w.bank[k].colorCnt)
  {
    var s := w.bank[k];
    var t := s.(colorIdx := s.colorCnt);
    var b := w.bank[k := t];
    Lift(w.(bank := b), k, Restore(k, t, Colors(b)))
  }

  lemma CommitValid(w: World, k: int, rep: SourceReport)
    requires BankValid(w.bank) && 0 <= k < 8 && w.bank[k].select == 0
    ensures BankValid(Commit(w, k, rep).world.bank)
  {
    var s := w.bank[k];
    if s.option == 0 {
      match Lookup(w.registry, s.sourceCnt)
      case None =>
      case Some(e) =>
        if e.name == "CANCEL" {
          LiftValid(w.bank, k, Restore(k, s, Colors(w.bank)));
        } else if e.name == "RESET" {
          var b := w.bank[k := Defaults];
          assert forall j :: 0 <= j < 8 && j != k ==> b[j] == w.bank[j];
        } else {
          AssignValid(w, k, e, rep);
        }
    } else if s.option == 1 {
      var t := s.(colorIdx := s.colorCnt);
      var b := w.bank[k := t];
      LiftValid(w.bank, k, Restore(k, t, Colors(b)));
    }
  }

  /** Entering the overlay (select now 1): lights off, registry refreshed, first overlay page drawn. */
  function Enter(w: World, k: int, r: Replies): (o: Outcome)
    requires Shaped(w) && 0 <= k < 8 && |r.probes| == |r.inputs|
    ensures o.world.bank == w.bank && o.world.registry == Refresh(w.registry, r.inputs, r.probes)
    ensures o.requested == [GetInputList, Batch(ProbeRequests(r.inputs))]
    ensures o.ok <==> w.bank[k].option != 0 || w.bank[k].sourceIdx < |o.world.registry|
    ensures |o.sent| >= 4 && o.sent[..4] == [[0xB0, k + 48, 0], [0x90, k, 0], [0x90, k + 8, 0], [0x90, k + 16, 0]]
    ensures o.sent[4..] == ShowPage(k, w.bank[k], o.world.registry).sent
  {
    var dark := [ControlChange(k + 48, 0), NoteOn(k, 0), NoteOn(k + 8, 0), NoteOn(k + 16, 0)];
    var reg := Refresh(w.registry, r.inputs, r.probes);
    var page := ShowPage(k, w.bank[k], reg);
    Outcome(w.(registry := reg), dark + page.sent, [GetInputList, Batch(ProbeRequests(r.inputs))], page.ok)
  }

  /** A full press of strip k's select button. */
  function SelectPress(w: World, k: int, r: Replies): (o: Outcome)
    requires Shaped(w) && 0 <= k < 8 && |r.probes| == |r.inputs|
    ensures Shaped(o.world)
    ensures o.world.bank[k].select == 1 - w.bank[k].select
    ensures forall j :: 0 <= j < 8 && j != k ==> o.world.bank[j].select == 0
  {
    var w2 := Toggled(w, k);
    SelectedWorldShaped(w, k);
    var o := if w2.bank[k].select == 1 then Enter(w2, k, r) else Commit(w2, k, r.report);
    assert w2.bank[k].select == 0 ==> forall j :: 0 <= j < 8 && j != k ==> o.world.bank[j] == w2.bank[j] || o.world.bank[j] == Defaults;
    Preceded(ToggleMsgs(w, k), o)
  }

  /** A select press is its start followed by entering or leaving the overlay. */
  lemma SelectPressShape(w: World, k: int, r: Replies)
    requires Shaped(w) && 0 <= k < 8 && |r.probes| == |r.inputs|
    ensures Shaped(Toggled(w, k))
    ensures var w2 := Toggled(w, k);
      SelectPress(w, k, r) == Preceded(ToggleMsgs(w, k), if w2.bank[k].select == 1 then Enter(w2, k, r) else Commit(w2, k, r.report))
  {
    SelectedWorldShaped(w, k);
  }

  /** The start of a select press: every other strip restored, then this strip's select flag toggled. */
  function Toggled(w: World, k: int): (t: World)
    requires |w.bank| == 8 && 0 <= k < 8
    ensures |t.bank| == 8 && t.registry == w.registry
    ensures t.bank[k] == w.bank[k].(select := 1 - w.bank[k].select)
    ensures forall j :: 0 <= j < 8 && j != k ==> t.bank[j] == Restored(w.bank[j])
  {
    var b1 := RestoreOthers(w.bank, k, 8);
    World(b1[k := b1[k].(select := 1 - b1[k].select)], w.registry)
  }

  /** The messages of that start: the restores, then the select light. */
  function ToggleMsgs(w: World, k: int): seq<seq<int>>
    requires |w.bank| == 8 && AllValid(w.bank) && 0 <= k < 8
  {
    RestoreOthersMsgs(w.bank, k, 8) + [NoteOn(k + 24, 1 - w.bank[k].select)]
  }

  /** The start of a select press, stated on the result of the restores. */
  lemma ToggledShape(w: World, k: int)
    requires |w.bank| == 8 && AllValid(w.bank) && 0 <= k < 8
    ensures Toggled(w, k) == World(RestoreOthers(w.bank, k, 8)[k := w.bank[k].(select := 1 - w.bank[k].select)], w.registry)
    ensures ToggleMsgs(w, k) == RestoreOthersMsgs(w.bank, k, 8) + [NoteOn(k + 24, 1 - w.bank[k].select)]
  {
  }

  /** The console between the select toggle and entering or committing. */
  lemma SelectedWorldShaped(w: World, k: int)
    requires Shaped(w) && 0 <= k < 8
    ensures Shaped(Toggled(w, k))
  {
    var b := Toggled(w, k).bank;
    assert forall j :: 0 <= j < 8 ==> Strips.Valid(b[j]);
  }

  /** A select press keeps the console's invariant: one strip at most selected, each source held once. */
  lemma SelectPressValid(w: World, k: int, r: Replies)
    requires Valid(w) && 0 <= k < 8 && |r.probes| == |r.inputs|
    ensures Valid(SelectPress(w, k, r).world)
  {
    var w2 := Toggled(w, k);
    SelectedWorldValid(w, k);
    if w2.bank[k].select == 0 {
      CommitValid(w2, k, r.report);
    }
  }

  lemma SelectedWorldValid(w: World, k: int)
    requires Valid(w) && 0 <= k < 8
    ensures Valid(Toggled(w, k))
  {
    var b := Toggled(w, k).bank;
    assert forall j :: 0 <= j < 8 ==> b[j].sourceUuid == w.bank[j].sourceUuid;
    assert forall j :: 0 <= j < 8 && j != k ==> b[j].select == 0;
  }

  // ---------------------------------------------------------------------------
  // Routing

  /** `process_button` on strip k. */
  function ButtonPress(w: World, k: int, button: int, value: int, r: Replies): (o: Outcome)
    requires Shaped(w) && 0 <= k < 8 && |r.probes| == |r.inputs|
    ensures Shaped(o.world)
    ensures value != 127 ==> o == Outcome(w, [], [], true)
    ensures ControlOf(k, button) == Touch ==> o == Outcome(w, [], [], true)
  {
    var c := ControlOf(k, button);
    match c
    case Rec => Lift(w, k, FlagPress(k, w.bank[k], c, value))
    case Solo => Lift(w, k, FlagPress(k, w.bank[k], c, value))
    case Mute => Lift(w, k, FlagPress(k, w.bank[k], c, value))
    case Select => if value == 127 then SelectPress(w, k, r) else Outcome(w, [], [], true)
    case EncoderPush => if value == 127 then Lift(w, k, PushEncoder(k, w.bank[k], w.registry)) else Outcome(w, [], [], true)
    case Touch => Outcome(w, [], [], true)
  }

  lemma ButtonPressValid(w: World, k: int, button: int, value: int, r: Replies)
    requires Valid(w) && 0 <= k < 8 && |r.probes| == |r.inputs|
    ensures Valid(ButtonPress(w, k, button, value, r).world)
  {
    var c := ControlOf(k, button);
    match c
    case Rec => LiftValid(w.bank, k, FlagPress(k, w.bank[k], c, value));
    case Solo => LiftValid(w.bank, k, FlagPress(k, w.bank[k], c, value));
    case Mute => LiftValid(w.bank, k, FlagPress(k, w.bank[k], c, value));
    case Select => if value == 127 { SelectPressValid(w, k, r); }
    case EncoderPush => if value == 127 { LiftValid(w.bank, k, PushEncoder(k, w.bank[k], w.registry)); }
    case Touch =>
  }

  /** The mixer-event callbacks: the first strip holding the event's source handles it, no other. */
  function Deliver(w: World, ev: MixerEvent): (o: Outcome)
    requires Shaped(w)
    ensures Shaped(o.world) && o.world.registry == w.registry && o.ok && o.requested == []
    ensures forall j :: 0 <= j < 8 && j != FirstHolder(w.bank, ev.uuid) ==> o.world.bank[j] == w.bank[j]
    ensures ev.uuid != "" ==> forall j :: 0 <= j < 8 && w.bank[j].sourceUuid != ev.uuid ==> o.world.bank[j] == w.bank[j]
  {
    var k := FirstHolder(w.bank, ev.uuid);
    if k < 0 then Outcome(w, [], [], true) else Lift(w, k, Echo(k, w.bank[k], ev))
  }

  lemma DeliverValid(w: World, ev: MixerEvent)
    requires Valid(w)
    ensures Valid(Deliver(w, ev).world)
  {
    var k := FirstHolder(w.bank, ev.uuid);
    if k >= 0 {
      LiftValid(w.bank, k, Echo(k, w.bank[k], ev));
    }
  }

  /** An event whose source has a holder is handled by the first holder's `update_*` handler alone. */
  lemma DeliverToHolder(w: World, ev: MixerEvent)
    requires Shaped(w) && FirstHolder(w.bank, ev.uuid) >= 0
    ensures var k := FirstHolder(w.bank, ev.uuid);
      Deliver(w, ev) == Lift(w, k, Echo(k, w.bank[k], ev))
  {
  }

  /** The fader-echo part of the main loop at time `now`. */
  function Tick(w: World, now: int): (o: Outcome)
    requires Shaped(w)
    ensures Shaped(o.world) && o.world.registry == w.registry && o.ok && o.requested == []
    ensures forall j :: 0 <= j < 8 ==>
      o.world.bank[j] == if Due(w.bank[j], now) then w.bank[j].(faderBusy := 0) else w.bank[j]
    ensures o.sent == Drives(w.bank, now, 8)
  {
    var t := TickAll(w.bank, now, 8);
    Outcome(w.(bank := t.bank), t.sent, [], true)
  }

  lemma TickValid(w: World, now: int)
    requires Valid(w)
    ensures Valid(Tick(w, now).world)
  {
    var t := Tick(w, now).world.bank;
    assert forall j :: 0 <= j < 8 ==> t[j].select == w.bank[j].select && t[j].sourceUuid == w.bank[j].sourceUuid;
  }

  /**
   * One iteration of the main loop: the tick at clock reading `now`, then the
   * polled message (if any) routed to its strip, whose fader handler reads
   * the clock again (`handled`).
   */
  function Step(w: World, now: int, handled: int, incoming: Option<seq<int>>, r: Replies): (o: Outcome)
    requires Shaped(w) && |r.probes| == |r.inputs|
    ensures Shaped(o.world)
    ensures incoming.Some? && Route(incoming.value).Unroutable? ==> !o.ok
    ensures incoming.None? ==> o == Tick(w, now)
  {
    var t := Tick(w, now);
    match incoming
    case None => t
    case Some(m) => Preceded(t.sent, Handle(t.world, m, handled, r))
  }

  /** A polled message handed to the handler of the strip it is routed to; `now` is the fader handler's clock reading. */
  function Handle(w: World, m: seq<int>, now: int, r: Replies): (o: Outcome)
    requires Shaped(w) && |r.probes| == |r.inputs|
    ensures Shaped(o.world)
    ensures Route(m).Unroutable? ==> !o.ok
  {
    match Route(m)
    case Unroutable => Outcome(w, [], [], false)
    case ButtonEvent(k, button, value) => ButtonPress(w, k, button, value, r)
    case EncoderEvent(k, _, value) => Lift(w, k, Turn(k, w.bank[k], value, w.registry, Colors(w.bank)))
    case FaderEvent(k, value) => Lift(w, k, FaderMove(w.bank[k], value, now))
  }

  /** Every iteration of the main loop keeps the console's invariant. */
  lemma StepValid(w: World, now: int, handled: int, incoming: Option<seq<int>>, r: Replies)
    requires Valid(w) && |r.probes| == |r.inputs|
    ensures Valid(Step(w, now, handled, incoming, r).world)
  {
    TickValid(w, now);
    var w1 := Tick(w, now).world;
    match incoming
    case None =>
    case Some(m) =>
      match Route(m)
      case Unroutable =>
      case ButtonEvent(k, button, value) => ButtonPressValid(w1, k, button, value, r);
      case EncoderEvent(k, _, value) => LiftValid(w1.bank, k, Turn(k, w1.bank[k], value, w1.registry, Colors(w1.bank)));
      case FaderEvent(k, value) => LiftValid(w1.bank, k, FaderMove(w1.bank[k], value, handled));
  }

  // ---------------------------------------------------------------------------
  // What a select press leaves behind

  /** Every strip but k has left the overlay, with its cursors back on its committed choices. */
  predicate OthersRestored(w: World, o: Outcome, k: int)
    requires |w.bank| == 8 && |o.world.bank| == 8
  {
    forall j :: 0 <= j < 8 && j != k ==> o.world.bank[j] == Restored(w.bank[j])
  }

  /** Entering the overlay: nothing but the select flag changes on this strip, and the registry is refreshed. */
  lemma SelectPressEnters(w: World, k: int, r: Replies)
    requires Valid(w) && 0 <= k < 8 && |r.probes| == |r.inputs|
    requires w.bank[k].select == 0
    ensures var o := SelectPress(w, k, r);
      && OthersRestored(w, o, k)
      && o.world.bank[k] == w.bank[k].(select := 1)
      && o.world.registry == Refresh(w.registry, r.inputs, r.probes)
      && o.requested == [GetInputList, Batch(ProbeRequests(r.inputs))]
      && (o.ok <==> w.bank[k].option == 1 || w.bank[k].sourceIdx < |o.world.registry|)
  {
  }

  /** Committing CANCEL: back to the assigned source and colour, nothing asked of the mixer. */
  lemma SelectPressCancels(w: World, k: int, r: Replies, e: Entry)
    requires Valid(w) && 0 <= k < 8 && |r.probes| == |r.inputs|
    requires w.bank[k].select == 1 && w.bank[k].option == 0
    requires Lookup(w.registry, w.bank[k].sourceCnt) == Some(e) && e.name == "CANCEL"
    ensures var o := SelectPress(w, k, r);
      && o.ok && o.requested == [] && o.world.registry == w.registry
      && OthersRestored(w, o, k)
      && o.world.bank[k] == Restored(w.bank[k])
  {
  }

  /** Committing RESET: the strip goes back to factory defaults. */
  lemma SelectPressResets(w: World, k: int, r: Replies, e: Entry)
    requires Valid(w) && 0 <= k < 8 && |r.probes| == |r.inputs|
    requires w.bank[k].select == 1 && w.bank[k].option == 0
    requires Lookup(w.registry, w.bank[k].sourceCnt) == Some(e) && e.name == "RESET"
    ensures var o := SelectPress(w, k, r);
      && o.ok && o.requested == [] && o.world.registry == w.registry
      && OthersRestored(w, o, k)
      && o.world.bank[k] == Defaults
  {
  }

  /** Committing the colour cursor: the chosen colour becomes the strip's colour. */
  lemma SelectPressTakesColor(w: World, k: int, r: Replies)
    requires Valid(w) && 0 <= k < 8 && |r.probes| == |r.inputs|
    requires w.bank[k].select == 1 && w.bank[k].option == 1
    ensures var o := SelectPress(w, k, r);
      && o.ok && o.requested == [] && o.world.registry == w.registry
      && OthersRestored(w, o, k)
      && o.world.bank[k] == Restored(w.bank[k].(colorIdx := w.bank[k].colorCnt))
  {
  }

  /**
   * Committing a real source: the strip takes it over, the strip that held it
   * before is reset, and the mixer is asked for the source's state exactly
   * when the assignment changed.
   */
  lemma SelectPressAssigns(w: World, k: int, r: Replies, e: Entry)
    requires Valid(w) && 0 <= k < 8 && |r.probes| == |r.inputs|
    requires w.bank[k].select == 1 && w.bank[k].option == 0
    requires Lookup(w.registry, w.bank[k].sourceCnt) == Some(e) && e.name != "CANCEL" && e.name != "RESET"
    ensures var o := SelectPress(w, k, r);
      && o.ok && o.world.registry == w.registry
      && o.world.bank[k].sourceUuid == e.id && o.world.bank[k].select == 0
      && (o.requested == [] <==> w.bank[k].sourceUuid == e.id)
      && (forall j :: 0 <= j < 8 && j != k ==>
            o.world.bank[j] == if w.bank[j].sourceUuid == e.id then Defaults else Restored(w.bank[j]))
  {
  }

  /**
   * A newly assigned source brings the previous holder's colour and ring mode
   * along, the rest (lights, balance, fader) comes from the mixer's report,
   * and the committed cursor becomes the assigned slot.
   */
  lemma SelectPressTakesOver(w: World, k: int, r: Replies, e: Entry, h: int)
    requires Valid(w) && 0 <= k < 8 && |r.probes| == |r.inputs|
    requires w.bank[k].select == 1 && w.bank[k].option == 0
    requires Lookup(w.registry, w.bank[k].sourceCnt) == Some(e) && e.name != "CANCEL" && e.name != "RESET"
    requires e.id != "" && w.bank[k].sourceUuid != e.id
    requires 0 <= h < 8 && w.bank[h].sourceUuid == e.id
    ensures var o := SelectPress(w, k, r); var s := o.world.bank[k];
      && s.colorIdx == w.bank[h].colorIdx && s.colorCnt == w.bank[h].colorIdx && s.encMode == w.bank[h].encMode
      && s.sourceName == e.name && s.sourceIdx == w.bank[k].sourceCnt
      && s.rec == BoolToInt(r.report.track2) && s.mute == BoolToInt(r.report.muted)
      && s.solo == SoloOnAssign(r.report.monitoring)
      && s.encValue == r.report.balance && s.faderCurrent == r.report.position
      && o.requested == FetchRequests(e.id)
  {
    var b1 := RestoreOthers(w.bank, k, 8);
    var b2 := b1[k := b1[k].(select := 0)];
    assert b2[h].colorIdx == w.bank[h].colorIdx && b2[h].encMode == w.bank[h].encMode;
    CopyLooksFromHolder(b2[k], b2, e.id, 8, h);
  }

  // ---------------------------------------------------------------------------
  // main

  /** The resets at the start of `main`: every strip back to factory defaults, in strip order. */
  function Start(w: World): (o: Outcome)
    requires |w.bank| == 8
    ensures o.world.bank == seq(8, j => Defaults) && o.world.registry == w.registry
    ensures o.requested == [] && o.ok
    ensures Sources.Valid(w.registry) ==> Shaped(o.world)
  {
    var r := ResetAll(w.bank, 8);
    assert r.bank == seq(8, j => Defaults);
    Outcome(World(r.bank, w.registry), r.sent, [], true)
  }

  /** After the resets no strip is selected and none holds a source. */
  lemma StartValid(w: World)
    requires |w.bank| == 8 && Sources.Valid(w.registry)
    ensures Valid(Start(w).world)
  {
  }

  /** Mixer events handled one after another by the callbacks, in the order they arrive. */
  function DeliverAll(w: World, evs: seq<MixerEvent>): (o: Outcome)
    requires Shaped(w)
    ensures Shaped(o.world) && o.world.registry == w.registry && o.ok && o.requested == []
    decreases |evs|
  {
    if evs == [] then Outcome(w, [], [], true)
    else
      var o := DeliverAll(w, evs[..|evs| - 1]);
      Then(o, Deliver(o.world, evs[|evs| - 1]))
  }

  /** The callbacks keep the console's invariant whatever events arrive. */
  lemma {:induction false} DeliverAllValid(w: World, evs: seq<MixerEvent>)
    requires Valid(w)
    ensures Valid(DeliverAll(w, evs).world)
    decreases |evs|
  {
    if evs != [] {
      DeliverAllValid(w, evs[..|evs| - 1]);
      DeliverValid(DeliverAll(w, evs[..|evs| - 1]).world, evs[|evs| - 1]);
    }
  }

  /** Delivering `a` then `b` is delivering `a + b`. */
  lemma {:induction false} DeliverAllAppend(w: World, a: seq<MixerEvent>, b: seq<MixerEvent>)
    requires Shaped(w)
    ensures DeliverAll(w, a + b) == Then(DeliverAll(w, a), DeliverAll(DeliverAll(w, a).world, b))
    decreases |b|
  {
    var x := DeliverAll(w, a);
    if b == [] {
      assert a + b == a;
      assert x.sent + [] == x.sent;
    } else {
      var b0, ev := b[..|b| - 1], b[|b| - 1];
      var xy := DeliverAll(w, a + b0);
      assert DeliverAll(w, a + b) == Then(xy, Deliver(xy.world, ev)) by {
        assert (a + b)[..|a + b| - 1] == a + b0;
        assert (a + b)[|a + b| - 1] == ev;
      }
      DeliverAllAppend(w, a, b0);
      var y := DeliverAll(x.world, b0);
      ThenAssoc(x, y, Deliver(y.world, ev));
    }
  }

  /** Sequencing outcomes is associative. */
  lemma ThenAssoc(x: Outcome, y: Outcome, z: Outcome)
    ensures Then(Then(x, y), z) == Then(x, Then(y, z))
  {
    assert (x.sent + y.sent) + z.sent == x.sent + (y.sent + z.sent);
    assert (x.requested + y.requested) + z.requested == x.requested + (y.requested + z.requested);
  }

  /**
   * One pass of the main loop: the tick's clock reading, the fader handler's
   * clock reading, the message polled (if any), the mixer's answers to the
   * handler's requests, and the mixer events whose callbacks run at the
   * pass's closing `await`.
   */
  datatype Poll = Poll(now: int, handled: int, incoming: Option<seq<int>>, replies: Replies, events: seq<MixerEvent>)

  /** The mixer answers every probe of a refill. */
  predicate Answered(ps: seq<Poll>)
  {
    forall i :: 0 <= i < |ps| ==> |ps[i].replies.probes| == |ps[i].replies.inputs|
  }

  /** Outcome `o1`, then outcome `o2` from the console `o1` left. */
  function Then(o1: Outcome, o2: Outcome): Outcome
  {
    Outcome(o2.world, o1.sent + o2.sent, o1.requested + o2.requested, o2.ok)
  }

  /** A pass of the running loop: its step, then the pass's mixer events; whether the step's handler raised. */
  function Pass(w: World, p: Poll): (o: Outcome)
    requires Shaped(w) && |p.replies.probes| == |p.replies.inputs|
    ensures Shaped(o.world)
    ensures o.ok == Step(w, p.now, p.handled, p.incoming, p.replies).ok
  {
    var s := Step(w, p.now, p.handled, p.incoming, p.replies);
    var d := DeliverAll(s.world, p.events);
    Outcome(d.world, s.sent + d.sent, s.requested, s.ok)
  }

  /** A pass after a handler has raised: the loop is over, only the mixer's callbacks still run. */
  function Stalled(w: World, evs: seq<MixerEvent>): (o: Outcome)
    requires Shaped(w)
    ensures Shaped(o.world) && !o.ok && o.requested == [] && o.world.registry == w.registry
  {
    DeliverAll(w, evs).(ok := false)
  }

  /** The `while True` loop of `main` over passes `ps`; after the first handler that raises, only callbacks run. */
  function Run(w: World, ps: seq<Poll>): (o: Outcome)
    requires Shaped(w) && Answered(ps)
    ensures Shaped(o.world)
    decreases |ps|
  {
    if ps == [] then Outcome(w, [], [], true)
    else
      var o := Run(w, ps[..|ps| - 1]);
      var p := ps[|ps| - 1];
      Then(o, if o.ok then Pass(o.world, p) else Stalled(o.world, p.events))
  }

  /** `main` after connecting: the resets, then the loop. */
  function Session(w: World, ps: seq<Poll>): (o: Outcome)
    requires |w.bank| == 8 && Sources.Valid(w.registry) && Answered(ps)
    ensures var r := Run(World(seq(8, j => Defaults), w.registry), ps);
      && o.world == r.world && o.ok == r.ok && o.requested == r.requested
      && o.sent == Start(w).sent + r.sent
  {
    var s := Start(w);
    Then(s, Run(s.world, ps))
  }

  /** Every mixer event of passes `ps`, in order. */
  function Events(ps: seq<Poll>): seq<MixerEvent>
    decreases |ps|
  {
    if ps == [] then [] else Events(ps[..|ps| - 1]) + ps[|ps| - 1].events
  }

  /**
   * Once a handler has raised, the loop is over: what follows is exactly the
   * later passes' mixer events delivered in order, with nothing more asked
   * of the mixer and the run still failed.
   */
  lemma {:induction false} RunAfterFault(w: World, ps: seq<Poll>, i: nat)
    requires Shaped(w) && Answered(ps) && i <= |ps|
    requires !Run(w, ps[..i]).ok
    ensures var a := Run(w, ps[..i]);
      var d := DeliverAll(a.world, Events(ps[i..]));
      Run(w, ps) == Outcome(d.world, a.sent + d.sent, a.requested, false)
    decreases |ps| - i
  {
    if i < |ps| {
      PassesSplit(ps, i);
      RunAfterFault(w, ps[..|ps| - 1], i);
      FaultStep(w, ps, i);
    } else {
      FaultEnd(w, ps, i);
    }
  }

  /** The base of `RunAfterFault`: no pass after the fault. */
  lemma FaultEnd(w: World, ps: seq<Poll>, i: nat)
    requires Shaped(w) && Answered(ps) && i == |ps|
    requires !Run(w, ps[..i]).ok
    ensures var a := Run(w, ps[..i]);
      var d := DeliverAll(a.world, Events(ps[i..]));
      Run(w, ps) == Outcome(d.world, a.sent + d.sent, a.requested, false)
  {
    PassesSplit(ps, i);
    NoFaultPass(Run(w, ps));
  }

  /** The step of `RunAfterFault`: from the claim for all passes but the last to the claim for all. */
  lemma FaultStep(w: World, ps: seq<Poll>, i: nat)
    requires Shaped(w) && Answered(ps) && i < |ps|
    requires Answered(ps[..|ps| - 1]) && ps[..|ps| - 1][..i] == ps[..i] && !Run(w, ps[..i]).ok
    requires Events(ps[i..]) == Events(ps[..|ps| - 1][i..]) + ps[|ps| - 1].events
    requires var a := Run(w, ps[..i]);
      var d := DeliverAll(a.world, Events(ps[..|ps| - 1][i..]));
      Run(w, ps[..|ps| - 1]) == Outcome(d.world, a.sent + d.sent, a.requested, false)
    ensures var a := Run(w, ps[..i]);
      var d := DeliverAll(a.world, Events(ps[i..]));
      Run(w, ps) == Outcome(d.world, a.sent + d.sent, a.requested, false)
  {
    LastPassStalled(w, ps);
    FaultPass(Run(w, ps[..i]), Events(ps[..|ps| - 1][i..]), ps[|ps| - 1].events);
  }

  /** A pass after a fault runs only the callbacks. */
  lemma LastPassStalled(w: World, ps: seq<Poll>)
    requires Shaped(w) && Answered(ps) && ps != []
    requires Answered(ps[..|ps| - 1]) && !Run(w, ps[..|ps| - 1]).ok
    ensures var o := Run(w, ps[..|ps| - 1]); Run(w, ps) == Then(o, Stalled(o.world, ps[|ps| - 1].events))
  {
  }

  /** The sequence facts `RunAfterFault` steps by. */
  lemma PassesSplit(ps: seq<Poll>, i: nat)
    requires i <= |ps|
    ensures i < |ps| ==> ps[..|ps| - 1][..i] == ps[..i] && Events(ps[i..]) == Events(ps[..|ps| - 1][i..]) + ps[|ps| - 1].events
    ensures i == |ps| ==> ps[..i] == ps && Events(ps[i..]) == []
  {
    if i < |ps| {
      assert ps[i..][..|ps[i..]| - 1] == ps[..|ps| - 1][i..];
    } else {
      assert ps[..i] == ps;
      assert ps[i..] == [];
    }
  }

  /** No pass after a fault: nothing more happens. */
  lemma NoFaultPass(a: Outcome)
    requires Shaped(a.world) && !a.ok
    ensures var d := DeliverAll(a.world, []); a == Outcome(d.world, a.sent + d.sent, a.requested, false)
  {
    assert a.sent + [] == a.sent;
  }

  /** The step of `RunAfterFault`: one more pass of callbacks after a fault. */
  lemma FaultPass(a: Outcome, x: seq<MixerEvent>, y: seq<MixerEvent>)
    requires Shaped(a.world)
    ensures var d := DeliverAll(a.world, x);
      var r := Outcome(d.world, a.sent + d.sent, a.requested, false);
      var e := DeliverAll(a.world, x + y);
      Then(r, Stalled(r.world, y)) == Outcome(e.world, a.sent + e.sent, a.requested, false)
  {
    var d := DeliverAll(a.world, x);
    DeliverAllAppend(a.world, x, y);
    var e := DeliverAll(d.world, y);
    assert (a.sent + d.sent) + e.sent == a.sent + (d.sent + e.sent);
    assert a.requested + [] == a.requested;
  }

  /** Every pass keeps the console's invariant. */
  lemma PassValid(w: World, p: Poll)
    requires Valid(w) && |p.replies.probes| == |p.replies.inputs|
    ensures Valid(Pass(w, p).world)
  {
    StepValid(w, p.now, p.handled, p.incoming, p.replies);
    DeliverAllValid(Step(w, p.now, p.handled, p.incoming, p.replies).world, p.events);
  }

  /** Every pass of the loop, and every callback after it has ended, keeps the console's invariant. */
  lemma {:induction false} RunValid(w: World, ps: seq<Poll>)
    requires Valid(w) && Answered(ps)
    ensures Valid(Run(w, ps).world)
    decreases |ps|
  {
    if ps != [] {
      var q := ps[..|ps| - 1];
      RunValid(w, q);
      var o := Run(w, q);
      var p := ps[|ps| - 1];
      if o.ok {
        PassValid(o.world, p);
      } else {
        DeliverAllValid(o.world, p.events);
      }
    }
  }

  /**
   * From the resets on, the console's invariant holds whatever the surface
   * sends and whatever events the mixer pushes between passes.
   */
  lemma SessionValid(w: World, ps: seq<Poll>)
    requires |w.bank| == 8 && Sources.Valid(w.registry) && Answered(ps)
    ensures Valid(Session(w, ps).world)
  {
    StartValid(w);
    RunValid(Start(w).world, ps);
  }

  /** Restoring strips changes no colour index. */
  lemma RestoreOthersColors(bank: seq<StripState>, k: int, n: nat)
    requires n <= |bank|
    ensures Colors(RestoreOthers(bank, k, n)) == Colors(bank)
  {
    var b := RestoreOthers(bank, k, n);
    assert forall j :: 0 <= j < |bank| ==> b[j].colorIdx == bank[j].colorIdx;
  }
}
