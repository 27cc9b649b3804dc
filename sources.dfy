/**
 * The source registry `obs_inputs`: an ordered table of assignable mixer
 * sources.  Slot 0 is the CANCEL sentinel and slot 1 the RESET sentinel;
 * slots from 2 on are refilled from the mixer's input list and then filtered
 * by a per-source probe.  The table's keys always run 0, 1, 2, ..., so it is
 * modelled as a sequence indexed by slot.
 */
module Sources {
  import opened Common

  datatype Entry = Entry(name: string, id: string)

  const CancelEntry := Entry("CANCEL", "0")
  const ResetEntry := Entry("RESET", "1")

  /** The table the program starts with. */
  const Initial: seq<Entry> := [CancelEntry, ResetEntry]

  predicate Valid(reg: seq<Entry>)
  {
    |reg| >= 2 && reg[0] == CancelEntry && reg[1] == ResetEntry
  }

  /** `obs_inputs[i]`: None where the dictionary would raise KeyError. */
  function Lookup(reg: seq<Entry>, i: int): (r: Option<Entry>)
    ensures r.Some? <==> 0 <= i < |reg|
    ensures r.Some? ==> r.value == reg[i]
  {
    if 0 <= i < |reg| then Some(reg[i]) else None
  }

  /** Entries beyond the refilled slots, which a refill leaves in place. */
  function Stale(reg: seq<Entry>, n: nat): seq<Entry>
  {
    if 2 + n < |reg| then reg[2 + n..] else []
  }

  /**
   * The refill: input i is written into slot i + 2, overwriting or adding
   * slots, and nothing is cleared.
   */
  function Refill(reg: seq<Entry>, inputs: seq<Entry>): (r: seq<Entry>)
    requires |reg| >= 2
    ensures |r| == Max(|reg|, 2 + |inputs|)
  {
    reg[..2] + inputs + Stale(reg, |inputs|)
  }

  /** Writing one more input extends the refill by one slot, in place or at the end. */
  lemma RefillStep(reg: seq<Entry>, inputs: seq<Entry>, e: Entry)
    requires |reg| >= 2
    ensures 2 + |inputs| <= |Refill(reg, inputs)|
    ensures Refill(reg, inputs + [e]) ==
      if 2 + |inputs| < |Refill(reg, inputs)| then Refill(reg, inputs)[2 + |inputs| := e]
      else Refill(reg, inputs) + [e]
  {
    var n := |inputs|;
    var before := Refill(reg, inputs);
    var after := Refill(reg, inputs + [e]);
    if 2 + n < |before| {
      assert |after| == |before|;
      forall i | 0 <= i < |after| ensures after[i] == before[2 + n := e][i] {
        if i < 2 {
        } else if i < 2 + n {
          assert after[i] == inputs[i - 2];
        } else if i == 2 + n {
        } else {
          assert after[i] == reg[i];
        }
      }
    } else {
      assert after == before + [e];
    }
  }

  /** Indices of the probes that succeeded, in increasing order. */
  function Passing(oks: seq<bool>): (ix: seq<int>)
    ensures forall j :: 0 <= j < |ix| ==> 0 <= ix[j] < |oks| && oks[ix[j]]
    ensures forall j, l :: 0 <= j < l < |ix| ==> ix[j] < ix[l]
    ensures forall i :: 0 <= i < |oks| ==> (oks[i] <==> i in ix)
  {
    if oks == [] then []
    else
      var n := |oks| - 1;
      assert forall i :: 0 <= i < n ==> oks[..n][i] == oks[i];
      Passing(oks[..n]) + (if oks[n] then [n] else [])
  }

  /** The entries whose mask bit is set, in their original order. */
  function Keep(xs: seq<Entry>, oks: seq<bool>): (r: seq<Entry>)
    requires |xs| == |oks|
    ensures |r| <= |xs|
  {
    if xs == [] then []
    else
      var n := |xs| - 1;
      Keep(xs[..n], oks[..n]) + (if oks[n] then [xs[n]] else [])
  }

  /** `Keep` picks exactly the entries at the passing indices, in order. */
  lemma {:induction false} KeepSelects(xs: seq<Entry>, oks: seq<bool>)
    requires |xs| == |oks|
    ensures |Keep(xs, oks)| == |Passing(oks)|
    ensures forall j :: 0 <= j < |Passing(oks)| ==> Keep(xs, oks)[j] == xs[Passing(oks)[j]]
  {
    if xs != [] {
      var n := |xs| - 1;
      KeepSelects(xs[..n], oks[..n]);
    }
  }

  lemma {:induction false} KeepAppend(xs: seq<Entry>, oks: seq<bool>, ys: seq<Entry>, qs: seq<bool>)
    requires |xs| == |oks| && |ys| == |qs|
    ensures Keep(xs + ys, oks + qs) == Keep(xs, oks) + Keep(ys, qs)
    decreases |ys|
  {
    if ys == [] {
      assert xs + ys == xs && oks + qs == oks;
    } else {
      var n := |ys| - 1;
      assert (xs + ys)[..|xs| + n] == xs + ys[..n];
      assert (oks + qs)[..|oks| + n] == oks + qs[..n];
      KeepAppend(xs, oks, ys[..n], qs[..n]);
    }
  }

  function AllTrue(n: nat): (r: seq<bool>)
    ensures |r| == n && forall i :: 0 <= i < n ==> r[i]
  {
    seq(n, i => true)
  }

  lemma {:induction false} KeepAll(xs: seq<Entry>)
    ensures Keep(xs, AllTrue(|xs|)) == xs
  {
    if xs != [] {
      var n := |xs| - 1;
      assert AllTrue(|xs|)[..n] == AllTrue(n);
      KeepAll(xs[..n]);
    }
  }

  /** Which slots survive: the sentinels, slots whose probe succeeded, and every slot beyond the probed ones. */
  function SlotMask(size: nat, oks: seq<bool>): (m: seq<bool>)
    requires size >= 2 + |oks|
    ensures |m| == size
  {
    [true, true] + oks + AllTrue(size - 2 - |oks|)
  }

  /**
   * `filter_audio_inputs`: the slot of every failed probe is removed and the
   * remaining slots are renumbered from 0 in their old order.
   */
  function Filter(reg: seq<Entry>, oks: seq<bool>): (r: seq<Entry>)
    requires |reg| >= 2 + |oks|
    ensures r == reg[..2] + Keep(reg[2..2 + |oks|], oks) + reg[2 + |oks|..]
  {
    var m := SlotMask(|reg|, oks);
    var n := 2 + |oks|;
    assert reg == reg[..2] + reg[2..n] + reg[n..];
    KeepAppend(reg[..2] + reg[2..n], [true, true] + oks, reg[n..], AllTrue(|reg| - n));
    KeepAppend(reg[..2], [true, true], reg[2..n], oks);
    KeepAll(reg[..2]);
    KeepAll(reg[n..]);
    assert AllTrue(2) == [true, true];
    Keep(reg, m)
  }

  /**
   * A refresh: refill from the mixer's input list, then filter by the probes
   * (one probe result per input).  The sentinels stay, the survivors follow
   * in input order, and stale slots of a longer previous table follow them.
   */
  function Refresh(reg: seq<Entry>, inputs: seq<Entry>, oks: seq<bool>): (r: seq<Entry>)
    requires Valid(reg) && |oks| == |inputs|
    ensures Valid(r)
    ensures r == [CancelEntry, ResetEntry] + Keep(inputs, oks) + Stale(reg, |inputs|)
  {
    var full := Refill(reg, inputs);
    assert full[2..2 + |inputs|] == inputs;
    assert full[2 + |inputs|..] == Stale(reg, |inputs|);
    Filter(full, oks)
  }

  /**
   * After a refresh: slots 0 and 1 hold CANCEL and RESET; slot 2 + j holds
   * the j-th input whose probe succeeded (so survivors keep their order and
   * every failed input's position is skipped); what follows is exactly the
   * old table's slots beyond the new input list, if it was longer.
   */
  lemma RefreshLayout(reg: seq<Entry>, inputs: seq<Entry>, oks: seq<bool>)
    requires Valid(reg) && |oks| == |inputs|
    ensures var r := Refresh(reg, inputs, oks);
      && r[0] == CancelEntry && r[1] == ResetEntry
      && |r| == 2 + |Passing(oks)| + |Stale(reg, |inputs|)|
      && (forall j :: 0 <= j < |Passing(oks)| ==> r[2 + j] == inputs[Passing(oks)[j]])
      && r[2 + |Passing(oks)|..] == Stale(reg, |inputs|)
  {
    KeepSelects(inputs, oks);
    Layout(Keep(inputs, oks), Stale(reg, |inputs|), Passing(oks), inputs);
  }

  /** The slots of a table made of the sentinels, entries `k` picked from `inputs` at `ix`, and `st`. */
  lemma Layout(k: seq<Entry>, st: seq<Entry>, ix: seq<int>, inputs: seq<Entry>)
    requires |k| == |ix| && forall j :: 0 <= j < |ix| ==> 0 <= ix[j] < |inputs| && k[j] == inputs[ix[j]]
    ensures var r := [CancelEntry, ResetEntry] + k + st;
      && r[0] == CancelEntry && r[1] == ResetEntry
      && |r| == 2 + |ix| + |st|
      && (forall j :: 0 <= j < |ix| ==> r[2 + j] == inputs[ix[j]])
      && r[2 + |ix|..] == st
  {
    var r := [CancelEntry, ResetEntry] + k + st;
    forall j | 0 <= j < |ix| ensures r[2 + j] == inputs[ix[j]] {
      assert r[2 + j] == k[j];
    }
    assert r[2 + |k|..] == st;
  }

  /** When the new list fills at least the old table, a refresh leaves no stale slot. */
  lemma RefreshRebuilds(reg: seq<Entry>, inputs: seq<Entry>, oks: seq<bool>)
    requires Valid(reg) && |oks| == |inputs| && |reg| <= 2 + |inputs|
    ensures Refresh(reg, inputs, oks) == [CancelEntry, ResetEntry] + Keep(inputs, oks)
  {
    assert Stale(reg, |inputs|) == [];
  }

  /** A shorter list leaves the old table's higher slots in place. */
  lemma RefreshKeepsStaleSlots(reg: seq<Entry>, inputs: seq<Entry>, oks: seq<bool>)
    requires Valid(reg) && |oks| == |inputs| && |reg| > 2 + |inputs|
    ensures |Refresh(reg, inputs, oks)| >= |reg| - |inputs|
    ensures Refresh(reg, inputs, oks)[|Refresh(reg, inputs, oks)| - 1] == reg[|reg| - 1]
  {
  }
}
