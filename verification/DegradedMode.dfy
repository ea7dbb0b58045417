/** Two stores for the degraded-mode flag: the boolean configuration row, and the older
    text marker kept inside the active UI-map bundle. The text store refines a boolean. */
module DegradedMode {
  import opened BotTypes

  // ---------- the boolean store ----------

  /** The `SystemConfig` row with key "degraded_mode", absent until the first set. */
  class ConfigStore {
    var enabled: Option<bool>

    ghost function Flag(): bool
      reads this
    {
      enabled == Some(true)
    }

    constructor ()
      ensures !Flag()
    {
      enabled := None;
    }

    method IsDegraded() returns (r: bool)
      ensures r == Flag()
    {
      r := enabled.Some? && enabled.value;
    }

    method SetDegraded(on: bool)
      modifies this
      ensures Flag() == on
    {
      if enabled.None? {
        enabled := Some(false);
      }
      enabled := Some(on);
    }
  }

  // ---------- the text marker ----------

  const MARKER_ON := "degraded_mode: true"
  const MARKER_OFF := "degraded_mode: false"

  predicate OccursAt(txt: string, m: string, i: nat) {
    i + |m| <= |txt| && txt[i..i + |m|] == m
  }

  ghost predicate Contains(txt: string, m: string) {
    exists i: nat :: OccursAt(txt, m, i)
  }

  /** `txt.replace(MARKER_ON, MARKER_OFF)`: leftmost occurrences first, never rescanning
      what was inserted. */
  function Replaced(txt: string): string {
    if |txt| < |MARKER_ON| then txt
    else if OccursAt(txt, MARKER_ON, 0) then MARKER_OFF + Replaced(txt[|MARKER_ON|..])
    else [txt[0]] + Replaced(txt[1..])
  }

  /** A text begins with a suffix of the marker exactly when its head and tail do. */
  lemma SuffixStep(i: nat, txt: string)
    requires i < |MARKER_ON| && |txt| > 0
    ensures MARKER_ON[i..] <= txt <==> txt[0] == MARKER_ON[i] && MARKER_ON[i + 1..] <= txt[1..]
  {
    var suffix := MARKER_ON[i..];
    assert suffix == [MARKER_ON[i]] + MARKER_ON[i + 1..] && txt == [txt[0]] + txt[1..];
    if txt[0] == MARKER_ON[i] && MARKER_ON[i + 1..] <= txt[1..] {
      assert txt[1..][..|suffix| - 1] == MARKER_ON[i + 1..];
      assert txt[..|suffix|] == [txt[0]] + txt[1..][..|suffix| - 1];
    }
    if suffix <= txt {
      assert txt[..|suffix|] == suffix && txt[1..][..|suffix| - 1] == suffix[1..];
    }
  }

  /** If the replaced text begins with a proper suffix of the marker, the text did so
      itself: no inserted marker can supply it. */
  lemma {:induction false} SuffixWasThere(txt: string, i: nat)
    requires 1 <= i <= |MARKER_ON|
    ensures MARKER_ON[i..] <= Replaced(txt) ==> MARKER_ON[i..] <= txt
    decreases |MARKER_ON| - i
  {
    if i < |MARKER_ON| && |txt| >= |MARKER_ON| {
      if OccursAt(txt, MARKER_ON, 0) {
        OffNeverMatches(i, Replaced(txt));
      } else {
        SuffixStep(i, Replaced(txt));
        SuffixStep(i, txt);
        SuffixWasThere(txt[1..], i + 1);
        assert Replaced(txt)[1..] == Replaced(txt[1..]);
      }
    }
  }

  /** A text that starts with the off marker does not start with a suffix of the on marker. */
  lemma OffNeverMatches(i: nat, r: string)
    requires 1 <= i < |MARKER_ON| && MARKER_OFF <= r
    ensures !(MARKER_ON[i..] <= r)
  {
    // a 'd' inside the marker is never followed by an 'e' and a 'g'
    var m := if MARKER_ON[i] == 'd' then 2 else 0;
    assert MARKER_ON[i] == 'd' ==> i == 5 || i == 7 || i == 11;
    assert MARKER_ON[i..][m] == MARKER_ON[i + m] && r[m] == MARKER_OFF[m];
    assert MARKER_ON[i + m] != MARKER_OFF[m];
  }

  /** No occurrence of the on marker starts inside an inserted off marker. */
  lemma NoneStartsInOff(r: string, k: nat)
    requires MARKER_OFF <= r && k < |MARKER_OFF|
    ensures !OccursAt(r, MARKER_ON, k)
  {
    if k + |MARKER_ON| <= |r| {
      assert MARKER_OFF[k] == 'd' ==> k == 0 || k == 5 || k == 7 || k == 11;
      var m := if k == 0 then 15 else if MARKER_OFF[k] == 'd' then 2 else 0;
      assert r[k..k + |MARKER_ON|][m] == r[k + m] == MARKER_OFF[k + m];
      assert MARKER_OFF[k + m] != MARKER_ON[m];
    }
  }

  /** Replacing leaves no occurrence of the on marker anywhere, and creates none across
      the seams between inserted and kept text. */
  lemma {:induction false} ReplaceLeavesNone(txt: string, k: nat)
    ensures !OccursAt(Replaced(txt), MARKER_ON, k)
    decreases |txt|
  {
    var r := Replaced(txt);
    if |txt| >= |MARKER_ON| {
      if OccursAt(txt, MARKER_ON, 0) {
        var rest := Replaced(txt[|MARKER_ON|..]);
        if k < |MARKER_OFF| {
          NoneStartsInOff(r, k);
        } else {
          ReplaceLeavesNone(txt[|MARKER_ON|..], k - |MARKER_OFF|);
          OccursShift(MARKER_OFF, rest, k - |MARKER_OFF|);
        }
      } else if k > 0 {
        ReplaceLeavesNone(txt[1..], k - 1);
        OccursShift([txt[0]], Replaced(txt[1..]), k - 1);
      } else {
        var rest := Replaced(txt[1..]);
        SuffixWasThere(txt[1..], 1);
        assert r[1..] == rest;
        SuffixStep(0, txt);
        SuffixStep(0, r);
        OccursAtStart(txt);
        OccursAtStart(r);
      }
    }
  }

  lemma OccursAtStart(txt: string)
    ensures OccursAt(txt, MARKER_ON, 0) <==> MARKER_ON[0..] <= txt
  {
    assert MARKER_ON[0..] == MARKER_ON;
    if |MARKER_ON| <= |txt| {
      assert txt[0..|MARKER_ON|] == txt[..|MARKER_ON|];
    }
  }

  lemma OccursShift(front: string, rest: string, k: nat)
    ensures OccursAt(front + rest, MARKER_ON, |front| + k) <==> OccursAt(rest, MARKER_ON, k)
  {
    if k + |MARKER_ON| <= |rest| {
      assert (front + rest)[|front| + k..|front| + k + |MARKER_ON|] == rest[k..k + |MARKER_ON|];
    }
  }

  /** Without an occurrence nothing is replaced. */
  lemma {:induction false} ReplaceKeepsCleanText(txt: string)
    requires !Contains(txt, MARKER_ON)
    ensures Replaced(txt) == txt
    decreases |txt|
  {
    if |txt| >= |MARKER_ON| {
      assert !OccursAt(txt, MARKER_ON, 0);
      forall k: nat ensures !OccursAt(txt[1..], MARKER_ON, k) {
        assert txt == [txt[0]] + txt[1..];
        OccursShift([txt[0]], txt[1..], k);
        assert !OccursAt(txt, MARKER_ON, 1 + k);
      }
      ReplaceKeepsCleanText(txt[1..]);
    }
  }

  function SetText(txt: string, on: bool): string {
    if on then (if HasMarker(txt, 0) then txt else txt + "\n" + MARKER_ON + "\n")
    else if HasMarker(txt, 0) then Replaced(txt) else txt
  }

  /** The substring test `in` / `find`, scanning from position `i`. */
  predicate HasMarker(txt: string, i: nat)
    decreases |txt| - i
  {
    i + |MARKER_ON| <= |txt| && (OccursAt(txt, MARKER_ON, i) || HasMarker(txt, i + 1))
  }

  lemma {:induction false} HasMarkerIsContains(txt: string, i: nat)
    ensures HasMarker(txt, i) <==> exists k: nat :: k >= i && OccursAt(txt, MARKER_ON, k)
    decreases |txt| - i
  {
    if i + |MARKER_ON| <= |txt| {
      HasMarkerIsContains(txt, i + 1);
    }
  }

  /** One set call on the text is one set of the boolean read from it. */
  lemma SetTextRefines(txt: string, on: bool)
    ensures Contains(SetText(txt, on), MARKER_ON) == on
    ensures Contains(txt, MARKER_ON) == on ==> SetText(txt, on) == txt
  {
    HasMarkerIsContains(txt, 0);
    if on && !HasMarker(txt, 0) {
      var t := SetText(txt, on);
      assert t[|txt| + 1..|txt| + 1 + |MARKER_ON|] == MARKER_ON;
      assert OccursAt(t, MARKER_ON, |txt| + 1);
    }
    if on && HasMarker(txt, 0) {
      assert Contains(txt, MARKER_ON);
    }
    if !on {
      forall k: nat ensures !OccursAt(SetText(txt, on), MARKER_ON, k) {
        if HasMarker(txt, 0) { ReplaceLeavesNone(txt, k); }
      }
    }
  }

  /** The text store: `None` when there is no active bundle, which reads as off and on
      which setting does nothing. */
  function SetStore(content: Option<string>, on: bool): Option<string> {
    if content.None? then None else Some(SetText(content.value, on))
  }

  ghost predicate ReadStore(content: Option<string>) {
    content.Some? && Contains(content.value, MARKER_ON)
  }

  function SetAll(content: Option<string>, sets: seq<bool>): Option<string> {
    if |sets| == 0 then content else SetStore(SetAll(content, sets[..|sets| - 1]), sets[|sets| - 1])
  }

  /** For every bundle text and every non-empty sequence of set calls, what is read
      afterwards is the last value set, exactly when a bundle is active or that last value
      is off. (The boolean store always gives the last value set.) */
  lemma {:induction false} TextRefinesBoolean(content: Option<string>, sets: seq<bool>)
    requires |sets| > 0
    ensures ReadStore(SetAll(content, sets)) == sets[|sets| - 1] <==> content.Some? || !sets[|sets| - 1]
  {
    var front := SetAll(content, sets[..|sets| - 1]);
    SetAllPresence(content, sets[..|sets| - 1]);
    if front.Some? {
      SetTextRefines(front.value, sets[|sets| - 1]);
    }
  }

  lemma {:induction false} SetAllPresence(content: Option<string>, sets: seq<bool>)
    ensures SetAll(content, sets).Some? == content.Some?
    decreases |sets|
  {
    if |sets| > 0 {
      SetAllPresence(content, sets[..|sets| - 1]);
    }
  }

  class BundleTextStore {
    var content: Option<string>

    method IsDegraded() returns (r: bool)
      ensures r == ReadStore(content)
    {
      if content.None? {
        return false;
      }
      HasMarkerIsContains(content.value, 0);
      r := HasMarker(content.value, 0);
    }

    method SetDegraded(on: bool)
      modifies this
      ensures content == SetStore(old(content), on)
      ensures content.Some? ==> ReadStore(content) == on
    {
      if content.None? {
        return;
      }
      var txt := content.value;
      SetTextRefines(txt, on);
      if on && !HasMarker(txt, 0) {
        txt := txt + "\n" + MARKER_ON + "\n";
      }
      if !on && HasMarker(txt, 0) {
        txt := Replaced(txt);
      }
      content := Some(txt);
    }
  }
}
