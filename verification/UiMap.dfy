/** The UI-map validator, the selector resolver it protects, and the recorder's approval
    of a selector. */
module UiMap {
  import opened BotTypes

  /** A value that may be missing, present but null, or present. */
  datatype Maybe<T> = Absent | Null | Present(value: T)

  type Section = map<string, string>

  datatype Table = Table(rows: Option<string>, columns: Option<seq<(string, string)>>)

  datatype Screen = Screen(name: string, navPath: seq<string>, menuClicks: seq<string>, table: Table)

  datatype Map = Map(bindings: Maybe<map<string, Maybe<Section>>>, screens: seq<Screen>)

  const SECTIONS := ["buttons", "fields", "tables", "actions"]

  /** `bindings.get(name) or {}`. */
  function SectionOf(u: Map, name: string): Section {
    if u.bindings.Present? && name in u.bindings.value && u.bindings.value[name].Present?
    then u.bindings.value[name].value else map[]
  }

  // ---------- resolver ----------

  /** The first of the four sections, from the `i`-th on, that binds the key. */
  function SelectorFrom(u: Map, key: string, i: nat): Option<string>
    decreases |SECTIONS| - i
  {
    if i >= |SECTIONS| then None
    else if key in SectionOf(u, SECTIONS[i]) then Some(SectionOf(u, SECTIONS[i])[key])
    else SelectorFrom(u, key, i + 1)
  }

  /** `get_selector`; `None` stands for LocatorError. */
  function GetSelector(u: Map, key: string): Option<string> {
    SelectorFrom(u, key, 0)
  }

  predicate BindsAt(u: Map, i: nat, key: string)
    requires i < |SECTIONS|
  {
    key in SectionOf(u, SECTIONS[i])
  }

  lemma {:induction false} SelectorFromFirst(u: Map, key: string, i: nat)
    requires i <= |SECTIONS|
    ensures SelectorFrom(u, key, i).None? <==> forall k: nat | i <= k < |SECTIONS| :: !BindsAt(u, k, key)
    ensures forall k: nat | i <= k < |SECTIONS| && BindsAt(u, k, key) && (forall l: nat | i <= l < k :: !BindsAt(u, l, key)) ::
              SelectorFrom(u, key, i) == Some(SectionOf(u, SECTIONS[k])[key])
    decreases |SECTIONS| - i
  {
    if i < |SECTIONS| {
      SelectorFromFirst(u, key, i + 1);
      assert BindsAt(u, i, key) <==> key in SectionOf(u, SECTIONS[i]);
    }
  }

  // ---------- validator ----------

  datatype Issue = MissingKey(screen: string, key: string) | MissingColumn(screen: string, column: string, key: string)

  function ClickIssues(u: Map, name: string, keys: seq<string>): seq<Issue> {
    if |keys| == 0 then []
    else ClickIssues(u, name, keys[..|keys| - 1])
         + (if GetSelector(u, keys[|keys| - 1]).None? then [MissingKey(name, keys[|keys| - 1])] else [])
  }

  function RowIssues(u: Map, s: Screen): seq<Issue> {
    if s.table.rows.Some? && s.table.rows.value != "" && GetSelector(u, s.table.rows.value).None?
    then [MissingKey(s.name, s.table.rows.value)] else []
  }

  function ColumnIssues(u: Map, name: string, columns: seq<(string, string)>): seq<Issue> {
    if |columns| == 0 then []
    else
      var c := columns[|columns| - 1];
      ColumnIssues(u, name, columns[..|columns| - 1]) + (if GetSelector(u, c.1).None? then [MissingColumn(name, c.0, c.1)] else [])
  }

  function Columns(s: Screen): seq<(string, string)> {
    if s.table.columns.Some? then s.table.columns.value else []
  }

  function ScreenIssues(u: Map, s: Screen): seq<Issue> {
    ClickIssues(u, s.name, s.menuClicks) + RowIssues(u, s) + ColumnIssues(u, s.name, Columns(s))
  }

  function Issues(u: Map, n: nat): seq<Issue>
    requires n <= |u.screens|
  {
    if n == 0 then [] else Issues(u, n - 1) + ScreenIssues(u, u.screens[n - 1])
  }

  /** The keys that navigation and table reading may have to resolve. */
  predicate Needs(s: Screen, key: string) {
    key in s.menuClicks || (s.table.rows == Some(key) && key != "") || exists i :: 0 <= i < |Columns(s)| && Columns(s)[i].1 == key
  }

  /** The validator's key set: it does not look at values or order. */
  method AllKeys(u: Map) returns (keys: set<string>)
    ensures forall key :: key in keys <==> GetSelector(u, key).Some?
  {
    keys := {};
    var i := 0;
    while i < |SECTIONS|
      invariant 0 <= i <= |SECTIONS|
      invariant forall key :: key in keys <==> exists k: nat :: k < i && BindsAt(u, k, key)
    {
      assert forall key :: BindsAt(u, i, key) <==> key in SectionOf(u, SECTIONS[i]).Keys;
      keys := keys + SectionOf(u, SECTIONS[i]).Keys;
      i := i + 1;
    }
    forall key ensures key in keys <==> GetSelector(u, key).Some? {
      SelectorFromFirst(u, key, 0);
    }
  }

  method ValidateUimap(u: Map) returns (ok: bool, issues: seq<Issue>)
    ensures issues == Issues(u, |u.screens|) && (ok <==> issues == [])
  {
    hide ScreenIssues, GetSelector;
    var keys := AllKeys(u);
    issues := [];
    var n := 0;
    while n < |u.screens|
      invariant 0 <= n <= |u.screens| && issues == Issues(u, n)
    {
      var s := u.screens[n];
      var own := ValidateScreen(u, s, keys);
      issues := issues + own;
      n := n + 1;
    }
    ok := |issues| == 0;
  }

  method ValidateScreen(u: Map, s: Screen, keys: set<string>) returns (issues: seq<Issue>)
    requires forall key :: key in keys <==> GetSelector(u, key).Some?
    ensures issues == ScreenIssues(u, s)
  {
    issues := [];
    var i := 0;
    while i < |s.menuClicks|
      invariant 0 <= i <= |s.menuClicks| && issues == ClickIssues(u, s.name, s.menuClicks[..i])
    {
      assert s.menuClicks[..i + 1][..i] == s.menuClicks[..i];
      if s.menuClicks[i] !in keys {
        issues := issues + [MissingKey(s.name, s.menuClicks[i])];
      }
      i := i + 1;
    }
    assert s.menuClicks[..i] == s.menuClicks;
    if s.table.rows.Some? && s.table.rows.value != "" && s.table.rows.value !in keys {
      issues := issues + [MissingKey(s.name, s.table.rows.value)];
    }
    var cols := Columns(s);
    ghost var before := issues;
    i := 0;
    while i < |cols|
      invariant 0 <= i <= |cols| && issues == before + ColumnIssues(u, s.name, cols[..i])
    {
      assert cols[..i + 1][..i] == cols[..i];
      if cols[i].1 !in keys {
        issues := issues + [MissingColumn(s.name, cols[i].0, cols[i].1)];
      }
      i := i + 1;
    }
    assert cols[..i] == cols;
  }

  // ---------- sound and complete ----------

  lemma {:induction false} NoClickIssues(u: Map, name: string, keys: seq<string>)
    ensures ClickIssues(u, name, keys) == [] <==> forall key | key in keys :: GetSelector(u, key).Some?
    decreases |keys|
  {
    if |keys| > 0 {
      NoClickIssues(u, name, keys[..|keys| - 1]);
      assert forall key :: key in keys <==> key in keys[..|keys| - 1] || key == keys[|keys| - 1];
    }
  }

  lemma {:induction false} NoColumnIssues(u: Map, name: string, columns: seq<(string, string)>)
    ensures ColumnIssues(u, name, columns) == [] <==> forall i | 0 <= i < |columns| :: GetSelector(u, columns[i].1).Some?
    decreases |columns|
  {
    if |columns| > 0 {
      NoColumnIssues(u, name, columns[..|columns| - 1]);
    }
  }

  /** The resolver succeeds for every key the screen needs. */
  ghost predicate Resolves(u: Map, s: Screen) {
    forall key | Needs(s, key) :: GetSelector(u, key).Some?
  }

  lemma NoScreenIssues(u: Map, s: Screen)
    ensures ScreenIssues(u, s) == [] <==> Resolves(u, s)
  {
    NoClickIssues(u, s.name, s.menuClicks);
    NoColumnIssues(u, s.name, Columns(s));
    if Resolves(u, s) {
      forall i | 0 <= i < |Columns(s)| ensures GetSelector(u, Columns(s)[i].1).Some? {
        assert Needs(s, Columns(s)[i].1);
      }
      forall key | key in s.menuClicks ensures GetSelector(u, key).Some? {
        assert Needs(s, key);
      }
      if s.table.rows.Some? && s.table.rows.value != "" {
        assert Needs(s, s.table.rows.value);
      }
    }
  }

  /** The validator says ok exactly when the resolver succeeds for every menu-click key,
      every non-empty row key and every column key of every screen. */
  lemma {:induction false} ValidatorAgreesWithResolver(u: Map, n: nat)
    requires n <= |u.screens|
    ensures Issues(u, n) == [] <==> forall i | 0 <= i < n :: Resolves(u, u.screens[i])
  {
    hide ScreenIssues, Resolves;
    if n > 0 {
      ValidatorAgreesWithResolver(u, n - 1);
      NoScreenIssues(u, u.screens[n - 1]);
    }
  }

  // ---------- what validation buys at run time ----------

  /** The keys `navigate` clicks: those of the first screen with that path. */
  function NavigationKeys(screens: seq<Screen>, path: seq<string>): seq<string> {
    if |screens| == 0 then [] else if screens[0].navPath == path then screens[0].menuClicks else NavigationKeys(screens[1..], path)
  }

  /** The keys reading a table resolves: its row key, and the columns of the first screen
      that has this row key and a columns dict. */
  function TableKeys(screens: seq<Screen>, key: string): seq<string> {
    if |screens| == 0 then [key]
    else if screens[0].table.rows == Some(key) && screens[0].table.columns.Some? then
      [key] + seq(|screens[0].table.columns.value|, i requires 0 <= i < |screens[0].table.columns.value| => screens[0].table.columns.value[i].1)
    else TableKeys(screens[1..], key)
  }

  lemma {:induction false} NavigationNeeds(screens: seq<Screen>, path: seq<string>, key: string)
    requires key in NavigationKeys(screens, path)
    ensures exists i :: 0 <= i < |screens| && Needs(screens[i], key)
    decreases |screens|
  {
    if screens[0].navPath == path {
      assert Needs(screens[0], key);
    } else {
      NavigationNeeds(screens[1..], path, key);
      var i :| 0 <= i < |screens[1..]| && Needs(screens[1..][i], key);
      assert Needs(screens[i + 1], key);
    }
  }

  lemma {:induction false} TableNeeds(screens: seq<Screen>, tableKey: string, key: string)
    requires key in TableKeys(screens, tableKey) && key != tableKey
    ensures exists i :: 0 <= i < |screens| && Needs(screens[i], key)
    decreases |screens|
  {
    if screens[0].table.rows == Some(tableKey) && screens[0].table.columns.Some? {
      var i :| 0 <= i < |Columns(screens[0])| && Columns(screens[0])[i].1 == key;
      assert Needs(screens[0], key);
    } else {
      TableNeeds(screens[1..], tableKey, key);
      var i :| 0 <= i < |screens[1..]| && Needs(screens[1..][i], key);
      assert Needs(screens[i + 1], key);
    }
  }

  /** On a map with no issue, navigating anywhere and reading the table of any screen
      resolve every key they use. (A table key that is no screen's row key is not checked
      by the validator and may still be missing.) */
  lemma {:induction false} ValidatedMapsNeverMiss(u: Map, path: seq<string>, tableKey: string, key: string)
    requires Issues(u, |u.screens|) == []
    requires tableKey != "" && exists i :: 0 <= i < |u.screens| && u.screens[i].table.rows == Some(tableKey)
    requires key in NavigationKeys(u.screens, path) || key in TableKeys(u.screens, tableKey)
    ensures GetSelector(u, key).Some?
  {
    ValidatorAgreesWithResolver(u, |u.screens|);
    if key in NavigationKeys(u.screens, path) {
      NavigationNeeds(u.screens, path, key);
      var i :| 0 <= i < |u.screens| && Needs(u.screens[i], key);
      assert Resolves(u, u.screens[i]);
    } else if key != tableKey {
      TableNeeds(u.screens, tableKey, key);
      var i :| 0 <= i < |u.screens| && Needs(u.screens[i], key);
      assert Resolves(u, u.screens[i]);
    } else {
      var i :| 0 <= i < |u.screens| && u.screens[i].table.rows == Some(tableKey);
      assert Needs(u.screens[i], key) && Resolves(u, u.screens[i]);
    }
  }

  // ---------- approval ----------

  function GuessSection(tag: string): string {
    if "BTN_" <= tag then "buttons" else if "FIELD_" <= tag then "fields" else if "TABLE_" <= tag then "tables" else "actions"
  }

  /** `None` where the update raises: the bindings or the section are present but null. */
  function Bind(u: Map, section: string, tag: string, selector: string): Option<Map> {
    match u.bindings
    case Null => None
    case Absent => Some(u.(bindings := Present(map[section := Present(map[tag := selector])])))
    case Present(b) =>
      if section !in b || b[section].Absent? then Some(u.(bindings := Present(b[section := Present(map[tag := selector])])))
      else if b[section].Null? then None
      else Some(u.(bindings := Present(b[section := Present(b[section].value[tag := selector])])))
  }

  lemma BindSections(u: Map, section: string, tag: string, selector: string)
    requires Bind(u, section, tag, selector).Some?
    ensures var v := Bind(u, section, tag, selector).value;
            && v.screens == u.screens
            && SectionOf(v, section) == SectionOf(u, section)[tag := selector]
            && forall other :: other != section ==> SectionOf(v, other) == SectionOf(u, other)
  {
  }

  /** Binding a label leaves every other key's resolution alone; the label itself resolves
      to the new selector exactly when its section is one of the four and no earlier one
      binds it, and otherwise as before (the two cases coincide when that was the selector
      already). */
  lemma ApprovalIsLocal(u: Map, section: string, tag: string, selector: string)
    requires Bind(u, section, tag, selector).Some?
    ensures var v := Bind(u, section, tag, selector).value;
            && (forall key | key != tag :: GetSelector(v, key) == GetSelector(u, key))
            && (if TakesEffect(u, section, tag) then GetSelector(v, tag) == Some(selector)
                else GetSelector(v, tag) == GetSelector(u, tag))
  {
    BindSections(u, section, tag, selector);
    var v := Bind(u, section, tag, selector).value;
    forall key | key != tag ensures GetSelector(v, key) == GetSelector(u, key) {
      SameSelector(u, v, key, 0);
    }
    SelectorFromFirst(v, tag, 0);
    SelectorFromFirst(u, tag, 0);
    if TakesEffect(u, section, tag) {
      var k: nat :| k < |SECTIONS| && SECTIONS[k] == section && forall l: nat | l < k :: !BindsAt(u, l, tag);
      SectionsDiffer();
      assert BindsAt(v, k, tag) && forall l: nat | l < k :: !BindsAt(v, l, tag);
    } else {
      EarlierWins(u, v, section, tag, 0);
    }
  }

  predicate TakesEffect(u: Map, section: string, tag: string) {
    exists k: nat :: k < |SECTIONS| && SECTIONS[k] == section && forall l: nat | l < k :: !BindsAt(u, l, tag)
  }

  lemma SectionsDiffer()
    ensures forall i, k | 0 <= i < k < |SECTIONS| :: SECTIONS[i] != SECTIONS[k]
  {
    assert SECTIONS[0][0] == 'b' && SECTIONS[1][0] == 'f' && SECTIONS[2][0] == 't' && SECTIONS[3][0] == 'a';
  }

  lemma {:induction false} SameSelector(u: Map, v: Map, key: string, i: nat)
    requires forall name :: (key in SectionOf(v, name) <==> key in SectionOf(u, name))
                            && (key in SectionOf(u, name) ==> SectionOf(v, name)[key] == SectionOf(u, name)[key])
    ensures SelectorFrom(v, key, i) == SelectorFrom(u, key, i)
    decreases |SECTIONS| - i
  {
    if i < |SECTIONS| {
      SameSelector(u, v, key, i + 1);
    }
  }

  /** From section `i` on: if nothing before `i` binds the label and binding it takes no
      effect, the resolver finds the same thing as before. */
  lemma {:induction false} EarlierWins(u: Map, v: Map, section: string, tag: string, i: nat)
    requires i <= |SECTIONS| && !TakesEffect(u, section, tag)
    requires forall other :: other != section ==> SectionOf(v, other) == SectionOf(u, other)
    requires forall l: nat | l < i :: !BindsAt(u, l, tag)
    ensures SelectorFrom(v, tag, i) == SelectorFrom(u, tag, i)
    decreases |SECTIONS| - i
  {
    if i < |SECTIONS| {
      assert SECTIONS[i] != section;
      if !BindsAt(u, i, tag) {
        EarlierWins(u, v, section, tag, i + 1);
      }
    }
  }

  datatype Approval = Approval(section: Option<string>, tag: string, selector: string, alternatives: seq<string>,
                               altIndex: Option<int>, testFails: bool, force: bool)

  function ChosenSelector(a: Approval): string {
    if a.altIndex.Some? && 0 <= a.altIndex.value < |a.alternatives| then a.alternatives[a.altIndex.value] else a.selector
  }

  function SectionFor(a: Approval): string {
    if a.section.None? then GuessSection(a.tag) else a.section.value
  }

  predicate TestRefuses(a: Approval) {
    a.testFails && !a.force
  }

  /** The map after an approval request; unchanged when the click test fails without
      force or the update raises. */
  function AfterApproval(u: Map, a: Approval): Map {
    if TestRefuses(a) then u
    else
      var v := Bind(u, SectionFor(a), a.tag, ChosenSelector(a));
      if v.None? then u else v.value
  }

  /** The recording row and the active bundle, if there is one. */
  class Recorder {
    var approved: bool
    var selector: string
    var content: Option<Map>

    /** The request. The recording is stored as approved before the bundle is looked up, so
        it stays approved when there is no active bundle or the update raises. */
    method Approve(a: Approval) returns (ok: bool)
      requires a.selector == selector
      modifies this
      ensures TestRefuses(a) ==> approved == old(approved) && selector == old(selector)
      ensures !TestRefuses(a) ==> approved && selector == ChosenSelector(a)
      ensures content == if old(content).None? then None else Some(AfterApproval(old(content).value, a))
      ensures ok <==> !TestRefuses(a) && old(content).Some? && Bind(old(content).value, SectionFor(a), a.tag, ChosenSelector(a)).Some?
    {
      var section := if a.section.None? then GuessSection(a.tag) else a.section.value;
      var chosen := selector;
      if a.altIndex.Some? {
        var idx := a.altIndex.value;
        if |a.alternatives| > 0 && 0 <= idx < |a.alternatives| {
          chosen := a.alternatives[idx];
        }
      }
      if a.testFails && !a.force {
        return false;
      }
      approved, selector := true, chosen;
      if content.None? {
        return false;
      }
      var data := content.value;
      if data.bindings.Null? {
        return false;
      }
      var lb := if data.bindings.Absent? then map[] else data.bindings.value;
      if section in lb && lb[section].Null? {
        return false;
      }
      var sec := if section in lb && lb[section].Present? then lb[section].value else map[];
      content := Some(data.(bindings := Present(lb[section := Present(sec[a.tag := chosen])])));
      return true;
    }
  }

  function AfterApprovals(u: Map, approvals: seq<Approval>): Map {
    if |approvals| == 0 then u else AfterApproval(AfterApprovals(u, approvals[..|approvals| - 1]), approvals[|approvals| - 1])
  }

  /** Approving never unbinds: what resolves keeps resolving over any sequence of approvals. */
  lemma {:induction false} ApprovalsKeepResolution(u: Map, approvals: seq<Approval>)
    ensures AfterApprovals(u, approvals).screens == u.screens
    ensures forall key | GetSelector(u, key).Some? :: GetSelector(AfterApprovals(u, approvals), key).Some?
    decreases |approvals|
  {
    if |approvals| > 0 {
      var b, a := AfterApprovals(u, approvals[..|approvals| - 1]), approvals[|approvals| - 1];
      ApprovalsKeepResolution(u, approvals[..|approvals| - 1]);
      var section := SectionFor(a);
      if Bind(b, section, a.tag, ChosenSelector(a)).Some? {
        ApprovalIsLocal(b, section, a.tag, ChosenSelector(a));
        BindSections(b, section, a.tag, ChosenSelector(a));
      }
    }
  }

  lemma {:induction false} ClickIssuesFewer(u: Map, v: Map, name: string, keys: seq<string>, x: Issue)
    requires forall key | GetSelector(u, key).Some? :: GetSelector(v, key).Some?
    ensures x in ClickIssues(v, name, keys) ==> x in ClickIssues(u, name, keys)
    decreases |keys|
  {
    if |keys| > 0 { ClickIssuesFewer(u, v, name, keys[..|keys| - 1], x); }
  }

  lemma {:induction false} ColumnIssuesFewer(u: Map, v: Map, name: string, columns: seq<(string, string)>, x: Issue)
    requires forall key | GetSelector(u, key).Some? :: GetSelector(v, key).Some?
    ensures x in ColumnIssues(v, name, columns) ==> x in ColumnIssues(u, name, columns)
    decreases |columns|
  {
    if |columns| > 0 { ColumnIssuesFewer(u, v, name, columns[..|columns| - 1], x); }
  }

  lemma {:induction false} IssuesFewer(u: Map, v: Map, n: nat, x: Issue)
    requires v.screens == u.screens && n <= |u.screens|
    requires forall key | GetSelector(u, key).Some? :: GetSelector(v, key).Some?
    ensures x in Issues(v, n) ==> x in Issues(u, n)
  {
    hide ScreenIssues, GetSelector;
    if n > 0 {
      IssuesFewer(u, v, n - 1, x);
      ScreenIssuesFewer(u, v, u.screens[n - 1], x);
    }
  }

  lemma ScreenIssuesFewer(u: Map, v: Map, s: Screen, x: Issue)
    requires forall key | GetSelector(u, key).Some? :: GetSelector(v, key).Some?
    ensures x in ScreenIssues(v, s) ==> x in ScreenIssues(u, s)
  {
    hide ClickIssues, ColumnIssues, GetSelector;
    ClickIssuesFewer(u, v, s.name, s.menuClicks, x);
    ColumnIssuesFewer(u, v, s.name, Columns(s), x);
  }

  /** No sequence of approvals adds a validator issue; in particular a valid map stays valid. */
  lemma {:induction false} ApprovalsAddNoIssue(u: Map, approvals: seq<Approval>, x: Issue)
    ensures var v := AfterApprovals(u, approvals);
            v.screens == u.screens && (x in Issues(v, |v.screens|) ==> x in Issues(u, |u.screens|))
  {
    ApprovalsKeepResolution(u, approvals);
    IssuesFewer(u, AfterApprovals(u, approvals), |u.screens|, x);
  }

  /** A guessed section is always one of the four, so an approval without a section takes
      effect exactly when no earlier section binds the label. */
  lemma GuessedSectionIsKnown(tag: string)
    ensures exists k: nat :: k < |SECTIONS| && SECTIONS[k] == GuessSection(tag)
  {
    assert SECTIONS[0] == "buttons" && SECTIONS[1] == "fields" && SECTIONS[2] == "tables" && SECTIONS[3] == "actions";
  }
}
