/**
 * The behaviour of the options page (setting/modules/ui.js) that is more than decoration: the
 * stored order of the option panels and how the panels are shown and arranged from it, the
 * rules tying switches together, the check on the webhook URL, and the highlighted labels of
 * switches that are on.
 */
module SettingsUi {
  import opened Wrappers
  import opened Text
  import opened Seqs

  predicate Distinct(xs: seq<string>) {
    forall i, j :: 0 <= i < j < |xs| ==> xs[i] != xs[j]
  }

  /** `s` without the elements in `drop`, in order. */
  function Without(s: seq<string>, drop: set<string>): (r: seq<string>)
    ensures |r| <= |s|
  {
    if s == [] then [] else (if s[0] in drop then [] else [s[0]]) + Without(s[1..], drop)
  }

  lemma {:induction false} WithoutMembers(s: seq<string>, drop: set<string>, x: string)
    ensures x in Without(s, drop) <==> x in s && x !in drop
  {
    if s != [] {
      WithoutMembers(s[1..], drop, x);
      assert x in s <==> x == s[0] || x in s[1..];
    }
  }

  lemma {:induction false} WithoutConcat(a: seq<string>, b: seq<string>, drop: set<string>)
    ensures Without(a + b, drop) == Without(a, drop) + Without(b, drop)
  {
    if a == [] {
      assert a + b == b;
    } else {
      assert (a + b)[0] == a[0] && (a + b)[1..] == a[1..] + b;
      WithoutConcat(a[1..], b, drop);
    }
  }

  lemma {:induction false} WithoutTwice(s: seq<string>, d1: set<string>, d2: set<string>)
    ensures Without(Without(s, d1), d2) == Without(s, d1 + d2)
  {
    if s != [] {
      WithoutTwice(s[1..], d1, d2);
      WithoutConcat(if s[0] in d1 then [] else [s[0]], Without(s[1..], d1), d2);
    }
  }

  lemma {:induction false} WithoutNothing(s: seq<string>, drop: set<string>)
    requires forall i :: 0 <= i < |s| ==> s[i] !in drop
    ensures Without(s, drop) == s
  {
    if s != [] {
      WithoutNothing(s[1..], drop);
    }
  }

  lemma {:induction false} WithoutDistinct(s: seq<string>, drop: set<string>)
    requires Distinct(s)
    ensures Distinct(Without(s, drop))
  {
    if s != [] {
      WithoutDistinct(s[1..], drop);
      WithoutMembers(s[1..], drop, s[0]);
      assert s[0] !in s[1..];
    }
  }

  /** The list `updateOptionsOrder` stores: the old order without `optionId`, then `optionId` when it was switched on. */
  function NewOrder(order: seq<string>, optionId: string, isEnabled: bool): seq<string> {
    Without(order, {optionId}) + (if isEnabled then [optionId] else [])
  }

  function Count(s: seq<string>, x: string): nat {
    if s == [] then 0 else (if s[0] == x then 1 else 0) + Count(s[1..], x)
  }

  lemma {:induction false} CountWithout(s: seq<string>, x: string)
    ensures Count(Without(s, {x}), x) == 0
  {
    if s != [] {
      CountWithout(s[1..], x);
      CountConcat(if s[0] == x then [] else [s[0]], Without(s[1..], {x}), x);
    }
  }

  lemma {:induction false} CountConcat(a: seq<string>, b: seq<string>, x: string)
    ensures Count(a + b, x) == Count(a, x) + Count(b, x)
  {
    if a == [] {
      assert a + b == b;
    } else {
      assert (a + b)[0] == a[0] && (a + b)[1..] == a[1..] + b;
      CountConcat(a[1..], b, x);
    }
  }

  /**
   * After the update the option occurs exactly once, last, when it was switched on and not at
   * all otherwise; the other IDs keep their order.
   */
  lemma NewOrderSpec(order: seq<string>, optionId: string, isEnabled: bool)
    ensures Count(NewOrder(order, optionId, isEnabled), optionId) == if isEnabled then 1 else 0
    ensures isEnabled ==> NewOrder(order, optionId, isEnabled)[|NewOrder(order, optionId, isEnabled)| - 1] == optionId
    ensures optionId in NewOrder(order, optionId, isEnabled) <==> isEnabled
    ensures Without(NewOrder(order, optionId, isEnabled), {optionId}) == Without(order, {optionId})
  {
    var rest := Without(order, {optionId});
    var tail := if isEnabled then [optionId] else [];
    CountWithout(order, optionId);
    CountConcat(rest, tail, optionId);
    assert Count(tail, optionId) == if isEnabled then 1 else 0;
    WithoutMembers(order, {optionId}, optionId);
    WithoutConcat(rest, tail, {optionId});
    WithoutTwice(order, {optionId}, {optionId});
    assert {optionId} + {optionId} == {optionId};
    assert Without(tail, {optionId}) == [];
  }

  /** Repeating an update with the same switch and state changes nothing. */
  lemma NewOrderIdempotent(order: seq<string>, optionId: string, isEnabled: bool)
    ensures NewOrder(NewOrder(order, optionId, isEnabled), optionId, isEnabled) == NewOrder(order, optionId, isEnabled)
  {
    NewOrderSpec(order, optionId, isEnabled);
  }

  /** An order without repeats stays without repeats. */
  lemma NewOrderDistinct(order: seq<string>, optionId: string, isEnabled: bool)
    requires Distinct(order)
    ensures Distinct(NewOrder(order, optionId, isEnabled))
  {
    WithoutDistinct(order, {optionId});
    WithoutMembers(order, {optionId}, optionId);
  }

  /** `panel.appendChild(el)` on the children's IDs: `el` moves (or is added) to the end. */
  function AppendChild(children: seq<string>, x: string): seq<string> {
    Without(children, {x}) + [x]
  }

  /** `xs.forEach(el => panel.appendChild(el))`. */
  function AppendAll(children: seq<string>, xs: seq<string>): seq<string> {
    if xs == [] then children else AppendChild(AppendAll(children, xs[..|xs| - 1]), xs[|xs| - 1])
  }

  /** The elements of `xs`. */
  function SetOf(xs: seq<string>): set<string> {
    if xs == [] then {} else SetOf(xs[..|xs| - 1]) + {xs[|xs| - 1]}
  }

  lemma {:induction false} SetOfMembers(xs: seq<string>, y: string)
    ensures y in SetOf(xs) <==> y in xs
  {
    if xs != [] {
      SetOfMembers(xs[..|xs| - 1], y);
      assert xs == xs[..|xs| - 1] + [xs[|xs| - 1]];
    }
  }

  lemma DistinctConcat(a: seq<string>, b: seq<string>)
    requires Distinct(a) && Distinct(b) && forall i :: 0 <= i < |a| ==> a[i] !in b
    ensures Distinct(a + b)
  {
    forall i, j | 0 <= i < j < |a + b| ensures (a + b)[i] != (a + b)[j] {
      if j >= |a| && i < |a| {
        assert (a + b)[j] == b[j - |a|];
      }
    }
  }

  /** Appending distinct elements one by one puts them at the end, in their order, after the children left in place. */
  lemma {:induction false} AppendAllSpec(children: seq<string>, xs: seq<string>)
    requires Distinct(xs)
    ensures AppendAll(children, xs) == Without(children, SetOf(xs)) + xs
  {
    if xs != [] {
      var init, x := xs[..|xs| - 1], xs[|xs| - 1];
      SplitLast(xs);
      assert Distinct(init) by {
        forall i, j | 0 <= i < j < |init| ensures init[i] != init[j] {
          assert init[i] == xs[i] && init[j] == xs[j];
        }
      }
      AppendAllSpec(children, init);
      var kept := Without(children, SetOf(init));
      assert AppendAll(children, xs) == Without(kept + init, {x}) + [x];
      WithoutConcat(kept, init, {x});
      WithoutTwice(children, SetOf(init), {x});
      assert forall i :: 0 <= i < |init| ==> init[i] !in {x} by {
        forall i | 0 <= i < |init| ensures init[i] != x {
          assert init[i] == xs[i];
        }
      }
      WithoutNothing(init, {x});
    } else {
      WithoutNothing(children, {});
    }
  }

  /** The three option panels. */
  const ALL_PANEL_IDS: seq<string> := ["auto-login-options", "auto-attend-options", "homework-options"]

  function InSet(present: set<string>): string -> bool {
    id => id in present
  }

  function NotIn(order: seq<string>): string -> bool {
    id => id !in order
  }

  /** `optionsOrder.map(id => document.getElementById(id)).filter(Boolean)`: the listed IDs that are on the page. */
  function SortedVisible(order: seq<string>, present: set<string>): seq<string> {
    Filter(order, |order|, InSet(present))
  }

  /** The panels that are not listed, in their default order. */
  function Hidden(order: seq<string>): seq<string> {
    Filter(ALL_PANEL_IDS, |ALL_PANEL_IDS|, NotIn(order))
  }

  lemma {:induction false} FilterDistinct(xs: seq<string>, n: nat, keep: string -> bool)
    requires n <= |xs| && Distinct(xs)
    ensures Distinct(Filter(xs, n, keep))
  {
    if n > 0 {
      FilterDistinct(xs, n - 1, keep);
      FilterMembers(xs, n - 1, keep, xs[n - 1]);
    }
  }

  /**
   * With the stored order free of repeats, the panels end up as: the children that are not
   * moved, then the listed IDs found on the page in stored order, then the unlisted panels in
   * default order.
   */
  lemma PanelOrder(children: seq<string>, order: seq<string>, present: set<string>)
    requires Distinct(order)
    ensures AppendAll(AppendAll(children, SortedVisible(order, present)), Hidden(order)) ==
      Without(children, SetOf(SortedVisible(order, present) + Hidden(order))) + (SortedVisible(order, present) + Hidden(order))
    ensures forall id :: id in Hidden(order) <==> id in ALL_PANEL_IDS && id !in order
  {
    HiddenMembers(order);
    MovedDistinct(order, present);
    AppendTwice(children, SortedVisible(order, present), Hidden(order));
  }

  /** Appending two runs of distinct elements one after the other moves them all to the end, in order. */
  lemma AppendTwice(children: seq<string>, a: seq<string>, b: seq<string>)
    requires Distinct(a + b)
    ensures AppendAll(AppendAll(children, a), b) == Without(children, SetOf(a + b)) + (a + b)
  {
    AppendAllConcat(children, a, b);
    AppendAllSpec(children, a + b);
  }

  /** The hidden panels are the known panels the order does not list. */
  lemma HiddenMembers(order: seq<string>)
    ensures forall id :: id in Hidden(order) <==> id in ALL_PANEL_IDS && id !in order
  {
    forall id ensures id in Hidden(order) <==> id in ALL_PANEL_IDS && id !in order {
      FilterMembers(ALL_PANEL_IDS, |ALL_PANEL_IDS|, NotIn(order), id);
    }
  }

  /** The panels moved to the end, visible ones first, are all different. */
  lemma MovedDistinct(order: seq<string>, present: set<string>)
    requires Distinct(order)
    ensures Distinct(SortedVisible(order, present) + Hidden(order))
  {
    var sv, hidden := SortedVisible(order, present), Hidden(order);
    FilterDistinct(order, |order|, InSet(present));
    FilterDistinct(ALL_PANEL_IDS, |ALL_PANEL_IDS|, NotIn(order));
    HiddenMembers(order);
    forall id | id in sv ensures id in order {
      FilterMembers(order, |order|, InSet(present), id);
    }
    forall i | 0 <= i < |sv| ensures sv[i] !in hidden {
      assert sv[i] in sv;
    }
    DistinctConcat(sv, hidden);
  }

  lemma {:induction false} AppendAllConcat(children: seq<string>, a: seq<string>, b: seq<string>)
    ensures AppendAll(AppendAll(children, a), b) == AppendAll(children, a + b)
  {
    if b == [] {
      assert a + b == a;
    } else {
      AppendAllConcat(children, a, b[..|b| - 1]);
      assert (a + b)[..|a + b| - 1] == a + b[..|b| - 1];
    }
  }

  /** The panels with the `visible` class after the toggling loop of `reorderAndShowPanels`. */
  function ShownPanels(visible: set<string>, order: seq<string>): set<string> {
    (visible - SetOf(ALL_PANEL_IDS)) + (set i | 0 <= i < |ALL_PANEL_IDS| && ALL_PANEL_IDS[i] in order :: ALL_PANEL_IDS[i])
  }

  /** A panel is shown exactly when the stored order lists it; other elements keep their class. */
  lemma ShownPanelsSpec(visible: set<string>, order: seq<string>, id: string)
    ensures id in ALL_PANEL_IDS ==> (id in ShownPanels(visible, order) <==> id in order)
    ensures id !in ALL_PANEL_IDS ==> (id in ShownPanels(visible, order) <==> id in visible)
  {
    SetOfMembers(ALL_PANEL_IDS, id);
  }

  /** The switches `setupInteractions` ties together; the custom-theme checkbox may be absent. */
  datatype Switches = Switches(autoAttend: bool, autoMeet: bool, darkMode: bool, customTheme: Option<bool>)

  /** The result of a change handler: the switches, and the checkboxes it fired `change` on, in order. */
  datatype Handled = Handled(switches: Switches, fired: seq<string>)

  /** Auto-attend's handler: turning it on turns the Meet switch on, which is then announced. */
  function AutoAttendChanged(s: Switches): Handled {
    if s.autoAttend && !s.autoMeet then Handled(s.(autoMeet := true), ["auto-meet"]) else Handled(s, [])
  }

  /** Dark mode's handler: a checked custom theme is unchecked (its own handler then finds nothing to do). */
  function DarkModeChanged(s: Switches): Handled {
    if s.darkMode && s.customTheme == Some(true) then Handled(s.(customTheme := Some(false)), ["custom-theme"])
    else Handled(s, [])
  }

  /** Custom theme's handler, attached only when the checkbox exists: a checked dark mode is unchecked. */
  function CustomThemeChanged(s: Switches): Handled {
    if s.customTheme == Some(true) && s.darkMode then Handled(s.(darkMode := false), ["dark-mode"]) else Handled(s, [])
  }

  /** After the auto-attend handler, auto-attend on means Meet on; nothing else moves. */
  lemma AttendNeedsMeet(s: Switches)
    ensures AutoAttendChanged(s).switches.autoAttend ==> AutoAttendChanged(s).switches.autoMeet
    ensures AutoAttendChanged(s).switches == s.(autoMeet := AutoAttendChanged(s).switches.autoMeet)
    ensures AutoAttendChanged(s).switches.autoMeet == (s.autoMeet || s.autoAttend)
    ensures AutoAttendChanged(s).fired != [] <==> AutoAttendChanged(s).switches != s
  {
  }

  /**
   * Neither theme handler leaves both themes checked, and each keeps the switch the user just
   * changed; without a custom-theme checkbox the dark-mode handler does nothing.
   */
  lemma ThemesExclusive(s: Switches)
    ensures !(DarkModeChanged(s).switches.darkMode && DarkModeChanged(s).switches.customTheme == Some(true))
    ensures !(CustomThemeChanged(s).switches.darkMode && CustomThemeChanged(s).switches.customTheme == Some(true))
    ensures DarkModeChanged(s).switches.darkMode == s.darkMode
    ensures CustomThemeChanged(s).switches.customTheme == s.customTheme
    ensures s.customTheme.None? ==> DarkModeChanged(s) == Handled(s, []) && CustomThemeChanged(s) == Handled(s, [])
  {
  }

  const WEBHOOK_PREFIX: string := "https://script.google.com/"
  const NEEDS_SETUP: string := "この機能をONにするには環境構築が必要です。"
  const BAD_URL: string := "URLが不正です。正しいURLを入力してください。"

  /** The notification checkbox's handler: the checkbox state afterwards, and the message shown, if any. */
  function NotificationChanged(checked: bool, url: string): (bool, Option<string>) {
    if !checked then (false, None)
    else if url == "" then (false, Some(NEEDS_SETUP))
    else if !StartsWith(url, WEBHOOK_PREFIX) then (false, Some(BAD_URL))
    else (true, None)
  }

  /** The checkbox stays checked exactly when the URL is an Apps Script URL; a refused check always explains itself. */
  lemma NotificationNeedsScriptUrl(checked: bool, url: string)
    ensures NotificationChanged(checked, url).0 <==> checked && url != "" && StartsWith(url, WEBHOOK_PREFIX)
    ensures NotificationChanged(checked, url).1.Some? <==> checked && !NotificationChanged(checked, url).0
    ensures checked && url == "" ==> NotificationChanged(checked, url).1 == Some(NEEDS_SETUP)
  {
  }

  /** A `.switch-container`: its checkbox's state and whether its label has `gradient-label`, each absent when not found. */
  datatype SwitchContainer = SwitchContainer(checked: Option<bool>, gradient: Option<bool>)

  function Highlighted(c: SwitchContainer): SwitchContainer {
    if c.checked.None? || c.gradient.None? then c else c.(gradient := Some(c.checked.value))
  }

  lemma HighlightedSpec(c: SwitchContainer)
    ensures c.checked.Some? && c.gradient.Some? ==> Highlighted(c).gradient == c.checked
    ensures c.checked.None? || c.gradient.None? ==> Highlighted(c) == c
    ensures Highlighted(c).checked == c.checked && Highlighted(Highlighted(c)) == Highlighted(c)
  {
  }

  /** The part of the options page this module reads and changes. */
  class OptionsPage {
    /** IDs of the options container's children, in order. */
    var children: seq<string>
    /** The panels carrying the `visible` class. */
    var visible: set<string>
    var switches: Switches
    var notificationChecked: bool
    /** The message of the validation modal when it is shown. */
    var modal: Option<string>
    var containers: seq<SwitchContainer>
    /** The checkboxes a handler fired `change` on, in order. */
    var fired: seq<string>

    constructor(children: seq<string>, switches: Switches, containers: seq<SwitchContainer>)
      ensures this.children == children && this.switches == switches && this.containers == containers
      ensures visible == {} && !notificationChecked && modal == None && fired == []
    {
      this.children, this.switches, this.containers := children, switches, containers;
      visible, notificationChecked, modal, fired := {}, false, None, [];
    }

    /**
     * `reorderAndShowPanels` with the stored order; `present` holds the IDs on the page. It
     * stops without changes when the container or one of the three panels is missing.
     */
    method ReorderAndShowPanels(optionsOrder: seq<string>, present: set<string>)
      modifies this
      ensures
        if "options-panel" !in present || !(forall i :: 0 <= i < |ALL_PANEL_IDS| ==> ALL_PANEL_IDS[i] in present) then
          children == old(children) && visible == old(visible)
        else
          && visible == ShownPanels(old(visible), optionsOrder)
          && children == AppendAll(AppendAll(old(children), SortedVisible(optionsOrder, present)), Hidden(optionsOrder))
      ensures switches == old(switches) && notificationChecked == old(notificationChecked) && modal == old(modal)
      ensures containers == old(containers) && fired == old(fired)
    {
      if "options-panel" !in present || !(forall i :: 0 <= i < |ALL_PANEL_IDS| ==> ALL_PANEL_IDS[i] in present) {
        return;
      }
      ShowPanels(optionsOrder);
      AppendChildren(SortedVisible(optionsOrder, present));
      AppendChildren(Hidden(optionsOrder));
    }

    /** The `visible` class on each panel, set exactly when the panel is listed. */
    method ShowPanels(optionsOrder: seq<string>)
      modifies this
      ensures visible == ShownPanels(old(visible), optionsOrder)
      ensures children == old(children) && switches == old(switches) && notificationChecked == old(notificationChecked)
      ensures modal == old(modal) && containers == old(containers) && fired == old(fired)
    {
      for n := 0 to |ALL_PANEL_IDS|
        invariant visible == (old(visible) - SetOf(ALL_PANEL_IDS[..n])) + (set i | 0 <= i < n && ALL_PANEL_IDS[i] in optionsOrder :: ALL_PANEL_IDS[i])
        invariant children == old(children) && switches == old(switches) && notificationChecked == old(notificationChecked)
        invariant modal == old(modal) && containers == old(containers) && fired == old(fired)
      {
        var id := ALL_PANEL_IDS[n];
        assert ALL_PANEL_IDS[..n + 1][..n] == ALL_PANEL_IDS[..n];
        if id in optionsOrder {
          visible := visible + {id};
        } else {
          visible := visible - {id};
        }
      }
      assert ALL_PANEL_IDS[..|ALL_PANEL_IDS|] == ALL_PANEL_IDS;
    }

    /** `xs.forEach(el => panel.appendChild(el))`. */
    method AppendChildren(xs: seq<string>)
      modifies this
      ensures children == AppendAll(old(children), xs)
      ensures visible == old(visible) && switches == old(switches) && notificationChecked == old(notificationChecked)
      ensures modal == old(modal) && containers == old(containers) && fired == old(fired)
    {
      for n := 0 to |xs|
        invariant children == AppendAll(old(children), xs[..n])
        invariant visible == old(visible) && switches == old(switches) && notificationChecked == old(notificationChecked)
        invariant modal == old(modal) && containers == old(containers) && fired == old(fired)
      {
        assert xs[..n + 1][..n] == xs[..n];
        children := Without(children, {xs[n]}) + [xs[n]];
      }
      assert xs[..|xs|] == xs;
    }

    /** `updateOptionsOrder`: returns the order it stores, then rearranges the panels by it. */
    method UpdateOptionsOrder(storedOrder: seq<string>, optionId: string, isEnabled: bool, present: set<string>)
      returns (order: seq<string>)
      modifies this
      ensures order == NewOrder(storedOrder, optionId, isEnabled)
      ensures
        if "options-panel" !in present || !(forall i :: 0 <= i < |ALL_PANEL_IDS| ==> ALL_PANEL_IDS[i] in present) then
          children == old(children) && visible == old(visible)
        else
          && visible == ShownPanels(old(visible), order)
          && children == AppendAll(AppendAll(old(children), SortedVisible(order, present)), Hidden(order))
      ensures switches == old(switches) && notificationChecked == old(notificationChecked) && modal == old(modal)
      ensures containers == old(containers) && fired == old(fired)
    {
      order := Without(storedOrder, {optionId});
      if isEnabled {
        order := order + [optionId];
      }
      ReorderAndShowPanels(order, present);
    }

    /** The change handler on the auto-attend checkbox. */
    method OnAutoAttendChange()
      modifies this
      ensures switches == AutoAttendChanged(old(switches)).switches
      ensures fired == old(fired) + AutoAttendChanged(old(switches)).fired
      ensures children == old(children) && visible == old(visible) && containers == old(containers)
      ensures notificationChecked == old(notificationChecked) && modal == old(modal)
    {
      if switches.autoAttend && !switches.autoMeet {
        switches := switches.(autoMeet := true);
        fired := fired + ["auto-meet"];
      }
    }

    /** The change handler on the dark-mode checkbox. */
    method OnDarkModeChange()
      modifies this
      ensures switches == DarkModeChanged(old(switches)).switches
      ensures fired == old(fired) + DarkModeChanged(old(switches)).fired
      ensures children == old(children) && visible == old(visible) && containers == old(containers)
      ensures notificationChecked == old(notificationChecked) && modal == old(modal)
    {
      if switches.darkMode && switches.customTheme == Some(true) {
        switches := switches.(customTheme := Some(false));
        fired := fired + ["custom-theme"];
      }
    }

    /** The change handler on the custom-theme checkbox, when there is one. */
    method OnCustomThemeChange()
      requires switches.customTheme.Some?
      modifies this
      ensures switches == CustomThemeChanged(old(switches)).switches
      ensures fired == old(fired) + CustomThemeChanged(old(switches)).fired
      ensures children == old(children) && visible == old(visible) && containers == old(containers)
      ensures notificationChecked == old(notificationChecked) && modal == old(modal)
    {
      if switches.customTheme == Some(true) && switches.darkMode {
        switches := switches.(darkMode := false);
        fired := fired + ["dark-mode"];
      }
    }

    /** The notification checkbox's handler; `showModal` does nothing when the modal is not on the page. */
    method OnNotificationChange(url: string, modalPresent: bool)
      modifies this
      ensures notificationChecked == NotificationChanged(old(notificationChecked), url).0
      ensures modal == if modalPresent && NotificationChanged(old(notificationChecked), url).1.Some?
        then NotificationChanged(old(notificationChecked), url).1 else old(modal)
      ensures switches == old(switches) && children == old(children) && containers == old(containers)
      ensures visible == old(visible) && fired == old(fired)
    {
      if notificationChecked {
        if url == "" {
          notificationChecked := false;
          if modalPresent {
            modal := Some(NEEDS_SETUP);
          }
        } else if !StartsWith(url, WEBHOOK_PREFIX) {
          notificationChecked := false;
          if modalPresent {
            modal := Some(BAD_URL);
          }
        }
      }
    }

    /** `updateSwitchGradientLabels`. */
    method UpdateSwitchGradientLabels()
      modifies this
      ensures |containers| == |old(containers)|
      ensures forall i :: 0 <= i < |containers| ==> containers[i] == Highlighted(old(containers)[i])
      ensures switches == old(switches) && children == old(children) && fired == old(fired)
      ensures visible == old(visible) && notificationChecked == old(notificationChecked) && modal == old(modal)
    {
      for n := 0 to |containers|
        invariant |containers| == |old(containers)|
        invariant forall i :: 0 <= i < n ==> containers[i] == Highlighted(old(containers)[i])
        invariant forall i :: n <= i < |containers| ==> containers[i] == old(containers)[i]
        invariant switches == old(switches) && children == old(children) && fired == old(fired)
        invariant visible == old(visible) && notificationChecked == old(notificationChecked) && modal == old(modal)
      {
        var c := containers[n];
        if c.checked.Some? && c.gradient.Some? {
          containers := containers[n := c.(gradient := Some(c.checked.value))];
        }
      }
    }
  }
}
