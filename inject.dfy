/**
 * The earlier background script (inject.js): nine switches, each tied to one script by a
 * hard-coded ID. A switch turned on registers its script without unregistering it first, so
 * an already registered script stays as it was; a switch turned off unregisters its script
 * when it is registered. Turning on auto-attend also registers the Meet script, and turning
 * it off leaves the Meet script alone.
 */
module LegacyInject {
  import opened Registry

  /** A switch's storage key and the ID of the script it controls. */
  datatype Switch = Switch(key: string, id: string)

  /** The keys the listeners test, in the order they test them. */
  const SWITCHES: seq<Switch> := [
    Switch("autoLogin", "AutoLoginScript"), Switch("showTime", "TimeDisplayScript"),
    Switch("autoAttend", "AutoAttendScript"), Switch("autoMeet", "MeetJoinScript"),
    Switch("searchSubject", "SearchSubject"), Switch("darkMode", "DarkMode"), Switch("homework", "Homework"),
    Switch("hacktest", "hacktest"), Switch("logoutblock", "logoutblock")]

  const ATTEND: nat := 2
  const MEET: nat := 3
  const MEET_ID: string := "MeetJoinScript"

  /** Each key, and each ID, appears once. */
  lemma SwitchesUnique()
    ensures forall i, j :: 0 <= i < j < |SWITCHES| ==> SWITCHES[i].key != SWITCHES[j].key && SWITCHES[i].id != SWITCHES[j].id
    ensures SWITCHES[ATTEND].key == "autoAttend" && SWITCHES[MEET] == Switch("autoMeet", MEET_ID)
  {
    forall i, j | 0 <= i < j < |SWITCHES|
      ensures SWITCHES[i].key != SWITCHES[j].key && SWITCHES[i].id != SWITCHES[j].id
    {
      SwitchUniqueFrom(i);
    }
  }

  /** Switch `i` differs from every later switch in key and in ID. */
  lemma SwitchUniqueFrom(i: nat)
    requires i < |SWITCHES|
    ensures forall j :: i < j < |SWITCHES| ==> SWITCHES[i].key != SWITCHES[j].key && SWITCHES[i].id != SWITCHES[j].id
  {
    // any two keys, and any two IDs, differ in length or in one of their first two letters
    forall j | i < j < |SWITCHES|
      ensures SWITCHES[i].key != SWITCHES[j].key && SWITCHES[i].id != SWITCHES[j].id
    {
      if i < 3 {
        assert Sig(SWITCHES[i].key) != Sig(SWITCHES[j].key);
        assert Sig(SWITCHES[i].id) != Sig(SWITCHES[j].id);
      } else if i < 6 {
        assert Sig(SWITCHES[i].key) != Sig(SWITCHES[j].key);
        assert Sig(SWITCHES[i].id) != Sig(SWITCHES[j].id);
      } else {
        assert Sig(SWITCHES[i].key) != Sig(SWITCHES[j].key);
        assert Sig(SWITCHES[i].id) != Sig(SWITCHES[j].id);
      }
    }
  }

  /** The length and first two letters of a name, blanks standing in for missing ones. */
  function Sig(s: string): (nat, char, char) {
    (|s|, if |s| > 0 then s[0] else ' ', if |s| > 1 then s[1] else ' ')
  }

  /** `enable*` for switch `i`: `enableAutoAttend` registers the Meet script first, then its own. */
  function Enable(reg: set<string>, i: nat): set<string>
    requires i < |SWITCHES|
  {
    if SWITCHES[i].key == "autoAttend" then AfterRegister(AfterRegister(reg, MEET_ID), SWITCHES[i].id)
    else AfterRegister(reg, SWITCHES[i].id)
  }

  /** One `if (result.X) enableX(); else disableScript(...)`. */
  function Toggle(reg: set<string>, i: nat, on: bool): set<string>
    requires i < |SWITCHES|
  {
    if on then Enable(reg, i) else AfterUnregister(reg, SWITCHES[i].id)
  }

  lemma ToggleEffect(reg: set<string>, i: nat, on: bool)
    requires i < |SWITCHES|
    ensures Toggle(reg, i, on) ==
      if !on then reg - {SWITCHES[i].id}
      else reg + {SWITCHES[i].id} + (if i == ATTEND then {MEET_ID} else {})
  {
  }

  /**
   * The `onChanged` listener's tests for the first `n` switches: `changes` holds each changed
   * key with the truthiness of its new value.
   */
  function ChangesUpTo(reg: set<string>, changes: map<string, bool>, n: nat): set<string>
    requires n <= |SWITCHES|
  {
    if n == 0 then reg
    else
      var r := ChangesUpTo(reg, changes, n - 1);
      if SWITCHES[n - 1].key in changes then Toggle(r, n - 1, changes[SWITCHES[n - 1].key]) else r
  }

  /** Whether the changes turn auto-attend on. */
  predicate AttendTurnedOn(changes: map<string, bool>) {
    "autoAttend" in changes && changes["autoAttend"]
  }

  /** Where the Meet script stands after the first `n` switches. */
  predicate MeetAfter(reg: set<string>, changes: map<string, bool>, n: nat) {
    if n > MEET && "autoMeet" in changes then changes["autoMeet"]
    else (n > ATTEND && AttendTurnedOn(changes)) || MEET_ID in reg
  }

  lemma ChangesPrefix(reg: set<string>, changes: map<string, bool>, n: nat)
    requires n <= |SWITCHES|
    ensures forall i :: 0 <= i < n && i != MEET && SWITCHES[i].key in changes ==>
      (SWITCHES[i].id in ChangesUpTo(reg, changes, n) <==> changes[SWITCHES[i].key])
    ensures forall x :: (x != MEET_ID && (forall i :: 0 <= i < n && SWITCHES[i].key in changes ==> x != SWITCHES[i].id)
      ==> (x in ChangesUpTo(reg, changes, n) <==> x in reg))
    ensures MEET_ID in ChangesUpTo(reg, changes, n) <==> MeetAfter(reg, changes, n)
  {
    forall i | 0 <= i < n && i != MEET && SWITCHES[i].key in changes
      ensures SWITCHES[i].id in ChangesUpTo(reg, changes, n) <==> changes[SWITCHES[i].key]
    {
      SwitchDecides(reg, changes, n, i);
    }
    forall x | x != MEET_ID && (forall i :: 0 <= i < n && SWITCHES[i].key in changes ==> x != SWITCHES[i].id)
      ensures x in ChangesUpTo(reg, changes, n) <==> x in reg
    {
      OthersKept(reg, changes, n, x);
    }
    MeetFollows(reg, changes, n);
  }

  /** One more test of the listener: the switch's script is removed, or added with the Meet script for auto-attend. */
  lemma ChangesNext(reg: set<string>, changes: map<string, bool>, n: nat)
    requires 0 < n <= |SWITCHES|
    ensures var r := ChangesUpTo(reg, changes, n - 1);
      var k := SWITCHES[n - 1].key;
      ChangesUpTo(reg, changes, n) ==
        if k !in changes then r
        else if !changes[k] then r - {SWITCHES[n - 1].id}
        else r + {SWITCHES[n - 1].id} + (if n - 1 == ATTEND then {MEET_ID} else {})
  {
    var k := SWITCHES[n - 1].key;
    ToggleEffect(ChangesUpTo(reg, changes, n - 1), n - 1, k in changes && changes[k]);
  }

  lemma {:induction false} SwitchDecides(reg: set<string>, changes: map<string, bool>, n: nat, i: nat)
    requires i < n <= |SWITCHES| && i != MEET && SWITCHES[i].key in changes
    ensures SWITCHES[i].id in ChangesUpTo(reg, changes, n) <==> changes[SWITCHES[i].key]
  {
    SwitchesUnique();
    ChangesNext(reg, changes, n);
    if i < n - 1 {
      SwitchDecides(reg, changes, n - 1, i);
      assert SWITCHES[i].id != SWITCHES[n - 1].id;
    }
    assert SWITCHES[i].id != MEET_ID by {
      assert SWITCHES[i].id != SWITCHES[MEET].id;
    }
  }

  lemma {:induction false} OthersKept(reg: set<string>, changes: map<string, bool>, n: nat, x: string)
    requires n <= |SWITCHES| && x != MEET_ID
    requires forall i :: 0 <= i < n && SWITCHES[i].key in changes ==> x != SWITCHES[i].id
    ensures x in ChangesUpTo(reg, changes, n) <==> x in reg
  {
    if n > 0 {
      ChangesNext(reg, changes, n);
      OthersKept(reg, changes, n - 1, x);
    }
  }

  lemma {:induction false} MeetFollows(reg: set<string>, changes: map<string, bool>, n: nat)
    requires n <= |SWITCHES|
    ensures MEET_ID in ChangesUpTo(reg, changes, n) <==> MeetAfter(reg, changes, n)
  {
    if n > 0 {
      SwitchesUnique();
      ChangesNext(reg, changes, n);
      MeetFollows(reg, changes, n - 1);
      if n - 1 != MEET {
        assert SWITCHES[n - 1].id != MEET_ID;
      }
    }
  }

  /**
   * After the listener: a switch present in `changes` decides its own script (the Meet script
   * aside); a script whose key did not change is as it was; the Meet script follows `autoMeet`
   * when it changed, and is otherwise registered if auto-attend was turned on, or was already.
   */
  lemma ChangesSettle(reg: set<string>, changes: map<string, bool>)
    ensures forall i :: 0 <= i < |SWITCHES| && i != MEET && SWITCHES[i].key in changes ==>
      (SWITCHES[i].id in ChangesUpTo(reg, changes, |SWITCHES|) <==> changes[SWITCHES[i].key])
    ensures forall x :: (x != MEET_ID && (forall i :: 0 <= i < |SWITCHES| && SWITCHES[i].key in changes ==> x != SWITCHES[i].id)
      ==> (x in ChangesUpTo(reg, changes, |SWITCHES|) <==> x in reg))
    ensures MEET_ID in ChangesUpTo(reg, changes, |SWITCHES|) <==>
      if "autoMeet" in changes then changes["autoMeet"] else AttendTurnedOn(changes) || MEET_ID in reg
  {
    ChangesPrefix(reg, changes, |SWITCHES|);
  }

  /** Turning auto-attend on registers both scripts; turning it off removes only its own. */
  lemma AttendAlone(reg: set<string>)
    ensures ChangesUpTo(reg, map["autoAttend" := true], |SWITCHES|) == reg + {"AutoAttendScript", MEET_ID}
    ensures ChangesUpTo(reg, map["autoAttend" := false], |SWITCHES|) == reg - {"AutoAttendScript"}
  {
    ChangesSettle(reg, map["autoAttend" := true]);
    ChangesSettle(reg, map["autoAttend" := false]);
    SwitchesUnique();
  }

  /** The `onInstalled` listener reads every key and applies the same tests, a missing key reading as off. */
  function InstallUpTo(reg: set<string>, stored: map<string, bool>, n: nat): set<string>
    requires n <= |SWITCHES|
  {
    if n == 0 then reg
    else Toggle(InstallUpTo(reg, stored, n - 1), n - 1, SWITCHES[n - 1].key in stored && stored[SWITCHES[n - 1].key])
  }

  /** Every key, with its stored value or off. */
  function AllChanged(stored: map<string, bool>): map<string, bool> {
    map i | 0 <= i < |SWITCHES| :: SWITCHES[i].key := SWITCHES[i].key in stored && stored[SWITCHES[i].key]
  }

  /** Installation does what a change of every key to its stored value does. */
  lemma {:induction false} InstallIsChangeOfAll(reg: set<string>, stored: map<string, bool>, n: nat)
    requires n <= |SWITCHES|
    ensures InstallUpTo(reg, stored, n) == ChangesUpTo(reg, AllChanged(stored), n)
  {
    if n > 0 {
      InstallIsChangeOfAll(reg, stored, n - 1);
      AllChangedAt(stored, n - 1);
    }
  }

  /** Each switch's key maps to its stored value, or off. */
  lemma AllChangedAt(stored: map<string, bool>, i: nat)
    requires i < |SWITCHES|
    ensures var k := SWITCHES[i].key; k in AllChanged(stored) && AllChanged(stored)[k] == (k in stored && stored[k])
  {
    SwitchesUnique();
  }

  method EnableScript(registry: ScriptRegistry, i: nat)
    requires i < |SWITCHES|
    modifies registry
    ensures registry.ids == Enable(old(registry.ids), i)
  {
    if SWITCHES[i].key == "autoAttend" {
      registry.Register(MEET_ID);
    }
    registry.Register(SWITCHES[i].id);
  }

  /** `disableScript`. */
  method DisableScript(registry: ScriptRegistry, scriptId: string)
    modifies registry
    ensures registry.ids == AfterUnregister(old(registry.ids), scriptId)
  {
    if scriptId in registry.ids {
      registry.Unregister(scriptId);
    }
  }

  method ToggleScript(registry: ScriptRegistry, i: nat, on: bool)
    requires i < |SWITCHES|
    modifies registry
    ensures registry.ids == Toggle(old(registry.ids), i, on)
  {
    if on {
      EnableScript(registry, i);
    } else {
      DisableScript(registry, SWITCHES[i].id);
    }
  }

  /** One `if (changes.X) { ... }` block. */
  method OnChangedKey(registry: ScriptRegistry, changes: map<string, bool>, i: nat)
    requires i < |SWITCHES|
    modifies registry
    ensures registry.ids ==
      if SWITCHES[i].key in changes then Toggle(old(registry.ids), i, changes[SWITCHES[i].key]) else old(registry.ids)
  {
    if SWITCHES[i].key in changes {
      ToggleScript(registry, i, changes[SWITCHES[i].key]);
    }
  }

  /** The storage `onChanged` listener: the nine tests, in order, and only for the sync area. */
  method OnChanged(registry: ScriptRegistry, changes: map<string, bool>, area: string)
    modifies registry
    ensures registry.ids == if area == "sync" then ChangesUpTo(old(registry.ids), changes, |SWITCHES|) else old(registry.ids)
  {
    if area == "sync" {
      ghost var reg := registry.ids;
      OnChangedKey(registry, changes, 0);
      assert registry.ids == ChangesUpTo(reg, changes, 1);
      OnChangedKey(registry, changes, 1);
      assert registry.ids == ChangesUpTo(reg, changes, 2);
      OnChangedKey(registry, changes, 2);
      assert registry.ids == ChangesUpTo(reg, changes, 3);
      OnChangedKey(registry, changes, 3);
      assert registry.ids == ChangesUpTo(reg, changes, 4);
      OnChangedKey(registry, changes, 4);
      assert registry.ids == ChangesUpTo(reg, changes, 5);
      OnChangedKey(registry, changes, 5);
      assert registry.ids == ChangesUpTo(reg, changes, 6);
      OnChangedKey(registry, changes, 6);
      assert registry.ids == ChangesUpTo(reg, changes, 7);
      OnChangedKey(registry, changes, 7);
      assert registry.ids == ChangesUpTo(reg, changes, 8);
      OnChangedKey(registry, changes, 8);
      assert registry.ids == ChangesUpTo(reg, changes, 9);
    }
  }

  /** One `chrome.storage.sync.get([X], ...)` callback of the `onInstalled` listener. */
  method InstallKey(registry: ScriptRegistry, stored: map<string, bool>, i: nat)
    requires i < |SWITCHES|
    modifies registry
    ensures registry.ids == Toggle(old(registry.ids), i, SWITCHES[i].key in stored && stored[SWITCHES[i].key])
  {
    var on := SWITCHES[i].key in stored && stored[SWITCHES[i].key];
    ToggleScript(registry, i, on);
  }

  /** The `onInstalled` listener, its nine callbacks taken in the order they are requested. */
  method OnInstalled(registry: ScriptRegistry, stored: map<string, bool>)
    modifies registry
    ensures registry.ids == InstallUpTo(old(registry.ids), stored, |SWITCHES|)
  {
    ghost var reg := registry.ids;
    InstallKey(registry, stored, 0);
    assert registry.ids == InstallUpTo(reg, stored, 1);
    InstallKey(registry, stored, 1);
    assert registry.ids == InstallUpTo(reg, stored, 2);
    InstallKey(registry, stored, 2);
    assert registry.ids == InstallUpTo(reg, stored, 3);
    InstallKey(registry, stored, 3);
    assert registry.ids == InstallUpTo(reg, stored, 4);
    InstallKey(registry, stored, 4);
    assert registry.ids == InstallUpTo(reg, stored, 5);
    InstallKey(registry, stored, 5);
    assert registry.ids == InstallUpTo(reg, stored, 6);
    InstallKey(registry, stored, 6);
    assert registry.ids == InstallUpTo(reg, stored, 7);
    InstallKey(registry, stored, 7);
    assert registry.ids == InstallUpTo(reg, stored, 8);
    InstallKey(registry, stored, 8);
    assert registry.ids == InstallUpTo(reg, stored, 9);
  }
}
