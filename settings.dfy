/**
 * The settings store of the options page (setting/modules/settings.js): a table ties each
 * form element to a storage key, the property it is read through (`value` or `checked`) and
 * the storage area it lives in. Saving copies every present element into its area; loading
 * reads the keys of both areas and writes each stored value of the expected type back into
 * its element.
 */
module Settings {
  import opened Wrappers
  import opened Seqs

  datatype Area = Sync | Local

  /** The element property a setting is read and written through. */
  datatype Kind = Value | Checked

  datatype Setting = Setting(id: string, key: string, kind: Kind, storage: Option<Area>)

  const SETTINGS_CONFIG: seq<Setting> := [
    Setting("username", "username", Value, Some(Local)),
    Setting("password", "password", Value, Some(Local)),
    Setting("auto-login", "autoLogin", Checked, Some(Sync)),
    Setting("show-time", "showTime", Checked, Some(Sync)),
    Setting("auto-attend", "autoAttend", Checked, Some(Sync)),
    Setting("auto-meet", "autoMeet", Checked, Some(Sync)),
    Setting("search-subject", "searchSubject", Checked, Some(Sync)),
    Setting("dark-mode", "darkMode", Checked, Some(Sync)),
    Setting("home-work", "homework", Checked, Some(Sync)),
    Setting("logout-block", "logoutblock", Checked, Some(Sync)),
    Setting("kyozai-open", "kyozaiopen", Checked, Some(Sync)),
    Setting("class-term", "attendC", Value, Some(Sync)),
    Setting("meet-id", "attendM", Value, Some(Sync)),
    Setting("day-select", "attendD", Value, Some(Sync)),
    Setting("class-period", "attendT", Value, Some(Sync)),
    Setting("attend-button", "attendA", Checked, Some(Sync)),
    Setting("homework-notification", "gasWebhook", Checked, Some(Sync)),
    Setting("homework-webhook-url", "gaswebhookurl", Value, Some(Sync))]

  const OPTIONS_ORDER_KEY: string := "optionsOrder"

  /** `config.storage || 'sync'`. */
  function AreaOf(c: Setting): Area {
    c.storage.GetOr(Sync)
  }

  predicate IdsUnique(cs: seq<Setting>) {
    forall i, j :: 0 <= i < j < |cs| ==> cs[i].id != cs[j].id
  }

  predicate KeysUnique(cs: seq<Setting>) {
    forall i, j :: 0 <= i < j < |cs| ==> cs[i].key != cs[j].key
  }

  /** The length, first and last character of a string: equal strings have equal fingerprints. */
  function Fingerprint(s: string): (int, char, char) {
    if s == [] then (0, ' ', ' ') else (|s|, s[0], s[|s| - 1])
  }

  /** Every element ID of the table is used once. */
  lemma SettingIdsUnique()
    ensures IdsUnique(SETTINGS_CONFIG)
  {
    var cs := SETTINGS_CONFIG;
    IdPrints();
    forall i, j | 0 <= i < j < |cs| ensures cs[i].id != cs[j].id {
      IdPrintsDistinct(i);
    }
  }

  /** Every storage key of the table is used once. */
  lemma SettingKeysUnique()
    ensures KeysUnique(SETTINGS_CONFIG)
  {
    var cs := SETTINGS_CONFIG;
    KeyPrints();
    forall i, j | 0 <= i < j < |cs| ensures cs[i].key != cs[j].key {
      KeyPrintsDistinct(i);
    }
  }

  /** Each element id of the table has the fingerprint listed for it. */
  lemma IdPrints()
    ensures |ID_PRINTS| == |SETTINGS_CONFIG|
    ensures forall i :: 0 <= i < |SETTINGS_CONFIG| ==> Fingerprint(SETTINGS_CONFIG[i].id) == ID_PRINTS[i]
  {
    var cs := SETTINGS_CONFIG;
    assert seq(|cs|, i requires 0 <= i < |cs| => Fingerprint(cs[i].id)) == ID_PRINTS;
  }

  /** Each storage key of the table has the fingerprint listed for it. */
  lemma KeyPrints()
    ensures |KEY_PRINTS| == |SETTINGS_CONFIG|
    ensures forall i :: 0 <= i < |SETTINGS_CONFIG| ==> Fingerprint(SETTINGS_CONFIG[i].key) == KEY_PRINTS[i]
  {
    var cs := SETTINGS_CONFIG;
    assert seq(|cs|, i requires 0 <= i < |cs| => Fingerprint(cs[i].key)) == KEY_PRINTS;
  }

  /** The fingerprints of the table's element ids, entry by entry. */
  const ID_PRINTS: seq<(int, char, char)> := [
    (8, 'u', 'e'), (8, 'p', 'd'), (10, 'a', 'n'), (9, 's', 'e'), (11, 'a', 'd'), (9, 'a', 't'),
    (14, 's', 't'), (9, 'd', 'e'), (9, 'h', 'k'), (12, 'l', 'k'), (11, 'k', 'n'), (10, 'c', 'm'),
    (7, 'm', 'd'), (10, 'd', 't'), (12, 'c', 'd'), (13, 'a', 'n'), (21, 'h', 'n'), (20, 'h', 'l')]

  /** The fingerprints of the table's storage keys, entry by entry. */
  const KEY_PRINTS: seq<(int, char, char)> := [
    (8, 'u', 'e'), (8, 'p', 'd'), (9, 'a', 'n'), (8, 's', 'e'), (10, 'a', 'd'), (8, 'a', 't'),
    (13, 's', 't'), (8, 'd', 'e'), (8, 'h', 'k'), (11, 'l', 'k'), (10, 'k', 'n'), (7, 'a', 'C'),
    (7, 'a', 'M'), (7, 'a', 'D'), (7, 'a', 'T'), (7, 'a', 'A'), (10, 'g', 'k'), (13, 'g', 'l')]

  /** No fingerprint of the ID table comes twice. */
  lemma IdPrintsDistinct(i: int)
    requires 0 <= i < |ID_PRINTS|
    ensures forall j :: i < j < |ID_PRINTS| ==> ID_PRINTS[i] != ID_PRINTS[j]
  {
    if i < 4 { } else if i < 8 { } else if i < 12 { } else if i < 15 { } else { }
  }

  /** No fingerprint of the storage-key table comes twice. */
  lemma KeyPrintsDistinct(i: int)
    requires 0 <= i < |KEY_PRINTS|
    ensures forall j :: i < j < |KEY_PRINTS| ==> KEY_PRINTS[i] != KEY_PRINTS[j]
  {
    if i < 4 { } else if i < 8 { } else if i < 12 { } else if i < 15 { } else { }
  }

  /** Only the two credentials are kept locally; every entry names its area; none uses the options-order key. */
  lemma SettingAreas()
    ensures forall i :: 0 <= i < |SETTINGS_CONFIG| ==>
      (AreaOf(SETTINGS_CONFIG[i]) == Local <==> SETTINGS_CONFIG[i].key == "username" || SETTINGS_CONFIG[i].key == "password")
    ensures forall i :: 0 <= i < |SETTINGS_CONFIG| ==> SETTINGS_CONFIG[i].storage.Some? && SETTINGS_CONFIG[i].key != OPTIONS_ORDER_KEY
  {
  }

  /** A JavaScript value as read from storage: the two types the page expects, or anything else. */
  datatype Stored = Bool(b: bool) | Str(s: string) | Other

  /** The two properties of a form element the table refers to. */
  datatype Element = Element(value: string, checked: bool)

  /** `element[config.type]`. */
  function Read(e: Element, k: Kind): Stored {
    match k
    case Value => Str(e.value)
    case Checked => Bool(e.checked)
  }

  /** The two objects `saveSettings` hands to storage. */
  datatype ToSave = ToSave(sync: map<string, Stored>, local: map<string, Stored>)

  /** `saveSettings`'s loop over the first `n` entries; `elements` holds the elements `getElementById` finds. */
  function SavedUpTo(cs: seq<Setting>, elements: map<string, Element>, n: nat): ToSave
    requires n <= |cs|
  {
    if n == 0 then ToSave(map[], map[])
    else
      var r := SavedUpTo(cs, elements, n - 1);
      var c := cs[n - 1];
      if c.id !in elements then r
      else if AreaOf(c) == Sync then r.(sync := r.sync[c.key := Read(elements[c.id], c.kind)])
      else r.(local := r.local[c.key := Read(elements[c.id], c.kind)])
  }

  /**
   * A key is saved in an area exactly when one of the first `n` entries of that area has it
   * and its element is on the page; with keys unique, what is saved is that element's property.
   */
  lemma {:induction false} SavedSpec(cs: seq<Setting>, elements: map<string, Element>, n: nat, k: string)
    requires n <= |cs| && KeysUnique(cs)
    ensures k in SavedUpTo(cs, elements, n).sync <==>
      exists i :: 0 <= i < n && AreaOf(cs[i]) == Sync && cs[i].id in elements && cs[i].key == k
    ensures k in SavedUpTo(cs, elements, n).local <==>
      exists i :: 0 <= i < n && AreaOf(cs[i]) == Local && cs[i].id in elements && cs[i].key == k
    ensures forall i :: 0 <= i < n && cs[i].key == k && cs[i].id in elements ==>
      if AreaOf(cs[i]) == Sync then SavedUpTo(cs, elements, n).sync[k] == Read(elements[cs[i].id], cs[i].kind)
      else SavedUpTo(cs, elements, n).local[k] == Read(elements[cs[i].id], cs[i].kind)
  {
    if n > 0 {
      SavedSpec(cs, elements, n - 1, k);
    }
  }

  /** The credentials are never written to synced storage. */
  lemma CredentialsStayLocal(elements: map<string, Element>)
    ensures "username" !in SavedUpTo(SETTINGS_CONFIG, elements, |SETTINGS_CONFIG|).sync
    ensures "password" !in SavedUpTo(SETTINGS_CONFIG, elements, |SETTINGS_CONFIG|).sync
  {
    SettingKeysUnique();
    SettingAreas();
    SavedSpec(SETTINGS_CONFIG, elements, |SETTINGS_CONFIG|, "username");
    SavedSpec(SETTINGS_CONFIG, elements, |SETTINGS_CONFIG|, "password");
  }

  predicate IsSync(c: Setting) { AreaOf(c) == Sync }

  /** `c.storage === 'local'`: no default here. */
  predicate IsLocal(c: Setting) { c.storage == Some(Local) }

  function KeyOf(c: Setting): string { c.key }

  /** The keys `loadAndApplySettings` asks each area for. */
  function SyncKeys(cs: seq<Setting>): seq<string> {
    FilterMap(cs, IsSync, KeyOf) + [OPTIONS_ORDER_KEY]
  }

  function LocalKeys(cs: seq<Setting>): seq<string> {
    FilterMap(cs, IsLocal, KeyOf)
  }

  /**
   * The sync list is every key of a synced entry, then `optionsOrder`; the local list is every
   * key of a local entry; a key of an entry with its area given is in exactly one of them.
   */
  lemma KeyLists(cs: seq<Setting>, k: string)
    ensures k in SyncKeys(cs) <==> k == OPTIONS_ORDER_KEY || exists i :: 0 <= i < |cs| && IsSync(cs[i]) && cs[i].key == k
    ensures k in LocalKeys(cs) <==> exists i :: 0 <= i < |cs| && cs[i].storage == Some(Local) && cs[i].key == k
    ensures SyncKeys(cs)[|SyncKeys(cs)| - 1] == OPTIONS_ORDER_KEY
    ensures KeysUnique(cs) && (forall i :: 0 <= i < |cs| ==> cs[i].storage.Some? && cs[i].key != OPTIONS_ORDER_KEY) ==>
      forall i :: 0 <= i < |cs| ==> (cs[i].key in SyncKeys(cs) <==> cs[i].key !in LocalKeys(cs))
  {
    KeyListMembers(cs, k);
    KeyAreasExclusive(cs);
  }

  lemma KeyListMembers(cs: seq<Setting>, k: string)
    ensures k in SyncKeys(cs) <==> k == OPTIONS_ORDER_KEY || exists i :: 0 <= i < |cs| && IsSync(cs[i]) && cs[i].key == k
    ensures k in LocalKeys(cs) <==> exists i :: 0 <= i < |cs| && cs[i].storage == Some(Local) && cs[i].key == k
    ensures SyncKeys(cs)[|SyncKeys(cs)| - 1] == OPTIONS_ORDER_KEY
  {
    KeptMappedMembers(cs, |cs|, IsSync, KeyOf, k);
    KeptMappedMembers(cs, |cs|, IsLocal, KeyOf, k);
  }

  lemma KeyAreasExclusive(cs: seq<Setting>)
    ensures KeysUnique(cs) && (forall i :: 0 <= i < |cs| ==> cs[i].storage.Some? && cs[i].key != OPTIONS_ORDER_KEY) ==>
      forall i :: 0 <= i < |cs| ==> (cs[i].key in SyncKeys(cs) <==> cs[i].key !in LocalKeys(cs))
  {
    forall i | 0 <= i < |cs| ensures cs[i].key in LocalKeys(cs) <==> IsLocal(cs[i]) || exists j :: 0 <= j < |cs| && j != i && IsLocal(cs[j]) && cs[j].key == cs[i].key {
      KeptMappedMembers(cs, |cs|, IsLocal, KeyOf, cs[i].key);
    }
    forall i | 0 <= i < |cs| ensures cs[i].key in SyncKeys(cs) <==> cs[i].key == OPTIONS_ORDER_KEY || IsSync(cs[i]) || exists j :: 0 <= j < |cs| && j != i && IsSync(cs[j]) && cs[j].key == cs[i].key {
      KeptMappedMembers(cs, |cs|, IsSync, KeyOf, cs[i].key);
    }
  }

  /** `{ ...syncSettings, ...localSettings }`, each area read for its own keys: a local value wins. */
  function AllSettings(cs: seq<Setting>, syncStore: map<string, Stored>, localStore: map<string, Stored>): map<string, Stored> {
    var syncKeys := SyncKeys(cs);
    var localKeys := LocalKeys(cs);
    (map k | k in syncStore && k in syncKeys :: syncStore[k]) + (map k | k in localStore && k in localKeys :: localStore[k])
  }

  /** A stored value is written back only when its type is the one the property expects. */
  function Applied(e: Element, k: Kind, v: Stored): Element {
    match (k, v)
    case (Checked, Bool(b)) => e.(checked := b)
    case (Value, Str(s)) => e.(value := s)
    case _ => e
  }

  /** `loadAndApplySettings`'s loop over the first `n` entries. */
  function AppliedUpTo(cs: seq<Setting>, elements: map<string, Element>, all: map<string, Stored>, n: nat): (r: map<string, Element>)
    requires n <= |cs|
    ensures r.Keys == elements.Keys
  {
    if n == 0 then elements
    else
      var r := AppliedUpTo(cs, elements, all, n - 1);
      var c := cs[n - 1];
      if c.id in r && c.key in all then r[c.id := Applied(r[c.id], c.kind, all[c.key])] else r
  }

  /**
   * With IDs unique, each element of the first `n` entries holds the stored value when there is
   * one of the expected type and is untouched otherwise; elements of no entry are untouched.
   */
  lemma {:induction false} AppliedSpec(cs: seq<Setting>, elements: map<string, Element>, all: map<string, Stored>, n: nat)
    requires n <= |cs| && IdsUnique(cs)
    ensures forall i :: 0 <= i < n && cs[i].id in elements ==>
      AppliedUpTo(cs, elements, all, n)[cs[i].id] ==
        if cs[i].key in all then Applied(elements[cs[i].id], cs[i].kind, all[cs[i].key]) else elements[cs[i].id]
    ensures forall id :: id in elements && (forall i :: 0 <= i < n ==> cs[i].id != id) ==>
      AppliedUpTo(cs, elements, all, n)[id] == elements[id]
  {
    forall i | 0 <= i < n && cs[i].id in elements
      ensures AppliedUpTo(cs, elements, all, n)[cs[i].id] ==
        if cs[i].key in all then Applied(elements[cs[i].id], cs[i].kind, all[cs[i].key]) else elements[cs[i].id]
    {
      AppliedEntry(cs, elements, all, n, i);
    }
    forall id | id in elements && (forall i :: 0 <= i < n ==> cs[i].id != id)
      ensures AppliedUpTo(cs, elements, all, n)[id] == elements[id]
    {
      AppliedOther(cs, elements, all, n, id);
    }
  }

  /** The element of entry `i` is written once, by that entry, when the stored value exists. */
  lemma {:induction false} AppliedEntry(cs: seq<Setting>, elements: map<string, Element>, all: map<string, Stored>, n: nat, i: nat)
    requires i < n <= |cs| && IdsUnique(cs) && cs[i].id in elements
    ensures AppliedUpTo(cs, elements, all, n)[cs[i].id] ==
      if cs[i].key in all then Applied(elements[cs[i].id], cs[i].kind, all[cs[i].key]) else elements[cs[i].id]
  {
    if i == n - 1 {
      AppliedOther(cs, elements, all, n - 1, cs[i].id);
    } else {
      AppliedEntry(cs, elements, all, n - 1, i);
      assert cs[n - 1].id != cs[i].id;
    }
  }

  /** An element no entry among the first `n` names is left as it was. */
  lemma {:induction false} AppliedOther(cs: seq<Setting>, elements: map<string, Element>, all: map<string, Stored>, n: nat, id: string)
    requires n <= |cs| && id in elements && forall i :: 0 <= i < n ==> cs[i].id != id
    ensures AppliedUpTo(cs, elements, all, n)[id] == elements[id]
  {
    if n > 0 {
      AppliedOther(cs, elements, all, n - 1, id);
    }
  }

  /** A value of the wrong type leaves the element as it was; one of the right type replaces exactly that property. */
  lemma AppliedTypeCheck(e: Element, k: Kind, v: Stored)
    ensures Applied(e, k, v) != e ==> (k == Checked && v.Bool?) || (k == Value && v.Str?)
    ensures k == Checked && v.Bool? ==> Applied(e, k, v) == Element(e.value, v.b) && Read(Applied(e, k, v), k) == v
    ensures k == Value && v.Str? ==> Applied(e, k, v) == Element(v.s, e.checked) && Read(Applied(e, k, v), k) == v
  {
  }

  /** Writing back the value just read through a property leaves the element as it was. */
  lemma ApplyReadKeeps(e: Element, k: Kind)
    ensures Applied(e, k, Read(e, k)) == e
  {
  }

  /** The value loading finds for the key of entry `i` is the one saving stored for it. */
  lemma {:induction false} LoadFindsSaved(elements: map<string, Element>, i: nat)
    requires i < |SETTINGS_CONFIG| && SETTINGS_CONFIG[i].id in elements
    ensures var saved := SavedUpTo(SETTINGS_CONFIG, elements, |SETTINGS_CONFIG|);
      var all := AllSettings(SETTINGS_CONFIG, saved.sync, saved.local);
      var c := SETTINGS_CONFIG[i];
      c.key in all && all[c.key] == Read(elements[c.id], c.kind)
  {
    var cs := SETTINGS_CONFIG;
    var c := cs[i];
    var saved := SavedUpTo(cs, elements, |cs|);
    SettingKeysUnique();
    SettingAreas();
    SavedSpec(cs, elements, |cs|, c.key);
    KeyLists(cs, c.key);
    if AreaOf(c) == Sync {
      assert c.key in saved.sync && c.key in SyncKeys(cs);
      assert c.key !in saved.local;
    } else {
      assert c.key in saved.local && c.key in LocalKeys(cs);
    }
  }

  /** Loading exactly what saving stored leaves every element of the page as it was. */
  lemma SaveLoadRoundTrip(elements: map<string, Element>)
    ensures var saved := SavedUpTo(SETTINGS_CONFIG, elements, |SETTINGS_CONFIG|);
      AppliedUpTo(SETTINGS_CONFIG, elements, AllSettings(SETTINGS_CONFIG, saved.sync, saved.local), |SETTINGS_CONFIG|) == elements
  {
    var cs := SETTINGS_CONFIG;
    var saved := SavedUpTo(cs, elements, |cs|);
    var all := AllSettings(cs, saved.sync, saved.local);
    var r := AppliedUpTo(cs, elements, all, |cs|);
    SettingIdsUnique();
    AppliedSpec(cs, elements, all, |cs|);
    forall id | id in elements ensures r[id] == elements[id] {
      if i :| 0 <= i < |cs| && cs[i].id == id {
        LoadFindsSaved(elements, i);
        ApplyReadKeeps(elements[id], cs[i].kind);
      }
    }
  }

  datatype EventType = Input | Change

  /** `config.type === 'value' ? 'input' : 'change'`. */
  function EventFor(k: Kind): EventType {
    if k == Value then Input else Change
  }

  function HasElement(elements: map<string, Element>): Setting -> bool {
    (c: Setting) => c.id in elements
  }

  function ListenerOf(c: Setting): (string, EventType) {
    (c.id, EventFor(c.kind))
  }

  /** Each listener sits on a present element of the table, listening for `input` on a text field and `change` on a checkbox. */
  lemma ListenersSpec(cs: seq<Setting>, elements: map<string, Element>, l: (string, EventType))
    ensures l in KeptMapped(cs, |cs|, HasElement(elements), ListenerOf) <==>
      exists i :: 0 <= i < |cs| && cs[i].id in elements && l == (cs[i].id, if cs[i].kind == Value then Input else Change)
  {
    KeptMappedMembers(cs, |cs|, HasElement(elements), ListenerOf, l);
  }

  /** The events the page dispatches. */
  datatype PageEvent = SettingsSaved | SettingsLoaded | SettingsError(detail: string)

  const SAVE_ERROR: string := "設定の保存に失敗しました。"
  const LOAD_ERROR: string := "設定の読み込みに失敗しました。"

  /** The options page as the module sees it: its elements by ID, the listeners added, and the events dispatched. */
  class SettingsPage {
    var elements: map<string, Element>
    var listeners: seq<(string, EventType)>
    var events: seq<PageEvent>

    constructor(elements: map<string, Element>)
      ensures this.elements == elements && listeners == [] && events == []
    {
      this.elements, listeners, events := elements, [], [];
    }

    /** `saveSettings`; `writeFails` says whether either storage write rejects. */
    method SaveSettings(writeFails: bool) returns (saved: ToSave)
      modifies this
      ensures saved == SavedUpTo(SETTINGS_CONFIG, elements, |SETTINGS_CONFIG|)
      ensures events == old(events) + [if writeFails then SettingsError(SAVE_ERROR) else SettingsSaved]
      ensures elements == old(elements) && listeners == old(listeners)
    {
      saved := CollectSettings(SETTINGS_CONFIG);
      if writeFails {
        events := events + [SettingsError(SAVE_ERROR)];
      } else {
        events := events + [SettingsSaved];
      }
    }

    /** The loop of `saveSettings`: each entry with an element is read into its storage area. */
    method CollectSettings(configs: seq<Setting>) returns (saved: ToSave)
      ensures saved == SavedUpTo(configs, elements, |configs|)
    {
      var sync: map<string, Stored> := map[];
      var local: map<string, Stored> := map[];
      for n := 0 to |configs|
        invariant ToSave(sync, local) == SavedUpTo(configs, elements, n)
      {
        var config := configs[n];
        if config.id in elements {
          var element := elements[config.id];
          if AreaOf(config) == Sync {
            sync := sync[config.key := Read(element, config.kind)];
          } else {
            local := local[config.key := Read(element, config.kind)];
          }
        }
      }
      saved := ToSave(sync, local);
    }

    /** `loadAndApplySettings`, given both storage areas and whether reading them rejects. */
    method LoadAndApplySettings(syncStore: map<string, Stored>, localStore: map<string, Stored>, readFails: bool)
      modifies this
      ensures readFails ==> elements == old(elements) && events == old(events) + [SettingsError(LOAD_ERROR)]
      ensures !readFails ==>
        elements == AppliedUpTo(SETTINGS_CONFIG, old(elements), AllSettings(SETTINGS_CONFIG, syncStore, localStore), |SETTINGS_CONFIG|)
        && events == old(events) + [SettingsLoaded]
      ensures listeners == old(listeners)
    {
      if readFails {
        events := events + [SettingsError(LOAD_ERROR)];
        return;
      }
      var allSettings := AllSettings(SETTINGS_CONFIG, syncStore, localStore);
      ApplySettings(SETTINGS_CONFIG, allSettings);
      events := events + [SettingsLoaded];
    }

    /** The loop of `loadAndApplySettings`: each entry with an element and a loaded value sets that element. */
    method ApplySettings(configs: seq<Setting>, allSettings: map<string, Stored>)
      modifies this
      ensures elements == AppliedUpTo(configs, old(elements), allSettings, |configs|)
      ensures events == old(events) && listeners == old(listeners)
    {
      for n := 0 to |configs|
        invariant elements == AppliedUpTo(configs, old(elements), allSettings, n)
        invariant events == old(events) && listeners == old(listeners)
      {
        var config := configs[n];
        if config.id in elements && config.key in allSettings {
          elements := elements[config.id := Applied(elements[config.id], config.kind, allSettings[config.key])];
        }
      }
    }

    /** `addEventListenersToSettings`: each listener calls `saveSettings`. */
    method AddEventListenersToSettings()
      modifies this
      ensures listeners == old(listeners) + KeptMapped(SETTINGS_CONFIG, |SETTINGS_CONFIG|, HasElement(elements), ListenerOf)
      ensures elements == old(elements) && events == old(events)
    {
      AddListeners(SETTINGS_CONFIG);
    }

    /** The loop of `addEventListenersToSettings`: a listener for each entry with an element. */
    method AddListeners(configs: seq<Setting>)
      modifies this
      ensures listeners == old(listeners) + KeptMapped(configs, |configs|, HasElement(elements), ListenerOf)
      ensures elements == old(elements) && events == old(events)
    {
      for n := 0 to |configs|
        invariant listeners == old(listeners) + KeptMapped(configs, n, HasElement(elements), ListenerOf)
        invariant elements == old(elements) && events == old(events)
      {
        var config := configs[n];
        if config.id in elements {
          var eventType := if config.kind == Value then Input else Change;
          listeners := listeners + [(config.id, eventType)];
        }
      }
    }
  }
}
