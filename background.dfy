/**
 * The service worker (background.js): it keeps the registered content scripts in line with
 * the switches in synced storage, on start-up (`initializeScripts`), on every storage change,
 * and on an `inject` message for the Apps Script set-up script; on installation it writes the
 * default switches and the default order of the options panels.
 */
module Background {
  import opened Wrappers
  import opened Seqs
  import opened ScriptsConfig
  import opened Registry

  const CS: seq<ScriptConfig> := CONTENT_SCRIPTS_CONFIG

  /** `CONTENT_SCRIPTS_CONFIG.find(c => c.storageKey === key)`, as an index. */
  function FindIndex(cs: seq<ScriptConfig>, key: string): (r: Option<nat>)
    ensures r.Some? ==> r.value < |cs| && cs[r.value].storageKey == key
    ensures r.Some? ==> forall j :: 0 <= j < r.value ==> cs[j].storageKey != key
    ensures r.None? ==> forall j :: 0 <= j < |cs| ==> cs[j].storageKey != key
  {
    if cs == [] then None
    else if cs[0].storageKey == key then Some(0)
    else match FindIndex(cs[1..], key)
      case Some(j) => Some(j + 1)
      case None => None
  }

  function FindConfig(key: string): Option<ScriptConfig> {
    match FindIndex(CS, key)
    case Some(i) => Some(CS[i])
    case None => None
  }

  /** Two different entries of the table have different IDs and different storage keys. */
  lemma TableUnique()
    ensures forall i, j :: 0 <= i < |CS| && 0 <= j < |CS| && i != j ==> CS[i].id != CS[j].id
    ensures forall i, j :: 0 <= i < |CS| && 0 <= j < |CS| && i != j ==> CS[i].storageKey != CS[j].storageKey
  {
    IdsUnique();
    StorageKeysUnique();
    var ids := Ids(CS + [GAS_SETUP_CONFIG]);
    forall i, j | 0 <= i < |CS| && 0 <= j < |CS| && i != j ensures CS[i].id != CS[j].id {
      assert ids[i] == CS[i].id && ids[j] == CS[j].id;
    }
    var keys := StorageKeys(CS);
    forall i, j | 0 <= i < |CS| && 0 <= j < |CS| && i != j ensures CS[i].storageKey != CS[j].storageKey {
      assert keys[i] == CS[i].storageKey && keys[j] == CS[j].storageKey;
    }
  }

  /** A storage key of the table finds its own entry. */
  lemma FindConfigOfKey(i: nat)
    requires i < |CS|
    ensures FindConfig(CS[i].storageKey) == Some(CS[i])
  {
    TableUnique();
  }

  /** The lookup of the Meet entry inside the auto-attend branch always succeeds. */
  lemma MeetConfigFound()
    ensures FindConfig("autoMeet") == Some(MEET_JOIN)
  {
    AttendBeforeMeet();
    FindConfigOfKey(MEET_JOIN_INDEX);
  }

  /**
   * The scripts a change of `key` switches: the entries whose storage key it is, and, for
   * `autoAttend`, the Meet entry too.
   */
  function Governed(key: string): set<string> {
    (set i | 0 <= i < |CS| && CS[i].storageKey == key :: CS[i].id)
    + (if key == "autoAttend" then {MEET_JOIN.id} else {})
  }

  /** The dependent Meet script: re-registered when `on`, unregistered otherwise. */
  function MeetFollows(reg: set<string>, on: bool): set<string> {
    match FindConfig("autoMeet")
    case None => reg
    case Some(m) => if on then AfterRegister(AfterUnregister(reg, m.id), m.id) else AfterUnregister(reg, m.id)
  }

  /** One entry of `changes` as the `onChanged` listener handles it: `key` with the truthiness of its `newValue`. */
  function ApplyChange(reg: set<string>, key: string, newValue: bool): set<string> {
    match FindConfig(key)
    case None => reg
    case Some(c) =>
      if newValue then
        var r := AfterRegister(AfterUnregister(reg, c.id), c.id);
        if key == "autoAttend" then MeetFollows(r, true) else r
      else
        var r := AfterUnregister(reg, c.id);
        if key == "autoAttend" then MeetFollows(r, false) else r
  }

  /**
   * A truthy value leaves every script the key governs registered, a falsy one leaves them all
   * unregistered, and no other script changes; a key outside the table governs nothing.
   */
  lemma ApplyChangeEffect(reg: set<string>, key: string, newValue: bool)
    ensures ApplyChange(reg, key, newValue) == if newValue then reg + Governed(key) else reg - Governed(key)
    ensures FindConfig(key).None? ==> Governed(key) == {} && ApplyChange(reg, key, newValue) == reg
  {
    MeetConfigFound();
    match FindIndex(CS, key)
    case None =>
      GovernedOfUnknown(key);
    case Some(k) =>
      GovernedOfEntry(key, k);
      var id := CS[k].id;
      ReRegister(reg, id);
      if key == "autoAttend" {
        ReRegister(reg + {id}, MEET_JOIN.id);
        assert ApplyChange(reg, key, true) == reg + {id} + {MEET_JOIN.id};
        assert ApplyChange(reg, key, false) == AfterUnregister(AfterUnregister(reg, id), MEET_JOIN.id);
      } else {
        assert ApplyChange(reg, key, true) == reg + {id};
        assert ApplyChange(reg, key, false) == AfterUnregister(reg, id);
      }
  }

  /** A key outside the table governs nothing. */
  lemma GovernedOfUnknown(key: string)
    requires FindIndex(CS, key).None?
    ensures Governed(key) == {}
  {
    assert key != "autoAttend" by { assert CS[AUTO_ATTEND_INDEX].storageKey == "autoAttend"; }
  }

  /** A key of the table governs its own entry's script, and auto-attend the Meet script too. */
  lemma GovernedOfEntry(key: string, k: nat)
    requires FindIndex(CS, key) == Some(k)
    ensures Governed(key) == {CS[k].id} + (if key == "autoAttend" then {MEET_JOIN.id} else {})
  {
    TableUnique();
    assert (set i | 0 <= i < |CS| && CS[i].storageKey == key :: CS[i].id) == {CS[k].id};
  }

  /** The changes `0 .. n - 1`, in the order `Object.entries` lists them. */
  function ApplyChanges(reg: set<string>, changes: seq<(string, bool)>, n: nat): set<string>
    requires n <= |changes|
  {
    if n == 0 then reg else ApplyChange(ApplyChanges(reg, changes, n - 1), changes[n - 1].0, changes[n - 1].1)
  }

  /** `changes` comes from an object, so it has each key at most once. */
  predicate KeysDistinct(changes: seq<(string, bool)>) {
    forall i, j :: 0 <= i < j < |changes| ==> changes[i].0 != changes[j].0
  }

  /**
   * After the first `n` changes, a script switched by no changed key is as it was, and a script
   * switched by exactly one changed key follows that key's new value.
   */
  lemma ChangesSettle(reg: set<string>, changes: seq<(string, bool)>, n: nat, x: string)
    requires n <= |changes| && KeysDistinct(changes)
    ensures (forall i :: 0 <= i < n ==> x !in Governed(changes[i].0)) ==> (x in ApplyChanges(reg, changes, n) <==> x in reg)
    ensures forall i :: (0 <= i < n && x in Governed(changes[i].0)
      && (forall j :: 0 <= j < n && j != i ==> x !in Governed(changes[j].0))
      ==> (x in ApplyChanges(reg, changes, n) <==> changes[i].1))
  {
    var es := Effects(changes);
    ChangesAreEffects(reg, changes, n);
    EffectsSettle(reg, es, n, x);
  }

  /** What each change does: the scripts it governs, and whether they end up registered. */
  function Effects(changes: seq<(string, bool)>): (es: seq<(set<string>, bool)>)
    ensures |es| == |changes|
    ensures forall i :: 0 <= i < |changes| ==> es[i] == (Governed(changes[i].0), changes[i].1)
  {
    seq(|changes|, i requires 0 <= i < |changes| => (Governed(changes[i].0), changes[i].1))
  }

  /** The effects `0 .. n - 1` applied in order: each adds or removes its scripts. */
  function ApplyEffects(reg: set<string>, es: seq<(set<string>, bool)>, n: nat): set<string>
    requires n <= |es|
  {
    if n == 0 then reg
    else
      var r := ApplyEffects(reg, es, n - 1);
      if es[n - 1].1 then r + es[n - 1].0 else r - es[n - 1].0
  }

  /** Applying the changes is applying their effects. */
  lemma {:induction false} ChangesAreEffects(reg: set<string>, changes: seq<(string, bool)>, n: nat)
    requires n <= |changes|
    ensures ApplyChanges(reg, changes, n) == ApplyEffects(reg, Effects(changes), n)
  {
    if n > 0 {
      ChangesAreEffects(reg, changes, n - 1);
      ApplyChangeEffect(ApplyChanges(reg, changes, n - 1), changes[n - 1].0, changes[n - 1].1);
    }
  }

  /** A script no effect touches is as it was; one exactly one effect touches follows that effect. */
  lemma {:induction false} EffectsSettle(reg: set<string>, es: seq<(set<string>, bool)>, n: nat, x: string)
    requires n <= |es|
    ensures (forall i :: 0 <= i < n ==> x !in es[i].0) ==> (x in ApplyEffects(reg, es, n) <==> x in reg)
    ensures forall i :: (0 <= i < n && x in es[i].0 && (forall j :: 0 <= j < n && j != i ==> x !in es[j].0)
      ==> (x in ApplyEffects(reg, es, n) <==> es[i].1))
  {
    if n > 0 {
      EffectsSettle(reg, es, n - 1, x);
    }
  }

  /** `result[config.storageKey] || false` in `initializeScripts`: a missing key reads as off. */
  predicate Flag(stored: map<string, bool>, key: string) {
    key in stored && stored[key]
  }

  /** One pass of `initializeScripts`'s loop for the entry `c`. */
  function InitStep(reg: set<string>, c: ScriptConfig, on: bool): set<string> {
    var r := AfterUnregister(reg, c.id);
    if !on then r
    else
      var r2 := AfterRegister(r, c.id);
      if c.storageKey == "autoAttend" then MeetFollows(r2, true) else r2
  }

  /** The loop of `initializeScripts` over the first `n` entries of the table. */
  function InitAll(reg: set<string>, stored: map<string, bool>, n: nat): set<string>
    requires n <= |CS|
  {
    if n == 0 then reg else InitStep(InitAll(reg, stored, n - 1), CS[n - 1], Flag(stored, CS[n - 1].storageKey))
  }

  lemma InitStepEffect(reg: set<string>, c: ScriptConfig, on: bool)
    ensures InitStep(reg, c, on) ==
      if !on then reg - {c.id}
      else reg + {c.id} + (if c.storageKey == "autoAttend" then {MEET_JOIN.id} else {})
  {
    MeetConfigFound();
  }

  /**
   * Over the first `n` entries, each entry's script is registered exactly when its own switch
   * is on, and every script not yet visited is as it was — except the Meet script right
   * after the auto-attend entry, which that entry may have registered.
   */
  lemma {:induction false} InitPrefix(reg: set<string>, stored: map<string, bool>, n: nat)
    requires n <= |CS|
    ensures forall i :: 0 <= i < n ==> (CS[i].id in InitAll(reg, stored, n) <==> Flag(stored, CS[i].storageKey))
    ensures forall x :: ((forall i :: 0 <= i < n ==> x != CS[i].id) && (n != MEET_JOIN_INDEX || x != MEET_JOIN.id)
      ==> (x in InitAll(reg, stored, n) <==> x in reg))
  {
    if n > 0 {
      InitPrefix(reg, stored, n - 1);
      InitStepEffect(InitAll(reg, stored, n - 1), CS[n - 1], Flag(stored, CS[n - 1].storageKey));
      TableUnique();
      AttendBeforeMeet();
    }
  }

  /**
   * After `initializeScripts`, each script of the table is registered exactly when its own
   * switch is on (the Meet script follows `autoMeet`, since its entry comes after the
   * auto-attend entry), and a script outside the table is as it was.
   */
  lemma InitializeSettles(reg: set<string>, stored: map<string, bool>)
    ensures forall i :: 0 <= i < |CS| ==> (CS[i].id in InitAll(reg, stored, |CS|) <==> Flag(stored, CS[i].storageKey))
    ensures forall x :: x !in Ids(CS) ==> (x in InitAll(reg, stored, |CS|) <==> x in reg)
  {
    InitPrefix(reg, stored, |CS|);
    forall x | x !in Ids(CS) ensures forall i :: 0 <= i < |CS| ==> x != CS[i].id {
      forall i | 0 <= i < |CS| ensures x != CS[i].id {
        assert Ids(CS)[i] == CS[i].id;
      }
    }
  }

  /** The switches written on installation: `true` for each key whose entry is on by default, among the first `n`. */
  function DefaultFlags(n: nat): map<string, bool>
    requires n <= |CS|
  {
    if n == 0 then map[]
    else if CS[n - 1].enabledByDefault then DefaultFlags(n - 1)[CS[n - 1].storageKey := true]
    else DefaultFlags(n - 1)
  }

  lemma {:induction false} DefaultFlagsMembers(n: nat, key: string)
    requires n <= |CS|
    ensures key in DefaultFlags(n) <==> exists i :: 0 <= i < n && CS[i].enabledByDefault && CS[i].storageKey == key
    ensures key in DefaultFlags(n) ==> DefaultFlags(n)[key]
  {
    if n > 0 {
      DefaultFlagsMembers(n - 1, key);
    }
  }

  /** What `onInstalled` saves on a fresh install. */
  datatype InstallDefaults = InstallDefaults(flags: map<string, bool>, optionsOrder: seq<string>)

  /**
   * A later start-up with the installed defaults registers exactly the scripts that are on by
   * default, and the options order lists the login panel, then the homework panel.
   */
  lemma DefaultsRegisterDefaultOn(reg: set<string>)
    ensures forall i :: 0 <= i < |CS| ==> (CS[i].id in InitAll(reg, DefaultFlags(|CS|), |CS|) <==> CS[i].enabledByDefault)
    ensures DefaultPanels(CS, |CS|) == ["auto-login-options", "homework-options"]
  {
    InitializeSettles(reg, DefaultFlags(|CS|));
    TableUnique();
    forall i | 0 <= i < |CS|
      ensures Flag(DefaultFlags(|CS|), CS[i].storageKey) <==> CS[i].enabledByDefault
    {
      DefaultFlagsMembers(|CS|, CS[i].storageKey);
    }
    DefaultPanelOrder();
  }

  /** The `inject` message's `data`: `gassetup` registers the set-up script, `gassetupstop` removes it. */
  function InjectEffect(reg: set<string>, data: string): set<string> {
    var r := if data == "gassetup" then AfterRegister(reg, GAS_SETUP_CONFIG.id) else reg;
    if data == "gassetupstop" then AfterUnregister(r, GAS_SETUP_CONFIG.id) else r
  }

  lemma InjectMessages(reg: set<string>, data: string)
    ensures InjectEffect(reg, "gassetup") == reg + {"gasautosetup"}
    ensures InjectEffect(reg, "gassetupstop") == reg - {"gasautosetup"}
    ensures data != "gassetup" && data != "gassetupstop" ==> InjectEffect(reg, data) == reg
  {
  }

  /** `unregisterContentScript` then `registerContentScript` for the Meet entry, when it is found. */
  method ReRegisterMeet(registry: ScriptRegistry)
    modifies registry
    ensures registry.ids == MeetFollows(old(registry.ids), true)
  {
    var meetConfig := FindConfig("autoMeet");
    if meetConfig.Some? {
      registry.Unregister(meetConfig.value.id);
      registry.Register(meetConfig.value.id);
    }
  }

  /** The storage `onChanged` listener; `changes` lists each changed key with the truthiness of its new value. */
  method OnChanged(registry: ScriptRegistry, changes: seq<(string, bool)>, area: string)
    modifies registry
    ensures registry.ids == if area == "sync" then ApplyChanges(old(registry.ids), changes, |changes|) else old(registry.ids)
  {
    if area != "sync" {
      return;
    }
    for n := 0 to |changes|
      invariant registry.ids == ApplyChanges(old(registry.ids), changes, n)
    {
      var (key, newValue) := changes[n];
      var config := FindConfig(key);
      if config.Some? {
        if newValue {
          registry.Unregister(config.value.id);
          registry.Register(config.value.id);
          if key == "autoAttend" {
            ReRegisterMeet(registry);
          }
        } else {
          registry.Unregister(config.value.id);
          if key == "autoAttend" {
            var meetConfig := FindConfig("autoMeet");
            if meetConfig.Some? {
              registry.Unregister(meetConfig.value.id);
            }
          }
        }
      }
    }
  }

  /** `initializeScripts`, given what `chrome.storage.sync.get` returned and whether it set `lastError`. */
  method InitializeScripts(registry: ScriptRegistry, stored: map<string, bool>, storageError: bool)
    modifies registry
    ensures registry.ids == if storageError then old(registry.ids) else InitAll(old(registry.ids), stored, |CS|)
  {
    if storageError {
      return;
    }
    for n := 0 to |CS|
      invariant registry.ids == InitAll(old(registry.ids), stored, n)
    {
      var config := CS[n];
      var isEnabled := Flag(stored, config.storageKey);
      registry.Unregister(config.id);
      if isEnabled {
        registry.Register(config.id);
        if config.storageKey == "autoAttend" {
          ReRegisterMeet(registry);
        }
      }
    }
  }

  /**
   * The `onInstalled` listener. On a fresh install it returns what it writes to synced storage
   * (the scripts are then registered by the `onChanged` listener); on an update it runs
   * `initializeScripts`.
   */
  method OnInstalled(registry: ScriptRegistry, reason: string, stored: map<string, bool>, storageError: bool)
    returns (saved: Option<InstallDefaults>)
    modifies registry
    ensures reason == "install" ==>
      saved == Some(InstallDefaults(DefaultFlags(|CS|), DefaultPanels(CS, |CS|))) && registry.ids == old(registry.ids)
    ensures reason != "install" ==>
      saved == None && registry.ids == if storageError then old(registry.ids) else InitAll(old(registry.ids), stored, |CS|)
  {
    if reason == "install" {
      var defaults: map<string, bool> := map[];
      var defaultOptionsOrder: seq<string> := [];
      for n := 0 to |CS|
        invariant defaults == DefaultFlags(n) && defaultOptionsOrder == DefaultPanels(CS, n)
      {
        var config := CS[n];
        if config.enabledByDefault {
          defaults := defaults[config.storageKey := true];
          if config.optionsPanelId.Some? {
            defaultOptionsOrder := defaultOptionsOrder + [config.optionsPanelId.value];
          }
        }
      }
      saved := Some(InstallDefaults(defaults, defaultOptionsOrder));
    } else {
      InitializeScripts(registry, stored, storageError);
      saved := None;
    }
  }

  /**
   * The `onMessage` listener as far as the registry goes: an `openTab` action returns first, and
   * only the `inject` type touches the registry (the `send-homework` type posts over the network).
   */
  method OnInjectMessage(registry: ScriptRegistry, action: string, messageType: string, data: string)
    modifies registry
    ensures registry.ids == if action != "openTab" && messageType == "inject" then InjectEffect(old(registry.ids), data) else old(registry.ids)
  {
    if action == "openTab" {
      return;
    }
    if messageType == "inject" {
      if data == "gassetup" {
        registry.Register(GAS_SETUP_CONFIG.id);
      }
      if data == "gassetupstop" {
        registry.Unregister(GAS_SETUP_CONFIG.id);
      }
    }
  }
}
