/**
 * The table of content scripts the extension registers (scripts.config.js): one entry per
 * feature, with the storage key that switches it on, the files injected, the pages matched,
 * and whether it is on after installation.
 */
module ScriptsConfig {
  import opened Wrappers
  import opened Text
  import opened Seqs

  datatype RunAt = DocumentStart | DocumentIdle | DocumentEnd

  datatype ScriptConfig = ScriptConfig(
    id: string,
    storageKey: string,
    js: seq<string>,
    matches: seq<string>,
    runAt: RunAt,
    enabledByDefault: bool,
    optionsPanelId: Option<string>)

  const FEATURES: string := "features/"
  const CONSTANTS_JS: string := "features/modules/constants.js"
  const DOM_UTILS_JS: string := "features/modules/dom-utils.js"

  const KOGAKUIN_LMS: string := "https://study.ns.kogakuin.ac.jp/*"
  const KOGAKUIN_LMS_HOME: string := "https://study.ns.kogakuin.ac.jp/lms/homeHoml/*"
  const KOGAKUIN_LMS_GENERAL: string := "https://study.ns.kogakuin.ac.jp/lms/*"
  const KOGAKUIN_LMS_HH_KYOZAI: string := "https://study.ns.kogakuin.ac.jp/lms/homeHoml/doLinkKougi*"
  const KOGAKUIN_LMS_CC: string := "https://study.ns.kogakuin.ac.jp/lms/corsColl/*"
  const KOGAKUIN_LMS_SS: string := "https://study.ns.kogakuin.ac.jp/lms/srcsSrcl/*"
  const SECIOSS: string := "https://slink.secioss.com/*"
  const GOOGLE_MEET: string := "https://meet.google.com/*"
  const GOOGLE_SCRIPT: string := "https://script.google.com/*"

  /** The shared modules plus the feature's own script. */
  function WithModules(feature: string): seq<string> {
    [CONSTANTS_JS, DOM_UTILS_JS, FEATURES + feature]
  }

  const AUTO_LOGIN: ScriptConfig := ScriptConfig("AutoLoginScript", "autoLogin", WithModules("AutoLogin.js"),
    [KOGAKUIN_LMS, SECIOSS], DocumentStart, true, Some("auto-login-options"))
  const TIME_DISPLAY: ScriptConfig := ScriptConfig("TimeDisplayScript", "showTime", WithModules("time.js"),
    [KOGAKUIN_LMS], DocumentIdle, false, None)
  const AUTO_ATTEND: ScriptConfig := ScriptConfig("AutoAttendScript", "autoAttend", WithModules("attend.js"),
    [KOGAKUIN_LMS, GOOGLE_MEET], DocumentIdle, false, Some("auto-attend-options"))
  const MEET_JOIN: ScriptConfig := ScriptConfig("MeetJoinScript", "autoMeet", [DOM_UTILS_JS, FEATURES + "meet.js"],
    [GOOGLE_MEET], DocumentIdle, true, None)
  const SEARCH_SUBJECT: ScriptConfig := ScriptConfig("SearchSubject", "searchSubject", WithModules("subject.js"),
    [KOGAKUIN_LMS_HOME], DocumentStart, true, None)
  const DARK_MODE: ScriptConfig := ScriptConfig("DarkMode", "darkMode", [FEATURES + "darkmode.js"],
    [KOGAKUIN_LMS], DocumentStart, false, None)
  const HOMEWORK: ScriptConfig := ScriptConfig("Homework", "homework", WithModules("homework.js"),
    [KOGAKUIN_LMS_HOME], DocumentEnd, true, Some("homework-options"))
  const LOGOUT_BLOCK: ScriptConfig := ScriptConfig("logoutblock", "logoutblock", WithModules("LMSlogoutblock.js"),
    [KOGAKUIN_LMS_GENERAL], DocumentEnd, true, None)
  const KYOZAI_OPEN: ScriptConfig := ScriptConfig("kyozaiopen", "kyozaiopen", WithModules("kyozaiopen.js"),
    [KOGAKUIN_LMS_HH_KYOZAI, KOGAKUIN_LMS_CC, KOGAKUIN_LMS_SS], DocumentEnd, true, None)

  /** `CONTENT_SCRIPTS_CONFIG`, in its order. */
  const CONTENT_SCRIPTS_CONFIG: seq<ScriptConfig> :=
    [AUTO_LOGIN, TIME_DISPLAY, AUTO_ATTEND, MEET_JOIN, SEARCH_SUBJECT, DARK_MODE, HOMEWORK, LOGOUT_BLOCK, KYOZAI_OPEN]

  /** `GAS_SETUP_CONFIG`: injected on request only, so it has no storage key. */
  const GAS_SETUP_CONFIG: ScriptConfig := ScriptConfig("gasautosetup", "", ["gas/autosetup.js"],
    [GOOGLE_SCRIPT], DocumentEnd, false, None)

  function Ids(cs: seq<ScriptConfig>): (r: seq<string>)
    ensures |r| == |cs| && forall i :: 0 <= i < |cs| ==> r[i] == cs[i].id
  {
    seq(|cs|, i requires 0 <= i < |cs| => cs[i].id)
  }

  function StorageKeys(cs: seq<ScriptConfig>): (r: seq<string>)
    ensures |r| == |cs| && forall i :: 0 <= i < |cs| ==> r[i] == cs[i].storageKey
  {
    seq(|cs|, i requires 0 <= i < |cs| => cs[i].storageKey)
  }

  predicate Distinct(xs: seq<string>) {
    forall i, j :: 0 <= i < j < |xs| ==> xs[i] != xs[j]
  }

  /** Every script ID, the set-up script's included, names one script. */
  lemma IdsUnique()
    ensures Distinct(Ids(CONTENT_SCRIPTS_CONFIG + [GAS_SETUP_CONFIG]))
  {
    var ids := Ids(CONTENT_SCRIPTS_CONFIG + [GAS_SETUP_CONFIG]);
    assert ids == ["AutoLoginScript", "TimeDisplayScript", "AutoAttendScript", "MeetJoinScript", "SearchSubject",
                   "DarkMode", "Homework", "logoutblock", "kyozaiopen", "gasautosetup"];
    // the lengths differ, except for "DarkMode" and "Homework"
    forall i, j | 0 <= i < j < |ids| ensures ids[i] != ids[j] {
      assert |ids[i]| != |ids[j]| || ids[i][0] != ids[j][0];
    }
  }

  /** Every storage key switches one script, so a key finds at most one entry. */
  lemma StorageKeysUnique()
    ensures Distinct(StorageKeys(CONTENT_SCRIPTS_CONFIG))
  {
    var keys := StorageKeys(CONTENT_SCRIPTS_CONFIG);
    assert keys == ["autoLogin", "showTime", "autoAttend", "autoMeet", "searchSubject", "darkMode", "homework",
                    "logoutblock", "kyozaiopen"];
    // keys of the same length start with different letters
    forall i, j | 0 <= i < j < |keys| ensures keys[i] != keys[j] {
      assert |keys[i]| != |keys[j]| || keys[i][0] != keys[j][0];
    }
  }

  /** An entry that is on after installation and has an options panel. */
  predicate HasDefaultPanel(c: ScriptConfig) {
    c.enabledByDefault && c.optionsPanelId.Some?
  }

  function PanelOf(c: ScriptConfig): string {
    c.optionsPanelId.GetOr("")
  }

  /** The panels of the scripts among the first `n` that are on by default, in table order. */
  function DefaultPanels(cs: seq<ScriptConfig>, n: nat): seq<string>
    requires n <= |cs|
  {
    KeptMapped(cs, n, HasDefaultPanel, PanelOf)
  }

  /** The panels of the default-on scripts are the login panel, then the homework panel. */
  lemma DefaultPanelOrder()
    ensures DefaultPanels(CONTENT_SCRIPTS_CONFIG, |CONTENT_SCRIPTS_CONFIG|) == ["auto-login-options", "homework-options"]
  {
    var cs := CONTENT_SCRIPTS_CONFIG;
    var login, homework := ["auto-login-options"], ["auto-login-options", "homework-options"];
    assert HasDefaultPanel(cs[0]) && PanelOf(cs[0]) == "auto-login-options";
    assert KeptMapped(cs, 0, HasDefaultPanel, PanelOf) == [];
    assert KeptMapped(cs, 1, HasDefaultPanel, PanelOf) == [] + login == login;
    assert !HasDefaultPanel(cs[1]) && !HasDefaultPanel(cs[2]) && !HasDefaultPanel(cs[3]);
    assert KeptMapped(cs, 2, HasDefaultPanel, PanelOf) == login + [] == login;
    assert KeptMapped(cs, 3, HasDefaultPanel, PanelOf) == login;
    assert KeptMapped(cs, 4, HasDefaultPanel, PanelOf) == login;
    assert !HasDefaultPanel(cs[4]) && !HasDefaultPanel(cs[5]);
    assert KeptMapped(cs, 5, HasDefaultPanel, PanelOf) == login;
    assert KeptMapped(cs, 6, HasDefaultPanel, PanelOf) == login;
    assert HasDefaultPanel(cs[6]) && PanelOf(cs[6]) == "homework-options";
    assert KeptMapped(cs, 7, HasDefaultPanel, PanelOf) == homework;
    assert !HasDefaultPanel(cs[7]) && !HasDefaultPanel(cs[8]);
    assert KeptMapped(cs, 8, HasDefaultPanel, PanelOf) == homework + [] == homework;
    assert KeptMapped(cs, 9, HasDefaultPanel, PanelOf) == homework;
  }

  /** Where the auto-attend and Meet entries sit: the Meet entry comes later, so a pass over the table settles it last. */
  const AUTO_ATTEND_INDEX: nat := 2
  const MEET_JOIN_INDEX: nat := 3

  lemma AttendBeforeMeet()
    ensures CONTENT_SCRIPTS_CONFIG[AUTO_ATTEND_INDEX] == AUTO_ATTEND && CONTENT_SCRIPTS_CONFIG[MEET_JOIN_INDEX] == MEET_JOIN
    ensures AUTO_ATTEND_INDEX < MEET_JOIN_INDEX
    ensures AUTO_ATTEND.storageKey == "autoAttend" && MEET_JOIN.storageKey == "autoMeet"
  {
  }

  /**
   * A `js` list ends with a feature script, after the shared modules it uses, which come in
   * the same order everywhere.
   */
  predicate FeatureLast(js: seq<string>) {
    && js != []
    && StartsWith(js[|js| - 1], FEATURES) && EndsWith(js[|js| - 1], ".js")
    && js[|js| - 1] != CONSTANTS_JS && js[|js| - 1] != DOM_UTILS_JS
    && (js[..|js| - 1] == [] || js[..|js| - 1] == [DOM_UTILS_JS] || js[..|js| - 1] == [CONSTANTS_JS, DOM_UTILS_JS])
  }

  lemma ModulesFeatureLast(feature: string)
    requires EndsWith(feature, ".js") && |feature| < 20
    ensures FeatureLast(WithModules(feature)) && FeatureLast([DOM_UTILS_JS, FEATURES + feature]) && FeatureLast([FEATURES + feature])
  {
    var last := FEATURES + feature;
    assert |last| < |CONSTANTS_JS| == |DOM_UTILS_JS|;
    assert last[|last| - 3..] == feature[|feature| - 3..];
    assert WithModules(feature)[..2] == [CONSTANTS_JS, DOM_UTILS_JS];
    assert [DOM_UTILS_JS, FEATURES + feature][..1] == [DOM_UTILS_JS];
  }

  /** Every entry injects its own feature script last. */
  lemma FeatureScriptLast()
    ensures forall i :: 0 <= i < |CONTENT_SCRIPTS_CONFIG| ==> FeatureLast(CONTENT_SCRIPTS_CONFIG[i].js)
  {
    forall i | 0 <= i < |CONTENT_SCRIPTS_CONFIG| ensures FeatureLast(CONTENT_SCRIPTS_CONFIG[i].js) {
      EntryFeatureLast(i);
    }
  }

  lemma EntryFeatureLast(i: nat)
    requires i < |CONTENT_SCRIPTS_CONFIG|
    ensures FeatureLast(CONTENT_SCRIPTS_CONFIG[i].js)
  {
    if i < 5 {
      EarlyEntryFeatureLast(i);
    } else {
      LateEntryFeatureLast(i);
    }
  }

  lemma EarlyEntryFeatureLast(i: nat)
    requires i < 5
    ensures FeatureLast(CONTENT_SCRIPTS_CONFIG[i].js)
  {
    var c := CONTENT_SCRIPTS_CONFIG[i];
    if i == 0 {
      assert c == AUTO_LOGIN;
      ModulesFeatureLast("AutoLogin.js");
    } else if i == 1 {
      assert c == TIME_DISPLAY;
      ModulesFeatureLast("time.js");
    } else if i == 2 {
      assert c == AUTO_ATTEND;
      ModulesFeatureLast("attend.js");
    } else if i == 3 {
      assert c == MEET_JOIN;
      ModulesFeatureLast("meet.js");
    } else {
      assert c == SEARCH_SUBJECT;
      ModulesFeatureLast("subject.js");
    }
  }

  lemma LateEntryFeatureLast(i: nat)
    requires 5 <= i < |CONTENT_SCRIPTS_CONFIG|
    ensures FeatureLast(CONTENT_SCRIPTS_CONFIG[i].js)
  {
    var c := CONTENT_SCRIPTS_CONFIG[i];
    if i == 5 {
      assert c == DARK_MODE;
      ModulesFeatureLast("darkmode.js");
    } else if i == 6 {
      assert c == HOMEWORK;
      ModulesFeatureLast("homework.js");
    } else if i == 7 {
      assert c == LOGOUT_BLOCK;
      ModulesFeatureLast("LMSlogoutblock.js");
    } else {
      assert c == KYOZAI_OPEN;
      ModulesFeatureLast("kyozaiopen.js");
    }
  }
}
