/**
 * DefaultAutofillPicker: lists the installed autofill services, stores the
 * chosen one in the secure settings and answers an app that asked to become
 * the autofill service; AutofillSettingIntentProvider finds the settings
 * activity of the selected service.
 */
module DefaultApps {

  import opened Wrappers
  import opened AndroidContent

  /** Settings.Secure.AUTOFILL_SERVICE. */
  const SETTING: string := "autofill_service"
  const EXTRA_PACKAGE_NAME: string := "package_name"

  /** One row of the picker: a component shown for a user. */
  datatype DefaultAppInfo = DefaultAppInfo(userId: int, componentName: ComponentName)

  /** A picker row as seen by the confirmation dialog: the label it loads. */
  datatype CandidateInfo = CandidateInfo(appLabel: string)

  /** The autofill confirmation text, filled with the application's name. */
  datatype ConfirmationMessage = AutofillConfirmation(appName: string)

  /** The dialog cancel listener: it cancels and finishes the activity it captured. */
  datatype CancelListener = CancelListener(activity: Activity)

  method OnCancel(listener: CancelListener)
    modifies listener.activity
    ensures listener.activity.resultCode == RESULT_CANCELED && listener.activity.finished
  {
    listener.activity.SetResult(RESULT_CANCELED);
    listener.activity.Finish();
  }

  /** The activity result for a stored key when the launching intent names `packageName`. */
  function ResultFor(key: Option<string>, packageName: string): (code: int)
    ensures code == RESULT_OK || code == RESULT_CANCELED
  {
    if key.Some? && packageName <= key.value then RESULT_OK else RESULT_CANCELED
  }

  /**
   * For the flattened key of a component, the result is OK exactly when the
   * requested package name is a prefix of the component's package name. The
   * rule compares characters, not packages: a request from "com.foo" accepts
   * a service of "com.foobar".
   */
  lemma FlattenedKeyResult(c: ComponentName, packageName: string)
    requires '/' !in packageName
    ensures ResultFor(Some(FlattenToString(c)), packageName) == RESULT_OK <==> packageName <= c.packageName
  {
    var key := FlattenToString(c);
    var n := |c.packageName|;
    if packageName <= key {
      assert packageName == key[..|packageName|] == c.packageName[..|packageName|];
    }
    if packageName <= c.packageName {
      assert packageName == c.packageName[..|packageName|] == key[..|packageName|];
    }
  }

  /** The key under which a resolved service is stored: its flattened component. */
  function KeyOf(s: ResolvedService): Option<string>
  {
    Some(FlattenToString(ComponentOf(s)))
  }

  /** TextUtils.equals(selectedKey, flattened component of `s`); a null key matches nothing. */
  predicate Matches(s: ResolvedService, key: Option<string>)
  {
    key == KeyOf(s)
  }

  /** The index of the first service whose flattened component equals `key`. */
  function FirstMatch(services: seq<ResolvedService>, key: Option<string>): (r: Option<nat>)
    ensures r.Some? ==> r.value < |services| && Matches(services[r.value], key)
    ensures r.Some? ==> forall j :: 0 <= j < r.value ==> !Matches(services[j], key)
    ensures r.None? ==> forall j :: 0 <= j < |services| ==> !Matches(services[j], key)
  {
    if services == [] then None
    else if Matches(services[0], key) then Some(0)
    else match FirstMatch(services[1..], key)
      case None => None
      case Some(i) => Some(i + 1)
  }

  /** TextUtils.isEmpty: null or the empty string. */
  predicate IsEmpty(s: Option<string>)
  {
    s.None? || s.value == ""
  }

  /** The intent to a service's settings activity, or none when its metadata names none. */
  function SettingsIntent(s: ResolvedService): (r: Option<Intent>)
    ensures r.None? <==> IsEmpty(s.settingsActivity)
    ensures r.Some? ==>
      r.value.action == ACTION_MAIN &&
      r.value.component == ComponentName(s.packageName, s.settingsActivity.value)
  {
    if IsEmpty(s.settingsActivity) then None
    else Some(Intent(ACTION_MAIN, ComponentName(s.packageName, s.settingsActivity.value)))
  }

  /** Services after the first match do not change what the search finds. */
  lemma {:induction false} FirstMatchIgnoresLaterServices(services: seq<ResolvedService>, key: Option<string>, later: seq<ResolvedService>)
    requires FirstMatch(services, key).Some?
    ensures FirstMatch(services + later, key) == FirstMatch(services, key)
  {
    assert services != [];
    assert (services + later)[0] == services[0];
    if !Matches(services[0], key) {
      assert (services + later)[1..] == services[1..] + later;
      FirstMatchIgnoresLaterServices(services[1..], key, later);
    }
  }

  /**
   * Selecting a listed candidate makes the search stop at a service with
   * that same component, at or before the candidate's own position.
   */
  lemma CandidateIsSelectable(services: seq<ResolvedService>, i: nat)
    requires i < |services|
    requires forall j :: 0 <= j < |services| ==> '/' !in services[j].packageName
    ensures FirstMatch(services, KeyOf(services[i])).Some?
    ensures FirstMatch(services, KeyOf(services[i])).value <= i
    ensures ComponentOf(services[FirstMatch(services, KeyOf(services[i])).value]) == ComponentOf(services[i])
  {
    var key := KeyOf(services[i]);
    assert Matches(services[i], key);
    var j := FirstMatch(services, key).value;
    FlattenInjective(ComponentOf(services[j]), ComponentOf(services[i]));
  }

  class DefaultAutofillPicker {
    const activity: Activity?
    const settings: SecureSettings
    const userId: int
    var cancelListener: Option<CancelListener>

    constructor (activity: Activity?, settings: SecureSettings, userId: int)
      ensures this.activity == activity && this.settings == settings && this.userId == userId
      ensures cancelListener == None
    {
      this.activity := activity;
      this.settings := settings;
      this.userId := userId;
      cancelListener := None;
    }

    /** The cancel listener is installed only for an activity launched with a package name. */
    method OnCreate()
      modifies this
      ensures activity != null && activity.packageNameExtra.Some? ==> cancelListener == Some(CancelListener(activity))
      ensures activity == null || activity.packageNameExtra.None? ==> cancelListener == old(cancelListener)
    {
      if activity != null && activity.packageNameExtra.Some? {
        cancelListener := Some(CancelListener(activity));
      }
    }

    /** The picker always offers a "None" entry. */
    function ShouldShowItemNone(): (r: bool)
      ensures r
    {
      true
    }

    method GetCandidates(resolveInfos: seq<ResolvedService>) returns (candidates: seq<DefaultAppInfo>)
      ensures |candidates| == |resolveInfos|
      ensures forall i :: 0 <= i < |resolveInfos| ==>
        candidates[i] == DefaultAppInfo(userId, ComponentName(resolveInfos[i].packageName, resolveInfos[i].name))
    {
      candidates := [];
      for k := 0 to |resolveInfos|
        invariant |candidates| == k
        invariant forall i :: 0 <= i < k ==> candidates[i] == DefaultAppInfo(userId, ComponentOf(resolveInfos[i]))
      {
        var info := resolveInfos[k];
        candidates := candidates + [DefaultAppInfo(userId, ComponentName(info.packageName, info.name))];
      }
    }

    /** The stored autofill service key; an unset setting reads as null. */
    function GetDefaultKey(): (key: Option<string>)
      reads settings
      ensures SETTING !in settings.values ==> key.None?
      ensures SETTING in settings.values ==> key == settings.values[SETTING]
    {
      settings.GetString(SETTING)
    }

    /** No candidate, no message; otherwise the message names the candidate's label. */
    function GetConfirmationMessage(appInfo: Option<CandidateInfo>): (m: Option<ConfirmationMessage>)
      ensures m.None? <==> appInfo.None?
      ensures m.Some? ==> m.value.appName == appInfo.value.appLabel
    {
      match appInfo
      case None => None
      case Some(info) => Some(AutofillConfirmation(info.appLabel))
    }

    method SetDefaultKey(key: Option<string>) returns (ok: bool)
      modifies settings, activity
      ensures ok
      ensures settings.values == old(settings.values)[SETTING := key]
      ensures GetDefaultKey() == key
      ensures activity != null && activity.packageNameExtra.Some? ==>
        activity.finished && activity.resultCode == ResultFor(key, activity.packageNameExtra.value) &&
        (activity.resultCode == RESULT_OK <==> key.Some? && activity.packageNameExtra.value <= key.value)
      ensures activity != null && activity.packageNameExtra.None? ==> unchanged(activity)
    {
      settings.PutString(SETTING, key);
      if activity != null {
        var packageName := activity.packageNameExtra;
        if packageName.Some? {
          var result := ResultFor(key, packageName.value);
          activity.SetResult(result);
          activity.Finish();
        }
      }
      return true;
    }
  }

  class AutofillSettingIntentProvider {
    const selectedKey: Option<string>

    constructor (key: Option<string>)
      ensures selectedKey == key
    {
      selectedKey := key;
    }

    /**
     * Scans the resolved services in order and stops at the first whose
     * flattened component equals the selected key: the intent to its
     * settings activity, or none when it has none; none when nothing matches.
     */
    method GetIntent(resolveInfos: seq<ResolvedService>) returns (intent: Option<Intent>)
      ensures FirstMatch(resolveInfos, selectedKey).None? ==> intent.None?
      ensures FirstMatch(resolveInfos, selectedKey).Some? ==>
        intent == SettingsIntent(resolveInfos[FirstMatch(resolveInfos, selectedKey).value])
    {
      var k := 0;
      while k < |resolveInfos|
        invariant 0 <= k <= |resolveInfos|
        invariant forall j :: 0 <= j < k ==> !Matches(resolveInfos[j], selectedKey)
      {
        var serviceInfo := resolveInfos[k];
        var flattenKey := FlattenToString(ComponentName(serviceInfo.packageName, serviceInfo.name));
        if selectedKey == Some(flattenKey) {
          var settingsActivity := serviceInfo.settingsActivity;
          if IsEmpty(settingsActivity) {
            return None;
          }
          return Some(Intent(ACTION_MAIN, ComponentName(serviceInfo.packageName, settingsActivity.value)));
        }
        k := k + 1;
      }
      return None;
    }
  }
}
