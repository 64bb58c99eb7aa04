/**
 * The android.content values the autofill picker works with: component
 * names and their flattened form, resolved services, intents, the activity
 * that hosts the picker and the secure settings table.
 */
module AndroidContent {

  import opened Wrappers

  const ACTION_MAIN: string := "android.intent.action.MAIN"
  const RESULT_CANCELED: int := 0
  const RESULT_OK: int := -1

  /** An android.content.ComponentName: a package and a class within it. */
  datatype ComponentName = ComponentName(packageName: string, className: string)

  /** ComponentName.flattenToString: the package, a slash, the class name. */
  function FlattenToString(c: ComponentName): (s: string)
    ensures |s| == |c.packageName| + 1 + |c.className|
    ensures c.packageName <= s && s[|c.packageName|] == '/' && s[|c.packageName| + 1..] == c.className
  {
    c.packageName + "/" + c.className
  }

  /** Package names hold no slash, so flattening tells components apart. */
  lemma FlattenInjective(a: ComponentName, b: ComponentName)
    requires '/' !in a.packageName && '/' !in b.packageName
    requires FlattenToString(a) == FlattenToString(b)
    ensures a == b
  {
    var s := FlattenToString(a);
    var m := |a.packageName|;
    assert a.packageName == s[..m] == b.packageName;
  }

  /**
   * A service that answered the autofill probe: the package and class name
   * from its ServiceInfo and the settings activity its metadata names, if any.
   */
  datatype ResolvedService = ResolvedService(packageName: string, name: string, settingsActivity: Option<string>)

  function ComponentOf(s: ResolvedService): ComponentName
  {
    ComponentName(s.packageName, s.name)
  }

  /** An explicit intent: an action aimed at one component. */
  datatype Intent = Intent(action: string, component: ComponentName)

  /** The activity hosting a fragment: the package-name extra of its launching intent, its result and whether it finished. */
  class Activity {
    const packageNameExtra: Option<string>
    var resultCode: int
    var finished: bool

    constructor (packageNameExtra: Option<string>)
      ensures this.packageNameExtra == packageNameExtra
      ensures resultCode == RESULT_CANCELED && !finished
    {
      this.packageNameExtra := packageNameExtra;
      resultCode := RESULT_CANCELED;
      finished := false;
    }

    method SetResult(code: int)
      modifies this
      ensures resultCode == code && finished == old(finished)
    {
      resultCode := code;
    }

    method Finish()
      modifies this
      ensures finished && resultCode == old(resultCode)
    {
      finished := true;
    }
  }

  /** The Settings.Secure table; a stored value may be null. */
  class SecureSettings {
    var values: map<string, Option<string>>

    constructor ()
      ensures values == map[]
    {
      values := map[];
    }

    function GetString(name: string): Option<string>
      reads this
    {
      if name in values then values[name] else None
    }

    method PutString(name: string, value: Option<string>)
      modifies this
      ensures values == old(values)[name := value]
    {
      values := values[name := value];
    }
  }
}
