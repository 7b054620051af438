/** The exceptions the settings core raises or lets through, and the messages of its own. */
module Errors {
  import opened Wrappers
  import opened Values
  import Names

  /** The environment variable that selects the settings module. */
  const ENVIRONMENT_VARIABLE := "SKULD_SETTINGS_MODULE"

  datatype Error =
    /** ImproperlyConfigured: a sequence setting holds something else. */
    | NotListOrTuple(setting: string)
    /** ImproperlyConfigured: the resolved SECRET_KEY is falsy. */
    | EmptySecretKey
    /** ImproperlyConfigured: no settings module is selected; `desc` says what was requested. */
    | NotConfigured(desc: string)
    /** RuntimeError: `configure` on a proxy that is already bound. */
    | AlreadyConfigured
    /** AttributeError for the named attribute. */
    | NoAttribute(name: string)
    /** ModuleNotFoundError from the module import. */
    | ModuleNotFound(path: string)
    /** TypeError from exporting a non-string TIME_ZONE into the environment. */
    | TimeZoneNotString

  /** `getattr(obj, name)` on an object whose attributes are `attrs`. */
  function GetAttr(attrs: map<string, Value>, name: string): Result<Value, Error>
  {
    if name in attrs then Ok(attrs[name]) else Err(NoAttribute(name))
  }

  /** What the failed auto-resolve says was requested: the setting's name when one is given. */
  function Describe(name: Option<string>): string
  {
    if name.Some? && name.value != "" then "setting " + name.value else "settings"
  }

  /** The errors whose text this core writes itself. */
  predicate HasOwnMessage(e: Error)
  {
    e.NotListOrTuple? || e.EmptySecretKey? || e.NotConfigured? || e.AlreadyConfigured?
  }

  function Message(e: Error): string
    requires HasOwnMessage(e)
  {
    match e
    case NotListOrTuple(s) => "The " + s + " setting must be a list or a tuple."
    case EmptySecretKey => "The SECRET_KEY setting must not be empty."
    case NotConfigured(desc) =>
      "Requested " + desc + ", but settings are not configured. "
      + "You must either define the environment variable " + ENVIRONMENT_VARIABLE + " "
      + "or call settings.configure() before accessing settings."
    case AlreadyConfigured => "Settings already configured."
  }

  /** The sequence-check error names the offending setting. */
  lemma NotListOrTupleNamesSetting(setting: string)
    ensures Names.IsSubstring(setting, Message(NotListOrTuple(setting)))
  {
    var m := Message(NotListOrTuple(setting));
    assert m[4..4 + |setting|] == setting;
    assert Names.OccursAt(setting, m, 4);
  }

  /** A failed auto-resolve for a named attribute mentions `setting <name>`. */
  lemma NotConfiguredNamesSetting(name: string)
    requires name != ""
    ensures Names.IsSubstring("setting " + name, Message(NotConfigured(Describe(Some(name)))))
  {
    var needle := "setting " + name;
    var m := Message(NotConfigured(Describe(Some(name))));
    assert m[10..10 + |needle|] == needle;
    assert Names.OccursAt(needle, m, 10);
  }

  /** Without a name (or with an empty one) the message speaks of `settings` as a whole. */
  lemma NotConfiguredGeneric(name: Option<string>)
    requires name.None? || name.value == ""
    ensures Names.IsSubstring("Requested settings,", Message(NotConfigured(Describe(name))))
  {
    var needle := "Requested settings,";
    assert Describe(name) == "settings";
    var m := Message(NotConfigured("settings"));
    var rest := m[|needle|..];
    assert m == needle + rest;
    assert Names.OccursAt(needle, m, 0);
  }

  /** Every not-configured message tells the user which environment variable to define. */
  lemma NotConfiguredNamesVariable(desc: string)
    ensures Names.IsSubstring(ENVIRONMENT_VARIABLE, Message(NotConfigured(desc)))
  {
    var m := Message(NotConfigured(desc));
    var k := |"Requested " + desc + ", but settings are not configured. You must either define the environment variable "|;
    assert m[k..k + |ENVIRONMENT_VARIABLE|] == ENVIRONMENT_VARIABLE;
    assert Names.OccursAt(ENVIRONMENT_VARIABLE, m, k);
  }
}
