/** Uses of the three objects that show, from their contracts alone, what callers can rely on. */
module Scenarios {
  import opened Wrappers
  import opened Values
  import opened Names
  import opened Errors
  import opened Holder
  import opened Lazy

  /**
   * On a holder: set, delete, read, set again. The deletion hides the name
   * even where the provider defines it; the second set brings it back.
   */
  method SetDeleteSet(h: SettingsHolder, n: string, v: Value, w: Value)
    returns (first: Result<Value, Error>, afterDelete: Result<Value, Error>, again: Result<Value, Error>)
    requires h.Valid() && IsSettingName(n) && n != SETTINGS_MODULE
    modifies h
    ensures first == Ok(v) && afterDelete == Err(NoAttribute(n)) && again == Ok(w)
    ensures h.IsOverridden(n) && n !in h.deleted && n in h.local && h.local[n] == w
  {
    h.Set(n, v);
    first := h.Get(n);
    var _ := h.Delete(n);
    afterDelete := h.Get(n);
    h.Set(n, w);
    again := h.Get(n);
  }

  /**
   * Reading through an unconfigured proxy while the selector is unset fails
   * with a message naming the setting, leaves the proxy unconfigured, and a
   * later read tries again.
   */
  method ReadWithoutSelector(p: LazySettings, name: string, env: Environment)
    returns (first: Result<Value, Error>, second: Result<Value, Error>)
    requires p.Valid() && !p.Configured() && IsSettingName(name) && name != ""
    requires env.selector.None? || env.selector == Some("")
    modifies p
    ensures first == Err(NotConfigured("setting " + name)) && second == first
    ensures IsSubstring("setting " + name, Message(first.error))
    ensures p.Valid() && !p.Configured()
  {
    first := p.Read(name, env);
    second := p.Read(name, env);
    NotConfiguredNamesSetting(name);
  }

  /**
   * `configure(defaults, FOO="bar")` on a fresh proxy: reading FOO gives
   * "bar", the proxy is configured, and a second `configure` is refused.
   */
  method ConfigureThenRead(p: LazySettings, defaults: Provider, env: Environment)
    returns (configured: Option<Error>, foo: Result<Value, Error>, reconfigured: Option<Error>)
    requires p.Valid() && !p.Configured()
    modifies p
    ensures configured == None && foo == Ok(VStr("bar")) && reconfigured == Some(AlreadyConfigured)
    ensures p.Valid() && p.Configured()
  {
    configured := p.Configure(defaults, map["FOO" := VStr("bar")]);
    foo := p.Read("FOO", env);
    reconfigured := p.Configure(defaults, map[]);
  }

  /**
   * `configure(FOO="bar")` with the default provider: FOO reads "bar" and
   * any other name reads as `global_settings` defines it.
   */
  method ConfigureDefaultsReadsCatalog(p: LazySettings, name: string, env: Environment)
    returns (foo: Result<Value, Error>, other: Result<Value, Error>)
    requires p.Valid() && !p.Configured()
    requires IsSettingName(name) && name != "FOO" && name != SETTINGS_MODULE && name in env.catalog
    modifies p
    ensures foo == Ok(VStr("bar")) && other == Ok(env.catalog[name])
    ensures p.Valid() && p.Configured()
  {
    var _ := p.ConfigureDefaults(map["FOO" := VStr("bar")], env);
    foo := p.Read("FOO", env);
    other := p.Read(name, env);
  }

  /** Two reads of one name on a bound proxy: the second returns the first's value, from the cache. */
  method ReadTwice(p: LazySettings, name: string, env: Environment)
    returns (first: Result<Value, Error>, second: Result<Value, Error>)
    requires p.Valid() && p.Configured() && IsSettingName(name)
    modifies p
    ensures first.Ok? ==> second == first && name in p.cache && p.cache[name] == first.value
  {
    first := p.Read(name, env);
    second := p.Read(name, env);
  }
}
