/**
 * `Settings` (conf/__init__.py): the settings resolved from the default
 * catalog and the module the environment selects.
 */
module ResolvedSettings {
  import opened Wrappers
  import opened Values
  import opened Names
  import opened Errors

  /** `tuple_settings` of line 22: the parentheses make it a string, not a one-element tuple. */
  const TUPLE_SETTINGS := "INSTALLED_APPS"

  /** The upper-case attributes of a namespace: `dir(...)` filtered by `isupper()`. */
  function UpperPart(ns: map<string, Value>): map<string, Value>
  {
    map n | n in ns && IsUpper(n) :: ns[n]
  }

  /** Lines 29-30 reject module attribute `n`: an upper-case name inside TUPLE_SETTINGS whose value is no list or tuple. */
  predicate IsBadSequence(mod: map<string, Value>, n: string)
  {
    n in mod && IsUpper(n) && IsSubstring(n, TUPLE_SETTINGS) && !IsListOrTuple(mod[n])
  }

  /** The part of `ns` already copied when the names in `pending` are still to come. */
  function CopiedPart(ns: map<string, Value>, pending: set<string>): map<string, Value>
  {
    map n | n in ns && n !in pending && IsUpper(n) :: ns[n]
  }

  function CopiedNames(ns: map<string, Value>, pending: set<string>): set<string>
  {
    set n | n in ns && n !in pending && IsUpper(n)
  }

  lemma CopiedStep(ns: map<string, Value>, pending: set<string>, n: string)
    requires n in pending && n in ns
    ensures CopiedPart(ns, pending - {n}) ==
      if IsUpper(n) then CopiedPart(ns, pending)[n := ns[n]] else CopiedPart(ns, pending)
    ensures CopiedNames(ns, pending - {n}) ==
      if IsUpper(n) then CopiedNames(ns, pending) + {n} else CopiedNames(ns, pending)
  {
  }

  /** One copying step on top of fixed earlier attributes. */
  lemma OverlayStep(base: map<string, Value>, ns: map<string, Value>, pending: set<string>, n: string)
    requires n in pending && n in ns
    ensures base + CopiedPart(ns, pending - {n}) ==
      if IsUpper(n) then (base + CopiedPart(ns, pending))[n := ns[n]] else base + CopiedPart(ns, pending)
    ensures CopiedNames(ns, pending - {n}) ==
      if IsUpper(n) then CopiedNames(ns, pending) + {n} else CopiedNames(ns, pending)
  {
    CopiedStep(ns, pending, n);
  }

  lemma CopiedAll(ns: map<string, Value>)
    ensures CopiedPart(ns, {}) == UpperPart(ns)
    ensures CopiedNames(ns, {}) == set n | n in ns && IsUpper(n)
  {
  }

  ghost function BadSequenceNames(mod: map<string, Value>): set<string>
  {
    set n | n in mod && IsBadSequence(mod, n)
  }

  /** Taking a name that is not offending leaves every offending name pending. */
  lemma GoodStep(mod: map<string, Value>, pending: set<string>, n: string)
    requires BadSequenceNames(mod) <= pending && !IsBadSequence(mod, n)
    ensures BadSequenceNames(mod) <= pending - {n}
  {
  }

  /** When names are taken least first, the first offending one met is the least offending one. */
  lemma FirstBadIsLeast(mod: map<string, Value>, pending: set<string>, n: string)
    requires IsLeast(n, pending) && IsBadSequence(mod, n)
    requires BadSequenceNames(mod) <= pending
    ensures BadSequenceNames(mod) != {} && n == Least(BadSequenceNames(mod))
  {
    var bad := BadSequenceNames(mod);
    assert IsLeast(n, bad);
    LeastUnique(n, Least(bad), bad);
  }

  /**
   * The attributes after lines 14-33 when no check fails: every upper-case
   * default, then SETTINGS_MODULE, then every upper-case module attribute.
   */
  function Overlay(catalog: map<string, Value>, mod: map<string, Value>, path: string): (r: map<string, Value>)
    ensures forall n :: n in r ==> IsUpper(n)
    ensures forall n :: n in r <==> n == SETTINGS_MODULE || (IsUpper(n) && (n in catalog || n in mod))
    ensures forall n :: n in mod && IsUpper(n) ==> r[n] == mod[n]
    ensures forall n :: n in catalog && IsUpper(n) && n !in mod && n != SETTINGS_MODULE ==> r[n] == catalog[n]
    ensures SETTINGS_MODULE !in mod ==> r[SETTINGS_MODULE] == VStr(path)
  {
    assert IsUpperLetter(SETTINGS_MODULE[0]);
    UpperPart(catalog)[SETTINGS_MODULE := VStr(path)] + UpperPart(mod)
  }

  /** The overlay is what the three copying steps of lines 14-33 build, starting from no attributes. */
  lemma OverlaySteps(catalog: map<string, Value>, mod: map<string, Value>, path: string)
    ensures (map[] + UpperPart(catalog))[SETTINGS_MODULE := VStr(path)] + UpperPart(mod) == Overlay(catalog, mod, path)
  {
    assert map[] + UpperPart(catalog) == UpperPart(catalog);
  }

  /** What a successful construction leaves behind. */
  datatype Merged = Merged(attrs: map<string, Value>, explicit: set<string>, timeZone: Option<string>)

  /**
   * `Settings(path)` as a value: `modules` stands for `importlib.import_module`,
   * `catalog` for `global_settings`, `hasTzset` for `hasattr(time, 'tzset')`.
   */
  ghost function Resolve(catalog: map<string, Value>, modules: map<string, map<string, Value>>,
                         path: string, hasTzset: bool): (r: Result<Merged, Error>)
    ensures r == Err(ModuleNotFound(path)) <==> path !in modules
    ensures path in modules ==> forall n :: IsBadSequence(modules[path], n) ==>
      r.Err? && r.error.NotListOrTuple? && StrLe(r.error.setting, n)
    ensures r.Err? && r.error.NotListOrTuple? ==> path in modules && IsBadSequence(modules[path], r.error.setting)
    ensures r == Err(EmptySecretKey) <==>
      && path in modules
      && (forall n :: !IsBadSequence(modules[path], n))
      && "SECRET_KEY" in Overlay(catalog, modules[path], path)
      && !Truthy(Overlay(catalog, modules[path], path)["SECRET_KEY"])
    ensures r.Ok? ==> path in modules && r.value.attrs == Overlay(catalog, modules[path], path)
    ensures r.Ok? ==> forall n :: n in r.value.explicit <==> n in modules[path] && IsUpper(n)
    ensures r.Ok? ==> "SECRET_KEY" in r.value.attrs && Truthy(r.value.attrs["SECRET_KEY"])
    ensures r.Ok? && hasTzset ==> "TIME_ZONE" in r.value.attrs
    ensures r.Ok? ==> (r.value.timeZone.Some? <==> hasTzset && Truthy(r.value.attrs["TIME_ZONE"]))
    ensures r.Ok? && r.value.timeZone.Some? ==> r.value.attrs["TIME_ZONE"] == VStr(r.value.timeZone.value)
  {
    if path !in modules then Err(ModuleNotFound(path))
    else
      var mod := modules[path];
      var bad := BadSequenceNames(mod);
      assert forall n :: IsBadSequence(mod, n) ==> n in bad;
      if bad != {} then Err(NotListOrTuple(Least(bad)))
      else
        CheckResolved(Overlay(catalog, mod, path), (set n | n in mod && IsUpper(n)), hasTzset)
  }

  /** Lines 35-40, on the attributes left by the overlay. */
  function CheckResolved(attrs: map<string, Value>, explicit: set<string>, hasTzset: bool): Result<Merged, Error>
  {
    if "SECRET_KEY" !in attrs then Err(NoAttribute("SECRET_KEY"))
    else if !Truthy(attrs["SECRET_KEY"]) then Err(EmptySecretKey)
    else if !hasTzset then Ok(Merged(attrs, explicit, None))
    else if "TIME_ZONE" !in attrs then Err(NoAttribute("TIME_ZONE"))
    else if !Truthy(attrs["TIME_ZONE"]) then Ok(Merged(attrs, explicit, None))
    else if !attrs["TIME_ZONE"].VStr? then Err(TimeZoneNotString)
    else Ok(Merged(attrs, explicit, Some(attrs["TIME_ZONE"].s)))
  }

  /** A module whose only attribute is an offending sequence setting fails on exactly that name. */
  lemma SoleBadSequenceRejected(catalog: map<string, Value>, modules: map<string, map<string, Value>>,
                                path: string, hasTzset: bool, n: string, v: Value)
    requires path in modules && modules[path] == map[n := v]
    requires IsUpper(n) && IsSubstring(n, TUPLE_SETTINGS) && !IsListOrTuple(v)
    ensures Resolve(catalog, modules, path, hasTzset) == Err(NotListOrTuple(n))
  {
    assert IsBadSequence(modules[path], n);
    StrLeAntisym(n, Resolve(catalog, modules, path, hasTzset).error.setting);
  }

  /** `INSTALLED_APPS = {"a", "b"}`: a set is neither a list nor a tuple. */
  lemma InstalledAppsSetRejected(catalog: map<string, Value>, modules: map<string, map<string, Value>>,
                                 path: string, hasTzset: bool)
    requires path in modules && modules[path] == map["INSTALLED_APPS" := VSet({VStr("a"), VStr("b")})]
    ensures Resolve(catalog, modules, path, hasTzset) == Err(NotListOrTuple("INSTALLED_APPS"))
  {
    assert IsUpperLetter("INSTALLED_APPS"[0]);
    assert OccursAt("INSTALLED_APPS", TUPLE_SETTINGS, 0);
    SoleBadSequenceRejected(catalog, modules, path, hasTzset, "INSTALLED_APPS", VSet({VStr("a"), VStr("b")}));
  }

  /**
   * Because TUPLE_SETTINGS is a string, `in` tests for a substring: `APPS`
   * and `INSTALLED` are checked as well, while `INSTALLED_APPS_EXTRA` is not.
   */
  lemma SubstringNamesChecked()
    ensures IsUpper("APPS") && IsSubstring("APPS", TUPLE_SETTINGS)
    ensures IsUpper("INSTALLED") && IsSubstring("INSTALLED", TUPLE_SETTINGS)
    ensures !IsSubstring("INSTALLED_APPS_EXTRA", TUPLE_SETTINGS)
  {
    AppsChecked();
    InstalledChecked();
    ExtraNotChecked();
  }

  lemma AppsChecked()
    ensures IsUpper("APPS") && IsSubstring("APPS", TUPLE_SETTINGS)
  {
    assert IsUpperLetter("APPS"[0]);
    assert OccursAt("APPS", TUPLE_SETTINGS, 10);
  }

  lemma InstalledChecked()
    ensures IsUpper("INSTALLED") && IsSubstring("INSTALLED", TUPLE_SETTINGS)
  {
    assert IsUpperLetter("INSTALLED"[0]);
    assert OccursAt("INSTALLED", TUPLE_SETTINGS, 0);
  }

  /** A needle longer than the string cannot occur in it. */
  lemma ExtraNotChecked()
    ensures !IsSubstring("INSTALLED_APPS_EXTRA", TUPLE_SETTINGS)
  {
  }

  /**
   * The SECRET_KEY test reads the value after the overlay: when the module
   * sets SECRET_KEY, its value alone decides, whatever the default was.
   */
  lemma SecretKeyAfterOverlay(catalog: map<string, Value>, modules: map<string, map<string, Value>>,
                              path: string, hasTzset: bool)
    requires path in modules && "SECRET_KEY" in modules[path]
    requires forall n :: !IsBadSequence(modules[path], n)
    ensures Resolve(catalog, modules, path, hasTzset) == Err(EmptySecretKey) <==> !Truthy(modules[path]["SECRET_KEY"])
  {
    assert IsUpperLetter("SECRET_KEY"[0]);
  }

  /** A resolved settings object; the proxy may later write or delete its attributes. */
  class Settings {
    /** The instance attributes that hold settings, SETTINGS_MODULE among them. */
    var attrs: map<string, Value>
    /** `_explicit_settings`: the names the selected module set. */
    var explicit: set<string>
    /** The value exported as TZ before `time.tzset()`, when that happened. */
    var timeZone: Option<string>
    /** The selected module's attributes. */
    ghost var mod: map<string, Value>

    ghost predicate Valid()
      reads this
    {
      explicit == set n | n in mod && IsUpper(n)
    }

    constructor ()
      ensures Valid()
      ensures attrs == map[] && explicit == {} && timeZone == None && mod == map[]
    {
      attrs, explicit, timeZone := map[], {}, None;
      mod := map[];
    }

    /** `is_overridden`: exactly the upper-case names of the selected module, never a default. */
    function IsOverridden(setting: string): (b: bool)
      requires Valid()
      reads this
      ensures b <==> setting in mod && IsUpper(setting)
    {
      setting in explicit
    }

    /** Lines 14-16: copies every upper-case attribute of the default catalog. */
    method CopyDefaults(catalog: map<string, Value>)
      modifies this
      ensures attrs == old(attrs) + UpperPart(catalog)
      ensures explicit == old(explicit) && timeZone == old(timeZone) && mod == old(mod)
    {
      var names := catalog.Keys;
      while names != {}
        invariant names <= catalog.Keys
        invariant attrs == old(attrs) + CopiedPart(catalog, names)
        invariant explicit == old(explicit) && timeZone == old(timeZone) && mod == old(mod)
        decreases names
      {
        var n :| n in names;
        CopiedStep(catalog, names, n);
        if IsUpper(n) {
          attrs := attrs[n := catalog[n]];
        }
        names := names - {n};
      }
      CopiedAll(catalog);
    }

    /**
     * Lines 24-33: overlays the upper-case attributes of the imported module,
     * taken in the sorted order of `dir`; the first offending one aborts.
     */
    method ApplyModule(m: map<string, Value>) returns (err: Option<Error>)
      requires explicit == {}
      modifies this
      ensures mod == m && timeZone == old(timeZone)
      ensures err.Some? <==> BadSequenceNames(m) != {}
      ensures err.Some? ==> err.value == NotListOrTuple(Least(BadSequenceNames(m)))
      ensures err.None? ==> attrs == old(attrs) + UpperPart(m) && Valid()
    {
      mod := m;
      ghost var base := attrs;
      var names := m.Keys;
      while names != {}
        invariant names <= m.Keys && mod == m && timeZone == old(timeZone) && base == old(attrs)
        invariant BadSequenceNames(m) <= names
        invariant attrs == base + CopiedPart(m, names)
        invariant explicit == CopiedNames(m, names)
        decreases names
      {
        LeastExists(names);
        var n :| IsLeast(n, names);
        OverlayStep(base, m, names, n);
        if IsUpper(n) {
          var value := m[n];
          if IsSubstring(n, TUPLE_SETTINGS) && !IsListOrTuple(value) {
            FirstBadIsLeast(m, names, n);
            return Some(NotListOrTuple(n));
          }
          attrs := attrs[n := value];
          explicit := explicit + {n};
        }
        GoodStep(m, names, n);
        names := names - {n};
      }
      CopiedAll(m);
      return None;
    }

    /** Lines 35-40: the SECRET_KEY check, then the best-effort time-zone export. */
    method Check(hasTzset: bool) returns (err: Option<Error>)
      requires timeZone == None
      modifies this
      ensures attrs == old(attrs) && explicit == old(explicit) && mod == old(mod)
      ensures var c := CheckResolved(attrs, explicit, hasTzset);
        if c.Ok? then err == None && timeZone == c.value.timeZone else err == Some(c.error)
    {
      if "SECRET_KEY" !in attrs {
        return Some(NoAttribute("SECRET_KEY"));
      }
      if !Truthy(attrs["SECRET_KEY"]) {
        return Some(EmptySecretKey);
      }
      if hasTzset {
        if "TIME_ZONE" !in attrs {
          return Some(NoAttribute("TIME_ZONE"));
        }
        var tz := attrs["TIME_ZONE"];
        if Truthy(tz) {
          if !tz.VStr? {
            return Some(TimeZoneNotString);
          }
          timeZone := Some(tz.s);
        }
      }
      return None;
    }

    /** `setattr(settings, name, value)`. */
    method SetAttr(name: string, value: Value)
      modifies this
      ensures attrs == old(attrs)[name := value]
      ensures explicit == old(explicit) && timeZone == old(timeZone) && mod == old(mod)
    {
      attrs := attrs[name := value];
    }

    /** `delattr(settings, name)`: AttributeError when there is no such attribute. */
    method DelAttr(name: string) returns (err: Option<Error>)
      modifies this
      ensures err == (if name in old(attrs) then None else Some(NoAttribute(name)))
      ensures attrs == old(attrs) - {name}
      ensures explicit == old(explicit) && timeZone == old(timeZone) && mod == old(mod)
    {
      if name in attrs {
        attrs := attrs - {name};
        err := None;
      } else {
        err := Some(NoAttribute(name));
      }
    }
  }

  /** `Settings(path)`: lines 13-40; an exception becomes `Err`. */
  method NewSettings(catalog: map<string, Value>, modules: map<string, map<string, Value>>,
                     path: string, hasTzset: bool) returns (r: Result<Settings, Error>)
    ensures r.Err? <==> Resolve(catalog, modules, path, hasTzset).Err?
    ensures r.Err? ==> Resolve(catalog, modules, path, hasTzset) == Err(r.error)
    ensures r.Ok? ==> var m := Resolve(catalog, modules, path, hasTzset).value;
      && fresh(r.value) && r.value.Valid()
      && r.value.attrs == m.attrs && r.value.explicit == m.explicit && r.value.timeZone == m.timeZone
  {
    var s := new Settings();
    s.CopyDefaults(catalog);
    s.SetAttr(SETTINGS_MODULE, VStr(path));
    if path !in modules {
      return Err(ModuleNotFound(path));
    }
    var err := s.ApplyModule(modules[path]);
    if err.Some? {
      return Err(err.value);
    }
    OverlaySteps(catalog, modules[path], path);
    err := s.Check(hasTzset);
    if err.Some? {
      return Err(err.value);
    }
    return Ok(s);
  }
}
