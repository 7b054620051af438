/**
 * `LazySettings` (conf/__init__.py): the proxy the application reads its
 * settings through. It binds a backing object at most once, on the first
 * read or through `configure`, and keeps every value it has read.
 */
module Lazy {
  import opened Wrappers
  import opened Values
  import opened Names
  import opened Errors
  import opened ResolvedSettings
  import opened Holder

  /**
   * What the proxy consults from outside: the value of SKULD_SETTINGS_MODULE,
   * the modules an import can find, the default catalog (`global_settings`)
   * and whether the platform has `time.tzset`.
   */
  datatype Environment = Environment(
    selector: Option<string>,
    modules: map<string, map<string, Value>>,
    catalog: map<string, Value>,
    hasTzset: bool)

  /** `_wrapped`: `empty`, or the object the proxy forwards to. */
  datatype Wrapped = Empty | Auto(settings: Settings) | Explicit(holder: SettingsHolder)

  /** What `_setup(name)` achieves (lines 88-97). */
  ghost function SetupOutcome(env: Environment, name: Option<string>): Result<Merged, Error>
  {
    if env.selector.None? || env.selector.value == "" then Err(NotConfigured(Describe(name)))
    else Resolve(env.catalog, env.modules, env.selector.value, env.hasTzset)
  }

  class LazySettings {
    var wrapped: Wrapped
    /** The proxy's own `__dict__` apart from `_wrapped`: the values read so far. */
    var cache: map<string, Value>

    ghost function Backing(): set<object>
      reads this
    {
      match wrapped
      case Empty => {}
      case Auto(s) => {s}
      case Explicit(h) => {h}
    }

    /** The settings the backing object currently resolves. */
    function View(): map<string, Value>
      reads this, Backing()
    {
      match wrapped
      case Empty => map[]
      case Auto(s) => s.attrs
      case Explicit(h) => h.View()
    }

    /**
     * An unbound proxy has read nothing, the backing object is consistent,
     * and every cached value is what the backing object still resolves.
     */
    ghost predicate Valid()
      reads this, Backing()
    {
      && (wrapped.Empty? ==> cache == map[])
      && (wrapped.Auto? ==> wrapped.settings.Valid())
      && (wrapped.Explicit? ==> wrapped.holder.Valid())
      && (forall n :: n in cache ==> n in View() && View()[n] == cache[n])
    }

    constructor ()
      ensures Valid() && wrapped == Empty && cache == map[]
    {
      wrapped, cache := Empty, map[];
    }

    /** `configured` (lines 130-132). */
    function Configured(): (b: bool)
      requires Valid()
      reads this, Backing()
      ensures !b ==> cache == map[] && View() == map[]
    {
      !wrapped.Empty?
    }

    /** `getattr(self._wrapped, name)` on a bound proxy. */
    function BackingGet(name: string): (r: Result<Value, Error>)
      requires !wrapped.Empty? && IsSettingName(name)
      reads this, Backing()
      ensures r == GetAttr(View(), name)
    {
      match wrapped
      case Auto(s) => GetAttr(s.attrs, name)
      case Explicit(h) => h.Get(name)
    }

    /** Assigning `_wrapped` empties the whole cache (lines 112-113, 116). */
    method SetWrapped(w: Wrapped)
      requires w.Auto? ==> w.settings.Valid()
      requires w.Explicit? ==> w.holder.Valid()
      modifies this
      ensures wrapped == w && cache == map[] && Valid()
    {
      cache := map[];
      wrapped := w;
    }

    /** `_setup(name)` (lines 88-97): binds a fresh `Settings` or leaves everything as it was. */
    method Setup(name: Option<string>, env: Environment) returns (err: Option<Error>)
      requires Valid()
      modifies this
      ensures Valid()
      ensures var o := SetupOutcome(env, name);
        if o.Err? then err == Some(o.error) && wrapped == old(wrapped) && cache == old(cache)
        else
          && err == None && wrapped.Auto? && fresh(wrapped.settings) && cache == map[]
          && wrapped.settings.attrs == o.value.attrs
          && wrapped.settings.explicit == o.value.explicit
          && wrapped.settings.timeZone == o.value.timeZone
    {
      var selected := env.selector;
      if selected.None? || selected.value == "" {
        return Some(NotConfigured(Describe(name)));
      }
      var r := NewSettings(env.catalog, env.modules, selected.value, env.hasTzset);
      if r.Err? {
        return Some(r.error);
      }
      SetWrapped(Auto(r.value));
      return None;
    }

    /**
     * Reading `proxy.name` (lines 104-109): a cached value is returned as it
     * is; otherwise the proxy binds itself if needed, asks the backing object
     * and caches what it returns.
     */
    method Read(name: string, env: Environment) returns (r: Result<Value, Error>)
      requires Valid() && IsSettingName(name)
      modifies this
      ensures Valid()
      ensures name in old(cache) ==> r == Ok(old(cache)[name]) && wrapped == old(wrapped) && cache == old(cache)
      ensures name !in old(cache) && !old(wrapped).Empty? ==>
        && wrapped == old(wrapped)
        && r == GetAttr(old(View()), name)
        && cache == if r.Ok? then old(cache)[name := r.value] else old(cache)
      ensures name !in old(cache) && old(wrapped).Empty? ==>
        var o := SetupOutcome(env, Some(name));
        if o.Err? then r == Err(o.error) && wrapped.Empty? && cache == map[]
        else
          && wrapped.Auto? && fresh(wrapped.settings) && wrapped.settings.attrs == o.value.attrs
          && wrapped.settings.explicit == o.value.explicit && wrapped.settings.timeZone == o.value.timeZone
          && r == GetAttr(o.value.attrs, name)
          && cache == if r.Ok? then map[name := r.value] else map[]
    {
      if name in cache {
        return Ok(cache[name]);
      }
      if wrapped.Empty? {
        var err := Setup(Some(name), env);
        if err.Some? {
          return Err(err.value);
        }
      }
      r := BackingGet(name);
      if r.Ok? {
        cache := cache[name := r.value];
      }
    }

    /**
     * Writing `proxy.name = value` (lines 111-116): evicts only that name,
     * then the write goes to the backing object, binding one first if needed.
     */
    method Write(name: string, value: Value, env: Environment) returns (err: Option<Error>)
      requires Valid() && IsSettingName(name)
      modifies this, Backing()
      ensures Valid()
      ensures !old(wrapped).Empty? ==>
        && err == None && wrapped == old(wrapped)
        && cache == old(cache) - {name}
        && View() == old(View())[name := value]
      ensures old(wrapped).Explicit? ==>
        && wrapped.holder.local == old(wrapped.holder.local)[name := value]
        && wrapped.holder.deleted == old(wrapped.holder.deleted) - {name}
      ensures old(wrapped).Auto? ==>
        wrapped.settings.explicit == old(wrapped.settings.explicit) && wrapped.settings.timeZone == old(wrapped.settings.timeZone)
      ensures old(wrapped).Empty? ==>
        var o := SetupOutcome(env, None);
        if o.Err? then err == Some(o.error) && wrapped.Empty? && cache == map[]
        else
          && err == None && wrapped.Auto? && fresh(wrapped.settings) && cache == map[]
          && View() == o.value.attrs[name := value]
          && wrapped.settings.explicit == o.value.explicit && wrapped.settings.timeZone == o.value.timeZone
    {
      cache := cache - {name};
      if wrapped.Empty? {
        err := Setup(None, env);
        if err.Some? {
          return;
        }
      }
      match wrapped {
        case Auto(s) => s.SetAttr(name, value);
        case Explicit(h) => h.Set(name, value);
      }
      err := None;
    }

    /**
     * The delete of a bound proxy: the backing object deletes first; only
     * when that succeeds is the name evicted from the cache.
     */
    method DeleteBound(name: string) returns (err: Option<Error>)
      requires Valid() && IsSettingName(name) && !wrapped.Empty?
      modifies this, Backing()
      ensures Valid() && wrapped == old(wrapped)
      ensures cache == if err.None? then old(cache) - {name} else old(cache)
      ensures old(wrapped).Auto? ==>
        && err == (if name in old(View()) then None else Some(NoAttribute(name)))
        && View() == old(View()) - {name}
        && wrapped.settings.explicit == old(wrapped.settings.explicit) && wrapped.settings.timeZone == old(wrapped.settings.timeZone)
      ensures old(wrapped).Explicit? ==>
        && err == (if name == SETTINGS_MODULE && name !in old(wrapped.holder.local) then Some(NoAttribute(name)) else None)
        && wrapped.holder.local == old(wrapped.holder.local) - {name}
        && wrapped.holder.deleted == old(wrapped.holder.deleted) + {name}
        && View() == if name == SETTINGS_MODULE then old(View())[name := VNone] else old(View()) - {name}
    {
      match wrapped {
        case Auto(s) => err := s.DelAttr(name);
        case Explicit(h) => err := h.Delete(name);
      }
      if err.None? {
        cache := cache - {name};
      }
    }

    /**
     * Deleting `proxy.name` (lines 118-120): an unbound proxy is set up
     * first, without a name; then the bound delete.
     */
    method Delete(name: string, env: Environment) returns (err: Option<Error>)
      requires Valid() && IsSettingName(name)
      modifies this, Backing()
      ensures Valid()
      ensures !old(wrapped).Empty? ==> wrapped == old(wrapped)
      ensures !old(wrapped).Empty? ==> cache == if err.None? then old(cache) - {name} else old(cache)
      ensures old(wrapped).Auto? ==>
        && err == (if name in old(View()) then None else Some(NoAttribute(name)))
        && View() == old(View()) - {name}
        && wrapped.settings.explicit == old(wrapped.settings.explicit) && wrapped.settings.timeZone == old(wrapped.settings.timeZone)
      ensures old(wrapped).Explicit? ==>
        && err == (if name == SETTINGS_MODULE && name !in old(wrapped.holder.local) then Some(NoAttribute(name)) else None)
        && wrapped.holder.local == old(wrapped.holder.local) - {name}
        && wrapped.holder.deleted == old(wrapped.holder.deleted) + {name}
        && View() == if name == SETTINGS_MODULE then old(View())[name := VNone] else old(View()) - {name}
      ensures old(wrapped).Empty? ==>
        var o := SetupOutcome(env, None);
        if o.Err? then err == Some(o.error) && wrapped.Empty? && cache == map[]
        else
          && wrapped.Auto? && fresh(wrapped.settings) && cache == map[]
          && err == (if name in o.value.attrs then None else Some(NoAttribute(name)))
          && View() == o.value.attrs - {name}
          && wrapped.settings.explicit == o.value.explicit && wrapped.settings.timeZone == o.value.timeZone
    {
      if wrapped.Empty? {
        err := Setup(None, env);
        if err.Some? {
          return;
        }
      }
      err := DeleteBound(name);
    }

    /**
     * `configure(default_settings, **options)` (lines 122-128): one-shot;
     * binds a fresh holder over `defaults` with every option set on it.
     */
    method Configure(defaults: Provider, options: map<string, Value>) returns (err: Option<Error>)
      requires Valid()
      requires forall n :: n in options ==> IsSettingName(n)
      modifies this
      ensures Valid()
      ensures !old(wrapped).Empty? ==> err == Some(AlreadyConfigured) && wrapped == old(wrapped) && cache == old(cache)
      ensures old(wrapped).Empty? ==>
        && err == None && Configured() && wrapped.Explicit? && fresh(wrapped.holder) && cache == map[]
        && wrapped.holder.local == options && wrapped.holder.deleted == {}
        && wrapped.holder.provider == defaults
    {
      if !wrapped.Empty? {
        return Some(AlreadyConfigured);
      }
      var holder := new SettingsHolder(defaults);
      var pending := options.Keys;
      while pending != {}
        invariant pending <= options.Keys
        invariant holder.Valid() && holder.deleted == {} && holder.provider == defaults
        invariant holder.local == map n | n in options && n !in pending :: options[n]
        invariant wrapped.Empty? && cache == map[]
        decreases pending
      {
        var n :| n in pending;
        holder.Set(n, options[n]);
        pending := pending - {n};
      }
      SetWrapped(Explicit(holder));
      return None;
    }

    /**
     * `configure(**options)` with the default argument: the holder's
     * provider is `global_settings`, a module without `is_overridden`.
     */
    method ConfigureDefaults(options: map<string, Value>, env: Environment) returns (err: Option<Error>)
      requires Valid()
      requires forall n :: n in options ==> IsSettingName(n)
      modifies this
      ensures Valid()
      ensures !old(wrapped).Empty? ==> err == Some(AlreadyConfigured) && wrapped == old(wrapped) && cache == old(cache)
      ensures old(wrapped).Empty? ==>
        && err == None && Configured() && wrapped.Explicit? && fresh(wrapped.holder) && cache == map[]
        && wrapped.holder.local == options && wrapped.holder.deleted == {}
        && wrapped.holder.provider == Provider(env.catalog, None)
    {
      err := Configure(Provider(env.catalog, None), options);
    }
  }
}
