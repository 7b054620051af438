# Lazily resolved, layered settings (skuld `conf`)

A Dafny model of `conf/__init__.py`, the settings store of the skuld
framework. The file has three classes:

- `Settings` builds the resolved settings. It copies every upper-case
  default from `global_settings`, records the module path under
  `SETTINGS_MODULE`, and imports the module that `SKULD_SETTINGS_MODULE`
  names. It then overlays that module's upper-case attributes and records
  their names in `_explicit_settings`. It rejects an offending "sequence"
  setting and a falsy `SECRET_KEY`, and exports a truthy `TIME_ZONE` as TZ
  where `time.tzset` exists.
- `SettingsHolder` is the explicit alternative. It is an override layer over
  a default provider, with local values and a `_deleted` set.
- `LazySettings` is the proxy the application reads. It binds itself once,
  either on the first read (from the environment) or through `configure`,
  and caches every value it reads in its own `__dict__`.

Files and modules:

- `wrappers.dfy` (`Wrappers`): `Option` and `Result`. A Python exception is an `Err`.
- `values.dfy` (`Values`): the value domain (list, tuple, set, dict, str, int, bool, None) and Python's truth test.
- `names.dfy` (`Names`): ASCII `str.isupper`, `in` between two strings, the code-point order on strings, and `sorted`.
- `errors.dfy` (`Errors`): the exceptions, with the exact texts of the ones this file writes.
- `settings.dfy` (`ResolvedSettings`): `Resolve`, the value-level meaning of `Settings(path)`; the class `Settings`; and `NewSettings`, the step-by-step constructor proved against `Resolve`.
- `holder.dfy` (`Holder`): the class `SettingsHolder`.
- `lazy.dfy` (`Lazy`): the class `LazySettings`.
- `scenarios.dfy` (`Scenarios`): client methods that derive the documented behaviours from the contracts alone.

Behaviour that the code has and that the model follows:

- `tuple_settings = ('INSTALLED_APPS')` is a string, not a tuple, so `setting in tuple_settings` is a substring test. `APPS`, `INSTALLED`, `S` and the like are checked too (`ResolvedSettings.SubstringNamesChecked`).
- `dir(module)` is sorted, so when several attributes are rejected, the error names the least of them in string order.
- A missing `SECRET_KEY`, or a missing `TIME_ZONE` where `tzset` exists, raises AttributeError. A truthy `TIME_ZONE` that is not a string raises TypeError.
- In the holder, the local value is found before the deleted check: `__getattr__` only runs on a miss. The class attribute `SETTINGS_MODULE = None` is found before the deleted check too. So `holder.SETTINGS_MODULE` is None unless it was set locally, and deleting it without a local value raises after the name has been marked deleted.
- The holder's `__dict__` also holds `_deleted` and `default_settings`. `dir` therefore lists them, `is_overridden` is true for them, and `dir` keeps a name twice when both layers have it.
- A write to the proxy evicts only the written name (line 115). Only an assignment to `_wrapped` empties the cache. A delete evicts the name only after the backing object's delete has succeeded.

External pieces are parameters: the environment variable is `Environment.selector`; `importlib.import_module` is a lookup in `Environment.modules`, from path to the module's attributes, where a missing path is ModuleNotFoundError; `global_settings` is `Environment.catalog`, both for `Settings` and as the default provider of `configure`; `hasattr(time, 'tzset')` is `Environment.hasTzset`.

`LazyObject` and `empty` come from `skuld.utils.functional`, which is not part of this model. The model assumes the usual semantics of that base class:

- `__init__` sets `_wrapped = empty`.
- Assigning `_wrapped` stores it in `__dict__`.
- Writing or deleting any other name first runs `_setup()` with no name when the proxy is unbound, then forwards to the wrapped object.

## Model

| member | source | states |
|---|---|---|
| `Names.IsSubstring` | conf/__init__.py:29 | `needle in hay` holds exactly when `needle` occurs in `hay` at some index |
| `Names.LeastExists` | conf/__init__.py:25 | every finite non-empty set of names has a least element, which `sorted(dir(mod))` yields first |
| `Names.Insert` | conf/__init__.py:71 | inserting into a sorted list of names keeps it sorted and adds exactly one occurrence |
| `Names.InsertEach` | conf/__init__.py:71-74 | `sorted` over a list and a set: the result is sorted and is a permutation of all the inputs |
| `Errors.NotListOrTupleNamesSetting` | conf/__init__.py:31 | the sequence-check message contains the offending setting's name |
| `Errors.NotConfiguredNamesSetting` | conf/__init__.py:91-95 | a failed auto-resolve for a non-empty name mentions `setting <name>` |
| `Errors.NotConfiguredGeneric` | conf/__init__.py:91-95 | without a name, or with an empty one, the message reads `Requested settings,` |
| `Errors.NotConfiguredNamesVariable` | conf/__init__.py:92-95 | the message names the environment variable SKULD_SETTINGS_MODULE |
| `ResolvedSettings.Overlay` | conf/__init__.py:14-18 | only upper-case names get copied; the module's value wins; a default survives where the module is silent; SETTINGS_MODULE holds the path unless the module sets it |
| `ResolvedSettings.Resolve` | conf/__init__.py:12-40 | a missing module is ModuleNotFound; an offending sequence setting fails, naming the least offending name; the SECRET_KEY check fails exactly when the value left by the overlay is falsy; on success the attributes are the overlay, the explicit names are exactly the module's upper-case names, SECRET_KEY is truthy, and TZ is exported exactly when tzset exists and TIME_ZONE is truthy |
| `ResolvedSettings.SoleBadSequenceRejected` | conf/__init__.py:29-31 | a module whose only attribute is an offending sequence setting fails, naming that setting |
| `ResolvedSettings.InstalledAppsSetRejected` | conf/__init__.py:29-31 | `INSTALLED_APPS = {"a", "b"}` fails with NotListOrTuple("INSTALLED_APPS") |
| `ResolvedSettings.SubstringNamesChecked` | conf/__init__.py:22-29 | `APPS` and `INSTALLED` pass the membership test because `tuple_settings` is a string; `INSTALLED_APPS_EXTRA` does not |
| `ResolvedSettings.SecretKeyAfterOverlay` | conf/__init__.py:25-36 | when the module sets SECRET_KEY, construction fails on the secret check exactly when the module's value is falsy, whatever the default |
| `ResolvedSettings.Settings.IsOverridden` | conf/__init__.py:42-43 | true exactly for the upper-case names the selected module defines; a default never counts |
| `ResolvedSettings.Settings.CopyDefaults` | conf/__init__.py:14-16 | the attributes gain exactly the catalog's upper-case part |
| `ResolvedSettings.Settings.ApplyModule` | conf/__init__.py:24-33 | fails exactly when some attribute is rejected, naming the least one; otherwise overlays the module's upper-case part and leaves `_explicit_settings` equal to its names |
| `ResolvedSettings.Settings.Check` | conf/__init__.py:35-40 | a missing SECRET_KEY is AttributeError and a falsy one EmptySecretKey; with tzset, a missing TIME_ZONE is AttributeError, a truthy non-string one TypeError, and a truthy string one is exported; the attributes stay unchanged |
| `ResolvedSettings.Settings.SetAttr` | conf/__init__.py:116 | a write replaces exactly one attribute |
| `ResolvedSettings.Settings.DelAttr` | conf/__init__.py:119 | a delete removes exactly one attribute and raises AttributeError when there is none |
| `ResolvedSettings.NewSettings` | conf/__init__.py:13-40 | fails exactly when `Resolve` does, with the same error; on success yields a fresh object whose attributes, explicit names and TZ export are those of `Resolve` |
| `Holder.SettingsHolder.constructor` | conf/__init__.py:52-54 | a new holder has no local values and nothing deleted |
| `Holder.SettingsHolder.Get` | conf/__init__.py:56-59 | reads the provider's attributes less the deleted ones, with local values on top; a deleted name other than SETTINGS_MODULE without a local value is AttributeError |
| `Holder.SettingsHolder.Set` | conf/__init__.py:61-63 | stores the value and clears the deletion mark; the view changes at that name only; local and deleted names stay disjoint |
| `Holder.SettingsHolder.Delete` | conf/__init__.py:65-68 | marks the name deleted and drops its local value; the name disappears from the view; SETTINGS_MODULE without a local value raises |
| `Holder.SettingsHolder.Dir` | conf/__init__.py:70-74 | sorted; the same multiset of names as the slots, local names and provider names that are not deleted; no deleted name; a name in both layers appears twice |
| `Holder.SettingsHolder.IsOverridden` | conf/__init__.py:76-80 | true when the name is deleted, set locally, one of the two slots, or reported by the provider, and only then; a name that is not overridden reads as the provider has it |
| `Lazy.LazySettings.constructor` | conf/__init__.py:86 | a new proxy is unbound with an empty cache |
| `Lazy.LazySettings.Configured` | conf/__init__.py:130-132 | an unconfigured proxy has cached nothing and resolves nothing |
| `Lazy.LazySettings.SetWrapped` | conf/__init__.py:111-113 | assigning `_wrapped` binds the new object and empties the whole cache |
| `Lazy.LazySettings.Setup` | conf/__init__.py:88-97 | an absent or empty selector fails with NotConfigured and changes nothing; otherwise the outcome is `Resolve` on the selected path, and success binds a fresh `Settings` with an empty cache |
| `Lazy.LazySettings.Read` | conf/__init__.py:104-109 | a cached name returns the cached value and changes nothing; otherwise binds first when unbound (a failure leaves the proxy unbound; success binds the attributes, explicit names and TZ export of `Resolve`) and returns what the backing object resolves, caching it on success; every cached value agrees with the backing object |
| `Lazy.LazySettings.Write` | conf/__init__.py:111-116 | evicts only the written name, and the backing view changes at that name only; on a holder the name becomes local and loses its deletion mark, on a `Settings` the explicit names and TZ export are unchanged; an unbound proxy is set up first without a name and is bound to what `Resolve` yields |
| `Lazy.LazySettings.DeleteBound` | conf/__init__.py:118-120 | on a bound proxy: the backing object's delete as stated for `Delete`, then the name is evicted from the cache only when that delete succeeded; the binding is unchanged |
| `Lazy.LazySettings.Delete` | conf/__init__.py:118-120 | deletes through the backing object, setting it up first when unbound (bound to what `Resolve` yields); on a holder the name is marked deleted and loses its local value, raising only for SETTINGS_MODULE without a local value; on a `Settings` it raises exactly when the attribute is absent and keeps the explicit names and TZ export; evicts the name only when that delete succeeded |
| `Lazy.LazySettings.Configure` | conf/__init__.py:122-128 | a bound proxy raises "already configured" and is left as it was; otherwise binds a fresh holder over the given defaults with exactly the options set, nothing deleted, and an empty cache |
| `Lazy.LazySettings.ConfigureDefaults` | conf/__init__.py:122-128 | `configure(**options)` without a provider: as `Configure`, over `global_settings`, which reports no overridden names |
| `Scenarios.SetDeleteSet` | conf/__init__.py:56-68 | set, then delete, then read fails even if the defaults define the name; a later set is read back |
| `Scenarios.ReadWithoutSelector` | conf/__init__.py:88-97 | with the selector unset, a first read fails mentioning `setting <name>`, the proxy stays unbound, and a second read tries again and fails the same way |
| `Scenarios.ConfigureThenRead` | conf/__init__.py:122-132 | after `configure(defaults, FOO="bar")` the proxy reads FOO as "bar" and is configured, and a second `configure` is refused |
| `Scenarios.ConfigureDefaultsReadsCatalog` | conf/__init__.py:56-128 | after `configure(FOO="bar")` FOO reads "bar" and any other catalog name reads as `global_settings` defines it |
| `Scenarios.ReadTwice` | conf/__init__.py:104-109 | a second read of a name returns the first read's value, from the cache |

## Left out

- `time.tzset()` and the write to `os.environ['TZ']`: an operating-system side effect. The model records only the exported value, as `Settings.timeZone`.
- `os.environ.get` and `importlib.import_module`: calls into the host. They become inputs, as described above. Loading a module and its own side effects are not modelled.
- `LazyObject`, `empty` and `global_settings`: `skuld.utils.functional` and `skuld.conf.global_settings` are not part of this model. The forwarding semantics assumed above are assumptions.
- Python's attribute machinery beyond the names modelled. Methods and dunder attributes, such as `is_overridden`, `configure` and `__repr__`, are not readable settings in the model.
- Deleting a class attribute other than `SETTINGS_MODULE` through a holder is not modelled. The `hasattr` test at line 67 finds such an attribute, and the delete then raises.
- Names reserved for the classes' own bookkeeping (`_wrapped`, `_deleted`, `default_settings`, `_explicit_settings`) are excluded from every read, write and delete by `IsSettingName`. Writing one of them replaces internal state with an arbitrary value. Deleting `_wrapped` is an error in the assumed base class.
- `SettingsHolder` chained over another holder: a provider is a value with attributes and an optional `is_overridden` report. A holder's own `_deleted` and `default_settings` entries have no value in the model's value domain.
- `str.isupper` is modelled on ASCII letters only.
- The `__repr__` methods (lines 45-46, 82-83, 99-102) are left out. They are cosmetic, and line 46 lacks its f-prefix.
- The module-level singleton `settings` (line 134), and thread safety on the first auto-resolve.
- Floats, bytes and other Python value types are not in the value domain. The truth test covers the cases that are.
