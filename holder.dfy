/**
 * `SettingsHolder` (conf/__init__.py): a mutable override layer over a
 * default-values provider, with local values and deletion marks.
 */
module Holder {
  import opened Wrappers
  import opened Values
  import opened Names
  import opened Errors

  /** The two entries `__init__` puts in the holder's `__dict__`. */
  const SLOTS: set<string> := {"_deleted", "default_settings"}

  /**
   * A default-values provider: the attributes `dir` lists and `getattr` finds,
   * and, when it has an `is_overridden` method, the names that method reports.
   */
  datatype Provider = Provider(attrs: map<string, Value>, overridden: Option<set<string>>)
  {
    /** `getattr(provider, 'is_overridden', lambda s: False)(n)`. */
    predicate ReportsOverridden(n: string)
    {
      overridden.Some? && n in overridden.value
    }
  }

  class SettingsHolder {
    /** The holder's `__dict__` apart from its two slots: the values set on it. */
    var local: map<string, Value>
    /** `_deleted`. */
    var deleted: set<string>
    /** `default_settings`. */
    const provider: Provider

    /** Local names and deleted names never overlap, and neither holds a slot. */
    ghost predicate Valid()
      reads this
    {
      && local.Keys !! deleted
      && (forall n :: n in local ==> IsSettingName(n))
      && (forall n :: n in deleted ==> IsSettingName(n))
    }

    /**
     * What attribute reads return for setting names: the provider's
     * attributes less the deleted ones, the class attribute, then the local
     * values on top.
     */
    function View(): map<string, Value>
      reads this
    {
      ((provider.attrs - deleted)[SETTINGS_MODULE := VNone]) + local
    }

    constructor (defaults: Provider)
      ensures Valid()
      ensures local == map[] && deleted == {} && provider == defaults
    {
      local, deleted := map[], {};
      provider := defaults;
    }

    /**
     * `getattr(holder, name)`: the instance dictionary, then the class
     * attribute, then `__getattr__` (lines 56-59).
     */
    function Get(name: string): (r: Result<Value, Error>)
      requires IsSettingName(name)
      reads this
      ensures r == GetAttr(View(), name)
      ensures name in deleted && name !in local && name != SETTINGS_MODULE ==> r == Err(NoAttribute(name))
    {
      if name in local then Ok(local[name])
      else if name == SETTINGS_MODULE then Ok(VNone)
      else if name in deleted then Err(NoAttribute(name))
      else GetAttr(provider.attrs, name)
    }

    /** `setattr(holder, name, value)` (lines 61-63). */
    method Set(name: string, value: Value)
      requires Valid() && IsSettingName(name)
      modifies this
      ensures Valid()
      ensures local == old(local)[name := value] && deleted == old(deleted) - {name}
      ensures View() == old(View())[name := value]
    {
      deleted := deleted - {name};
      local := local[name := value];
    }

    /**
     * `delattr(holder, name)` (lines 65-68): marks the name deleted and drops
     * its local value; `hasattr` finds the class attribute SETTINGS_MODULE
     * when there is no local value, and deleting that raises.
     */
    method Delete(name: string) returns (err: Option<Error>)
      requires Valid() && IsSettingName(name)
      modifies this
      ensures Valid()
      ensures deleted == old(deleted) + {name} && local == old(local) - {name}
      ensures err == if name == SETTINGS_MODULE && name !in old(local) then Some(NoAttribute(name)) else None
      ensures View() == if name == SETTINGS_MODULE then old(View())[name := VNone] else old(View()) - {name}
    {
      deleted := deleted + {name};
      if name in local {
        local := local - {name};
        err := None;
      } else if name == SETTINGS_MODULE {
        err := Some(NoAttribute(name));
      } else {
        err := None;
      }
    }

    /** The names `dir` collects before sorting: slots, local names, the provider's names, less the deleted. */
    ghost function DirBag(): multiset<string>
      reads this
    {
      multiset(SLOTS - deleted) + multiset(local.Keys - deleted) + multiset(provider.attrs.Keys - deleted)
    }

    /** `dir(holder)` (lines 70-74): sorted, without removing the names that both layers have. */
    method Dir() returns (names: seq<string>)
      requires Valid()
      ensures Sorted(names)
      ensures multiset(names) == DirBag()
      ensures forall i :: 0 <= i < |names| ==> names[i] !in deleted
      ensures forall i :: 0 <= i < |names| ==> names[i] in local || names[i] in provider.attrs || names[i] in SLOTS
      ensures forall n :: n in local && n in provider.attrs && n !in SLOTS ==> multiset(names)[n] == 2
    {
      names := InsertEach([], SLOTS - deleted);
      names := InsertEach(names, local.Keys - deleted);
      names := InsertEach(names, provider.attrs.Keys - deleted);
      forall i | 0 <= i < |names|
        ensures names[i] !in deleted
        ensures names[i] in local || names[i] in provider.attrs || names[i] in SLOTS
      {
        assert names[i] in multiset(names);
      }
    }

    /** `is_overridden` (lines 76-80). */
    function IsOverridden(setting: string): (b: bool)
      reads this
      ensures setting in deleted || setting in local || setting in SLOTS || provider.ReportsOverridden(setting) ==> b
      ensures b && !provider.ReportsOverridden(setting) ==> setting in deleted || setting in local || setting in SLOTS
      ensures !b && IsSettingName(setting) ==>
        Get(setting) == if setting == SETTINGS_MODULE then Ok(VNone) else GetAttr(provider.attrs, setting)
    {
      var isDeleted := setting in deleted;
      var setLocally := setting in local || setting in SLOTS;
      var setOnDefault := provider.ReportsOverridden(setting);
      isDeleted || setLocally || setOnDefault
    }
  }
}
