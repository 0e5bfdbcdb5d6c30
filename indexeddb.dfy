/**
 The `$indexedDB` provider's registry as the objects it is made of: one
 Registry holding the provider's `connectionConfigs` table and
 `defaultConnectionName`, and one Config per database name holding its
 `name` and its `versions` table. The methods update these in place, as the
 provider does, and each is proved against its value-level counterpart in
 module RegistrySpec.
 */
module IndexedDb {
  import opened JsValues
  import opened RegistrySpec

  /** A `ConnectionConfig`: the configuration of one named database. */
  class Config {
    const name: string
    var versions: map<string, Callback>

    /** `new ConnectionConfig(dbName, isDefault)`: sets up an empty config,
        possibly takes over the registry's default, and stores itself in the
        registry under its name, replacing any earlier entry. */
    constructor (registry: Registry, dbName: string, isDefault: JsValue)
      requires registry.Valid()
      modifies registry
      ensures registry.Valid()
      ensures name == dbName && versions == map[]
      ensures registry.configs == old(registry.configs)[dbName := this]
      ensures registry.View() == Create(old(registry.View()), dbName, isDefault)
    {
      name := dbName;
      versions := map[];
      new;
      if !Truthy(Str(registry.defaultName)) || Truthy(isDefault) {
        registry.defaultName := dbName;
      }
      registry.configs := registry.configs[dbName := this];
    }

    /** `config.upgrade(newVersion, fn)`: stores `fn` under the slot of
        `Number(newVersion)`, or throws when `fn` is not a function. */
    method Upgrade(newVersion: JsValue, fn: JsValue) returns (outcome: Outcome)
      modifies this
      ensures UpgradeResult(outcome, versions) == UpgradeSpec(old(versions), newVersion, fn)
    {
      var version := ToNumber(newVersion);
      if TypeOf(Num(version)) != "number" {
        outcome := Thrown(FirstArgumentNotNumber(newVersion));
        return;
      }
      if TypeOf(fn) != "function" {
        outcome := Thrown(SecondArgumentNotFunction);
        return;
      }
      versions := versions[NumberToString(version) := fn.callback];
      outcome := Returned;
    }
  }

  /** The provider's module state: `connectionConfigs` and
      `defaultConnectionName`. */
  class Registry {
    var configs: map<string, Config>
    var defaultName: string

    /** Each config is stored under its own name, and the registry invariant
        holds of the names and the default. */
    ghost predicate Valid()
      reads this
    {
      && (forall n :: n in configs ==> configs[n].name == n)
      && Consistent(View())
    }

    function View(): RegistryView
      reads this
    {
      RegistryView(configs.Keys, defaultName)
    }

    /** The state when the provider is instantiated. */
    constructor ()
      ensures Valid()
      ensures configs == map[] && defaultName == ""
      ensures View() == Initial
    {
      configs := map[];
      defaultName := "";
    }

    /** `connection(dbName, isDefault)`: the config already stored under
        `dbName`, untouched, or else a freshly constructed one. */
    method Connection(dbName: string, isDefault: JsValue) returns (c: Config)
      requires Valid()
      modifies this
      ensures Valid()
      ensures View() == Declare(old(View()), dbName, isDefault)
      ensures dbName in configs && configs[dbName] == c && c.name == dbName
      ensures dbName in old(configs) ==>
        c == old(configs[dbName]) && configs == old(configs) && defaultName == old(defaultName)
      ensures dbName !in old(configs) ==>
        fresh(c) && c.versions == map[] && configs == old(configs)[dbName := c]
    {
      if dbName in configs {
        c := configs[dbName];
        return;
      }
      c := new Config(this, dbName, isDefault);
    }
  }

  /** Two `connection` calls for one name, whatever their `isDefault`
      arguments, return the same object: the first stores it, the second
      finds it. An upgrade registered through either reference is therefore
      seen through the other. */
  method ConnectionTwice(registry: Registry, dbName: string, first: JsValue, second: JsValue)
    returns (c1: Config, c2: Config)
    requires registry.Valid()
    modifies registry
    ensures registry.Valid()
    ensures c1 == c2 && c1.name == dbName
    ensures registry.configs == old(registry.configs)[dbName := c1]
    ensures registry.View() == Declare(old(registry.View()), dbName, first)
  {
    c1 := registry.Connection(dbName, first);
    c2 := registry.Connection(dbName, second);
  }
}
