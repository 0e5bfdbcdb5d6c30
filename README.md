# Schema registry of the `$indexedDB` provider

This project models the schema registry of the AngularJS `$indexedDB` provider.
The provider keeps one `ConnectionConfig` per database name in the table
`connectionConfigs`, and it remembers a default database name in
`defaultConnectionName`. It offers three operations:

- `connection(dbName, isDefault)` looks a config up by name, or constructs one if the name is absent.
- The `ConnectionConfig` constructor starts an empty `versions` table, may take over the default name, and registers itself under its name.
- `upgrade(newVersion, fn)` coerces the version with `Number`, checks its arguments, and stores the callback under that version.

The project has three modules:

- `JsValues` (`js_values.dfy`) holds the JavaScript semantics these operations rely on: `typeof`, truthiness, `Number(...)`, and `String(number)` as a property key.
- `RegistrySpec` (`registry_spec.dfy`) describes the registry as values. It has `RegistryView`, the effects of `connection`, of the constructor and of `upgrade`, and lemmas about single calls and sequences of calls.
- `IndexedDb` (`indexeddb.dfy`) holds the classes `Registry` and `Config`. Their methods update fields in place, as the provider does, and each is proved against its `RegistrySpec` counterpart.

Upgrade callbacks are opaque tokens (`Callback`). The thrown message strings are represented by their kind (`UpgradeError`).

The source and the design description disagree in two places. The model follows the source in both:

- The design describes `upgrade` as appending callbacks to an ordered per-version list, with a running maximum version. The code writes one callback per version key and replaces any earlier one. `UpgradeOverwrites` and `UpgradeAllLastWins` state this.
- The design says the "first argument should be number" check rejects non-numeric versions. `typeof Number(x)` is always `'number'`, so the check never fires. Versions that coerce to NaN are stored under the key `"NaN"` (`NaNVersionAccepted`).

The default-name rule treats the empty string both as "no default yet" and as a possible database name. As a result, `connection('a')` followed by `connection('', true)` leaves `'a'` registered next to an empty default (`EmptyNameClearsDefault`). The invariant that always holds is `Consistent`: the default is a registered name, or nothing is registered and the default is empty. The stronger property "a registered non-empty name implies a non-empty default" holds only when no call registers the empty name as the default (`DeclareAllNamedDefault`).

## Model

| member | source | states |
|---|---|---|
| `JsValues.TypeOf` | src/indexeddb.js:49-53 | `typeof` is `'number'` exactly for numbers and `'function'` exactly for functions, which are the two tests `upgrade` makes |
| `JsValues.ToNumber` | src/indexeddb.js:48 | `Number(v)` always yields a number: numbers map to themselves, `undefined` and functions to NaN, and `null`, `false` and `''` to 0 |
| `JsValues.NumberStringRoundTrip` | src/indexeddb.js:57 | the property key written for a version number reads back with `Number` as that same number (NaN included) |
| `JsValues.NumberToStringInjective` | src/indexeddb.js:57 | two version numbers share a key of `versions` exactly when they are equal |
| `RegistrySpec.NextDefault` | src/indexeddb.js:40-42 | the new name becomes the default when the current default is empty or `isDefault` is truthy; otherwise the old default is kept |
| `RegistrySpec.Create` | src/indexeddb.js:37-44 | constructing a config registers its name (replacing any entry), sets the default to the new name or leaves it, and keeps the registry invariant |
| `RegistrySpec.Declare` | src/indexeddb.js:23-30 | after `connection` the name is registered; a name already present leaves the registry unchanged even when `isDefault` is true; at most that one name is added; the invariant is kept |
| `RegistrySpec.DeclareIdempotent` | src/indexeddb.js:24-27 | a second `connection` for the same name, with any `isDefault`, changes nothing |
| `RegistrySpec.DeclareAllConsistent` | src/indexeddb.js:40-44 | every sequence of `connection` calls keeps the default a registered name, or empty while nothing is registered |
| `RegistrySpec.DeclareAllNames` | src/indexeddb.js:23-44 | after a sequence of `connection` calls, the registered names are the earlier ones plus exactly the names asked for |
| `RegistrySpec.CreateKeepsNamedDefault` | src/indexeddb.js:40-42 | constructing a config keeps "a non-empty name registered implies a non-empty default", unless it registers the empty name as the default |
| `RegistrySpec.DeclareAllNamedDefault` | src/indexeddb.js:40-44 | once a non-empty name is registered the default is non-empty, for every call sequence that never registers the empty name as the default |
| `RegistrySpec.EmptyNameClearsDefault` | src/indexeddb.js:40-42 | `connection('a')` then `connection('', true)` leaves `'a'` registered and the default empty |
| `RegistrySpec.UpgradeSpec` | src/indexeddb.js:47-58 | `upgrade` returns exactly when `fn` is a function; otherwise it throws "second argument" and leaves `versions` unchanged; on return the callback is at the slot of `Number(newVersion)` and every other slot is unchanged |
| `RegistrySpec.NaNVersionAccepted` | src/indexeddb.js:48-50 | a version that coerces to NaN is accepted, and its callback is stored under `"NaN"` |
| `RegistrySpec.SameSlotIffSameNumber` | src/indexeddb.js:48-57 | two version arguments write the same slot exactly when they coerce to the same number |
| `RegistrySpec.UpgradeOverwrites` | src/indexeddb.js:57 | a second `upgrade` at a numerically equal version replaces the first callback and adds no entry |
| `RegistrySpec.UpgradeAllLastWins` | src/indexeddb.js:47-58 | after any sequence of `upgrade` calls each slot holds the callback of the last successful call for it, or its earlier content if no call wrote it |
| `RegistrySpec.ConnectionAsWritten` | src/indexeddb.js:24-29 | as written, `connection` creates a config exactly when the name is neither registered nor an inherited Object.prototype property; in every other case the registry is unchanged |
| `RegistrySpec.PrototypeNameNeverRegistered` | src/indexeddb.js:24-29 | as written, a name such as `toString` gets the inherited member back and is never registered, however many calls follow |
| `RegistrySpec.DeclareRegistersEveryName` | src/indexeddb.js:24-44 | with own-key lookup, every name passed to `connection` ends up registered |
| `IndexedDb.Registry.constructor` | src/indexeddb.js:5-6 | the provider starts with an empty `connectionConfigs` and an empty default |
| `IndexedDb.Registry.Connection` | src/indexeddb.js:23-30 | an existing name returns the stored object and changes neither the table nor the default; a new name returns a fresh config with that name and empty `versions`, stored under the name with the other entries unchanged; the registry invariant is kept |
| `IndexedDb.Config.constructor` | src/indexeddb.js:32-45 | the new config has the given name and an empty `versions` table, is stored under its name, and applies the default-name rule |
| `IndexedDb.Config.Upgrade` | src/indexeddb.js:47-58 | the outcome and the new `versions` table are those of `UpgradeSpec` on the old table |
| `IndexedDb.ConnectionTwice` | src/indexeddb.js:23-44 | two `connection` calls for one name return the identical object, and the second call's `isDefault` has no effect |

## Left out

- Browser lookups of `indexedDB` and `IDBKeyRange` (src/indexeddb.js:7-8): these are host-platform objects.
- The constant tables `dbMode`, `readyState` and `cursorDirection` (src/indexeddb.js:9-21): the registry logic does not use them.
- Angular module and provider registration, and the enclosing function wrapper (src/indexeddb.js:1-4): these are framework plumbing. Because of that wrapper the registry state belongs to one provider instance, modelled as one `Registry` object.
- The `instanceof` self-construction guard (src/indexeddb.js:33-35): it is a JavaScript calling-convention idiom, and as written it is missing a closing parenthesis. Construction always yields a new config here.
- The assignment at src/indexeddb.js:48 writes an undeclared `version`, which is a ReferenceError in strict mode. It is modelled as a local variable.
- `JsValues.ToNumber`: numbers are NaN or integers. Fractions, infinities, -0 and the loss of precision above 2^53 are not modelled. Strings convert only when empty or an optionally signed run of decimal digits; everything else becomes NaN. So whitespace trimming, decimal points, exponents, hexadecimal prefixes and `"Infinity"` are not modelled. Objects and arrays are not modelled as arguments.
- Database names are strings. A non-string `dbName` would be converted to a string key, while `defaultConnectionName` would keep the raw value; this is not modelled.
- The error message text of the two `throw`s: each is represented by its kind, and the first carries the offending argument.
- The connection manager, migration ordering, connection-handle caching, error normalisation and closing: none of them is in src/indexeddb.js, and this model covers only that file.

## Findings

| source | as written | input that shows it | evidently intended | confidence | as-written member | corrected member |
|---|---|---|---|---|---|---|
| src/indexeddb.js:5 | `connectionConfigs` is the object literal `{}`, so `connectionConfigs[dbName]` also finds properties inherited from Object.prototype. Such a value is truthy and is returned at line 26 as if it were a config. | `connection('toString')` returns `Object.prototype.toString`, and the name `toString` is never registered by any later call either | lookup of the table's own entries only, so that every name gets a config | high, not executed | `RegistrySpec.PrototypeNameNeverRegistered` | `RegistrySpec.DeclareRegistersEveryName` |

`RegistrySpec.Declare` and the `Registry` class use own-key lookup (a Dafny `map`), which is the corrected behaviour.
