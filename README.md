# registration-logger, modelled in Dafny

A model of the per-key levelled logging filter of `registration-logger` (`src/index.ts`).
Callers register key objects in the current registry, each at a minimum level. `log(key, level,
...data)` writes one console line when the key's threshold admits `level`, and nothing
otherwise.

Files, one module each:

- `wrappers.dfy` — `Option`. `None` stands for `undefined` returned by `Map.get`.
- `levels.dfy` — `LogLevel` (Debug < Info < Warn < Error < Off) and its numeric `Rank`. Also the
  order `Le`, `Min` (`Math.min`), and the `Display` table. `MessageLevel` is the subset type for
  the levels `log` accepts, which excludes `Off`.
- `keys.dfy` — `LogKey`, a class, so keys are told apart by reference. Its `shape` is one of the
  two TypeScript shapes: `{ description }` (perhaps with a `name` as well) or `{ name }`.
  `KeyDisplay` shows the description when there is one, else the name.
- `policy.dfy` — the pure rules on a registry's entries (`map<LogKey, LogLevel>`):
  - `Merge` is one `logAddKey`, and `MergeAll` is `logAddKeys`.
  - `ListedMin` is a registry-free reference for what `MergeAll` computes per key.
  - `Emission` is the line or lines `log` writes.
  - The lemmas relate these functions to each other.
- `logger.dfy` — the imperative state:
  - `Registry` is a `Map` object with `Get`/`Set`.
  - `Logger<D>` holds the module-level `current` registry reference and `written`, the lines
    sent to the console. `D` is the type of the caller's data arguments.
  - Its methods are the exported functions. `AddKey`, `AddKeys`, `Log` and the four fixed-level
    wrappers are proved against the functions of `policy.dfy`. `GetRegistry`, `SetRegistry` and
    `NewRegistry` state directly which registry object is current afterwards.
  - `SaveAndRestore`, `WarnThresholdScenario` and `IdentityScenario` are client methods. They
    show what a caller can conclude from those contracts alone.

The repository's test file exercises a larger API than `src/index.ts` defines. That API includes
an override level, `logWrapOverride`, `logSetKey(s)`, `logUpdateKey(s)`, `logGetLevelDisplay`, and
`logAddKey` returning `false` on re-add with insert-only semantics. This model follows
`src/index.ts`: `logAddKey` returns nothing and keeps the lower of the old and new level.

## Model

| member | source | states |
|---|---|---|
| `Levels.Rank` | src/index.ts:10-16 | each level's numeric value lies in 0..4 |
| `Levels.Le` | src/index.ts:102 | the numeric `<=` on levels holds between equal levels, from Debug to anything and from anything to Off; only Debug is at or below Debug, and only Off is at or above Off |
| `Levels.LeIsTotalOrder` | src/index.ts:1-16 | the level order is reflexive, total, antisymmetric and transitive, with Debug lowest and Off highest, and it ascends strictly Debug < Info < Warn < Error < Off |
| `Levels.Min` | src/index.ts:74 | `Math.min` of two levels is at most each of them and is one of them |
| `Levels.MinCommutes` | src/index.ts:74 | the order of `Math.min`'s arguments does not matter |
| `Levels.Display` | src/index.ts:18-24 | the display name is "Debug", "Info", "Warn", "Error" or "Off" exactly when the level is Debug, Info, Warn, Error or Off respectively |
| `Levels.DisplayInjective` | src/index.ts:18-24 | the display table gives distinct levels distinct names |
| `Keys.KeyDisplay` | src/index.ts:104 | a key with a description shows its description, even if it also has a name; a key with only a name shows its name |
| `Keys.TwinKeys` | src/index.ts:26-29 | two keys with the same label are different keys and display the same text |
| `Policy.Lookup` | src/index.ts:70 | a lookup yields a level exactly when the key is registered, and then its stored level |
| `Policy.Lower` | src/index.ts:71-75 | combining an optional old threshold with a new one yields the lower of those present, and is absent only if both are |
| `Policy.LowerAssociates` | src/index.ts:71-75 | combining thresholds may be grouped either way |
| `Policy.Merge` | src/index.ts:69-76 | adding a key adds exactly that key to the domain and leaves every other entry unchanged; the key's new level is at most the added level and at most its old level, and equals one of them (so an absent key gets exactly the added level, and a threshold never rises) |
| `Policy.MergeLookup` | src/index.ts:69-76 | seen through lookup, adding moves only the added key, to the lower of its old level (if any) and the new one |
| `Policy.MergeIdempotent` | src/index.ts:69-76 | repeating the same add leaves the registry as after the first |
| `Policy.MergeCommutes` | src/index.ts:69-76 | two adds give the same key-to-level entries in either order (the `Map`'s insertion order aside) |
| `Policy.MergeAll` | src/index.ts:83-87 | after adding a list, the registered keys are the previous ones plus every key the list names |
| `Policy.ListedMin` | src/index.ts:83-87 | the reference level for a key is present iff the list names the key; it is at most every level listed for it and is one of them |
| `Policy.MergeAllLookup` | src/index.ts:83-87 | after adding a list, each key's threshold is the lower of its previous threshold and the lowest level listed for it |
| `Policy.AddKeysFinalLevel` | src/index.ts:83-87 | after adding a list, a key's level is at most its prior level and every level listed for it, and equals one of them |
| `Policy.MergeAllAppend` | src/index.ts:83-87 | adding list `a` then list `b` equals adding `a + b` in one call |
| `Policy.Enabled` | src/index.ts:101-102 | a key passes the emission test only if it is registered; a key registered at Debug passes at every level; a key that passes at a level other than Off is not registered at Off |
| `Policy.Emission` | src/index.ts:96-107 | `log` writes at most one line, and writes one iff the key is registered with a threshold at most the level; the line is the level's display name and ":", the key's display text and ":", then the data unchanged |
| `Policy.SilentKeys` | src/index.ts:98-102 | an unregistered key and a key registered at Off never write anything |
| `Policy.EnabledUpward` | src/index.ts:102 | a key that logs at one level also logs at every more severe level |
| `Policy.MergeKeepsEnabled` | src/index.ts:69-76 | adding a key never stops any key from logging a message it logged before |
| `Policy.AddKeysEnables` | src/index.ts:83-87 | after adding a list, each listed key logs at every level at or above a level listed for it |
| `Logger.Registry.constructor` | src/index.ts:33 | a new registry is empty |
| `Logger.Registry.Get` | src/index.ts:70 | `Map.get` returns the stored level iff the key is present |
| `Logger.Registry.Set` | src/index.ts:72 | `Map.set` stores the level for the key and changes no other entry |
| `Logger.Logger.constructor` | src/index.ts:33 | at module load a fresh empty registry is current and nothing has been written |
| `Logger.Logger.GetRegistry` | src/index.ts:40-42 | returns the current registry object itself |
| `Logger.Logger.SetRegistry` | src/index.ts:49-51 | the given registry becomes current; nothing is written |
| `Logger.Logger.NewRegistry` | src/index.ts:58-61 | a newly allocated, empty registry becomes current and is returned; nothing is written |
| `Logger.Logger.AddKey` | src/index.ts:69-76 | the current registry's entries become `Merge` of the old entries with the key and level |
| `Logger.Logger.AddKeys` | src/index.ts:83-87 | the current registry's entries become `MergeAll` of the old entries and the list, i.e. `logAddKey` applied in list order |
| `Logger.Logger.Log` | src/index.ts:96-107 | the written lines grow by exactly `Emission` of the current entries; the registry is not changed |
| `Logger.Logger.LogDebug` | src/index.ts:115-117 | `log` at Debug |
| `Logger.Logger.LogInfo` | src/index.ts:125-127 | `log` at Info |
| `Logger.Logger.LogWarn` | src/index.ts:135-137 | `log` at Warn |
| `Logger.Logger.LogError` | src/index.ts:145-147 | `log` at Error |
| `Logger.SaveAndRestore` | src/index.ts:40-61 | a new registry is a different object from the one it replaces; setting a registry and then getting returns that same registry, entries intact |
| `Logger.WarnThresholdScenario` | src/index.ts:96-107 | a key registered at Warn drops an Info message and writes "Warn:", "net:", "slow" and then "Error:", "net:", "fail" |
| `Logger.IdentityScenario` | src/index.ts:26-29 | a second key with the same name as a registered key is not registered and writes nothing |

## Left out

- The console itself. Writing is modelled as appending a `LogLine` to `Logger.written`. How
  `console.log` serialises non-string data is not modelled; the data is an opaque `seq<D>`.
- Aliasing by callers who mutate the map that `logGetRegistry` returns. The registry is a shared
  object (`Registry`), so such a change would be visible. But no caller-side `Map` operations
  other than `get`/`set` are modelled (no `delete`, no `clear`).
- The features that only the test file exercises: override level, `logGetOverrideLevel`,
  `logSetOverrideLevel`, `logWrapOverride`, `logSetKey(s)`, `logUpdateKey(s)`,
  `logGetLevelDisplay`, and boolean or partition results of `logAddKey(s)`. `src/index.ts`
  defines none of them.
- Type-level restrictions of TypeScript are carried only where they matter: `log`'s level
  parameter excludes `Off` (`MessageLevel`). The key label union is a datatype.
- `Keys.LogKey`: a key's `description`/`name` shape is fixed when the key is built. In the
  source the key is the caller's mutable object, whose properties are read (and the presence of
  `description` tested) afresh at every `log` call, so its displayed label could change between
  calls; the model does not capture that.
- `Policy.MergeCommutes`: a registry's entries are an unordered `map`. A JavaScript `Map` also
  remembers insertion order, which callers can observe by iterating the object that
  `logGetRegistry` returns. The model does not capture that order, so two adds in different
  orders give equal entries but not necessarily the same iteration order.
- Lint configuration (`eslint.config.mjs`), which holds no logic.
