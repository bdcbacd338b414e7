# Profile property cache

A model of the typed, lazily cached settings of the Atlas `Profile` class
(`Atlas/common/profile.h`). A macro generates one accessor pair per setting:
a private variant slot, a getter that fills the slot from the backing
table on first use (with the caller's default standing in for a missing
row) and returns it read back at the setting's declared type, and a setter
that overwrites the slot unconditionally and forwards the write to the
table. The header declares twenty such settings: sample-ID prefixes,
result strings and flags, display colours, the measurement screen's
columns, QC limits, the corporation name and a touch-screen flag.

The project is split the way the header is:

- `values.dfy` (`Values`): payloads (string, integer, boolean, colour as an
  opaque token), the variant (`Option<Value>`, `None` being the invalid
  variant) and reading a variant back at a static type.
- `properties.dfy` (`Properties`): the table of the twenty settings, with
  each one's key (its own name), declared type and declared default.
- `store.dfy` (`BackingStore`): the generic table operations of `Profile`
  (`value`, `setValue`, `value2`, `value<T>`) as functions on a
  `map<string, Value>`; the accessors forward to `value` and `setValue`.
  Their bodies are not part of this model, so these functions are assumed
  contracts: the declarations give the default
  parameter of `value` and the comment on `value2` gives its fallback
  order; that `value` writes nothing and that `setValue` with `save` false
  leaves the table as it was are assumptions, not facts from the header.
- `cache.dfy` (`PropertyCache`): the accessor pair as a state machine over
  values (filled slots plus table), the calls as a sequence, and the
  lemmas about sequences of calls.
- `profile.dfy` (`Profiles`): the `Profile` class itself, with one variant
  field per setting, the table, a log of the calls made on the table, and
  the getter and setter as methods whose postconditions tie the object's
  new state to the state machine. Three client methods show what callers
  can conclude.

The twenty macro expansions are represented by one getter and one setter
taking the setting (`Prop`) as a parameter; each still reads and writes
only that setting's own field.

Two consequences of `profile.h` worth stating:

- Reading back at a type never fails: the getter returns
  `m_<name>.value<type>()`, which always yields a value of the declared
  type.
- Under the assumed contract of `setValue` (it writes only the table), a
  filled slot is not updated by a generic `setValue` under the same key;
  only the setting's own setter replaces it. When the key has no row, the
  first read's default is what the slot holds until the setting's setter is
  called; under the assumed contract of `value`, it is not written to the
  table.

## Model

| member | source | states |
|---|---|---|
| `Values.Convert` | Atlas/common/profile.h:26 | reading a variant back at a type yields a value of that type; a payload of that type comes back unchanged; the invalid variant gives the type's default-constructed value |
| `Values.Null` | Atlas/common/profile.h:92 | the default-constructed value of each type has that type |
| `Properties.Name` | Atlas/common/profile.h:25-31 | the key each accessor passes to `value`/`setValue` is the setting's identifier spelled out (`#name`) |
| `Properties.DeclaredKind` | Atlas/common/profile.h:46-79 | each setting's declared type: the first argument of its expansion (string, colour, int or bool) |
| `Properties.DeclaredDefault` | Atlas/common/profile.h:46-79 | each setting's declared default has the setting's declared type |
| `Properties.NamesDistinct` | Atlas/common/profile.h:17-32 | the stringified names used as keys are pairwise different, so no two settings share a row |
| `BackingStore.Lookup` | Atlas/common/profile.h:91 | `value(key, d)`: the stored payload when the key has a row, otherwise exactly `d` |
| `BackingStore.Saved` | Atlas/common/profile.h:90 | `setValue(key, v, save)`: with `save` the row under key holds `v` and no other row changes; without it the table is unchanged |
| `BackingStore.LookupFallback` | Atlas/common/profile.h:93-94 | `value2(key, defaultKey, d)`: the key's payload, else the fallback key's payload, else `d` |
| `BackingStore.LookupAs` | Atlas/common/profile.h:92 | `value<T>(key)`: a value of type T; the default-constructed T when the key has no row; the stored payload when it has type T |
| `BackingStore.LookupAfterSaved` | Atlas/common/profile.h:90-91 | a saved write is read back under its key whatever the default; an unsaved one changes no read |
| `BackingStore.LookupOtherKey` | Atlas/common/profile.h:90-91 | a write under one key changes no read of another key |
| `BackingStore.FallbackIgnoresDefaultWhenStored` | Atlas/common/profile.h:93-94 | when either key has a row, `value2` does not depend on its default |
| `PropertyCache.GetStep` | Atlas/common/profile.h:22-27 | the getter returns a value of the declared type and never writes the table; on a filled slot it changes nothing; on an empty slot it fills that slot, and only that slot, with `value(name, default)` |
| `PropertyCache.SetStep` | Atlas/common/profile.h:28-32 | the setter leaves its slot holding `v` whatever `save` is, changes no other slot, and applies `setValue(name, v, save)` to the table |
| `PropertyCache.GetIdempotent` | Atlas/common/profile.h:24-26 | a second read returns the same value and state as the first, whatever its default |
| `PropertyCache.GetOnEmptyReturnsDefault` | Atlas/common/profile.h:22-26 | with an empty slot and no row, the getter returns its argument, and with no argument the declared default |
| `PropertyCache.ApplyKeepsOtherSlot` | Atlas/common/profile.h:19 | a call that does not name a setting leaves that setting's slot as it was |
| `PropertyCache.RunKeepsUnmentionedSlot` | Atlas/common/profile.h:19 | over any sequence of calls that never names a setting, its slot, filled or empty, is unchanged |
| `PropertyCache.FilledSlotNeverRefreshed` | Atlas/common/profile.h:24-26 | once filled, a slot keeps its value over any calls except that setting's setter, including writes to its own key in the table (under the assumed contract of `setValue`) |
| `PropertyCache.DefaultIgnoredAfterFirstRead` | Atlas/common/profile.h:22-26 | every later read returns what the first read returned, whatever its default and whatever is written to the table, until the setter is called |
| `PropertyCache.ReadAfterSet` | Atlas/common/profile.h:22-31 | after `set_<name>(v, save)`, reads return `v` for any default and either `save`, until that setter is called again |
| `PropertyCache.ReadsLeaveTable` | Atlas/common/profile.h:22-26 | any sequence of getter calls leaves the table unchanged |
| `PropertyCache.RunKeepsUnstoredKey` | Atlas/common/profile.h:90 | a key that no call saves under reads the same before and after a sequence of calls |
| `PropertyCache.SavedSetSurvivesRestart` | Atlas/common/profile.h:28-31 | after a saved set, a new profile over the same table reads `v`, unless a later call saves under the same key; other settings' setters never do |
| `PropertyCache.UnsavedSetIsTransient` | Atlas/common/profile.h:28-31 | after an unsaved set, a new profile over the table reads what it read before |
| `Profiles.Profile.constructor` | Atlas/common/profile.h:82-83 | a new profile has every slot invalid, the given table and no calls made |
| `Profiles.Profile.StoreSlot` | Atlas/common/profile.h:19 | assigning a setting's slot changes that slot and no other, nor the table |
| `Profiles.Profile.ValueOf` | Atlas/common/profile.h:91 | returns `value(key, d)` of the current table, writes nothing and logs one read |
| `Profiles.Profile.ValueAs` | Atlas/common/profile.h:92 | returns `value<T>(key)`, a read with the invalid variant as default converted to T |
| `Profiles.Profile.Value2` | Atlas/common/profile.h:93-94 | returns the fallback read of the current table and writes nothing |
| `Profiles.Profile.SetValue` | Atlas/common/profile.h:90 | the table afterwards is the saved write applied to the old one, and the call is logged |
| `Profiles.Profile.Get` | Atlas/common/profile.h:22-27 | on a filled slot returns it read back at the declared type and changes no state at all (no table call); on an empty slot fills it with `value(name, default)` through exactly one read call; other slots and the table are unchanged; the new state and result are those of `PropertyCache.GetStep` |
| `Profiles.Profile.GetDeclaredDefault` | Atlas/common/profile.h:22-26 | the getter with no argument: the result has the declared type and is the slot read back; on a filled slot nothing changes; on an empty slot the slot is filled with `value(name, declared default)` through exactly one read call, so with no row the result is the declared default; other slots and the table are unchanged |
| `Profiles.Profile.Set` | Atlas/common/profile.h:28-32 | the slot holds `v`, other slots are unchanged, exactly one `setValue(name, v, save)` call is made, and the new state is that of `PropertyCache.SetStep` |
| `Profiles.FreshProfileDefaults` | Atlas/common/profile.h:46-79 | on an empty table, `statim_sample_prefix()` is "S", `max_qc_file()` is 10, `qc_method()` is 0 and `is_touch_screen()` is false |
| `Profiles.SetThenGet` | Atlas/common/profile.h:22-31 | after a set, the next read returns the value set, whatever its default and whatever the table held |
| `Profiles.StaleAfterDirectWrite` | Atlas/common/profile.h:24-26 | after a first read and a direct `setValue` under the same key, the getter still returns the first read's value while the table holds the new one (under the assumed contract of `setValue`) |

## Left out

- The database handles `database`, `qcDatabase`, `dataDatabase` and `init(filename)`: database I/O whose bodies are not part of this model. The table is an abstract map given to the constructor; the SQL serialisation of payloads is not modelled (a row holds a typed payload).
- The `valueChanged`/`keyRemoved` signals and the `saveValue`/`removeKey` slots: Qt signal/slot plumbing. The ghost call log records the table calls instead.
- The singleton `instance()` and the `profile` macro: global lifecycle, not logic.
- `remove` and `keys`: only their declarations are visible, so their effect on the table and the slots cannot be stated from the source.
- Translation of defaults by `tr()`/`trUtf8()`: defaults are the literal strings (the two arrow flags are U+2193 and U+2191).
- `QColor` internals: colours are opaque tokens.
- Convert: Qt's cross-type conversions (a numeric string read as an integer, an integer read as a string, and so on) are not modelled; a payload of another type reads back as the type's default-constructed value, which is what Qt gives for a payload it cannot convert.
- Lookup: that `value(key, d)` writes nothing to the table is an assumed contract; the table frame of `PropertyCache.GetStep`, `PropertyCache.ReadsLeaveTable`, `PropertyCache.UnsavedSetIsTransient` and `PropertyCache.SavedSetSurvivesRestart` rest on it.
- SetValue: a write with `save` false leaves the table unchanged; any in-memory layer the implementation of `setValue` may keep is not part of this model. Both `setValue` and `value` are assumed to leave the `m_<name>` slots alone, although as member functions they could reach them; the direct-write case of `PropertyCache.FilledSlotNeverRefreshed` (a `Put` under the setting's own key) and `Profiles.StaleAfterDirectWrite` rest on this.
- A table row always holds a valid payload (`Table` maps keys to `Value`, and `setValue` takes a `Value`), whereas `setValue` accepts the invalid `QVariant()`. A row holding the invalid variant would leave the slot empty after `value(#name, val)`, so the getter would return the default-constructed type rather than `val` and the next call would read the table again; that path of the getter is not modelled.
- The twenty per-setting method names (`statim_sample_prefix()`, `set_statim_sample_prefix(...)`, ...) are one getter and one setter taking the setting as a parameter; C++ default arguments become `GetDeclaredDefault` and an explicit `save` flag.
