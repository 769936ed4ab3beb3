# Settings store of the wiliwili media player, in Dafny

This project models the settings store `ProgramConfig` of the wiliwili
front-end (`wiliwili/include/utils/config_helper.hpp`) and proves what it
promises.

- **Setting bag.** `setting` is a JSON document keyed by persistence
  strings. The catalog `SETTING_MAP` maps each `SettingItem` to a
  `ProgramOption` record whose `key` is that string. The typed reader
  `getSettingItem<T>` never fails: a missing key or a stored value that
  `get<T>` cannot convert gives the caller's default. The writer
  `setSettingItem<T>` stores one value under one key and then saves if asked.
- **Loader and writer.** `from_json` overlays the six persisted fields
  (cookie, refreshToken, setting, client, device, searchHistory) onto the
  configuration one guarded step at a time. `to_json` writes the same six
  fields back out.
- **Option metadata.** `ProgramOption.defaultOption` is documented to lie in
  `[0, optionList.size()-1]`.

Layout:

- `wrappers.dfy`: `Option`.
- `json.dfy`: a JSON value (null, boolean, integer, string, array, object)
  and the nlohmann operations the store uses: `contains`/`at`, `empty()` and
  `operator[]` assignment.
- `typed_value.dfy`: the types the accessors are used with (bool, 32-bit
  int, string), the conversion of a C++ value into JSON, and `get<T>` as a
  partial function. nlohmann reads an `int` from an integer, narrowing it
  to 32 bits, and also from a boolean (0 or 1). It reads a `bool` only from
  a boolean and a string only from a string.
- `program_option.dfy`: `SettingItem`, `ProgramOption`, the catalog as a
  parameter, and the documented range of `defaultOption` computed in
  `size_t`.
- `config_json.dfy`: the six fields as a value `Config`, the pure typed
  read `ReadSetting`, `to_json`, `from_json` as written (`LoadDocument`),
  and a loader that checks each field's shape before converting it
  (`LoadDocumentGuarded`; see Findings).
- `program_config.dfy`: the class `ProgramConfig`. Its fields are updated
  in place by `SetSettingItem` and `FromJson`. `save()` is modelled only as
  a ghost counter `saves`.
- `config_properties.dfy`: lemmas relating the operations.

An exception that escapes a C++ operation is modelled as a result value.
For `setSettingItem` this is `ok == false`. For `from_json` it is
`Aborted(field)`. The state left behind is exactly what the C++ code leaves
behind. The catalog `SETTING_MAP` is a parameter of every operation that
reads it, because its contents are not part of this model.

## Model

| member | source | states |
|---|---|---|
| Json.SetMember | wiliwili/include/utils/config_helper.hpp:140 | `setting[key] = data` succeeds exactly when the bag is null or an object; then the key holds the new value and every other key reads as before |
| TypedValue.Wrap32 | wiliwili/include/utils/config_helper.hpp:131 | narrowing a stored integer to `int` keeps it modulo 2^32, and keeps it unchanged when it fits in 32 bits |
| TypedValue.Convert | wiliwili/include/utils/config_helper.hpp:131 | `get<T>` succeeds for bool exactly on a boolean and returns it, for string exactly on a string and returns it, for int exactly on an integer (returned narrowed by `Wrap32`) or a boolean (returned as 0 or 1); a result always has the requested type |
| TypedValue.ConvertEncode | wiliwili/include/utils/config_helper.hpp:131 | a value stored as JSON and read back as its own type is the same value |
| TypedValue.ConvertAcrossKinds | wiliwili/include/utils/config_helper.hpp:130-135 | reading as a different type: a bool reads as int 0/1, every other mismatch fails (and so yields the default) |
| ProgramOptions.LastIndex | wiliwili/include/utils/config_helper.hpp:97-98 | `optionList.size()-1` in `size_t` is the last index for a non-empty list and wraps to the largest `size_t` for an empty one |
| ProgramOptions.DocumentedRangeIsIndexRange | wiliwili/include/utils/config_helper.hpp:97-98 | for a non-empty choice list, `defaultOption` is in the documented range iff it indexes `optionList` |
| ProgramOptions.DocumentedRangeVacuousWhenEmpty | wiliwili/include/utils/config_helper.hpp:97-98 | for an empty choice list every `defaultOption` is in the documented range, though none indexes the list |
| ConfigJson.ReadSetting | wiliwili/include/utils/config_helper.hpp:127-135 | the typed read has the default's type; a missing key gives the default; an unconvertible value gives the default; a stored value that converts is returned converted |
| Settings.ProgramConfig.GetSettingItem | wiliwili/include/utils/config_helper.hpp:126-136 | `getSettingItem` reads through `SETTING_MAP[item].key` (the empty key for an item missing from the catalog) and returns a value of the default's type |
| Settings.ProgramConfig.constructor | wiliwili/include/utils/config_helper.hpp:172-177 | a new configuration holds the cookie `{DedeUserID: "0"}`, empty strings, a null bag, an empty history, and has saved nothing |
| Settings.ProgramConfig.Save | wiliwili/include/utils/config_helper.hpp:162 | one call of `save()` is one rewrite of the configuration file |
| Settings.ProgramConfig.SetSettingItem | wiliwili/include/utils/config_helper.hpp:138-142 | on success the item then reads back as the written value, every item with another key reads as before, the other five fields are unchanged, and the file is saved once if `save` is set and never otherwise; when the bag is neither null nor an object the write throws, nothing changes and nothing is saved |
| Settings.ProgramConfig.CookieFromJson | wiliwili/include/utils/config_helper.hpp:191-193 | a non-empty `cookie` member replaces the cookie if it converts; otherwise the step reports the throw and the cookie is unchanged |
| Settings.ProgramConfig.HistoryFromJson | wiliwili/include/utils/config_helper.hpp:194-197 | an array `searchHistory` member replaces the history if it converts; otherwise the step reports the throw and the history is unchanged |
| Settings.ProgramConfig.ScalarsFromJson | wiliwili/include/utils/config_helper.hpp:198-208 | any `setting` member is taken, and `client`, `device` and `refreshToken` are taken only from strings |
| Settings.ProgramConfig.FromJson | wiliwili/include/utils/config_helper.hpp:189-209 | the fields after the load, and whether it ran to its end, are those of `LoadDocument` on the fields before it; no save happens |
| ConfigJson.DecodeCookie | wiliwili/include/utils/config_helper.hpp:193 | converting to a cookie map succeeds exactly on an object of strings, and keeps every key with its string |
| ConfigJson.EncodeStrings | wiliwili/include/utils/config_helper.hpp:184-186 | the written history array has one string per entry, in order |
| ConfigJson.DecodeStrings | wiliwili/include/utils/config_helper.hpp:196-197 | converting an array to a string vector succeeds exactly when every element is a string, and then keeps them all in order |
| ConfigJson.ToJson | wiliwili/include/utils/config_helper.hpp:182-187 | `to_json` produces an object with exactly the six persisted keys |
| ConfigJson.LoadDocumentGuarded | wiliwili/include/utils/config_helper.hpp:189-209 | the corrected loader changes a field only to the value the document holds for it, and keeps a writable bag writable |
| ConfigProperties.FreshReadsDefault | wiliwili/include/utils/config_helper.hpp:127-129 | every read on a freshly constructed configuration gives the caller's default |
| ConfigProperties.SetThenRead | wiliwili/include/utils/config_helper.hpp:139-140 | after writing `v` under a key, reading that key with a default of v's type gives `v` |
| ConfigProperties.SetLeavesOtherReads | wiliwili/include/utils/config_helper.hpp:140 | writing one key leaves the read of every other key unchanged |
| ConfigProperties.LoadReplacesCookieOnlyWhenOffered | wiliwili/include/utils/config_helper.hpp:191-193 | the loader changes the cookie only when the document has a non-empty `cookie` member; otherwise a fresh configuration keeps `{DedeUserID: "0"}` |
| ConfigProperties.LoadCompletesIffConvertible | wiliwili/include/utils/config_helper.hpp:191-197 | the load stops at the cookie exactly when an offered cookie is not an object of strings, stops at the history exactly when the cookie step passed and an offered array holds a non-string, and otherwise runs to its end |
| ConfigProperties.LoadTakesValuesOnlyFromDocument | wiliwili/include/utils/config_helper.hpp:189-209 | after any load, each field is its previous value or the value the document holds for that field |
| ConfigProperties.CompletedLoadMatchesGuarded | wiliwili/include/utils/config_helper.hpp:189-209 | a load that runs to its end on a document whose `setting` is absent, null or an object agrees with the guarded loader |
| ConfigProperties.AsWrittenAbortDropsLaterFields | wiliwili/include/utils/config_helper.hpp:191-202 | a string `cookie`, or a history array holding a number, stops the load before `client` is read, although `client` alone is taken |
| ConfigProperties.AsWrittenSettingBlocksWrites | wiliwili/include/utils/config_helper.hpp:198-199 | a numeric `setting` member is loaded as is, and afterwards every write to the bag throws |
| ConfigProperties.GuardedFieldsIndependent | wiliwili/include/utils/config_helper.hpp:189-209 | with the guarded loader, two documents that agree on one field's member give the same value for that field, whatever else they hold |
| ConfigProperties.GuardedLoadKeepsBagWritable | wiliwili/include/utils/config_helper.hpp:198-199 | after a guarded load of any document, a write to a previously writable bag succeeds |
| ConfigProperties.CookieRoundTrip | wiliwili/include/utils/config_helper.hpp:184-193 | a cookie written out and converted back is the same map |
| ConfigProperties.StringsRoundTrip | wiliwili/include/utils/config_helper.hpp:184-197 | a history written out and converted back is the same sequence |
| ConfigProperties.SaveLoadRoundTrip | wiliwili/include/utils/config_helper.hpp:182-209 | `to_json` then `from_json` into a fresh configuration reproduces all six fields and completes, provided the cookie is non-empty |
| ConfigProperties.SaveLoadEmptyCookie | wiliwili/include/utils/config_helper.hpp:172-193 | with an empty cookie the round trip keeps the fresh logged-out cookie and reproduces the other five fields |
| ConfigProperties.GuardedSaveLoadRoundTrip | wiliwili/include/utils/config_helper.hpp:182-209 | the guarded loader completes the same round trip for every configuration with a non-empty cookie and a writable bag |
| ConfigProperties.SetSaveLoadGet | wiliwili/include/utils/config_helper.hpp:126-142 | a value written to the bag, written out and loaded into a fresh configuration reads back as itself |

## Left out

- `APPVersion` (version string, platform, `needUpdate`, `checkUpdate`): only declarations are present, and `checkUpdate` is a delayed network request.
- `load`, `init`, `getConfigDir`, `getHomePath`, `checkRestart`, `loadHomeWindowState`, `saveHomeWindowState`: filesystem and window I/O with no bodies present. Whatever catches an exception escaping `from_json` is therefore not modelled.
- Settings.ProgramConfig.Save: only counts rewrites of the file; the document it writes and the file system are not modelled.
- `addHistory`, `getHistoryList`, `setHistory`, `setCookie`, `getCookie`, `setRefreshToken`, `getRefreshToken`, `getCSRF`, `getUserID`, `hasLoginInfo`, `getClientID`, `getDeviceID`, `getOptionData`, `getIntOptionIndex`, `getIntOption`, `getBoolOption`, `getStringOptionIndex`, the copy constructor and `setProgramConfig`: only declarations are present, so no eviction cap, id generation or option-index rule can be modelled.
- Settings.ProgramConfig.constructor: models the member initialisers only; the body of `ProgramConfig()` is not present.
- The contents of `SETTING_MAP`: a parameter. `SETTING_MAP[item]` inserts a default record for a missing item; the model reads the empty key for such an item but does not record the insertion, which changes no later key lookup.
- Logging of damaged settings through the logger: it does not affect any result.
- Floating-point JSON numbers and floating-point settings (speed, volume), and `get<T>` for types other than bool, int and string.
- JSON text parsing: integers outside the 64-bit range, duplicate keys and malformed text are not modelled. The model's JSON value is the already-parsed document.
- ConfigJson.ToJson: models `to_json` into a new, null document, as happens when a json is constructed from a configuration. Writing into a document that already has members is not modelled.
- The `Register` class (UI view and theme registration) and `Intent` in `wiliwili/include/utils/activity_helper.hpp` (navigation entry points, declarations only).
- `defaultOption` against `rawOptionList`: the comment at `wiliwili/include/utils/config_helper.hpp:97` ties the range to `optionList` only, and the model follows it. One would expect every loaded field to be checked on its own, as `client`, `device` and `refreshToken` are; the code does not do this for `cookie`, `searchHistory` and `setting`, and the model follows the code (see Findings).

## Findings

| source | as written | input that shows it | evidently intended | confidence | as-written member | corrected member |
|---|---|---|---|---|---|---|
| wiliwili/include/utils/config_helper.hpp:191-197 | the cookie is converted when it is merely non-empty, and the history when it is merely an array; a conversion that throws escapes `from_json` and every later field is skipped | `{"cookie": "x", "client": "abc"}` or `{"searchHistory": [1], "client": "abc"}`: `client` is not loaded, although `{"client": "abc"}` alone loads it | each field is checked in full and skipped on its own, as `client`, `device` and `refreshToken` are (proved in ConfigProperties.GuardedFieldsIndependent) | medium; not executed | ConfigProperties.AsWrittenAbortDropsLaterFields | ConfigJson.LoadDocumentGuarded |
| wiliwili/include/utils/config_helper.hpp:198-199 | `setting` is taken whatever its shape | `{"setting": 1}`: after loading it, every `setSettingItem` throws from `operator[]` | `setting` is taken only when it is null or an object, so writes keep working (proved in ConfigProperties.GuardedLoadKeepsBagWritable) | medium; not executed | ConfigProperties.AsWrittenSettingBlocksWrites | ConfigJson.LoadDocumentGuarded |
