# Xiaomi air fryer (careli) MIoT client: a Dafny model

This project models the device layer of the Xiaomi air-fryer integration,
`custom_components/xiaomi_airfryer/fryer_miot.py`. It covers five parts:

- **The schema `MIOT_MAPPING`.** It maps 18 symbolic names to MIoT addresses:
  13 properties `(siid, piid)` and 5 actions `(siid, aiid)`. This is module
  `Mapping`. Lookups in the dict and in the enums go through the ordered
  (key, value) tables of module `Tables`.
- **The enums.** `Status`, `DeviceFault`, `FoodQuanty`, `TurnPot` and
  `PreheatSwitch` live in module `Enums`. `RecipeId`, `RecipeToCommand` and
  `RecipeName` live in module `Recipes`. Each lookup by value (`X(v)`) is
  partial and returns `None` where Python raises `ValueError`.
- **The status fold `FryerMiot.status`.** A batch of per-property read
  results (`did`, `code`, `value`) becomes the status dictionary. A record
  whose code is not 0 contributes `None`, and a later record with the same
  did overrides an earlier one.
- **The typed views of `FryerStatusMiot`.** These are in module
  `StatusDecoder`. Each view reads `data[key]` and raises `KeyError` for a
  missing key. The enum-backed views fall back to a default value instead of
  raising.
- **The command side.** These are in module `Commands`:
  - four range-checked setters, which either raise `DeviceException` or yield
    a `set_property` request, and the unchecked `recipe_id` setter, which
    always yields one;
  - four argument-less actions;
  - `start_custom_cook`, which resolves a preset token to its seven-element
    command list and sends that list comma-joined to action (3, 1).

All exceptions are values of `Wire.Error`. A request is a value of
`Commands.Request`, the call that would be handed to the transport. A raw
property value is `Wire.Value`, an int, a bool or a str. Bools are kept
because Python's `==` and enum lookup treat `True` as 1 and `False` as 0.

Python's `str`, `",".join` and `split(",")` are in module `Text`, with a
decimal reader standing for the receiver's parsing of the integer fields. A receiver that parses the serialised command
gets the preset's seven fields back; this round trip is proved.

Where the documented behaviour and the code differ, the model follows the
code:

- `food_quanty` falls back to `FoodQuanty.Single`, not to `Unknown`.
- `recipe_name` raises for every status; see Findings.

## Model

| member | source | states |
|---|---|---|
| Tables.Get | custom_components/xiaomi_airfryer/fryer_miot.py:354 | `Enum[name]`, and `d[key]` on a dict whose keys are distinct: None exactly when no entry has the key; a found value belongs to an entry with that key |
| Tables.GetFirst | custom_components/xiaomi_airfryer/fryer_miot.py:354 | the value found is the one of the first entry carrying the key |
| Tables.KeyOf | custom_components/xiaomi_airfryer/fryer_miot.py:353 | `Enum(value).name`: None exactly when no member has the value; a found name belongs to a member with that value |
| Tables.KeyOfFirst | custom_components/xiaomi_airfryer/fryer_miot.py:353 | the name found is the one of the first member with the value |
| Mapping.Lookup | custom_components/xiaomi_airfryer/fryer_miot.py:18-37 | `MIOT_MAPPING[name]`, None for an unknown name; its contract is Tables.Get's on the schema, and Mapping.LookupAt and the per-name lemmas below fix the address of each name used |
| Mapping.PropertyNames | custom_components/xiaomi_airfryer/fryer_miot.py:18-31 | every entry with a piid is listed, and only those |
| Mapping.ActionNames | custom_components/xiaomi_airfryer/fryer_miot.py:32-36 | every entry with an aiid is listed, and only those |
| Mapping.NamesOfSplitTable | custom_components/xiaomi_airfryer/fryer_miot.py:18-37 | a table whose first k entries are properties has k property names and the rest action names |
| Mapping.MappingNamesDistinct | custom_components/xiaomi_airfryer/fryer_miot.py:18-37 | the schema has 18 entries and no name repeats, so no dict entry is shadowed |
| Mapping.MappingCounts | custom_components/xiaomi_airfryer/fryer_miot.py:18-37 | 13 properties and 5 actions |
| Mapping.MappingAddressesDistinct | custom_components/xiaomi_airfryer/fryer_miot.py:18-37 | no two entries share an address |
| Mapping.LookupAt | custom_components/xiaomi_airfryer/fryer_miot.py:18-37 | resolving a name gives the address of the first entry that carries it |
| Mapping.LookupTargetTime | custom_components/xiaomi_airfryer/fryer_miot.py:21 | target_time resolves to property (2, 3) |
| Mapping.LookupTargetTemperature | custom_components/xiaomi_airfryer/fryer_miot.py:22 | target_temperature resolves to property (2, 4) |
| Mapping.LookupRecipeId | custom_components/xiaomi_airfryer/fryer_miot.py:24 | recipe_id resolves to property (3, 1) |
| Mapping.LookupAppointTime | custom_components/xiaomi_airfryer/fryer_miot.py:26 | appoint_time resolves to property (3, 5) |
| Mapping.LookupFoodQuanty | custom_components/xiaomi_airfryer/fryer_miot.py:27 | food_quanty resolves to property (3, 6) |
| Mapping.LookupStartCook | custom_components/xiaomi_airfryer/fryer_miot.py:32 | start_cook resolves to action (2, 1) |
| Mapping.LookupCancelCooking | custom_components/xiaomi_airfryer/fryer_miot.py:33 | cancel_cooking resolves to action (2, 2) |
| Mapping.LookupPause | custom_components/xiaomi_airfryer/fryer_miot.py:34 | pause resolves to action (2, 3) |
| Mapping.LookupStartCustomCook | custom_components/xiaomi_airfryer/fryer_miot.py:35 | start_custom_cook resolves to action (3, 1) |
| Mapping.LookupResumeCooking | custom_components/xiaomi_airfryer/fryer_miot.py:36 | resume_cooking resolves to action (3, 2) |
| Enums.StatusOf | custom_components/xiaomi_airfryer/fryer_miot.py:44-62 | `Status(v)` is defined exactly on -1..14 and finds the member of value v |
| Enums.StatusOfValue | custom_components/xiaomi_airfryer/fryer_miot.py:44-62 | every Status member is found again from its value |
| Enums.DeviceFaultOf | custom_components/xiaomi_airfryer/fryer_miot.py:65-72 | `DeviceFault(v)` is defined exactly on -1..3 and finds the member of value v |
| Enums.DeviceFaultOfValue | custom_components/xiaomi_airfryer/fryer_miot.py:65-72 | every DeviceFault member is found again from its value |
| Enums.FoodQuantyOf | custom_components/xiaomi_airfryer/fryer_miot.py:75-83 | `FoodQuanty(v)` is defined exactly on -1..4 and finds the member of value v |
| Enums.FoodQuantyOfValue | custom_components/xiaomi_airfryer/fryer_miot.py:75-83 | every FoodQuanty member is found again from its value |
| Enums.TurnPotOf | custom_components/xiaomi_airfryer/fryer_miot.py:86-92 | `TurnPot(v)` is defined exactly on -1..2 and finds the member of value v |
| Enums.TurnPotOfValue | custom_components/xiaomi_airfryer/fryer_miot.py:86-92 | every TurnPot member is found again from its value |
| Enums.PreheatSwitchOf | custom_components/xiaomi_airfryer/fryer_miot.py:95-101 | `PreheatSwitch(v)` is defined exactly on -1..2 and finds the member of value v |
| Enums.PreheatSwitchOfValue | custom_components/xiaomi_airfryer/fryer_miot.py:95-101 | every PreheatSwitch member is found again from its value |
| Recipes.MemberOfToken | custom_components/xiaomi_airfryer/fryer_miot.py:104-112 | `RecipeId(token)` succeeds exactly for M0..M7 and names the member whose value is the token |
| Recipes.CommandOfToken | custom_components/xiaomi_airfryer/fryer_miot.py:353-354 | a command exists exactly for M0..M7; it is the RecipeToCommand list of the same-named member, starts with the token and an empty name, and has five int fields |
| Recipes.TablesJoinByName | custom_components/xiaomi_airfryer/fryer_miot.py:104-140 | every RecipeId member name also names a RecipeToCommand and a RecipeName member |
| Recipes.TablesInjective | custom_components/xiaomi_airfryer/fryer_miot.py:104-140 | preset names and tokens are pairwise distinct, and so are the display names |
| Recipes.MemberNamesAreNotDisplayNames | custom_components/xiaomi_airfryer/fryer_miot.py:104-140 | no RecipeId member name is a RecipeName value |
| Recipes.CommandTableShape | custom_components/xiaomi_airfryer/fryer_miot.py:115-129 | RecipeToCommand lists the presets in RecipeId's order, each as [token, "", five ints] |
| Recipes.CommandsWellFormed | custom_components/xiaomi_airfryer/fryer_miot.py:115-129 | the command of every preset is well formed and starts with that preset's token |
| Recipes.ParamStrings | custom_components/xiaomi_airfryer/fryer_miot.py:355 | `[str(x) for x in command]`: same length, element-wise rendering |
| Recipes.Serialize | custom_components/xiaomi_airfryer/fryer_miot.py:355 | `",".join([str(x) for x in command])`; specified by Recipes.SerializeRoundTrip (parsing gives a well-formed command back), Recipes.SerializePrefix and Recipes.FrenchFriesSerialized |
| Recipes.SerializePrefix | custom_components/xiaomi_airfryer/fryer_miot.py:355 | the joined string starts with the token followed by two commas (the empty name) |
| Recipes.FrenchFriesSerialized | custom_components/xiaomi_airfryer/fryer_miot.py:123 | the French-fries list renders as "M1,,15,200,0,3,0" |
| Recipes.JoinFrenchFries | custom_components/xiaomi_airfryer/fryer_miot.py:355 | joining the French-fries fields with commas gives "M1,,15,200,0,3,0" |
| Recipes.ParamStringsOfWellFormed | custom_components/xiaomi_airfryer/fryer_miot.py:355 | rendered fields contain no comma and the int fields read back to their values |
| Recipes.SerializeRoundTrip | custom_components/xiaomi_airfryer/fryer_miot.py:355 | parsing the joined string of a well-formed command gives the command back |
| Recipes.ParseFields | custom_components/xiaomi_airfryer/fryer_miot.py:355 | seven split fields that read back as a command's elements parse to that command |
| Text.NatToString | custom_components/xiaomi_airfryer/fryer_miot.py:355 | `str(n)`: non-empty decimal digits without a leading zero |
| Text.IntToString | custom_components/xiaomi_airfryer/fryer_miot.py:355 | `str(i)` is non-empty and holds no comma |
| Text.ParseNatToString | custom_components/xiaomi_airfryer/fryer_miot.py:355 | decimal digits read back to the number |
| Text.ParseIntToString | custom_components/xiaomi_airfryer/fryer_miot.py:355 | `int(str(i)) == i` for every int, negative ones included |
| Text.Split | custom_components/xiaomi_airfryer/fryer_miot.py:355 | splitting always yields at least one piece |
| Text.SplitWithoutSep | custom_components/xiaomi_airfryer/fryer_miot.py:355 | a piece without the separator splits to itself |
| Text.SplitAfterSep | custom_components/xiaomi_airfryer/fryer_miot.py:355 | a separator-free piece followed by the separator splits off as the first piece |
| Text.SplitJoin | custom_components/xiaomi_airfryer/fryer_miot.py:355 | splitting a join of separator-free pieces gives the pieces back |
| StatusDecoder.Collect | custom_components/xiaomi_airfryer/fryer_miot.py:273-280 | the status dictionary has exactly one key per did in the batch |
| StatusDecoder.CollectLastWins | custom_components/xiaomi_airfryer/fryer_miot.py:276-279 | a did holds the reading of its last record: the value when the code is 0, None otherwise |
| StatusDecoder.CollectDistinct | custom_components/xiaomi_airfryer/fryer_miot.py:276-279 | without repeated dids, every record's reading is stored under its did |
| StatusDecoder.CollectIncluded | custom_components/xiaomi_airfryer/fryer_miot.py:276-279 | records matched by did: every entry of one batch's dictionary is in the other's with the same reading |
| StatusDecoder.CollectOrderIrrelevant | custom_components/xiaomi_airfryer/fryer_miot.py:276-279 | two orderings of the same records without repeated dids fold to the same dictionary |
| StatusDecoder.IsOn | custom_components/xiaomi_airfryer/fryer_miot.py:149-152 | KeyError without a status; otherwise off exactly when the raw status equals 0, 1, 6 or 9 in Python's sense (True and False included) |
| StatusDecoder.StatusValue | custom_components/xiaomi_airfryer/fryer_miot.py:159-166 | KeyError without a status; the raw value when it is in -1..14; -1 for anything else, None included |
| StatusDecoder.IsOnMatchesDecodedStatus | custom_components/xiaomi_airfryer/fryer_miot.py:149-166 | is_on equals "the decoded status is not 0, 1, 6 or 9"; an unrecognised status counts as on |
| StatusDecoder.DeviceFaultValue | custom_components/xiaomi_airfryer/fryer_miot.py:168-175 | KeyError without the key; the raw value when it is in -1..3; -1 otherwise |
| StatusDecoder.PreheatSwitchValue | custom_components/xiaomi_airfryer/fryer_miot.py:216-223 | KeyError without the key; the raw value when it is in -1..2; -1 otherwise |
| StatusDecoder.FoodQuantyValue | custom_components/xiaomi_airfryer/fryer_miot.py:207-214 | KeyError without the key; the member of a raw value in -1..4; Single otherwise, so Unknown only from a raw -1 |
| StatusDecoder.TurnPotValue | custom_components/xiaomi_airfryer/fryer_miot.py:230-237 | KeyError without the key; the member of a raw value in -1..2; Unknown otherwise |
| StatusDecoder.RawField | custom_components/xiaomi_airfryer/fryer_miot.py:177-195 | the plain views (target_time, target_temperature, left_time, recipe_id, appoint_time, appoint_time_left): the stored entry, None included, or KeyError |
| StatusDecoder.RecipeNameAsWritten | custom_components/xiaomi_airfryer/fryer_miot.py:197-200 | recipe_name as written: KeyError without the key, ValueError from RecipeId for a value that is not a preset token; for a token, the lemmas below show it raises ValueError from RecipeName |
| StatusDecoder.RecipeNameAsWrittenAlwaysFails | custom_components/xiaomi_airfryer/fryer_miot.py:197-200 | recipe_name as written raises for every status; for a preset token it raises ValueError from RecipeName |
| StatusDecoder.RecipeNameManual | custom_components/xiaomi_airfryer/fryer_miot.py:197-200 | for recipe id "M0" the code as written raises ValueError("Manual"), where the corrected view gives "Ручной" |
| StatusDecoder.RecipeName | custom_components/xiaomi_airfryer/fryer_miot.py:197-200 | corrected recipe_name: KeyError without the key; success exactly for a preset token, with the display name of the same-named member; ValueError from RecipeId otherwise |
| StatusDecoder.FailedReadFallsBack | custom_components/xiaomi_airfryer/fryer_miot.py:159-237 | a failed read (code not 0) stores None, which each view turns into its fallback instead of raising; recipe_name then raises ValueError |
| StatusDecoder.CompleteBatchKeys | custom_components/xiaomi_airfryer/fryer_miot.py:273-280 | a batch answering every schema property gives all eleven keys the views read (proved in four groups of keys by StatusDecoder.CookingStateKeys, CookingProgressKeys, RecipeSettingsKeys and RecipeSwitchKeys) |
| StatusDecoder.CompleteBatchDecodes | custom_components/xiaomi_airfryer/fryer_miot.py:143-280 | after a complete batch no view raises except recipe_name: the corrected one succeeds exactly for a preset token, and the one as written still raises |
| Commands.SetAppointTime | custom_components/xiaomi_airfryer/fryer_miot.py:286-291 | succeeds exactly for 0..1440 with a write of that value to appoint_time (3, 5); DeviceException otherwise |
| Commands.SetRecipeId | custom_components/xiaomi_airfryer/fryer_miot.py:297-299 | any string is written unchecked to recipe_id (3, 1) |
| Commands.SetFoodQuanty | custom_components/xiaomi_airfryer/fryer_miot.py:305-309 | succeeds exactly for 0..5 with a write to food_quanty (3, 6); DeviceException otherwise |
| Commands.SetTargetTime | custom_components/xiaomi_airfryer/fryer_miot.py:315-319 | succeeds exactly for 1..1440 with a write to target_time (2, 3); DeviceException otherwise |
| Commands.SetTargetTemperature | custom_components/xiaomi_airfryer/fryer_miot.py:327-333 | succeeds exactly for 40..200 with a write to target_temperature (2, 4); DeviceException otherwise |
| Commands.StartCook | custom_components/xiaomi_airfryer/fryer_miot.py:336-338 | calls action (2, 1) without parameters |
| Commands.CancelCooking | custom_components/xiaomi_airfryer/fryer_miot.py:341-343 | calls action (2, 2) without parameters |
| Commands.Pause | custom_components/xiaomi_airfryer/fryer_miot.py:346-348 | calls action (2, 3) without parameters |
| Commands.ResumeCooking | custom_components/xiaomi_airfryer/fryer_miot.py:359-361 | calls action (3, 2) without parameters |
| Commands.StartCustomCook | custom_components/xiaomi_airfryer/fryer_miot.py:351-356 | succeeds exactly for M0..M7, otherwise ValueError from RecipeId; calls action (3, 1) with exactly the comma-join of the `str` of each field of the same-named RecipeToCommand list, which starts with `mode,,` and parses back to that list |
| Commands.StartCustomCookFrenchFries | custom_components/xiaomi_airfryer/fryer_miot.py:351-356 | "M1" sends "M1,,15,200,0,3,0" |
| Commands.FoodQuantyReadBack | custom_components/xiaomi_airfryer/fryer_miot.py:207-214 | a code the setter accepts reads back as its member for 0..4; 5 has no member and reads back as Single |

## Left out

- The python-miio transport is not part of this model. This covers
  `get_properties_for_mapping`, `set_property`, `call_action`, the network
  and device exceptions, and which properties a batch requests. A batch is a
  parameter, and a request is returned as a value.
- The `click` command decorators and their output format strings are left
  out. That includes the one at line 268 that names a non-existent
  attribute.
- Logging of unknown enum values is left out; it is I/O only.
- The `mode` view (line 154-157) is left out: it reads a key that the schema
  never produces.
- The `FryerMiot` constructor and model string are left out: they only
  configure the transport.
- `__init__.py` (the Home Assistant entities) and `const.py` are not part of
  this model.
- Raw values are limited to ints, bools and strings. Floats are not
  modelled.
- A record with code 0 but no `value` key, which raises `KeyError` in
  Python, is not modelled: every record carries an optional value.

## Findings

| source | as written | input that shows it | evidently intended | confidence | as-written member | corrected member |
|---|---|---|---|---|---|---|
| custom_components/xiaomi_airfryer/fryer_miot.py:200 | `RecipeName(RecipeId(raw).name)` looks the member name up among RecipeName's values (the Cyrillic display names), so it raises ValueError for every preset | status with `recipe_id` = "M0": raises ValueError for "Manual" | `RecipeName[RecipeId(raw).name].value`, lookup by member name, giving "Ручной" | high; proved, not executed | StatusDecoder.RecipeNameAsWritten (lemmas StatusDecoder.RecipeNameAsWrittenAlwaysFails, StatusDecoder.RecipeNameManual) | StatusDecoder.RecipeName |
