# ReflectivityConfig, modelled in Dafny

This project models the per-material reflectivity configuration of Sound Physics
Remastered, `ReflectivityConfig`. The configuration does four things:

- It holds a reflectivity coefficient for every Minecraft block sound type.
- It seeds those coefficients from a configured default plus built-in constants for about thirty materials.
- It overrides them from a `key=value` properties file keyed by canonical sound-type names.
- It writes the current map back to the properties.

It also turns a canonical name such as `NETHER_GOLD_ORE` into a display text such as "Nether Gold Ore".

Modules, in dependency order:

- `Wrappers` (`wrappers.dfy`): `Option` and `Result`.
- `NameTable` (`name_table.dfy`): the 76 sound types of the static translation table, as the rows `0..75` of the newtype `SoundType`. Each row has a named constant (`WOOD`, `STONE`, …). `GetName` is `getName`.
- `NameIndex` (`name_index.dfy`): an explicit reverse index from names to sound types. It is proved to invert `GetName`, which shows the 76 names are pairwise distinct.
- `NameLookup` (`name_lookup.dfy`): the reverse lookup `load` performs. It filters the table for the entry whose name equals the key and takes the first match. The result is proved to be order independent and to agree with the reverse index.
- `ReflectivityMaps` (`reflectivity_maps.dfy`) gives the value-level meaning of the operations as functions:
  - the built-in constants and the default map;
  - the merge that `load` performs;
  - the property set that `saveSync` writes;
  - the lookup of `getReflectivity`.
- `ReflectivityLaws` (`reflectivity_laws.dfy`): what those functions guarantee. This covers exact key sets, how bad entries are handled, exactly one property per coefficient, and the save/load round trip.
- `Config` (`reflectivity_config.dfy`): the class `ReflectivityConfig`. It has the `properties` store of the configuration library and the `reflectivity` map as fields. Its methods update these fields in place, with loops proved against the functions above.
- `NameComponent` and `NameComponentLaws` (`name_component.dfy`, `name_component_laws.dfy`) model `getNameComponent`:
  - Java's `String.split`, `toLowerCase(Locale.ROOT)` and `trim` as functions;
  - the `StringBuilder` loop as a method;
  - the general display rule, its failure cases, its success on every table name and the two worked names as lemmas.

Things that live outside the class are parameters:

- `dflt`: the configured default coefficient that `SoundPhysicsMod.CONFIG.defaultBlockReflectivity` supplies.
- `parse`: `Double.parseDouble`, which may fail, so it returns an `Option`.
- `show`: `String.valueOf`.
- `stored`: the properties the configuration library read from the file.

`Load`'s postcondition does not mention the previous state. A load therefore always rebuilds the map from the defaults, and loading the same file twice gives the same map.

Two choices in the model follow the code closely:

- **First character of a word.** `getNameComponent` appends each word's first character unchanged (`charAt(0)`) and lower-cases only the rest of the word. It does not upper-case the first character. Every table name is upper case (`NameTable.CanonicalName`), so the result still reads as a capitalised word.
- **Reverse lookup.** `load` finds a sound type by scanning the table. The model keeps this scan and adds a separate explicit reverse index. `NameLookup.FindAgreesWithIndex` proves the two give the same answer for every key.

## Model

| member | source | states |
|---|---|---|
| NameIndex.ReverseIndex | common/src/main/java/com/sonicether/soundphysics/config/ReflectivityConfig.java:117-203 | A name the reverse index resolves is the canonical name of the sound type it resolves to |
| NameIndex.ReverseIndexOfName | common/src/main/java/com/sonicether/soundphysics/config/ReflectivityConfig.java:117-203 | The canonical name of every sound type in the table resolves back to that sound type |
| NameTable.CanonicalName | common/src/main/java/com/sonicether/soundphysics/config/ReflectivityConfig.java:117-203 | The name the table gives every sound type is canonical: non-empty, upper-case ASCII letters, single underscores only between letters |
| NameIndex.NamesDistinct | common/src/main/java/com/sonicether/soundphysics/config/ReflectivityConfig.java:121-196 | No two sound types in the translation table share a name |
| NameLookup.FindByName | common/src/main/java/com/sonicether/soundphysics/config/ReflectivityConfig.java:43 | The lookup of a key finds a sound type whose name is the key, and finds nothing exactly when no sound type has that name |
| NameLookup.FindOfName | common/src/main/java/com/sonicether/soundphysics/config/ReflectivityConfig.java:43 | Looking up the name of a sound type gives back that sound type |
| NameLookup.FindResolvesOnly | common/src/main/java/com/sonicether/soundphysics/config/ReflectivityConfig.java:43 | A key resolves to a sound type if and only if the key is that sound type's name |
| NameLookup.FindAgreesWithIndex | common/src/main/java/com/sonicether/soundphysics/config/ReflectivityConfig.java:43 | The scan of the table and the explicit reverse index give the same answer for every key, including no match |
| NameLookup.FindFirst | common/src/main/java/com/sonicether/soundphysics/config/ReflectivityConfig.java:43 | The first entry of an enumeration whose name is the key: its result has that name, and it is empty when no listed entry has it |
| NameLookup.FindFirstAnyOrder | common/src/main/java/com/sonicether/soundphysics/config/ReflectivityConfig.java:43 | For every enumeration order of the table, the first match is the unique sound type with that name, so the iteration order of the table does not matter |
| Config.ReflectivityConfig.CreateDefaultMap | common/src/main/java/com/sonicether/soundphysics/config/ReflectivityConfig.java:77-115 | The loop that puts the default for every table key, followed by the 30 built-in puts in source order, builds exactly the default map |
| ReflectivityLaws.DefaultsContents | common/src/main/java/com/sonicether/soundphysics/config/ReflectivityConfig.java:77-115 | The default map has exactly the table's key set. Each category with a built-in constant (such as STONE 1.5, COPPER 1.25, WOOL 0.1, NETHERRACK 1.1, GLASS 0.75 or SNOW 0.15) has that constant, and every other category has the configured default |
| ReflectivityLaws.MergeNothing | common/src/main/java/com/sonicether/soundphysics/config/ReflectivityConfig.java:32-34 | With no stored entries, load leaves the map it started from |
| ReflectivityLaws.MergeValidEntry | common/src/main/java/com/sonicether/soundphysics/config/ReflectivityConfig.java:37-49 | An entry whose value parses and whose key names a sound type sets exactly that sound type to the parsed value |
| ReflectivityLaws.MergeIgnoredEntry | common/src/main/java/com/sonicether/soundphysics/config/ReflectivityConfig.java:37-47 | An entry whose value does not parse, or whose key names no sound type, changes nothing |
| ReflectivityLaws.MergedKeys | common/src/main/java/com/sonicether/soundphysics/config/ReflectivityConfig.java:32-50 | Starting from a map over exactly the table keys, load never adds or removes a key |
| ReflectivityLaws.LoadedCoefficient | common/src/main/java/com/sonicether/soundphysics/config/ReflectivityConfig.java:32-50 | After load, a category's coefficient is its parsed stored value if present, otherwise its built-in constant, otherwise the configured default |
| ReflectivityLaws.ToleranceScenario | common/src/main/java/com/sonicether/soundphysics/config/ReflectivityConfig.java:28-51 | A file with STONE=2.0, NOT_A_CATEGORY=3.0 and WOOL=notanumber loads as the defaults with only STONE changed to 2.0, and WOOL keeps 0.1 |
| ReflectivityLaws.UnknownCategory | common/src/main/java/com/sonicether/soundphysics/config/ReflectivityConfig.java:43-46 | The key NOT_A_CATEGORY resolves to no sound type, so it is skipped |
| Config.ReflectivityConfig.Load | common/src/main/java/com/sonicether/soundphysics/config/ReflectivityConfig.java:28-51 | The loop over the stored entries leaves the map equal to the defaults merged with exactly the valid entries, over exactly the table keys, whatever it held before, and the stored properties unchanged |
| ReflectivityLaws.SerializedAt | common/src/main/java/com/sonicether/soundphysics/config/ReflectivityConfig.java:55-59 | A category's name is a saved key if and only if the category is in the map, and then it holds the category's rendered coefficient |
| ReflectivityLaws.SerializedEntries | common/src/main/java/com/sonicether/soundphysics/config/ReflectivityConfig.java:55-59 | Every category of the map is saved under its name with its rendered value, and every saved key names a category of the map (no stale entries) |
| ReflectivityLaws.SerializeStep | common/src/main/java/com/sonicether/soundphysics/config/ReflectivityConfig.java:57-59 | Saving one more category adds exactly its one entry |
| ReflectivityLaws.SerializedSize | common/src/main/java/com/sonicether/soundphysics/config/ReflectivityConfig.java:55-59 | The saved properties have exactly as many entries as the map has categories |
| Config.ReflectivityConfig.SaveSync | common/src/main/java/com/sonicether/soundphysics/config/ReflectivityConfig.java:53-62 | Clearing the properties and putting every map entry leaves exactly the serialized map, with the coefficient map untouched |
| ReflectivityLaws.SuppliedBySerialized | common/src/main/java/com/sonicether/soundphysics/config/ReflectivityConfig.java:38-58 | When parsing inverts rendering on the saved coefficients, the saved properties supply exactly the saved coefficient of each saved category and nothing for the others |
| ReflectivityLaws.RoundTrip | common/src/main/java/com/sonicether/soundphysics/config/ReflectivityConfig.java:32-58 | When parsing inverts rendering on the saved coefficients, loading what save wrote over any base gives the base overridden by the saved map |
| Config.ReflectivityConfig.SaveThenLoad | common/src/main/java/com/sonicether/soundphysics/config/ReflectivityConfig.java:28-62 | When parsing inverts rendering on the held coefficients, save followed by load of what it wrote gives back the same coefficient map, and the properties hold its serialization |
| Config.ReflectivityConfig.constructor | common/src/main/java/com/sonicether/soundphysics/config/ReflectivityConfig.java:23-26 | After construction, the map is the loaded merge of the stored file over the defaults, with exactly the table keys, and the properties are its serialization |
| Config.ReflectivityConfig.GetReflectivity | common/src/main/java/com/sonicether/soundphysics/config/ReflectivityConfig.java:68-70 | The held coefficient of the category if there is one, otherwise the supplied default, and always the held one when the map covers the table |
| Config.ReflectivityConfig.SetReflectivity | common/src/main/java/com/sonicether/soundphysics/config/ReflectivityConfig.java:72-75 | Sets exactly the one category, leaves the properties alone, keeps the key set exact, returns the same object, and afterwards getReflectivity reports the new value for it and the old value for every other category |
| ReflectivityLaws.LookupAfterUpdate | common/src/main/java/com/sonicether/soundphysics/config/ReflectivityConfig.java:68-75 | After a put, the lookup of that category gives the new value, and the lookup of any other category gives what it gave before |
| NameComponent.GetNameComponent | common/src/main/java/com/sonicether/soundphysics/config/ReflectivityConfig.java:205-216 | The display text of a sound type is the display of its canonical name, including the failure on an empty word |
| NameComponent.DisplayText | common/src/main/java/com/sonicether/soundphysics/config/ReflectivityConfig.java:206-215 | The StringBuilder loop over the split words yields the trimmed rendering of the words, or fails at the first empty word |
| NameComponent.RenderedStep | common/src/main/java/com/sonicether/soundphysics/config/ReflectivityConfig.java:209-211 | Appending one word's first character, its lower-cased rest and a space extends the rendering by exactly that word |
| NameComponent.Split | common/src/main/java/com/sonicether/soundphysics/config/ReflectivityConfig.java:207 | String.split on one character: the whole string when the separator does not occur, otherwise separator-free pieces with no trailing empty one |
| NameComponent.LowerRoot | common/src/main/java/com/sonicether/soundphysics/config/ReflectivityConfig.java:211 | toLowerCase in the root locale keeps the length and lower-cases each character in place |
| NameComponent.Trim | common/src/main/java/com/sonicether/soundphysics/config/ReflectivityConfig.java:215 | trim never lengthens the text, leaves it starting and ending with a visible character or empty, gives empty text for all-blank input, and leaves text that already starts and ends visibly unchanged |
| NameComponentLaws.JoinFields | common/src/main/java/com/sonicether/soundphysics/config/ReflectivityConfig.java:207 | Joining the fields of a string with the separator gives the string back |
| NameComponentLaws.FieldsOfJoin | common/src/main/java/com/sonicether/soundphysics/config/ReflectivityConfig.java:207 | Splitting the join of separator-free words into fields gives the words back |
| NameComponentLaws.SplitOfJoin | common/src/main/java/com/sonicether/soundphysics/config/ReflectivityConfig.java:207 | String.split on "_" gives back the non-empty, underscore-free words of a name in order |
| NameComponentLaws.TrailingSeparatorIgnored | common/src/main/java/com/sonicether/soundphysics/config/ReflectivityConfig.java:207 | A trailing underscore on a non-empty name changes nothing, because split drops trailing empty fields |
| NameComponentLaws.RenderedJoin | common/src/main/java/com/sonicether/soundphysics/config/ReflectivityConfig.java:208-212 | After a non-empty run of words, the builder holds their displays joined by single spaces plus one space |
| NameComponentLaws.TrimRendered | common/src/main/java/com/sonicether/soundphysics/config/ReflectivityConfig.java:215 | trim removes exactly the trailing space of the builder when the words are visible |
| NameComponentLaws.DisplayOfJoin | common/src/main/java/com/sonicether/soundphysics/config/ReflectivityConfig.java:205-216 | For non-empty visible words without underscores, the display of their underscore join is each word's first character plus its lower-cased rest, joined by single spaces with no trailing space |
| NameComponentLaws.FieldsOfCanonical | common/src/main/java/com/sonicether/soundphysics/config/ReflectivityConfig.java:207 | The fields of letters and single underscores not ending in one are non-empty after the first, the first is empty exactly on a leading underscore, and all hold only letters |
| NameComponentLaws.DisplayOfCanonical | common/src/main/java/com/sonicether/soundphysics/config/ReflectivityConfig.java:205-216 | A canonical name splits into its underscore fields, none empty, and displays as their word displays joined by single spaces |
| NameComponentLaws.AllNamesDisplay | common/src/main/java/com/sonicether/soundphysics/config/ReflectivityConfig.java:117-216 | getNameComponent never fails: the display of every table name is a success |
| NameComponentLaws.DisplayOfEmptyWord | common/src/main/java/com/sonicether/soundphysics/config/ReflectivityConfig.java:207-209 | An empty word before the last non-empty one (a leading or doubled underscore) makes charAt(0) fail |
| NameComponentLaws.DisplayOfEmptyName | common/src/main/java/com/sonicether/soundphysics/config/ReflectivityConfig.java:207-209 | The empty name fails, because split returns it as a single empty word |
| NameComponentLaws.DisplayNetherGoldOre | common/src/main/java/com/sonicether/soundphysics/config/ReflectivityConfig.java:205-216 | NETHER_GOLD_ORE is displayed as "Nether Gold Ore" |
| NameComponentLaws.DisplayStone | common/src/main/java/com/sonicether/soundphysics/config/ReflectivityConfig.java:205-216 | STONE is displayed as "Stone" |

## Left out

- File input and output belong to the configuration library's `PropertyConfig`, which is not part of this model. This covers `super.load()` reading the file, `super.saveSync()` writing it, and the `save()` the constructor calls. The properties read are the parameter `stored`, and the properties written are the `properties` field. An `IOException` from reading the file is not modelled.
- The constructor assumes that the library's constructor reads the file and runs `load`, and that `save()` ends in `saveSync`. Neither is visible in this source.
- The two warnings `load` logs for skipped entries are left out, because logging has no effect on state.
- `getReflectivities` is left out. It hands out the live map, and aliasing through that reference is not modelled.
- Coefficients are Java doubles, modelled as reals. `Double.parseDouble` and `String.valueOf` are the parameters `parse` and `show`. Rounding, NaN and the infinities are not modelled.
- The round trip (`SuppliedBySerialized`, `RoundTrip`, `SaveThenLoad`) takes as a hypothesis that `parse` inverts `show` on the coefficients being saved. For Java doubles, `Double.parseDouble(String.valueOf(d))` gives back `d` for every double, NaN included under `Double.equals`; the model's reals have no NaN, so the hypothesis excludes nothing.
- The configured default coefficient is read from a global setting in the source and is the parameter `dflt` here. It is read once per call, where the source reads it for each key.
- `SoundType` covers only the 76 sound types in the translation table. A sound type outside it would have no name (`getName` returns null), which the model cannot express.
- SetReflectivity: covers only sound types in the translation table. Putting a sound type from outside the table into the map is not modelled.
- GetReflectivity: reports the default only for a table sound type missing from the map. Asking about a sound type from outside the table is not modelled.
- `HashMap` iteration order is unspecified. The loops take the keys in an arbitrary order chosen by the verifier, so their results are proved for every order.
- `TextComponent` is modelled as the string it wraps.
- `LowerRoot` lower-cases only the ASCII letters A to Z. The root-locale lower-casing of other characters is not modelled; the table's names are ASCII.
