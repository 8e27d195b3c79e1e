# hcor, modelled in Dafny

`hcor` is the shared game logic of Hackagotchi, a farming and pet game played
over Slack. A player (a *steader*) owns a *hackstead*: a profile with xp, a
plot of land made of tiles, and an inventory of items. Plants grow on tiles,
collect xp and buffs, and craft. Items can hold a gotchi (a pet) or be seeds.
A YAML configuration describes every plant, item, skill, effect, recipe and
loot table. It is read, merged and then *verified*, which replaces every name
with a handle and collects a stack of error contexts on the way.

The source is mid-refactor. Several of its files are different generations of
the same types, and each is modelled on its own terms:

- three plant types: `Plants`, `TilePlants` and `LegacyPlants`;
- two item types: `HacksteadItems` and `Items`;
- an older ownership model: `Possessions`.

The global `CONFIG` becomes explicit parameters: the plant and possession
archetype lists of `Archetypes`, and the `RawConfig` of `ConfigVerify`.
Fresh identifiers (`Uuid::new_v4`) are parameters too. The random draws of
loot tables are nondeterministic choices.

Modules, one per source file, in dependency order:

| module | source |
|---|---|
| `Wrappers`, `Seqs`, `Uuids`, `Confs` | `Option`/`Result` and the iterator adaptors used throughout |
| `Levels` | src/config/mod.rs |
| `Evalputs`, `EvalputVerify` | src/config/evalput.rs |
| `ComplexOutputs` | src/config.rs |
| `RawConfigData`, `ConfigVerify` | src/config/verify/mod.rs and the `Raw*` types |
| `PlantFilterRecipe`, `Plants` | src/hackstead/tile/plant/mod.rs |
| `Buffs`, `BuffBooks` | src/hackstead/tile/plant/buff.rs |
| `Effects`, `Skills`, `Recipes`, `Timers` | effect.rs, skill.rs, recipe.rs and timer.rs under src/hackstead/tile/plant |
| `Hacksteads` | src/hackstead/mod.rs |
| `LegacyPlants` | src/hackstead/plant.rs |
| `TilePlants` | src/hackstead/tile/plant.rs |
| `HacksteadItems` | src/hackstead/item/mod.rs |
| `Items` | src/item/mod.rs and src/item/seed.rs |
| `Possessions` | src/possess/mod.rs, gotchi.rs and seed.rs |
| `Identifiers`, `LegacyUserIds`, `UserContacts` | src/id.rs, src/user_id.rs, src/user_contact.rs |
| `Frontend` | src/lib.rs |
| `ConfigParse` | the pure parts of src/config/parse.rs |
| `Archetypes` | the handle lookups on the older configuration that items, possessions and plants call |

Where the source changes state in place, the model does too:

- `max_level_info` is a method with a loop;
- `Evalput::eval` and `ComplexOutput::compile` are methods that update an output object;
- `BuffSum::new` is a loop;
- `BuffBook::spread_neighbors` is a class whose pages and knife are updated in place;
- `Plant::take_effect` and the older `Plant::increase_xp` are methods on plant objects.

Each of these is proved against a specification function. The properties of
that function are proved as lemmas.

## Model

| member | source | states |
|---|---|---|
| `Levels.MaxLevelInfo` | src/config/mod.rs:49-79 | The result describes `yourXp`: `lastUnlockedIndex <= |levelXps|`; the thresholds before it sum to at most the xp; the next one would exceed it, compared strictly as `checked_sub` does. When a level is unreached, `xpSoFar + xpToGo == totalLevelXp == levelXps[index]`, and `xpToGo` (the xp inside the level, as the source names it) is below the threshold, which is positive. All three are 0 when every level is passed. |
| `Levels.MaxLevelIndex` | src/config/mod.rs:81-83 | The index is at most the level count. The thresholds before it sum to at most the xp. If it is below the count, adding the next threshold exceeds the xp. |
| `Levels.DescribesUnique` | src/config/mod.rs:49-79 | At most one `LevelInfo` describes a given xp, so the loop's result is determined by its specification. |
| `Levels.PassedLevelsCovered` | src/config/mod.rs:59-69 | Each threshold before the reached level is at most the xp. A zero threshold is therefore always passed. |
| `Levels.Config.ItemNamed` | src/config/mod.rs:92-94 | Some exactly when some item has exactly that name, and then an item of the config with that name. |
| `Levels.Config.WelcomeGifts` | src/config/mod.rs:96-98 | Exactly the config's items marked `welcome_gift`. |
| `Levels.Config.Seeds` | src/config/mod.rs:100-102 | Exactly the pairs (plant, item) where the item grows into that plant. |
| `Levels.Config.LandUnlockers` | src/config/mod.rs:112-116 | Exactly the pairs (unlock, item) where the item unlocks land with that record. |
| `Evalputs.MapItemShape` | src/config/evalput.rs:70-86 | `map_item` keeps the tree's shape: every constructor, weight, repeat count, chance and xp amount. |
| `Evalputs.MapItemLeaves` | src/config/evalput.rs:70-86 | `map_item` maps the item leaves one by one, left to right. |
| `Evalputs.OkOrItemSpec` | src/config/evalput.rs:88-110 | `ok_or_item` is Ok exactly when the callback succeeds on every leaf. On Ok it keeps the shape and puts the callback's results at the leaves, in order. Otherwise it returns the error of the leftmost failing leaf. |
| `Evalputs.Output.constructor` | src/config/evalput.rs:15-22 | A new output has no xp and no items. |
| `Evalputs.Eval` | src/config/evalput.rs:112-144 | Evaluation never lowers xp. It only appends items, each of them a leaf of the tree. For a tree of `All` and `Item` nodes it appends exactly the leaves, left to right, and leaves xp unchanged. |
| `Evalputs.EvalAll` | src/config/evalput.rs:116-120 | `All` evaluates its children in list order, with the same guarantees as `Eval`. |
| `Evalputs.Evaluated` | src/config/evalput.rs:64-68 | Starts from an empty output; every item is a leaf of the tree; for a tree of `All` and `Item` nodes the items are the leaves and xp is 0. |
| `EvalputVerify.NotedOkOrItem` | src/config/evalput.rs:26-31 | `ok_or_item` followed by `Verify::verify`'s note keeps the shape and leaves, and pushes the context onto the leftmost failure. |
| `EvalputVerify.VerifyEvalput` | src/config/evalput.rs:26-46 | Ok exactly when `item_conf` knows every item name. On Ok the shape is kept and each leaf is resolved in place. Otherwise the error is the leftmost unknown name's, noted with the root node's name. |
| `ComplexOutputs.MapItemShape` | src/config.rs:35-46 | `map_item` keeps the structure and every non-item parameter. |
| `ComplexOutputs.MapItemItems` | src/config.rs:35-46 | Mapping the payloads maps the compiled items one by one and leaves the compiled xp alone. |
| `ComplexOutputs.TimesCount` | src/config.rs:67-71 | `Times(n, body)` yields `n` copies of the body's items in a row: its k-th item is the body's item at k modulo the body's item count. The xp is `n` times the body's. `Times(0, _)` yields nothing. |
| `ComplexOutputs.ItemsAllAppend` | src/config.rs:52-56 | The items and the xp of a list of children are those of its parts, concatenated and summed. |
| `ComplexOutputs.CompiledOutput.constructor` | src/config.rs:9-16 | A new compiled output has xp 0 and no items. |
| `ComplexOutputs.Compile` | src/config.rs:48-80 | Compilation never lowers xp and keeps every earlier item as a prefix. For a tree without `OneOf`/`Chance` it appends exactly the flattened leaves (each `Times` body repeated) and adds the sum of the `Xp` leaves, each weighted by its enclosing `Times`. |
| `ComplexOutputs.CompileAll` | src/config.rs:52-56 | `All` compiles its children in list order, with the same guarantees as `Compile`. |
| `ComplexOutputs.Compiled` | src/config.rs:29-33 | Starting from an empty output, a tree without random nodes compiles to exactly its items and its xp. |
| `ConfigVerify.NewError` | src/config/verify/mod.rs:181-186 | A new error has the given kind and no context. |
| `ConfigVerify.CustomError` | src/config/verify/mod.rs:177-179 | A custom error carries its message and no context. |
| `ConfigVerify.Note` | src/config/verify/mod.rs:210-217 | An Ok result is left unchanged. An error keeps its kind and gets exactly the given context appended to its sources. |
| `ConfigVerify.Verified` | src/config/verify/mod.rs:226-234 | `Verify::verify` never changes whether the result is Ok, nor an Ok value. On an error it pushes the value's own context (when there is one) after everything `verify_raw` pushed. |
| `ConfigVerify.VerifyVec` | src/config/verify/mod.rs:237-252 | Ok exactly when every element verifies, with the results in input order. Otherwise the error is the first failing element's, and a list adds no context. |
| `ConfigVerify.VerifyOption` | src/config/verify/mod.rs:254-264 | None verifies to `Ok(None)`. `Some(v)` verifies as `v` does, wrapped in `Some`. |
| `RawConfigData.FromFile.Map` | src/config/verify/mod.rs:278-283 | Keeps the file and applies the function to the inner value. |
| `ConfigVerify.VerifyFromFile` | src/config/verify/mod.rs:297-307 | Verifies as the inner value does. An error also gets "from a file <file>" pushed as its last context. |
| `ConfigVerify.ItemConfOf` | src/config/verify/mod.rs:77-85 | Ok exactly when some item has that name, and then the handle of the first such item. Otherwise `UnknownItem` with that name, with no context. |
| `ConfigVerify.PlantConfOf` | src/config/verify/mod.rs:107-115 | Ok exactly when some plant has that name, and then the handle of the first such plant. Otherwise `UnknownPlant`, with no context. |
| `ConfigVerify.PlantOf` | src/config/verify/mod.rs:117-119 | The first plant with that handle; the source panics when there is none, so one is required. |
| `ConfigVerify.PlantSkillConfOf` | src/config/verify/mod.rs:87-105 | Ok exactly when the plant has a skill with that title, and then `skill::Conf(plant conf, that skill's conf)` of the first such skill. Otherwise `UnknownPlantSkill`. |
| `ConfigVerify.NotedCollect` | src/config/verify/mod.rs:240-251 | Collecting verified elements and then noting gives every result in order, or the first failure with the note pushed. |
| `ConfigVerify.VerifiesAsOk` | src/config/verify/mod.rs:240-251 | Such a result is Ok exactly when every element verifies. |
| `ConfigVerify.KindDisplay` | src/config/verify/mod.rs:129-170 | A custom kind prints its message. Every other kind prints a non-empty question ending in "?". |
| `ConfigVerify.ContextLines` | src/config/verify/mod.rs:188-202 | One line per pushed context, most recently pushed first, each as "> ctx". |
| `ConfigVerify.NoteShownFirst` | src/config/verify/mod.rs:188-217 | A noted context is printed above every context pushed before it. |
| `ConfigVerify.DisplayNew` | src/config/verify/mod.rs:181-202 | An error fresh from `new` prints the header, no context lines, then its kind. |
| `Buffs.VerifyRecipes` | src/hackstead/tile/plant/buff.rs:54-71 | A `Craft` buff's recipes verify exactly when each one does, with the results in order. |
| `Buffs.VerifyBuffRaw` | src/hackstead/tile/plant/buff.rs:54-71 | Ok exactly when every name inside the buff is known. The result has the same variant and the same numbers and art, with a `Neighbor`'s inner buff verified recursively and each evalput or recipe resolved in order. |
| `Buffs.VerifyBuff` | src/hackstead/tile/plant/buff.rs:54-92 | As `VerifyBuffRaw`. An error's last context is the buff's own context. |
| `Buffs.NewBuffSum` | src/hackstead/tile/plant/buff.rs:131-186 | None (the panic) exactly when no buff is an `Art` buff. Otherwise the art is the specification's choice, `yields` is `All` of the `Yield` buffs' evalputs in buff order, and the recipes are every `Craft` buff's recipes, concatenated in buff order. |
| `Buffs.ArtOfSome` | src/hackstead/tile/plant/buff.rs:163-176 | Art is chosen exactly when some buff supplies it. The choice is an `Art` buff of maximal precedence, and no later `Art` buff has the same precedence: ties go to the later buff (`>=`). |
| `Buffs.ArtOfBound` | src/hackstead/tile/plant/buff.rs:163-176 | No `Art` buff has a higher precedence than the chosen one. |
| `Buffs.ArtFromAppend` | src/hackstead/tile/plant/buff.rs:131-186 | The art choice is a left fold over the buffs. |
| `Buffs.SumsAppend` | src/hackstead/tile/plant/buff.rs:157-159 | The yields and recipes of two runs of buffs are those of each run, concatenated. |
| `Buffs.NeighborIgnored` | src/hackstead/tile/plant/buff.rs:150 | Removing a `Neighbor` buff changes none of the results of `BuffSum::new`. |
| `BuffBooks.NeighborsBelowSpec` | src/hackstead/tile/plant/buff.rs:279-288 | `indexed_buffs` (filtered to `Neighbor`) yields exactly the page's `Neighbor` buffs. Each entry is a position within its own page, carrying its source and the page's tile, and the positions strictly increase. |
| `BuffBooks.EntryOrigins` | src/hackstead/tile/plant/buff.rs:249-259 | Every knife entry points at a `Neighbor` buff on the page whose tile it records. |
| `BuffBooks.EmptyKnife` | src/hackstead/tile/plant/buff.rs:249-259 | The knife is empty exactly when no page holds a `Neighbor` buff. |
| `BuffBooks.PageStep` | src/hackstead/tile/plant/buff.rs:261-273 | One knife entry panics on a page exactly when that page is its own and the recorded position is past the end. |
| `BuffBooks.OffTileAppends` | src/hackstead/tile/plant/buff.rs:266-271 | Entries from other tiles only append their wrapped buffs, with `Source::Neighbor`, in order. |
| `BuffBooks.Round` | src/hackstead/tile/plant/buff.rs:261-273 | A round succeeds exactly when no page panics, and then gives each page the result of running the whole knife on it. |
| `BuffBooks.RoundShrinks` | src/hackstead/tile/plant/buff.rs:246-277 | A round that does not panic keeps every page's tile and strictly lowers the deepest `Neighbor` nesting in the book. This is why the recursion ends. |
| `BuffBooks.SpreadClears` | src/hackstead/tile/plant/buff.rs:246-277 | When `spread_neighbors` returns, no page holds a `Neighbor` buff and every page keeps its tile. |
| `BuffBooks.SpreadIdempotent` | src/hackstead/tile/plant/buff.rs:246-277 | A book with no `Neighbor` buff is left unchanged, so spreading twice is spreading once. |
| `BuffBooks.PanicPersists` | src/hackstead/tile/plant/buff.rs:261-273 | Once a page has panicked, the rest of the knife cannot undo it. |
| `BuffBooks.BuffBook.CollectPage` | src/hackstead/tile/plant/buff.rs:249-259 | One page's `Neighbor` entries are pushed onto the knife; the pages are unchanged. |
| `BuffBooks.BuffBook.CollectNeighbors` | src/hackstead/tile/plant/buff.rs:249-259 | The first loop pushes every page's `Neighbor` entries onto the knife, page by page; the pages are unchanged. |
| `BuffBooks.BuffBook.ApplyKnife` | src/hackstead/tile/plant/buff.rs:261-273 | The drain leaves the knife empty. It reports success exactly when the specification's round does not panic, and the pages are then that round's result. |
| `BuffBooks.BuffBook.SpreadNeighbors` | src/hackstead/tile/plant/buff.rs:246-277 | Reports success exactly when the specification `Spread` does not panic. The pages are then its result and the knife is empty. |
| `BuffBooks.TwoNeighborsPanic` | src/hackstead/tile/plant/buff.rs:262-265 | As written, one page holding two `Neighbor` buffs panics: the second recorded position is stale after the first `swap_remove`. |
| `BuffBooks.SpreadReversedClears` | src/hackstead/tile/plant/buff.rs:246-277 | With the knife drained back to front, spreading never panics, keeps every tile and ends with no `Neighbor` buff anywhere. |
| `BuffBooks.PageSplitsAll` | src/hackstead/tile/plant/buff.rs:249-259 | A page's buffs, counted with multiplicity, are its non-`Neighbor` buffs together with the `Neighbor` buffs its knife entries stand for. |
| `BuffBooks.OwnRemovalsTake` | src/hackstead/tile/plant/buff.rs:262-265 | A page's own entries taken from the highest position down never panic, and together they take away exactly the `Neighbor` buffs they stand for. |
| `BuffBooks.PageDelivered` | src/hackstead/tile/plant/buff.rs:261-273 | With the knife drained back to front, a page does not panic. Counted with multiplicity, it ends with its non-`Neighbor` buffs plus one pushed buff, with `Source::Neighbor`, for each knife entry from every other page. |
| `BuffBooks.RoundDelivers` | src/hackstead/tile/plant/buff.rs:246-277 | The corrected round delivers. Every page loses exactly its `Neighbor` buffs and gains, once each, the buff pushed by every `Neighbor` buff of every other page. |
| `Plants.VerifyPlantSkills` | src/hackstead/tile/plant/mod.rs:65-91 | The skills verify in order, one per raw skill. Otherwise the error is the first failing skill's, noted with the skills file. |
| `Plants.VerifyPlant` | src/hackstead/tile/plant/mod.rs:65-96 | Ok exactly when every skill verifies. It keeps the name, yield duration and `skillpoint_unlock_xps`, with one verified skill per raw skill, in order. The first failing skill's error is noted with the skills file, then with the plant's name. |
| `Plants.PlantErrorNoted` | src/hackstead/tile/plant/mod.rs:93-95 | The plant's context is pushed after the skills file's on the first failing skill's error. |
| `Plants.DefaultSkillsVerify` | src/hackstead/tile/plant/mod.rs:49-55 | A plant without a skills file verifies, to a plant with no skills. |
| `Plants.Plant.FromConf` | src/hackstead/tile/plant/mod.rs:114-126 | xp 0, `lifetime_rubs` 0, no craft, no effects, no unlocked skills. The nickname is the conf's name, and the owner, tile and conf come from the arguments. |
| `Plants.Plant.Position` | src/hackstead/tile/plant/mod.rs:154-166 | The position of the first effect with the id, or None when no effect has it. |
| `Plants.Plant.Effect` | src/hackstead/tile/plant/mod.rs:128-139 | Ok exactly when some effect has the id, and then the first such effect. Otherwise `NoSuchEffectOnPlant(owner, tile, id)`. |
| `Plants.Plant.EffectMut` | src/hackstead/tile/plant/mod.rs:141-152 | The slot it designates holds exactly what `effect` finds, and it fails exactly when `effect` does. |
| `Plants.Plant.TakeEffect` | src/hackstead/tile/plant/mod.rs:154-166 | Returns what `effect` finds. On success the effect list is `swap_remove` at that position, one copy of the effect fewer. On a missing id it is unchanged. Every other field is unchanged. |
| `Plants.TakenIdGone` | src/hackstead/tile/plant/mod.rs:154-166 | Taking an effect out of a list with distinct ids keeps them distinct and leaves no effect with that id. |
| `PlantFilterRecipe.Allows` | src/hackstead/tile/plant/mod.rs:233-243 | `Only` holds exactly when the conf is listed, `Not` exactly when it is not, and `All` always. |
| `PlantFilterRecipe.DefaultFilter` | src/hackstead/tile/plant/mod.rs:197-201 | The default filter is `All` and allows every plant. |
| `RawConfigData.DefaultRawFilter` | src/hackstead/tile/plant/mod.rs:185-190 | The default raw filter is `All`. |
| `PlantFilterRecipe.VerifyFilter` | src/hackstead/tile/plant/mod.rs:204-231 | Keeps the variant and resolves each listed name in order. Otherwise the error is the first unknown name's, noted with the filter's context. |
| `PlantFilterRecipe.VerifyNeeds` | src/hackstead/tile/plant/mod.rs:279-283 | Each count is kept at its position and each item is resolved. Otherwise the first unknown item's error is noted "in what the recipe needs". |
| `PlantFilterRecipe.VerifyRecipe` | src/hackstead/tile/plant/mod.rs:274-298 | Ok exactly when the needs, the art and every item made are known. Title, explanation, `destroys_plant` and time are copied, and needs are kept in order. |
| `PlantFilterRecipe.RecipeErrorNoted` | src/hackstead/tile/plant/mod.rs:274-298 | A failure is the first one in field order (needs, art, makes), noted with its field and then with the recipe's context. |
| `Recipes.VerifyRecipe` | src/hackstead/tile/plant/recipe.rs:49-74 | Like `PlantFilterRecipe.VerifyRecipe`, and the recipe's own `conf` is copied too. |
| `Recipes.RecipeErrorNoted` | src/hackstead/tile/plant/recipe.rs:49-74 | Like `PlantFilterRecipe.RecipeErrorNoted`; the recipe's context is "in a recipe named …". |
| `Effects.ConfigKind.BuffOf` | src/hackstead/tile/plant/effect.rs:73-79 | Some exactly when the kind is `Buff`, and then its buff. |
| `Effects.Excerpt` | src/hackstead/tile/plant/effect.rs:113-118 | The first `min(20, len)` characters of the description. |
| `Effects.KindOf` | src/hackstead/tile/plant/effect.rs:97-106 | Ok exactly when exactly one of a buff and a transmogrification is given, with the kind following that field. Giving both, or neither, yields the source's custom error. |
| `Effects.VerifyEffect` | src/hackstead/tile/plant/effect.rs:83-119 | Ok exactly when the plant name is known, the buff verifies, exactly one of buff and transmogrification is given, and the filter verifies. Description and duration are then copied. An unknown plant is noted "in the transmogrification field". Each failure, in that order, ends with the effect's context. |
| `Skills.Shorthand` | src/hackstead/tile/plant/skill.rs:160-169 | A bare skill name is an unlock of that skill costing one point, never hidden. |
| `Skills.EmptyCostVerifies` | src/hackstead/tile/plant/skill.rs:47-51 | `RawCost::empty` verifies on every plant to the empty cost. |
| `Skills.PointsCostVerifies` | src/hackstead/tile/plant/skill.rs:52-57 | `RawCost::points(n)` verifies on every plant to a cost of n points and nothing else. |
| `Skills.ResolveSkills` | src/hackstead/tile/plant/skill.rs:75-79 | Skill titles are resolved on the same plant, in order. Otherwise the first unknown title's `UnknownPlantSkill`. |
| `Skills.ResolveItems` | src/hackstead/tile/plant/skill.rs:80-84 | Counted item names are resolved in order, keeping the counts. Otherwise the first unknown name's `UnknownItem`. |
| `Skills.VerifyCost` | src/hackstead/tile/plant/skill.rs:68-92 | Ok exactly when every skill title is on the plant and every item is known. Points are copied, and skills and items are resolved in order. An unknown skill wins over an unknown item, and either is noted with the cost's context. |
| `Skills.VerifyUnlock` | src/hackstead/tile/plant/skill.rs:112-140 | Ok exactly when the target skill exists on the same plant and both costs verify. Source skill and index are kept. The failures are, in order: unknown target, bad hiding cost, bad cost. Each is noted with the unlock's context. |
| `Skills.ShorthandVerifies` | src/hackstead/tile/plant/skill.rs:112-169 | A bare skill name verifies exactly when the plant has that skill. The result then costs one point and hides behind nothing. |
| `Skills.VerifyEffects` | src/hackstead/tile/plant/skill.rs:249-256 | A skill's effects verify in order. Otherwise the error is the first failing effect's. |
| `Skills.VerifyUnlocks` | src/hackstead/tile/plant/skill.rs:257-270 | The k-th unlock is verified with index k and this skill as its source. Otherwise the error is the first failure's. |
| `Skills.VerifySkill` | src/hackstead/tile/plant/skill.rs:246-276 | Ok exactly when every effect and every unlock verifies. The title is kept, and the k-th unlock gets index k and `Conf(plant, skill)` as its source. |
| `Skills.SkillErrorNoted` | src/hackstead/tile/plant/skill.rs:246-276 | A failing effect wins over a failing unlock. Either error is the first failure's, with the skill's context pushed. |
| `Timers.Lifecycle.IsPerennial` | src/hackstead/tile/plant/timer.rs:21-23 | True exactly for `Perennial`. |
| `Timers.Lifecycle.IsAnnual` | src/hackstead/tile/plant/timer.rs:25-27 | True exactly for `Annual`. |
| `Timers.ExactlyOneLifecycle` | src/hackstead/tile/plant/timer.rs:13-28 | Exactly one of the two holds for every lifecycle. |
| `Timers.PerennialWhateverDuration` | src/hackstead/tile/plant/timer.rs:21-23 | Being perennial does not depend on the duration. |
| `Hacksteads.NewProfile` | src/hackstead/mod.rs:224-234 | The given steader and slack ids, xp 0, no extra land plots. |
| `Hacksteads.Empty` | src/hackstead/mod.rs:31-37 | No land, no inventory, and a new profile keeping the slack id. |
| `Hacksteads.WelcomeInventoryOk` | src/hackstead/mod.rs:42-48 | The `expect` never fires: every welcome gift becomes an item, one per gift, in order. |
| `Hacksteads.NewUser` | src/hackstead/mod.rs:39-52 | A new profile and exactly one empty tile owned by the new steader. The inventory has one item per welcome gift, in configuration order, each owned by the steader, of that gift's archetype, and logged as spawned (`Trade`) at owner index 0. |
| `Hacksteads.NewUserLand` | src/hackstead/mod.rs:39-52 | A new user's only tile is open, and they have no plants. |
| `Hacksteads.AsUsize` | src/hackstead/mod.rs:58 | An `i32` cast to `usize`: non-negative values are kept and negative ones wrap by 2^64. |
| `Hacksteads.LandUnlockEligible` | src/hackstead/mod.rs:55-61 | For a non-negative total, eligible exactly when the land is smaller than `xp_allows + extra_land_plot_count`. |
| `Hacksteads.NegativeTotalEligible` | src/hackstead/mod.rs:55-61 | A negative total wraps under the cast, and every hackstead is then eligible. |
| `Hacksteads.OpenTiles` | src/hackstead/mod.rs:64-66 | Exactly the tiles without a plant. |
| `Hacksteads.Plants` | src/hackstead/mod.rs:68-70 | Exactly the plants of the occupied tiles. |
| `Hacksteads.QueriesKeepOrder` | src/hackstead/mod.rs:64-70 | Both queries keep land order: on joined land they give the joined answers. |
| `Hacksteads.OpenTilesAndPlantsCount` | src/hackstead/mod.rs:64-70 | Open tiles and plants together number the tiles of the land. |
| `Hacksteads.ItemById` | src/hackstead/mod.rs:80-83 | The first inventory item with that id: every earlier item has another id. None exactly when no item has it. |
| `Hacksteads.TileById` | src/hackstead/mod.rs:85-88 | The first tile of the land with that id: every earlier tile has another id. None exactly when no tile has it. |
| `Hacksteads.PlantById` | src/hackstead/mod.rs:90-93 | The first plant, in land order, on a tile with that id: every earlier plant is on another tile. None exactly when no plant is. |
| `Hacksteads.HasIff` | src/hackstead/mod.rs:136-146 | `has_item`, `has_tile` and `has_plant` hold exactly when a matching id exists in the inventory, the land or the plants. |
| `LegacyPlants.Plant.FromSeed` | src/hackstead/plant.rs:60-68 | The plant archetype the seed grows into, with the seed's pedigree. No xp, craft, effects or queued bonus. `until_yield` is the base yield duration, or 0 when there is none. |
| `LegacyPlants.Plant.Archetype` | src/hackstead/plant.rs:49-58 | The plant archetype at the plant's handle. |
| `LegacyPlants.Plant.IncreaseXp` | src/hackstead/plant.rs:141-150 | The queued bonus is added to the amount and reset to 0, and xp grows by the total. Nothing else changes. |
| `LegacyPlants.IncreaseTwice` | src/hackstead/plant.rs:141-150 | A queued bonus is paid out only once. |
| `LegacyPlants.Plant.CurrentRecipeRaw` | src/hackstead/plant.rs:152-156 | None whenever there is no craft. Otherwise the recipe at the craft's handle. |
| `LegacyPlants.GetRecipeRaw` | src/hackstead/plant.rs:162-170 | None exactly when the handle is out of range. Otherwise that recipe. |
| `LegacyPlants.CurrentRecipeInRange` | src/hackstead/plant.rs:152-170 | A crafting plant has a current recipe exactly when its recipe handle is in range. |
| `LegacyPlants.EffectArchetype` | src/hackstead/plant.rs:198-207 | An effect dereferences to the archetype of the item used up. |
| `TilePlants.FromSeed` | src/hackstead/tile/plant.rs:67-86 | Fails with `UnknownPlantName` exactly when no plant archetype has the seed's `grows_into` name. On success: the tile id given, xp 0, no craft, no effects, queued bonus 0, the archetype's name as nickname, its base yield duration (or 0) until it yields, and the first matching handle. |
| `TilePlants.FromSeedArchetype` | src/hackstead/tile/plant.rs:56-86 | A plant grown from a seed dereferences to an archetype named as the seed grows into. |
| `TilePlants.ArchetypeOf` | src/hackstead/tile/plant.rs:56-65 | A plant dereferences to the plant archetype at its handle. |
| `TilePlants.EffectArchetype` | src/hackstead/tile/plant.rs:106-115 | An effect dereferences to the archetype of the item used up. |
| `HacksteadItems.Spawned` | src/hackstead/item/mod.rs:27-29 | A spawned item counts as traded (code 0). |
| `HacksteadItems.TryFromUsize` | src/hackstead/item/mod.rs:30-40 | Some exactly for 0 to 3, and then the acquisition stored as that number. |
| `HacksteadItems.TryFromCode` | src/hackstead/item/mod.rs:30-40 | Decoding an acquisition's number gives it back. |
| `HacksteadItems.DisplayInjective` | src/hackstead/item/mod.rs:42-50 | Each acquisition prints its variant name, so different acquisitions print differently. |
| `HacksteadItems.NewGotchi` | src/hackstead/item/gotchi.rs:13-18 | Named after the archetype, carrying the item id. |
| `HacksteadItems.FromArchetype` | src/hackstead/item/mod.rs:142-160 | Fails exactly when the archetype is unknown. Otherwise the owner is the logged owner, the log is one entry with owner index 0 and the given acquisition, the handle is the archetype's first, and there is a gotchi exactly when the archetype has a gotchi part. |
| `HacksteadItems.FromArchetypeHandle` | src/hackstead/item/mod.rs:133-140 | Fails with `UnknownArchetypeHandle` exactly when the handle is out of range. Otherwise it is `from_archetype` of the archetype at the handle: the first equal archetype's handle, the given id and owner, a log of that owner alone at index 0, and a gotchi, named after the archetype and carrying the item's id, exactly when the archetype has a gotchi part. |
| `HacksteadItems.Nickname` | src/hackstead/item/mod.rs:162-167 | The gotchi's nickname, else the archetype's name. |
| `HacksteadItems.FreshNickname` | src/hackstead/item/mod.rs:142-167 | A fresh item is nicknamed after its archetype, with or without a gotchi. |
| `HacksteadItems.GotchiOf` | src/hackstead/item/mod.rs:169-182 | The gotchi, or `NoSuchGotchiOnItem(owner, item)` exactly when there is none. |
| `HacksteadItems.FreshGotchi` | src/hackstead/item/mod.rs:142-182 | A fresh item hands out a gotchi exactly when its archetype has a gotchi part. |
| `Items.Spawned` | src/item/mod.rs:27-29 | A spawned item counts as traded (code 0). |
| `Items.TryFromI32` | src/item/mod.rs:30-40 | Some exactly for 0 to 3; None for every other `i32`, negatives included. |
| `Items.TryFromCode` | src/item/mod.rs:30-40 | Decoding an acquisition's number gives it back. |
| `Items.DisplayInjective` | src/item/mod.rs:42-51 | Different acquisitions print differently. |
| `Items.NewGotchi` | src/item/gotchi.rs:11-16 | Carries the item id, and is named after the archetype. |
| `Items.FromArchetype` | src/item/mod.rs:129-150 | Fails exactly when the archetype is unknown. Otherwise the single log entry carries the item's id, owner index 0 and the given owner and acquisition. The gotchi, present exactly when the archetype has a gotchi part, carries the item's id. |
| `Items.FromArchetypeHandle` | src/item/mod.rs:120-127 | Fails with `UnknownArchetypeHandle(ah)` exactly when the handle is out of range. Otherwise it is `from_archetype` of the archetype at the handle: the first equal archetype's handle, the given id and owner, a log of that owner alone at index 0, and a gotchi with the item's id and the archetype's name exactly when the archetype has a gotchi part. |
| `Archetypes.ArchetypeAt` | src/item/mod.rs:159-164 | The archetype at the handle. `UnknownArchetypeHandle(ah)` exactly when the handle is out of range. |
| `Archetypes.HandleOf` | src/item/mod.rs:135 | The first handle of an equal archetype. `UnknownArchetype` exactly when there is none. |
| `Archetypes.FindPlantHandle` | src/hackstead/tile/plant.rs:68 | The first handle of a plant archetype with that name. `UnknownPlantName` exactly when there is none. |
| `Archetypes.HandleOfAt` | src/item/mod.rs:120-127 | Looking up a handle and then mapping the archetype back gives a handle no later than it, of an equal archetype, and the same one when the archetypes are distinct. |
| `Items.Nickname` | src/item/mod.rs:152-157 | The gotchi's nickname, else the archetype's name. |
| `Items.FreshNickname` | src/item/mod.rs:129-157 | A fresh item is nicknamed after its archetype. |
| `Items.NewSeed` | src/item/seed.rs:26-35 | Keeps the handle. The pedigree is exactly one entry: the owner at generation 0. |
| `Items.NewSeedGrower` | src/item/seed.rs:44-47 | Keeps the id and the generations. |
| `Items.SeedArchetypeOf` | src/item/seed.rs:11-25 | A seed dereferences to its archetype's seed part. The source panics when the handle is unknown or there is no seed part. |
| `Possessions.NewGotchi` | src/possess/gotchi.rs:46-57 | Keeps the handle and is named after the archetype. The harvest log is one entry: the owner, harvested 0. |
| `Possessions.NewSeed` | src/possess/seed.rs:46-55 | Keeps the handle. The pedigree is one entry: the owner at generation 0. |
| `Possessions.NewSeedGrower` | src/possess/seed.rs:25-29 | Keeps the id and the generations. |
| `Possessions.SeedArchetypeOf` | src/possess/seed.rs:31-45 | A seed dereferences to the seed part of its archetype. The source panics on any other kind. |
| `Possessions.NewKind` | src/possess/mod.rs:26-37 | The variant follows the archetype's kind, built by that kind's constructor. |
| `Possessions.AccessorsAgree` | src/possess/mod.rs:39-121 | Each `is_` test holds exactly when the matching accessor is Some. Exactly one test holds, and each accessor gives back what the variant holds. |
| `Possessions.GotchiPossessable` | src/possess/gotchi.rs:19-26 | `from_possession_kind` inverts `into_possession_kind`, and is None on seed and keepsake kinds. |
| `Possessions.SeedPossessable` | src/possess/seed.rs:11-18 | `from_possession_kind` inverts `into_possession_kind`, and is None on non-seed kinds. |
| `Possessions.Spawned` | src/possess/mod.rs:158-162 | A spawned possession counts as traded. |
| `Possessions.DisplayInitial` | src/possess/mod.rs:163-173 | Only a purchase prints with a leading "P" ("Purchase(<price>gp)"). |
| `Possessions.DisplayInjective` | src/possess/mod.rs:163-173 | Different acquisitions print differently, prices included. |
| `Possessions.Farmer` | src/possess/mod.rs:130-135 | Keeps the id, acquired `Farmed`. |
| `Possessions.Crafter` | src/possess/mod.rs:136-141 | Keeps the id, acquired `Crafted`. |
| `Possessions.Hatcher` | src/possess/mod.rs:142-147 | Keeps the id, acquired `Hatched`. |
| `Possessions.FromPossession` | src/possess/mod.rs:197-215 | None exactly when the kind is not `P`'s variant. Otherwise every other field is copied. |
| `Possessions.IntoPossession` | src/possess/mod.rs:216-234 | Every field is copied and the kind is wrapped back. |
| `Possessions.TryFromPossession` | src/possess/mod.rs:187-193 | Ok exactly when `from_possession` is Some. Otherwise "wrongly typed possession". |
| `Possessions.FromIntoRoundTrip` | src/possess/mod.rs:197-234 | Typing an untyped typed possession gives it back. |
| `Possessions.IntoFromRoundTrip` | src/possess/mod.rs:197-234 | When `from_possession(p)` is Some, `into_possession` of it is `p`. |
| `Possessions.NewPossession` | src/possess/mod.rs:273-282 | Keeps the handle, its steader is the owner's id, its log is exactly `[owner]`, it is not for sale, and its kind is the archetype's. |
| `Possessions.ArchetypeOf` | src/possess/mod.rs:291-296 | The archetype at the possession's handle. |
| `Possessions.Nickname` | src/possess/mod.rs:284-289 | The gotchi's nickname for a gotchi kind, else the archetype's name. |
| `Possessions.NewNickname` | src/possess/mod.rs:273-289 | A new possession is nicknamed after its archetype, whatever its kind. |
| `Possessions.NewTypes` | src/possess/mod.rs:187-282 | A new possession can be typed as a gotchi exactly when its archetype is a gotchi archetype, and as a seed exactly when it is a seed archetype. |
| `Identifiers.FromNoSuchItem` | src/id.rs:32-36 | Wraps its argument in the `Item` variant. |
| `Identifiers.FromNoSuchTile` | src/id.rs:37-41 | Wraps its argument in the `Tile` variant. |
| `Identifiers.FromNoSuchPlantOnTile` | src/id.rs:42-46 | Wraps its argument in the `Plant` variant. |
| `Identifiers.FromNoSuchEffectOnPlant` | src/id.rs:47-51 | Wraps its argument in the `Effect` variant. |
| `Identifiers.FromNoSuchGotchiOnItem` | src/id.rs:52-56 | Wraps its argument in the `Gotchi` variant. |
| `Identifiers.UserId.UuidOf` | src/id.rs:163-168 | Some exactly for `Uuid` and `Both`, and then the stored id. |
| `Identifiers.UserId.SlackOf` | src/id.rs:176-181 | Some exactly for `Slack` and `Both`, and then the stored Slack id. |
| `Identifiers.UserId.UuidOrElse` | src/id.rs:169-174 | The stored id when there is one; `f` of the Slack id otherwise. |
| `Identifiers.UserIdHasOne` | src/id.rs:150-160 | Every user id has a coined id or a Slack id. |
| `Identifiers.UuidOrElseAgrees` | src/id.rs:163-181 | `uuid_or_else` agrees with `uuid` whenever that is Some, and calls `f` only otherwise. |
| `Identifiers.Fetching` | src/id.rs:192-231 | The three unit tests hold for every steader id. |
| `Identifiers.UserIdOfSteader` | src/id.rs:276-280 | A steader is the user known by that coined id alone. |
| `LegacyUserIds.UserId.UuidOf` | src/user_id.rs:16-21 | Some exactly for `Uuid` and `Both`, and then the stored uuid. |
| `LegacyUserIds.UserId.SlackOf` | src/user_id.rs:29-34 | Some exactly for `Slack` and `Both`, and then the stored Slack id. |
| `LegacyUserIds.UserId.UuidOrElse` | src/user_id.rs:22-27 | The stored uuid when there is one; `f` of the Slack id otherwise. |
| `LegacyUserIds.UuidOrElseAgrees` | src/user_id.rs:16-27 | `uuid_or_else` agrees with `uuid` whenever that is Some. |
| `LegacyUserIds.Fetching` | src/user_id.rs:45-84 | The three unit tests hold for every uuid. |
| `UserContacts.UserContact.EmailOf` | src/user_contact.rs:14-20 | Some exactly for `Email` and `Both`, and then the stored email. |
| `UserContacts.UserContact.SlackOf` | src/user_contact.rs:22-28 | Some exactly for `Slack` and `Both`, and then the stored Slack id. |
| `UserContacts.ContactHasOne` | src/user_contact.rs:4-11 | Every contact has an email or a Slack id. |
| `UserContacts.Fetching` | src/user_contact.rs:38-77 | The three unit tests hold, `Both` returning both stored values. |
| `Frontend.ReplaceSpaces` | src/lib.rs:37 | Same length; spaces become underscores and every other character stays. |
| `Frontend.Emojify` | src/lib.rs:36-38 | Two characters longer, starts and ends with ':' and contains no space. Every non-space character sits one place further on, and each space becomes '_'. |
| `ConfigParse.TruncateLine` | src/config/parse.rs:124-129 | Lines of at most 90 characters are kept. Longer ones keep their first 90 and get "..." appended. |
| `ConfigParse.TruncateLineBounds` | src/config/parse.rs:124-129 | An excerpt line is at most 93 characters long and starts as the original does. |
| `ConfigParse.PadLeft3` | src/config/parse.rs:130 | `{:>3}`: the number right-aligned in a field at least 3 wide. |
| `ConfigParse.ExcerptLine` | src/config/parse.rs:130 | The padded 0-based line number, then a bar between two spaces, then the cut line. |
| `ConfigParse.ErrLine` | src/config/parse.rs:116-119 | 0 when the error has no location. |
| `ConfigParse.SaturatingSub` | src/config/parse.rs:132 | `saturating_sub`: the difference, or 0. |
| `ConfigParse.Excerpt` | src/config/parse.rs:130-135 | Line j of the excerpt is line `start + j`, numbered and cut, where `start = max(err_line - 10, 0)`. There are at most 20 lines. |
| `ConfigParse.ExcerptShowsErrLine` | src/config/parse.rs:130-135 | The excerpt always shows the error's line when it exists. |
| `ConfigParse.DebugName` | src/config/parse.rs:140 | `None` for no name. A name `s` is shown as `Some("` followed by `s` and then `")`. |
| `ConfigParse.DebugNameInjective` | src/config/parse.rs:140 | Different names are shown differently. |
| `ConfigParse.ParseErrorMessage` | src/config/parse.rs:112-141 | The message is the name line (`\nname: `, the name as `{:?}` shows it, a newline), then the excerpt's lines joined by newlines, then `\nerr: `, the error and a newline, each at its own place. |
| `ConfigParse.ParseErrorShowsErrLine` | src/config/parse.rs:115-140 | When the error's line exists, the message contains that line, numbered and cut, as a run of characters. |
| `ConfigParse.NameOf` | src/config/parse.rs:136-139 | The `name` field if present, else the `title` field, in each case only when it is a string. |
| `ConfigParse.NonStringNameHidesTitle` | src/config/parse.rs:136-139 | A `name` that is not a string hides a string `title`. |
| `ConfigParse.YmlFiles` | src/config/parse.rs:83-87 | Exactly the paths with extension "yml" or "yaml". |
| `ConfigParse.SkillsFileName` | src/config/parse.rs:34 | The stem followed by "_skills.yml". |
| `ConfigParse.AttachSkills` | src/config/parse.rs:66-70 | A plant file with skills of its own is rejected. Otherwise the plant gets the skills read from the skills file, noted with that file, and is itself noted with its own file. |

## Left out

- Network and I/O:
  - src/client.rs, src/wormhole and every async client method: network I/O and concurrency.
  - The `CONFIG` lazy static: it is passed in as a parameter (the archetype lists, the `RawConfig`).
  - File reading, walkdir, serde_yaml and YAML merging in src/config/parse.rs (`read_items`, `read_plants`, `parse_and_merge_vec`, `yaml_and_verify`) and the binaries: I/O. Only the pure steps are modelled.
- Randomness and floating point:
  - `OneOf`, `Chance`, `Repeats::eval`, and the amount an `Xp` node draws: random draws, modelled as nondeterministic choices. Only their effect on the output (append-only, xp never lower) is stated.
  - The floating-point fields of `BuffSum` (multipliers, `xp_per_tick`, extra time ticks): floating point. `f32`/`f64` fields elsewhere are `real`s that are only copied.
  - `Uuid::new_v4` and `Utc::now`: fresh ids are parameters, and timestamps (acquisition times, profile times) are left out.
- Not modelled in src/config:
  - `RawConfig::verify` of the whole configuration (src/config/verify/mod.rs:63-75) and `Config::recipes` (src/config/mod.rs:104-110): they iterate over types this model does not carry (item configuration bodies, the advancement tables).
  - The ngrammatic suggestion corpora: an external fuzzy search, given as opaque functions from the misspelt name to the proposals.
- Not modelled in the hackstead modules:
  - `BuffBook::new` and the per-plant `BuffSum`s it keeps: it reads `Plant::buffs` of the whole hackstead, outside this core. `BuffBook` has only its pages and its knife.
  - The advancement queries of src/hackstead/plant.rs and of `Profile`: they read advancement tables of the configuration that are not modelled. `land_unlock_eligible` takes the advancement sum's `land` as a parameter.
  - `Tile::new`, src/item/gotchi.rs and src/hackstead/item/gotchi.rs: thin constructors. They are modelled only by the fields their callers read.
- Mismatches in the source:
  - src/possess/keepsake.rs is not part of this model. `Keepsake` stands for its handle and first owner.
  - src/hackstead/mod.rs passes `profile.steader_id` (a `Uuid`) where items expect a `SteaderId`. The model wraps it.
  - src/hackstead/mod.rs compares `base.item_id` on items that have a plain `item_id`. The model compares `itemId`.
  - src/hackstead/tile/plant/mod.rs speaks of `Effect` and `EffectId`, which effect.rs names `RubEffect` and `RubEffectId`. The model uses the latter.
  - The plant `RawConfig` has no `conf` field, yet src/config/verify/mod.rs reads `p.conf` on it. The model adds the field.
  - Plant verification calls a `Verify` impl for `(skills, corpus, raw skill)` that is not in the source. The model uses the `(plant::Conf, RawSkill)` impl of skill.rs, wrapped in the skills file.
  - src/hackstead/item/mod.rs:153 calls `Gotchi::new(ah)` with one argument, but src/hackstead/item/gotchi.rs:13 takes the handle and the item. `HacksteadItems.FromArchetype` passes the new item's id as that second argument.
  - The conflict in src/id.rs:12-17 is resolved to the `Effect`/`Gotchi` side, which the `From` impls and `Display` use.
- Panics taken as preconditions. Where the source unwraps or indexes and would panic, the model requires the case that does not panic:
  - `ConfigVerify.PlantOf`: requires `HasPlant`, the plant with that handle being in the configuration. The `unwrap` at src/config/verify/mod.rs:117-119 panics otherwise.
  - `ConfigVerify.PlantSkillConfOf`: requires `HasPlant`, because it reads the plant through `PlantOf`.
  - `Plants.VerifyPlantSkills`: requires `HasPlant` for the plant being verified, because its skills are resolved through `PlantOf`.
  - `Plants.VerifyPlant`: requires `HasPlant(raw, rp.conf)`. Verifying the plants of a configuration always meets this, since each plant is one of them.
  - `Plants.PlantErrorNoted`: requires `HasPlant`, as `Plants.VerifyPlant` does.
  - `Plants.DefaultSkillsVerify`: requires `HasPlant`, as `Plants.VerifyPlant` does.
  - `Skills.VerifySkill`: requires `HasPlant` for the skill's plant. The lookup of a skill title on its own plant goes through `PlantOf`.
  - `Skills.ResolveSkills`: requires `HasPlant`, as `Skills.VerifySkill` does.
  - `Skills.VerifyCost`: requires `HasPlant`, as `Skills.VerifySkill` does.
  - `Skills.VerifyUnlock`: requires `HasPlant`, as `Skills.VerifySkill` does.
  - `Skills.VerifyUnlocks`: requires `HasPlant`, as `Skills.VerifySkill` does.
  - `Skills.SkillErrorNoted`: requires `HasPlant`, as `Skills.VerifySkill` does.
  - `Skills.EmptyCostVerifies`: requires `HasPlant`, as `Skills.VerifySkill` does.
  - `Skills.PointsCostVerifies`: requires `HasPlant`, as `Skills.VerifySkill` does.
  - `Skills.ShorthandVerifies`: requires `HasPlant`, as `Skills.VerifySkill` does.
  - `Plants.Plant.FromConf`: requires `conf.handle` to index the plant list. The source indexes it and would panic otherwise.
  - `LegacyPlants.Plant.FromSeed`: requires the seed's archetype to exist and have a seed part, and `find_plant_handle` to succeed. The source unwraps both (src/hackstead/plant.rs:62).
  - `LegacyPlants.Plant.Archetype`: requires the plant's handle to be in range. The source's `expect` panics otherwise.
  - `LegacyPlants.Plant.IncreaseXp`: requires the plant's handle to be in range, for the same `expect`.
  - `LegacyPlants.EffectArchetype`: requires the effect's item handle to be in range. The source unwraps the lookup.
  - `TilePlants.EffectArchetype`: requires the effect's item handle to be in range. The source unwraps the lookup.
  - `TilePlants.ArchetypeOf`: requires the plant's handle to be in range. The source unwraps the lookup.
  - `Items.NewGotchi`: requires the archetype handle to be in range. `Gotchi::new` unwraps the lookup.
  - `HacksteadItems.NewGotchi`: requires the archetype handle to be in range. `Gotchi::new` unwraps the lookup.
  - `Items.Nickname`: requires a gotchi or an in-range handle. The source unwraps the archetype lookup.
  - `HacksteadItems.Nickname`: requires a gotchi or an in-range handle. The source unwraps the archetype lookup.
  - `Items.SeedArchetypeOf`: requires an in-range handle whose archetype has a seed part. The source unwraps both.
  - `Possessions.NewKind`: requires the archetype handle to be in range. The source unwraps the lookup.
  - `Possessions.ArchetypeOf`: requires the possession's handle to be in range. The source unwraps the lookup.
  - `Possessions.Nickname`: requires a gotchi kind or an in-range handle. The source unwraps the archetype lookup.
  - `Possessions.SeedArchetypeOf`: requires an in-range handle of seed kind. The source unwraps both.
- Neighbor buffs:
  - `BuffBooks.BuffBook.SpreadNeighbors`: requires the pages' tiles to be distinct. src/hackstead/tile/plant/buff.rs:246-277 does not check this. With two pages on one tile, the model does not say whether spreading ends.
  - `BuffBooks.Spread`: requires the pages' tiles to be distinct, for the same reason. The measure that shows termination needs each knife entry to act on exactly one page.
- Machine integers:
  - `Evalputs.Eval`: xp is an unbounded natural. The `usize` addition at src/config/evalput.rs:141 would wrap in release builds, and then "never lowers xp" would be false of the source.
  - `ComplexOutputs.Compile`: xp is an unbounded natural, and `Times` adds `n` copies of the body's xp. The `usize` addition at src/config.rs:77 would wrap in release builds, and then "never lowers xp" and the exact total would be false of the source.
  - `Levels.MaxLevelInfo`: xp and thresholds are unbounded naturals. `u64` overflow is not modelled.
  - `LegacyPlants.Plant.IncreaseXp`: the configuration's `increase_xp` is not part of this model. It is taken to add the amount to xp, the level-advancement result is not returned, and `u64` overflow is not modelled.
  - `Hacksteads.LandUnlockEligible`: the `i32` addition is required not to overflow. The source would panic in debug builds and wrap in release builds.
- Character and byte handling:
  - `ConfigParse.TruncateLine`: lines are cut at 90 characters, not 90 bytes. The source panics on a multi-byte character straddling byte 90.
  - `Effects.Excerpt`: the first 20 characters, not bytes. The same panic applies.
  - `ConfigParse.DebugName`: `{:?}` escaping of quotes and control characters inside the name is not modelled.
- Skills:
  - `Skills.VerifySkill`: the `config_verify`-feature panic of dereferencing a skill `Conf` is not modelled. The verified skill is built from the raw skill directly.
- `Repeats::eval` rounds `Just(n)` up to n+1. It is a random draw here, and its rounding is not modelled.

## Findings

| source | as written | input that shows it | evidently intended | confidence | as-written member | corrected member |
|---|---|---|---|---|---|---|
| src/hackstead/tile/plant/buff.rs:262-265 | The knife holds each `Neighbor` buff's position within its page, recorded before any removal. They are `swap_remove`d in increasing order, so after the first removal a later recorded position can be past the end. | A book whose first page is `[Neighbor(x), Neighbor(y)]`: removing position 0 moves `Neighbor(y)` to position 0, and position 1 no longer exists, so `swap_remove(1)` panics. | Every `Neighbor` buff leaves its page and spreads, without a panic. Draining the knife back to front does this, because each page then removes its positions from the highest down. Each such round also delivers every `Neighbor` buff, once, to every other page (`BuffBooks.RoundDelivers`). | medium, not executed | `BuffBooks.TwoNeighborsPanic` | `BuffBooks.SpreadReversedClears` |
