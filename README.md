# ExpandedTaskText description enrichment, modelled in Dafny

ExpandedTaskText is a server mod. It rewrites the description of every known quest into an enriched text that contains:

- whether the quest is a prerequisite of the two meta quests (Kappa and Lightkeeper);
- the keys its objectives need;
- the quests that list it as a start prerequisite;
- for gunsmith quests, the required parts and the traders that sell them at which loyalty level;
- the original lore, placed before or after the generated part.

The text is built once per quest, from the server's desired locale. It is memoised in a description cache, which persists across runs, and written into every global locale table.

The model follows the mod's single class, `ExpandedTaskText/ExpandedTaskText.cs`.

- `types.dfy` has the entities the pass reads: quest info, gunsmith info, config, quests with their start conditions, traders with their assorts and loyalty tables. It also has the host data snapshot, and the two exceptions the code can raise as error values.
- `text.dfy` has the locale lookup, the composite locale keys, `string.Join`, string-builder concatenation and the decimal rendering of an `int`.
- `keys.dfy`, `next_quests.dfy` and `gunsmith.dfy` hold the three list-building helpers. Each is a loop method, proved equal to a pure specification function, with lemmas about that function.
- `description.dfy` has the builder of one description.
- `pass.dfy` specifies the pass as functions: one UpdateTaskText call, one quest over every table, and the whole quest list. It proves the cache properties.
- `enricher.dfy` holds the class with its mutable fields: loaded quest info, gunsmith info, config and the description cache. Its methods `UpdateTaskText`, `UpdateAllTaskText` and `OnLoad` write into an array of locale tables, and each is proved to follow the pass functions.

Where the mod's behaviour is surprising, the model follows the code as written:

- **Key de-duplication does not happen.** The guard checks the bare key name against a list that holds `"\n\t" + name` entries (lines 202 and 206). A name repeated by two keys is therefore listed twice. The guard only fires for an empty name, or for a name that itself equals an earlier stored entry. The model keeps this guard exactly. `ListedKeysNoDedup`, `RepeatedKeyNameListedTwice` and `GuardSkipsNameEqualToEntry` state its effect. This is not de-duplication by display name.
- **A cache miss writes null.** `UpdateTaskText` stores the freshly built text only in the cache. The locale table gets the value `TryGetValue` produced, which is null on a miss (lines 91-101). Within one pass, the first global table therefore gets null for an uncached quest. Every later table gets the built text, because the lookup now hits. Locale values are `Option<string>`, and `None` is that null.
- **Two traders listing the same item id throw.** `Dictionary.Add` raises this (line 235). A missing config throws too (lines 107-110). An exception leaves the pass where it happened, and the cache file is not written. The model returns `Err`/`Fail` and keeps the state reached at that point.

## Model

| member | source | states |
|---|---|---|
| Text.GetLocale | ExpandedTaskText/ExpandedTaskText.cs:283-295 | a present key yields the table's text, a missing key the empty string |
| Text.DescriptionKeyInjective | ExpandedTaskText/ExpandedTaskText.cs:71-74 | distinct quest ids have distinct `"<id> description"` keys; RunPassDescribedEntry uses this to show no quest writes another's entry |
| Text.IntToStringRoundTrip | ExpandedTaskText/ExpandedTaskText.cs:274 | the loyalty level rendered in a purchase line reads back as that level, negative levels included |
| RequiredKeys.GetKeyInfoForQuest | ExpandedTaskText/ExpandedTaskText.cs:181-224 | the three nested loops produce KeyInfoText: entries in objective, group, key order, null key lists and null groups skipped, header or "无需钥匙" |
| RequiredKeys.ScanKeyGroup | ExpandedTaskText/ExpandedTaskText.cs:199-207 | the innermost loop extends the listed entries exactly as the guard and append of one key group do |
| RequiredKeys.ScanObjective | ExpandedTaskText/ExpandedTaskText.cs:192-208 | the middle loop extends the listed entries with the keys of every non-null group in order |
| RequiredKeys.KeyInfoTextCases | ExpandedTaskText/ExpandedTaskText.cs:211-223 | the block is exactly "无需钥匙" iff no scanned key has a non-empty name, otherwise "所需钥匙:" plus the ", "-join of the entries |
| RequiredKeys.ListedKeysEmptyIff | ExpandedTaskText/ExpandedTaskText.cs:199-207 | no entry is listed iff every scanned key's name is empty |
| RequiredKeys.ListedKeysSound | ExpandedTaskText/ExpandedTaskText.cs:199-207 | every entry is `"\n\t"` plus the non-empty name of a scanned key; empty names are never listed |
| RequiredKeys.AllEntriesPrefixed | ExpandedTaskText/ExpandedTaskText.cs:206 | every stored entry starts with `"\n\t"` |
| RequiredKeys.ListedKeysNoDedup | ExpandedTaskText/ExpandedTaskText.cs:199-207 | when no name starts with `"\n\t"`, the guard never skips a non-empty name: one entry per key with a name, repeats included |
| RequiredKeys.RepeatedKeyNameListedTwice | ExpandedTaskText/ExpandedTaskText.cs:202-206 | two keys with the same display name are both listed |
| RequiredKeys.GuardSkipsNameEqualToEntry | ExpandedTaskText/ExpandedTaskText.cs:202-206 | the guard does skip a name equal to an earlier stored entry |
| NextQuests.GetNextQuests | ExpandedTaskText/ExpandedTaskText.cs:144-179 | the nested loops produce NextQuestsText: one entry per matching condition, in quest-database order |
| NextQuests.ScanConditions | ExpandedTaskText/ExpandedTaskText.cs:158-170 | the inner loop appends one entry per condition of type "Quest" whose target is the current quest; null targets add nothing |
| NextQuests.NextQuestsTextCases | ExpandedTaskText/ExpandedTaskText.cs:173-178 | the block is exactly "无后续任务" iff no quest has a start condition on the quest, otherwise "后续任务:" plus the ", "-join of the entries |
| NextQuests.NextEntriesEmptyIff | ExpandedTaskText/ExpandedTaskText.cs:149-171 | there are no entries iff no quest has a "Quest" start condition targeting the id; quests with no condition list contribute nothing |
| NextQuests.NextEntriesSound | ExpandedTaskText/ExpandedTaskText.cs:149-171 | every entry is the name of a quest that has a start condition on the id |
| NextQuests.NextEntriesComplete | ExpandedTaskText/ExpandedTaskText.cs:149-171 | every quest with a start condition on the id is listed |
| NextQuests.NextEntriesAppend | ExpandedTaskText/ExpandedTaskText.cs:149-171 | database order is kept: earlier quests' entries come before later quests' |
| NextQuests.ConditionEntriesEmptyIff | ExpandedTaskText/ExpandedTaskText.cs:158-170 | a quest adds no entry iff none of its conditions is a "Quest" condition on the id |
| NextQuests.ConditionEntriesAll | ExpandedTaskText/ExpandedTaskText.cs:165-169 | every entry one quest adds is that quest's own name entry |
| NextQuests.ConditionEntriesSingle | ExpandedTaskText/ExpandedTaskText.cs:160-169 | one condition adds the quest's entry exactly when it is a "Quest" condition whose target is the id, and nothing otherwise, a null target included |
| NextQuests.ConditionEntriesAppend | ExpandedTaskText/ExpandedTaskText.cs:158-170 | a quest's entries are those of each of its conditions in turn: one entry per matching condition, repeats kept |
| NextQuests.QuestListedOncePerCondition | ExpandedTaskText/ExpandedTaskText.cs:158-170 | a quest with two matching conditions is listed twice |
| Gunsmith.GetAllTraderLoyalLevelItems | ExpandedTaskText/ExpandedTaskText.cs:226-240 | the loop over traders produces LoyaltyUnion, including the failure of `Dictionary.Add` on a repeated id |
| Gunsmith.AddLoyalLevelItems | ExpandedTaskText/ExpandedTaskText.cs:233-236 | one trader's table is added entry by entry, failing iff one of its ids is already present |
| Gunsmith.LoyaltyUnionOkIff | ExpandedTaskText/ExpandedTaskText.cs:226-240 | the merge succeeds iff no two traders share an item id; its keys are then every trader's ids, and traders without an assort or loyalty table add none |
| Gunsmith.LoyaltyUnionKeys | ExpandedTaskText/ExpandedTaskText.cs:231-237 | a successful merge holds exactly the item ids some trader lists |
| Gunsmith.LoyaltyUnionValues | ExpandedTaskText/ExpandedTaskText.cs:233-236 | each merged id keeps the level its trader lists |
| Gunsmith.LoyaltyUnionErrSticky | ExpandedTaskText/ExpandedTaskText.cs:235 | a failure among the first traders makes the whole merge fail |
| Gunsmith.LoyaltyUnionErrIsDuplicate | ExpandedTaskText/ExpandedTaskText.cs:235 | the only failure of the merge is the duplicate-id error |
| Gunsmith.GetGunsmithPartsList | ExpandedTaskText/ExpandedTaskText.cs:242-281 | the nested loops produce GunsmithPartsText: the durability line, then per part its name line and its purchase lines |
| Gunsmith.AppendPartBlock | ExpandedTaskText/ExpandedTaskText.cs:253-277 | one part's name line followed by every trader's purchase lines for it, trader by trader |
| Gunsmith.AppendItemOffers | ExpandedTaskText/ExpandedTaskText.cs:264-276 | one purchase line per stack whose template is the part and whose id has a loyalty level |
| Gunsmith.GunsmithPartsTextCases | ExpandedTaskText/ExpandedTaskText.cs:244-249 | the list exists iff no item id is shared by two traders, fails only with the duplicate error, opens with "最低耐久度要求: 60", and is only that line without parts |
| Gunsmith.OffersSound | ExpandedTaskText/ExpandedTaskText.cs:255-277 | every purchase line names a trader with items that sells the part and the level of that stack |
| Gunsmith.OffersComplete | ExpandedTaskText/ExpandedTaskText.cs:255-277 | every stack of the part with a loyalty level yields a purchase line |
| Gunsmith.OffersAppend | ExpandedTaskText/ExpandedTaskText.cs:255-277 | the lines of a part are each trader's lines in trader order, concatenated with no de-duplication across traders |
| Gunsmith.OffersSingle | ExpandedTaskText/ExpandedTaskText.cs:257-262 | one trader contributes exactly its own stacks' lines, none without an assort or items |
| Gunsmith.ItemOffersAppend | ExpandedTaskText/ExpandedTaskText.cs:264-276 | one trader's lines are those of its stacks in order, identical lines kept |
| Gunsmith.ItemOffersSingle | ExpandedTaskText/ExpandedTaskText.cs:266-275 | a stack yields one line exactly when its template is the part and its id has a loyalty level, and none otherwise |
| Gunsmith.TwoStacksListedTwice | ExpandedTaskText/ExpandedTaskText.cs:264-276 | two stacks of the part at the same level give two identical purchase lines |
| Gunsmith.ItemOffersSound | ExpandedTaskText/ExpandedTaskText.cs:264-276 | every line of one trader comes from a matching stack with a known level |
| Gunsmith.ItemOffersComplete | ExpandedTaskText/ExpandedTaskText.cs:264-276 | every matching stack of one trader yields its line |
| Gunsmith.PartBlocksAppend | ExpandedTaskText/ExpandedTaskText.cs:251-253 | parts are listed in their given order |
| Gunsmith.ScenarioOnePart | ExpandedTaskText/ExpandedTaskText.cs:242-281 | one part sold by one trader at level 2 gives the durability line, the part name and "\n\tMechanic 可购买 (LL2)" |
| Description.BuildNewDescription | ExpandedTaskText/ExpandedTaskText.cs:104-142 | the builder produces NewDescription |
| Description.NewDescriptionFails | ExpandedTaskText/ExpandedTaskText.cs:107-110 | building fails iff the config is null or the quest has a gunsmith entry and two traders share a loyalty item; a null config fails with the null-config error |
| Description.NewDescriptionLayout | ExpandedTaskText/ExpandedTaskText.cs:111-141 | the original text opens the result when lore is shown first and ends it otherwise; the generated part starts with the Kappa and Lightkeeper lines and is the keys, next-quests and gunsmith blocks each followed by "\n\n", the gunsmith block present iff the quest has an entry |
| Description.ScenarioKeys | ExpandedTaskText/ExpandedTaskText.cs:181-224 | a quest needing key K1 named "Red Keycard" gets "所需钥匙:\n\tRed Keycard" |
| Description.ScenarioNext | ExpandedTaskText/ExpandedTaskText.cs:144-179 | a quest that Q2 requires gets "后续任务:\n\tQ2's name" |
| Description.ScenarioLoreLast | ExpandedTaskText/ExpandedTaskText.cs:104-142 | a Kappa but not Lightkeeper quest with one key and one follow-up quest and no gunsmith entry, lore last: the blocks in their fixed order, then the lore |
| TaskTextPass.QuestUpdateClosedForm | ExpandedTaskText/ExpandedTaskText.cs:89-102 | per quest: a cached quest writes its cached text to every table; an uncached one is built once, writes null to the first table and the built text to the rest; a failing build writes nothing |
| TaskTextPass.RunPassKeepsCache | ExpandedTaskText/ExpandedTaskText.cs:91-94 | an existing cache entry is never recomputed or overwritten, even by a pass that stops at an exception |
| TaskTextPass.RunPassCacheKeys | ExpandedTaskText/ExpandedTaskText.cs:69-87 | after a completed pass the cache holds the old entries plus every quest that has a description in the desired locale (given one table at least); quests without one are skipped |
| TaskTextPass.QuestUpdateCache | ExpandedTaskText/ExpandedTaskText.cs:91-94 | a quest that completes over at least one table leaves a cached entry as it was; on a miss the build succeeded and its text is added under the quest's id |
| TaskTextPass.RunPassCacheValues | ExpandedTaskText/ExpandedTaskText.cs:72-93 | after a completed pass with at least one table, a quest not cached before holds the description built from its desired-locale text at its first described entry; later entries with the same id leave it alone |
| TaskTextPass.RunPassDescribedEntry | ExpandedTaskText/ExpandedTaskText.cs:69-102 | after a completed pass, each described quest's key holds its final cached text in every table. The exception is the first table, which keeps null when the quest was uncached and listed once |
| TaskTextPass.RunPassOtherKeys | ExpandedTaskText/ExpandedTaskText.cs:96-101 | every key that is no described quest's description key keeps its presence and value in every table, even when the pass stops at an exception |
| TaskTextPass.RunPassNoTables | ExpandedTaskText/ExpandedTaskText.cs:80-83 | without global tables the pass builds nothing, cannot fail and changes nothing |
| TaskTextPass.RunPassAllCached | ExpandedTaskText/ExpandedTaskText.cs:69-102 | when every described quest is cached, the pass cannot fail, leaves the cache unchanged and gives every table the same cached texts |
| TaskTextPass.SecondRunReusesCache | ExpandedTaskText/ExpandedTaskText.cs:89-101 | a pass from the cache a completed pass left builds nothing and reuses the first run's texts, even after the config or gunsmith data change |
| TaskTextPass.QuestUpdateFailSticky | ExpandedTaskText/ExpandedTaskText.cs:80-83 | an exception on one table ends the quest's loop there |
| TaskTextPass.RunPassFailSticky | ExpandedTaskText/ExpandedTaskText.cs:71-86 | an exception on one quest ends the pass there |
| Enricher.ExpandedTaskText.constructor | ExpandedTaskText/ExpandedTaskText.cs:26-31 | no data loaded and an empty cache |
| Enricher.ExpandedTaskText.UpdateTaskText | ExpandedTaskText/ExpandedTaskText.cs:89-102 | the cache and the tables change as TableUpdate says: the cached text on a hit, or the built text cached and null written on a miss |
| Enricher.ExpandedTaskText.UpdateQuest | ExpandedTaskText/ExpandedTaskText.cs:80-83 | the loop over global tables follows QuestUpdate |
| Enricher.ExpandedTaskText.UpdateAllTaskText | ExpandedTaskText/ExpandedTaskText.cs:69-87 | the loop over quest infos, which skips quests without a description, follows RunPass |
| Enricher.ExpandedTaskText.OnLoad | ExpandedTaskText/ExpandedTaskText.cs:33-67 | a cache file replaces the cache; the loaded files become the fields; the pass runs; the cache is written back iff the pass completes |
| Enricher.TwoLoads | ExpandedTaskText/ExpandedTaskText.cs:33-67 | a second load that reads back the cache the first wrote produces the same cache file |

## Left out

- File reads and writes, the `File.Exists` check, JSON (de)serialisation, the stopwatch and the log messages in `OnLoad` are not modelled. Each file is an input taken as already parsed, and `None` stands for a file that parses to null. The written cache is the output.
- A cache file that deserialises to null, which would make the next cache lookup throw, is not modelled.
- The `logger.Error` calls for a quest without a description (line 76) and for a missing locale key (line 289) are not modelled; they have no effect on the result.
- A quest whose `Conditions` is null would throw at line 151. The model's quests always have conditions and cannot express that exception.
- `async`/`Task` plumbing is not modelled. It has no effect on the result.
- `LazyLoad.AddTransformer` defers the write until the table is loaded. The model writes at once, with the value captured at the call.
- The host services are replaced by a `Host` value, with item and quest ids as strings compared by equality:
  - `localeService.GetLocaleDb` becomes the desired-locale map;
  - `databaseService.GetQuests` becomes a sequence in iteration order;
  - `databaseService.GetTraders` becomes a sequence in iteration order;
  - the global locale collection becomes an array of tables in iteration order.
- The identifier `ch` that `OnLoad` assigns as the desired locale code is not modelled. The model takes the desired locale's table as an input.
- The unused `mongoId` parameter of `GetGunsmithPartsList` is not modelled.
- A null trader is folded into a trader with no assort.
- Quest objectives, required parts, key ids and condition lists inside non-null collections are taken as non-null.
- Gunsmith.AddLoyalLevelItems: the order in which one trader's loyalty items are added is left open. Only whether a duplicate exists matters to the result, and the duplicate error does not carry the offending id.
- `ExpandedTaskText/EttMetadata.cs` is not part of this model. It holds mod metadata and a resource path, with no logic.
