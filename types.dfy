/** The entities the description-enrichment pass reads and writes, and the
    errors the mod raises as exceptions. */
module Types {

  datatype Option<+T> = None | Some(value: T)

  /** Why a build fails: the configuration was never loaded (the mod throws a
      NullReferenceException), or two traders list the same loyalty-level item
      id (merging the loyalty tables with Dictionary.Add throws). */
  datatype EttError = NullConfig | DuplicateLoyaltyItem

  datatype Result<+T> = Ok(value: T) | Err(error: EttError)

  datatype Outcome = Pass | Fail(error: EttError)

  /** One quest objective: an optional list of alternative key groups, each
      group an optional list of key item ids (null lists are skipped). */
  datatype QuestObjective = QuestObjective(requiredKeys: Option<seq<Option<seq<string>>>>)

  /** Static reference data for one quest. */
  datatype QuestInfo = QuestInfo(
    id: string,
    kappaRequired: bool,
    lightkeeperRequired: bool,
    questObjectives: seq<QuestObjective>)

  /** Static gunsmith data for one quest: the part template ids, in order. */
  datatype GunsmithInfo = GunsmithInfo(requiredParts: seq<string>)

  /** The mod configuration: whether the lore text comes first. */
  datatype EttConfig = EttConfig(displayAfterLore: bool)

  /** A prerequisite condition of a quest; `target` is `Target.Item`, None
      when either the target or its item is null. */
  datatype Condition = Condition(conditionType: string, target: Option<string>)

  /** A quest of the game database, keyed by `id`; `availableForStart` is
      None when the database holds null there. */
  datatype Quest = Quest(id: string, availableForStart: Option<seq<Condition>>)

  /** One stack a trader sells: its instance id and its item template. */
  datatype AssortItem = AssortItem(id: string, template: string)

  /** A trader's assortment: the sold stacks and the map from stack instance
      id to required loyalty level; either may be null. */
  datatype Assort = Assort(items: Option<seq<AssortItem>>, loyalLevelItems: Option<map<string, int>>)

  /** A trader of the game database, keyed by `id`; a null trader and a null
      assortment are both `assort == None`. */
  datatype Trader = Trader(id: string, assort: Option<Assort>)

  /** What the host services expose to the pass: the locale table of the
      server's desired language and the quest and trader databases in their
      iteration order. */
  datatype Host = Host(desiredLocale: map<string, string>, quests: seq<Quest>, traders: seq<Trader>)
}
