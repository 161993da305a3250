/** The description builder: the enriched text of one quest, assembled from
    the meta-quest lines, the keys block, the follow-up block and the optional
    gunsmith block around the original lore text. */
module Description {
  import opened Types
  import opened Text
  import opened RequiredKeys
  import opened NextQuests
  import opened Gunsmith

  /** The blank line that closes each generated block. */
  const Separator := "\n\n"

  function KappaLine(required: bool): string
  {
    if required then "此任务是 收藏家 的前置任务\n" else "此任务不是 收藏家 的前置任务\n"
  }

  function LightkeeperLine(required: bool): string
  {
    if required then "此任务是 Lightkeeper 的前置任务\n" else "此任务不是 Lightkeeper 的前置任务\n"
  }

  /** `_gunsmithInfos?.TryGetValue(id, ...) ?? false`. */
  predicate HasGunsmith(gunsmiths: Option<map<string, GunsmithInfo>>, id: string)
  {
    gunsmiths.Some? && id in gunsmiths.value
  }

  /** The blocks every quest gets, in their fixed order. */
  function CommonBlocks(host: Host, info: QuestInfo): string
  {
    KappaLine(info.kappaRequired) + LightkeeperLine(info.lightkeeperRequired)
    + KeyInfoText(host.desiredLocale, info) + Separator
    + NextQuestsText(host.desiredLocale, host.quests, info.id) + Separator
  }

  /** The gunsmith block with its separator, empty for a quest without one. */
  function GunsmithBlock(host: Host, gunsmiths: Option<map<string, GunsmithInfo>>, id: string): Result<string>
  {
    if HasGunsmith(gunsmiths, id) then
      match GunsmithPartsText(host.desiredLocale, host.traders, gunsmiths.value[id])
      case Err(e) => Err(e)
      case Ok(text) => Ok(text + Separator)
    else Ok("")
  }

  /** The enriched description, or why building it fails. */
  function NewDescription(host: Host, config: Option<EttConfig>, gunsmiths: Option<map<string, GunsmithInfo>>,
                          info: QuestInfo, original: string): Result<string>
  {
    match config
    case None => Err(NullConfig)
    case Some(cfg) =>
      match GunsmithBlock(host, gunsmiths, info.id)
      case Err(e) => Err(e)
      case Ok(gunsmithBlock) =>
        var generated := CommonBlocks(host, info) + gunsmithBlock;
        Ok(if cfg.displayAfterLore then original + generated else generated + original)
  }


  lemma AppendAssoc4(a: string, b: string, c: string, d: string)
    ensures ((a + b) + c) + d == a + (b + (c + d))
  {
  }

  lemma Regroup(lore: string, k: string, l: string, keys: string, sep: string, next: string)
    ensures (((((lore + k) + l) + keys) + sep) + next) + sep
         == lore + (((((k + l) + keys) + sep) + next) + sep)
  {
  }

  /** Appends the lore (when shown first), the meta lines, the keys and
      follow-up blocks, the optional gunsmith block and the lore (when shown
      last) to one builder, proved to produce NewDescription. */
  method BuildNewDescription(host: Host, config: Option<EttConfig>, gunsmiths: Option<map<string, GunsmithInfo>>,
                             info: QuestInfo, originalDescription: string)
    returns (r: Result<string>)
    ensures r == NewDescription(host, config, gunsmiths, info, originalDescription)
  {
    var sb := "";
    if config.None? {
      return Err(NullConfig);
    }
    var cfg := config.value;
    if cfg.displayAfterLore {
      sb := sb + originalDescription;
    }
    ghost var lore := sb;
    sb := sb + KappaLine(info.kappaRequired);
    sb := sb + LightkeeperLine(info.lightkeeperRequired);
    var keys := GetKeyInfoForQuest(host.desiredLocale, info);
    sb := sb + keys;
    sb := sb + Separator;
    var next := GetNextQuests(host.desiredLocale, host.quests, info.id);
    sb := sb + next;
    sb := sb + Separator;
    ghost var common := CommonBlocks(host, info);
    Regroup(lore, KappaLine(info.kappaRequired), LightkeeperLine(info.lightkeeperRequired), keys, Separator, next);
    assert sb == lore + common;
    if gunsmiths.Some? && info.id in gunsmiths.value {
      var parts := GetGunsmithPartsList(host.desiredLocale, host.traders, gunsmiths.value[info.id]);
      if parts.Err? {
        assert GunsmithBlock(host, gunsmiths, info.id) == Err(parts.error);
        return Err(parts.error);
      }
      sb := sb + parts.value;
      sb := sb + Separator;
      AppendAssoc4(lore, common, parts.value, Separator);
      assert GunsmithBlock(host, gunsmiths, info.id) == Ok(parts.value + Separator);
    } else {
      assert GunsmithBlock(host, gunsmiths, info.id) == Ok("");
    }
    ghost var block := GunsmithBlock(host, gunsmiths, info.id).value;
    assert sb == lore + (common + block);
    if !cfg.displayAfterLore {
      assert "" + (common + block) == common + block;
      sb := sb + originalDescription;
      assert sb == (common + block) + originalDescription;
    } else {
      assert lore == "" + originalDescription == originalDescription;
    }
    r := Ok(sb);
  }

  /** Building fails exactly when the configuration is missing, or when the
      quest has a gunsmith entry and two traders list the same loyalty item. */
  lemma NewDescriptionFails(host: Host, config: Option<EttConfig>, gunsmiths: Option<map<string, GunsmithInfo>>,
                            info: QuestInfo, original: string)
    ensures config.None? ==> NewDescription(host, config, gunsmiths, info, original) == Err(NullConfig)
    ensures NewDescription(host, config, gunsmiths, info, original).Err?
        <==> config.None? || (HasGunsmith(gunsmiths, info.id) && LoyaltyUnion(host.traders).Err?)
    ensures config.Some? && NewDescription(host, config, gunsmiths, info, original).Err? ==>
      NewDescription(host, config, gunsmiths, info, original) == Err(DuplicateLoyaltyItem)
  {
    LoyaltyUnionErrIsDuplicate(host.traders);
  }

  /** The original text appears at the start when the config says lore
      first, and at the end otherwise; the generated part between follows the
      fixed block order, with the gunsmith block present iff the quest has a
      gunsmith entry. */
  lemma NewDescriptionLayout(host: Host, config: Option<EttConfig>, gunsmiths: Option<map<string, GunsmithInfo>>,
                             info: QuestInfo, original: string)
    requires NewDescription(host, config, gunsmiths, info, original).Ok?
    ensures var r := NewDescription(host, config, gunsmiths, info, original).value;
      && |r| >= |original|
      && (config.value.displayAfterLore ==> r[..|original|] == original)
      && (!config.value.displayAfterLore ==> r[|r| - |original|..] == original)
      && var generated := if config.value.displayAfterLore then r[|original|..] else r[..|r| - |original|];
         && generated[..|KappaLine(info.kappaRequired) + LightkeeperLine(info.lightkeeperRequired)|]
            == KappaLine(info.kappaRequired) + LightkeeperLine(info.lightkeeperRequired)
         && (!HasGunsmith(gunsmiths, info.id) ==> generated == CommonBlocks(host, info))
         && (HasGunsmith(gunsmiths, info.id) ==>
               generated == CommonBlocks(host, info)
                            + GunsmithPartsText(host.desiredLocale, host.traders, gunsmiths.value[info.id]).value + Separator)
  {
  }

  /** The key ids the scenario's one objective scans. */
  lemma ScenarioScannedKeys()
    ensures ScannedKeys([QuestObjective(Some([Some(["K1"])]))]) == ["K1"]
  {
  }

  /** The entry the scenario's key K1 gets. */
  lemma ScenarioListedKeys()
    ensures ListedKeys(map["K1 Name" := "Red Keycard", "Q2 name" := "Q2's name"], ["K1"]) == ["\n\tRed Keycard"]
  {
    var table := map["K1 Name" := "Red Keycard", "Q2 name" := "Q2's name"];
    assert "K1" + " Name" == "K1 Name";
    assert KeyName(table, "K1") == "Red Keycard";
    assert ["K1"][..0] == [];
    assert Entry("Red Keycard") == "\n\tRed Keycard";
  }

  /** The keys block of the scenario below. */
  lemma ScenarioKeys()
    ensures KeyInfoText(map["K1 Name" := "Red Keycard", "Q2 name" := "Q2's name"],
                        QuestInfo("Q1", true, false, [QuestObjective(Some([Some(["K1"])]))]))
         == "所需钥匙:\n\tRed Keycard"
  {
    var table := map["K1 Name" := "Red Keycard", "Q2 name" := "Q2's name"];
    var info := QuestInfo("Q1", true, false, [QuestObjective(Some([Some(["K1"])]))]);
    ScenarioScannedKeys();
    ScenarioListedKeys();
    assert Join(", ", ["\n\tRed Keycard"]) == "\n\tRed Keycard";
    assert KeyInfoText(table, info) == KeysHeader + "\n\tRed Keycard";
  }

  /** The follow-up block of the scenario below. */
  lemma ScenarioNext()
    ensures NextQuestsText(map["K1 Name" := "Red Keycard", "Q2 name" := "Q2's name"],
                           [Quest("Q1", None), Quest("Q2", Some([Condition("Quest", Some("Q1"))]))], "Q1")
         == "后续任务:\n\tQ2's name"
  {
    var table := map["K1 Name" := "Red Keycard", "Q2 name" := "Q2's name"];
    var q1 := Quest("Q1", None);
    var q2 := Quest("Q2", Some([Condition("Quest", Some("Q1"))]));
    var c := Condition("Quest", Some("Q1"));
    assert "Q2" + " name" == "Q2 name";
    assert QuestName(table, "Q2") == "Q2's name";
    assert ConditionEntries([c], "Q1", "\n\tQ2's name") == ["\n\tQ2's name"] by {
      assert [c][..0] == [];
      assert IsPrerequisiteOn(c, "Q1");
    }
    assert QuestEntries(table, q2, "Q1") == ["\n\tQ2's name"] by {
      assert Entry("Q2's name") == "\n\tQ2's name";
    }
    assert NextEntries(table, [q1, q2], "Q1") == ["\n\tQ2's name"] by {
      assert [q1, q2][..1] == [q1];
      assert [q1][..0] == [];
      assert NextEntries(table, [q1], "Q1") == [];
    }
  }

  /** A quest that needs one key, is a Kappa but not a Lightkeeper
      prerequisite, has one follow-up quest, has no gunsmith entry and shows
      its lore last: the blocks come in their fixed order and the lore ends
      the text. */
  lemma ScenarioLoreLast()
    ensures NewDescription(
              Host(map["K1 Name" := "Red Keycard", "Q2 name" := "Q2's name"],
                   [Quest("Q1", None), Quest("Q2", Some([Condition("Quest", Some("Q1"))]))],
                   []),
              Some(EttConfig(false)),
              Some(map[]),
              QuestInfo("Q1", true, false, [QuestObjective(Some([Some(["K1"])]))]),
              "Lore")
         == Ok("此任务是 收藏家 的前置任务\n" + "此任务不是 Lightkeeper 的前置任务\n"
               + "所需钥匙:\n\tRed Keycard" + "\n\n"
               + "后续任务:\n\tQ2's name" + "\n\n"
               + "Lore")
  {
    ScenarioKeys();
    ScenarioNext();
    var host := Host(map["K1 Name" := "Red Keycard", "Q2 name" := "Q2's name"],
                     [Quest("Q1", None), Quest("Q2", Some([Condition("Quest", Some("Q1"))]))], []);
    var info := QuestInfo("Q1", true, false, [QuestObjective(Some([Some(["K1"])]))]);
    assert GunsmithBlock(host, Some(map[]), info.id) == Ok("");
    assert CommonBlocks(host, info) + "" == CommonBlocks(host, info);
  }
}
