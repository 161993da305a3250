/** The mod object: the state it loads and the description cache its pass
    fills, with the global locale tables it writes into. */
module Enricher {
  import opened Types
  import opened Text
  import opened Description
  import opened TaskTextPass

  class ExpandedTaskText {
    /** The host services' data: the desired-locale snapshot, the quest and
        trader databases. */
    const host: Host
    var questInfos: Option<seq<QuestInfo>>
    var gunsmithInfos: Option<map<string, GunsmithInfo>>
    var config: Option<EttConfig>
    var questDescriptionCache: map<string, string>

    constructor (host: Host)
      ensures this.host == host
      ensures questInfos == None && gunsmithInfos == None && config == None
      ensures questDescriptionCache == map[]
    {
      this.host := host;
      questInfos := None;
      gunsmithInfos := None;
      config := None;
      questDescriptionCache := map[];
    }

    /** What the builder reads from this object. */
    function CurrentContext(): Context
      reads this
    {
      Context(host, config, gunsmithInfos)
    }

    /** Updates global table `index` with the quest's description: the cached
        text on a hit; on a miss the built description goes into the cache and
        the table gets null. */
    method UpdateTaskText(info: QuestInfo, locales: array<LocaleTable>, index: nat, originalDescription: string)
      returns (outcome: Outcome)
      requires index < locales.Length
      modifies this`questDescriptionCache, locales
      ensures Run(PassState(questDescriptionCache, locales[..]), outcome)
           == TableUpdate(CurrentContext(), PassState(old(questDescriptionCache), old(locales[..])), info,
                          originalDescription, index)
    {
      var newDescription: Option<string> := None;
      if info.id in questDescriptionCache {
        newDescription := Some(questDescriptionCache[info.id]);
      } else {
        var built := BuildNewDescription(host, config, gunsmithInfos, info, originalDescription);
        if built.Err? {
          return Fail(built.error);
        }
        questDescriptionCache := questDescriptionCache[info.id := built.value];
      }
      locales[index] := locales[index][DescriptionKey(info.id) := newDescription];
      outcome := Pass;
    }

    /** Every global table in turn for one quest, stopping at the first
        exception. */
    method UpdateQuest(info: QuestInfo, locales: array<LocaleTable>, description: string) returns (outcome: Outcome)
      modifies this`questDescriptionCache, locales
      ensures Run(PassState(questDescriptionCache, locales[..]), outcome)
           == QuestUpdate(CurrentContext(), PassState(old(questDescriptionCache), old(locales[..])), info,
                          description, locales.Length)
    {
      ghost var ctx := CurrentContext();
      ghost var before := PassState(questDescriptionCache, locales[..]);
      for g := 0 to locales.Length
        invariant CurrentContext() == ctx
        invariant QuestUpdate(ctx, before, info, description, g) == Run(PassState(questDescriptionCache, locales[..]), Pass)
      {
        outcome := UpdateTaskText(info, locales, g, description);
        if outcome.Fail? {
          QuestUpdateFailSticky(ctx, before, info, description, g + 1, locales.Length);
          return;
        }
      }
      outcome := Pass;
    }

    /** One pass over the quest list and every global table, stopping at the
        first exception; proved to follow RunPass. */
    method UpdateAllTaskText(locales: array<LocaleTable>) returns (outcome: Outcome)
      modifies this`questDescriptionCache, locales
      ensures Run(PassState(questDescriptionCache, locales[..]), outcome)
           == RunPass(CurrentContext(), PassState(old(questDescriptionCache), old(locales[..])), QuestInfos(questInfos))
    {
      ghost var ctx := CurrentContext();
      ghost var st0 := PassState(questDescriptionCache, locales[..]);
      var desired := host.desiredLocale;
      var infos := QuestInfos(questInfos);
      for i := 0 to |infos|
        invariant CurrentContext() == ctx
        invariant RunPass(ctx, st0, infos[..i]) == Run(PassState(questDescriptionCache, locales[..]), Pass)
      {
        var info := infos[i];
        RunPassStep(ctx, st0, infos, i);
        var key := DescriptionKey(info.id);
        if key !in desired {
          continue;
        }
        outcome := UpdateQuest(info, locales, desired[key]);
        if outcome.Fail? {
          RunPassFailSticky(ctx, st0, infos, i + 1);
          return;
        }
      }
      assert infos[..|infos|] == infos;
      outcome := Pass;
    }

    /** The load sequence without its file I/O: an existing cache file
        replaces the cache, the three resource files are taken as parsed,
        the pass runs, and the cache is written back only when the pass
        completes. */
    method OnLoad(cacheFile: Option<map<string, string>>, questInfoFile: Option<seq<QuestInfo>>,
                  gunsmithFile: Option<map<string, GunsmithInfo>>, configFile: Option<EttConfig>,
                  locales: array<LocaleTable>)
      returns (written: Option<map<string, string>>)
      modifies this, locales
      ensures questInfos == questInfoFile && gunsmithInfos == gunsmithFile && config == configFile
      ensures var start := if cacheFile.Some? then cacheFile.value else old(questDescriptionCache);
        var run := RunPass(Context(host, configFile, gunsmithFile), PassState(start, old(locales[..])),
                           QuestInfos(questInfoFile));
        && questDescriptionCache == run.state.cache
        && locales[..] == run.state.tables
        && written == (if run.outcome.Pass? then Some(run.state.cache) else None)
    {
      if cacheFile.Some? {
        questDescriptionCache := cacheFile.value;
      }
      questInfos := questInfoFile;
      gunsmithInfos := gunsmithFile;
      config := configFile;
      var outcome := UpdateAllTaskText(locales);
      if outcome.Fail? {
        return None;
      }
      written := Some(questDescriptionCache);
    }
  }

  /** A first load with no cache file fills the cache; a second load that
      reads the written cache back builds nothing, cannot fail, and writes
      the same cache again. */
  method TwoLoads(host: Host, questInfoFile: Option<seq<QuestInfo>>, gunsmithFile: Option<map<string, GunsmithInfo>>,
                  configFile: Option<EttConfig>, locales: array<LocaleTable>)
    returns (first: Option<map<string, string>>, second: Option<map<string, string>>)
    modifies locales
    ensures first.Some? ==> second == first
  {
    var mod := new ExpandedTaskText(host);
    ghost var tables0 := locales[..];
    first := mod.OnLoad(None, questInfoFile, gunsmithFile, configFile, locales);
    if first.None? {
      second := None;
      return;
    }
    ghost var ctx := Context(host, configFile, gunsmithFile);
    ghost var tables1 := locales[..];
    var restarted := new ExpandedTaskText(host);
    second := restarted.OnLoad(first, questInfoFile, gunsmithFile, configFile, locales);
    if locales.Length == 0 {
      RunPassNoTables(ctx, PassState(map[], tables0), QuestInfos(questInfoFile));
      RunPassNoTables(ctx, PassState(map[], tables1), QuestInfos(questInfoFile));
    } else {
      SecondRunReusesCache(ctx, PassState(map[], tables0), QuestInfos(questInfoFile), ctx, tables1);
    }
  }
}
