/** The enrichment pass as a function of its inputs: what one UpdateTaskText
    call, one quest (every global locale table in turn) and the whole quest
    list do to the description cache and the locale tables. */
module TaskTextPass {
  import opened Types
  import opened Text
  import opened Description

  /** A global locale table after the pass; None is the null text that a
      cache miss writes. */
  type LocaleTable = map<string, Option<string>>

  /** The loaded state the builder reads: host data, configuration and
      gunsmith reference data. */
  datatype Context = Context(host: Host, config: Option<EttConfig>, gunsmiths: Option<map<string, GunsmithInfo>>)

  datatype PassState = PassState(cache: map<string, string>, tables: seq<LocaleTable>)

  /** The state reached and how the run ended; on Fail, the state at the
      point where the exception left the pass. */
  datatype Run = Run(state: PassState, outcome: Outcome)

  /** `_questInfos ?? []`. */
  function QuestInfos(questInfos: Option<seq<QuestInfo>>): seq<QuestInfo>
  {
    if questInfos.Some? then questInfos.value else []
  }

  /** The desired locale holds a description for the quest. */
  predicate Described(ctx: Context, info: QuestInfo)
  {
    DescriptionKey(info.id) in ctx.host.desiredLocale
  }

  /** One UpdateTaskText call on table `g`: on a cache hit the cached text is
      written; on a miss the description is built into the cache and the
      null that the failed lookup left is written. */
  function TableUpdate(ctx: Context, st: PassState, info: QuestInfo, original: string, g: nat): (r: Run)
    requires g < |st.tables|
    ensures |r.state.tables| == |st.tables|
  {
    var key := DescriptionKey(info.id);
    if info.id in st.cache then
      Run(PassState(st.cache, st.tables[g := st.tables[g][key := Some(st.cache[info.id])]]), Pass)
    else
      match NewDescription(ctx.host, ctx.config, ctx.gunsmiths, info, original)
      case Err(e) => Run(st, Fail(e))
      case Ok(d) => Run(PassState(st.cache[info.id := d], st.tables[g := st.tables[g][key := None]]), Pass)
  }

  /** UpdateTaskText on tables 0 .. n-1 in order, stopping at an exception. */
  function QuestUpdate(ctx: Context, st: PassState, info: QuestInfo, original: string, n: nat): (r: Run)
    requires n <= |st.tables|
    ensures |r.state.tables| == |st.tables|
  {
    if n == 0 then Run(st, Pass)
    else
      var prev := QuestUpdate(ctx, st, info, original, n - 1);
      if prev.outcome.Fail? then prev else TableUpdate(ctx, prev.state, info, original, n - 1)
  }

  /** The whole pass over the quest list: a quest without a description in
      the desired locale is skipped, every other one updates every table
      with that one description. */
  function RunPass(ctx: Context, st: PassState, infos: seq<QuestInfo>): (r: Run)
    ensures |r.state.tables| == |st.tables|
  {
    if infos == [] then Run(st, Pass)
    else
      var prev := RunPass(ctx, st, infos[..|infos| - 1]);
      var info := infos[|infos| - 1];
      if prev.outcome.Fail? || !Described(ctx, info) then prev
      else QuestUpdate(ctx, prev.state, info, ctx.host.desiredLocale[DescriptionKey(info.id)], |prev.state.tables|)
  }

  /** RunPass over one more quest. */
  lemma RunPassStep(ctx: Context, st: PassState, infos: seq<QuestInfo>, i: nat)
    requires i < |infos|
    ensures var prev := RunPass(ctx, st, infos[..i]);
      RunPass(ctx, st, infos[..i + 1])
      == if prev.outcome.Fail? || !Described(ctx, infos[i]) then prev
         else QuestUpdate(ctx, prev.state, infos[i], ctx.host.desiredLocale[DescriptionKey(infos[i].id)], |prev.state.tables|)
  {
    assert infos[..i + 1][..i] == infos[..i];
  }

  lemma {:induction false} QuestUpdateFailSticky(ctx: Context, st: PassState, info: QuestInfo, original: string, m: nat, n: nat)
    requires m <= n <= |st.tables|
    requires QuestUpdate(ctx, st, info, original, m).outcome.Fail?
    ensures QuestUpdate(ctx, st, info, original, n) == QuestUpdate(ctx, st, info, original, m)
    decreases n
  {
    if m < n {
      QuestUpdateFailSticky(ctx, st, info, original, m, n - 1);
    }
  }

  lemma {:induction false} RunPassFailSticky(ctx: Context, st: PassState, infos: seq<QuestInfo>, m: nat)
    requires m <= |infos|
    requires RunPass(ctx, st, infos[..m]).outcome.Fail?
    ensures RunPass(ctx, st, infos) == RunPass(ctx, st, infos[..m])
    decreases |infos|
  {
    if m < |infos| {
      var n := |infos| - 1;
      assert infos[..n][..m] == infos[..m];
      RunPassFailSticky(ctx, st, infos[..n], m);
    } else {
      assert infos[..m] == infos;
    }
  }

  /** One table update: a hit writes the cached text, a miss caches the built
      text and writes null, a failed build changes nothing. */
  lemma TableUpdateCases(ctx: Context, st: PassState, info: QuestInfo, original: string, g: nat)
    requires g < |st.tables|
    ensures var r := TableUpdate(ctx, st, info, original, g);
      var key := DescriptionKey(info.id);
      var built := NewDescription(ctx.host, ctx.config, ctx.gunsmiths, info, original);
      && (info.id in st.cache ==>
            r == Run(PassState(st.cache, st.tables[g := st.tables[g][key := Some(st.cache[info.id])]]), Pass))
      && (info.id !in st.cache && built.Err? ==> r == Run(st, Fail(built.error)))
      && (info.id !in st.cache && built.Ok? ==>
            r == Run(PassState(st.cache[info.id := built.value], st.tables[g := st.tables[g][key := None]]), Pass))
  {
  }

  /** One quest over the first n tables. With the quest cached, every table
      gets the cached text. On a miss the description is built once: the
      first table gets null (the value the failed lookup left), every later
      table the built text, and a failing build stops before anything is
      written. Tables from n on are untouched. */
  lemma {:induction false} QuestUpdateClosedForm(ctx: Context, st: PassState, info: QuestInfo, original: string, n: nat)
    requires n <= |st.tables|
    ensures var r := QuestUpdate(ctx, st, info, original, n);
      var key := DescriptionKey(info.id);
      var hit := info.id in st.cache;
      var built := NewDescription(ctx.host, ctx.config, ctx.gunsmiths, info, original);
      && (n == 0 ==> r == Run(st, Pass))
      && (n > 0 && !hit && built.Err? ==> r == Run(st, Fail(built.error)))
      && (n > 0 && (hit || built.Ok?) ==>
            && r.outcome == Pass
            && r.state.cache == (if hit then st.cache else st.cache[info.id := built.value])
            && forall g :: 0 <= g < |st.tables| ==>
                 r.state.tables[g]
                 == if g < n then st.tables[g][key := if g == 0 && !hit then None else Some(r.state.cache[info.id])]
                    else st.tables[g])
  {
    if n > 0 {
      var key := DescriptionKey(info.id);
      var hit := info.id in st.cache;
      var built := NewDescription(ctx.host, ctx.config, ctx.gunsmiths, info, original);
      var prev := QuestUpdate(ctx, st, info, original, n - 1);
      if n == 1 {
        assert prev == Run(st, Pass);
        TableUpdateCases(ctx, st, info, original, 0);
      } else {
        QuestUpdateClosedForm(ctx, st, info, original, n - 1);
        if hit || built.Ok? {
          var cache := if hit then st.cache else st.cache[info.id := built.value];
          assert prev.outcome == Pass && prev.state.cache == cache;
          TableUpdateCases(ctx, prev.state, info, original, n - 1);
        }
      }
    }
  }

  /** Cache entries present before the pass are never overwritten, whether
      the pass completes or stops at an exception. */
  lemma {:induction false} RunPassKeepsCache(ctx: Context, st: PassState, infos: seq<QuestInfo>)
    ensures forall id :: id in st.cache ==>
      id in RunPass(ctx, st, infos).state.cache && RunPass(ctx, st, infos).state.cache[id] == st.cache[id]
  {
    if infos != [] {
      var n := |infos| - 1;
      RunPassKeepsCache(ctx, st, infos[..n]);
      var prev := RunPass(ctx, st, infos[..n]);
      if !prev.outcome.Fail? && Described(ctx, infos[n]) {
        var info := infos[n];
        QuestUpdateClosedForm(ctx, prev.state, info, ctx.host.desiredLocale[DescriptionKey(info.id)], |prev.state.tables|);
      }
    }
  }

  /** The ids of the quests the pass does not skip. */
  function DescribedIds(ctx: Context, infos: seq<QuestInfo>): set<string>
  {
    set i | 0 <= i < |infos| && Described(ctx, infos[i]) :: infos[i].id
  }

  lemma DescribedIdsStep(ctx: Context, infos: seq<QuestInfo>)
    requires infos != []
    ensures var last := infos[|infos| - 1];
      DescribedIds(ctx, infos)
      == DescribedIds(ctx, infos[..|infos| - 1]) + (if Described(ctx, last) then {last.id} else {})
  {
  }

  /** After a completed pass the cache holds exactly the old entries and,
      when there is at least one locale table, the id of every quest that
      has a description; skipped quests leave no entry. */
  lemma {:induction false} RunPassCacheKeys(ctx: Context, st: PassState, infos: seq<QuestInfo>)
    requires RunPass(ctx, st, infos).outcome.Pass?
    ensures RunPass(ctx, st, infos).state.cache.Keys
         == st.cache.Keys + (if |st.tables| > 0 then DescribedIds(ctx, infos) else {})
  {
    if infos != [] {
      var n := |infos| - 1;
      var pre := infos[..n];
      var prev := RunPass(ctx, st, pre);
      var info := infos[n];
      if prev.outcome.Fail? {
        assert false;
      }
      RunPassCacheKeys(ctx, st, pre);
      DescribedIdsStep(ctx, infos);
      if Described(ctx, info) {
        QuestUpdateClosedForm(ctx, prev.state, info, ctx.host.desiredLocale[DescriptionKey(info.id)], |prev.state.tables|);
      }
    }
  }

  /** The cache after one quest that completes over at least one table: a
      hit leaves it as it was, a miss adds the successfully built text. */
  lemma QuestUpdateCache(ctx: Context, st: PassState, info: QuestInfo, original: string, n: nat)
    requires 0 < n <= |st.tables|
    requires QuestUpdate(ctx, st, info, original, n).outcome.Pass?
    ensures var built := NewDescription(ctx.host, ctx.config, ctx.gunsmiths, info, original);
      && (info.id !in st.cache ==> built.Ok?)
      && QuestUpdate(ctx, st, info, original, n).state.cache
         == if info.id in st.cache then st.cache else st.cache[info.id := built.value]
  {
    QuestUpdateClosedForm(ctx, st, info, original, n);
  }

  /** A completed pass over quests that never carry `id` does not cache it. */
  lemma FirstEntryUncached(ctx: Context, st: PassState, infos: seq<QuestInfo>, id: string)
    requires RunPass(ctx, st, infos).outcome.Pass?
    requires id !in st.cache
    requires forall j :: 0 <= j < |infos| ==> infos[j].id != id
    ensures id !in RunPass(ctx, st, infos).state.cache
  {
    RunPassCacheKeys(ctx, st, infos);
  }

  /** What a pass that completes caches for a quest that was not cached
      before: the description built from its first described entry in the
      list, from that entry's desired-locale text; later entries with the
      same id hit the cache and leave it alone. */
  lemma {:induction false} RunPassCacheValues(ctx: Context, st: PassState, infos: seq<QuestInfo>, i: nat)
    requires |st.tables| > 0
    requires i < |infos| && Described(ctx, infos[i]) && infos[i].id !in st.cache
    requires forall j :: 0 <= j < i ==> infos[j].id != infos[i].id
    ensures var built := NewDescription(ctx.host, ctx.config, ctx.gunsmiths, infos[i],
                                        ctx.host.desiredLocale[DescriptionKey(infos[i].id)]);
      var r := RunPass(ctx, st, infos);
      r.outcome.Pass? ==>
        && built.Ok?
        && infos[i].id in r.state.cache
        && r.state.cache[infos[i].id] == built.value
  {
    if RunPass(ctx, st, infos).outcome.Pass? {
      var n := |infos| - 1;
      var pre := infos[..n];
      var prev := RunPass(ctx, st, pre);
      var info := infos[n];
      var id := infos[i].id;
      if prev.outcome.Fail? {
        assert false;
      }
      if i == n {
        assert forall j :: 0 <= j < n ==> pre[j] == infos[j];
        FirstEntryUncached(ctx, st, pre, id);
        QuestUpdateCache(ctx, prev.state, info, ctx.host.desiredLocale[DescriptionKey(id)], |prev.state.tables|);
      } else {
        assert pre[i] == infos[i];
        RunPassCacheValues(ctx, st, pre, i);
        if Described(ctx, info) {
          QuestUpdateCache(ctx, prev.state, info, ctx.host.desiredLocale[DescriptionKey(info.id)], |prev.state.tables|);
        }
      }
    }
  }

  /** How many of the quests the pass does not skip carry the id. */
  function DescribedCount(ctx: Context, infos: seq<QuestInfo>, id: string): nat
  {
    if infos == [] then 0
    else
      var last := infos[|infos| - 1];
      DescribedCount(ctx, infos[..|infos| - 1], id) + if Described(ctx, last) && last.id == id then 1 else 0
  }

  lemma {:induction false} DescribedCountPositive(ctx: Context, infos: seq<QuestInfo>, id: string)
    ensures DescribedCount(ctx, infos, id) > 0 <==> id in DescribedIds(ctx, infos)
  {
    if infos != [] {
      DescribedCountPositive(ctx, infos[..|infos| - 1], id);
      DescribedIdsStep(ctx, infos);
    }
  }

  /** What a completed pass leaves at a described quest's description key,
      in every table: the final cached text, except that the first table
      keeps the null of the cache miss when the quest was not cached before
      the pass and occurs only once in the list (a repeat hits the cache and
      overwrites the null). A quest's write never lands on another quest's
      key. */
  lemma {:induction false} RunPassDescribedEntry(ctx: Context, st: PassState, infos: seq<QuestInfo>, g: nat, id: string)
    requires g < |st.tables|
    requires RunPass(ctx, st, infos).outcome.Pass?
    requires id in DescribedIds(ctx, infos)
    ensures var r := RunPass(ctx, st, infos).state;
      && id in r.cache
      && DescriptionKey(id) in r.tables[g]
      && r.tables[g][DescriptionKey(id)]
         == if g == 0 && id !in st.cache && DescribedCount(ctx, infos, id) == 1 then None else Some(r.cache[id])
  {
    var n := |infos| - 1;
    var pre := infos[..n];
    var prev := RunPass(ctx, st, pre);
    var info := infos[n];
    if prev.outcome.Fail? {
      assert false;
    }
    RunPassCacheKeys(ctx, st, infos);
    RunPassCacheKeys(ctx, st, pre);
    DescribedIdsStep(ctx, infos);
    DescribedCountPositive(ctx, pre, id);
    if !Described(ctx, info) {
      RunPassDescribedEntry(ctx, st, pre, g, id);
    } else {
      QuestUpdateClosedForm(ctx, prev.state, info, ctx.host.desiredLocale[DescriptionKey(info.id)], |prev.state.tables|);
      if id != info.id {
        RunPassDescribedEntry(ctx, st, pre, g, id);
        if DescriptionKey(id) == DescriptionKey(info.id) {
          DescriptionKeyInjective(id, info.id);
        }
      }
    }
  }

  /** A key that is no described quest's description key is left as it was
      in every table, whether the pass completes or stops at an exception. */
  lemma {:induction false} RunPassOtherKeys(ctx: Context, st: PassState, infos: seq<QuestInfo>, g: nat, key: string)
    requires g < |st.tables|
    requires forall i :: 0 <= i < |infos| && Described(ctx, infos[i]) ==> DescriptionKey(infos[i].id) != key
    ensures var r := RunPass(ctx, st, infos).state;
      && (key in r.tables[g] <==> key in st.tables[g])
      && (key in st.tables[g] ==> r.tables[g][key] == st.tables[g][key])
  {
    if infos != [] {
      var n := |infos| - 1;
      var pre := infos[..n];
      var prev := RunPass(ctx, st, pre);
      var info := infos[n];
      forall i | 0 <= i < |pre| && Described(ctx, pre[i]) ensures DescriptionKey(pre[i].id) != key {
        assert pre[i] == infos[i];
      }
      RunPassOtherKeys(ctx, st, pre, g, key);
      if !prev.outcome.Fail? && Described(ctx, info) {
        QuestUpdateClosedForm(ctx, prev.state, info, ctx.host.desiredLocale[DescriptionKey(info.id)], |prev.state.tables|);
      }
    }
  }

  /** Without global tables UpdateTaskText is never called: nothing is built,
      nothing can fail and the cache is unchanged. */
  lemma {:induction false} RunPassNoTables(ctx: Context, st: PassState, infos: seq<QuestInfo>)
    requires |st.tables| == 0
    ensures RunPass(ctx, st, infos) == Run(st, Pass)
  {
    if infos != [] {
      RunPassNoTables(ctx, st, infos[..|infos| - 1]);
    }
  }

  /** The text a cached quest's description key receives. */
  function CachedText(cache: map<string, string>, id: string): Option<string>
  {
    if id in cache then Some(cache[id]) else None
  }

  /** The overrides a pass over fully cached quests makes: each described
      quest's key set to its cached text, later quests winning. */
  function CachedWrites(ctx: Context, cache: map<string, string>, infos: seq<QuestInfo>): map<string, Option<string>>
  {
    if infos == [] then map[]
    else
      var info := infos[|infos| - 1];
      CachedWrites(ctx, cache, infos[..|infos| - 1])
      + if Described(ctx, info) then map[DescriptionKey(info.id) := CachedText(cache, info.id)] else map[]
  }

  /** A cached quest over tables that are `base` overlaid with `w` leaves the
      cache alone and adds its own cached text to the overlay. */
  lemma CachedQuestStep(ctx: Context, st: PassState, info: QuestInfo, original: string,
                        base: seq<LocaleTable>, w: map<string, Option<string>>)
    requires info.id in st.cache && |base| == |st.tables|
    requires forall g :: 0 <= g < |base| ==> st.tables[g] == base[g] + w
    ensures var r := QuestUpdate(ctx, st, info, original, |st.tables|);
      && r.outcome == Pass
      && r.state.cache == st.cache
      && forall g :: 0 <= g < |base| ==>
           r.state.tables[g] == base[g] + (w + map[DescriptionKey(info.id) := Some(st.cache[info.id])])
  {
    QuestUpdateClosedForm(ctx, st, info, original, |st.tables|);
  }

  /** When every quest the pass does not skip is already cached, nothing is
      built, so the pass cannot fail (not even without a configuration), the
      cache is unchanged and every table receives the same cached texts. */
  lemma {:induction false} RunPassAllCached(ctx: Context, st: PassState, infos: seq<QuestInfo>)
    requires forall i :: 0 <= i < |infos| && Described(ctx, infos[i]) ==> infos[i].id in st.cache
    ensures var r := RunPass(ctx, st, infos);
      && r.outcome == Pass
      && r.state.cache == st.cache
      && forall g :: 0 <= g < |st.tables| ==> r.state.tables[g] == st.tables[g] + CachedWrites(ctx, st.cache, infos)
  {
    if infos == [] {
      forall g | 0 <= g < |st.tables| ensures st.tables[g] + map[] == st.tables[g] { }
    } else {
      var n := |infos| - 1;
      var pre := infos[..n];
      forall i | 0 <= i < |pre| && Described(ctx, pre[i]) ensures pre[i].id in st.cache {
        assert pre[i] == infos[i];
      }
      RunPassAllCached(ctx, st, pre);
      var prev := RunPass(ctx, st, pre);
      var info := infos[n];
      var w := CachedWrites(ctx, st.cache, pre);
      if Described(ctx, info) {
        var key := DescriptionKey(info.id);
        var original := ctx.host.desiredLocale[key];
        CachedQuestStep(ctx, prev.state, info, original, st.tables, w);
        assert CachedWrites(ctx, st.cache, infos) == w + map[key := Some(st.cache[info.id])];
      } else {
        assert CachedWrites(ctx, st.cache, infos) == w + map[];
        assert w + map[] == w;
      }
    }
  }

  /** Running the pass again from the cache a completed pass left behind,
      with any locale tables and even a different configuration or gunsmith
      data, builds nothing: the cache is unchanged and every table receives
      the cached texts of the first run. */
  lemma SecondRunReusesCache(ctx: Context, st: PassState, infos: seq<QuestInfo>, ctx2: Context, tables2: seq<LocaleTable>)
    requires |st.tables| > 0
    requires RunPass(ctx, st, infos).outcome.Pass?
    requires ctx2.host.desiredLocale == ctx.host.desiredLocale
    ensures var cache1 := RunPass(ctx, st, infos).state.cache;
      var r2 := RunPass(ctx2, PassState(cache1, tables2), infos);
      && r2.outcome == Pass
      && r2.state.cache == cache1
      && forall g :: 0 <= g < |tables2| ==> r2.state.tables[g] == tables2[g] + CachedWrites(ctx2, cache1, infos)
  {
    var cache1 := RunPass(ctx, st, infos).state.cache;
    RunPassCacheKeys(ctx, st, infos);
    forall i | 0 <= i < |infos| && Described(ctx2, infos[i]) ensures infos[i].id in cache1 {
      assert infos[i].id in DescribedIds(ctx, infos);
    }
    RunPassAllCached(ctx2, PassState(cache1, tables2), infos);
  }
}
