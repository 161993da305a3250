/** The follow-up-quests block: a reverse lookup over the prerequisite
    conditions of every quest in the database. */
module NextQuests {
  import opened Types
  import opened Text

  const NextHeader := "后续任务:"
  const NoNextText := "无后续任务"

  /** A start condition that names `questId` as a prerequisite quest. */
  predicate IsPrerequisiteOn(c: Condition, questId: string)
  {
    c.target == Some(questId) && c.conditionType == "Quest"
  }

  /** A quest with at least one start condition on `questId`. */
  predicate HasPrerequisiteOn(q: Quest, questId: string)
  {
    q.availableForStart.Some? && exists c :: c in q.availableForStart.value && IsPrerequisiteOn(c, questId)
  }

  /** The display name of a quest: `"<id> name"` in the locale table. */
  function QuestName(table: map<string, string>, id: string): string
  {
    GetLocale(table, id + " name")
  }

  /** One copy of `entry` per condition on `questId`, in condition order. */
  function ConditionEntries(conds: seq<Condition>, questId: string, entry: string): seq<string>
  {
    if conds == [] then []
    else
      ConditionEntries(conds[..|conds| - 1], questId, entry)
      + if IsPrerequisiteOn(conds[|conds| - 1], questId) then [entry] else []
  }

  function QuestEntries(table: map<string, string>, q: Quest, questId: string): seq<string>
  {
    match q.availableForStart
    case None => []
    case Some(conds) => ConditionEntries(conds, questId, Entry(QuestName(table, q.id)))
  }

  /** The entries of the follow-up list, in quest-database order. */
  function NextEntries(table: map<string, string>, quests: seq<Quest>, questId: string): seq<string>
  {
    if quests == [] then []
    else NextEntries(table, quests[..|quests| - 1], questId) + QuestEntries(table, quests[|quests| - 1], questId)
  }

  function NextQuestsText(table: map<string, string>, quests: seq<Quest>, questId: string): string
  {
    var entries := NextEntries(table, quests, questId);
    (if |entries| > 0 then NextHeader else NoNextText) + Join(", ", entries)
  }

  /** The inner loop: the start conditions of one quest. */
  method ScanConditions(table: map<string, string>, listed: seq<string>, ghost before: seq<Quest>,
                        q: Quest, conds: seq<Condition>, currentQuestId: string)
    returns (result: seq<string>)
    requires listed == NextEntries(table, before, currentQuestId)
    requires q.availableForStart == Some(conds)
    ensures result == NextEntries(table, before + [q], currentQuestId)
  {
    result := listed;
    ghost var entry := Entry(QuestName(table, q.id));
    for k := 0 to |conds|
      invariant result == listed + ConditionEntries(conds[..k], currentQuestId, entry)
    {
      assert conds[..k + 1][..k] == conds[..k];
      var condition := conds[k];
      if condition.target.Some? {
        if condition.conditionType == "Quest" && condition.target.value == currentQuestId {
          var nextQuestName := QuestName(table, q.id);
          result := result + [Entry(nextQuestName)];
        }
      }
    }
    assert conds[..|conds|] == conds;
    assert (before + [q])[..|before|] == before;
  }

  /** The reverse lookup over every quest's start conditions, then the
      header or the no-follow-up text, proved to produce NextQuestsText. */
  method GetNextQuests(table: map<string, string>, quests: seq<Quest>, currentQuestId: string)
    returns (text: string)
    ensures text == NextQuestsText(table, quests, currentQuestId)
  {
    var result: seq<string> := [];
    for i := 0 to |quests|
      invariant result == NextEntries(table, quests[..i], currentQuestId)
    {
      assert quests[..i + 1] == quests[..i] + [quests[i]];
      var quest := quests[i];
      if quest.availableForStart.Some? {
        result := ScanConditions(table, result, quests[..i], quest, quest.availableForStart.value, currentQuestId);
      } else {
        assert (quests[..i] + [quest])[..i] == quests[..i];
      }
    }
    assert quests[..|quests|] == quests;
    text := (if |result| > 0 then NextHeader else NoNextText) + Join(", ", result);
  }

  /** Database order is kept: the entries of a longer database extend those
      of its prefix, with the later quests' entries after. */
  lemma {:induction false} NextEntriesAppend(table: map<string, string>, a: seq<Quest>, b: seq<Quest>, questId: string)
    ensures NextEntries(table, a + b, questId) == NextEntries(table, a, questId) + NextEntries(table, b, questId)
  {
    if b == [] {
      assert a + b == a;
    } else {
      var n := |b| - 1;
      var ea, eb, eq := NextEntries(table, a, questId), NextEntries(table, b[..n], questId), QuestEntries(table, b[n], questId);
      calc {
        NextEntries(table, a + b, questId);
        { assert (a + b)[..|a + b| - 1] == a + b[..n]; assert (a + b)[|a + b| - 1] == b[n]; }
        NextEntries(table, a + b[..n], questId) + eq;
        { NextEntriesAppend(table, a, b[..n], questId); }
        (ea + eb) + eq;
        ea + (eb + eq);
        ea + NextEntries(table, b, questId);
      }
    }
  }

  lemma {:induction false} ConditionEntriesEmptyIff(conds: seq<Condition>, questId: string, entry: string)
    ensures ConditionEntries(conds, questId, entry) == [] <==> forall c :: c in conds ==> !IsPrerequisiteOn(c, questId)
  {
    if conds != [] {
      var n := |conds| - 1;
      ConditionEntriesEmptyIff(conds[..n], questId, entry);
      assert conds == conds[..n] + [conds[n]];
    }
  }

  lemma {:induction false} ConditionEntriesAll(conds: seq<Condition>, questId: string, entry: string)
    ensures forall e :: e in ConditionEntries(conds, questId, entry) ==> e == entry
  {
    if conds != [] {
      ConditionEntriesAll(conds[..|conds| - 1], questId, entry);
    }
  }

  /** A single condition yields the entry exactly when it names `questId`
      as a prerequisite quest. */
  lemma ConditionEntriesSingle(c: Condition, questId: string, entry: string)
    ensures ConditionEntries([c], questId, entry) == if IsPrerequisiteOn(c, questId) then [entry] else []
  {
  }

  /** Each matching condition adds its own entry, in condition order, so a
      quest with several matching conditions is listed once per condition. */
  lemma {:induction false} ConditionEntriesAppend(a: seq<Condition>, b: seq<Condition>, questId: string, entry: string)
    ensures ConditionEntries(a + b, questId, entry)
         == ConditionEntries(a, questId, entry) + ConditionEntries(b, questId, entry)
  {
    if b == [] {
      assert a + b == a;
    } else {
      var n := |b| - 1;
      var ea, eb := ConditionEntries(a, questId, entry), ConditionEntries(b[..n], questId, entry);
      var last := if IsPrerequisiteOn(b[n], questId) then [entry] else [];
      calc {
        ConditionEntries(a + b, questId, entry);
        { assert (a + b)[..|a + b| - 1] == a + b[..n]; assert (a + b)[|a + b| - 1] == b[n]; }
        ConditionEntries(a + b[..n], questId, entry) + last;
        { ConditionEntriesAppend(a, b[..n], questId, entry); }
        (ea + eb) + last;
        ea + (eb + last);
        ea + ConditionEntries(b, questId, entry);
      }
    }
  }

  /** No entries exactly when no quest has a start condition on `questId`. */
  lemma {:induction false} NextEntriesEmptyIff(table: map<string, string>, quests: seq<Quest>, questId: string)
    ensures NextEntries(table, quests, questId) == [] <==> forall q :: q in quests ==> !HasPrerequisiteOn(q, questId)
  {
    if quests != [] {
      var n := |quests| - 1;
      NextEntriesEmptyIff(table, quests[..n], questId);
      assert quests == quests[..n] + [quests[n]];
      var q := quests[n];
      if q.availableForStart.Some? {
        ConditionEntriesEmptyIff(q.availableForStart.value, questId, Entry(QuestName(table, q.id)));
      }
      assert QuestEntries(table, q, questId) == [] <==> !HasPrerequisiteOn(q, questId);
      assert (forall x :: x in quests ==> !HasPrerequisiteOn(x, questId))
         <==> (forall x :: x in quests[..n] ==> !HasPrerequisiteOn(x, questId)) && !HasPrerequisiteOn(q, questId);
    }
  }

  /** The block reads exactly "无后续任务" iff no quest names `questId` as a
      start prerequisite; otherwise it is the header and the joined entries. */
  lemma NextQuestsTextCases(table: map<string, string>, quests: seq<Quest>, questId: string)
    ensures NextQuestsText(table, quests, questId) == NoNextText
        <==> forall q :: q in quests ==> !HasPrerequisiteOn(q, questId)
    ensures NextQuestsText(table, quests, questId) != NoNextText ==>
      NextQuestsText(table, quests, questId) == NextHeader + Join(", ", NextEntries(table, quests, questId))
  {
    NextEntriesEmptyIff(table, quests, questId);
    if NextEntries(table, quests, questId) != [] {
      assert NextQuestsText(table, quests, questId)[0] == NextHeader[0] != NoNextText[0];
    }
  }

  /** Every entry names a quest that has a start condition on `questId`. */
  lemma {:induction false} NextEntriesSound(table: map<string, string>, quests: seq<Quest>, questId: string, e: string)
    requires e in NextEntries(table, quests, questId)
    ensures exists q :: q in quests && HasPrerequisiteOn(q, questId) && e == Entry(QuestName(table, q.id))
  {
    var n := |quests| - 1;
    assert quests == quests[..n] + [quests[n]];
    if e in NextEntries(table, quests[..n], questId) {
      NextEntriesSound(table, quests[..n], questId, e);
    } else {
      var q := quests[n];
      var conds := q.availableForStart.value;
      ConditionEntriesAll(conds, questId, Entry(QuestName(table, q.id)));
      ConditionEntriesEmptyIff(conds, questId, Entry(QuestName(table, q.id)));
    }
  }

  /** Every quest that has a start condition on `questId` is listed. */
  lemma {:induction false} NextEntriesComplete(table: map<string, string>, quests: seq<Quest>, questId: string, q: Quest)
    requires q in quests && HasPrerequisiteOn(q, questId)
    ensures Entry(QuestName(table, q.id)) in NextEntries(table, quests, questId)
  {
    var n := |quests| - 1;
    assert quests == quests[..n] + [quests[n]];
    if q == quests[n] {
      var entry := Entry(QuestName(table, q.id));
      ConditionEntriesEmptyIff(q.availableForStart.value, questId, entry);
      ConditionEntriesAll(q.availableForStart.value, questId, entry);
      var es := ConditionEntries(q.availableForStart.value, questId, entry);
      assert es[0] in es;
    } else {
      NextEntriesComplete(table, quests[..n], questId, q);
    }
  }

  /** A quest with two start conditions on the same quest is listed twice. */
  lemma QuestListedOncePerCondition()
    ensures NextEntries(map["B name" := "Shortage"],
                        [Quest("B", Some([Condition("Quest", Some("A")), Condition("Quest", Some("A"))]))], "A")
         == ["\n\tShortage", "\n\tShortage"]
  {
    var c := Condition("Quest", Some("A"));
    assert [c, c][..1] == [c];
    assert [c][..0] == [];
    assert "B" + " name" == "B name";
    assert Entry("Shortage") == "\n\tShortage";
    assert IsPrerequisiteOn(c, "A");
    assert ConditionEntries([c], "A", "\n\tShortage") == ["\n\tShortage"];
    assert ConditionEntries([c, c], "A", "\n\tShortage") == ["\n\tShortage", "\n\tShortage"];
    var qs := [Quest("B", Some([c, c]))];
    assert qs[..0] == [];
  }
}
