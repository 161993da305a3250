/** The required-keys block: every key of every objective, looked up in the
    desired locale, listed as "\n\t"-prefixed entries after a header. */
module RequiredKeys {
  import opened Types
  import opened Text

  const KeysHeader := "所需钥匙:"
  const NoKeysText := "无需钥匙"

  /** The display name of a key item: `"<id> Name"` in the locale table. */
  function KeyName(table: map<string, string>, keyId: string): string
  {
    GetLocale(table, keyId + " Name")
  }

  /** Key ids of a list of key groups, skipping null groups. */
  function GroupKeys(groups: seq<Option<seq<string>>>): seq<string>
  {
    if groups == [] then []
    else
      GroupKeys(groups[..|groups| - 1])
      + match groups[|groups| - 1] case None => [] case Some(keys) => keys
  }

  function ObjectiveKeys(obj: QuestObjective): seq<string>
  {
    match obj.requiredKeys
    case None => []
    case Some(groups) => GroupKeys(groups)
  }

  /** Key ids in objective -> group -> key scan order. */
  function ScannedKeys(objs: seq<QuestObjective>): seq<string>
  {
    if objs == [] then [] else ScannedKeys(objs[..|objs| - 1]) + ObjectiveKeys(objs[|objs| - 1])
  }

  /** One step of the scan: the guard compares the bare name against the
      stored entries, so it only skips empty names and names that equal an
      earlier entry (a name that itself starts with "\n\t"). */
  function AddKey(listed: seq<string>, name: string): seq<string>
  {
    if name in listed || name == "" then listed else listed + [Entry(name)]
  }

  /** The list the scan builds over the given key ids. */
  function ListedKeys(table: map<string, string>, keyIds: seq<string>): seq<string>
  {
    if keyIds == [] then []
    else AddKey(ListedKeys(table, keyIds[..|keyIds| - 1]), KeyName(table, keyIds[|keyIds| - 1]))
  }

  function KeyInfoText(table: map<string, string>, info: QuestInfo): string
  {
    var listed := ListedKeys(table, ScannedKeys(info.questObjectives));
    if |listed| > 0 then KeysHeader + Join(", ", listed) else NoKeysText
  }

  lemma ListedKeysStep(table: map<string, string>, before: seq<string>, keys: seq<string>, k: nat)
    requires k < |keys|
    ensures ListedKeys(table, before + keys[..k + 1])
         == AddKey(ListedKeys(table, before + keys[..k]), KeyName(table, keys[k]))
  {
    assert (before + keys[..k + 1])[..|before + keys[..k + 1]| - 1] == before + keys[..k];
  }

  lemma GroupKeysStep(groups: seq<Option<seq<string>>>, j: nat)
    requires j < |groups|
    ensures GroupKeys(groups[..j + 1])
         == GroupKeys(groups[..j]) + match groups[j] case None => [] case Some(keys) => keys
  {
    assert groups[..j + 1][..j] == groups[..j];
  }

  /** The innermost loop of the scan: one key group appended to the list. */
  method ScanKeyGroup(table: map<string, string>, listed: seq<string>, ghost before: seq<string>, keys: seq<string>)
    returns (result: seq<string>)
    requires listed == ListedKeys(table, before)
    ensures result == ListedKeys(table, before + keys)
  {
    result := listed;
    assert before + keys[..0] == before;
    for k := 0 to |keys|
      invariant result == ListedKeys(table, before + keys[..k])
    {
      var keyName := KeyName(table, keys[k]);
      ListedKeysStep(table, before, keys, k);
      if !(keyName in result || keyName == "") {
        result := result + [Entry(keyName)];
      }
    }
    assert keys[..|keys|] == keys;
  }

  /** The middle loop of the scan: the key groups of one objective. */
  method ScanObjective(table: map<string, string>, listed: seq<string>, ghost before: seq<string>,
                       groups: seq<Option<seq<string>>>)
    returns (result: seq<string>)
    requires listed == ListedKeys(table, before)
    ensures result == ListedKeys(table, before + GroupKeys(groups))
  {
    result := listed;
    assert before + GroupKeys(groups[..0]) == before;
    for j := 0 to |groups|
      invariant result == ListedKeys(table, before + GroupKeys(groups[..j]))
    {
      GroupKeysStep(groups, j);
      ghost var done := before + GroupKeys(groups[..j]);
      if groups[j].Some? {
        result := ScanKeyGroup(table, result, done, groups[j].value);
        assert before + GroupKeys(groups[..j + 1]) == done + groups[j].value;
      } else {
        assert before + GroupKeys(groups[..j + 1]) == done;
      }
    }
    assert groups[..|groups|] == groups;
  }

  /** The three nested loops of the key scan, then the header or the
      no-keys text, proved to produce KeyInfoText. */
  method GetKeyInfoForQuest(table: map<string, string>, info: QuestInfo) returns (text: string)
    ensures text == KeyInfoText(table, info)
  {
    var result: seq<string> := [];
    var objs := info.questObjectives;
    for i := 0 to |objs|
      invariant result == ListedKeys(table, ScannedKeys(objs[..i]))
    {
      assert objs[..i + 1][..i] == objs[..i];
      if objs[i].requiredKeys.Some? {
        result := ScanObjective(table, result, ScannedKeys(objs[..i]), objs[i].requiredKeys.value);
      } else {
        assert ScannedKeys(objs[..i + 1]) == ScannedKeys(objs[..i]);
      }
    }
    assert objs[..|objs|] == objs;
    if |result| > 0 {
      text := KeysHeader + Join(", ", result);
    } else {
      text := NoKeysText;
    }
  }

  /** Every listed entry is the "\n\t"-prefixed, non-empty name of a scanned key. */
  lemma {:induction false} ListedKeysSound(table: map<string, string>, keyIds: seq<string>, e: string)
    requires e in ListedKeys(table, keyIds)
    ensures exists k :: 0 <= k < |keyIds| && KeyName(table, keyIds[k]) != "" && e == Entry(KeyName(table, keyIds[k]))
  {
    var n := |keyIds| - 1;
    var prefix := keyIds[..n];
    if e in ListedKeys(table, prefix) {
      ListedKeysSound(table, prefix, e);
      var k :| 0 <= k < |prefix| && KeyName(table, prefix[k]) != "" && e == Entry(KeyName(table, prefix[k]));
      assert keyIds[k] == prefix[k];
    } else {
      assert KeyName(table, keyIds[n]) != "" && e == Entry(KeyName(table, keyIds[n]));
    }
  }

  /** The list is empty exactly when no scanned key resolves to a non-empty name. */
  lemma {:induction false} ListedKeysEmptyIff(table: map<string, string>, keyIds: seq<string>)
    ensures ListedKeys(table, keyIds) == [] <==> forall k :: 0 <= k < |keyIds| ==> KeyName(table, keyIds[k]) == ""
  {
    if keyIds != [] {
      var n := |keyIds| - 1;
      ListedKeysEmptyIff(table, keyIds[..n]);
      assert forall k :: 0 <= k < n ==> keyIds[..n][k] == keyIds[k];
    }
  }

  /** The block reads exactly "无需钥匙" iff no scanned key has a non-empty
      name; otherwise it is the header followed by the joined entries. */
  lemma KeyInfoTextCases(table: map<string, string>, info: QuestInfo)
    ensures var ids := ScannedKeys(info.questObjectives);
      && (KeyInfoText(table, info) == NoKeysText <==> forall k :: 0 <= k < |ids| ==> KeyName(table, ids[k]) == "")
      && (KeyInfoText(table, info) != NoKeysText ==>
            KeyInfoText(table, info) == KeysHeader + Join(", ", ListedKeys(table, ids)))
  {
    var ids := ScannedKeys(info.questObjectives);
    ListedKeysEmptyIff(table, ids);
    if ListedKeys(table, ids) != [] {
      assert KeyInfoText(table, info)[0] == KeysHeader[0] != NoKeysText[0];
    }
  }

  /** The scan without the (ineffective) guard: one entry per non-empty name. */
  function AllEntries(table: map<string, string>, keyIds: seq<string>): seq<string>
  {
    if keyIds == [] then []
    else
      var name := KeyName(table, keyIds[|keyIds| - 1]);
      AllEntries(table, keyIds[..|keyIds| - 1]) + if name == "" then [] else [Entry(name)]
  }

  lemma {:induction false} AllEntriesPrefixed(table: map<string, string>, keyIds: seq<string>)
    ensures forall e :: e in AllEntries(table, keyIds) ==> StartsWithEntryPrefix(e)
  {
    if keyIds != [] {
      AllEntriesPrefixed(table, keyIds[..|keyIds| - 1]);
    }
  }

  /** Unless a key name itself starts with "\n\t", the guard never fires on a
      non-empty name: a name that occurs twice is listed twice. */
  lemma {:induction false} ListedKeysNoDedup(table: map<string, string>, keyIds: seq<string>)
    requires forall k :: 0 <= k < |keyIds| ==> !StartsWithEntryPrefix(KeyName(table, keyIds[k]))
    ensures ListedKeys(table, keyIds) == AllEntries(table, keyIds)
  {
    if keyIds != [] {
      var n := |keyIds| - 1;
      assert forall k :: 0 <= k < n ==> keyIds[..n][k] == keyIds[k];
      ListedKeysNoDedup(table, keyIds[..n]);
      AllEntriesPrefixed(table, keyIds[..n]);
    }
  }

  /** Two keys with the same display name both appear. */
  lemma RepeatedKeyNameListedTwice()
    ensures ListedKeys(map["k1 Name" := "Factory key", "k2 Name" := "Factory key"], ["k1", "k2"])
         == ["\n\tFactory key", "\n\tFactory key"]
  {
    var table := map["k1 Name" := "Factory key", "k2 Name" := "Factory key"];
    assert ["k1", "k2"][..1] == ["k1"];
    assert ["k1"][..0] == [];
    assert "k1" + " Name" == "k1 Name";
    assert "k2" + " Name" == "k2 Name";
    assert KeyName(table, "k1") == "Factory key";
    assert KeyName(table, "k2") == "Factory key";
    assert "Factory key" != Entry("Factory key");
    assert Entry("Factory key") == "\n\tFactory key";
    assert ListedKeys(table, ["k1"]) == ["\n\tFactory key"];
  }

  /** The guard does skip a name equal to an earlier stored entry. */
  lemma GuardSkipsNameEqualToEntry()
    ensures ListedKeys(map["k1 Name" := "A", "k2 Name" := "\n\tA"], ["k1", "k2"]) == ["\n\tA"]
  {
    var table := map["k1 Name" := "A", "k2 Name" := "\n\tA"];
    assert ["k1", "k2"][..1] == ["k1"];
    assert ["k1"][..0] == [];
    assert "k1" + " Name" == "k1 Name";
    assert "k2" + " Name" == "k2 Name";
    assert KeyName(table, "k1") == "A";
    assert KeyName(table, "k2") == "\n\tA";
    assert Entry("A") == "\n\tA";
    assert ListedKeys(table, ["k1"]) == ["\n\tA"];
  }
}
