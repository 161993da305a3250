/** The gunsmith block: the loyalty-level table merged from every trader,
    and the parts list with the traders that sell each part. */
module Gunsmith {
  import opened Types
  import opened Text

  const RequiredDurability := "最低耐久度要求: 60"

  /** `trader?.Assort?.LoyalLevelItems ?? []`. */
  function LoyalLevelItems(t: Trader): map<string, int>
  {
    match t.assort
    case None => map[]
    case Some(a) => match a.loyalLevelItems case None => map[] case Some(m) => m
  }

  /** The merged loyalty table, or the error `Dictionary.Add` raises on the
      first item id that a later trader lists again. */
  function LoyaltyUnion(traders: seq<Trader>): Result<map<string, int>>
  {
    if traders == [] then Ok(map[])
    else
      match LoyaltyUnion(traders[..|traders| - 1])
      case Err(e) => Err(e)
      case Ok(acc) =>
        var m := LoyalLevelItems(traders[|traders| - 1]);
        if acc.Keys !! m.Keys then Ok(acc + m) else Err(DuplicateLoyaltyItem)
  }

  lemma {:induction false} LoyaltyUnionErrSticky(traders: seq<Trader>, i: nat)
    requires i <= |traders|
    requires LoyaltyUnion(traders[..i]).Err?
    ensures LoyaltyUnion(traders) == Err(DuplicateLoyaltyItem)
    decreases |traders| - i
  {
    if i == |traders| {
      assert traders[..i] == traders;
      LoyaltyUnionErrIsDuplicate(traders);
    } else {
      assert traders[..i + 1][..i] == traders[..i];
      LoyaltyUnionErrIsDuplicate(traders[..i]);
      LoyaltyUnionErrSticky(traders, i + 1);
    }
  }

  lemma {:induction false} LoyaltyUnionErrIsDuplicate(traders: seq<Trader>)
    ensures LoyaltyUnion(traders).Err? ==> LoyaltyUnion(traders).error == DuplicateLoyaltyItem
  {
    if traders != [] {
      LoyaltyUnionErrIsDuplicate(traders[..|traders| - 1]);
    }
  }

  /** The inner loop: one trader's loyalty table added entry by entry. */
  method AddLoyalLevelItems(acc: map<string, int>, items: map<string, int>) returns (r: Result<map<string, int>>)
    ensures r == if acc.Keys !! items.Keys then Ok(acc + items) else Err(DuplicateLoyaltyItem)
  {
    var result := acc;
    var rest := items.Keys;
    while rest != {}
      invariant rest <= items.Keys
      invariant acc.Keys !! (items.Keys - rest)
      invariant result == acc + (items - rest)
      decreases rest
    {
      var id :| id in rest;
      if id in result {
        assert id in acc;
        return Err(DuplicateLoyaltyItem);
      }
      result := result[id := items[id]];
      rest := rest - {id};
    }
    assert items - rest == items;
    r := Ok(result);
  }

  /** Merges every trader's loyalty table, proved to agree with LoyaltyUnion. */
  method GetAllTraderLoyalLevelItems(traders: seq<Trader>) returns (r: Result<map<string, int>>)
    ensures r == LoyaltyUnion(traders)
  {
    var result: map<string, int> := map[];
    for i := 0 to |traders|
      invariant LoyaltyUnion(traders[..i]) == Ok(result)
    {
      assert traders[..i + 1][..i] == traders[..i];
      var added := AddLoyalLevelItems(result, LoyalLevelItems(traders[i]));
      if added.Err? {
        LoyaltyUnionErrSticky(traders, i + 1);
        return added;
      }
      result := added.value;
    }
    assert traders[..|traders|] == traders;
    r := Ok(result);
  }

  /** Every item id some trader lists. */
  function LoyaltyIds(traders: seq<Trader>): set<string>
  {
    set i, k | 0 <= i < |traders| && k in LoyalLevelItems(traders[i]) :: k
  }

  lemma LoyaltyIdsStep(traders: seq<Trader>)
    requires traders != []
    ensures LoyaltyIds(traders)
         == LoyaltyIds(traders[..|traders| - 1]) + LoyalLevelItems(traders[|traders| - 1]).Keys
  {
  }

  /** A successful merge holds every id some trader lists, and no other. */
  lemma {:induction false} LoyaltyUnionKeys(traders: seq<Trader>)
    ensures LoyaltyUnion(traders).Ok? ==> LoyaltyUnion(traders).value.Keys == LoyaltyIds(traders)
  {
    if traders != [] {
      LoyaltyUnionKeys(traders[..|traders| - 1]);
      LoyaltyIdsStep(traders);
    }
  }

  /** The merge succeeds exactly when no item id is listed by two traders. */
  lemma {:induction false} LoyaltyUnionOkIff(traders: seq<Trader>)
    ensures LoyaltyUnion(traders).Ok? <==>
      forall i, j :: 0 <= i < j < |traders| ==> LoyalLevelItems(traders[i]).Keys !! LoyalLevelItems(traders[j]).Keys
    ensures LoyaltyUnion(traders).Ok? ==>
      LoyaltyUnion(traders).value.Keys == set i, k | 0 <= i < |traders| && k in LoyalLevelItems(traders[i]) :: k
  {
    LoyaltyUnionKeys(traders);
    if traders != [] {
      var n := |traders| - 1;
      var pre := traders[..n];
      LoyaltyUnionOkIff(pre);
      LoyaltyUnionKeys(pre);
      assert forall i :: 0 <= i < n ==> pre[i] == traders[i];
      var m := LoyalLevelItems(traders[n]);
      if LoyaltyUnion(pre).Ok? && !(LoyaltyUnion(pre).value.Keys !! m.Keys) {
        var k :| k in LoyaltyUnion(pre).value.Keys && k in m.Keys;
        var i :| 0 <= i < n && k in LoyalLevelItems(pre[i]);
        assert !(LoyalLevelItems(traders[i]).Keys !! LoyalLevelItems(traders[n]).Keys);
      }
      if LoyaltyUnion(pre).Ok? && LoyaltyUnion(pre).value.Keys !! m.Keys {
        forall i, j | 0 <= i < j < |traders|
          ensures LoyalLevelItems(traders[i]).Keys !! LoyalLevelItems(traders[j]).Keys
        {
          if j == n {
            forall k | k in LoyalLevelItems(traders[i]) ensures k !in m {
              assert k in LoyaltyIds(pre) by { assert k in LoyalLevelItems(pre[i]); }
            }
          }
        }
      }
    }
  }

  /** Every listed item keeps the level of the trader that lists it. */
  lemma {:induction false} LoyaltyUnionValues(traders: seq<Trader>, i: nat, id: string)
    requires LoyaltyUnion(traders).Ok?
    requires i < |traders| && id in LoyalLevelItems(traders[i])
    ensures id in LoyaltyUnion(traders).value
    ensures LoyaltyUnion(traders).value[id] == LoyalLevelItems(traders[i])[id]
  {
    var n := |traders| - 1;
    if i < n {
      assert traders[..n][i] == traders[i];
      LoyaltyUnionValues(traders[..n], i, id);
    }
  }

  /** One purchase line of a part. */
  function OfferLine(traderName: string, level: int): string
  {
    "\n\t" + traderName + " 可购买 (LL" + IntToString(level) + ")"
  }

  /** The display name of a trader: `"<id> Nickname"` in the locale table. */
  function TraderNickname(table: map<string, string>, traderId: string): string
  {
    GetLocale(table, traderId + " Nickname")
  }

  function ItemOffers(loyalty: map<string, int>, part: string, traderName: string, items: seq<AssortItem>): seq<string>
  {
    if items == [] then []
    else
      var item := items[|items| - 1];
      ItemOffers(loyalty, part, traderName, items[..|items| - 1])
      + if item.template == part && item.id in loyalty then [OfferLine(traderName, loyalty[item.id])] else []
  }

  function TraderOffers(table: map<string, string>, loyalty: map<string, int>, part: string, t: Trader): seq<string>
  {
    match t.assort
    case None => []
    case Some(a) =>
      match a.items
      case None => []
      case Some(items) => ItemOffers(loyalty, part, TraderNickname(table, t.id), items)
  }

  /** The purchase lines of one part, trader by trader. */
  function Offers(table: map<string, string>, loyalty: map<string, int>, part: string, traders: seq<Trader>): seq<string>
  {
    if traders == [] then []
    else Offers(table, loyalty, part, traders[..|traders| - 1]) + TraderOffers(table, loyalty, part, traders[|traders| - 1])
  }

  function PartBlock(table: map<string, string>, loyalty: map<string, int>, part: string, traders: seq<Trader>): string
  {
    "\n" + GetLocale(table, part + " Name") + Concat(Offers(table, loyalty, part, traders))
  }

  function PartBlocks(table: map<string, string>, loyalty: map<string, int>, parts: seq<string>, traders: seq<Trader>): string
  {
    if parts == [] then ""
    else PartBlocks(table, loyalty, parts[..|parts| - 1], traders) + PartBlock(table, loyalty, parts[|parts| - 1], traders)
  }

  function GunsmithPartsText(table: map<string, string>, traders: seq<Trader>, info: GunsmithInfo): Result<string>
  {
    match LoyaltyUnion(traders)
    case Err(e) => Err(e)
    case Ok(loyalty) => Ok(RequiredDurability + PartBlocks(table, loyalty, info.requiredParts, traders))
  }

  /** Appending the text of more pieces to a builder holding the text of earlier ones. */
  lemma AppendPieces(start: string, done: seq<string>, added: seq<string>, before: string, after: string)
    requires before == start + Concat(done)
    requires after == before + Concat(added)
    ensures after == start + Concat(done + added)
  {
    ConcatAppend(done, added);
  }

  lemma ItemOffersStep(loyalty: map<string, int>, part: string, traderName: string, items: seq<AssortItem>, k: nat)
    requires k < |items|
    ensures ItemOffers(loyalty, part, traderName, items[..k + 1])
         == ItemOffers(loyalty, part, traderName, items[..k])
            + if items[k].template == part && items[k].id in loyalty then [OfferLine(traderName, loyalty[items[k].id])] else []
  {
    assert items[..k + 1][..k] == items[..k];
  }

  lemma OffersStep(table: map<string, string>, loyalty: map<string, int>, part: string, traders: seq<Trader>, t: nat)
    requires t < |traders|
    ensures Offers(table, loyalty, part, traders[..t + 1])
         == Offers(table, loyalty, part, traders[..t]) + TraderOffers(table, loyalty, part, traders[t])
  {
    assert traders[..t + 1][..t] == traders[..t];
  }

  /** The innermost loop: one trader's stacks checked against one part. */
  method AppendItemOffers(sb: string, loyalty: map<string, int>, part: string, traderName: string, items: seq<AssortItem>)
    returns (r: string)
    ensures r == sb + Concat(ItemOffers(loyalty, part, traderName, items))
  {
    r := sb;
    for k := 0 to |items|
      invariant r == sb + Concat(ItemOffers(loyalty, part, traderName, items[..k]))
    {
      var item := items[k];
      ghost var done := ItemOffers(loyalty, part, traderName, items[..k]);
      ghost var before := r;
      ItemOffersStep(loyalty, part, traderName, items, k);
      if item.template == part && item.id in loyalty {
        var line := OfferLine(traderName, loyalty[item.id]);
        r := r + line;
        assert Concat([line]) == line;
        AppendPieces(sb, done, [line], before, r);
      } else {
        AppendPieces(sb, done, [], before, r);
      }
    }
    assert items[..|items|] == items;
  }

  lemma PartBlockFromBuilder(sb: string, table: map<string, string>, loyalty: map<string, int>, part: string,
                             traders: seq<Trader>, r: string)
    requires r == (sb + "\n" + GetLocale(table, part + " Name")) + Concat(Offers(table, loyalty, part, traders))
    ensures r == sb + PartBlock(table, loyalty, part, traders)
  {
  }

  /** The middle loop: every trader's offers of one part. */
  method AppendPartBlock(sb: string, table: map<string, string>, loyalty: map<string, int>, part: string, traders: seq<Trader>)
    returns (r: string)
    ensures r == sb + PartBlock(table, loyalty, part, traders)
  {
    r := sb + "\n" + GetLocale(table, part + " Name");
    ghost var start := r;
    for t := 0 to |traders|
      invariant r == start + Concat(Offers(table, loyalty, part, traders[..t]))
    {
      var trader := traders[t];
      ghost var done := Offers(table, loyalty, part, traders[..t]);
      ghost var added := TraderOffers(table, loyalty, part, trader);
      ghost var before := r;
      if trader.assort.Some? && trader.assort.value.items.Some? {
        var traderName := TraderNickname(table, trader.id);
        r := AppendItemOffers(r, loyalty, part, traderName, trader.assort.value.items.value);
      } else {
        assert added == [];
      }
      assert r == before + Concat(added);
      AppendPieces(start, done, added, before, r);
      OffersStep(table, loyalty, part, traders, t);
    }
    assert traders[..|traders|] == traders;
    PartBlockFromBuilder(sb, table, loyalty, part, traders, r);
  }

  lemma PartBlocksStep(table: map<string, string>, loyalty: map<string, int>, parts: seq<string>, traders: seq<Trader>,
                       p: nat, before: string, after: string)
    requires p < |parts|
    requires before == RequiredDurability + PartBlocks(table, loyalty, parts[..p], traders)
    requires after == before + PartBlock(table, loyalty, parts[p], traders)
    ensures after == RequiredDurability + PartBlocks(table, loyalty, parts[..p + 1], traders)
  {
    assert parts[..p + 1][..p] == parts[..p];
  }

  /** The loyalty merge, then the durability line and one block per required
      part, proved to produce GunsmithPartsText. */
  method GetGunsmithPartsList(table: map<string, string>, traders: seq<Trader>, info: GunsmithInfo)
    returns (r: Result<string>)
    ensures r == GunsmithPartsText(table, traders, info)
  {
    var loyaltyLevelItems := GetAllTraderLoyalLevelItems(traders);
    if loyaltyLevelItems.Err? {
      return Err(loyaltyLevelItems.error);
    }
    var loyalty := loyaltyLevelItems.value;
    var parts := info.requiredParts;
    var sb := RequiredDurability;
    for p := 0 to |parts|
      invariant sb == RequiredDurability + PartBlocks(table, loyalty, parts[..p], traders)
    {
      ghost var before := sb;
      sb := AppendPartBlock(sb, table, loyalty, parts[p], traders);
      PartBlocksStep(table, loyalty, parts, traders, p, before, sb);
    }
    assert parts[..|parts|] == parts;
    r := Ok(sb);
  }

  /** A trader sells `it` as `part` at a known loyalty level. */
  predicate SellsAt(t: Trader, it: AssortItem, part: string, loyalty: map<string, int>)
  {
    && t.assort.Some? && t.assort.value.items.Some?
    && it in t.assort.value.items.value
    && it.template == part && it.id in loyalty
  }

  lemma {:induction false} ItemOffersSound(loyalty: map<string, int>, part: string, name: string, items: seq<AssortItem>, line: string)
    requires line in ItemOffers(loyalty, part, name, items)
    ensures exists it :: it in items && it.template == part && it.id in loyalty && line == OfferLine(name, loyalty[it.id])
  {
    var n := |items| - 1;
    assert items == items[..n] + [items[n]];
    if line in ItemOffers(loyalty, part, name, items[..n]) {
      ItemOffersSound(loyalty, part, name, items[..n], line);
    }
  }

  lemma {:induction false} ItemOffersComplete(loyalty: map<string, int>, part: string, name: string, items: seq<AssortItem>, it: AssortItem)
    requires it in items && it.template == part && it.id in loyalty
    ensures OfferLine(name, loyalty[it.id]) in ItemOffers(loyalty, part, name, items)
  {
    var n := |items| - 1;
    assert items == items[..n] + [items[n]];
    if it != items[n] {
      ItemOffersComplete(loyalty, part, name, items[..n], it);
    }
  }

  /** Every purchase line comes from a trader that sells the part at a known
      level, and names that trader and level. */
  lemma {:induction false} OffersSound(table: map<string, string>, loyalty: map<string, int>, part: string,
                                       traders: seq<Trader>, line: string)
    requires line in Offers(table, loyalty, part, traders)
    ensures exists t, it :: t in traders && SellsAt(t, it, part, loyalty)
                            && line == OfferLine(TraderNickname(table, t.id), loyalty[it.id])
  {
    var n := |traders| - 1;
    assert traders == traders[..n] + [traders[n]];
    if line in Offers(table, loyalty, part, traders[..n]) {
      OffersSound(table, loyalty, part, traders[..n], line);
      var t, it :| t in traders[..n] && SellsAt(t, it, part, loyalty)
                   && line == OfferLine(TraderNickname(table, t.id), loyalty[it.id]);
      assert t in traders;
    } else {
      var t := traders[n];
      var items := t.assort.value.items.value;
      ItemOffersSound(loyalty, part, TraderNickname(table, t.id), items, line);
      var it :| it in items && it.template == part && it.id in loyalty
                && line == OfferLine(TraderNickname(table, t.id), loyalty[it.id]);
      assert SellsAt(t, it, part, loyalty);
    }
  }

  /** Every stack that sells the part at a known level yields a purchase line. */
  lemma {:induction false} OffersComplete(table: map<string, string>, loyalty: map<string, int>, part: string,
                                          traders: seq<Trader>, t: Trader, it: AssortItem)
    requires t in traders && SellsAt(t, it, part, loyalty)
    ensures OfferLine(TraderNickname(table, t.id), loyalty[it.id]) in Offers(table, loyalty, part, traders)
  {
    var n := |traders| - 1;
    assert traders == traders[..n] + [traders[n]];
    if t == traders[n] {
      ItemOffersComplete(loyalty, part, TraderNickname(table, t.id), t.assort.value.items.value, it);
    } else {
      OffersComplete(table, loyalty, part, traders[..n], t, it);
    }
  }

  /** The lines of one trader's stacks are those of each stack in turn: one
      line per matching stack, identical lines kept. */
  lemma {:induction false} ItemOffersAppend(loyalty: map<string, int>, part: string, traderName: string,
                                            a: seq<AssortItem>, b: seq<AssortItem>)
    ensures ItemOffers(loyalty, part, traderName, a + b)
         == ItemOffers(loyalty, part, traderName, a) + ItemOffers(loyalty, part, traderName, b)
  {
    if b == [] {
      assert a + b == a;
    } else {
      var n := |b| - 1;
      var la, lb, last := ItemOffers(loyalty, part, traderName, a), ItemOffers(loyalty, part, traderName, b[..n]),
                         ItemOffers(loyalty, part, traderName, [b[n]]);
      ItemOffersSingle(loyalty, part, traderName, b[n]);
      calc {
        ItemOffers(loyalty, part, traderName, a + b);
        { assert (a + b)[..|a + b| - 1] == a + b[..n]; assert (a + b)[|a + b| - 1] == b[n]; }
        ItemOffers(loyalty, part, traderName, a + b[..n]) + last;
        { ItemOffersAppend(loyalty, part, traderName, a, b[..n]); }
        (la + lb) + last;
        la + (lb + last);
        { assert b[..n] + [b[n]] == b; }
        la + ItemOffers(loyalty, part, traderName, b);
      }
    }
  }

  /** A single stack yields its line exactly when its template is the part
      and its id has a loyalty level. */
  lemma ItemOffersSingle(loyalty: map<string, int>, part: string, traderName: string, it: AssortItem)
    ensures ItemOffers(loyalty, part, traderName, [it])
         == if it.template == part && it.id in loyalty then [OfferLine(traderName, loyalty[it.id])] else []
  {
  }

  /** The purchase lines of a part are those of each trader in turn, with no
      de-duplication across traders. */
  lemma {:induction false} OffersAppend(table: map<string, string>, loyalty: map<string, int>, part: string,
                                        a: seq<Trader>, b: seq<Trader>)
    ensures Offers(table, loyalty, part, a + b) == Offers(table, loyalty, part, a) + Offers(table, loyalty, part, b)
  {
    if b == [] {
      assert a + b == a;
    } else {
      var n := |b| - 1;
      var la, lb, last := Offers(table, loyalty, part, a), Offers(table, loyalty, part, b[..n]),
                         TraderOffers(table, loyalty, part, b[n]);
      calc {
        Offers(table, loyalty, part, a + b);
        { assert (a + b)[..|a + b| - 1] == a + b[..n]; assert (a + b)[|a + b| - 1] == b[n]; }
        Offers(table, loyalty, part, a + b[..n]) + last;
        { OffersAppend(table, loyalty, part, a, b[..n]); }
        (la + lb) + last;
        la + (lb + last);
        la + Offers(table, loyalty, part, b);
      }
    }
  }

  /** A single trader contributes the lines of its own stacks, nothing when
      it has no assort or no items. */
  lemma OffersSingle(table: map<string, string>, loyalty: map<string, int>, part: string, t: Trader)
    ensures Offers(table, loyalty, part, [t]) == TraderOffers(table, loyalty, part, t)
  {
  }

  /** Two stacks of the part at the same level give two identical lines. */
  lemma TwoStacksListedTwice()
    ensures Offers(map["T Nickname" := "Mechanic"], map["I1" := 2, "I2" := 2], "P",
                   [Trader("T", Some(Assort(Some([AssortItem("I1", "P"), AssortItem("I2", "P")]), None)))])
         == [OfferLine("Mechanic", 2), OfferLine("Mechanic", 2)]
  {
    var table := map["T Nickname" := "Mechanic"];
    var loyalty := map["I1" := 2, "I2" := 2];
    var items := [AssortItem("I1", "P"), AssortItem("I2", "P")];
    var t := Trader("T", Some(Assort(Some(items), None)));
    assert "T" + " Nickname" == "T Nickname";
    assert TraderNickname(table, "T") == "Mechanic";
    OffersSingle(table, loyalty, "P", t);
    assert items == [items[0]] + [items[1]];
    ItemOffersAppend(loyalty, "P", "Mechanic", [items[0]], [items[1]]);
    ItemOffersSingle(loyalty, "P", "Mechanic", items[0]);
    ItemOffersSingle(loyalty, "P", "Mechanic", items[1]);
  }

  /** Parts are listed in their given order. */
  lemma {:induction false} PartBlocksAppend(table: map<string, string>, loyalty: map<string, int>,
                                            a: seq<string>, b: seq<string>, traders: seq<Trader>)
    ensures PartBlocks(table, loyalty, a + b, traders) == PartBlocks(table, loyalty, a, traders) + PartBlocks(table, loyalty, b, traders)
  {
    if b == [] {
      assert a + b == a;
    } else {
      var n := |b| - 1;
      var pa, pb, last := PartBlocks(table, loyalty, a, traders), PartBlocks(table, loyalty, b[..n], traders),
                         PartBlock(table, loyalty, b[n], traders);
      calc {
        PartBlocks(table, loyalty, a + b, traders);
        { assert (a + b)[..|a + b| - 1] == a + b[..n]; assert (a + b)[|a + b| - 1] == b[n]; }
        PartBlocks(table, loyalty, a + b[..n], traders) + last;
        { PartBlocksAppend(table, loyalty, a, b[..n], traders); }
        (pa + pb) + last;
        pa + (pb + last);
        pa + PartBlocks(table, loyalty, b, traders);
      }
    }
  }

  /** The parts list exists exactly when no item id is listed by two traders;
      it then opens with the durability requirement, and is only that line
      when no part is required. */
  lemma GunsmithPartsTextCases(table: map<string, string>, traders: seq<Trader>, info: GunsmithInfo)
    ensures GunsmithPartsText(table, traders, info).Ok? <==>
      forall i, j :: 0 <= i < j < |traders| ==> LoyalLevelItems(traders[i]).Keys !! LoyalLevelItems(traders[j]).Keys
    ensures GunsmithPartsText(table, traders, info).Err? ==> GunsmithPartsText(table, traders, info) == Err(DuplicateLoyaltyItem)
    ensures GunsmithPartsText(table, traders, info).Ok? ==>
      && |GunsmithPartsText(table, traders, info).value| >= |RequiredDurability|
      && GunsmithPartsText(table, traders, info).value[..|RequiredDurability|] == RequiredDurability
      && (info.requiredParts == [] ==> GunsmithPartsText(table, traders, info).value == RequiredDurability)
  {
    LoyaltyUnionOkIff(traders);
    LoyaltyUnionErrIsDuplicate(traders);
  }

  /** One part sold by one trader at loyalty level 2. */
  lemma ScenarioOnePart()
    ensures GunsmithPartsText(map["P Name" := "Muzzle brake", "T Nickname" := "Mechanic"],
                              [Trader("T", Some(Assort(Some([AssortItem("I", "P")]), Some(map["I" := 2]))))],
                              GunsmithInfo(["P"]))
         == Ok(RequiredDurability + ("\n" + "Muzzle brake" + ("\n\t" + "Mechanic" + " 可购买 (LL" + "2" + ")")))
  {
    var table := map["P Name" := "Muzzle brake", "T Nickname" := "Mechanic"];
    var t := Trader("T", Some(Assort(Some([AssortItem("I", "P")]), Some(map["I" := 2]))));
    var loyalty := map["I" := 2];
    assert [t][..0] == [];
    assert LoyaltyUnion([t]) == Ok(map[] + loyalty);
    assert map[] + loyalty == loyalty;
    assert "P" + " Name" == "P Name";
    assert "T" + " Nickname" == "T Nickname";
    assert IntToString(2) == "2";
    var line := OfferLine("Mechanic", 2);
    assert ItemOffers(loyalty, "P", "Mechanic", [AssortItem("I", "P")]) == [line] by {
      assert [AssortItem("I", "P")][..0] == [];
    }
    assert Offers(table, loyalty, "P", [t]) == [line];
    assert Concat([line]) == line by {
      assert [line][..0] == [];
    }
    assert PartBlocks(table, loyalty, ["P"], [t]) == PartBlock(table, loyalty, "P", [t]) by {
      assert ["P"][..0] == [];
    }
    assert PartBlock(table, loyalty, "P", [t]) == "\n" + "Muzzle brake" + line;
    assert line == "\n\t" + "Mechanic" + " 可购买 (LL" + "2" + ")";
  }
}
