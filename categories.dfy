/**
 * The category router: the category collection, its seed-by-upsert loop,
 * the admin update of one category and the two listings.
 */
module Categories {
  import opened Outcomes
  import opened Bson
  import Images

  /** What `update_one(filter, {"$set": fields}, upsert=True)` reports. */
  datatype UpdateResult = UpdateResult(matchedCount: nat, modifiedCount: nat, upsertedId: Option<ObjectId>)

  /** The filter `{"category": key}`. */
  predicate HasCategory(doc: Entries, key: string)
  {
    Get(doc, "category") == Some(Str(key))
  }

  /** The document `update_one` picks: the first one the filter matches. */
  function FirstMatch(docs: seq<Entries>, key: string): (r: Option<nat>)
    ensures r.Some? ==>
      r.value < |docs| && HasCategory(docs[r.value], key) && forall j :: 0 <= j < r.value ==> !HasCategory(docs[j], key)
    ensures r.None? ==> forall j :: 0 <= j < |docs| ==> !HasCategory(docs[j], key)
  {
    if docs == [] then None
    else if HasCategory(docs[0], key) then Some(0)
    else
      var rest := FirstMatch(docs[1..], key);
      if rest.Some? then Some(rest.value + 1) else None
  }

  /** `$set`: each listed field overwrites the stored one in place or is added last. */
  function SetFields(doc: Entries, fields: Entries): Entries
    decreases |fields|
  {
    if fields == [] then doc else SetFields(Set(doc, fields[0].0, fields[0].1), fields[1..])
  }

  /**
   * The upsert: a matched document is merged with the fields and counts as
   * modified only if that changed it; with no match a new document holding
   * a fresh `_id`, the filter's key and then the fields is added.
   */
  function Upsert(docs: seq<Entries>, key: string, fields: Entries, freshId: ObjectId): (seq<Entries>, UpdateResult)
  {
    var m := FirstMatch(docs, key);
    if m.Some? then
      var updated := SetFields(docs[m.value], fields);
      (docs[m.value := updated], UpdateResult(1, if updated == docs[m.value] then 0 else 1, None))
    else
      (docs + [SetFields([("_id", Oid(freshId)), ("category", Str(key))], fields)], UpdateResult(0, 0, Some(freshId)))
  }

  /** Setting fields the document already holds with those values changes nothing. */
  lemma {:induction false} SetFieldsHeld(doc: Entries, fields: Entries)
    requires forall i :: 0 <= i < |fields| ==> Get(doc, fields[i].0) == Some(fields[i].1)
    ensures SetFields(doc, fields) == doc
    decreases |fields|
  {
    if fields != [] {
      var k := fields[0].0;
      assert Get(doc, k) == Some(fields[0].1);
      assert doc[IndexOf(doc, k) := (k, fields[0].1)] == doc;
      assert Set(doc, k, fields[0].1) == doc;
      forall i | 0 <= i < |fields[1..]| ensures Get(doc, fields[1..][i].0) == Some(fields[1..][i].1) {
        assert fields[1..][i] == fields[i + 1];
      }
      SetFieldsHeld(doc, fields[1..]);
    }
  }

  /** A key the fields do not mention keeps its value. */
  lemma {:induction false} SetFieldsOther(doc: Entries, fields: Entries, k: string)
    requires !HasKey(fields, k)
    ensures Get(SetFields(doc, fields), k) == Get(doc, k)
    decreases |fields|
  {
    if fields != [] {
      assert Keys(fields)[0] == fields[0].0;
      SetGet(doc, fields[0].0, fields[0].1, k);
      assert Keys(fields[1..]) == Keys(fields)[1..];
      SetFieldsOther(Set(doc, fields[0].0, fields[0].1), fields[1..], k);
    }
  }

  /** After `$set` with distinct keys, every listed field holds its listed value. */
  lemma {:induction false} SetFieldsHolds(doc: Entries, fields: Entries)
    requires DistinctKeys(fields)
    ensures forall i :: 0 <= i < |fields| ==> Get(SetFields(doc, fields), fields[i].0) == Some(fields[i].1)
    decreases |fields|
  {
    if fields != [] {
      var k := fields[0].0;
      var d1 := Set(doc, k, fields[0].1);
      SetGet(doc, k, fields[0].1, k);
      assert forall j :: 0 <= j < |fields[1..]| ==> fields[1..][j].0 != k;
      assert !HasKey(fields[1..], k);
      SetFieldsOther(d1, fields[1..], k);
      SetFieldsHolds(d1, fields[1..]);
      forall i | 0 <= i < |fields| ensures Get(SetFields(doc, fields), fields[i].0) == Some(fields[i].1) {
        if i > 0 {
          assert fields[i] == fields[1..][i - 1];
        }
      }
    }
  }

  /** Merging the same fields twice is the same as merging them once. */
  lemma SetFieldsIdempotent(doc: Entries, fields: Entries)
    requires DistinctKeys(fields)
    ensures SetFields(SetFields(doc, fields), fields) == SetFields(doc, fields)
  {
    SetFieldsHolds(doc, fields);
    SetFieldsHeld(SetFields(doc, fields), fields);
  }

  /** A seed document is upserted under the key of its own "category" field. */
  ghost predicate SeedsItself(fields: Entries, key: string)
  {
    Get(fields, "category") == Some(Str(key)) && DistinctKeys(fields)
  }

  /** The first document with `key` already holds every field of `fields`. */
  ghost predicate Settled(docs: seq<Entries>, key: string, fields: Entries)
  {
    var m := FirstMatch(docs, key);
    m.Some? && SetFields(docs[m.value], fields) == docs[m.value]
  }

  /** After an upsert that writes its own key, the key is settled. */
  lemma UpsertSettles(docs: seq<Entries>, key: string, fields: Entries, freshId: ObjectId)
    requires SeedsItself(fields, key)
    ensures Settled(Upsert(docs, key, fields, freshId).0, key, fields)
  {
    var after := Upsert(docs, key, fields, freshId).0;
    var m := FirstMatch(docs, key);
    var i := if m.Some? then m.value else |docs|;
    var base := if m.Some? then docs[i] else [("_id", Oid(freshId)), ("category", Str(key))];
    assert after[i] == SetFields(base, fields);
    SetFieldsHolds(base, fields);
    var c := IndexOf(fields, "category");
    assert Get(SetFields(base, fields), fields[c].0) == Some(fields[c].1);
    assert HasCategory(after[i], key);
    assert forall j :: 0 <= j < i ==> after[j] == docs[j];
    assert FirstMatch(after, key) == Some(i);
    SetFieldsIdempotent(base, fields);
  }

  /** An upsert under another key leaves a settled key settled. */
  lemma UpsertKeepsSettled(docs: seq<Entries>, key: string, fields: Entries,
                           key2: string, fields2: Entries, freshId: ObjectId)
    requires Settled(docs, key, fields)
    requires SeedsItself(fields2, key2) && key2 != key
    ensures Settled(Upsert(docs, key2, fields2, freshId).0, key, fields)
  {
    var after := Upsert(docs, key2, fields2, freshId).0;
    var i := FirstMatch(docs, key).value;
    var m2 := FirstMatch(docs, key2);
    if m2.Some? {
      var j := m2.value;
      SetFieldsHolds(docs[j], fields2);
      var c := IndexOf(fields2, "category");
      assert Get(SetFields(docs[j], fields2), fields2[c].0) == Some(fields2[c].1);
      assert !HasCategory(after[j], key);
      assert j != i;
      assert forall l :: 0 <= l < |docs| && l != j ==> after[l] == docs[l];
    } else {
      assert forall l :: 0 <= l < |docs| ==> after[l] == docs[l];
    }
    assert FirstMatch(after, key) == Some(i);
  }

  /** Upserting a settled key changes nothing and reports no modification. */
  lemma UpsertSettledNoop(docs: seq<Entries>, key: string, fields: Entries, freshId: ObjectId)
    requires Settled(docs, key, fields)
    ensures Upsert(docs, key, fields, freshId) == (docs, UpdateResult(1, 0, None))
  {
    var i := FirstMatch(docs, key).value;
    assert docs[i := docs[i]] == docs;
  }

  /** An upsert leaves alone every document the filter does not match. */
  lemma UpsertOthersUntouched(docs: seq<Entries>, key: string, fields: Entries, freshId: ObjectId)
    ensures |Upsert(docs, key, fields, freshId).0| >= |docs|
    ensures forall j :: 0 <= j < |docs| && !HasCategory(docs[j], key) ==> Upsert(docs, key, fields, freshId).0[j] == docs[j]
  {
  }

  function SeedKey(fields: Entries): string
  {
    match Get(fields, "category")
    case Some(Str(s)) => s
    case _ => ""
  }

  /** The seed loop's effect: one upsert per seed, in order. */
  function SeedAll(docs: seq<Entries>, seeds: seq<Entries>, freshIds: seq<ObjectId>): seq<Entries>
    requires |freshIds| == |seeds|
  {
    if seeds == [] then docs
    else
      var n := |seeds| - 1;
      Upsert(SeedAll(docs, seeds[..n], freshIds[..n]), SeedKey(seeds[n]), seeds[n], freshIds[n]).0
  }

  /** Seeds that each carry their own key, with no key seeded twice. */
  ghost predicate WellFormedSeeds(seeds: seq<Entries>)
  {
    && (forall i :: 0 <= i < |seeds| ==> SeedsItself(seeds[i], SeedKey(seeds[i])))
    && (forall i, j :: 0 <= i < j < |seeds| ==> SeedKey(seeds[i]) != SeedKey(seeds[j]))
  }

  /** After seeding, every seed's key is settled. */
  lemma {:induction false} SeedAllSettles(docs: seq<Entries>, seeds: seq<Entries>, freshIds: seq<ObjectId>)
    requires |freshIds| == |seeds| && WellFormedSeeds(seeds)
    ensures forall i :: 0 <= i < |seeds| ==> Settled(SeedAll(docs, seeds, freshIds), SeedKey(seeds[i]), seeds[i])
  {
    if seeds != [] {
      var n := |seeds| - 1;
      var mid := SeedAll(docs, seeds[..n], freshIds[..n]);
      SeedAllSettles(docs, seeds[..n], freshIds[..n]);
      forall i | 0 <= i < |seeds| ensures Settled(SeedAll(docs, seeds, freshIds), SeedKey(seeds[i]), seeds[i]) {
        if i == n {
          UpsertSettles(mid, SeedKey(seeds[n]), seeds[n], freshIds[n]);
        } else {
          assert seeds[..n][i] == seeds[i];
          UpsertKeepsSettled(mid, SeedKey(seeds[i]), seeds[i], SeedKey(seeds[n]), seeds[n], freshIds[n]);
        }
      }
    }
  }

  /** Seeding a collection in which every seed is settled changes nothing. */
  lemma {:induction false} SeedAllSettledNoop(docs: seq<Entries>, seeds: seq<Entries>, freshIds: seq<ObjectId>)
    requires |freshIds| == |seeds|
    requires forall i :: 0 <= i < |seeds| ==> Settled(docs, SeedKey(seeds[i]), seeds[i])
    ensures SeedAll(docs, seeds, freshIds) == docs
  {
    if seeds != [] {
      var n := |seeds| - 1;
      forall i | 0 <= i < n ensures Settled(docs, SeedKey(seeds[..n][i]), seeds[..n][i]) {
        assert seeds[..n][i] == seeds[i];
      }
      SeedAllSettledNoop(docs, seeds[..n], freshIds[..n]);
      UpsertSettledNoop(docs, SeedKey(seeds[n]), seeds[n], freshIds[n]);
    }
  }

  /** Seeding twice leaves the collection as seeding once did. */
  lemma SeedIdempotent(docs: seq<Entries>, seeds: seq<Entries>, ids1: seq<ObjectId>, ids2: seq<ObjectId>)
    requires |ids1| == |seeds| == |ids2| && WellFormedSeeds(seeds)
    ensures SeedAll(SeedAll(docs, seeds, ids1), seeds, ids2) == SeedAll(docs, seeds, ids1)
  {
    SeedAllSettles(docs, seeds, ids1);
    SeedAllSettledNoop(SeedAll(docs, seeds, ids1), seeds, ids2);
  }

  /** Seeding leaves alone every stored document whose key no seed has. */
  lemma {:induction false} SeedOthersUntouched(docs: seq<Entries>, seeds: seq<Entries>, freshIds: seq<ObjectId>, j: nat)
    requires |freshIds| == |seeds| && j < |docs|
    requires forall i :: 0 <= i < |seeds| ==> !HasCategory(docs[j], SeedKey(seeds[i]))
    ensures j < |SeedAll(docs, seeds, freshIds)| && SeedAll(docs, seeds, freshIds)[j] == docs[j]
  {
    if seeds != [] {
      var n := |seeds| - 1;
      SeedOthersUntouched(docs, seeds[..n], freshIds[..n], j);
      UpsertOthersUntouched(SeedAll(docs, seeds[..n], freshIds[..n]), SeedKey(seeds[n]), seeds[n], freshIds[n]);
    }
  }

  function SubDoc(key: string, displayName: string, description: string, tip: string): Value
  {
    Dict([("key", Str(key)), ("display_name", Str(displayName)), ("description", Str(description)), ("tip", Str(tip))])
  }

  function CategoryDoc(category: string, displayName: string, discount: nat, description: string,
                       why: string, subs: seq<Value>): Entries
  {
    [("category", Str(category)), ("display_name", Str(displayName)), ("discount_amount", Int(discount)),
     ("description", Str(description)), ("why_we_need_this", Str(why)), ("sub_categories", List(subs))]
  }

  /** The five documents the seed endpoint writes, one constant each. */
  const OutdoorUnitSeed: Entries := CategoryDoc(
    "outdoor_unit", "The Outdoor Unit (AC or Heat Pump)", 150,
    "These photos tell us the age, size, efficiency, and condition of your system.",
    "This is crucial for us to understand your system's efficiency and overall condition.",
    [SubDoc("big_picture", "Big Picture", "Photo from 10–15 ft showing the whole outdoor unit.",
            "Make sure to capture surroundings too."),
     SubDoc("data_plate", "Data Plate", "Close photo of model/serial sticker.", "Wipe it clean if dirty.")])

  const PowerHubSeed: Entries := CategoryDoc(
    "power_hub", "The Power Hub (Breaker Panel)", 50,
    "Understand your home's electrical capacity for safe installation.",
    "Ensures your home can safely handle modern upgrades.",
    [SubDoc("panel_cover", "Panel Cover", "Closed breaker panel with brand visible.", "Stand back 3–4 feet."),
     SubDoc("inside_panel", "Inside Panel", "Open panel showing breakers.", "Use flash for clarity.")])

  const CommandCenterSeed: Entries := CategoryDoc(
    "command_center", "Command Center (Thermostat)", 25,
    "Helps us recommend the best smart thermostat upgrades.",
    "Shows how you control your system.",
    [SubDoc("main_thermostat", "Main Thermostat", "Photo of your main thermostat.", "Capture the display clearly.")])

  const IndoorSystemSeed: Entries := CategoryDoc(
    "indoor_system", "Indoor System", 500,
    "Helps us understand your air handler/furnace.",
    "Tells us about indoor air movement and heating/cooling compatibility.",
    [SubDoc("indoor_unit", "Indoor Unit", "Photo of air handler/furnace.", "Include labels if visible.")])

  const EnergyBillSeed: Entries := CategoryDoc(
    "energy_bill", "Energy Bill", 200,
    "Shows your current usage to estimate savings.",
    "Helps us project efficiency improvements.",
    [SubDoc("recent_bill", "Recent Bill", "Photo of your latest energy bill.",
            "Ensure account # and kWh usage are visible.")])

  const SeedData: seq<Entries> := [OutdoorUnitSeed, PowerHubSeed, CommandCenterSeed, IndoorSystemSeed, EnergyBillSeed]

  /** A registry entry of the image service written as a document. */
  function RegistryDoc(c: Images.CategoryInfo): Entries
  {
    CategoryDoc(c.category, c.displayName, c.discountAmount, c.description, c.whyWeNeedThis,
                seq(|c.subCategories|, i requires 0 <= i < |c.subCategories| =>
                  SubDoc(c.subCategories[i].key, c.subCategories[i].displayName,
                         c.subCategories[i].description, c.subCategories[i].tip)))
  }

  /** The seed documents are the image service's registry, field for field. */
  lemma SeedDataIsRegistry()
    ensures |SeedData| == |Images.Registry|
    ensures forall i :: 0 <= i < |SeedData| ==> SeedData[i] == RegistryDoc(Images.Registry[i])
  {
    forall i | 0 <= i < 5 ensures SeedData[i] == RegistryDoc(Images.Registry[i]) {
      var c := Images.Registry[i];
      var subs := seq(|c.subCategories|, j requires 0 <= j < |c.subCategories| =>
                    SubDoc(c.subCategories[j].key, c.subCategories[j].displayName,
                           c.subCategories[j].description, c.subCategories[j].tip));
      assert SeedData[i][5].1.items == subs;
    }
  }

  lemma CategoryDocKeys(category: string, displayName: string, discount: nat, description: string,
                        why: string, subs: seq<Value>)
    ensures var d := CategoryDoc(category, displayName, discount, description, why, subs);
      SeedsItself(d, category) && SeedKey(d) == category
  {
    var d := CategoryDoc(category, displayName, discount, description, why, subs);
    assert Keys(d) == ["category", "display_name", "discount_amount", "description", "why_we_need_this", "sub_categories"];
    GetFirst(d, "category", 0);
  }

  /** The `i`-th seed carries the `i`-th category key of the registry. */
  lemma SeedAt(i: nat)
    requires i < |SeedData|
    ensures SeedsItself(SeedData[i], Images.CategoryKeys[i]) && SeedKey(SeedData[i]) == Images.CategoryKeys[i]
  {
    var d := SeedData[i];
    CategoryDocKeys(d[0].1.s, d[1].1.s, d[2].1.i, d[3].1.s, d[4].1.s, d[5].1.items);
  }

  /** Every seed carries its own key, and no key is seeded twice. */
  lemma SeedDataWellFormed()
    ensures WellFormedSeeds(SeedData)
    ensures forall i :: 0 <= i < |SeedData| ==> SeedKey(SeedData[i]) == Images.CategoryKeys[i]
  {
    forall i | 0 <= i < |SeedData|
      ensures SeedsItself(SeedData[i], SeedKey(SeedData[i])) && SeedKey(SeedData[i]) == Images.CategoryKeys[i]
    {
      SeedAt(i);
    }
    Images.RegistryFacts();
  }

  /** Seeding the five categories a second time changes nothing. */
  lemma CategorySeedingIdempotent(docs: seq<Entries>, ids1: seq<ObjectId>, ids2: seq<ObjectId>)
    requires |ids1| == |SeedData| == |ids2|
    ensures SeedAll(SeedAll(docs, SeedData, ids1), SeedData, ids2) == SeedAll(docs, SeedData, ids1)
  {
    SeedDataWellFormed();
    SeedIdempotent(docs, SeedData, ids1, ids2);
  }

  /** Seeding touches no stored document whose category is not one of the five. */
  lemma CategorySeedingOthersUntouched(docs: seq<Entries>, ids: seq<ObjectId>, j: nat)
    requires |ids| == |SeedData| && j < |docs|
    requires forall k :: k in Images.CategoryKeys ==> !HasCategory(docs[j], k)
    ensures j < |SeedAll(docs, SeedData, ids)| && SeedAll(docs, SeedData, ids)[j] == docs[j]
  {
    SeedDataWellFormed();
    assert forall i :: 0 <= i < |SeedData| ==> SeedKey(SeedData[i]) in Images.CategoryKeys;
    SeedOthersUntouched(docs, SeedData, ids, j);
  }

  /** A body as the update endpoint stores it: its own "category" kept, else the path key added. */
  function FillCategory(body: Entries, key: string): (r: Entries)
    ensures HasKey(body, "category") ==> r == body
    ensures !HasKey(body, "category") ==> Get(r, "category") == Some(Str(key))
  {
    if HasKey(body, "category") then body
    else
      var r := body + [("category", Str(key))];
      assert Keys(r)[|body|] == "category";
      GetFirst(r, "category", |body|);
      r
  }

  datatype UpdateResponse = UpdateResponse(category: string, modifiedCount: nat, upserted: bool)

  /** The new collection and the reply of `update_hvac_category`; every failure is a 500. */
  function UpdateCategorySpec(docs: seq<Entries>, key: string, body: Entries, freshId: ObjectId)
    : (seq<Entries>, Result<UpdateResponse, nat>)
  {
    var (after, res) := Upsert(docs, key, FillCategory(body, key), freshId);
    if res.modifiedCount > 0 || res.upsertedId.Some? then
      (after, Ok(UpdateResponse(key, res.modifiedCount, res.upsertedId.Some?)))
    else
      (after, Err(500))
  }

  /**
   * The update fails exactly when a document with the key exists and
   * already holds every field of the body; the collection is then left as
   * it was. When no document has the key one is inserted.
   */
  lemma UpdateCategoryOutcome(docs: seq<Entries>, key: string, body: Entries, freshId: ObjectId)
    ensures var (after, r) := UpdateCategorySpec(docs, key, body, freshId);
      var m := FirstMatch(docs, key);
      && (r.Err? <==> m.Some? && SetFields(docs[m.value], FillCategory(body, key)) == docs[m.value])
      && (r.Err? ==> after == docs && r.error == 500)
      && (m.None? ==> r == Ok(UpdateResponse(key, 0, true)) && |after| == |docs| + 1)
  {
    var m := FirstMatch(docs, key);
    if m.Some? {
      assert docs[m.value := docs[m.value]] == docs;
    }
  }

  /**
   * The stored category is the body's own "category" when it has one, so
   * a body naming another key renames the matched document; otherwise it
   * is the path key.
   */
  lemma UpdateCategoryStoredKey(docs: seq<Entries>, key: string, body: Entries, freshId: ObjectId)
    requires DistinctKeys(body)
    ensures var after := UpdateCategorySpec(docs, key, body, freshId).0;
      var m := FirstMatch(docs, key);
      var i := if m.Some? then m.value else |docs|;
      i < |after| && Get(after[i], "category") == (if HasKey(body, "category") then Get(body, "category") else Some(Str(key)))
  {
    var fields := FillCategory(body, key);
    var m := FirstMatch(docs, key);
    var base := if m.Some? then docs[m.value] else [("_id", Oid(freshId)), ("category", Str(key))];
    if !HasKey(body, "category") {
      var r := body + [("category", Str(key))];
      assert fields == r;
      assert Keys(r) == Keys(body) + ["category"];
      assert DistinctKeys(fields);
    }
    SetFieldsHolds(base, fields);
    var c := IndexOf(fields, "category");
    assert Get(SetFields(base, fields), fields[c].0) == Some(fields[c].1);
  }

  /** The category collection. */
  class CategoryCollection {
    var docs: seq<Entries>

    constructor (docs: seq<Entries>)
      ensures this.docs == docs
    {
      this.docs := docs;
    }

    method UpdateOne(key: string, fields: Entries, freshId: ObjectId) returns (r: UpdateResult)
      modifies this
      ensures (docs, r) == Upsert(old(docs), key, fields, freshId)
    {
      var (after, res) := Upsert(docs, key, fields, freshId);
      docs := after;
      r := res;
    }

    /** The seed loop: one upsert per seed document, in order, under its own key. */
    method UpsertEach(seeds: seq<Entries>, freshIds: seq<ObjectId>)
      requires |freshIds| == |seeds|
      modifies this
      ensures docs == SeedAll(old(docs), seeds, freshIds)
    {
      for i := 0 to |seeds|
        invariant docs == SeedAll(old(docs), seeds[..i], freshIds[..i])
      {
        assert seeds[..i + 1][..i] == seeds[..i];
        assert freshIds[..i + 1][..i] == freshIds[..i];
        var _ := UpdateOne(SeedKey(seeds[i]), seeds[i], freshIds[i]);
      }
      assert seeds[..|seeds|] == seeds;
      assert freshIds[..|freshIds|] == freshIds;
    }

    /**
     * `seed_hvac_categories`: the seed loop over the five categories,
     * answering with their number and the seed documents themselves.
     */
    method Seed(freshIds: seq<ObjectId>) returns (total: nat, categories: seq<Entries>)
      requires |freshIds| == |SeedData|
      modifies this
      ensures docs == SeedAll(old(docs), SeedData, freshIds)
      ensures total == 5 && categories == SeedData
    {
      UpsertEach(SeedData, freshIds);
      total := |SeedData|;
      categories := SeedData;
    }

    /** `update_hvac_category`. */
    method UpdateCategory(key: string, body: Entries, freshId: ObjectId) returns (r: Result<UpdateResponse, nat>)
      modifies this
      ensures (docs, r) == UpdateCategorySpec(old(docs), key, body, freshId)
    {
      var fields := FillCategory(body, key);
      var res := UpdateOne(key, fields, freshId);
      if res.modifiedCount > 0 || res.upsertedId.Some? {
        r := Ok(UpdateResponse(key, res.modifiedCount, res.upsertedId.Some?));
      } else {
        r := Err(500);
      }
    }
  }

  const ListLimit: nat := 1000

  /**
   * `get_hvac_image_categories`: at most 1000 stored documents, each
   * serialised, in stored order; an empty collection gives [].
   */
  function ListCategories(docs: seq<Entries>): (r: seq<Value>)
    ensures |r| == (if |docs| <= ListLimit then |docs| else ListLimit)
    ensures docs == [] ==> r == []
    ensures forall i :: 0 <= i < |r| ==> r[i] == Serialize(Dict(docs[i]))
  {
    var found := if |docs| <= ListLimit then docs else docs[..ListLimit];
    if found == [] then [] else seq(|found|, i requires 0 <= i < |found| => Serialize(Dict(found[i])))
  }

  /**
   * The listed documents keep their keys and no dict field in them holds
   * an ObjectId; an ObjectId that is a list element is passed through as it is.
   */
  lemma ListingIsJsonSafe(docs: seq<Entries>)
    ensures forall i :: 0 <= i < |ListCategories(docs)| ==>
      var v := ListCategories(docs)[i];
      v.Dict? && Keys(v.entries) == Keys(docs[i]) && NoOidFields(v)
  {
    forall i | 0 <= i < |ListCategories(docs)|
      ensures var v := ListCategories(docs)[i]; v.Dict? && Keys(v.entries) == Keys(docs[i]) && NoOidFields(v)
    {
      SerializeShape(Dict(docs[i]));
      SerializeRemovesOidFields(Dict(docs[i]));
    }
  }

  /** `get_hvac_categories_from_db`: the same listing with its count. */
  function AdminListCategories(docs: seq<Entries>): (r: (nat, seq<Value>))
    ensures r.0 == |r.1| && r.1 == ListCategories(docs)
  {
    var listed := ListCategories(docs);
    (|listed|, listed)
  }
}
