/**
 * The quiz router: the literal question catalogue, the one-shot seeding of
 * the question collection, and the ordered listing of the questions.
 */
module Quiz {
  import opened Outcomes
  import opened Text
  import opened Bson
  import Models
  import Pricing

  /** One catalogue entry as the seeding inserts it; the `_id` comes from the insert. */
  datatype QuestionSeed = QuestionSeed(
    text: string, inputType: string, options: Option<seq<string>>, isRequired: bool, order: int)

  /** A stored question document. */
  datatype QuestionDoc = QuestionDoc(id: ObjectId, seed: QuestionSeed)

  const SquareFootageOptions: seq<string> :=
    ["Under 1,500 sq ft", "1,500 - 2,200 sq ft", "2,200 - 3,000 sq ft", "Over 3,000 sq ft"]

  const SystemCountOptions: seq<string> := ["1", "2", "3", "4"]

  /**
   * The three question texts the pricing step searches for, each written
   * in pieces around the phrase it is found by.
   */
  const SquareFootageQuestion: string :=
    "What's the approximate " + "square footage" + " of the area this system heats and cools?"
  const SystemCountQuestion: string := "How many separate systems" + " control your home's temperature?"
  const ProjectGoalQuestion: string :=
    "When it comes to a new system, " + "which of these sounds most like you" + "?"

  /** The eleven questions of `seed_quiz_questions`, in the order they are inserted. */
  const Catalogue: seq<QuestionSeed> := [
    QuestionSeed("What is your full name?", "text", None, true, 1),
    QuestionSeed("What is the address of the property for this project?", "text", None, true, 2),
    QuestionSeed("What's the best email to send your report to?", "email", None, true, 3),
    QuestionSeed("And what is a good mobile number in case we get disconnected during a future call?", "tel", None, true, 4),
    QuestionSeed("About how old is your main HVAC system?", "radio",
                 Some(["0-5 Years", "6-10 Years", "11-15 Years", "15+ Years"]), true, 5),
    QuestionSeed(SquareFootageQuestion, "radio",
                 Some(SquareFootageOptions), true, 6),
    QuestionSeed(SystemCountQuestion, "radio",
                 Some(SystemCountOptions), true, 7),
    QuestionSeed("What kind of system do you currently have?", "radio",
                 Some(["Furnace/Air Conditioner", "Heat Pump/Air handler", "Mini Split", "Package unit"]), true, 8),
    QuestionSeed("Anyone have any underlying health conditions like seasonal allergies etc?", "text", None, false, 9),
    QuestionSeed("What's the #1 frustration you're hoping to solve with a new system? (Check all that apply)", "checkbox",
                 Some(["High Energy Bills", "Uneven Temperatures (Hot & cold spots)",
                       "Poor Air Quality (Allergies, dust, stuffiness)", "System is Too Loud",
                       "It's Unreliable / Broken Down", "It's Just Old & I'm Planning Ahead"]), true, 10),
    QuestionSeed(ProjectGoalQuestion, "radio",
                 Some(["Budget-Focused", "Efficiency & Value", "Ultimate Comfort"]), true, 11)
  ]

  /** Seeded orders are 1..11, hence pairwise distinct as the unique index on `order` demands. */
  lemma CatalogueOrders()
    ensures |Catalogue| == 11
    ensures forall i :: 0 <= i < |Catalogue| ==> Catalogue[i].order == i + 1
    ensures forall i, j :: 0 <= i < j < |Catalogue| ==> Catalogue[i].order != Catalogue[j].order
  {
  }

  /** Radio and checkbox questions carry a non-empty options list; text, email and tel ones carry none. */
  lemma CatalogueOptions()
    ensures forall i :: 0 <= i < |Catalogue| ==>
      (Catalogue[i].options.Some? <==> Catalogue[i].inputType in {"radio", "checkbox"})
    ensures forall i :: 0 <= i < |Catalogue| && Catalogue[i].options.Some? ==> |Catalogue[i].options.value| > 0
    ensures forall i :: 0 <= i < |Catalogue| ==> Catalogue[i].inputType in {"text", "email", "tel", "radio", "checkbox"}
  {
  }

  /** Only the question of order 9 is optional. */
  lemma CatalogueRequired()
    ensures forall i :: 0 <= i < |Catalogue| ==> (!Catalogue[i].isRequired <==> Catalogue[i].order == 9)
  {
  }

  /** The square-footage options give the four tonnages 2.5, 3.5, 4.0 and 5.0, in that order. */
  lemma SquareFootageOptionsTonnage()
    ensures Catalogue[5].options == Some(SquareFootageOptions) && |SquareFootageOptions| == 4
    ensures forall k :: 0 <= k < 4 ==> Pricing.DetermineTonnage(SquareFootageOptions[k]) == Pricing.BucketTonnage[k]
    ensures forall k, j :: 0 <= k < j < 4 ==>
      Pricing.DetermineTonnage(SquareFootageOptions[k]) != Pricing.DetermineTonnage(SquareFootageOptions[j])
  {
    Pricing.SmallLabelTonnage();
    Pricing.MidLabelTonnage();
    Pricing.LargeLabelTonnage();
    Pricing.LargestLabelTonnage();
  }

  /** The system-count options "1".."4" give system counts 1..4. */
  lemma SystemCountOptionsCount()
    ensures Catalogue[6].options == Some(SystemCountOptions) && |SystemCountOptions| == 4
    ensures forall k :: 0 <= k < 4 ==> Pricing.ExtractSystemCount(Str(SystemCountOptions[k])) == Some(k + 1)
  {
    ContainsAt("1", "1", 0);
    NotContainsMissingChar("2", "1", '1');
    ContainsAt("2", "2", 0);
    NotContainsMissingChar("3", "1", '1');
    NotContainsMissingChar("3", "2", '2');
    ContainsAt("3", "3", 0);
    NotContainsMissingChar("4", "1", '1');
    NotContainsMissingChar("4", "2", '2');
    NotContainsMissingChar("4", "3", '3');
    ContainsAt("4", "4", 0);
  }

  /** The catalogue entries of orders 6, 7 and 11 carry those texts. */
  lemma PricingQuestionsInCatalogue()
    ensures Catalogue[5].text == SquareFootageQuestion && Catalogue[5].order == 6
    ensures Catalogue[6].text == SystemCountQuestion && Catalogue[6].order == 7
    ensures Catalogue[10].text == ProjectGoalQuestion && Catalogue[10].order == 11
  {
  }

  /**
   * Lower-cased, the texts of orders 6, 7 and 11 hold the phrases the
   * pricing step looks for.
   */
  lemma SquareFootageTextMatches()
    ensures Contains(Lower(SquareFootageQuestion), "square footage")
  {
    LowerNoCapitals("square footage");
    LoweredPhrase(SquareFootageQuestion, "What's the approximate " + "square footage", "What's the approximate ",
                  "square footage", " of the area this system heats and cools?");
  }

  lemma LoweredSystemCountHead(h: string)
    requires h == "H" + "ow many separate systems"
    ensures Lower(h) == "how many separate systems"
  {
    var tail := "ow many separate systems";
    LowerConcat("H", tail);
    assert Lower("H") == "h" by { assert Lower("H")[0] == LowerChar('H'); }
    LowerNoCapitals(tail);
  }

  lemma SystemCountTextMatches()
    ensures Contains(Lower(SystemCountQuestion), "how many separate systems")
  {
    var head := "How many separate systems";
    assert head == "H" + "ow many separate systems";
    LoweredSystemCountHead(head);
    assert head == [] + head;
    LoweredPhrase(SystemCountQuestion, head, [], head, " control your home's temperature?");
  }

  lemma ProjectGoalTextMatches()
    ensures Contains(Lower(ProjectGoalQuestion), "which of these sounds most like you")
  {
    LowerNoCapitals("which of these sounds most like you");
    LoweredPhrase(ProjectGoalQuestion, "When it comes to a new system, " + "which of these sounds most like you",
                  "When it comes to a new system, ", "which of these sounds most like you", "?");
  }

  /** The documents `insert_many` stores: the catalogue stamped with the fresh ids. */
  function Stamp(ids: seq<ObjectId>): (r: seq<QuestionDoc>)
    requires |ids| == |Catalogue|
    ensures |r| == |Catalogue|
    ensures forall i :: 0 <= i < |r| ==> r[i].id == ids[i] && r[i].seed == Catalogue[i]
  {
    seq(|Catalogue|, i requires 0 <= i < |Catalogue| => QuestionDoc(ids[i], Catalogue[i]))
  }

  /** What seeding leaves behind: an existing collection as it was, an empty one filled with the catalogue. */
  function SeedResult(docs: seq<QuestionDoc>, ids: seq<ObjectId>): seq<QuestionDoc>
    requires |ids| == |Catalogue|
  {
    if |docs| > 0 then docs else Stamp(ids)
  }

  /** Seeding twice never duplicates: the second run leaves the first one's result unchanged. */
  lemma SeedOnce(docs: seq<QuestionDoc>, ids1: seq<ObjectId>, ids2: seq<ObjectId>)
    requires |ids1| == |Catalogue| && |ids2| == |Catalogue|
    ensures SeedResult(SeedResult(docs, ids1), ids2) == SeedResult(docs, ids1)
    ensures docs == [] ==> |SeedResult(docs, ids1)| == 11
    ensures docs != [] ==> SeedResult(docs, ids1) == docs
  {
    CatalogueOrders();
  }

  datatype SeedOutcome = AlreadySeeded(existing: nat) | Seeded(inserted: nat)

  predicate SortedByOrder(s: seq<QuestionDoc>)
  {
    forall i, j :: 0 <= i < j < |s| ==> s[i].seed.order <= s[j].seed.order
  }

  /** `sort("order", 1)`, as an insertion sort. */
  function Insert(d: QuestionDoc, s: seq<QuestionDoc>): seq<QuestionDoc>
  {
    if s == [] then [d]
    else if d.seed.order <= s[0].seed.order then [d] + s
    else [s[0]] + Insert(d, s[1..])
  }

  function SortByOrder(s: seq<QuestionDoc>): seq<QuestionDoc>
  {
    if s == [] then [] else Insert(s[0], SortByOrder(s[1..]))
  }

  lemma {:induction false} InsertElements(d: QuestionDoc, s: seq<QuestionDoc>)
    ensures multiset(Insert(d, s)) == multiset(s) + multiset{d}
    ensures |Insert(d, s)| == |s| + 1
  {
    if s != [] && d.seed.order > s[0].seed.order {
      assert s == [s[0]] + s[1..];
      InsertElements(d, s[1..]);
    }
  }

  lemma {:induction false} InsertSorted(d: QuestionDoc, s: seq<QuestionDoc>)
    requires SortedByOrder(s)
    ensures SortedByOrder(Insert(d, s))
  {
    if s != [] && d.seed.order > s[0].seed.order {
      InsertSorted(d, s[1..]);
      InsertElements(d, s[1..]);
      var t := Insert(d, s[1..]);
      forall k | 0 <= k < |t| ensures s[0].seed.order <= t[k].seed.order {
        assert t[k] in multiset(t);
        assert t[k] == d || t[k] in multiset(s[1..]);
      }
    }
  }

  /** The sorted listing is ordered by `order` and holds exactly the stored documents. */
  lemma {:induction false} SortByOrderSpec(s: seq<QuestionDoc>)
    ensures SortedByOrder(SortByOrder(s))
    ensures multiset(SortByOrder(s)) == multiset(s)
    ensures |SortByOrder(s)| == |s|
  {
    if s != [] {
      SortByOrderSpec(s[1..]);
      InsertElements(s[0], SortByOrder(s[1..]));
      InsertSorted(s[0], SortByOrder(s[1..]));
      assert s == [s[0]] + s[1..];
    }
  }

  /** `to_list(length=1000)`. */
  const ListLimit: nat := 1000

  function Take(s: seq<QuestionDoc>, n: nat): (r: seq<QuestionDoc>)
    ensures |r| == (if |s| <= n then |s| else n)
  {
    if |s| <= n then s else s[..n]
  }

  /** A stored document with its `_id` given as `id`, the way the driver returns it. */
  function DocEntries(d: QuestionDoc, id: Value): Entries
  {
    [("_id", id), ("question_text", Str(d.seed.text)), ("input_type", Str(d.seed.inputType))]
    + (match d.seed.options
       case None => []
       case Some(opts) => [("options", List(seq(|opts|, i requires 0 <= i < |opts| => Str(opts[i]))))])
    + [("is_required", Bool(d.seed.isRequired)), ("order", Int(d.seed.order))]
  }

  /** The model a listed document becomes: its fields, with its id as a string. */
  function ToModel(d: QuestionDoc): Models.QuizQuestion
  {
    Models.QuizQuestion(Some(d.id.hex), d.seed.text, d.seed.inputType, d.seed.options, d.seed.isRequired, d.seed.order)
  }

  /** A document whose `_id` is stringified builds the model of `ToModel`. */
  lemma BuildStoredDoc(d: QuestionDoc)
    ensures Models.BuildQuizQuestion(DocEntries(d, Str(d.id.hex))) == Some(ToModel(d))
  {
    var e := DocEntries(d, Str(d.id.hex));
    GetFirst(e, "_id", 0);
    GetFirst(e, "question_text", 1);
    GetFirst(e, "input_type", 2);
    if d.seed.options.None? {
      BuildWithoutOptions(d, e);
    } else {
      BuildWithOptions(d, e);
    }
  }

  lemma BuildWithoutOptions(d: QuestionDoc, e: Entries)
    requires d.seed.options.None? && e == DocEntries(d, Str(d.id.hex))
    requires Get(e, "_id") == Some(Str(d.id.hex))
    requires Get(e, "question_text") == Some(Str(d.seed.text)) && Get(e, "input_type") == Some(Str(d.seed.inputType))
    ensures Models.BuildQuizQuestion(e) == Some(ToModel(d))
  {
    assert |e| == 5;
    GetMissing(e, "options");
    GetFirst(e, "is_required", 3);
    GetFirst(e, "order", 4);
    BuildFromFields(d, e);
  }

  lemma BuildWithOptions(d: QuestionDoc, e: Entries)
    requires d.seed.options.Some? && e == DocEntries(d, Str(d.id.hex))
    requires Get(e, "_id") == Some(Str(d.id.hex))
    requires Get(e, "question_text") == Some(Str(d.seed.text)) && Get(e, "input_type") == Some(Str(d.seed.inputType))
    ensures Models.BuildQuizQuestion(e) == Some(ToModel(d))
  {
    var opts := d.seed.options.value;
    var items := seq(|opts|, i requires 0 <= i < |opts| => Str(opts[i]));
    assert |e| == 6 && e[3] == ("options", List(items));
    GetFirst(e, "options", 3);
    GetFirst(e, "is_required", 4);
    GetFirst(e, "order", 5);
    OptionsReadBack(e, opts);
    BuildFromFields(d, e);
  }

  /** A stored list of option strings reads back as those options. */
  lemma OptionsReadBack(e: Entries, opts: seq<string>)
    requires Get(e, "options") == Some(List(seq(|opts|, i requires 0 <= i < |opts| => Str(opts[i]))))
    ensures Models.OptionsField(e) == Some(Some(opts))
  {
    var items := seq(|opts|, i requires 0 <= i < |opts| => Str(opts[i]));
    assert seq(|items|, i requires 0 <= i < |items| => items[i].s) == opts;
  }

  /** A document whose fields read back as `d`'s builds the model of `d`. */
  lemma BuildFromFields(d: QuestionDoc, e: Entries)
    requires Get(e, "_id") == Some(Str(d.id.hex))
    requires Get(e, "question_text") == Some(Str(d.seed.text)) && Get(e, "input_type") == Some(Str(d.seed.inputType))
    requires Models.OptionsField(e) == Some(d.seed.options)
    requires Get(e, "is_required") == Some(Bool(d.seed.isRequired)) && Get(e, "order") == Some(Int(d.seed.order))
    ensures Models.BuildQuizQuestion(e) == Some(ToModel(d))
  {
  }

  /** `q` is the model of one of the stored documents. */
  ghost predicate ListsStored(docs: seq<QuestionDoc>, q: Models.QuizQuestion)
  {
    exists d :: d in docs && q == ToModel(d)
  }

  /** What the listing returns for the stored documents. */
  function Listing(docs: seq<QuestionDoc>): (r: seq<Models.QuizQuestion>)
  {
    var listed := Take(SortByOrder(docs), ListLimit);
    seq(|listed|, i requires 0 <= i < |listed| => ToModel(listed[i]))
  }

  /**
   * The listing is sorted by `order`, holds one model per stored document
   * (up to the 1000-document limit), and every listed model carries the
   * string form of a stored document's id.
   */
  lemma ListingSpec(docs: seq<QuestionDoc>)
    ensures |Listing(docs)| == (if |docs| <= ListLimit then |docs| else ListLimit)
    ensures forall i, j :: 0 <= i < j < |Listing(docs)| ==> Listing(docs)[i].order <= Listing(docs)[j].order
    ensures forall i :: 0 <= i < |Listing(docs)| ==> ListsStored(docs, Listing(docs)[i])
    ensures |docs| <= ListLimit ==> forall d :: d in docs ==> ToModel(d) in Listing(docs)
  {
    SortByOrderSpec(docs);
    var sorted := SortByOrder(docs);
    ListingFromDocs(docs);
    forall i, j | 0 <= i < j < |Listing(docs)| ensures Listing(docs)[i].order <= Listing(docs)[j].order {
      assert Listing(docs)[i] == ToModel(sorted[i]) && Listing(docs)[j] == ToModel(sorted[j]);
    }
    if |docs| <= ListLimit {
      ListingCovers(docs);
    }
  }

  lemma ListingFromDocs(docs: seq<QuestionDoc>)
    ensures forall i :: 0 <= i < |Listing(docs)| ==> ListsStored(docs, Listing(docs)[i])
  {
    SortByOrderSpec(docs);
    var sorted := SortByOrder(docs);
    forall i | 0 <= i < |Listing(docs)| ensures ListsStored(docs, Listing(docs)[i]) {
      var d := sorted[i];
      assert d in multiset(docs);
      assert d in docs && Listing(docs)[i] == ToModel(d);
      assert ListsStored(docs, Listing(docs)[i]);
    }
  }

  lemma ListingCovers(docs: seq<QuestionDoc>)
    requires |docs| <= ListLimit
    ensures forall d :: d in docs ==> ToModel(d) in Listing(docs)
  {
    SortByOrderSpec(docs);
    var sorted := SortByOrder(docs);
    forall d | d in docs ensures ToModel(d) in Listing(docs) {
      assert d in multiset(sorted);
      var k :| 0 <= k < |sorted| && sorted[k] == d;
      assert Listing(docs)[k] == ToModel(d);
    }
  }

  /** The question collection. */
  class QuestionCollection {
    var docs: seq<QuestionDoc>

    constructor ()
      ensures docs == []
    {
      docs := [];
    }

    /**
     * `seed_quiz_questions`: a non-empty collection is left alone and its
     * size reported; an empty one receives the eleven catalogue questions.
     */
    method Seed(freshIds: seq<ObjectId>) returns (out: SeedOutcome)
      requires |freshIds| == |Catalogue|
      modifies this
      ensures docs == SeedResult(old(docs), freshIds)
      ensures out == if |old(docs)| > 0 then AlreadySeeded(|old(docs)|) else Seeded(|Catalogue|)
    {
      var existing := |docs|;
      if existing > 0 {
        return AlreadySeeded(existing);
      }
      docs := docs + Stamp(freshIds);
      out := Seeded(|Catalogue|);
    }

    /**
     * `get_quiz_questions`: the documents sorted by `order`, at most 1000,
     * each with its `_id` turned into a string and built into a model.
     */
    method GetQuestions() returns (r: seq<Models.QuizQuestion>)
      ensures r == Listing(docs)
    {
      var listed := Take(SortByOrder(docs), ListLimit);
      r := [];
      var i := 0;
      while i < |listed|
        invariant 0 <= i <= |listed|
        invariant |r| == i && forall k :: 0 <= k < i ==> r[k] == ToModel(listed[k])
      {
        var q := BuildListed(listed[i]);
        r := r + [q];
        i := i + 1;
      }
    }

    /** One pass of the listing loop: the `_id` stringified and the model built. */
    static method BuildListed(d: QuestionDoc) returns (q: Models.QuizQuestion)
      ensures q == ToModel(d)
    {
      var built := Models.BuildQuizQuestion(DocEntries(d, Str(d.id.hex)));
      BuildStoredDoc(d);
      q := built.value;
    }
  }
}
