/**
 * The pydantic models: `MongoBaseModel.from_mongo` and `dict`, and the
 * field defaults of `QuizQuestion` and `Consultation`.
 */
module Models {
  import opened Outcomes
  import opened Bson

  datatype QuizQuestion = QuizQuestion(
    id: Option<string>, questionText: string, inputType: string,
    options: Option<seq<string>>, isRequired: bool, order: int)

  datatype ConsultationModel = ConsultationModel(
    id: Option<string>, sessionId: string, userId: Option<string>,
    quizAnswers: Entries, status: string, images: seq<Value>)

  /** `model_fields` of each model (`created_at` included, though it is not modelled). */
  const QuizQuestionFields: set<string> := {"id", "question_text", "input_type", "options", "is_required", "order"}
  const ConsultationFields: set<string> := {"id", "session_id", "user_id", "quiz_answers", "created_at", "status", "images"}

  /** A Python dict owned by the caller, which `from_mongo` changes in place. */
  class DictRef {
    var entries: Entries

    constructor (entries: Entries)
      ensures this.entries == entries
    {
      this.entries := entries;
    }
  }

  /** Line 54-55 of `from_mongo`: an ObjectId `_id` becomes its string. */
  function StringifyId(e: Entries): (r: Entries)
    ensures |r| == |e| && Keys(r) == Keys(e)
    ensures forall i :: 0 <= i < |e| && e[i].0 != "_id" ==> r[i] == e[i]
    ensures Get(e, "_id").Some? && Get(e, "_id").value.Oid? ==> Get(r, "_id") == Some(Str(Get(e, "_id").value.oid.hex))
  {
    match Get(e, "_id")
    case Some(Oid(o)) =>
      SetGet(e, "_id", Str(o.hex), "_id");
      Set(e, "_id", Str(o.hex))
    case _ => e
  }

  /** The entries a model keeps: its own fields and `_id`. */
  predicate Kept(fields: set<string>, k: string)
  {
    k in fields || k == "_id"
  }

  function FilterFields(e: Entries, fields: set<string>): (r: Entries)
  {
    if e == [] then []
    else (if Kept(fields, e[0].0) then [e[0]] else []) + FilterFields(e[1..], fields)
  }

  /**
   * The filter keeps exactly the entries whose key is a model field or
   * `_id`, values unchanged, and drops the others.
   */
  lemma {:induction false} FilterFieldsSpec(e: Entries, fields: set<string>)
    ensures forall kv :: kv in FilterFields(e, fields) <==> kv in e && Kept(fields, kv.0)
    ensures |FilterFields(e, fields)| <= |e|
  {
    if e != [] {
      FilterFieldsSpec(e[1..], fields);
      assert forall kv :: kv in e <==> kv == e[0] || kv in e[1..];
    }
  }

  /**
   * `from_mongo`: `None` gives `None`; otherwise the caller's dict has its
   * ObjectId `_id` replaced by the string first, and the filtered entries
   * of the updated dict are what the model is built from.
   */
  method FromMongo(data: DictRef?, fields: set<string>) returns (r: Option<Entries>)
    modifies data
    ensures data == null ==> r == None
    ensures data != null ==>
      data.entries == StringifyId(old(data.entries)) && r == Some(FilterFields(data.entries, fields))
  {
    if data == null {
      return None;
    }
    data.entries := StringifyId(data.entries);
    var entries := data.entries;
    var filtered: Entries := [];
    var i := 0;
    while i < |entries|
      invariant 0 <= i <= |entries|
      invariant data.entries == entries
      invariant filtered + FilterFields(entries[i..], fields) == FilterFields(entries, fields)
    {
      assert entries[i..] == [entries[i]] + entries[i + 1..];
      if Kept(fields, entries[i].0) {
        filtered := filtered + [entries[i]];
      }
      i := i + 1;
    }
    assert entries[i..] == [];
    assert filtered == FilterFields(entries, fields);
    assert data.entries == StringifyId(old(data.entries));
    r := Some(filtered);
  }

  /** A model instance whose `id` attribute `dict()` may rewrite. */
  class Instance {
    var id: Value
    var fields: Entries

    constructor (id: Value, fields: Entries)
      ensures this.id == id && this.fields == fields
    {
      this.id := id;
      this.fields := fields;
    }

    /**
     * `MongoBaseModel.dict`: unless `by_alias=False` is passed, a truthy
     * ObjectId id is stringified on the instance itself; the dump names the
     * id `_id` only when `by_alias=True` is passed (pydantic's own default
     * is `False`).
     */
    method Dict(byAlias: Option<bool>) returns (r: Entries)
      modifies this
      ensures fields == old(fields)
      ensures id == (if byAlias != Some(false) && old(id).Oid? then Str(old(id).oid.hex) else old(id))
      ensures r == [(if byAlias == Some(true) then "_id" else "id", id)] + fields
    {
      if byAlias != Some(false) && Truthy(id) && id.Oid? {
        id := Str(id.oid.hex);
      }
      r := [(if byAlias == Some(true) then "_id" else "id", id)] + fields;
    }
  }

  /** A string-valued field, or `None` when absent or of another type. */
  function StrField(e: Entries, k: string): Option<string>
  {
    match Get(e, k)
    case Some(Str(s)) => Some(s)
    case _ => None
  }

  function OptionsField(e: Entries): Option<Option<seq<string>>>
  {
    match Get(e, "options")
    case None => Some(None)
    case Some(Null) => Some(None)
    case Some(List(items)) =>
      if forall i :: 0 <= i < |items| ==> items[i].Str?
      then Some(Some(seq(|items|, i requires 0 <= i < |items| => items[i].s)))
      else None
    case _ => None
  }

  /**
   * An `Optional[str]` field: absent or `None` gives `None`, a string
   * gives itself, and anything else (an ObjectId, a number) is a
   * validation error, written `None` here.
   */
  function OptStrField(e: Entries, k: string): (r: Option<Option<string>>)
    ensures Get(e, k).None? ==> r == Some(None)
    ensures r.Some? && r.value.Some? <==> Get(e, k).Some? && Get(e, k).value.Str?
    ensures r.None? <==> Get(e, k).Some? && !Get(e, k).value.Str? && !Get(e, k).value.Null?
  {
    match Get(e, k)
    case None => Some(None)
    case Some(Null) => Some(None)
    case Some(Str(s)) => Some(Some(s))
    case _ => None
  }

  /**
   * `QuizQuestion(**data)`: `question_text`, `input_type` and `order` are
   * mandatory; `options` defaults to `None` and `is_required` to `False`;
   * `_id` must be a string or `None`. `None` is a validation error.
   */
  function BuildQuizQuestion(e: Entries): (r: Option<QuizQuestion>)
    ensures r.Some? ==> Get(e, "order").Some? && Get(e, "order").value == Int(r.value.order)
    ensures r.Some? && !HasKey(e, "is_required") ==> !r.value.isRequired
    ensures r.Some? && !HasKey(e, "options") ==> r.value.options.None?
    ensures r.Some? ==> OptStrField(e, "_id") == Some(r.value.id)
    ensures !HasKey(e, "order") ==> r.None?
  {
    match (OptStrField(e, "_id"), StrField(e, "question_text"), StrField(e, "input_type"), Get(e, "order"),
           OptionsField(e), Get(e, "is_required"))
    case (Some(id), Some(text), Some(kind), Some(Int(order)), Some(options), None) =>
      Some(QuizQuestion(id, text, kind, options, false, order))
    case (Some(id), Some(text), Some(kind), Some(Int(order)), Some(options), Some(Bool(required))) =>
      Some(QuizQuestion(id, text, kind, options, required, order))
    case _ => None
  }

  /**
   * One element of `Consultation.images` as `ConsultationImage` validates
   * it: a dict with string `consultation_id`, `image_type` and
   * `image_path`, an `_id` that is a string or `None`, and an
   * `analysis_result` that is absent, `None` or a dict.
   */
  predicate ImageValid(v: Value)
  {
    && v.Dict?
    && StrField(v.entries, "consultation_id").Some?
    && StrField(v.entries, "image_type").Some?
    && StrField(v.entries, "image_path").Some?
    && OptStrField(v.entries, "_id").Some?
    && match Get(v.entries, "analysis_result")
       case None => true
       case Some(Null) => true
       case Some(Dict(_)) => true
       case _ => false
  }

  /**
   * The image entries the upload endpoint appends (number, URL, original
   * filename, timestamp) are not valid `ConsultationImage`s: they carry
   * none of its three mandatory fields.
   */
  lemma WrittenImageRejected(n: int, url: string, filename: Value, createdAt: Value)
    ensures !ImageValid(Dict([("image_number", Int(n)), ("image_url", Str(url)),
                              ("original_filename", filename), ("created_at", createdAt)]))
  {
    var e := [("image_number", Int(n)), ("image_url", Str(url)), ("original_filename", filename), ("created_at", createdAt)];
    GetMissing(e, "consultation_id");
  }

  /**
   * `Consultation(**data)`: `session_id` is mandatory; `user_id` defaults
   * to `None`, `quiz_answers` to `{}`, `status` to "pending" and `images`
   * to `[]`; every image must validate and `_id` and `user_id` must be
   * strings or `None`.
   */
  function BuildConsultation(e: Entries): (r: Option<ConsultationModel>)
    ensures StrField(e, "session_id").None? ==> r.None?
    ensures r.Some? ==> r.value.sessionId == StrField(e, "session_id").value
    ensures r.Some? ==> OptStrField(e, "_id") == Some(r.value.id) && OptStrField(e, "user_id") == Some(r.value.userId)
    ensures r.Some? && !HasKey(e, "status") ==> r.value.status == "pending"
    ensures r.Some? && !HasKey(e, "quiz_answers") ==> r.value.quizAnswers == []
    ensures r.Some? && !HasKey(e, "images") ==> r.value.images == []
    ensures r.Some? ==> forall i :: 0 <= i < |r.value.images| ==> ImageValid(r.value.images[i])
  {
    var answers: Option<Entries> :=
      match Get(e, "quiz_answers")
      case None => Some([])
      case Some(Dict(a)) => Some(a)
      case _ => None;
    var status: Option<string> :=
      match Get(e, "status")
      case None => Some("pending")
      case Some(Str(s)) => Some(s)
      case _ => None;
    var images: Option<seq<Value>> :=
      match Get(e, "images")
      case None => Some([])
      case Some(List(xs)) => if forall i :: 0 <= i < |xs| ==> ImageValid(xs[i]) then Some(xs) else None
      case _ => None;
    if && StrField(e, "session_id").Some? && OptStrField(e, "_id").Some? && OptStrField(e, "user_id").Some?
       && answers.Some? && status.Some? && images.Some?
    then
      Some(ConsultationModel(OptStrField(e, "_id").value, StrField(e, "session_id").value,
                             OptStrField(e, "user_id").value, answers.value, status.value, images.value))
    else None
  }

  /**
   * The document `create_session` inserts (its `created_at` left out)
   * builds the same model as the defaults: status "pending", no answers,
   * no images, no user.
   */
  lemma CreateSessionMatchesDefaults(sessionId: string, id: ObjectId)
    ensures var doc := [("_id", Str(id.hex)), ("session_id", Str(sessionId)), ("status", Str("pending")), ("quiz_answers", Dict([]))];
      BuildConsultation(doc) == BuildConsultation([("_id", Str(id.hex)), ("session_id", Str(sessionId))])
      == Some(ConsultationModel(Some(id.hex), sessionId, None, [], "pending", []))
  {
    BuildCreatedDoc([("_id", Str(id.hex)), ("session_id", Str(sessionId)), ("status", Str("pending")), ("quiz_answers", Dict([]))],
                    sessionId, id);
    BuildBareDoc([("_id", Str(id.hex)), ("session_id", Str(sessionId))], sessionId, id);
  }

  lemma BuildCreatedDoc(doc: Entries, sessionId: string, id: ObjectId)
    requires doc == [("_id", Str(id.hex)), ("session_id", Str(sessionId)), ("status", Str("pending")), ("quiz_answers", Dict([]))]
    ensures BuildConsultation(doc) == Some(ConsultationModel(Some(id.hex), sessionId, None, [], "pending", []))
  {
    GetFirst(doc, "_id", 0);
    GetFirst(doc, "session_id", 1);
    GetFirst(doc, "status", 2);
    GetFirst(doc, "quiz_answers", 3);
    GetMissing(doc, "user_id");
    GetMissing(doc, "images");
    BuildFromFields(doc, sessionId, id);
  }

  lemma BuildBareDoc(bare: Entries, sessionId: string, id: ObjectId)
    requires bare == [("_id", Str(id.hex)), ("session_id", Str(sessionId))]
    ensures BuildConsultation(bare) == Some(ConsultationModel(Some(id.hex), sessionId, None, [], "pending", []))
  {
    GetFirst(bare, "_id", 0);
    GetFirst(bare, "session_id", 1);
    GetMissing(bare, "user_id");
    GetMissing(bare, "images");
    GetMissing(bare, "status");
    GetMissing(bare, "quiz_answers");
    BuildFromFields(bare, sessionId, id);
  }

  /** A document with an id, a session id, no user, no images and at most the default status and answers. */
  lemma BuildFromFields(e: Entries, sessionId: string, id: ObjectId)
    requires Get(e, "_id") == Some(Str(id.hex)) && Get(e, "session_id") == Some(Str(sessionId))
    requires Get(e, "status") in {None, Some(Str("pending"))}
    requires Get(e, "quiz_answers") in {None, Some(Dict([]))}
    requires Get(e, "user_id") == None && Get(e, "images") == None
    ensures BuildConsultation(e) == Some(ConsultationModel(Some(id.hex), sessionId, None, [], "pending", []))
  {
  }
}
