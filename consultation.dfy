/**
 * The consultation router: the consultation records keyed by session id
 * and the handlers that move a record through its statuses: create the
 * session, submit the quiz answers (validated against the question
 * collection), upload images (at most five, numbered in order), generate
 * the Good-Better-Best estimate and analyse the uploaded images.
 */
module Consultation {
  import opened Outcomes
  import opened Text
  import opened Bson
  import Pricing
  import Quiz
  import Storage
  import Analyzer

  /** One entry of a record's `images` list (its `created_at` left out). */
  datatype ImageEntry = ImageEntry(imageNumber: nat, imageUrl: string, originalFilename: string)

  /** A stored consultation (the timestamps left out). */
  datatype Consultation = Consultation(
    id: ObjectId, sessionId: string, status: string, quizAnswers: Entries, images: seq<ImageEntry>,
    pricingEstimate: Option<Pricing.Estimate>, imageAnalysis: Option<Analyzer.ConsultationAnalysis>)

  /** Why submitting answers is refused; each is a 400. */
  datatype AnswerError =
    | MissingRequired(questionText: string)
    | InvalidQuestionId(questionId: string)
    | NotANumber(questionText: string)
    | NotAList(questionText: string)
    | NotAnOption(questionText: string)
    | InvalidOptions(questionText: string, invalid: seq<Value>)

  /** The HTTP errors the handlers raise. */
  datatype Failure =
    | SessionNotFound
    | Answer(reason: AnswerError)
    | UpdateFailed
    | AnswersNotSubmitted
    | TooManyImages
    | NotAnImage
    | UploadFailed
    | AnswersRequired
    | EstimateFailed
    | ImagesNotUploaded
    | NoImages
    | AnalysisFailed

  function StatusCode(f: Failure): nat
  {
    match f
    case SessionNotFound => 404
    case NoImages => 404
    case UploadFailed => 500
    case EstimateFailed => 500
    case AnalysisFailed => 500
    case _ => 400
  }

  const MaxImages: nat := 5

  /** The statuses this router ever writes; "completed" is not among them. */
  const WrittenStatuses: set<string> := {"pending", "answers_submitted", "estimate_ready", "images_uploaded"}
  const UploadStatuses: set<string> := {"answers_submitted", "estimate_ready", "images_uploaded"}
  const AnalysisStatuses: set<string> := {"images_uploaded", "estimate_ready", "completed"}

  /** The record `create_session` inserts. */
  function NewConsultation(id: ObjectId, sessionId: string): (c: Consultation)
    ensures c.status == "pending" && c.quizAnswers == [] && c.images == []
    ensures c.pricingEstimate.None? && c.imageAnalysis.None?
  {
    Consultation(id, sessionId, "pending", [], [], None, None)
  }

  // ---------------------------------------------------------------- answers

  /** `questions_dict[question_id]`: the dict keeps the last question with that id. */
  function LookupQuestion(questions: seq<Quiz.QuestionDoc>, id: string): (r: Option<Quiz.QuestionSeed>)
    ensures r.None? <==> forall i :: 0 <= i < |questions| ==> questions[i].id.hex != id
  {
    if questions == [] then None
    else if questions[|questions| - 1].id.hex == id then Some(questions[|questions| - 1].seed)
    else LookupQuestion(questions[..|questions| - 1], id)
  }

  /** A required question whose id is not among the submitted keys. */
  predicate Missing(q: Quiz.QuestionDoc, answers: Entries)
  {
    q.seed.isRequired && !HasKey(answers, q.id.hex)
  }

  /** The position of the first missing required question, in collection order. */
  function FirstMissing(questions: seq<Quiz.QuestionDoc>, answers: Entries): (r: Option<nat>)
    ensures r.Some? ==>
      r.value < |questions| && Missing(questions[r.value], answers) && forall j :: 0 <= j < r.value ==> !Missing(questions[j], answers)
    ensures r.None? ==> forall j :: 0 <= j < |questions| ==> !Missing(questions[j], answers)
  {
    if questions == [] then None
    else if Missing(questions[0], answers) then Some(0)
    else
      var rest := FirstMissing(questions[1..], answers);
      if rest.Some? then Some(rest.value + 1) else None
  }

  /** `question.get("options")` is truthy. */
  predicate HasOptions(q: Quiz.QuestionSeed)
  {
    q.options.Some? && q.options.value != []
  }

  /**
   * `float(answer)` succeeds: numbers and booleans convert, a string
   * converts when `floatText` accepts its syntax, anything else raises.
   */
  predicate ParsesAsFloat(answer: Value, floatText: string -> bool)
  {
    match answer
    case Int(_) => true
    case Bool(_) => true
    case Str(s) => floatText(s)
    case _ => false
  }

  /** The elements of a checkbox answer that are not among the options. */
  function NotAmong(items: seq<Value>, options: seq<string>): (r: seq<Value>)
    ensures forall v :: v in r <==> v in items && !(v.Str? && v.s in options)
  {
    if items == [] then []
    else (if items[0].Str? && items[0].s in options then [] else [items[0]]) + NotAmong(items[1..], options)
  }

  /** The type checks of one answer against its question. */
  function CheckAnswer(q: Quiz.QuestionSeed, answer: Value, floatText: string -> bool): Option<AnswerError>
  {
    if q.inputType == "number" then
      if ParsesAsFloat(answer, floatText) then None else Some(NotANumber(q.text))
    else if q.inputType == "checkbox" && HasOptions(q) then
      if !answer.List? then Some(NotAList(q.text))
      else
        var bad := NotAmong(answer.items, q.options.value);
        if bad == [] then None else Some(InvalidOptions(q.text, bad))
    else if q.inputType == "radio" && HasOptions(q) then
      if answer.Str? && answer.s in q.options.value then None else Some(NotAnOption(q.text))
    else None
  }

  /** The error one submitted answer raises, if any. */
  function ErrorFor(questions: seq<Quiz.QuestionDoc>, id: string, answer: Value, floatText: string -> bool)
    : (r: Option<AnswerError>)
    ensures r.None? ==> LookupQuestion(questions, id).Some?
  {
    match LookupQuestion(questions, id)
    case None => Some(InvalidQuestionId(id))
    case Some(q) => CheckAnswer(q, answer, floatText)
  }

  /** The stored form of an accepted answer. */
  function FormatEntry(q: Quiz.QuestionSeed, answer: Value): Value
  {
    Dict([("question_text", Str(q.text)), ("input_type", Str(q.inputType)), ("order", Int(q.order)), ("answer", answer)])
  }

  /** The answer loop: the first failing answer stops it; accepted ones are stored under their id. */
  function FormatAnswers(questions: seq<Quiz.QuestionDoc>, answers: Entries, floatText: string -> bool)
    : Result<Entries, AnswerError>
  {
    if answers == [] then Ok([])
    else
      var n := |answers| - 1;
      var prev := FormatAnswers(questions, answers[..n], floatText);
      if prev.Err? then prev
      else
        var e := ErrorFor(questions, answers[n].0, answers[n].1, floatText);
        if e.Some? then Err(e.value)
        else Ok(Set(prev.value, answers[n].0, FormatEntry(LookupQuestion(questions, answers[n].0).value, answers[n].1)))
  }

  /** Each submitted id mapped to its formatted answer, in submission order. */
  function Formatted(questions: seq<Quiz.QuestionDoc>, answers: Entries): (r: Entries)
    requires forall i :: 0 <= i < |answers| ==> LookupQuestion(questions, answers[i].0).Some?
    ensures |r| == |answers| && Keys(r) == Keys(answers)
  {
    seq(|answers|, i requires 0 <= i < |answers| =>
      (answers[i].0, FormatEntry(LookupQuestion(questions, answers[i].0).value, answers[i].1)))
  }

  /** The whole validation: missing required answers first, then the answers in order. */
  function ValidateAnswers(questions: seq<Quiz.QuestionDoc>, answers: Entries, floatText: string -> bool)
    : Result<Entries, AnswerError>
  {
    var m := FirstMissing(questions, answers);
    if m.Some? then Err(MissingRequired(questions[m.value].seed.text))
    else FormatAnswers(questions, answers, floatText)
  }

  /** The answer at `i` names a question and passes its checks. */
  predicate Passes(questions: seq<Quiz.QuestionDoc>, answers: Entries, i: nat, floatText: string -> bool)
    requires i < |answers|
    ensures Passes(questions, answers, i, floatText) ==> LookupQuestion(questions, answers[i].0).Some?
  {
    ErrorFor(questions, answers[i].0, answers[i].1, floatText).None?
  }

  /** The answer loop accepts exactly when every answer names a question and passes its checks. */
  lemma {:induction false} FormatAnswersAccepts(questions: seq<Quiz.QuestionDoc>, answers: Entries, floatText: string -> bool)
    ensures FormatAnswers(questions, answers, floatText).Ok? <==>
      forall i :: 0 <= i < |answers| ==> Passes(questions, answers, i, floatText)
  {
    if answers != [] {
      var n := |answers| - 1;
      var front := answers[..n];
      FormatAnswersAccepts(questions, front, floatText);
      forall i | 0 <= i < n
        ensures Passes(questions, front, i, floatText) <==> Passes(questions, answers, i, floatText)
      {
        assert front[i] == answers[i];
      }
      assert FormatAnswers(questions, answers, floatText).Ok? <==>
        FormatAnswers(questions, front, floatText).Ok? && Passes(questions, answers, n, floatText);
    }
  }

  /** A rejected submission reports the error of the first failing answer. */
  lemma {:induction false} FormatAnswersFirstError(questions: seq<Quiz.QuestionDoc>, answers: Entries, i: nat, floatText: string -> bool)
    requires i < |answers| && !Passes(questions, answers, i, floatText)
    requires forall j :: 0 <= j < i ==> Passes(questions, answers, j, floatText)
    ensures FormatAnswers(questions, answers, floatText) == Err(ErrorFor(questions, answers[i].0, answers[i].1, floatText).value)
  {
    var n := |answers| - 1;
    var front := answers[..n];
    assert forall j :: 0 <= j < n ==> front[j] == answers[j];
    forall j | 0 <= j < n
      ensures Passes(questions, front, j, floatText) <==> Passes(questions, answers, j, floatText)
    {
      assert front[j] == answers[j];
    }
    if i == n {
      FormatAnswersAccepts(questions, front, floatText);
    } else {
      FormatAnswersFirstError(questions, front, i, floatText);
    }
  }

  /**
   * For a dict (distinct keys) an accepted submission stores every
   * submitted id, in submission order, mapped to its question's text, type
   * and order and the answer.
   */
  lemma {:induction false} FormatAnswersStores(questions: seq<Quiz.QuestionDoc>, answers: Entries, floatText: string -> bool)
    requires FormatAnswers(questions, answers, floatText).Ok? && DistinctKeys(answers)
    ensures forall i :: 0 <= i < |answers| ==> LookupQuestion(questions, answers[i].0).Some?
    ensures FormatAnswers(questions, answers, floatText).value == Formatted(questions, answers)
  {
    FormatAnswersAccepts(questions, answers, floatText);
    assert forall i :: 0 <= i < |answers| ==> Passes(questions, answers, i, floatText);
    if answers != [] {
      var n := |answers| - 1;
      var front := answers[..n];
      assert forall i :: 0 <= i < n ==> front[i] == answers[i];
      assert DistinctKeys(front);
      FormatAnswersStores(questions, front, floatText);
      FormattedSnoc(questions, answers);
    }
  }

  /** `Formatted` grows by one entry per submitted answer, and a new id is not yet among its keys. */
  lemma FormattedSnoc(questions: seq<Quiz.QuestionDoc>, answers: Entries)
    requires answers != [] && DistinctKeys(answers)
    requires forall i :: 0 <= i < |answers| ==> LookupQuestion(questions, answers[i].0).Some?
    ensures var n := |answers| - 1;
      var f := Formatted(questions, answers[..n]);
      && !HasKey(f, answers[n].0)
      && Formatted(questions, answers) == f + [(answers[n].0, FormatEntry(LookupQuestion(questions, answers[n].0).value, answers[n].1))]
  {
    var n := |answers| - 1;
    var f := Formatted(questions, answers[..n]);
    forall j | 0 <= j < n ensures Keys(f)[j] != answers[n].0 {
      assert Keys(f)[j] == answers[j].0;
    }
  }


  /** Once the loop has failed on a prefix, the rest of the answers do not matter. */
  lemma {:induction false} FormatAnswersErrPersists(questions: seq<Quiz.QuestionDoc>, answers: Entries, k: nat, floatText: string -> bool)
    requires k <= |answers| && FormatAnswers(questions, answers[..k], floatText).Err?
    ensures FormatAnswers(questions, answers, floatText) == FormatAnswers(questions, answers[..k], floatText)
    decreases |answers|
  {
    if k < |answers| {
      var n := |answers| - 1;
      assert answers[..n][..k] == answers[..k];
      FormatAnswersErrPersists(questions, answers[..n], k, floatText);
      FormatAnswersErrStep(questions, answers, floatText);
    } else {
      assert answers[..k] == answers;
    }
  }

  /** One step of the answer loop after a failure keeps the failure. */
  lemma FormatAnswersErrStep(questions: seq<Quiz.QuestionDoc>, answers: Entries, floatText: string -> bool)
    requires answers != [] && FormatAnswers(questions, answers[..|answers| - 1], floatText).Err?
    ensures FormatAnswers(questions, answers, floatText) == FormatAnswers(questions, answers[..|answers| - 1], floatText)
  {
  }

  /** The answer loop as the handler runs it. */
  method FormatAnswersLoop(questions: seq<Quiz.QuestionDoc>, answers: Entries, floatText: string -> bool)
    returns (r: Result<Entries, AnswerError>)
    ensures r == FormatAnswers(questions, answers, floatText)
  {
    var formatted: Entries := [];
    for i := 0 to |answers|
      invariant FormatAnswers(questions, answers[..i], floatText) == Ok(formatted)
    {
      assert answers[..i + 1][..i] == answers[..i];
      var (id, answer) := answers[i];
      var e := ErrorFor(questions, id, answer, floatText);
      if e.Some? {
        FormatAnswersErrPersists(questions, answers, i + 1, floatText);
        return Err(e.value);
      }
      formatted := Set(formatted, id, FormatEntry(LookupQuestion(questions, id).value, answer));
    }
    assert answers[..|answers|] == answers;
    r := Ok(formatted);
  }

  /** The record after `submit_consultation_answers`, or why it is refused. */
  function SubmitOutcome(rec: Consultation, questions: seq<Quiz.QuestionDoc>, answers: Entries, floatText: string -> bool)
    : Result<Consultation, Failure>
  {
    match ValidateAnswers(Quiz.Take(questions, Quiz.ListLimit), answers, floatText)
    case Err(e) => Err(Answer(e))
    case Ok(f) =>
      var updated := rec.(quizAnswers := f, status := "answers_submitted");
      if updated == rec then Err(UpdateFailed) else Ok(updated)
  }

  /**
   * A missing required answer is reported first, by the text of the first
   * such listed question; a submission that would change nothing is
   * refused, which happens only to a record already at "answers_submitted".
   */
  lemma SubmitRefusals(rec: Consultation, questions: seq<Quiz.QuestionDoc>, answers: Entries, floatText: string -> bool)
    ensures var qs := Quiz.Take(questions, Quiz.ListLimit);
      var m := FirstMissing(qs, answers);
      m.Some? ==> SubmitOutcome(rec, questions, answers, floatText) == Err(Answer(MissingRequired(qs[m.value].seed.text)))
    ensures SubmitOutcome(rec, questions, answers, floatText) == Err(UpdateFailed) ==> rec.status == "answers_submitted"
  {
  }

  /**
   * An accepted submission answered every required listed question, every
   * answer names a listed question and passes its checks, and the record
   * changes only in its answers, replaced wholesale by the formatted ones
   * (for a dict: every submitted id in order), and its status, set to
   * "answers_submitted".
   */
  lemma SubmitAccepted(rec: Consultation, questions: seq<Quiz.QuestionDoc>, answers: Entries, floatText: string -> bool)
    requires SubmitOutcome(rec, questions, answers, floatText).Ok?
    ensures var qs := Quiz.Take(questions, Quiz.ListLimit);
      && (forall j :: 0 <= j < |qs| ==> !Missing(qs[j], answers))
      && (forall i :: 0 <= i < |answers| ==> Passes(qs, answers, i, floatText))
      && (forall i :: 0 <= i < |answers| ==> LookupQuestion(qs, answers[i].0).Some?)
    ensures var r := SubmitOutcome(rec, questions, answers, floatText).value;
      r == rec.(quizAnswers := r.quizAnswers, status := "answers_submitted")
    ensures DistinctKeys(answers) ==>
      SubmitOutcome(rec, questions, answers, floatText).value.quizAnswers == Formatted(Quiz.Take(questions, Quiz.ListLimit), answers)
  {
    var qs := Quiz.Take(questions, Quiz.ListLimit);
    FormatAnswersAccepts(qs, answers, floatText);
    forall i | 0 <= i < |answers| ensures LookupQuestion(qs, answers[i].0).Some? {
      assert Passes(qs, answers, i, floatText);
    }
    if DistinctKeys(answers) {
      FormatAnswersStores(qs, answers, floatText);
    }
  }

  // ------------------------------------------------------------ pricing

  /** The three answers the pricing step picks out of the stored answers. */
  datatype Picked = Picked(squareFootage: Value, systemCount: Value, projectGoal: Value)

  const DefaultSquareFootage: string := "1,500 - 2,200 sq ft"

  /**
   * `answer_data.get("question_text", "")` and `answer_data.get("answer", "")`;
   * `None` when the entry is not a dict or its question text is not a string
   * (the `.get` or `.lower()` call raises).
   */
  function AnswerFields(v: Value): Option<(string, Value)>
  {
    match v
    case Dict(d) =>
      var text := if HasKey(d, "question_text") then Get(d, "question_text").value else Str("");
      var answer := if HasKey(d, "answer") then Get(d, "answer").value else Str("");
      if text.Str? then Some((text.s, answer)) else None
    case _ => None
  }

  /** Which of the three answers a question text feeds: 0, 1, 2, or 3 for none (an if/elif chain). */
  function Slot(text: string): nat
  {
    var t := Lower(text);
    if Contains(t, "square footage") then 0
    else if Contains(t, "how many separate systems") then 1
    else if Contains(t, "which of these sounds most like you") then 2
    else 3
  }

  function PickedAt(p: Picked, k: nat): Value
  {
    if k == 0 then p.squareFootage else if k == 1 then p.systemCount else if k == 2 then p.projectGoal else Null
  }

  function ScanStep(p: Picked, text: string, answer: Value): Picked
  {
    var k := Slot(text);
    if k == 0 then p.(squareFootage := answer)
    else if k == 1 then p.(systemCount := answer)
    else if k == 2 then p.(projectGoal := answer)
    else p
  }

  /** The scan over `quiz_answers.values()`; `None` when an entry makes it raise. */
  function Scan(values: seq<Value>): Option<Picked>
  {
    if values == [] then Some(Picked(Null, Null, Null))
    else
      var n := |values| - 1;
      var prev := Scan(values[..n]);
      var fields := AnswerFields(values[n]);
      if prev.None? || fields.None? then None
      else Some(ScanStep(prev.value, fields.value.0, fields.value.1))
  }

  /** The entry at `i` feeds slot `k`. */
  predicate FeedsSlot(values: seq<Value>, i: nat, k: nat)
    requires i < |values|
  {
    AnswerFields(values[i]).Some? && Slot(AnswerFields(values[i]).value.0) == k
  }

  /** The scan raises exactly when some entry is malformed. */
  lemma {:induction false} ScanFails(values: seq<Value>)
    ensures Scan(values).Some? <==> forall i :: 0 <= i < |values| ==> AnswerFields(values[i]).Some?
  {
    if values != [] {
      var n := |values| - 1;
      ScanFails(values[..n]);
      assert forall i :: 0 <= i < n ==> values[..n][i] == values[i];
    }
  }

  /** Each of the three answers is the one of the last entry whose question text matches it. */
  lemma {:induction false} ScanLastMatchWins(values: seq<Value>, k: nat, i: nat)
    requires k < 3 && i < |values| && Scan(values).Some? && FeedsSlot(values, i, k)
    requires forall j :: i < j < |values| ==> !FeedsSlot(values, j, k)
    ensures PickedAt(Scan(values).value, k) == AnswerFields(values[i]).value.1
  {
    var n := |values| - 1;
    if i < n {
      var front := values[..n];
      assert forall j :: 0 <= j < n ==> front[j] == values[j];
      assert forall j :: i < j < n ==> (FeedsSlot(front, j, k) <==> FeedsSlot(values, j, k));
      assert FeedsSlot(front, i, k);
      ScanLastMatchWins(front, k, i);
      assert !FeedsSlot(values, n, k);
    }
  }

  /** An answer no entry's question text matches stays `None` (Python's). */
  lemma {:induction false} ScanNoMatch(values: seq<Value>, k: nat)
    requires k < 3 && Scan(values).Some?
    requires forall i :: 0 <= i < |values| ==> !FeedsSlot(values, i, k)
    ensures PickedAt(Scan(values).value, k) == Null
  {
    if values != [] {
      var n := |values| - 1;
      var front := values[..n];
      assert forall j :: 0 <= j < n ==> front[j] == values[j];
      assert forall j :: 0 <= j < n ==> (FeedsSlot(front, j, k) <==> FeedsSlot(values, j, k));
      ScanNoMatch(front, k);
      assert !FeedsSlot(values, n, k);
    }
  }

  /** The scan loop as the handler runs it. */
  method ScanAnswers(values: seq<Value>) returns (r: Option<Picked>)
    ensures r == Scan(values)
  {
    var p := Picked(Null, Null, Null);
    for i := 0 to |values|
      invariant Scan(values[..i]) == Some(p)
    {
      assert values[..i + 1][..i] == values[..i];
      var fields := AnswerFields(values[i]);
      if fields.None? {
        ScanNonePersists(values, i + 1);
        return None;
      }
      var (text, answer) := fields.value;
      var k := Slot(text);
      if k == 0 {
        p := p.(squareFootage := answer);
      } else if k == 1 {
        p := p.(systemCount := answer);
      } else if k == 2 {
        p := p.(projectGoal := answer);
      }
    }
    assert values[..|values|] == values;
    r := Some(p);
  }

  lemma {:induction false} ScanNonePersists(values: seq<Value>, k: nat)
    requires k <= |values| && Scan(values[..k]).None?
    ensures Scan(values).None?
    decreases |values|
  {
    if k < |values| {
      var n := |values| - 1;
      assert values[..n][..k] == values[..k];
      ScanNonePersists(values[..n], k);
    } else {
      assert values[..k] == values;
    }
  }

  function Values(e: Entries): (vs: seq<Value>)
    ensures |vs| == |e| && forall i :: 0 <= i < |e| ==> vs[i] == e[i].1
  {
    seq(|e|, i requires 0 <= i < |e| => e[i].1)
  }

  /** Answers stored by a successful submission never make the scan raise. */
  lemma FormattedAnswersScan(questions: seq<Quiz.QuestionDoc>, answers: Entries)
    requires forall i :: 0 <= i < |answers| ==> LookupQuestion(questions, answers[i].0).Some?
    ensures Scan(Values(Formatted(questions, answers))).Some?
  {
    var vs := Values(Formatted(questions, answers));
    forall i | 0 <= i < |vs| ensures AnswerFields(vs[i]).Some? {
      var q := LookupQuestion(questions, answers[i].0).value;
      var d := [("question_text", Str(q.text)), ("input_type", Str(q.inputType)), ("order", Int(q.order)), ("answer", answers[i].1)];
      assert vs[i] == Dict(d);
      GetFirst(d, "question_text", 0);
    }
    ScanFails(vs);
  }

  /** `calculate_estimate` on a matrix value: the estimate and the matrix it leaves behind. */
  function EstimateStep(m: seq<Pricing.Row>, squareFootage: Value, systemCount: int): (Option<Pricing.Estimate>, seq<Pricing.Row>)
    requires |m| > 0
  {
    match Pricing.TonnageOf(squareFootage)
    case None => (None, m)
    case Some(t) =>
      var i := Pricing.RowFor(m, t);
      var m2 := m[i := Pricing.ApplyMultiplier(m[i], systemCount)];
      (Some(Pricing.EstimateFromRow(m2[i], t, systemCount)), m2)
  }

  /**
   * `calculate_pricing_estimate` on a matrix value: `None` when the scan or
   * the system count raises (outside the `try`); a falsy square-footage
   * answer becomes the 1,500 - 2,200 label; a pricing exception gives the
   * fallback.
   */
  function PricingOutcome(m: seq<Pricing.Row>, quizAnswers: Entries): (Option<Pricing.Estimate>, seq<Pricing.Row>)
    requires |m| > 0
  {
    var picked := Scan(Values(quizAnswers));
    if picked.None? then (None, m)
    else
      var count := Pricing.ExtractSystemCount(picked.value.systemCount);
      if count.None? then (None, m)
      else
        var sq := if Truthy(picked.value.squareFootage) then picked.value.squareFootage else Str(DefaultSquareFootage);
        var (e, m2) := EstimateStep(m, sq, count.value);
        if e.None? then (Some(Pricing.FallbackEstimate), m2) else (e, m2)
  }

  /**
   * On the shipped matrix a string answer is priced as intended, a
   * missing or empty square-footage answer is priced at 3.5 tons, the
   * fallback is used only for a non-string answer, and a priced estimate
   * always reports 1 to 4 systems.
   */
  lemma PricingOutcomeSpec(quizAnswers: Entries)
    ensures var (e, _) := PricingOutcome(Pricing.BaseMatrix, quizAnswers);
      var picked := Scan(Values(quizAnswers));
      && (e.Some? ==> 1 <= e.value.systemCount <= 4 && e.value.tonnage in Pricing.BucketTonnage)
      && (e.Some? && e.value.failed ==> Truthy(picked.value.squareFootage) && !picked.value.squareFootage.Str?)
      && (e.Some? && picked.value.squareFootage.Str? && Truthy(picked.value.squareFootage) ==>
            e.value == Pricing.IntendedEstimate(picked.value.squareFootage.s, e.value.systemCount))
      && (e.Some? && !Truthy(picked.value.squareFootage) ==>
            e.value == Pricing.IntendedEstimate(DefaultSquareFootage, e.value.systemCount) && e.value.tonnage == 35)
  {
    var picked := Scan(Values(quizAnswers));
    if picked.Some? {
      var count := Pricing.ExtractSystemCount(picked.value.systemCount);
      if count.Some? {
        Pricing.MidLabelTonnage();
      }
    }
  }

  // ------------------------------------------------------------ images

  /** The URL of the n-th upload of a consultation. */
  function UploadUrl(bucket: string, region: string, id: ObjectId, n: nat): string
  {
    Storage.ObjectUrl(bucket, region, Storage.ObjectKey(id.hex, Storage.ImageFilename(n)))
  }

  datatype UploadReply = UploadReply(imageUrl: string, imageNumber: nat)

  predicate StartsWithImage(contentType: string)
  {
    StartsWith(contentType, "image/")
  }

  /**
   * The record after `upload_image` and its reply, or why it is refused:
   * the status guard, the five-image cap, the content type and the
   * storage call, in that order.
   */
  function UploadOutcome(rec: Consultation, contentType: string, filename: string,
                         bucket: string, region: string, stored: bool): Result<(Consultation, UploadReply), Failure>
  {
    if rec.status !in UploadStatuses then Err(AnswersNotSubmitted)
    else if |rec.images| >= MaxImages then Err(TooManyImages)
    else if !StartsWithImage(contentType) then Err(NotAnImage)
    else if !stored then Err(UploadFailed)
    else
      var n := |rec.images| + 1;
      var url := UploadUrl(bucket, region, rec.id, n);
      var status := if rec.status != "estimate_ready" then "images_uploaded" else "estimate_ready";
      Ok((rec.(status := status, images := rec.images + [ImageEntry(n, url, filename)]), UploadReply(url, n)))
  }

  /** What every stored record satisfies. */
  ghost predicate RecordInvariant(rec: Consultation, bucket: string, region: string)
  {
    && rec.status in WrittenStatuses
    && |rec.images| <= MaxImages
    && forall i :: 0 <= i < |rec.images| ==>
         rec.images[i].imageNumber == i + 1 && rec.images[i].imageUrl == UploadUrl(bucket, region, rec.id, i + 1)
  }

  /**
   * An accepted upload appends exactly one image numbered one past the
   * last, keeps "estimate_ready" and otherwise sets "images_uploaded", and
   * keeps the record invariant (so never more than five images).
   */
  lemma UploadOutcomeSpec(rec: Consultation, contentType: string, filename: string,
                          bucket: string, region: string, stored: bool)
    requires RecordInvariant(rec, bucket, region)
    ensures var r := UploadOutcome(rec, contentType, filename, bucket, region, stored);
      r.Ok? ==>
        && RecordInvariant(r.value.0, bucket, region)
        && |r.value.0.images| == |rec.images| + 1 && r.value.0.images[..|rec.images|] == rec.images
        && r.value.1.imageNumber == |r.value.0.images|
        && r.value.0.status == (if rec.status == "estimate_ready" then "estimate_ready" else "images_uploaded")
        && r.value.0.quizAnswers == rec.quizAnswers && r.value.0.id == rec.id
    ensures |rec.images| == MaxImages ==> UploadOutcome(rec, contentType, filename, bucket, region, stored).Err?
    ensures rec.status == "pending" ==> UploadOutcome(rec, contentType, filename, bucket, region, stored) == Err(AnswersNotSubmitted)
  {
    var r := UploadOutcome(rec, contentType, filename, bucket, region, stored);
    if r.Ok? {
      assert r.value.0.images[..|rec.images|] == rec.images;
    }
  }

  /** `os.path.basename(image["image_url"].split("?")[0])` for every image. */
  function ImageKeys(images: seq<ImageEntry>): (keys: seq<string>)
    ensures |keys| == |images|
  {
    seq(|images|, i requires 0 <= i < |images| => Storage.KeyNameFromUrl(images[i].imageUrl))
  }

  /**
   * The keys analyse-all recovers from a record's URLs are the uploaded
   * file names image_1 .. image_n, so the analyser downloads exactly the
   * objects that were uploaded.
   */
  lemma ImageKeysRoundTrip(rec: Consultation, bucket: string, region: string)
    requires RecordInvariant(rec, bucket, region)
    requires '?' !in bucket && '?' !in region && '?' !in rec.id.hex
    ensures forall i :: 0 <= i < |rec.images| ==>
      ImageKeys(rec.images)[i] == Storage.ImageFilename(i + 1)
      && Storage.DownloadKey(rec.id.hex, ImageKeys(rec.images)[i]) == Storage.ObjectKey(rec.id.hex, Storage.ImageFilename(i + 1))
  {
    forall i | 0 <= i < |rec.images|
      ensures ImageKeys(rec.images)[i] == Storage.ImageFilename(i + 1)
        && Storage.DownloadKey(rec.id.hex, ImageKeys(rec.images)[i]) == Storage.ObjectKey(rec.id.hex, Storage.ImageFilename(i + 1))
    {
      ImageKeyRoundTrip(rec.images[i].imageUrl, bucket, region, rec.id, i + 1);
    }
  }

  /** The key recovered from the n-th upload URL is the n-th file name, and downloads the uploaded object. */
  lemma ImageKeyRoundTrip(url: string, bucket: string, region: string, id: ObjectId, n: nat)
    requires url == UploadUrl(bucket, region, id, n)
    requires '?' !in bucket && '?' !in region && '?' !in id.hex
    ensures Storage.KeyNameFromUrl(url) == Storage.ImageFilename(n)
    ensures Storage.DownloadKey(id.hex, Storage.KeyNameFromUrl(url)) == Storage.ObjectKey(id.hex, Storage.ImageFilename(n))
  {
    Storage.ImageUrlRoundTrip(bucket, region, id.hex, n);
  }

  datatype AnalysisReply = AnalysisReply(consultationId: string, analysis: Analyzer.ConsultationAnalysis)

  /**
   * The record after `analyze_all_consultation_images` and its reply, or
   * why it is refused, given what the analyser returned (`None`: it raised).
   */
  function AnalyzeOutcome(rec: Consultation, analysis: Option<Analyzer.ConsultationAnalysis>)
    : Result<(Consultation, AnalysisReply), Failure>
  {
    if rec.status !in AnalysisStatuses then Err(ImagesNotUploaded)
    else if rec.images == [] then Err(NoImages)
    else if analysis.None? then Err(AnalysisFailed)
    else Ok((rec.(imageAnalysis := analysis), AnalysisReply(rec.id.hex, analysis.value)))
  }

  /**
   * Analysis needs an analysable status and at least one image, stores the
   * analysis and changes nothing else, the status included; of the
   * statuses it accepts, only "images_uploaded" and "estimate_ready" are
   * ever written.
   */
  lemma AnalyzeOutcomeSpec(rec: Consultation, analysis: Option<Analyzer.ConsultationAnalysis>)
    ensures var r := AnalyzeOutcome(rec, analysis);
      r.Ok? ==>
        && rec.status in AnalysisStatuses && rec.images != [] && analysis.Some?
        && r.value.0 == rec.(imageAnalysis := analysis) && r.value.0.status == rec.status
    ensures rec.status in {"pending", "answers_submitted"} ==> AnalyzeOutcome(rec, analysis) == Err(ImagesNotUploaded)
    ensures AnalysisStatuses * WrittenStatuses == {"images_uploaded", "estimate_ready"}
  {
  }

  /** Storing an analysis keeps the record invariant: it touches no image and not the status. */
  lemma AnalysisKeepsInvariant(rec: Consultation, analysis: Option<Analyzer.ConsultationAnalysis>,
                               bucket: string, region: string)
    requires RecordInvariant(rec, bucket, region)
    ensures RecordInvariant(rec.(imageAnalysis := analysis), bucket, region)
  {
    var updated := rec.(imageAnalysis := analysis);
    assert updated.images == rec.images && updated.status == rec.status && updated.id == rec.id;
  }

  // ------------------------------------------------------------ the records

  /**
   * The consultation collection, the process-wide pricing service and the
   * storage bucket and region the uploads go to.
   */
  class ConsultationStore {
    var records: map<string, Consultation>
    const pricing: Pricing.PricingService
    const bucket: string
    const region: string

    ghost predicate Valid()
      reads this, pricing
    {
      && pricing.Valid()
      && forall s :: s in records ==> records[s].sessionId == s && RecordInvariant(records[s], bucket, region)
    }

    constructor (pricing: Pricing.PricingService, bucket: string, region: string)
      requires pricing.Valid()
      ensures Valid() && records == map[]
      ensures this.pricing == pricing && this.bucket == bucket && this.region == region
    {
      this.pricing := pricing;
      this.bucket := bucket;
      this.region := region;
      records := map[];
    }

    /** `create_session`, with the fresh UUID and the inserted id passed in. */
    method CreateSession(sessionId: string, id: ObjectId) returns (r: Consultation)
      requires Valid() && sessionId !in records
      modifies this
      ensures Valid()
      ensures r == NewConsultation(id, sessionId) && records == old(records)[sessionId := r]
    {
      r := NewConsultation(id, sessionId);
      records := records[sessionId := r];
    }

    /**
     * `submit_consultation_answers`: the required-question loop, then the
     * answer loop, then the update.
     */
    method SubmitAnswers(sessionId: string, answers: Entries, questions: seq<Quiz.QuestionDoc>, floatText: string -> bool)
      returns (r: Result<Consultation, Failure>)
      requires Valid()
      modifies this
      ensures Valid()
      ensures sessionId !in old(records) ==> r == Err(SessionNotFound) && records == old(records)
      ensures sessionId in old(records) ==>
        r == SubmitOutcome(old(records)[sessionId], questions, answers, floatText)
        && records == (if r.Ok? then old(records)[sessionId := r.value] else old(records))
    {
      if sessionId !in records {
        return Err(SessionNotFound);
      }
      var rec := records[sessionId];
      var listed := Quiz.Take(questions, Quiz.ListLimit);
      var i := 0;
      while i < |listed|
        invariant 0 <= i <= |listed|
        invariant forall j :: 0 <= j < i ==> !Missing(listed[j], answers)
      {
        if Missing(listed[i], answers) {
          assert FirstMissing(listed, answers) == Some(i);
          return Err(Answer(MissingRequired(listed[i].seed.text)));
        }
        i := i + 1;
      }
      var formatted := FormatAnswersLoop(listed, answers, floatText);
      if formatted.Err? {
        return Err(Answer(formatted.error));
      }
      var updated := rec.(quizAnswers := formatted.value, status := "answers_submitted");
      if updated == rec {
        return Err(UpdateFailed);
      }
      records := records[sessionId := updated];
      r := Ok(updated);
    }

    /** `upload_image`; `stored` says whether the storage call succeeded. */
    method UploadImage(sessionId: string, contentType: string, filename: string, stored: bool)
      returns (r: Result<UploadReply, Failure>)
      requires Valid()
      modifies this
      ensures Valid()
      ensures sessionId !in old(records) ==> r == Err(SessionNotFound) && records == old(records)
      ensures sessionId in old(records) ==>
        var out := UploadOutcome(old(records)[sessionId], contentType, filename, bucket, region, stored);
        && (out.Err? ==> r == Err(out.error) && records == old(records))
        && (out.Ok? ==> r == Ok(out.value.1) && records == old(records)[sessionId := out.value.0])
    {
      if sessionId !in records {
        return Err(SessionNotFound);
      }
      var rec := records[sessionId];
      UploadOutcomeSpec(rec, contentType, filename, bucket, region, stored);
      if rec.status !in UploadStatuses {
        return Err(AnswersNotSubmitted);
      }
      var existing := rec.images;
      if |existing| >= MaxImages {
        return Err(TooManyImages);
      }
      if !StartsWithImage(contentType) {
        return Err(NotAnImage);
      }
      if !stored {
        return Err(UploadFailed);
      }
      var imageNumber := |existing| + 1;
      var url := Storage.ObjectUrl(bucket, region, Storage.ObjectKey(rec.id.hex, Storage.ImageFilename(imageNumber)));
      var newStatus := if rec.status != "estimate_ready" then "images_uploaded" else "estimate_ready";
      records := records[sessionId := rec.(status := newStatus, images := existing + [ImageEntry(imageNumber, url, filename)])];
      r := Ok(UploadReply(url, imageNumber));
    }

    /** `calculate_pricing_estimate` with the process-wide pricing service. */
    method CalculatePricingEstimate(quizAnswers: Entries) returns (r: Option<Pricing.Estimate>)
      requires pricing.Valid()
      modifies pricing
      ensures pricing.Valid()
      ensures (r, pricing.matrix) == PricingOutcome(old(pricing.matrix), quizAnswers)
    {
      var picked := ScanAnswers(Values(quizAnswers));
      if picked.None? {
        return None;
      }
      var count := Pricing.ExtractSystemCount(picked.value.systemCount);
      if count.None? {
        return None;
      }
      var sq := if Truthy(picked.value.squareFootage) then picked.value.squareFootage else Str(DefaultSquareFootage);
      var estimate := pricing.CalculateEstimate(sq, count.value);
      if estimate.None? {
        return Some(Pricing.FallbackEstimate);
      }
      r := estimate;
    }

    /** `generate_pricing_estimate`. */
    method GenerateEstimate(sessionId: string) returns (r: Result<Pricing.Estimate, Failure>)
      requires Valid()
      modifies this, pricing
      ensures Valid()
      ensures sessionId !in old(records) ==> r == Err(SessionNotFound)
      ensures sessionId in old(records) && old(records)[sessionId].quizAnswers == [] ==> r == Err(AnswersRequired)
      ensures sessionId !in old(records) || old(records)[sessionId].quizAnswers == [] ==>
        pricing.matrix == old(pricing.matrix)
      ensures r.Err? ==> records == old(records)
      ensures sessionId in old(records) && old(records)[sessionId].quizAnswers != [] ==>
        var (e, m) := PricingOutcome(old(pricing.matrix), old(records)[sessionId].quizAnswers);
        && pricing.matrix == m
        && (e.None? ==> r == Err(EstimateFailed))
        && (e.Some? ==> r == Ok(e.value))
        && (e.Some? ==> records == old(records)[sessionId := old(records)[sessionId].(pricingEstimate := e, status := "estimate_ready")])
    {
      if sessionId !in records {
        return Err(SessionNotFound);
      }
      var rec := records[sessionId];
      if rec.quizAnswers == [] {
        return Err(AnswersRequired);
      }
      var estimate := CalculatePricingEstimate(rec.quizAnswers);
      if estimate.None? {
        return Err(EstimateFailed);
      }
      records := records[sessionId := rec.(pricingEstimate := estimate, status := "estimate_ready")];
      r := Ok(estimate.value);
    }

    /** `analyze_all_consultation_images`, with the analyser's external calls passed in. */
    method AnalyzeAll(sessionId: string, download: string -> Option<Analyzer.Bytes>,
                      vision: Analyzer.Bytes -> Option<Analyzer.VisionResponse>,
                      chat: string -> Option<string>, parse: string -> Option<Value>)
      returns (r: Result<AnalysisReply, Failure>)
      requires Valid()
      modifies this
      ensures Valid()
      ensures sessionId !in old(records) ==> r == Err(SessionNotFound) && records == old(records)
      ensures sessionId in old(records) ==>
        var rec := old(records)[sessionId];
        var out := AnalyzeOutcome(rec, Analyzer.AnalysisOutcome(rec.id.hex, ImageKeys(rec.images), download, vision, chat, parse));
        && (out.Err? ==> r == Err(out.error) && records == old(records))
        && (out.Ok? ==> r == Ok(out.value.1) && records == old(records)[sessionId := out.value.0])
    {
      if sessionId !in records {
        return Err(SessionNotFound);
      }
      var rec := records[sessionId];
      if rec.status !in AnalysisStatuses {
        return Err(ImagesNotUploaded);
      }
      if rec.images == [] {
        return Err(NoImages);
      }
      var keys := ImageKeys(rec.images);
      var analysis := Analyzer.AnalyzeConsultationImages(rec.id.hex, keys, download, vision, chat, parse);
      if analysis.None? {
        return Err(AnalysisFailed);
      }
      var updated := rec.(imageAnalysis := analysis);
      AnalysisKeepsInvariant(rec, analysis, bucket, region);
      records := records[sessionId := updated];
      r := Ok(AnalysisReply(rec.id.hex, analysis.value));
    }
  }
}
