/**
 * `ConsultationAnalyzer`: OCR of every downloadable image of a
 * consultation, the combined text, and the post-processing of the chat
 * model's reply. S3, the Vision API, the chat model and `json.loads` are
 * oracle parameters.
 */
module Analyzer {
  import opened Outcomes
  import opened Text
  import opened Bson
  import Storage

  type Bytes = seq<bv8>

  /** What the Vision API answered: its HTTP status and `fullTextAnnotation.text` ("" when absent). */
  datatype VisionResponse = VisionResponse(status: int, text: string)

  /** The dict `analyze_image` returns, without its error message and confidence. */
  datatype OcrResult = OcrResult(success: bool, textDetected: string)

  datatype ImageResult = ImageResult(imageKey: string, analysis: OcrResult)

  /** Which handler of `analyze_with_openai` produced the reply. */
  datatype AiError = NoError | ParseError | OtherError

  datatype AiReply = AiReply(success: bool, error: AiError, analysis: Value)

  datatype ConsultationAnalysis = ConsultationAnalysis(
    individualResults: seq<ImageResult>, combinedText: string, totalImagesAnalyzed: nat, hvacInfo: Value)

  const RequiredFields: seq<string> := ["brand", "model_number", "serial_number", "additional_info"]

  /** The analysis with all four fields `None`. */
  const EmptyAnalysis: Value :=
    Dict([("brand", Null), ("model_number", Null), ("serial_number", Null), ("additional_info", Null)])

  /**
   * `analyze_image`: a 200 answer with non-empty text is a success carrying
   * that text; anything else (another status, no text, a raised exception,
   * written `None`) is a failure with an empty `text_detected`.
   */
  function AnalyzeImage(response: Option<VisionResponse>): (r: OcrResult)
    ensures r.success <==> response.Some? && response.value.status == 200 && response.value.text != ""
    ensures r.success ==> r.textDetected == response.value.text
    ensures !r.success ==> r.textDetected == ""
  {
    match response
    case Some(VisionResponse(200, text)) => if text != "" then OcrResult(true, text) else OcrResult(false, "")
    case _ => OcrResult(false, "")
  }

  /** A downloaded image counts when the download returned non-empty bytes. */
  predicate Downloaded(content: Option<Bytes>)
  {
    content.Some? && |content.value| > 0
  }

  /** The per-image results of the loop, for the keys in order. */
  function Results(consultationId: string, keys: seq<string>,
                   download: string -> Option<Bytes>, vision: Bytes -> Option<VisionResponse>): seq<ImageResult>
  {
    if keys == [] then []
    else
      var before := Results(consultationId, keys[..|keys| - 1], download, vision);
      var key := keys[|keys| - 1];
      var content := download(Storage.DownloadKey(consultationId, key));
      if Downloaded(content) then before + [ImageResult(key, AnalyzeImage(vision(content.value)))] else before
  }

  /** The keys whose download succeeded, in order. */
  function DownloadedKeys(consultationId: string, keys: seq<string>, download: string -> Option<Bytes>): seq<string>
  {
    if keys == [] then []
    else
      var before := DownloadedKeys(consultationId, keys[..|keys| - 1], download);
      var key := keys[|keys| - 1];
      if Downloaded(download(Storage.DownloadKey(consultationId, key))) then before + [key] else before
  }

  /** The OCR texts of the successful results, in order. */
  function SuccessTexts(results: seq<ImageResult>): seq<string>
  {
    if results == [] then []
    else
      var before := SuccessTexts(results[..|results| - 1]);
      var last := results[|results| - 1];
      if last.analysis.success then before + [last.analysis.textDetected] else before
  }

  /**
   * There is one result per successfully downloaded key, in key order, and
   * each carries the OCR of that key's bytes: a failed download is skipped,
   * a failed OCR is kept.
   */
  lemma {:induction false} ResultsFollowDownloads(consultationId: string, keys: seq<string>,
                                                  download: string -> Option<Bytes>, vision: Bytes -> Option<VisionResponse>)
    ensures var results := Results(consultationId, keys, download, vision);
      var good := DownloadedKeys(consultationId, keys, download);
      && |results| == |good| <= |keys|
      && forall i :: 0 <= i < |results| ==>
           results[i].imageKey == good[i]
           && Downloaded(download(Storage.DownloadKey(consultationId, good[i])))
           && results[i].analysis == AnalyzeImage(vision(download(Storage.DownloadKey(consultationId, good[i])).value))
  {
    if keys != [] {
      ResultsFollowDownloads(consultationId, keys[..|keys| - 1], download, vision);
    }
  }

  /** Every key whose download succeeds is analysed; a failed one is not. */
  lemma {:induction false} DownloadedKeysSpec(consultationId: string, keys: seq<string>, download: string -> Option<Bytes>)
    ensures forall k :: k in DownloadedKeys(consultationId, keys, download) ==>
      k in keys && Downloaded(download(Storage.DownloadKey(consultationId, k)))
    ensures forall k :: k in keys && Downloaded(download(Storage.DownloadKey(consultationId, k))) ==>
      k in DownloadedKeys(consultationId, keys, download)
  {
    if keys != [] {
      var init := keys[..|keys| - 1];
      DownloadedKeysSpec(consultationId, init, download);
      assert keys == init + [keys[|keys| - 1]];
    }
  }

  /** There is at most one text per result, and none exactly when no result succeeded. */
  lemma {:induction false} SuccessTextsSpec(results: seq<ImageResult>)
    ensures |SuccessTexts(results)| <= |results|
    ensures SuccessTexts(results) == [] <==> forall i :: 0 <= i < |results| ==> !results[i].analysis.success
  {
    if results != [] {
      var init := results[..|results| - 1];
      SuccessTextsSpec(init);
      assert forall i :: 0 <= i < |init| ==> results[i] == init[i];
    }
  }

  /**
   * The markdown-fence clean-up of the (already stripped) reply: after a
   * leading "```json" every "```json" and then every "```" goes; after a
   * leading "```" every "```" goes; the rest is stripped again.
   */
  function CleanFences(content: string): string
  {
    if StartsWith(content, "```json") then Strip(ReplaceAll(ReplaceAll(content, "```json", ""), "```", ""))
    else if StartsWith(content, "```") then Strip(ReplaceAll(content, "```", ""))
    else content
  }

  lemma ReplaceAllLeading(pat: string, s: string, rep: string)
    requires pat != []
    ensures ReplaceAll(pat + s, pat, rep) == rep + ReplaceAll(s, pat, rep)
  {
    assert (pat + s)[..|pat|] == pat;
    assert (pat + s)[|pat|..] == s;
  }

  /** A part without the pattern's first character passes through unchanged. */
  lemma {:induction false} ReplaceAllSkips(a: string, s: string, pat: string, rep: string)
    requires pat != [] && pat[0] !in a
    ensures ReplaceAll(a + s, pat, rep) == a + ReplaceAll(s, pat, rep)
    decreases |a|
  {
    if a != [] {
      var t := a + s;
      if |t| < |pat| {
        assert ReplaceAll(s, pat, rep) == s;
      } else {
        assert t[..|pat|][0] == a[0] != pat[0];
        assert t[1..] == a[1..] + s;
        ReplaceAllSkips(a[1..], s, pat, rep);
        assert [a[0]] + (a[1..] + ReplaceAll(s, pat, rep)) == a + ReplaceAll(s, pat, rep);
      }
    } else {
      assert a + s == s;
    }
  }

  /** Removing every fence from `body + "```"` leaves `body` when `body` has no backquote. */
  lemma ClosingFenceRemoved(body: string)
    requires '`' !in body
    ensures ReplaceAll(body + "```", "```", "") == body
  {
    assert "```"[0] == '`';
    ReplaceAllSkips(body, "```", "```", "");
    assert "```" == "```" + [];
    ReplaceAllLeading("```", [], "");
    assert ReplaceAll("```", "```", "") == "";
    assert body + "" == body;
  }

  /** A reply wrapped in a "```json" fence gives back the stripped body. */
  lemma JsonFenceRoundTrip(body: string)
    requires '`' !in body
    ensures CleanFences("```json" + body + "```") == Strip(body)
  {
    var s := "```json" + body + "```";
    assert StartsWith(s, "```json") by { assert s[..7] == "```json"; }
    assert s == "```json" + (body + "```");
    ReplaceAllLeading("```json", body + "```", "");
    assert "```json"[0] == '`';
    ReplaceAllSkips(body, "```", "```json", "");
    assert ReplaceAll("```", "```json", "") == "```";
    assert ReplaceAll(s, "```json", "") == body + "```";
    ClosingFenceRemoved(body);
  }

  /** A reply wrapped in a plain "```" fence gives back the stripped body. */
  lemma PlainFenceRoundTrip(body: string)
    requires '`' !in body && !StartsWith(body, "json")
    ensures CleanFences("```" + body + "```") == Strip(body)
  {
    var s := "```" + body + "```";
    assert !StartsWith(s, "```json") by {
      if |body| >= 4 {
        assert body[..4] != "json";
        var k :| 0 <= k < 4 && body[k] != "json"[k];
        assert s[3 + k] == body[k];
        assert s[..7][3 + k] != "```json"[3 + k];
      } else if |s| >= 7 {
        assert s[3 + |body|] == '`';
        assert s[..7][3 + |body|] != "```json"[3 + |body|];
      }
    }
    assert StartsWith(s, "```") by { assert s[..3] == "```"; }
    assert s == "```" + (body + "```");
    ReplaceAllLeading("```", body + "```", "");
    ClosingFenceRemoved(body);
    assert ReplaceAll(s, "```", "") == body;
  }

  /** A reply without a leading fence is parsed as it is. */
  lemma UnfencedUntouched(content: string)
    requires !StartsWith(content, "```")
    ensures CleanFences(content) == content
  {
    JsonFenceIsFence(content);
  }

  /** A "```json" opening is in particular a "```" opening. */
  lemma JsonFenceIsFence(s: string)
    ensures StartsWith(s, "```json") ==> StartsWith(s, "```")
  {
    if StartsWith(s, "```json") {
      assert s[..3] == s[..7][..3];
    }
  }

  /**
   * The required-field loop on whatever `json.loads` produced: for each
   * field in turn, `field not in hvac_info` is Python's `in` on that value,
   * and a missing field is set to `None`. Assigning into anything but a dict
   * raises, and so does `in` on a number, a boolean or `None`; `None`
   * stands for that exception.
   */
  function FillFrom(v: Value, fields: seq<string>): Option<Value>
    decreases |fields|
  {
    if fields == [] then Some(v)
    else match PyContains(fields[0], v)
      case None => None
      case Some(present) =>
        if present then FillFrom(v, fields[1..])
        else if v.Dict? then FillFrom(Dict(Set(v.entries, fields[0], Null)), fields[1..])
        else None
  }

  /**
   * On a dict the fill always succeeds: every field is then present,
   * existing keys keep their values, and only missing fields are added, as
   * `None`, after the existing entries.
   */
  lemma {:induction false} FillFromDict(e: Entries, fields: seq<string>)
    ensures FillFrom(Dict(e), fields).Some? && FillFrom(Dict(e), fields).value.Dict?
    ensures var r := FillFrom(Dict(e), fields).value.entries;
      && (forall f :: f in fields ==> HasKey(r, f))
      && (forall k :: HasKey(e, k) ==> Get(r, k) == Get(e, k))
      && (forall k :: HasKey(r, k) && !HasKey(e, k) ==> k in fields && Get(r, k) == Some(Null))
      && |e| <= |r| && r[..|e|] == e
    decreases |fields|
  {
    if fields != [] {
      var f := fields[0];
      var next := if HasKey(e, f) then e else Set(e, f, Null);
      assert FillFrom(Dict(e), fields) == FillFrom(Dict(next), fields[1..]);
      FillFromDict(next, fields[1..]);
      var r := FillFrom(Dict(next), fields[1..]).value.entries;
      forall k | HasKey(e, k) ensures Get(next, k) == Get(e, k) {
        if !HasKey(e, f) { SetGet(e, f, Null, k); }
      }
      if !HasKey(e, f) {
        SetGet(e, f, Null, f);
        forall k | HasKey(next, k) && !HasKey(e, k) ensures k == f {
          SetGet(e, f, Null, k);
        }
        assert next[..|e|] == e;
        assert r[..|e|] == r[..|next|][..|e|];
      }
      assert forall g :: g in fields ==> g == f || g in fields[1..];
    }
  }

  /**
   * On any other value the fill changes nothing: it returns the value when
   * every field is found in it by `in`, and raises otherwise.
   */
  lemma {:induction false} FillFromOther(v: Value, fields: seq<string>)
    requires !v.Dict?
    ensures FillFrom(v, fields).Some? ==> FillFrom(v, fields) == Some(v)
    ensures FillFrom(v, fields).Some? <==> forall f :: f in fields ==> PyContains(f, v) == Some(true)
    decreases |fields|
  {
    if fields != [] {
      FillFromOther(v, fields[1..]);
      assert forall g :: g in fields ==> g == fields[0] || g in fields[1..];
    }
  }

  /** `analyze_with_openai`; `None` stands for the exception it lets escape. */
  function OpenAiOutcome(text: string, chat: string -> Option<string>, parse: string -> Option<Value>): Option<AiReply>
  {
    if Strip(text) == "" then Some(AiReply(true, NoError, EmptyAnalysis))
    else match chat(text)
      case None => None
      case Some(reply) =>
        match parse(CleanFences(Strip(reply)))
        case None => Some(AiReply(false, ParseError, EmptyAnalysis))
        case Some(v) =>
          match FillFrom(v, RequiredFields)
          case None => Some(AiReply(false, OtherError, EmptyAnalysis))
          case Some(filled) => Some(AiReply(true, NoError, filled))
  }

  /**
   * Empty or white-space-only text is answered with the empty analysis
   * whatever the chat model would have said: the model is not consulted.
   */
  lemma BlankTextSkipsModel(text: string, chat1: string -> Option<string>, chat2: string -> Option<string>,
                            parse: string -> Option<Value>)
    requires forall k :: 0 <= k < |text| ==> IsSpace(text[k])
    ensures OpenAiOutcome(text, chat1, parse) == OpenAiOutcome(text, chat2, parse) == Some(AiReply(true, NoError, EmptyAnalysis))
  {
    StripEmptyIff(text);
  }

  /**
   * With text to analyse: a failing chat call escapes as an exception (the
   * `except json.JSONDecodeError` clause cannot be evaluated before `json`
   * is imported), an unparsable reply gives the empty analysis with a parse
   * error, and a dict reply succeeds with the required fields filled in.
   */
  lemma OpenAiOutcomeCases(text: string, chat: string -> Option<string>, parse: string -> Option<Value>)
    requires Strip(text) != ""
    ensures chat(text).None? ==> OpenAiOutcome(text, chat, parse).None?
    ensures chat(text).Some? && parse(CleanFences(Strip(chat(text).value))).None? ==>
      OpenAiOutcome(text, chat, parse) == Some(AiReply(false, ParseError, EmptyAnalysis))
    ensures chat(text).Some? && parse(CleanFences(Strip(chat(text).value))).Some?
            && parse(CleanFences(Strip(chat(text).value))).value.Dict? ==>
      var e := parse(CleanFences(Strip(chat(text).value))).value.entries;
      var out := OpenAiOutcome(text, chat, parse);
      && out.Some? && out.value.success && out.value.analysis.Dict?
      && (forall f :: f in RequiredFields ==> HasKey(out.value.analysis.entries, f))
      && (forall k :: HasKey(e, k) ==> Get(out.value.analysis.entries, k) == Get(e, k))
  {
    if chat(text).Some? {
      var v := parse(CleanFences(Strip(chat(text).value)));
      if v.Some? && v.value.Dict? {
        FillFromDict(v.value.entries, RequiredFields);
      }
    }
  }

  /**
   * The required-field loop of `analyze_with_openai`, field by field,
   * updating the parsed value in place.
   */
  method EnsureRequiredFields(info: Value) returns (r: Option<Value>)
    ensures r == FillFrom(info, RequiredFields)
  {
    var current := info;
    var i := 0;
    while i < |RequiredFields|
      invariant 0 <= i <= |RequiredFields|
      invariant FillFrom(current, RequiredFields[i..]) == FillFrom(info, RequiredFields)
    {
      var field := RequiredFields[i];
      var present := PyContains(field, current);
      if present.None? {
        return None;
      }
      if !present.value {
        if !current.Dict? {
          return None;
        }
        current := Dict(Set(current.entries, field, Null));
      }
      assert RequiredFields[i..][1..] == RequiredFields[i + 1..];
      i := i + 1;
    }
    r := Some(current);
  }

  /** `analyze_with_openai`, step by step. */
  method AnalyzeWithOpenAI(text: string, chat: string -> Option<string>, parse: string -> Option<Value>)
    returns (r: Option<AiReply>)
    ensures r == OpenAiOutcome(text, chat, parse)
  {
    if Strip(text) == "" {
      return Some(AiReply(true, NoError, EmptyAnalysis));
    }
    var reply := chat(text);
    if reply.None? {
      return None;
    }
    var content := CleanFences(Strip(reply.value));
    var parsed := parse(content);
    if parsed.None? {
      return Some(AiReply(false, ParseError, EmptyAnalysis));
    }
    var filled := EnsureRequiredFields(parsed.value);
    if filled.None? {
      return Some(AiReply(false, OtherError, EmptyAnalysis));
    }
    r := Some(AiReply(true, NoError, filled.value));
  }

  /** The whole analysis of a consultation's images, as a function of the oracles. */
  function AnalysisOutcome(consultationId: string, imageKeys: seq<string>,
                           download: string -> Option<Bytes>, vision: Bytes -> Option<VisionResponse>,
                           chat: string -> Option<string>, parse: string -> Option<Value>): Option<ConsultationAnalysis>
  {
    var results := Results(consultationId, imageKeys, download, vision);
    var text := Join(SuccessTexts(results), "\n\n");
    match OpenAiOutcome(text, chat, parse)
    case None => None
    case Some(reply) => Some(ConsultationAnalysis(results, text, |results|, reply.analysis))
  }

  /**
   * `analyze_consultation_images`: download each key under the
   * consultation's folder, OCR what came back, join the successful texts
   * with blank lines and hand them to the chat model.
   */
  method AnalyzeConsultationImages(consultationId: string, imageKeys: seq<string>,
                                   download: string -> Option<Bytes>, vision: Bytes -> Option<VisionResponse>,
                                   chat: string -> Option<string>, parse: string -> Option<Value>)
    returns (r: Option<ConsultationAnalysis>)
    ensures r == AnalysisOutcome(consultationId, imageKeys, download, vision, chat, parse)
  {
    var results: seq<ImageResult> := [];
    var combined: seq<string> := [];
    for i := 0 to |imageKeys|
      invariant results == Results(consultationId, imageKeys[..i], download, vision)
      invariant combined == SuccessTexts(results)
    {
      assert imageKeys[..i + 1][..i] == imageKeys[..i];
      var content := download(Storage.DownloadKey(consultationId, imageKeys[i]));
      if content.Some? && |content.value| > 0 {
        var analysis := AnalyzeImage(vision(content.value));
        if analysis.success {
          combined := combined + [analysis.textDetected];
        }
        results := results + [ImageResult(imageKeys[i], analysis)];
      }
    }
    assert imageKeys[..|imageKeys|] == imageKeys;
    var allText := Join(combined, "\n\n");
    var ai := AnalyzeWithOpenAI(allText, chat, parse);
    if ai.None? {
      return None;
    }
    r := Some(ConsultationAnalysis(results, allText, |results|, ai.value.analysis));
  }

  /**
   * The count reported is the number of successful downloads, not the
   * number of keys; with no successful OCR the combined text is empty and
   * the empty analysis comes back without a chat call.
   */
  lemma AnalysisSpec(consultationId: string, imageKeys: seq<string>,
                     download: string -> Option<Bytes>, vision: Bytes -> Option<VisionResponse>,
                     chat: string -> Option<string>, parse: string -> Option<Value>)
    ensures var out := AnalysisOutcome(consultationId, imageKeys, download, vision, chat, parse);
      out.Some? ==> out.value.totalImagesAnalyzed == |DownloadedKeys(consultationId, imageKeys, download)|
    ensures var results := Results(consultationId, imageKeys, download, vision);
      (forall i :: 0 <= i < |results| ==> !results[i].analysis.success) ==>
        AnalysisOutcome(consultationId, imageKeys, download, vision, chat, parse)
          == Some(ConsultationAnalysis(results, "", |results|, EmptyAnalysis))
  {
    ResultsFollowDownloads(consultationId, imageKeys, download, vision);
    SuccessTextsSpec(Results(consultationId, imageKeys, download, vision));
    StripEmptyIff("");
  }
}
