/**
  The prediction bridge: observations fetched from Splunk go to Gemini, the JSON
  array in Gemini's reply is cut out of the surrounding prose and parsed, and the
  predictions are written back to Splunk's `predictions` index, one envelope each,
  unless a prediction carries an "error" key.

  The Splunk search, the Gemini call and json.loads are foreign code: the fetch
  result is a parameter, Gemini is a client object whose reply to a given data set
  is fixed, and the parser is a partial function handed in by the caller.
 */
module GeminiPrediction {
  import opened Wrappers
  import opened PyStrings

  // ---------------------------------------------------------------------------
  // Data model
  // ---------------------------------------------------------------------------

  /** A JSON value as json.loads builds it; a number keeps its literal text. */
  datatype Json =
    | JNull
    | JBool(b: bool)
    | JNumber(literal: string)
    | JString(s: string)
    | JArray(items: seq<Json>)
    | JObject(members: map<string, Json>)

  /** What generate_content gives back: the reply text, or the exception it raised. */
  datatype GeminiReply = Reply(text: string) | Failure(message: string)

  /** How the `__main__` block ends. */
  datatype Outcome =
    | NoData              // the fetch failed or returned nothing
    | PredictionsRejected // no predictions, or one of them carries "error"
    | GateCrashed         // `"error" in p` raised TypeError on a number, a boolean or null
    | IngestionCalled     // ingest_predictions_to_splunk ran

  /** The event written to the predictions index for one prediction. */
  datatype Envelope = Envelope(timestamp: string, source: string, sourcetype: string, prediction: Json)

  const NoDataMessage: string := "No data available for prediction."
  const UnparsableMessage: string := "Gemini response not parsable as JSON array."
  const FailurePrefix: string := "Failed to get prediction from Gemini: "
  const ScriptSource: string := "gemini_prediction_script"
  const PredictionSourcetype: string := "chrono_predictions"

  /** `{"error": message}`. */
  function ErrorRecord(message: string): Json
  {
    JObject(map["error" := JString(message)])
  }

  /** `{"error": ..., "raw_response": raw}`: the record for a reply with no parsable array. */
  function UnparsableRecord(raw: string): Json
  {
    JObject(map["error" := JString(UnparsableMessage), "raw_response" := JString(raw)])
  }

  // ---------------------------------------------------------------------------
  // Extracting the JSON array from the reply
  // ---------------------------------------------------------------------------

  /** Some '[' in text has a ']' somewhere after it. */
  ghost predicate HasBracketPair(text: string)
  {
    exists i, j :: 0 <= i < j < |text| && text[i] == '[' && text[j] == ']'
  }

  /**
    The span handed to json.loads: from the first '[' to the last ']', both
    included, provided both exist and the ']' comes after the '['.
   */
  function ArraySpan(text: string): (span: Option<(nat, nat)>)
    ensures span.None? <==> !HasBracketPair(text)
    ensures span.Some? ==>
      var (first, last) := span.value;
      && first < last < |text|
      && text[first] == '[' && text[last] == ']'
      && (forall k :: 0 <= k < first ==> text[k] != '[')
      && (forall k :: last < k < |text| ==> text[k] != ']')
  {
    var first := Find(text, '[');
    var last := RFind(text, ']');
    if first != -1 && last != -1 && last > first then Some((first, last)) else None
  }

  /** The text json.loads sees, when there is one: the span, cut out of the reply. */
  function ArrayText(text: string): (candidate: Option<string>)
    ensures candidate.None? <==> !HasBracketPair(text)
    ensures candidate.Some? ==>
      var (first, last) := ArraySpan(text).value;
      var c := candidate.value;
      && c == text[first..last + 1]
      && 2 <= |c| && c[0] == '[' && c[|c| - 1] == ']'
      && '[' !in text[..first] && ']' !in text[last + 1..]
  {
    match ArraySpan(text)
    case None => None
    case Some((first, last)) =>
      AbsentBefore(text, '[', first);
      AbsentAfter(text, ']', last + 1);
      Some(text[first..last + 1])
  }

  /**
    The predictions read from a reply text: the parsed array, or one record that
    keeps the whole raw text when there is no array or it does not parse.
   */
  function ExtractPredictions(text: string, parse: string -> Option<seq<Json>>): (ps: seq<Json>)
    ensures ArrayText(text).None? ==> ps == [UnparsableRecord(text)]
    ensures ArrayText(text).Some? && parse(ArrayText(text).value).None? ==> ps == [UnparsableRecord(text)]
    ensures ArrayText(text).Some? && parse(ArrayText(text).value).Some? ==> ps == parse(ArrayText(text).value).value
  {
    match ArrayText(text)
    case None => [UnparsableRecord(text)]
    case Some(c) =>
      match parse(c)
      case None => [UnparsableRecord(text)]
      case Some(predictions) => predictions
  }

  /** Prose without '[' before the array and without ']' after it is cut away before parsing. */
  lemma ArrayTextOfWrapped(before: string, bracketed: string, after: string)
    requires 2 <= |bracketed| && bracketed[0] == '[' && bracketed[|bracketed| - 1] == ']'
    requires '[' !in before && ']' !in after
    ensures ArrayText(before + bracketed + after) == Some(bracketed)
  {
    var text := before + bracketed + after;
    var first, last := |before|, |before| + |bracketed| - 1;
    assert text[first] == bracketed[0] && text[last] == bracketed[|bracketed| - 1];
    assert HasBracketPair(text);
    assert text[first..last + 1] == bracketed;
  }

  /** A ']' before the only '[' is no array. */
  lemma ReversedBracketsExample()
    ensures ArrayText("] then [") == None
  {
    var text := "] then [";
    if HasBracketPair(text) {
      var i, j :| 0 <= i < j < |text| && text[i] == '[' && text[j] == ']';
      assert false;
    }
  }

  // ---------------------------------------------------------------------------
  // generate_gemini_prediction
  // ---------------------------------------------------------------------------

  /** `not pheno_data`: the fetch failed (None) or found nothing. */
  predicate NoObservations(data: Option<seq<Json>>)
  {
    data.None? || data.value == []
  }

  /** The predictions made of one Gemini outcome. */
  function PredictionsFromReply(reply: GeminiReply, parse: string -> Option<seq<Json>>): (r: seq<Json>)
    ensures reply.Failure? || ArrayText(reply.text).None? || parse(ArrayText(reply.text).value).None? ==>
      |r| == 1 && ContainsError(r[0]) == Some(true)
    ensures reply.Reply? && ArrayText(reply.text).Some? && parse(ArrayText(reply.text).value).Some? ==>
      r == parse(ArrayText(reply.text).value).value
  {
    match reply
    case Failure(message) => [ErrorRecord(FailurePrefix + message)]
    case Reply(text) => ExtractPredictions(text, parse)
  }

  /** What generate_gemini_prediction returns for the data and Gemini's reply to it. */
  function Prediction(data: Option<seq<Json>>, respond: seq<Json> -> GeminiReply, parse: string -> Option<seq<Json>>): (r: seq<Json>)
    ensures NoObservations(data) ==> |r| == 1 && ContainsError(r[0]) == Some(true)
    ensures !NoObservations(data) ==> r == PredictionsFromReply(respond(data.value), parse)
  {
    if NoObservations(data) then [ErrorRecord(NoDataMessage)] else PredictionsFromReply(respond(data.value), parse)
  }

  /** The Gemini model; each call's prompt is recorded by the observations it embeds. */
  class GeminiClient {
    /** The reply Gemini gives to a prompt built from these observations. */
    const respond: seq<Json> -> GeminiReply
    var prompts: seq<seq<Json>>

    constructor (respond: seq<Json> -> GeminiReply)
      ensures this.respond == respond && prompts == []
    {
      this.respond := respond;
      prompts := [];
    }

    /** model.generate_content(prompt_text), the prompt being built from data. */
    method GenerateContent(data: seq<Json>) returns (reply: GeminiReply)
      modifies this
      ensures prompts == old(prompts) + [data]
      ensures reply == respond(data)
    {
      prompts := prompts + [data];
      reply := respond(data);
    }
  }

  /** generate_gemini_prediction: Gemini is called only when there are observations. */
  method GenerateGeminiPrediction(data: Option<seq<Json>>, gemini: GeminiClient, parse: string -> Option<seq<Json>>)
    returns (predictions: seq<Json>)
    modifies gemini
    ensures predictions == Prediction(data, gemini.respond, parse)
    ensures gemini.prompts == old(gemini.prompts) + (if NoObservations(data) then [] else [data.value])
  {
    if NoObservations(data) {
      return [ErrorRecord(NoDataMessage)];
    }
    var reply := gemini.GenerateContent(data.value);
    match reply
    case Failure(message) =>
      predictions := [ErrorRecord(FailurePrefix + message)];
    case Reply(text) =>
      var span := ArraySpan(text);
      if span.Some? {
        var jsonString := text[span.value.0..span.value.1 + 1];
        assert ArrayText(text) == Some(jsonString);
        var parsed := parse(jsonString);
        if parsed.Some? {
          predictions := parsed.value;
        } else {
          predictions := [UnparsableRecord(text)];
        }
      } else {
        predictions := [UnparsableRecord(text)];
      }
  }

  /** No observations: a single no-data error record, whatever Gemini would say. */
  lemma NoDataPrediction(data: Option<seq<Json>>, respond: seq<Json> -> GeminiReply, parse: string -> Option<seq<Json>>)
    requires NoObservations(data)
    ensures Prediction(data, respond, parse) == [ErrorRecord(NoDataMessage)]
    ensures AnyError(Prediction(data, respond, parse)) == Some(true)
  {
    assert ContainsError(ErrorRecord(NoDataMessage)) == Some(true);
  }

  /** A failed Gemini call yields one error record naming the failure, and nothing else. */
  lemma FailurePrediction(data: seq<Json>, respond: seq<Json> -> GeminiReply, parse: string -> Option<seq<Json>>)
    requires data != [] && respond(data).Failure?
    ensures Prediction(Some(data), respond, parse) == [ErrorRecord(FailurePrefix + respond(data).message)]
    ensures Gate(Prediction(Some(data), respond, parse)) == PredictionsRejected
  {
    assert ContainsError(ErrorRecord(FailurePrefix + respond(data).message)) == Some(true);
  }

  /** A reply without a parsable array yields one error record that keeps the raw reply. */
  lemma UnparsablePrediction(data: seq<Json>, respond: seq<Json> -> GeminiReply, parse: string -> Option<seq<Json>>)
    requires data != [] && respond(data).Reply?
    requires ArrayText(respond(data).text).None? || parse(ArrayText(respond(data).text).value).None?
    ensures Prediction(Some(data), respond, parse) == [UnparsableRecord(respond(data).text)]
    ensures UnparsableRecord(respond(data).text).members["raw_response"] == JString(respond(data).text)
    ensures Gate(Prediction(Some(data), respond, parse)) == PredictionsRejected
  {
    assert ContainsError(UnparsableRecord(respond(data).text)) == Some(true);
  }

  // ---------------------------------------------------------------------------
  // The gate in __main__
  // ---------------------------------------------------------------------------

  /** Python's `"error" in p`; None where it raises TypeError. */
  function ContainsError(p: Json): (r: Option<bool>)
    ensures r.None? <==> (p.JNull? || p.JBool? || p.JNumber?)
    ensures p.JObject? ==> r == Some("error" in p.members)
    ensures p.JArray? ==> r == Some(JString("error") in p.items)
    ensures p.JString? ==> r == Some(Contains(p.s, "error"))
  {
    match p
    case JObject(members) => Some("error" in members)
    case JArray(items) => Some(JString("error") in items)
    case JString(s) => Some(Contains(s, "error"))
    case _ => None
  }

  /** Every record before position k tests clean. */
  predicate CleanBefore(ps: seq<Json>, k: nat)
    requires k <= |ps|
  {
    forall j :: 0 <= j < k ==> ContainsError(ps[j]) == Some(false)
  }

  /**
    `any("error" in p for p in predictions)`, stopping at the first true; None if a test
    raises first. The first record whose test is not a clean false decides the result.
   */
  function AnyError(ps: seq<Json>): (r: Option<bool>)
    ensures r == Some(false) <==> CleanBefore(ps, |ps|)
    ensures r == Some(true) ==> exists k :: 0 <= k < |ps| && ContainsError(ps[k]) == Some(true) && CleanBefore(ps, k)
    ensures r.None? ==> exists k :: 0 <= k < |ps| && ContainsError(ps[k]).None? && CleanBefore(ps, k)
  {
    if ps == [] then Some(false)
    else
      match ContainsError(ps[0])
      case None => None
      case Some(true) => Some(true)
      case Some(false) =>
        var rest := AnyError(ps[1..]);
        AnyErrorStep(ps);
        rest
  }

  /** The first record is clean, so a decisive record of the rest is one of the whole list. */
  lemma AnyErrorStep(ps: seq<Json>)
    requires ps != [] && ContainsError(ps[0]) == Some(false)
    ensures CleanBefore(ps[1..], |ps| - 1) <==> CleanBefore(ps, |ps|)
    ensures forall k :: 0 <= k < |ps| - 1 && CleanBefore(ps[1..], k) ==> CleanBefore(ps, k + 1)
  {
    assert forall k :: 1 <= k < |ps| ==> ps[k] == ps[1..][k - 1];
  }

  /** `if predictions and not any(...)`, with the TypeError the test may raise. */
  function Gate(ps: seq<Json>): (r: Outcome)
    ensures r != NoData
    ensures ps == [] ==> r == PredictionsRejected
    ensures r == GateCrashed ==> exists k :: 0 <= k < |ps| && ContainsError(ps[k]).None? && CleanBefore(ps, k)
    ensures r == PredictionsRejected && ps != [] ==>
      exists k :: 0 <= k < |ps| && ContainsError(ps[k]) == Some(true) && CleanBefore(ps, k)
  {
    if ps == [] then PredictionsRejected
    else
      match AnyError(ps)
      case None => GateCrashed
      case Some(true) => PredictionsRejected
      case Some(false) => IngestionCalled
  }

  /** The gate lets a list through exactly when it is non-empty and no record holds "error". */
  lemma GateIngestsExactlyClean(ps: seq<Json>)
    ensures Gate(ps) == IngestionCalled <==>
      ps != [] && forall k :: 0 <= k < |ps| ==> ContainsError(ps[k]) == Some(false)
  {
  }

  /**
    `any` stops at the first decisive record: a number before an error object makes the
    test raise, an error object before a number rejects the predictions.
   */
  lemma FirstDecisiveRecord(number: Json, errorObject: Json)
    requires number.JNumber?
    requires errorObject.JObject? && "error" in errorObject.members
    ensures Gate([number, errorObject]) == GateCrashed
    ensures Gate([errorObject, number]) == PredictionsRejected
  {
  }

  /** A record that is an object with an "error" key stops ingestion wherever it sits. */
  lemma ErrorObjectBlocks(ps: seq<Json>, k: nat)
    requires k < |ps| && ps[k].JObject? && "error" in ps[k].members
    ensures Gate(ps) != IngestionCalled
  {
    GateIngestsExactlyClean(ps);
  }

  // ---------------------------------------------------------------------------
  // ingest_predictions_to_splunk
  // ---------------------------------------------------------------------------

  /** The event written for prediction k, stamped with the k-th reading of the clock. */
  function EnvelopeFor(ps: seq<Json>, k: nat, clock: nat -> string): Envelope
    requires k < |ps|
  {
    Envelope(clock(k), ScriptSource, PredictionSourcetype, ps[k])
  }

  /** One envelope per prediction, in order. */
  function Envelopes(ps: seq<Json>, clock: nat -> string): (es: seq<Envelope>)
    ensures |es| == |ps|
  {
    seq(|ps|, k requires 0 <= k < |ps| => EnvelopeFor(ps, k, clock))
  }

  /** The predictions carried by a list of envelopes. */
  function Carried(es: seq<Envelope>): (ps: seq<Json>)
    ensures |ps| == |es|
  {
    seq(|es|, k requires 0 <= k < |es| => es[k].prediction)
  }

  /** Every envelope names the script and the predictions sourcetype, and carries its prediction unchanged. */
  lemma EnvelopesCarryPredictions(ps: seq<Json>, clock: nat -> string)
    ensures Carried(Envelopes(ps, clock)) == ps
    ensures forall e <- Envelopes(ps, clock) :: e.source == ScriptSource && e.sourcetype == PredictionSourcetype
  {
    var es := Envelopes(ps, clock);
    assert forall k :: 0 <= k < |es| ==> Carried(es)[k] == ps[k];
  }

  /** The Splunk service: whether connect() succeeds, whether the index exists, and what it holds. */
  class SplunkService {
    const reachable: bool
    const hasPredictionsIndex: bool
    /** The events submitted to the predictions index. */
    var events: seq<Envelope>

    constructor (reachable: bool, hasPredictionsIndex: bool)
      ensures this.reachable == reachable && this.hasPredictionsIndex == hasPredictionsIndex
      ensures events == []
    {
      this.reachable := reachable;
      this.hasPredictionsIndex := hasPredictionsIndex;
      events := [];
    }

    /** myindex.submit(json.dumps(event_data), sourcetype=...). */
    method Submit(e: Envelope)
      requires hasPredictionsIndex
      modifies this
      ensures events == old(events) + [e]
    {
      events := events + [e];
    }
  }

  /** Whether ingest_predictions_to_splunk gets as far as its loop. */
  predicate Writable(ps: seq<Json>, splunk: SplunkService)
    reads splunk
  {
    ps != [] && splunk.reachable && splunk.hasPredictionsIndex
  }

  /** ingest_predictions_to_splunk: one envelope per prediction, or nothing at all. */
  method IngestPredictions(predictions: seq<Json>, splunk: SplunkService, clock: nat -> string)
    modifies splunk
    ensures splunk.events == old(splunk.events) + (if Writable(predictions, splunk) then Envelopes(predictions, clock) else [])
  {
    if predictions == [] {
      return;
    }
    if !splunk.reachable || !splunk.hasPredictionsIndex {
      return;
    }
    for k := 0 to |predictions|
      invariant splunk.events == old(splunk.events) + Envelopes(predictions[..k], clock)
    {
      assert Envelopes(predictions[..k + 1], clock) == Envelopes(predictions[..k], clock) + [EnvelopeFor(predictions, k, clock)];
      splunk.Submit(EnvelopeFor(predictions, k, clock));
    }
    assert predictions[..|predictions|] == predictions;
  }

  // ---------------------------------------------------------------------------
  // __main__
  // ---------------------------------------------------------------------------

  /** How the script ends for this fetch result and this Gemini. */
  function ScriptOutcome(fetched: Option<seq<Json>>, respond: seq<Json> -> GeminiReply, parse: string -> Option<seq<Json>>): (r: Outcome)
    ensures r == NoData <==> NoObservations(fetched)
    ensures r == IngestionCalled ==> Prediction(fetched, respond, parse) != []
  {
    if NoObservations(fetched) then NoData else Gate(Prediction(fetched, respond, parse))
  }

  /** The script's main block. */
  method RunPredictionScript(
    fetched: Option<seq<Json>>, gemini: GeminiClient, parse: string -> Option<seq<Json>>,
    splunk: SplunkService, clock: nat -> string)
    returns (outcome: Outcome)
    modifies gemini, splunk
    ensures outcome == ScriptOutcome(fetched, gemini.respond, parse)
    ensures gemini.prompts == old(gemini.prompts) + (if NoObservations(fetched) then [] else [fetched.value])
    ensures var ps := Prediction(fetched, gemini.respond, parse);
      splunk.events == old(splunk.events) +
        (if outcome == IngestionCalled && Writable(ps, splunk) then Envelopes(ps, clock) else [])
  {
    if NoObservations(fetched) {
      return NoData;
    }
    var predictions := GenerateGeminiPrediction(fetched, gemini, parse);
    outcome := Gate(predictions);
    if outcome == IngestionCalled {
      IngestPredictions(predictions, splunk, clock);
    }
  }

  /** Splunk is written to only when there were observations and every prediction is clean. */
  lemma WritesOnlyClean(fetched: Option<seq<Json>>, respond: seq<Json> -> GeminiReply, parse: string -> Option<seq<Json>>)
    requires ScriptOutcome(fetched, respond, parse) == IngestionCalled
    ensures !NoObservations(fetched)
    ensures Prediction(fetched, respond, parse) != []
    ensures forall p <- Prediction(fetched, respond, parse) :: ContainsError(p) == Some(false)
  {
    GateIngestsExactlyClean(Prediction(fetched, respond, parse));
  }

  /** A failing Gemini call or an unparsable reply never reaches Splunk. */
  lemma GeminiErrorsNeverIngested(data: seq<Json>, respond: seq<Json> -> GeminiReply, parse: string -> Option<seq<Json>>)
    requires data != []
    requires || respond(data).Failure?
             || (respond(data).Reply? && ArrayText(respond(data).text).None?)
    ensures ScriptOutcome(Some(data), respond, parse) == PredictionsRejected
  {
    if respond(data).Failure? {
      FailurePrediction(data, respond, parse);
    } else {
      UnparsablePrediction(data, respond, parse);
    }
  }
}
