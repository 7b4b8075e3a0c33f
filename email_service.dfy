/**
 * The email service (Email-System-Server/phobert-service/main.py): the
 * model path that maps each axis's probability vector to a label, the
 * `/classify`, `/sentiment`, `/batch-classify` and `/health` handlers, and
 * their choice between the model and the keyword rule classifier.
 *
 * The global `classifier` is a parameter: None when PhoBERT is disabled or
 * failed to load, otherwise the loaded classifier, whose models are an
 * `Inference` capability. Wall-clock timing is a parameter too.
 */
module EmailService {
  import opened Common
  import opened Text
  import RuleBased

  type ClassifyResult = RuleBased.ClassifyResult

  /** The label lists of the classifier; a model's class index is a position in them. */
  const SpamLabels: seq<string> := ["ham", "spam"]
  const SentimentLabels: seq<string> := ["negative", "neutral", "positive"]
  const CategoryLabels: seq<string> := ["important", "social", "promotions", "updates", "primary"]

  /** Text of the exceptions the model path can raise on a malformed model output. */
  const ArgMaxOfEmpty: string := "attempt to get argmax of an empty sequence"
  const IndexOutOfRange: string := "list index out of range"

  /** The `PhoBERTClassifier` instance: its `models_loaded` flag, its device, its models. */
  datatype ModelClassifier = ModelClassifier(modelsLoaded: bool, device: string, infer: Inference)

  /** `if classifier and classifier.models_loaded`: the model back end serves the request. */
  predicate UsesModel(classifier: Option<ModelClassifier>)
  {
    classifier.Some? && classifier.value.modelsLoaded
  }

  /** The text `preprocess_text` hands to the tokenizer: never empty, at most 5000 characters. */
  function PreprocessText(text: string): (t: string)
    ensures 1 <= |t| <= 5000
    ensures text == "" ==> t == " "
    ensures text != "" ==> t == text[..if |text| <= 5000 then |text| else 5000]
  {
    var s := if text == "" then " " else text;
    if |s| <= 5000 then s else s[..5000]
  }

  /**
   * `labels[np.argmax(probs)]` with `float(probs[predicted_idx])`: the label
   * of the first most probable class and that probability, or the exception
   * an empty vector or an index past the label list raises.
   */
  function LabelAt(labels: seq<string>, probs: seq<real>): (r: Result<(string, real), string>)
    ensures r.Ok? <==> |probs| > 0 && ArgMax(probs) < |labels|
    ensures r.Ok? ==> r.value == (labels[ArgMax(probs)], probs[ArgMax(probs)])
    ensures r.Ok? ==> forall j :: 0 <= j < |probs| ==> probs[j] <= r.value.1
    ensures |probs| == 0 ==> r == Err(ArgMaxOfEmpty)
  {
    match TopClass(probs)
    case None => Err(ArgMaxOfEmpty)
    case Some((k, p)) => if k < |labels| then Ok((labels[k], p)) else Err(IndexOutOfRange)
  }

  /** `predict_spam`: spam exactly when the first most probable class is index 1. */
  function PredictSpam(m: ModelClassifier, text: string): (r: Result<(bool, real), string>)
    ensures var probs := m.infer(SpamAxis, PreprocessText(text));
      r.Ok? <==> probs.Ok? && |probs.value| > 0 && ArgMax(probs.value) < |SpamLabels|
    ensures var probs := m.infer(SpamAxis, PreprocessText(text));
      r.Ok? ==> (probs.Ok? && |probs.value| > 0
                 && (r.value.0 <==> ArgMax(probs.value) == 1)
                 && r.value.1 == probs.value[ArgMax(probs.value)])
  {
    var probs :- m.infer(SpamAxis, PreprocessText(text));
    var top :- LabelAt(SpamLabels, probs);
    Ok((top.0 == "spam", top.1))
  }

  /**
   * `{label: prob for label, prob in zip(labels, probs)}`: pairs up to the
   * shorter of the two lists, a later pair overriding an earlier one.
   */
  function ZipScores(labels: seq<string>, probs: seq<real>): map<string, real>
    decreases |labels|
  {
    if labels == [] || probs == [] then map[]
    else
      var n := if |labels| <= |probs| then |labels| else |probs|;
      ZipScores(labels[..n - 1], probs[..n - 1])[labels[n - 1] := probs[n - 1]]
  }

  /** With distinct labels, each paired label maps to its own probability. */
  lemma {:induction false} ZipScoresAt(labels: seq<string>, probs: seq<real>, i: nat)
    requires forall a, b :: 0 <= a < b < |labels| ==> labels[a] != labels[b]
    requires i < |labels| && i < |probs|
    ensures labels[i] in ZipScores(labels, probs) && ZipScores(labels, probs)[labels[i]] == probs[i]
    decreases |labels|
  {
    var n := if |labels| <= |probs| then |labels| else |probs|;
    if i < n - 1 {
      ZipScoresAt(labels[..n - 1], probs[..n - 1], i);
    }
  }

  /**
   * `predict_sentiment`: the label of the first most probable class, its
   * probability, and the map from each label to its probability.
   */
  function PredictSentiment(m: ModelClassifier, text: string): (r: Result<(string, real, map<string, real>), string>)
    ensures var probs := m.infer(SentimentAxis, PreprocessText(text));
      r.Ok? <==> probs.Ok? && |probs.value| > 0 && ArgMax(probs.value) < |SentimentLabels|
    ensures var probs := m.infer(SentimentAxis, PreprocessText(text));
      r.Ok? ==> (&& r.value.0 == SentimentLabels[ArgMax(probs.value)]
                 && r.value.1 == probs.value[ArgMax(probs.value)]
                 && r.value.2 == ZipScores(SentimentLabels, probs.value))
  {
    var probs :- m.infer(SentimentAxis, PreprocessText(text));
    var top :- LabelAt(SentimentLabels, probs);
    Ok((top.0, top.1, ZipScores(SentimentLabels, probs)))
  }

  /** `predict_category`: the label of the first most probable class and its probability. */
  function PredictCategory(m: ModelClassifier, text: string): (r: Result<(string, real), string>)
    ensures var probs := m.infer(CategoryAxis, PreprocessText(text));
      r.Ok? <==> probs.Ok? && |probs.value| > 0 && ArgMax(probs.value) < |CategoryLabels|
    ensures var probs := m.infer(CategoryAxis, PreprocessText(text));
      r.Ok? ==> r.value == (CategoryLabels[ArgMax(probs.value)], probs.value[ArgMax(probs.value)])
  {
    var probs :- m.infer(CategoryAxis, PreprocessText(text));
    LabelAt(CategoryLabels, probs)
  }

  /**
   * `PhoBERTClassifier.classify_email`: spam, then sentiment, then category
   * on the stripped joined text; the first exception ends the call.
   */
  function ClassifyEmail(m: ModelClassifier, subject: string, body: string, elapsedMs: real): (r: Result<ClassifyResult, string>)
  {
    var fullText := Strip(subject + " " + body);
    var spam :- PredictSpam(m, fullText);
    var sentiment :- PredictSentiment(m, fullText);
    var category :- PredictCategory(m, fullText);
    Ok(RuleBased.ClassifyResult(spam.0, spam.1, category.0, category.1, sentiment.0, sentiment.1, elapsedMs))
  }

  /**
   * `classify_email` raises exactly when one of the three predictions
   * raises, and the first one to raise (spam, then sentiment, then
   * category) decides the error.
   */
  lemma ClassifyEmailOkIff(m: ModelClassifier, subject: string, body: string, elapsedMs: real)
    ensures var r := ClassifyEmail(m, subject, body, elapsedMs);
      var t := Strip(subject + " " + body);
      && (r.Ok? <==> PredictSpam(m, t).Ok? && PredictSentiment(m, t).Ok? && PredictCategory(m, t).Ok?)
      && (r.Err? ==> r.error == if PredictSpam(m, t).Err? then PredictSpam(m, t).error
                               else if PredictSentiment(m, t).Err? then PredictSentiment(m, t).error
                               else PredictCategory(m, t).error)
  {
  }

  /** The model path's labels are the first most probable classes, reported with their probabilities. */
  lemma ModelPathLabels(m: ModelClassifier, subject: string, body: string, elapsedMs: real)
    requires ClassifyEmail(m, subject, body, elapsedMs).Ok?
    ensures var r := ClassifyEmail(m, subject, body, elapsedMs).value;
      var t := PreprocessText(Strip(subject + " " + body));
      var spam := m.infer(SpamAxis, t).value;
      var sentiment := m.infer(SentimentAxis, t).value;
      var category := m.infer(CategoryAxis, t).value;
      && (r.isSpam <==> ArgMax(spam) == 1) && r.spamConfidence == spam[ArgMax(spam)]
      && r.sentiment == SentimentLabels[ArgMax(sentiment)] && r.sentimentConfidence == sentiment[ArgMax(sentiment)]
      && r.category == CategoryLabels[ArgMax(category)] && r.categoryConfidence == category[ArgMax(category)]
      && r.processingTimeMs == elapsedMs
  {
    var fullText := Strip(subject + " " + body);
    var spam := PredictSpam(m, fullText);
    var sentiment := PredictSentiment(m, fullText);
    var category := PredictCategory(m, fullText);
    assert spam.Ok? && sentiment.Ok? && category.Ok?;
    assert ClassifyEmail(m, subject, body, elapsedMs).value
      == RuleBased.ClassifyResult(spam.value.0, spam.value.1, category.value.0, category.value.1,
                                  sentiment.value.0, sentiment.value.1, elapsedMs);
  }

  /** A model whose every output has one probability per label never makes the model path fail. */
  lemma WellShapedModelSucceeds(m: ModelClassifier, subject: string, body: string, elapsedMs: real)
    requires forall t :: m.infer(SpamAxis, t).Ok? && |m.infer(SpamAxis, t).value| == |SpamLabels|
    requires forall t :: m.infer(SentimentAxis, t).Ok? && |m.infer(SentimentAxis, t).value| == |SentimentLabels|
    requires forall t :: m.infer(CategoryAxis, t).Ok? && |m.infer(CategoryAxis, t).value| == |CategoryLabels|
    ensures ClassifyEmail(m, subject, body, elapsedMs).Ok?
  {
    var t := Strip(subject + " " + body);
    assert PredictSpam(m, t).Ok?;
    assert PredictSentiment(m, t).Ok?;
    assert PredictCategory(m, t).Ok?;
    ClassifyEmailOkIff(m, subject, body, elapsedMs);
  }

  // ---------------------------------------------------------------------
  // Handlers
  // ---------------------------------------------------------------------

  datatype ClassifyRequest = ClassifyRequest(subject: string, body: string, language: string)

  datatype SentimentResponse = SentimentResponse(sentiment: string, confidence: real, scores: map<string, real>)

  datatype HealthResponse = HealthResponse(status: string, modelLoaded: bool, device: string, message: string)

  /** `POST /classify`. */
  function HandleClassify(classifier: Option<ModelClassifier>, request: ClassifyRequest, elapsedMs: real)
    : (r: Result<ClassifyResult, HttpError>)
  {
    var fullText := Strip(request.subject + " " + request.body);
    if fullText == "" then Err(HttpError(400, "Email content cannot be empty"))
    else if UsesModel(classifier) then
      match ClassifyEmail(classifier.value, request.subject, request.body, elapsedMs)
      case Ok(result) => Ok(result)
      case Err(e) => Err(HttpError(500, "Classification failed: " + e))
    else Ok(RuleBased.Classify(fullText, request.language))
  }

  /**
   * `/classify` answers 400 exactly when subject and body are both blank,
   * whichever back end is loaded; with text, the model back end serves it
   * when loaded (its exceptions become 500) and the rule classifier, on the
   * stripped text and the request's language, otherwise.
   */
  lemma ClassifyDispatch(classifier: Option<ModelClassifier>, request: ClassifyRequest, elapsedMs: real)
    ensures var r := HandleClassify(classifier, request, elapsedMs);
      && (r.Err? && r.error.status == 400 <==> AllSpace(request.subject) && AllSpace(request.body))
      && (r.Err? ==> r.error.status == 400 || (r.error.status == 500 && UsesModel(classifier)))
      && (!UsesModel(classifier) && r.Ok? ==>
            r.value == RuleBased.Classify(Strip(request.subject + " " + request.body), request.language))
      && (UsesModel(classifier) && !(AllSpace(request.subject) && AllSpace(request.body)) ==>
            var m := ClassifyEmail(classifier.value, request.subject, request.body, elapsedMs);
            && (m.Ok? ==> r == Ok(m.value))
            && (m.Err? ==> r == Err(HttpError(500, "Classification failed: " + m.error))))
  {
    JoinedStripEmptyIff(request.subject, request.body);
  }

  /** The neutral score map of the rule fallback with the returned label's entry replaced. */
  function FallbackScores(sentiment: string, confidence: real): (scores: map<string, real>)
    ensures scores.Keys == {"positive", "neutral", "negative", sentiment}
    ensures scores[sentiment] == confidence
    ensures forall l :: l in scores && l != sentiment ==> scores[l] == if l == "neutral" then 0.34 else 0.33
  {
    map["positive" := 0.33, "neutral" := 0.34, "negative" := 0.33][sentiment := confidence]
  }

  /** `POST /sentiment`. */
  function HandleSentiment(classifier: Option<ModelClassifier>, text: string): (r: Result<SentimentResponse, HttpError>)
  {
    if text == "" then Err(HttpError(400, "Text cannot be empty"))
    else if UsesModel(classifier) then
      match PredictSentiment(classifier.value, text)
      case Ok((sentiment, confidence, scores)) => Ok(SentimentResponse(sentiment, confidence, scores))
      case Err(e) => Err(HttpError(500, "Analysis failed: " + e))
    else
      var result := RuleBased.Classify(text, "vi");
      Ok(SentimentResponse(result.sentiment, result.sentimentConfidence,
                           FallbackScores(result.sentiment, result.sentimentConfidence)))
  }

  /**
   * `/sentiment` rejects only the empty string (blank text is analysed);
   * on both back ends the score map gives the returned label its
   * confidence; the rule fallback analyses with language "vi" and keeps
   * 0.33 / 0.34 / 0.33 for the other two labels.
   */
  lemma SentimentScores(classifier: Option<ModelClassifier>, text: string)
    ensures var r := HandleSentiment(classifier, text);
      && (r.Err? && r.error.status == 400 <==> text == "")
      && (!UsesModel(classifier) && text != "" ==> r.Ok?)
      && (r.Ok? ==> r.value.sentiment in r.value.scores && r.value.scores[r.value.sentiment] == r.value.confidence)
      && (r.Ok? && !UsesModel(classifier) ==>
            var rule := RuleBased.Classify(text, "vi");
            && r.value.sentiment == rule.sentiment && r.value.confidence == rule.sentimentConfidence
            && r.value.scores.Keys == {"positive", "neutral", "negative"}
            && (forall l :: l in r.value.scores && l != rule.sentiment ==>
                  r.value.scores[l] == if l == "neutral" then 0.34 else 0.33))
  {
    var r := HandleSentiment(classifier, text);
    if r.Ok? && UsesModel(classifier) {
      var probs := classifier.value.infer(SentimentAxis, PreprocessText(text)).value;
      ZipScoresAt(SentimentLabels, probs, ArgMax(probs));
    } else if r.Ok? {
      var rule := RuleBased.Classify(text, "vi");
      assert rule.sentiment in SentimentLabels;
      assert r.value.scores == FallbackScores(rule.sentiment, rule.sentimentConfidence);
    }
  }

  /**
   * On the model path `/sentiment` reports the label of the first most
   * probable class with its probability, and the score map gives every
   * label its own probability; a malformed model output is a 500.
   */
  lemma SentimentModelPath(classifier: Option<ModelClassifier>, text: string)
    requires UsesModel(classifier) && text != ""
    ensures var r := HandleSentiment(classifier, text);
      var out := classifier.value.infer(SentimentAxis, PreprocessText(text));
      && (r.Ok? <==> out.Ok? && |out.value| > 0 && ArgMax(out.value) < |SentimentLabels|)
      && (r.Err? ==> r.error.status == 500)
      && (r.Ok? ==>
            && r.value.sentiment == SentimentLabels[ArgMax(out.value)]
            && r.value.confidence == out.value[ArgMax(out.value)]
            && (forall i :: 0 <= i < |SentimentLabels| && i < |out.value| ==>
                  SentimentLabels[i] in r.value.scores && r.value.scores[SentimentLabels[i]] == out.value[i]))
  {
    var r := HandleSentiment(classifier, text);
    var out := classifier.value.infer(SentimentAxis, PreprocessText(text));
    if r.Ok? {
      forall i | 0 <= i < |SentimentLabels| && i < |out.value|
        ensures SentimentLabels[i] in r.value.scores && r.value.scores[SentimentLabels[i]] == out.value[i]
      {
        ZipScoresAt(SentimentLabels, out.value, i);
      }
    }
  }

  /** `GET /health`. */
  function Health(classifier: Option<ModelClassifier>): (h: HealthResponse)
    ensures h.status == "healthy"
    ensures h.modelLoaded <==> classifier.Some? && classifier.value.modelsLoaded
    ensures h.device == if classifier.Some? then classifier.value.device else "cpu"
    ensures h.message == if h.modelLoaded then "PhoBERT loaded" else "Using rule-based fallback"
  {
    var modelLoaded := if classifier.Some? then classifier.value.modelsLoaded else false;
    HealthResponse("healthy", modelLoaded, if classifier.Some? then classifier.value.device else "cpu",
                   if modelLoaded then "PhoBERT loaded" else "Using rule-based fallback")
  }

  // ---------------------------------------------------------------------
  // Batch
  // ---------------------------------------------------------------------

  const MaxBatch: nat := 100

  /** One entry of the batch response: the result, or the exception text of that one item. */
  datatype BatchItem = Success(result: ClassifyResult) | Failure(error: string)

  datatype BatchResponse = BatchResponse(results: seq<BatchItem>, total: nat)

  /** One iteration of the batch loop; blank text is classified, not rejected. */
  function ClassifyItem(classifier: Option<ModelClassifier>, email: ClassifyRequest, elapsedMs: real): BatchItem
  {
    var fullText := Strip(email.subject + " " + email.body);
    if UsesModel(classifier) then
      match ClassifyEmail(classifier.value, email.subject, email.body, elapsedMs)
      case Ok(result) => Success(result)
      case Err(e) => Failure(e)
    else Success(RuleBased.Classify(fullText, email.language))
  }

  /**
   * The `for email in emails` loop of `batch_classify`: it appends one
   * entry per email, in input order; `outcome(email, i)` is what the
   * `try`/`except` around item `i` appends.
   */
  method CollectOutcomes(emails: seq<ClassifyRequest>, outcome: (ClassifyRequest, nat) -> BatchItem)
    returns (results: seq<BatchItem>)
    ensures |results| == |emails|
    ensures forall i :: 0 <= i < |emails| ==> results[i] == outcome(emails[i], i)
  {
    results := [];
    for i := 0 to |emails|
      invariant |results| == i
      invariant forall j :: 0 <= j < i ==> results[j] == outcome(emails[j], j)
    {
      results := results + [outcome(emails[i], i)];
    }
  }

  /**
   * `POST /batch-classify`: more than 100 emails fail the whole batch
   * before any is classified; otherwise one entry per email in input order,
   * each decided by that email alone, and `total` counts them all.
   * `elapsedMs(i)` is the time the clock measures for item `i`.
   */
  method BatchClassify(classifier: Option<ModelClassifier>, emails: seq<ClassifyRequest>, elapsedMs: nat -> real)
    returns (r: Result<BatchResponse, HttpError>)
    ensures |emails| > MaxBatch <==> r.Err?
    ensures r.Err? ==> r.error == HttpError(400, "Maximum 100 emails per batch")
    ensures r.Ok? ==> |r.value.results| == |emails| && r.value.total == |emails|
    ensures r.Ok? ==> forall i :: 0 <= i < |emails| ==>
      r.value.results[i] == ClassifyItem(classifier, emails[i], elapsedMs(i))
  {
    if |emails| > MaxBatch {
      return Err(HttpError(400, "Maximum 100 emails per batch"));
    }
    var outcome := (email: ClassifyRequest, i: nat) => ClassifyItem(classifier, email, elapsedMs(i));
    var results := CollectOutcomes(emails, outcome);
    forall i | 0 <= i < |emails| ensures results[i] == ClassifyItem(classifier, emails[i], elapsedMs(i)) {
      assert results[i] == outcome(emails[i], i);
    }
    return Ok(BatchResponse(results, |results|));
  }

  /**
   * On the model path a batch item is a failure exactly when
   * `classify_email` raised, carrying that exception's text; otherwise it
   * carries the classification.
   */
  lemma ModelBatchItem(classifier: Option<ModelClassifier>, email: ClassifyRequest, elapsedMs: real)
    requires UsesModel(classifier)
    ensures var item := ClassifyItem(classifier, email, elapsedMs);
      var m := ClassifyEmail(classifier.value, email.subject, email.body, elapsedMs);
      && (item.Failure? <==> m.Err?)
      && (item.Failure? ==> item.error == m.error)
      && (item.Success? ==> item.result == m.value)
  {
  }

  /**
   * An email with text gets the same answer in a batch as from
   * `/classify`: a success with the same result, or a failure whose text is
   * the one `/classify` reports after "Classification failed: ".
   */
  lemma BatchItemMatchesClassify(classifier: Option<ModelClassifier>, email: ClassifyRequest, elapsedMs: real)
    requires !(AllSpace(email.subject) && AllSpace(email.body))
    ensures var item := ClassifyItem(classifier, email, elapsedMs);
      var r := HandleClassify(classifier, email, elapsedMs);
      && (item.Success? <==> r.Ok?)
      && (item.Success? ==> item.result == r.value)
      && (item.Failure? ==> r.Err? && r.error == HttpError(500, "Classification failed: " + item.error))
  {
    ClassifyDispatch(classifier, email, elapsedMs);
  }

  /** Without a loaded model every batch item succeeds, blank ones with the rule defaults. */
  lemma RuleBatchNeverFails(classifier: Option<ModelClassifier>, email: ClassifyRequest, elapsedMs: real)
    requires !UsesModel(classifier)
    ensures ClassifyItem(classifier, email, elapsedMs).Success?
    ensures AllSpace(email.subject) && AllSpace(email.body) ==>
      ClassifyItem(classifier, email, elapsedMs).result
        == RuleBased.ClassifyResult(false, 0.5, "primary", 0.6, "neutral", 0.6, 1.0)
  {
    JoinedStripEmptyIff(email.subject, email.body);
    if AllSpace(email.subject) && AllSpace(email.body) {
      RuleBased.EmptyTextDefaults(Strip(email.subject + " " + email.body), email.language);
    }
  }
}
