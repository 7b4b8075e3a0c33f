/**
 * The second service's handlers (PhoBERT-Service/app/main.py): `/classify`,
 * `/spam`, `/sentiment` and `/health` over the global `classifier`, taken
 * here as a parameter. Each handler checks, in this order, that a loaded
 * classifier exists (503), that there is text (400), and that the
 * classifier call did not raise (500), then reads the returned dictionary
 * with a default for every missing key.
 */
module PhoBertApi {
  import opened Common
  import opened Text
  import PhoBert

  /** A dictionary returned by a classifier call, with the keys it may lack. */
  datatype ClassifyDict = ClassifyDict(category: Option<string>, isSpam: Option<bool>, spamScore: Option<real>,
                                       sentiment: Option<string>, sentimentScore: Option<real>, confidence: Option<real>)
  datatype SpamDict = SpamDict(isSpam: Option<bool>, spamScore: Option<real>, confidence: Option<real>)
  datatype SentimentDict = SentimentDict(sentiment: Option<string>, score: Option<real>, confidence: Option<real>)

  /**
   * The classifier object as the handlers use it: its `is_loaded`
   * attribute and its three methods, each returning a dictionary or raising.
   */
  datatype Service = Service(isLoaded: bool,
                             classify: string -> Result<ClassifyDict, string>,
                             detectSpam: string -> Result<SpamDict, string>,
                             analyzeSentiment: string -> Result<SentimentDict, string>)

  /**
   * The global `classifier`: one of the classifiers of classifier.py, or
   * any other object with the same interface.
   */
  datatype Classifier = Known(backend: PhoBert.Backend) | Other(service: Service)

  predicate IsLoaded(c: Classifier)
  {
    match c
    case Known(b) => PhoBert.IsLoaded(b)
    case Other(svc) => svc.isLoaded
  }

  /** `classifier.classify(text)`: a classifier of classifier.py never raises and fills every key. */
  function CallClassify(c: Classifier, text: string): Result<ClassifyDict, string>
  {
    match c
    case Known(b) =>
      var r := PhoBert.BackendClassify(b, text);
      Ok(ClassifyDict(Some(r.category), Some(r.isSpam), Some(r.spamScore),
                      Some(r.sentiment), Some(r.sentimentScore), Some(r.confidence)))
    case Other(svc) => svc.classify(text)
  }

  /** `classifier.detect_spam(text)`. */
  function CallDetectSpam(c: Classifier, text: string): Result<SpamDict, string>
  {
    match c
    case Known(b) =>
      var r := PhoBert.BackendDetectSpam(b, text);
      Ok(SpamDict(Some(r.isSpam), Some(r.spamScore), Some(r.confidence)))
    case Other(svc) => svc.detectSpam(text)
  }

  /** `classifier.analyze_sentiment(text)`. */
  function CallAnalyzeSentiment(c: Classifier, text: string): Result<SentimentDict, string>
  {
    match c
    case Known(b) =>
      var r := PhoBert.BackendAnalyzeSentiment(b, text);
      Ok(SentimentDict(Some(r.sentiment), Some(r.score), Some(r.confidence)))
    case Other(svc) => svc.analyzeSentiment(text)
  }

  /** `dict.get(key, default)`. */
  function Get<T>(entry: Option<T>, default: T): T
  {
    if entry.Some? then entry.value else default
  }

  /**
   * The request fields are `Optional[str]` defaulting to "": an omitted
   * field is `Some("")`, a field sent as null is `None`, which an f-string
   * renders as "None".
   */
  function Render(field: Option<string>): string
  {
    if field.Some? then field.value else "None"
  }

  datatype ClassifyRequest = ClassifyRequest(subject: Option<string>, body: Option<string>, text: Option<string>)

  datatype ClassifyResponse = ClassifyResponse(category: string, isSpam: bool, spamScore: real,
                                               sentiment: string, sentimentScore: real, confidence: real)
  datatype SpamResponse = SpamResponse(isSpam: bool, spamScore: real, confidence: real)
  datatype SentimentResponse = SentimentResponse(sentiment: string, score: real, confidence: real)
  datatype HealthResponse = HealthResponse(status: string, modelLoaded: bool, version: string)

  /** `classifier is None or not classifier.is_loaded`. */
  predicate Unavailable(classifier: Option<Classifier>)
  {
    classifier.None? || !IsLoaded(classifier.value)
  }

  /** `request.text or f"{request.subject} {request.body}".strip()`. */
  function ChooseText(request: ClassifyRequest): string
  {
    if request.text.Some? && request.text.value != "" then request.text.value
    else Strip(Render(request.subject) + " " + Render(request.body))
  }

  /**
   * A non-empty `text` is classified as sent, unstripped; otherwise there
   * is no text exactly when subject and body are both non-null and blank
   * (one sent as null renders as "None"; an omitted one defaults to "").
   */
  lemma ChooseTextEmptyIff(request: ClassifyRequest)
    ensures request.text.Some? && request.text.value != "" ==> ChooseText(request) == request.text.value
    ensures ChooseText(request) == "" <==>
      (request.text.None? || request.text.value == "")
      && request.subject.Some? && AllSpace(request.subject.value)
      && request.body.Some? && AllSpace(request.body.value)
  {
    JoinedStripEmptyIff(Render(request.subject), Render(request.body));
    assert !AllSpace("None") by {
      assert !IsSpace("None"[0]);
    }
  }

  const ModelNotLoaded := HttpError(503, "Model not loaded")
  const NoText := HttpError(400, "No text provided")

  /** `POST /classify`. */
  function HandleClassify(classifier: Option<Classifier>, request: ClassifyRequest): (r: Result<ClassifyResponse, HttpError>)
    ensures r.Ok? <==> !Unavailable(classifier) && ChooseText(request) != ""
                       && CallClassify(classifier.value, ChooseText(request)).Ok?
    ensures r.Ok? ==> var d := CallClassify(classifier.value, ChooseText(request)).value;
      && r.value.category == (if d.category.Some? then d.category.value else "primary")
      && r.value.isSpam == (d.isSpam.Some? && d.isSpam.value)
      && r.value.spamScore == (if d.spamScore.Some? then d.spamScore.value else 0.0)
      && r.value.sentiment == (if d.sentiment.Some? then d.sentiment.value else "neutral")
      && r.value.sentimentScore == (if d.sentimentScore.Some? then d.sentimentScore.value else 0.0)
      && r.value.confidence == (if d.confidence.Some? then d.confidence.value else 0.0)
  {
    if Unavailable(classifier) then Err(ModelNotLoaded)
    else
      var text := ChooseText(request);
      if text == "" then Err(NoText)
      else match CallClassify(classifier.value, text)
        case Err(_) => Err(HttpError(500, "Classification failed"))
        case Ok(d) => Ok(ClassifyResponse(Get(d.category, "primary"), Get(d.isSpam, false), Get(d.spamScore, 0.0),
                                          Get(d.sentiment, "neutral"), Get(d.sentimentScore, 0.0),
                                          Get(d.confidence, 0.0)))
  }

  /** `POST /spam`. */
  function HandleSpam(classifier: Option<Classifier>, text: string): (r: Result<SpamResponse, HttpError>)
    ensures r.Ok? <==> !Unavailable(classifier) && text != "" && CallDetectSpam(classifier.value, text).Ok?
    ensures r.Ok? ==> var d := CallDetectSpam(classifier.value, text).value;
      && r.value.isSpam == (d.isSpam.Some? && d.isSpam.value)
      && r.value.spamScore == (if d.spamScore.Some? then d.spamScore.value else 0.0)
      && r.value.confidence == (if d.confidence.Some? then d.confidence.value else 0.0)
    ensures !Unavailable(classifier) && text != "" && classifier.value.Known? ==>
      var o := PhoBert.BackendDetectSpam(classifier.value.backend, text);
      r == Ok(SpamResponse(o.isSpam, o.spamScore, o.confidence))
  {
    if Unavailable(classifier) then Err(ModelNotLoaded)
    else if text == "" then Err(NoText)
    else match CallDetectSpam(classifier.value, text)
      case Err(_) => Err(HttpError(500, "Spam detection failed"))
      case Ok(d) => Ok(SpamResponse(Get(d.isSpam, false), Get(d.spamScore, 0.0), Get(d.confidence, 0.0)))
  }

  /** `POST /sentiment`. */
  function HandleSentiment(classifier: Option<Classifier>, text: string): (r: Result<SentimentResponse, HttpError>)
    ensures r.Ok? <==> !Unavailable(classifier) && text != "" && CallAnalyzeSentiment(classifier.value, text).Ok?
    ensures r.Ok? ==> var d := CallAnalyzeSentiment(classifier.value, text).value;
      && r.value.sentiment == (if d.sentiment.Some? then d.sentiment.value else "neutral")
      && r.value.score == (if d.score.Some? then d.score.value else 0.0)
      && r.value.confidence == (if d.confidence.Some? then d.confidence.value else 0.0)
    ensures !Unavailable(classifier) && text != "" && classifier.value.Known? ==>
      var o := PhoBert.BackendAnalyzeSentiment(classifier.value.backend, text);
      r == Ok(SentimentResponse(o.sentiment, o.score, o.confidence))
  {
    if Unavailable(classifier) then Err(ModelNotLoaded)
    else if text == "" then Err(NoText)
    else match CallAnalyzeSentiment(classifier.value, text)
      case Err(_) => Err(HttpError(500, "Sentiment analysis failed"))
      case Ok(d) => Ok(SentimentResponse(Get(d.sentiment, "neutral"), Get(d.score, 0.0), Get(d.confidence, 0.0)))
  }

  /** `GET /health`. */
  function Health(classifier: Option<Classifier>): (h: HealthResponse)
    ensures h.modelLoaded <==> !Unavailable(classifier)
    ensures h.status == "healthy" && h.version == "1.0.0"
  {
    HealthResponse("healthy", classifier.Some? && IsLoaded(classifier.value), "1.0.0")
  }

  /**
   * The checks of `/classify` come in the order 503, 400, 500: a missing
   * or unloaded classifier answers 503 whatever the request holds; the
   * classifier is called only with non-empty text; 500 means that call raised.
   */
  lemma ClassifyCheckOrder(classifier: Option<Classifier>, request: ClassifyRequest)
    ensures var r := HandleClassify(classifier, request);
      && (r.Err? && r.error.status == 503 <==> Unavailable(classifier))
      && (r.Err? && r.error.status == 400 <==> !Unavailable(classifier) && ChooseText(request) == "")
      && (r.Err? && r.error.status == 500 <==>
            !Unavailable(classifier) && ChooseText(request) != "" && CallClassify(classifier.value, ChooseText(request)).Err?)
      && (r.Err? ==> r.error.status in {400, 500, 503})
  {
  }

  /** The same order for `/spam` and `/sentiment`, where only the empty string is "no text". */
  lemma SpamAndSentimentCheckOrder(classifier: Option<Classifier>, text: string)
    ensures var r := HandleSpam(classifier, text);
      && (r.Err? && r.error.status == 503 <==> Unavailable(classifier))
      && (r.Err? && r.error.status == 400 <==> !Unavailable(classifier) && text == "")
      && (r.Err? && r.error.status == 500 <==>
            !Unavailable(classifier) && text != "" && CallDetectSpam(classifier.value, text).Err?)
    ensures var r := HandleSentiment(classifier, text);
      && (r.Err? && r.error.status == 503 <==> Unavailable(classifier))
      && (r.Err? && r.error.status == 400 <==> !Unavailable(classifier) && text == "")
      && (r.Err? && r.error.status == 500 <==>
            !Unavailable(classifier) && text != "" && CallAnalyzeSentiment(classifier.value, text).Err?)
  {
  }

  /**
   * A dictionary without any of the keys yields the documented defaults,
   * on each of the three endpoints.
   */
  lemma MissingKeysDefault(classifier: Option<Classifier>, request: ClassifyRequest, text: string)
    ensures !Unavailable(classifier) && ChooseText(request) != ""
            && CallClassify(classifier.value, ChooseText(request)) == Ok(ClassifyDict(None, None, None, None, None, None))
            ==> HandleClassify(classifier, request) == Ok(ClassifyResponse("primary", false, 0.0, "neutral", 0.0, 0.0))
    ensures !Unavailable(classifier) && text != "" && CallDetectSpam(classifier.value, text) == Ok(SpamDict(None, None, None))
            ==> HandleSpam(classifier, text) == Ok(SpamResponse(false, 0.0, 0.0))
    ensures !Unavailable(classifier) && text != ""
            && CallAnalyzeSentiment(classifier.value, text) == Ok(SentimentDict(None, None, None))
            ==> HandleSentiment(classifier, text) == Ok(SentimentResponse("neutral", 0.0, 0.0))
  {
  }

  /**
   * Served by a classifier of classifier.py, `/classify` never answers 500
   * and reports exactly what the classifier computed on the chosen text;
   * a loaded one (as `get_classifier` always returns) answers only 400.
   */
  lemma ClassifierBackendsPassThrough(b: PhoBert.Backend, request: ClassifyRequest)
    ensures var r := HandleClassify(Some(Known(b)), request);
      && (r.Err? ==> r.error.status != 500)
      && (PhoBert.IsLoaded(b) && r.Err? ==> r.error.status == 400)
      && (PhoBert.IsLoaded(b) && ChooseText(request) != "" ==>
            var c := PhoBert.BackendClassify(b, ChooseText(request));
            r == Ok(ClassifyResponse(c.category, c.isSpam, c.spamScore, c.sentiment, c.sentimentScore, c.confidence)))
  {
  }

  /** The mock behind `/spam` and `/sentiment` reports its fixed confidence 0.6 for any text. */
  lemma MockEndpoints(text: string)
    requires text != ""
    ensures HandleSpam(Some(Known(PhoBert.MockBackend)), text).Ok?
    ensures HandleSpam(Some(Known(PhoBert.MockBackend)), text).value.confidence == 0.6
    ensures HandleSentiment(Some(Known(PhoBert.MockBackend)), text).value.sentiment
            == PhoBert.MockClassify(text).sentiment
  {
    PhoBert.MockAgreement(text);
  }
}
