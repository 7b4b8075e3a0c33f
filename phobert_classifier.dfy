/**
 * The second service's classifier (PhoBERT-Service/app/classifier.py):
 * `PhoBERTClassifier`, whose `classify` fills in only the axes whose model
 * is present and averages the confidences it collected, the keyword
 * `MockClassifier`, and `get_classifier`, which picks between them.
 *
 * Loading is reduced to which model directories exist and which loading
 * step, if any, raised; the models themselves are an `Inference`.
 */
module PhoBert {
  import opened Common
  import opened Text

  /** The `CATEGORIES` table in index order; index 0 is "primary", unlike the first service's label list. */
  const Categories: seq<string> := ["primary", "important", "social", "promotions", "updates", "spam"]

  /** `CATEGORIES.get(pred_class, "primary")`. */
  function CategoryName(k: int): (name: string)
    ensures name in Categories
    ensures 0 <= k < |Categories| ==> name == Categories[k]
    ensures name == "spam" <==> k == 5
    ensures (k < 0 || k > 5) ==> name == "primary"
  {
    if k == 0 then "primary"
    else if k == 1 then "important"
    else if k == 2 then "social"
    else if k == 3 then "promotions"
    else if k == 4 then "updates"
    else if k == 5 then "spam"
    else "primary"
  }

  /** `SENTIMENTS.get(pred_class, "neutral")`. */
  function SentimentName(k: int): (name: string)
    ensures name in {"negative", "neutral", "positive"}
    ensures name == "negative" <==> k == 0
    ensures name == "positive" <==> k == 2
  {
    if k == 0 then "negative"
    else if k == 1 then "neutral"
    else if k == 2 then "positive"
    else "neutral"
  }

  /** The dictionaries `classify`, `detect_spam` and `analyze_sentiment` return. */
  datatype ClassifyOutput = ClassifyOutput(category: string, isSpam: bool, spamScore: real,
                                           sentiment: string, sentimentScore: real, confidence: real)
  datatype SpamOutput = SpamOutput(isSpam: bool, spamScore: real, confidence: real)
  datatype SentimentOutput = SentimentOutput(sentiment: string, score: real, confidence: real)

  const DefaultOutput := ClassifyOutput("primary", false, 0.0, "neutral", 0.0, 0.0)
  const DefaultSpam := SpamOutput(false, 0.0, 0.0)
  const DefaultSentiment := SentimentOutput("neutral", 0.0, 0.0)

  // ---------------------------------------------------------------------
  // Loading
  // ---------------------------------------------------------------------

  /** The loading steps of `_load_models`, in the order they run. */
  datatype LoadStep = TokenizerStep | SpamStep | SentimentStep | CategoryStep

  function StepIndex(step: LoadStep): nat
  {
    match step
    case TokenizerStep => 0
    case SpamStep => 1
    case SentimentStep => 2
    case CategoryStep => 3
  }

  /**
   * Where `_load_models` raised: the step, and for a model step whether
   * `from_pretrained` had already returned and been assigned (the
   * exception came from `.to(device)` or `.eval()`).
   */
  datatype LoadFailure = LoadFailure(step: LoadStep, afterAssignment: bool)

  /**
   * The attribute `step` sets is non-None once loading ends: nothing
   * raised, a later step raised, or this model step raised after its
   * assignment. The tokenizer is assigned only when its loading returns.
   */
  predicate Assigned(failure: Option<LoadFailure>, step: LoadStep)
  {
    || failure.None?
    || StepIndex(step) < StepIndex(failure.value.step)
    || (failure.value.step == step && step != TokenizerStep && failure.value.afterAssignment)
  }

  /** Which of the three model directories exist. */
  datatype ModelFiles = ModelFiles(spam: bool, sentiment: bool, category: bool)

  /**
   * A constructed `PhoBERTClassifier`: `is_loaded`, which of the tokenizer
   * and the three models are non-None, and what the loaded models predict.
   */
  datatype PhoBertState = PhoBertState(isLoaded: bool, hasTokenizer: bool, hasSpamModel: bool,
                                       hasSentimentModel: bool, hasCategoryModel: bool, infer: Inference)

  /**
   * `__init__` followed by `_load_models`: nothing loads without the
   * transformers library; otherwise the tokenizer, then each model whose
   * directory exists, until a step raises; `is_loaded` holds when at least
   * one model loaded and nothing raised. A model assigned before its
   * `.to(device)` or `.eval()` raised stays non-None.
   */
  function Load(transformersAvailable: bool, files: ModelFiles, failure: Option<LoadFailure>, infer: Inference)
    : (s: PhoBertState)
    ensures s.isLoaded <==> transformersAvailable && failure.None? && (files.spam || files.sentiment || files.category)
    ensures s.hasTokenizer <==> transformersAvailable && Assigned(failure, TokenizerStep)
    ensures s.hasSpamModel <==> transformersAvailable && files.spam && Assigned(failure, SpamStep)
    ensures s.hasSentimentModel <==> transformersAvailable && files.sentiment && Assigned(failure, SentimentStep)
    ensures s.hasCategoryModel <==> transformersAvailable && files.category && Assigned(failure, CategoryStep)
    ensures s.isLoaded ==> s.hasTokenizer
    ensures s.isLoaded ==> (s.hasSpamModel <==> files.spam) && (s.hasSentimentModel <==> files.sentiment)
                           && (s.hasCategoryModel <==> files.category)
    ensures s.infer == infer
  {
    if !transformersAvailable then PhoBertState(false, false, false, false, false, infer)
    else
      var spam := files.spam && Assigned(failure, SpamStep);
      var sentiment := files.sentiment && Assigned(failure, SentimentStep);
      var category := files.category && Assigned(failure, CategoryStep);
      var loaded := failure.None? && (spam || sentiment || category);
      PhoBertState(loaded, Assigned(failure, TokenizerStep), spam, sentiment, category, infer)
  }

  /**
   * A model step that raises after its assignment leaves the classifier
   * unloaded yet holding that model, so a direct `detect_spam` call still
   * runs it, while `classify` returns the defaults.
   */
  lemma AssignedModelSurvivesFailure(files: ModelFiles, infer: Inference, text: string)
    requires files.spam
    ensures var s := Load(true, files, Some(LoadFailure(SpamStep, true)), infer);
      && !s.isLoaded && s.hasTokenizer && s.hasSpamModel
      && !s.hasSentimentModel && !s.hasCategoryModel
      && ClassifyOf(s, text) == DefaultOutput
      && (Predict(s, SpamAxis, text).Ok? ==> DetectSpam(s, text).confidence == Predict(s, SpamAxis, text).value.1)
  {
  }

  // ---------------------------------------------------------------------
  // PhoBERTClassifier
  // ---------------------------------------------------------------------

  const TokenizerMissing: string := "Tokenizer not loaded"
  const EmptyOutput: string := "argmax of an empty probability vector"

  /**
   * `_preprocess` then `_predict`: the first most probable class and its
   * probability, or the exception a missing tokenizer or the model raises.
   */
  function Predict(s: PhoBertState, axis: Axis, text: string): (r: Result<(nat, real), string>)
    ensures r.Ok? <==> s.hasTokenizer && s.infer(axis, text).Ok? && |s.infer(axis, text).value| > 0
    ensures r.Ok? ==> var probs := s.infer(axis, text).value;
      r.value.0 < |probs| && r.value.1 == probs[r.value.0]
      && (forall j :: 0 <= j < |probs| ==> probs[j] <= r.value.1)
      && (forall j :: 0 <= j < r.value.0 ==> probs[j] < r.value.1)
  {
    if !s.hasTokenizer then Err(TokenizerMissing)
    else
      var probs :- s.infer(axis, text);
      match TopClass(probs)
      case None => Err(EmptyOutput)
      case Some(top) => Ok(top)
  }

  /**
   * `detect_spam`: class 1 is spam; `spam_score` is the confidence for
   * spam and its complement otherwise; every failure gives the defaults.
   */
  function DetectSpam(s: PhoBertState, text: string): (r: SpamOutput)
    ensures !s.hasSpamModel || Predict(s, SpamAxis, text).Err? ==> r == DefaultSpam
    ensures s.hasSpamModel && Predict(s, SpamAxis, text).Ok? ==>
      var (k, c) := Predict(s, SpamAxis, text).value;
      (r.isSpam <==> k == 1) && r.confidence == c && r.spamScore == (if k == 1 then c else 1.0 - c)
  {
    if !s.hasSpamModel then DefaultSpam
    else match Predict(s, SpamAxis, text)
      case Err(_) => DefaultSpam
      case Ok((k, c)) => SpamOutput(k == 1, if k == 1 then c else 1.0 - c, c)
  }

  /** `analyze_sentiment`: the label lookup, with the score equal to the confidence. */
  function AnalyzeSentiment(s: PhoBertState, text: string): (r: SentimentOutput)
    ensures r.score == r.confidence
    ensures r.sentiment in {"negative", "neutral", "positive"}
    ensures !s.hasSentimentModel || Predict(s, SentimentAxis, text).Err? ==> r == DefaultSentiment
    ensures s.hasSentimentModel && Predict(s, SentimentAxis, text).Ok? ==>
      r.sentiment == SentimentName(Predict(s, SentimentAxis, text).value.0)
      && r.confidence == Predict(s, SentimentAxis, text).value.1
  {
    if !s.hasSentimentModel then DefaultSentiment
    else match Predict(s, SentimentAxis, text)
      case Err(_) => DefaultSentiment
      case Ok((k, c)) => SentimentOutput(SentimentName(k), c, c)
  }

  /**
   * For a two-class spam model whose output is a probability
   * distribution, `spam_score` is the probability of class 1 whichever
   * class wins.
   */
  lemma SpamScoreIsSpamProbability(s: PhoBertState, text: string)
    requires s.hasSpamModel && Predict(s, SpamAxis, text).Ok?
    requires var probs := s.infer(SpamAxis, text).value; |probs| == 2 && IsDistribution(probs)
    ensures DetectSpam(s, text).spamScore == s.infer(SpamAxis, text).value[1]
  {
    var probs := s.infer(SpamAxis, text).value;
    assert Sum(probs) == probs[0] + probs[1] by {
      assert Sum(probs) == Sum(probs[..1]) + probs[1];
      assert probs[..1][..0] == [];
      assert Sum(probs[..1]) == probs[0];
    }
  }

  /**
   * The confidences `classify` collects, in order: one per present spam
   * and sentiment model (0.0 when that call failed inside), then the
   * category model's when it predicted.
   */
  function Collected(s: PhoBertState, text: string): seq<real>
  {
    (if s.hasSpamModel then [DetectSpam(s, text).confidence] else [])
    + (if s.hasSentimentModel then [AnalyzeSentiment(s, text).confidence] else [])
    + (if s.hasCategoryModel && Predict(s, CategoryAxis, text).Ok? then [Predict(s, CategoryAxis, text).value.1] else [])
  }

  /** The category step raises: its model is present and predicting fails. */
  predicate CategoryStepFails(s: PhoBertState, text: string)
  {
    s.hasCategoryModel && Predict(s, CategoryAxis, text).Err?
  }

  /**
   * What `PhoBERTClassifier.classify` returns: the defaults when not
   * loaded or without a tokenizer; otherwise each present axis overwrites
   * its fields, and the confidence is the mean of the collected ones,
   * except that a failing category step leaves it at 0.0.
   */
  function ClassifyOf(s: PhoBertState, text: string): (r: ClassifyOutput)
  {
    if !s.isLoaded || !s.hasTokenizer then DefaultOutput
    else
      var spam := DetectSpam(s, text);
      var sentiment := AnalyzeSentiment(s, text);
      var category := Predict(s, CategoryAxis, text);
      var confs := Collected(s, text);
      ClassifyOutput(
        if s.hasCategoryModel && category.Ok? then CategoryName(category.value.0) else "primary",
        s.hasSpamModel && spam.isSpam,
        if s.hasSpamModel then spam.spamScore else 0.0,
        if s.hasSentimentModel then sentiment.sentiment else "neutral",
        if s.hasSentimentModel then sentiment.score else 0.0,
        if CategoryStepFails(s, text) || confs == [] then 0.0 else Mean(confs))
  }

  /**
   * `PhoBERTClassifier.classify`, step by step: it fills the result
   * field by field and appends each axis's confidence as it goes.
   */
  method Classify(s: PhoBertState, text: string) returns (result: ClassifyOutput)
    ensures result == ClassifyOf(s, text)
  {
    result := DefaultOutput;
    if !s.isLoaded {
      return;
    }
    if !s.hasTokenizer {
      // `_preprocess` raises before any axis runs
      return;
    }
    var confidences: seq<real> := [];
    if s.hasSpamModel {
      var spam := DetectSpam(s, text);
      result := result.(isSpam := spam.isSpam, spamScore := spam.spamScore);
      confidences := confidences + [spam.confidence];
    }
    if s.hasSentimentModel {
      var sentiment := AnalyzeSentiment(s, text);
      result := result.(sentiment := sentiment.sentiment, sentimentScore := sentiment.score);
      confidences := confidences + [sentiment.confidence];
    }
    if s.hasCategoryModel {
      var prediction := Predict(s, CategoryAxis, text);
      if prediction.Err? {
        // the exception skips the averaging; the fields set so far stay
        return;
      }
      result := result.(category := CategoryName(prediction.value.0));
      confidences := confidences + [prediction.value.1];
    }
    assert confidences == Collected(s, text);
    if |confidences| > 0 {
      result := result.(confidence := Mean(confidences));
    }
  }

  /** An unloaded classifier returns exactly the defaults, whatever its models would say. */
  lemma UnloadedDefaults(s: PhoBertState, text: string)
    requires !s.isLoaded
    ensures ClassifyOf(s, text) == ClassifyOutput("primary", false, 0.0, "neutral", 0.0, 0.0)
  {
  }

  /**
   * Each axis is filled by its own model alone: an axis whose model is
   * absent keeps its defaults, and a present one reports what
   * `detect_spam`, `analyze_sentiment` or the category lookup report.
   */
  lemma PartialAxes(s: PhoBertState, text: string)
    requires s.isLoaded && s.hasTokenizer
    ensures var r := ClassifyOf(s, text);
      && (!s.hasSpamModel ==> !r.isSpam && r.spamScore == 0.0)
      && (s.hasSpamModel ==> r.isSpam == DetectSpam(s, text).isSpam && r.spamScore == DetectSpam(s, text).spamScore)
      && (!s.hasSentimentModel ==> r.sentiment == "neutral" && r.sentimentScore == 0.0)
      && (s.hasSentimentModel ==> r.sentiment == AnalyzeSentiment(s, text).sentiment
                                  && r.sentimentScore == AnalyzeSentiment(s, text).confidence)
      && (s.hasCategoryModel && Predict(s, CategoryAxis, text).Ok? ==>
            r.category == CategoryName(Predict(s, CategoryAxis, text).value.0))
      && (r.category != "primary" ==> s.hasCategoryModel && Predict(s, CategoryAxis, text).Ok?)
  {
  }

  /**
   * An exception in the category step keeps the spam and sentiment fields
   * already set and leaves the overall confidence at 0.0.
   */
  lemma CategoryFailureKeepsEarlierAxes(s: PhoBertState, text: string)
    requires s.isLoaded && s.hasTokenizer && CategoryStepFails(s, text)
    ensures var r := ClassifyOf(s, text);
      && r.confidence == 0.0 && r.category == "primary"
      && (s.hasSpamModel ==> r.isSpam == DetectSpam(s, text).isSpam)
      && (s.hasSentimentModel ==> r.sentiment == AnalyzeSentiment(s, text).sentiment)
  {
  }

  /**
   * Unless the category step raises, the overall confidence is the average
   * of the confidences of the models present, whichever of the three they
   * are, and 0.0 when there is none.
   */
  lemma PresentAxesAverage(s: PhoBertState, text: string)
    requires s.isLoaded && s.hasTokenizer && !CategoryStepFails(s, text)
    ensures var n := (if s.hasSpamModel then 1 else 0) + (if s.hasSentimentModel then 1 else 0)
                     + (if s.hasCategoryModel then 1 else 0);
      var total := (if s.hasSpamModel then DetectSpam(s, text).confidence else 0.0)
                   + (if s.hasSentimentModel then AnalyzeSentiment(s, text).confidence else 0.0)
                   + (if s.hasCategoryModel then Predict(s, CategoryAxis, text).value.1 else 0.0);
      ClassifyOf(s, text).confidence == if n == 0 then 0.0 else total / (n as real)
  {
    var a: seq<real> := if s.hasSpamModel then [DetectSpam(s, text).confidence] else [];
    var b: seq<real> := if s.hasSentimentModel then [AnalyzeSentiment(s, text).confidence] else [];
    var c: seq<real> := if s.hasCategoryModel then [Predict(s, CategoryAxis, text).value.1] else [];
    assert Collected(s, text) == a + b + c;
    SumConcat(a + b, c);
    SumConcat(a, b);
    if s.hasSpamModel { SumSingleton(a[0]); }
    if s.hasSentimentModel { SumSingleton(b[0]); }
    if s.hasCategoryModel { SumSingleton(c[0]); }
  }

  /**
   * When every model outputs a probability distribution the overall
   * confidence lies in [0, 1]: it is an average of probabilities, or 0.0.
   */
  lemma ConfidenceIsProbability(s: PhoBertState, text: string)
    requires forall a: Axis :: s.infer(a, text).Ok? ==> IsDistribution(s.infer(a, text).value)
    ensures 0.0 <= ClassifyOf(s, text).confidence <= 1.0
  {
    if s.isLoaded && s.hasTokenizer && !CategoryStepFails(s, text) && Collected(s, text) != [] {
      var confs := Collected(s, text);
      forall a: Axis | Predict(s, a, text).Ok?
        ensures 0.0 <= Predict(s, a, text).value.1 <= 1.0
      {
        var probs := s.infer(a, text).value;
        TermAtMostSum(probs, Predict(s, a, text).value.0);
      }
      forall i | 0 <= i < |confs| ensures 0.0 <= confs[i] <= 1.0 {
      }
      MeanBounds(confs, 0.0, 1.0);
    }
  }

  // ---------------------------------------------------------------------
  // MockClassifier
  // ---------------------------------------------------------------------

  const MockSpamWords: seq<string> := ["miễn phí", "trúng thưởng", "click here", "free", "winner"]
  const MockPositiveWords: seq<string> := ["cảm ơn", "tuyệt vời", "great", "thanks"]
  const MockNegativeWords: seq<string> := ["lỗi", "tệ", "error", "bad", "problem"]
  const MockSocialWords: seq<string> := ["facebook", "instagram", "social"]
  const MockPromotionWords: seq<string> := ["sale", "discount", "khuyến mãi"]
  const MockUpdateWords: seq<string> := ["update", "cập nhật", "shipping"]
  const MockImportantWords: seq<string> := ["urgent", "important", "quan trọng"]

  /** `MockClassifier.classify`: `any(...)` tests on the lowered text in an if/elif chain. */
  function MockClassify(text: string): (r: ClassifyOutput)
    ensures r.isSpam <==> AnyIn(MockSpamWords, Lower(text))
    ensures r.spamScore == if r.isSpam then 0.8 else 0.1
    ensures r.sentimentScore == 0.7 && r.confidence == 0.6
  {
    var t := Lower(text);
    var isSpam := AnyIn(MockSpamWords, t);
    var sentiment :=
      if AnyIn(MockPositiveWords, t) then "positive"
      else if AnyIn(MockNegativeWords, t) then "negative"
      else "neutral";
    var category :=
      if AnyIn(MockSocialWords, t) then "social"
      else if AnyIn(MockPromotionWords, t) then "promotions"
      else if AnyIn(MockUpdateWords, t) then "updates"
      else if AnyIn(MockImportantWords, t) then "important"
      else "primary";
    ClassifyOutput(category, isSpam, if isSpam then 0.8 else 0.1, sentiment, 0.7, 0.6)
  }

  /** `MockClassifier.detect_spam`. */
  function MockDetectSpam(text: string): (r: SpamOutput)
    ensures r.confidence == 0.6
  {
    var result := MockClassify(text);
    SpamOutput(result.isSpam, result.spamScore, 0.6)
  }

  /** `MockClassifier.analyze_sentiment`. */
  function MockAnalyzeSentiment(text: string): (r: SentimentOutput)
    ensures r.confidence == 0.6 && r.score == 0.7
  {
    var result := MockClassify(text);
    SentimentOutput(result.sentiment, result.sentimentScore, 0.6)
  }

  /** The mock's three entry points agree on the same text. */
  lemma MockAgreement(text: string)
    ensures MockDetectSpam(text).isSpam == MockClassify(text).isSpam
    ensures MockDetectSpam(text).spamScore == MockClassify(text).spamScore
    ensures MockAnalyzeSentiment(text).sentiment == MockClassify(text).sentiment
  {
  }

  /**
   * Sentiment precedence: a text with both positive and negative words is
   * positive; it is negative only without positive words.
   */
  lemma MockSentimentPrecedence(text: string)
    ensures var t := Lower(text);
      var r := MockClassify(text);
      && (r.sentiment == "positive" <==> AnyIn(MockPositiveWords, t))
      && (r.sentiment == "negative" <==> !AnyIn(MockPositiveWords, t) && AnyIn(MockNegativeWords, t))
      && (r.sentiment == "neutral" <==> !AnyIn(MockPositiveWords, t) && !AnyIn(MockNegativeWords, t))
  {
  }

  /**
   * Category precedence social > promotions > updates > important >
   * primary, decided by the first list that matches and never by how many
   * words of each list match.
   */
  lemma MockCategoryPrecedence(text: string)
    ensures var t := Lower(text);
      var r := MockClassify(text);
      && (r.category == "social" <==> AnyIn(MockSocialWords, t))
      && (r.category == "promotions" <==> !AnyIn(MockSocialWords, t) && AnyIn(MockPromotionWords, t))
      && (r.category == "updates" <==>
            !AnyIn(MockSocialWords, t) && !AnyIn(MockPromotionWords, t) && AnyIn(MockUpdateWords, t))
      && (r.category == "important" <==>
            !AnyIn(MockSocialWords, t) && !AnyIn(MockPromotionWords, t) && !AnyIn(MockUpdateWords, t)
            && AnyIn(MockImportantWords, t))
      && (r.category == "primary" <==>
            !AnyIn(MockSocialWords, t) && !AnyIn(MockPromotionWords, t) && !AnyIn(MockUpdateWords, t)
            && !AnyIn(MockImportantWords, t))
  {
  }

  /**
   * One social word decides the category, whatever else the text holds
   * (promotion, update or important words included).
   */
  lemma MockSocialWins(pre: string, post: string)
    ensures MockClassify(pre + "facebook" + post).category == "social"
  {
    var kw := "facebook";
    assert Lower(pre + kw + post) == Lower(pre) + kw + Lower(post) by {
      LowerConcat(pre + kw, post);
      LowerConcat(pre, kw);
      assert NoUpper(kw);
      LowerIdempotent(kw);
    }
    OccursBetween(Lower(pre), kw, Lower(post));
    assert MockSocialWords[0] == kw;
    assert AnyIn(MockSocialWords, Lower(pre + kw + post));
  }

  // ---------------------------------------------------------------------
  // get_classifier
  // ---------------------------------------------------------------------

  /** The object `get_classifier` hands out. */
  datatype Backend = PhoBertBackend(state: PhoBertState) | MockBackend

  /** The `is_loaded` attribute; the mock is always loaded. */
  predicate IsLoaded(b: Backend)
  {
    b.MockBackend? || b.state.isLoaded
  }

  function BackendClassify(b: Backend, text: string): ClassifyOutput
  {
    match b
    case PhoBertBackend(s) => ClassifyOf(s, text)
    case MockBackend => MockClassify(text)
  }

  function BackendDetectSpam(b: Backend, text: string): SpamOutput
  {
    match b
    case PhoBertBackend(s) => DetectSpam(s, text)
    case MockBackend => MockDetectSpam(text)
  }

  function BackendAnalyzeSentiment(b: Backend, text: string): SentimentOutput
  {
    match b
    case PhoBertBackend(s) => AnalyzeSentiment(s, text)
    case MockBackend => MockAnalyzeSentiment(text)
  }

  /**
   * `get_classifier`: the PhoBERT classifier when the transformers library
   * is present and it loaded, the mock otherwise; either way what it
   * returns is loaded.
   */
  function GetClassifier(transformersAvailable: bool, files: ModelFiles, failure: Option<LoadFailure>, infer: Inference)
    : (b: Backend)
    ensures IsLoaded(b)
    ensures b.PhoBertBackend? <==>
      transformersAvailable && failure.None? && (files.spam || files.sentiment || files.category)
    ensures b.PhoBertBackend? ==> b.state == Load(transformersAvailable, files, failure, infer)
  {
    if transformersAvailable then
      var s := Load(transformersAvailable, files, failure, infer);
      if s.isLoaded then PhoBertBackend(s) else MockBackend
    else MockBackend
  }
}
