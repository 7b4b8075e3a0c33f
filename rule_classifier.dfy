/**
 * The keyword rule classifier of the email service
 * (`RuleBasedClassifier` in Email-System-Server/phobert-service/main.py):
 * three independent keyword tallies over the lower-cased text decide the
 * spam flag, the sentiment and the folder category, each with a confidence
 * that is a clamped linear function of its tally.
 */
module RuleBased {
  import opened Text
  import Common

  /** The result dict both back ends of the email service return (its `ClassifyResponse`). */
  datatype ClassifyResult = ClassifyResult(
    isSpam: bool,
    spamConfidence: real,
    category: string,
    categoryConfidence: real,
    sentiment: string,
    sentimentConfidence: real,
    processingTimeMs: real)

  const ViSpam: seq<string> := ["trúng thưởng", "giảm cân", "kiếm tiền", "miễn phí", "khuyến mãi đặc biệt",
                                "click ngay", "nhấn vào đây", "ưu đãi sốc", "giới hạn", "chỉ hôm nay"]
  const EnSpam: seq<string> := ["winner", "lottery", "free money", "click here", "limited time",
                                "act now", "congratulations", "selected", "prize", "urgent"]
  const SpamKeywords: map<string, seq<string>> := map["vi" := ViSpam, "en" := EnSpam]

  const ViNegative: seq<string> := ["thất vọng", "tệ", "kém", "tồi", "phàn nàn", "khiếu nại", "hủy", "từ chối"]
  const EnNegative: seq<string> := ["disappointed", "terrible", "worst", "complaint", "cancel", "refuse",
                                    "angry", "frustrated"]
  const NegativeKeywords: map<string, seq<string>> := map["vi" := ViNegative, "en" := EnNegative]

  const ViPositive: seq<string> := ["cảm ơn", "tuyệt vời", "xuất sắc", "hài lòng", "tốt", "yêu thích"]
  const EnPositive: seq<string> := ["thank", "excellent", "great", "wonderful", "appreciate", "love", "amazing"]
  const PositiveKeywords: map<string, seq<string>> := map["vi" := ViPositive, "en" := EnPositive]

  /** The keys of `CATEGORY_PATTERNS` in declaration (and so iteration) order. */
  const CategoryOrder: seq<string> := ["important", "social", "promotions", "updates"]

  const CategoryPatterns: map<string, seq<string>> := map[
    "important" := ["urgent", "important", "action required", "khẩn cấp", "quan trọng", "cần xử lý"],
    "social" := ["friend", "follow", "like", "comment", "bạn bè", "theo dõi", "bình luận"],
    "promotions" := ["sale", "discount", "offer", "deal", "giảm giá", "khuyến mãi", "ưu đãi"],
    "updates" := ["shipped", "delivered", "update", "notification", "giao hàng", "cập nhật", "thông báo"]]

  function RealMin(a: real, b: real): real { if a <= b then a else b }
  function RealMax(a: real, b: real): real { if a >= b then a else b }

  /**
   * `TABLE.get(language, []) + TABLE["en"]`: the language's own list (none
   * for an unknown language) followed by the English list.
   */
  function KeywordsFor(table: map<string, seq<string>>, language: string): seq<string>
    requires "en" in table
  {
    (if language in table then table[language] else []) + table["en"]
  }

  function SpamScore(text: string, language: string): nat
  {
    Count(KeywordsFor(SpamKeywords, language), text)
  }

  function PositiveScore(text: string, language: string): nat
  {
    Count(KeywordsFor(PositiveKeywords, language), text)
  }

  function NegativeScore(text: string, language: string): nat
  {
    Count(KeywordsFor(NegativeKeywords, language), text)
  }

  /** Spam confidence for a tally: it rises with the tally above the threshold 2 and falls below it. */
  function SpamConfidence(score: nat): (c: real)
    ensures 0.1 <= c <= 0.95
    ensures score >= 2 ==> 0.7 <= c
  {
    if score >= 2 then RealMin(0.5 + (score as real) * 0.1, 0.95)
    else RealMax(0.5 - (score as real) * 0.1, 0.1)
  }

  /** The sentiment label and its confidence from the positive and negative tallies. */
  function SentimentOf(pos: nat, neg: nat): (r: (string, real))
    ensures r.0 in {"positive", "negative", "neutral"} && 0.6 <= r.1 <= 0.9
    ensures r.0 == "positive" <==> pos > neg
    ensures r.0 == "negative" <==> neg > pos
  {
    if pos > neg then ("positive", RealMin(0.5 + (pos as real) * 0.1, 0.9))
    else if neg > pos then ("negative", RealMin(0.5 + (neg as real) * 0.1, 0.9))
    else ("neutral", 0.6)
  }

  /** The dict `category_scores` the loop in `classify` fills. */
  function CategoryScores(text: string): (scores: map<string, nat>)
    ensures HasAllCategories(scores)
  {
    map c | c in CategoryOrder :: Count(CategoryPatterns[c], text)
  }

  predicate HasAllCategories(scores: map<string, nat>)
  {
    forall i :: 0 <= i < |CategoryOrder| ==> CategoryOrder[i] in scores
  }

  /** The dict's values in its iteration order. */
  function ScoreVector(scores: map<string, nat>): (v: seq<real>)
    requires HasAllCategories(scores)
    ensures |v| == |CategoryOrder|
    ensures forall i :: 0 <= i < |v| ==> v[i] == scores[CategoryOrder[i]] as real
  {
    seq(|CategoryOrder|, i requires 0 <= i < |CategoryOrder| => scores[CategoryOrder[i]] as real)
  }

  /**
   * `max(category_scores, key=category_scores.get)` when some pattern
   * matched, "primary" otherwise, with the category confidence.
   */
  function CategoryOf(scores: map<string, nat>): (r: (string, real))
    requires HasAllCategories(scores)
    ensures r.0 in CategoryOrder + ["primary"] && 0.6 <= r.1 <= 0.85
  {
    var v := ScoreVector(scores);
    var k := Common.ArgMax(v);
    if v[k] > 0.0 then
      var c := CategoryOrder[k];
      (c, RealMin(0.5 + (scores[c] as real) * 0.15, 0.85))
    else ("primary", 0.6)
  }

  /** `RuleBasedClassifier.classify(text, language)`: pure and total. */
  function Classify(text: string, language: string): (r: ClassifyResult)
    ensures r.sentiment in {"positive", "negative", "neutral"} && r.category in CategoryOrder + ["primary"]
    ensures 0.1 <= r.spamConfidence <= 0.95
    ensures 0.6 <= r.sentimentConfidence <= 0.9
    ensures 0.6 <= r.categoryConfidence <= 0.85
    ensures r.processingTimeMs == 1.0
  {
    var t := Lower(text);
    var spam := SpamScore(t, language);
    var (sentiment, sentConf) := SentimentOf(PositiveScore(t, language), NegativeScore(t, language));
    var (category, catConf) := CategoryOf(CategoryScores(t));
    ClassifyResult(spam >= 2, SpamConfidence(spam), category, catConf, sentiment, sentConf, 1.0)
  }

  /** The `for cat, keywords in CATEGORY_PATTERNS.items()` loop that fills `category_scores`. */
  method ScoreCategories(text: string) returns (scores: map<string, nat>)
    ensures scores == CategoryScores(text)
  {
    scores := map[];
    for i := 0 to |CategoryOrder|
      invariant scores.Keys == set j | 0 <= j < i :: CategoryOrder[j]
      invariant forall c :: c in scores ==> scores[c] == Count(CategoryPatterns[c], text)
    {
      var cat := CategoryOrder[i];
      scores := scores[cat := Count(CategoryPatterns[cat], text)];
    }
    assert scores.Keys == CategoryScores(text).Keys;
  }

  // ---------------------------------------------------------------------
  // Properties of the rule classifier
  // ---------------------------------------------------------------------

  /**
   * Spam is a tally of at least 2; a spam verdict carries the confidence
   * min(0.5 + 0.1 * tally, 0.95), so in [0.7, 0.95], a ham verdict 0.5
   * (no hit) or 0.4 (one hit).
   */
  lemma SpamThreshold(text: string, language: string)
    ensures var r := Classify(text, language);
      var s := SpamScore(Lower(text), language);
      && (r.isSpam <==> s >= 2)
      && (r.isSpam ==> r.spamConfidence == RealMin(0.5 + (s as real) * 0.1, 0.95))
      && (r.isSpam ==> 0.7 <= r.spamConfidence <= 0.95)
      && (!r.isSpam && s == 0 ==> r.spamConfidence == 0.5)
      && (!r.isSpam && s == 1 ==> r.spamConfidence == 0.4)
  {
  }

  /** An unknown language code tallies the English spam keywords only. */
  lemma UnknownLanguageUsesEnglish(text: string, language: string)
    requires language != "vi" && language != "en"
    ensures SpamScore(text, language) == Count(EnSpam, text)
    ensures PositiveScore(text, language) == Count(EnPositive, text)
    ensures NegativeScore(text, language) == Count(EnNegative, text)
  {
    assert KeywordsFor(SpamKeywords, language) == EnSpam;
    assert KeywordsFor(PositiveKeywords, language) == EnPositive;
    assert KeywordsFor(NegativeKeywords, language) == EnNegative;
  }

  /** Vietnamese tallies both lists: the union, not a fallback. */
  lemma VietnameseUsesBothLists(text: string)
    ensures SpamScore(text, "vi") == Count(ViSpam, text) + Count(EnSpam, text)
  {
    CountConcat(ViSpam, EnSpam, text);
  }

  /**
   * With language "en" the English list is concatenated with itself, so
   * every English keyword counts twice: the tally is even, and a single
   * English spam keyword already makes the text spam.
   */
  lemma EnglishCountsTwice(text: string)
    ensures SpamScore(text, "en") == 2 * Count(EnSpam, text)
    ensures Count(EnSpam, Lower(text)) >= 1 ==> Classify(text, "en").isSpam
  {
    assert KeywordsFor(SpamKeywords, "en") == EnSpam + EnSpam;
    CountConcat(EnSpam, EnSpam, text);
    CountConcat(EnSpam, EnSpam, Lower(text));
  }

  /**
   * Sentiment is a three-way comparison of the tallies: the larger side
   * wins with confidence min(0.5 + 0.1 * count, 0.9), and equal tallies,
   * 0/0 included, give neutral with exactly 0.6.
   */
  lemma SentimentTieBreak(text: string, language: string)
    ensures var r := Classify(text, language);
      var pos := PositiveScore(Lower(text), language);
      var neg := NegativeScore(Lower(text), language);
      && (r.sentiment == "positive" <==> pos > neg)
      && (r.sentiment == "negative" <==> neg > pos)
      && (r.sentiment == "neutral" <==> pos == neg)
      && (pos > neg ==> r.sentimentConfidence == RealMin(0.5 + (pos as real) * 0.1, 0.9))
      && (neg > pos ==> r.sentimentConfidence == RealMin(0.5 + (neg as real) * 0.1, 0.9))
      && (pos == neg ==> r.sentimentConfidence == 0.6)
  {
  }

  /** Position `k` of the declaration order holds the first maximal tally. */
  predicate IsFirstMaximum(scores: map<string, nat>, k: nat)
    requires HasAllCategories(scores)
  {
    && k < |CategoryOrder|
    && (forall j :: 0 <= j < |CategoryOrder| ==> scores[CategoryOrder[j]] <= scores[CategoryOrder[k]])
    && (forall j :: 0 <= j < k ==> scores[CategoryOrder[j]] < scores[CategoryOrder[k]])
  }

  predicate NoPatternMatched(scores: map<string, nat>)
    requires HasAllCategories(scores)
  {
    forall j :: 0 <= j < |CategoryOrder| ==> scores[CategoryOrder[j]] == 0
  }

  /**
   * The category is the first of important, social, promotions, updates
   * whose tally is maximal, provided that tally is positive; otherwise it
   * is "primary" with confidence 0.6.
   */
  lemma CategoryOfFirstMaximum(scores: map<string, nat>)
    requires HasAllCategories(scores)
    ensures CategoryOf(scores).0 == "primary" <==> NoPatternMatched(scores)
    ensures NoPatternMatched(scores) ==> CategoryOf(scores).1 == 0.6
    ensures !NoPatternMatched(scores) ==>
      exists k: nat :: IsFirstMaximum(scores, k) && CategoryOf(scores).0 == CategoryOrder[k]
        && CategoryOf(scores).1 == RealMin(0.5 + (scores[CategoryOrder[k]] as real) * 0.15, 0.85)
  {
    var v := ScoreVector(scores);
    var k := Common.ArgMax(v);
    assert CategoryOrder[k] != "primary";
    if v[k] > 0.0 {
      assert IsFirstMaximum(scores, k);
      assert scores[CategoryOrder[k]] > 0;
    } else {
      forall j | 0 <= j < |CategoryOrder| ensures scores[CategoryOrder[j]] == 0 {
        assert v[j] <= v[k];
      }
    }
  }

  /** How many patterns of each category occur in `text`, in declaration order. */
  function CategoryHits(text: string): (hits: seq<nat>)
    ensures |hits| == |CategoryOrder|
    ensures forall j :: 0 <= j < |CategoryOrder| ==> hits[j] == Count(CategoryPatterns[CategoryOrder[j]], text)
  {
    seq(|CategoryOrder|, j requires 0 <= j < |CategoryOrder| => Count(CategoryPatterns[CategoryOrder[j]], text))
  }

  /**
   * The category rule on per-category hit counts: "primary" with 0.6
   * exactly when no category has a hit; otherwise the first category in
   * declaration order with the most hits, with confidence 0.5 + 0.15 per
   * hit capped at 0.85.
   */
  predicate IsCategoryChoice(hits: seq<nat>, category: string, confidence: real)
    requires |hits| == |CategoryOrder|
  {
    && (category == "primary" <==> forall j :: 0 <= j < |hits| ==> hits[j] == 0)
    && (category == "primary" ==> confidence == 0.6)
    && (category != "primary" ==>
          exists k :: 0 <= k < |hits|
            && (forall j :: 0 <= j < |hits| ==> hits[j] <= hits[k])
            && (forall j :: 0 <= j < k ==> hits[j] < hits[k])
            && category == CategoryOrder[k]
            && confidence == RealMin(0.5 + (hits[k] as real) * 0.15, 0.85))
  }

  /** A tally map holding the given hit counts is turned into a choice that follows the category rule. */
  lemma CategoryOfTallies(scores: map<string, nat>, hits: seq<nat>)
    requires HasAllCategories(scores) && |hits| == |CategoryOrder|
    requires forall j :: 0 <= j < |CategoryOrder| ==> scores[CategoryOrder[j]] == hits[j]
    ensures IsCategoryChoice(hits, CategoryOf(scores).0, CategoryOf(scores).1)
  {
    CategoryOfFirstMaximum(scores);
    if !NoPatternMatched(scores) {
      var k: nat :| IsFirstMaximum(scores, k) && CategoryOf(scores).0 == CategoryOrder[k]
        && CategoryOf(scores).1 == RealMin(0.5 + (scores[CategoryOrder[k]] as real) * 0.15, 0.85);
      assert k < |CategoryOrder|;
    }
  }

  /** The choice over the tally map of `t` follows the category rule on `t`'s hits. */
  lemma CategoryOfText(t: string)
    ensures IsCategoryChoice(CategoryHits(t), CategoryOf(CategoryScores(t)).0, CategoryOf(CategoryScores(t)).1)
  {
    CategoryOfTallies(CategoryScores(t), CategoryHits(t));
  }

  /** The classifier's category and its confidence follow the category rule on the lower-cased text. */
  lemma ClassifyCategory(text: string, language: string)
    ensures IsCategoryChoice(CategoryHits(Lower(text)), Classify(text, language).category, Classify(text, language).categoryConfidence)
  {
    var r := Classify(text, language);
    assert (r.category, r.categoryConfidence) == CategoryOf(CategoryScores(Lower(text)));
    CategoryOfText(Lower(text));
  }

  /** Text that matches no keyword at all is ham, neutral and primary. */
  lemma NoHitsDefaults(text: string, language: string)
    requires forall kw :: kw in KeywordsFor(SpamKeywords, language) ==> !Contains(kw, Lower(text))
    requires forall kw :: kw in KeywordsFor(PositiveKeywords, language) ==> !Contains(kw, Lower(text))
    requires forall kw :: kw in KeywordsFor(NegativeKeywords, language) ==> !Contains(kw, Lower(text))
    requires forall c, kw :: c in CategoryPatterns && kw in CategoryPatterns[c] ==> !Contains(kw, Lower(text))
    ensures Classify(text, language) == ClassifyResult(false, 0.5, "primary", 0.6, "neutral", 0.6, 1.0)
  {
    var t := Lower(text);
    CountZeroIff(KeywordsFor(SpamKeywords, language), t);
    CountZeroIff(KeywordsFor(PositiveKeywords, language), t);
    CountZeroIff(KeywordsFor(NegativeKeywords, language), t);
    forall c | c in CategoryOrder ensures Count(CategoryPatterns[c], t) == 0 {
      CountZeroIff(CategoryPatterns[c], t);
    }
    CategoryOfFirstMaximum(CategoryScores(t));
  }

  /** The empty text is the no-hit case: the rule classifier never fails on it. */
  lemma EmptyTextDefaults(text: string, language: string)
    requires text == ""
    ensures Classify(text, language) == ClassifyResult(false, 0.5, "primary", 0.6, "neutral", 0.6, 1.0)
  {
    assert Lower(text) == "";
    forall kw: string | kw != "" ensures !Contains(kw, Lower(text)) {
    }
    SentimentKeywordsNonEmpty(language);
    SpamKeywordsAndPatternsNonEmpty(language);
    NoHitsDefaults(text, language);
  }

  /** No sentiment keyword is the empty string, which every text would contain. */
  lemma SentimentKeywordsNonEmpty(language: string)
    ensures forall kw :: kw in KeywordsFor(PositiveKeywords, language) ==> kw != ""
    ensures forall kw :: kw in KeywordsFor(NegativeKeywords, language) ==> kw != ""
  {
  }

  /** No spam keyword and no category pattern is the empty string. */
  lemma SpamKeywordsAndPatternsNonEmpty(language: string)
    ensures forall kw :: kw in KeywordsFor(SpamKeywords, language) ==> kw != ""
    ensures forall c, kw :: c in CategoryPatterns && kw in CategoryPatterns[c] ==> kw != ""
  {
  }

  /**
   * The spam confidence is not monotone in the tally: below the spam
   * threshold it falls (0.5 with no hit, 0.4 with one), and from the
   * threshold on it rises to its ceiling 0.95. Any tally at or above the
   * threshold is at least as confident as any tally.
   */
  lemma SpamConfidenceShape(a: nat, b: nat)
    requires a <= b
    ensures SpamConfidence(1) < SpamConfidence(0)
    ensures b <= 1 ==> SpamConfidence(b) <= SpamConfidence(a)
    ensures 2 <= b ==> SpamConfidence(a) <= SpamConfidence(b) <= 0.95
  {
  }

  /**
   * Against a fixed opposing tally `n`, more hits for the winning side
   * never lower the sentiment confidence, starting from the tie at 0.6,
   * up to the ceiling 0.9.
   */
  lemma SentimentConfidenceMonotone(n: nat, a: nat, b: nat)
    requires n <= a <= b
    ensures SentimentOf(a, n).1 <= SentimentOf(b, n).1 <= 0.9
    ensures SentimentOf(n, a).1 <= SentimentOf(n, b).1 <= 0.9
  {
  }

  /**
   * More hits in every category never lower the category confidence,
   * starting from "primary" at 0.6, up to the ceiling 0.85.
   */
  lemma CategoryConfidenceMonotone(fewer: map<string, nat>, more: map<string, nat>)
    requires HasAllCategories(fewer) && HasAllCategories(more)
    requires forall j :: 0 <= j < |CategoryOrder| ==> fewer[CategoryOrder[j]] <= more[CategoryOrder[j]]
    ensures CategoryOf(fewer).1 <= CategoryOf(more).1 <= 0.85
  {
    CategoryOfFirstMaximum(fewer);
    CategoryOfFirstMaximum(more);
    if !NoPatternMatched(fewer) {
      var k: nat :| IsFirstMaximum(fewer, k) && CategoryOf(fewer).0 == CategoryOrder[k]
        && CategoryOf(fewer).1 == RealMin(0.5 + (fewer[CategoryOrder[k]] as real) * 0.15, 0.85);
      assert more[CategoryOrder[k]] > 0;
      var m: nat :| IsFirstMaximum(more, m) && CategoryOf(more).0 == CategoryOrder[m]
        && CategoryOf(more).1 == RealMin(0.5 + (more[CategoryOrder[m]] as real) * 0.15, 0.85);
      assert fewer[CategoryOrder[k]] <= more[CategoryOrder[m]];
    }
  }

  /**
   * Any distinct Vietnamese spam keywords found in the lower-cased text
   * count once each toward the Vietnamese tally; two of them make the
   * text spam, with a confidence of at least 0.5 + 0.1 per keyword.
   */
  lemma VietnameseHits(text: string, hits: seq<nat>)
    requires forall j :: 0 <= j < |hits| ==> hits[j] < |ViSpam| && Contains(ViSpam[hits[j]], Lower(text))
    requires forall j, k :: 0 <= j < k < |hits| ==> hits[j] < hits[k]
    ensures SpamScore(Lower(text), "vi") >= |hits|
    ensures |hits| >= 2 ==> Classify(text, "vi").isSpam
    ensures Classify(text, "vi").isSpam ==> Classify(text, "vi").spamConfidence >= RealMin(0.5 + (|hits| as real) * 0.1, 0.95)
  {
    CountAtLeastHits(ViSpam, Lower(text), hits);
    VietnameseUsesBothLists(Lower(text));
    SpamThreshold(text, "vi");
  }

  /** "miễn phí trúng thưởng click ngay", written with the keywords it holds. */
  const SpamExample: string := ViSpam[3] + " " + ViSpam[0] + " " + ViSpam[5]

  /** The example text contains the first, fourth and sixth Vietnamese spam keywords. */
  lemma SpamExampleHits(text: string)
    requires text == SpamExample
    ensures Contains(ViSpam[0], text) && Contains(ViSpam[3], text) && Contains(ViSpam[5], text)
  {
    var a, b, c := ViSpam[3], ViSpam[0], ViSpam[5];
    assert Contains(a, text) by {
      assert text == [] + a + (" " + b + " " + c);
      OccursBetween([], a, " " + b + " " + c);
    }
    assert Contains(b, text) by {
      assert text == a + " " + b + (" " + c);
      OccursBetween(a + " ", b, " " + c);
    }
    assert Contains(c, text) by {
      assert text == a + " " + b + " " + c + [];
      OccursBetween(a + " " + b + " ", c, []);
    }
  }

  /** The example text has no upper-case letter, so lowering keeps it. */
  lemma SpamExampleLowerCase(text: string)
    requires text == SpamExample
    ensures Lower(text) == text
  {
    var a, b, c := ViSpam[3], ViSpam[0], ViSpam[5];
    assert NoUpper(a) && NoUpper(b) && NoUpper(c) && NoUpper(" ");
    NoUpperConcat(a, " ");
    NoUpperConcat(a + " ", b);
    NoUpperConcat(a + " " + b, " ");
    NoUpperConcat(a + " " + b + " ", c);
    LowerIdempotent(text);
  }

  /**
   * "miễn phí trúng thưởng click ngay" in Vietnamese hits three spam
   * keywords, so it is spam with confidence at least 0.8.
   */
  lemma VietnameseSpamExample(text: string)
    requires text == SpamExample
    ensures Classify(text, "vi").isSpam && Classify(text, "vi").spamConfidence >= 0.8
  {
    SpamExampleHits(text);
    SpamExampleLowerCase(text);
    VietnameseHits(text, [0, 3, 5]);
  }
}
