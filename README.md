# VeryGoodMail email classification — a Dafny model

VeryGoodMail sorts incoming mail with two small Python web services. Each
one answers three questions about an email: is it spam, what is its
sentiment (negative, neutral or positive), and which inbox category it
belongs to. This project models the decision logic of both services and
proves what each one promises.

- **Service 1** (`Email-System-Server/phobert-service/main.py`) runs three
  PhoBERT sequence classifiers when they are loaded: each is the fine-tuned
  model from its directory when that directory exists, otherwise the base
  `vinai/phobert-base` with an untrained classification head. When loading
  failed it falls back to a keyword classifier, the `RuleBasedClassifier`. It serves `/classify`,
  `/sentiment`, `/batch-classify` and `/health`.
- **Service 2** (`PhoBERT-Service/app/classifier.py` and `app/main.py`) wraps
  a `PhoBERTClassifier`. Each model is optional in it, and errors fall back to
  default dictionaries. Its `MockClassifier` is a keyword stand-in. Its
  handlers `/classify`, `/spam` and `/sentiment` check for a loaded
  classifier (503), then for text (400), then for a raised error (500);
  `/health` checks nothing and only reports whether a loaded classifier
  exists.

Modules:

| file | module | what it holds |
|---|---|---|
| `common.dfy` | `Common` | `Option`, `Result`, HTTP errors, the three axes, the neural network as a function `Inference`, sums and means, first-maximum `ArgMax` |
| `text.dfy` | `Text` | Python's `str.strip()`, substring `in`, keyword counting, `any(...)`, ASCII `lower()` |
| `rule_classifier.dfy` | `RuleBased` | service 1's keyword classifier |
| `email_service.dfy` | `EmailService` | service 1's model path and its four handlers, the batch loop as a method |
| `phobert_classifier.dfy` | `PhoBert` | service 2's `PhoBERTClassifier` and `MockClassifier` and `get_classifier` |
| `phobert_api.dfy` | `PhoBertApi` | service 2's four handlers |

The neural networks are not modelled. A classifier holds an `Inference`
function. It maps an axis and a text either to a probability vector or to
the error the tokenizer or model raised. Every property below holds for
every such function. Where a property needs the vector to be a probability
distribution (entries in [0, 1] that sum to 1), the lemma requires that.

Behaviours of the code worth noting:
- service 1 with `language == "en"` counts the English keyword list twice;
- an unknown language uses only the English list;
- service 2 can report the category `"spam"` (index 5 of `CATEGORIES`);
- service 2's `/classify` sends a non-empty `text` field as it is, unstripped;
- when `subject` or `body` is sent as null, service 2 renders it as the word `None`, so the text is not empty (an omitted field defaults to "");
- service 2 numbers its categories from "primary" at index 0, while service 1's label list starts with "important";
- in service 2, a model assigned before its `.to(device)` or `.eval()` raised stays set on an unloaded classifier, so a direct `detect_spam` still uses it;
- service 2's `app/main.py` builds a `PhoBERTClassifier` directly, not through `get_classifier`. So it can hold an unloaded classifier and answer 503, and the mock is reached only through `get_classifier`.

## Model

| member | source | states |
|---|---|---|
| Common.ArgMax | Email-System-Server/phobert-service/main.py:212 | `np.argmax` returns an index holding the maximum, and the first such index |
| Common.TopClass | PhoBERT-Service/app/classifier.py:154-161 | `_predict` returns a class and its probability exactly when the vector is non-empty; that probability is the maximum and its class is the first maximum |
| Common.TopClassConfidenceBounds | PhoBERT-Service/app/classifier.py:158-161 | over a probability distribution of n classes, the winning probability lies between 1/n and 1 |
| Common.MeanBounds | PhoBERT-Service/app/classifier.py:210-211 | a mean of values between lo and hi also lies between lo and hi |
| Common.Mean | PhoBERT-Service/app/classifier.py:210-211 | no contract of its own; `sum(confidences) / len(confidences)`, stated by `Common.MeanBounds` and `PhoBert.PresentAxesAverage` |
| Common.TermAtMostSum | PhoBERT-Service/app/classifier.py:210-211 | a non-negative term is at most the sum it appears in |
| Text.StripLeft | Email-System-Server/phobert-service/main.py:415 | removes exactly a leading run of whitespace and stops at a non-space character |
| Text.IsSpace | Email-System-Server/phobert-service/main.py:415 | no contract of its own; the code points Python's `str.isspace()` accepts, which `strip()` removes; used by `Text.StripLeft`, `Text.StripRight` and `Text.StripEmptyIff` |
| Text.StripRight | Email-System-Server/phobert-service/main.py:415 | removes exactly a trailing run of whitespace and stops at a non-space character |
| Text.Strip | Email-System-Server/phobert-service/main.py:415 | no contract of its own; stated by `Text.StripLeft`, `Text.StripRight` and `Text.StripEmptyIff` |
| Text.StripEmptyIff | Email-System-Server/phobert-service/main.py:415-418 | a stripped string is empty if and only if the string was all whitespace |
| Text.JoinedStripEmptyIff | Email-System-Server/phobert-service/main.py:415-418 | `f"{subject} {body}".strip()` is empty if and only if both subject and body are all whitespace |
| Text.OccursBetween | Email-System-Server/phobert-service/main.py:311 | a keyword placed between any two strings is found by `in` |
| Text.Contains | Email-System-Server/phobert-service/main.py:311 | no contract of its own; stated by `Text.OccursBetween` |
| Text.Count | Email-System-Server/phobert-service/main.py:310-311 | no contract of its own; stated by `Text.CountConcat`, `Text.CountZeroIff` and `Text.CountAtLeastHits` |
| Text.CountConcat | Email-System-Server/phobert-service/main.py:310-311 | counting the hits of two concatenated keyword lists adds their counts |
| Text.CountZeroIff | Email-System-Server/phobert-service/main.py:310-311 | the hit count is at most the number of keywords, and it is zero if and only if no keyword occurs |
| Text.CountAtLeastHits | Email-System-Server/phobert-service/main.py:310-311 | any set of distinct keywords that occur contributes at least that many hits |
| Text.AnyInIffCount | PhoBERT-Service/app/classifier.py:296-298 | `any(w in text ...)` holds if and only if the hit count is positive |
| Text.AnyIn | PhoBERT-Service/app/classifier.py:296-298 | no contract of its own; `any(w in text for w in words)`, stated by `Text.AnyInIffCount` |
| Text.Lower | Email-System-Server/phobert-service/main.py:307 | `lower()` keeps the length and lower-cases each character on its own |
| Text.LowerConcat | PhoBERT-Service/app/classifier.py:294 | lower-casing distributes over concatenation |
| Text.LowerIdempotent | Email-System-Server/phobert-service/main.py:307 | lower-casing twice equals lower-casing once, and text without upper-case letters is unchanged |
| RuleBased.KeywordsFor | Email-System-Server/phobert-service/main.py:310 | no contract of its own; stated by `RuleBased.UnknownLanguageUsesEnglish`, `RuleBased.VietnameseUsesBothLists` and `RuleBased.EnglishCountsTwice` |
| RuleBased.SpamScore | Email-System-Server/phobert-service/main.py:310-311 | no contract of its own; stated by the same three lemmas and `RuleBased.SpamThreshold` |
| RuleBased.PositiveScore | Email-System-Server/phobert-service/main.py:316-317 | no contract of its own; stated by `RuleBased.UnknownLanguageUsesEnglish` and `RuleBased.SentimentTieBreak` |
| RuleBased.NegativeScore | Email-System-Server/phobert-service/main.py:318-319 | no contract of its own; stated by `RuleBased.UnknownLanguageUsesEnglish` and `RuleBased.SentimentTieBreak` |
| RuleBased.CategoryScores | Email-System-Server/phobert-service/main.py:332-334 | holds a tally for each of the four categories; its values are stated by `RuleBased.CategoryOfText` and `RuleBased.ScoreCategories` |
| RuleBased.SpamConfidence | Email-System-Server/phobert-service/main.py:312-313 | the spam confidence lies in [0.1, 0.95] and is at least 0.7 once the email is judged spam; its value on each side of the threshold is stated by `RuleBased.SpamThreshold` |
| RuleBased.SentimentOf | Email-System-Server/phobert-service/main.py:321-329 | the label is positive if and only if positive hits outnumber negative ones, negative in the reverse case, and its confidence lies in [0.6, 0.9] |
| RuleBased.CategoryOf | Email-System-Server/phobert-service/main.py:336-341 | the chosen category is one of the five labels and its confidence lies in [0.6, 0.85] |
| RuleBased.Classify | Email-System-Server/phobert-service/main.py:305-351 | every result carries a known sentiment and category, confidences in their documented ranges, and processing time 1.0 |
| RuleBased.ScoreCategories | Email-System-Server/phobert-service/main.py:332-334 | the loop over the patterns fills in exactly the per-category hit counts |
| RuleBased.SpamThreshold | Email-System-Server/phobert-service/main.py:310-313 | spam if and only if at least two keyword hits; confidence min(0.5 + 0.1 * hits, 0.95), so 0.7-0.95, when spam; 0.5 with no hit, 0.4 with one hit |
| RuleBased.UnknownLanguageUsesEnglish | Email-System-Server/phobert-service/main.py:310-319 | for a language other than vi and en, all three scores count only the English lists |
| RuleBased.VietnameseUsesBothLists | Email-System-Server/phobert-service/main.py:310-311 | Vietnamese spam scoring counts the Vietnamese and the English lists |
| RuleBased.EnglishCountsTwice | Email-System-Server/phobert-service/main.py:310-312 | with language en every English keyword counts twice, so one hit already makes the email spam |
| RuleBased.SentimentTieBreak | Email-System-Server/phobert-service/main.py:316-329 | the sentiment follows the larger of the two hit counts, a tie gives neutral with 0.6, and the confidence grows by 0.1 per hit up to 0.9 |
| RuleBased.CategoryOfFirstMaximum | Email-System-Server/phobert-service/main.py:336-341 | primary if and only if no pattern matched; otherwise the first category in pattern order with the highest count wins, with confidence 0.5 + 0.15 per hit capped at 0.85 |
| RuleBased.CategoryHits | Email-System-Server/phobert-service/main.py:333-334 | one hit count per category in declaration order, each the number of that category's patterns found in the text |
| RuleBased.CategoryOfTallies | Email-System-Server/phobert-service/main.py:336-341 | a tally map holding each category's hits yields the category rule: primary with 0.6 exactly when nothing matched, otherwise the first category with the most hits and 0.5 + 0.15 per hit capped at 0.85 |
| RuleBased.CategoryOfText | Email-System-Server/phobert-service/main.py:331-341 | the tally map the loop builds for a text yields that category rule |
| RuleBased.ClassifyCategory | Email-System-Server/phobert-service/main.py:307-341 | the classifier's category and confidence follow that rule on the lower-cased text's hit counts |
| RuleBased.NoHitsDefaults | Email-System-Server/phobert-service/main.py:305-351 | text matching no keyword gets not spam 0.5, primary 0.6, neutral 0.6 |
| RuleBased.EmptyTextDefaults | Email-System-Server/phobert-service/main.py:305-351 | the empty text gets exactly those defaults |
| RuleBased.SpamConfidenceShape | Email-System-Server/phobert-service/main.py:312-313 | the spam confidence falls below the threshold (0.5 with no hit, 0.4 with one) and rises from two hits up to 0.95; a tally of two or more is at least as confident as any smaller one |
| RuleBased.SentimentConfidenceMonotone | Email-System-Server/phobert-service/main.py:321-329 | against a fixed opposing tally, more hits for the winning side never lower the sentiment confidence, from the tie at 0.6 up to 0.9 |
| RuleBased.CategoryConfidenceMonotone | Email-System-Server/phobert-service/main.py:336-341 | more hits in every category never lower the category confidence, from primary at 0.6 up to 0.85 |
| RuleBased.VietnameseHits | Email-System-Server/phobert-service/main.py:310-313 | any n distinct Vietnamese spam keywords found in the lower-cased text give a Vietnamese spam score of at least n; two of them make it spam, with confidence at least min(0.5 + 0.1 * n, 0.95) |
| RuleBased.SpamExampleHits | Email-System-Server/phobert-service/main.py:310-311 | the sample text "miễn phí trúng thưởng click ngay" contains three spam keywords |
| RuleBased.VietnameseSpamExample | Email-System-Server/phobert-service/main.py:305-313 | that sample is spam in Vietnamese with confidence at least 0.8 |
| EmailService.PreprocessText | Email-System-Server/phobert-service/main.py:184-190 | the text given to the tokenizer holds 1 to 5000 characters: an empty text becomes one space, any other text its first 5000 characters |
| EmailService.UsesModel | Email-System-Server/phobert-service/main.py:421 | no contract of its own; `classifier and classifier.models_loaded`, the condition on which `EmailService.ClassifyDispatch`, `EmailService.SentimentScores` and `EmailService.ModelBatchItem` split |
| EmailService.LabelAt | Email-System-Server/phobert-service/main.py:212-215 | a label is returned exactly when the vector is non-empty and its argmax indexes the label list; it is the label of the highest probability, and an empty vector is an error |
| EmailService.PredictSpam | Email-System-Server/phobert-service/main.py:206-216 | the prediction succeeds if and only if the model returns a non-empty vector whose argmax is 0 or 1 (otherwise numpy's `ValueError` or Python's `IndexError` is raised); it is spam exactly when the argmax is index 1 ("spam"), and its confidence is the highest probability |
| EmailService.PredictSentiment | Email-System-Server/phobert-service/main.py:219-231 | a sentiment prediction succeeds exactly when the vector is non-empty and its argmax indexes the labels; it reports the label of the first most probable class, that probability, and the label-to-probability map |
| EmailService.PredictCategory | Email-System-Server/phobert-service/main.py:234-244 | a category prediction succeeds under the same condition and reports the label of the first most probable class with its probability |
| EmailService.ZipScores | Email-System-Server/phobert-service/main.py:229 | no contract of its own; stated by `EmailService.ZipScoresAt` |
| EmailService.ZipScoresAt | Email-System-Server/phobert-service/main.py:229 | zipping distinct labels with probabilities maps each label to its own probability |
| EmailService.ClassifyEmail | Email-System-Server/phobert-service/main.py:246-269 | no contract of its own; stated by `EmailService.ClassifyEmailOkIff`, `EmailService.ModelPathLabels` and `EmailService.WellShapedModelSucceeds` |
| EmailService.ClassifyEmailOkIff | Email-System-Server/phobert-service/main.py:252-257 | `classify_email` succeeds if and only if the spam, sentiment and category predictions on the stripped joined text all succeed; otherwise its error is the first failing prediction's, in the order spam, sentiment, category |
| EmailService.ModelPathLabels | Email-System-Server/phobert-service/main.py:246-269 | a successful model classification reports, per axis, the label and probability at the argmax of the model's vector for the stripped, truncated text, and the elapsed time passed in |
| EmailService.WellShapedModelSucceeds | Email-System-Server/phobert-service/main.py:206-269 | a model whose vectors have one entry per label never makes classification fail |
| EmailService.HandleClassify | Email-System-Server/phobert-service/main.py:407-432 | no contract of its own; stated by `EmailService.ClassifyDispatch` |
| EmailService.ClassifyDispatch | Email-System-Server/phobert-service/main.py:407-432 | `/classify` answers 400 if and only if subject and body are both blank; 500 only on the model path, with the model's error in the detail; otherwise it returns the rule classifier's result on the stripped text, or the model's |
| EmailService.FallbackScores | Email-System-Server/phobert-service/main.py:447-448 | the fallback score table holds positive, neutral and negative, with the chosen sentiment set to its confidence and the others at 0.33/0.34 |
| EmailService.HandleSentiment | Email-System-Server/phobert-service/main.py:434-460 | no contract of its own; stated by `EmailService.SentimentScores` and `EmailService.SentimentModelPath` |
| EmailService.SentimentScores | Email-System-Server/phobert-service/main.py:434-460 | `/sentiment` answers 400 if and only if the text is empty; a response's score table always maps its sentiment to its confidence; the fallback never fails on non-empty text and uses the Vietnamese rule classifier |
| EmailService.SentimentModelPath | Email-System-Server/phobert-service/main.py:441-442 | on the model path `/sentiment` succeeds exactly when the vector is non-empty and its argmax indexes the labels, reports the label of the first most probable class with its probability, gives every label its own probability in the score map, and otherwise answers 500 |
| EmailService.Health | Email-System-Server/phobert-service/main.py:394-405 | the health report is always "healthy", says whether the models are loaded, gives the device or "cpu", and the matching message |
| EmailService.ClassifyItem | Email-System-Server/phobert-service/main.py:470-478 | no contract of its own; stated by `EmailService.BatchClassify`, `EmailService.ModelBatchItem`, `EmailService.BatchItemMatchesClassify` and `EmailService.RuleBatchNeverFails` |
| EmailService.CollectOutcomes | Email-System-Server/phobert-service/main.py:468-478 | the batch loop appends exactly one outcome per email, in order |
| EmailService.BatchClassify | Email-System-Server/phobert-service/main.py:462-480 | more than 100 emails is refused with 400 "Maximum 100 emails per batch"; otherwise result i is the outcome of email i and the total is the number of emails |
| EmailService.ModelBatchItem | Email-System-Server/phobert-service/main.py:470-478 | on the model path an item is `{success: False, error: str(e)}` if and only if `classify_email` raised `e`, and otherwise carries that call's result |
| EmailService.BatchItemMatchesClassify | Email-System-Server/phobert-service/main.py:407-478 | an email with text succeeds in a batch if and only if `/classify` answers it, with the same result; a failed item's error is the text `/classify` reports after "Classification failed: " in its 500 |
| EmailService.RuleBatchNeverFails | Email-System-Server/phobert-service/main.py:468-478 | without models every batch item succeeds, and a blank email gets the default classification instead of a 400 |
| PhoBert.CategoryName | PhoBERT-Service/app/classifier.py:46-53 | class indices 0 to 5 map to primary, important, social, promotions, updates, spam in that order; "spam" exactly for 5; an unknown index gives primary |
| PhoBert.SentimentName | PhoBERT-Service/app/classifier.py:55-59 | class indices map to the three sentiments, and an unknown index gives neutral |
| PhoBert.Load | PhoBERT-Service/app/classifier.py:81-134 | the classifier is loaded if and only if transformers is available, no loading step raised, and at least one model directory exists; the tokenizer and each model are set exactly when their step completed or (for a model) raised after the assignment; a loaded classifier has the tokenizer and exactly the models whose directories exist |
| PhoBert.AssignedModelSurvivesFailure | PhoBERT-Service/app/classifier.py:98-101 | a spam model whose `.to()` or `.eval()` raised leaves the classifier unloaded but holding the model: `classify` returns the defaults while `detect_spam` still predicts |
| PhoBert.Predict | PhoBERT-Service/app/classifier.py:136-161 | a prediction succeeds exactly when the tokenizer is present and the model returns a non-empty vector; it is the first most probable class and its probability |
| PhoBert.DetectSpam | PhoBERT-Service/app/classifier.py:218-249 | without a spam model or on error the result is the default; otherwise it is spam if and only if class 1 wins, the confidence is the winning probability, and the spam score is that confidence when class 1 wins and its complement otherwise |
| PhoBert.AnalyzeSentiment | PhoBERT-Service/app/classifier.py:251-281 | score equals confidence; the sentiment is one of three; default on a missing model or an error; otherwise the `SENTIMENTS` name of the winning class with the winning probability |
| PhoBert.SpamScoreIsSpamProbability | PhoBERT-Service/app/classifier.py:241-244 | for a two-class distribution, `spam_score` equals the probability of the spam class, whichever class wins |
| PhoBert.ClassifyOf | PhoBERT-Service/app/classifier.py:163-216 | no contract of its own; stated by `PhoBert.UnloadedDefaults`, `PhoBert.PartialAxes`, `PhoBert.CategoryFailureKeepsEarlierAxes`, `PhoBert.PresentAxesAverage` and `PhoBert.ConfidenceIsProbability` |
| PhoBert.Classify | PhoBERT-Service/app/classifier.py:163-216 | the imperative classification computes exactly `ClassifyOf`, which the lemmas below characterise |
| PhoBert.UnloadedDefaults | PhoBERT-Service/app/classifier.py:173-183 | an unloaded classifier returns the default dictionary |
| PhoBert.PartialAxes | PhoBERT-Service/app/classifier.py:185-207 | each axis reports its own model's answer when that model exists and its default otherwise; a category model that answers sets the `CATEGORIES` name of its winning class; a non-primary category needs a category model that answered |
| PhoBert.CategoryFailureKeepsEarlierAxes | PhoBERT-Service/app/classifier.py:204-214 | when the category step raises, the spam and sentiment answers already written stay, but the overall confidence stays 0.0 |
| PhoBert.PresentAxesAverage | PhoBERT-Service/app/classifier.py:187-211 | unless the category step raises, the overall confidence is the average of the confidences of whichever models are present, and 0.0 when none is |
| PhoBert.ConfidenceIsProbability | PhoBERT-Service/app/classifier.py:209-211 | when the models return probability distributions, the overall confidence lies in [0, 1] |
| PhoBert.Collected | PhoBERT-Service/app/classifier.py:187-207 | no contract of its own; the `confidences` list `classify` builds, stated by `PhoBert.PresentAxesAverage` |
| PhoBert.MockClassify | PhoBERT-Service/app/classifier.py:292-323 | the mock calls the text spam if and only if a spam word occurs, with score 0.8 or 0.1, sentiment score 0.7 and confidence 0.6 |
| PhoBert.MockDetectSpam | PhoBERT-Service/app/classifier.py:325-331 | the mock's spam answer has confidence 0.6 |
| PhoBert.MockAnalyzeSentiment | PhoBERT-Service/app/classifier.py:333-339 | the mock's sentiment answer has score 0.7 and confidence 0.6 |
| PhoBert.MockAgreement | PhoBERT-Service/app/classifier.py:325-339 | the mock's spam and sentiment endpoints agree with its full classification |
| PhoBert.MockSentimentPrecedence | PhoBERT-Service/app/classifier.py:300-304 | a positive word wins over a negative one; neutral if and only if neither occurs |
| PhoBert.MockCategoryPrecedence | PhoBERT-Service/app/classifier.py:306-314 | categories are tried in the order social, promotions, updates, important; primary if and only if none matches |
| PhoBert.MockSocialWins | PhoBERT-Service/app/classifier.py:307-308 | any text containing "facebook" is social, whatever else it says |
| PhoBert.GetClassifier | PhoBERT-Service/app/classifier.py:343-352 | the returned classifier is always loaded; it is the PhoBERT one, in exactly the state loading produced, when that loaded, and the mock otherwise |
| PhoBert.IsLoaded | PhoBERT-Service/app/classifier.py:343-352 | no contract of its own; the `is_loaded` attribute, always true for the mock; stated by `PhoBert.GetClassifier` |
| PhoBert.BackendClassify | PhoBERT-Service/app/classifier.py:343-352 | no contract of its own; `classify` of whichever classifier `get_classifier` handed out; stated by `PhoBertApi.ClassifierBackendsPassThrough` |
| PhoBert.BackendDetectSpam | PhoBERT-Service/app/classifier.py:343-352 | no contract of its own; `detect_spam` of that classifier; stated by `PhoBertApi.HandleSpam` and `PhoBertApi.MockEndpoints` |
| PhoBert.BackendAnalyzeSentiment | PhoBERT-Service/app/classifier.py:343-352 | no contract of its own; `analyze_sentiment` of that classifier; stated by `PhoBertApi.HandleSentiment` and `PhoBertApi.MockEndpoints` |
| PhoBertApi.ChooseText | PhoBERT-Service/app/main.py:114 | no contract of its own; stated by `PhoBertApi.ChooseTextEmptyIff` |
| PhoBertApi.Render | PhoBERT-Service/app/main.py:56-58 | no contract of its own; an f-string renders a null field as "None"; stated by `PhoBertApi.ChooseTextEmptyIff` |
| PhoBertApi.Unavailable | PhoBERT-Service/app/main.py:110 | no contract of its own; `classifier is None or not classifier.is_loaded`; stated by `PhoBertApi.ClassifyCheckOrder` and `PhoBertApi.Health` |
| PhoBertApi.CallClassify | PhoBERT-Service/app/main.py:120 | no contract of its own; a classifier of `classifier.py` never raises and fills every key, any other object may; stated by `PhoBertApi.ClassifierBackendsPassThrough` |
| PhoBertApi.CallDetectSpam | PhoBERT-Service/app/main.py:144 | no contract of its own; the same for `detect_spam`; stated by `PhoBertApi.HandleSpam` |
| PhoBertApi.CallAnalyzeSentiment | PhoBERT-Service/app/main.py:165 | no contract of its own; the same for `analyze_sentiment`; stated by `PhoBertApi.HandleSentiment` |
| PhoBertApi.Get | PhoBERT-Service/app/main.py:122-127 | no contract of its own; `dict.get(key, default)`; stated key by key by `PhoBertApi.HandleClassify`, `PhoBertApi.HandleSpam` and `PhoBertApi.HandleSentiment` |
| PhoBertApi.ChooseTextEmptyIff | PhoBERT-Service/app/main.py:114-117 | a non-empty `text` is used as sent; otherwise there is no text if and only if subject and body are both non-null and blank |
| PhoBertApi.Health | PhoBERT-Service/app/main.py:91-98 | `model_loaded` is true exactly when a classifier exists and is loaded; status "healthy", version "1.0.0" |
| PhoBertApi.HandleClassify | PhoBERT-Service/app/main.py:101-131 | succeeds if and only if the classifier is loaded, the chosen text is non-empty and `classify` returned; each response field is the dictionary's value under its key when present and its default (primary, False, 0.0, neutral, 0.0, 0.0) when that key is missing |
| PhoBertApi.HandleSpam | PhoBERT-Service/app/main.py:134-152 | succeeds if and only if the classifier is loaded, the text is non-empty and `detect_spam` returned; each field is the dictionary's value or its default (False, 0.0, 0.0); served by a classifier of `classifier.py`, the response is exactly its `detect_spam` dictionary |
| PhoBertApi.HandleSentiment | PhoBERT-Service/app/main.py:155-173 | succeeds if and only if the classifier is loaded, the text is non-empty and `analyze_sentiment` returned; each field is the dictionary's value or its default (neutral, 0.0, 0.0); served by a classifier of `classifier.py`, the response is exactly its `analyze_sentiment` dictionary |
| PhoBertApi.ClassifyCheckOrder | PhoBERT-Service/app/main.py:101-131 | `/classify` answers 503 if and only if no loaded classifier, 400 if and only if loaded but no text, 500 if and only if the classifier raised, and no other error |
| PhoBertApi.SpamAndSentimentCheckOrder | PhoBERT-Service/app/main.py:134-173 | `/spam` and `/sentiment` follow the same 503, 400, 500 order, where only the empty string counts as no text |
| PhoBertApi.MissingKeysDefault | PhoBERT-Service/app/main.py:119-170 | on each endpoint, a result dictionary without any key yields the defaults: primary, not spam, 0.0, neutral, 0.0, 0.0 for `/classify`; not spam, 0.0, 0.0 for `/spam`; neutral, 0.0, 0.0 for `/sentiment` |
| PhoBertApi.ClassifierBackendsPassThrough | PhoBERT-Service/app/main.py:101-131 | served by a classifier from `classifier.py`, `/classify` never answers 500; a loaded one answers only 400 or exactly the classifier's result |
| PhoBertApi.MockEndpoints | PhoBERT-Service/app/main.py:134-173 | served by the mock, `/spam` always succeeds with confidence 0.6, and `/sentiment` reports the mock's sentiment |

## Left out

- Loading models and tokenizers (`load_models`, `from_pretrained`, `os.path.exists`, environment variables, `torch.device`) is I/O. Service 1's load result is a boolean field. In service 2 the existing directories are parameters, and so is the loading step that raised, if any.
- Tokenization, the network's forward pass and softmax are foreign numeric code. They are the `Inference` parameter. This includes the 256-token truncation and the tokenizer's own failures.
- Floating point is modelled as exact reals: NaN, float rounding and `round(x, 4)` / `round(t, 2)` are not modelled. Processing time comes from `time.time()`, so it is a parameter (`elapsedMs`).
- Text.Lower: lower-cases ASCII letters only; Python's `str.lower()` also folds non-ASCII letters (Vietnamese capitals such as "Đ"). Every keyword is lower case, so non-ASCII keyword matches on capitalised text are under-counted.
- FastAPI plumbing is not modelled: routing, request validation (a non-string field is rejected before the handler), CORS, startup events, logging, the `/` root endpoint and `uvicorn`. The global classifier is a parameter.
- The exact text of exceptions raised by torch or the tokenizer is not modelled. An error is any string the `Inference` returns. Fixed texts are those the code itself writes, plus the messages of the two exceptions the model path raises on a malformed vector: numpy's `argmax` of an empty array and Python's list index out of range.
- `PhoBERT-Service/app/__init__.py` only re-exports names.
- Service 2's constructor raises a `NameError` when transformers is missing, because `torch` is then undefined. The startup handler catches it and leaves `classifier` as None; the handlers' None case covers that. `get_classifier` never reaches that path.
- PhoBert.MockDetectSpam: its own contract states only the fixed confidence. Its spam verdict is stated by `MockAgreement` against `MockClassify`.
