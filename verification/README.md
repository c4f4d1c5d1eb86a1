# EU AI Act risk classifier — a verified Dafny model

This project models the rule engine of a questionnaire-based classifier for
Regulation (EU) 2024/1689 (the EU AI Act). Given the answers about an AI system,
`classify_ai_system` places it in one of four risk tiers:

- Unacceptable: an Article 5 prohibited practice;
- High: an Annex I regulated product that needs a third-party assessment
  ("Pathway A"), or an Annex III domain with no Article 6(3) exception
  ("Pathway B");
- Limited: an Article 50 transparency duty;
- Minimal: none of these.

It returns the reasons, the obligations, the recommendations and the articles
that apply.

Files:

- `wrappers.dfy`: the `Option` type of the optional string arguments, and Python
  truthiness of such an argument.
- `risk_tables.dfy`: the reference data:
  - the risk tiers and their display values;
  - the eight prohibited practices;
  - the eight Annex III domains and the lookup of a domain key;
  - the Annex I product categories offered by the form;
  - the five transparency triggers;
  - the fixed obligation and recommendation catalogues, including the eleven
    high-risk obligations and the seven high-risk recommendations;
  - the tier colours.
- `risk_classifier.dfy`: the input record (every keyword argument, with its
  default in `DefaultInput`), the result record, and the classification:
  - `Classify` specifies it as one outcome per phase, where the first phase
    that applies wins.
  - `ClassifyAiSystem` is the procedure, step by step, as the source writes it:
    it appends to `reasons` and `applicableArticles` and returns at the first
    step that applies. It is proved to return exactly `Classify`.
  - The loop over the prohibited checks (`CheckProhibitedPractices`) and the
    five transparency tests (`CheckTransparencyTriggers`) are separate methods.
    They have their own contracts.
- `classifier_properties.dfy`: what the classification promises, as lemmas:
  - the tier order;
  - exactly which practices and triggers are reported, in which order and with
    which article;
  - the exception rules of Pathway B;
  - which inputs cannot change the result.

Each reason line and each cited article is held as the message it stands for (a
`Reason` or a `Citation`), not as its German text. The same holds for obligations
and recommendations. `ReasonText`, `CitationText`, `ObligationText` and
`RecommendationText` give the exact line the source writes for each message, and
`Render` turns a result into those lines. Different citations are written as
different lines (`CitationTextInjective`), so what is proved about cited articles
holds of the returned strings too. No such lemma is proved for `ReasonText`; the
facts about reasons carry over to the returned strings because the reason texts
of the source differ from one another, which the model transcribes but does not
prove. Two details of the text are kept:

- The Pathway A line leaves an empty slot for a role that is not set.
- Both deepfakes and synthetic content cite "Artikel 50(4)".

The callers of the classifier expect more than `classifier_logic.py` defines:

- `app.py:9-19` imports `REALTIME_BIOMETRIC_EXCEPTIONS`, `CODE_OF_PRACTICE_MARKING`
  and `AI_ACT_DEADLINES`, which the module does not define.
- `app.py:505-536` passes `predictive_policing_with_objective_facts`,
  `realtime_biometric_exception`, `synthetic_content_types`, `is_gpai`,
  `gpai_has_systemic_risk` and `reference_date`, which `classify_ai_system` does
  not accept.
- `export_utils.py:94-142` and `export_utils.py:451-457` read `warnings`,
  `transparency_obligations`, `is_gpai`, `gpai_obligations` and
  `gpai_has_systemic_risk`, which `ClassificationResult` does not have.

The model follows `classifier_logic.py` as written, with these consequences:

- No phase is gated by a reference date. There are no general-purpose-AI
  obligations, no universal obligations, no deadlines, no conflict warnings and
  no real-time-biometrics exception selector: the code has none of them.
- The four Article 6(3) exceptions form an `if`/`elif` chain. Only the first
  flag that is set (in the order narrow procedural task, improves human work,
  detects patterns, preparatory task) is recorded.
- The exception line recorded in step 3 never reaches a result. Step 4
  replaces `reasons` with the trigger lines, and step 5 replaces them with its
  fixed line. `ExceptionReasonNeverReported` states this.
- The Limited tier gives four recommendations and the Minimal tier three.

Modelling choices:

- Python truthiness of `Optional[str]` arguments (`if annex_i_product_type:`,
  `if high_risk_domain and …`) is `Truthy`: the value is present and not the
  empty string.
- The domain key stays a string. Only `LookupDomain` maps it to the closed
  `Domain` enumeration, so an unknown key behaves as in the source (as if no
  domain were given).
- The string-keyed tables whose keys come from the classifier itself
  (practices, triggers) are closed enumerations.
- The article of a prohibited practice is written from its letter of Article
  5(1) (`PracticePoint`), and the article of a domain from its number in Annex
  III (`DomainPoint`). The resulting strings are those of the tables.

## Model

| member | source | states |
|---|---|---|
| RiskTables.RiskLevelValueDistinct | classifier_logic.py:12-16 | the four tiers carry four different values, so no tier of the enumeration is an alias of another |
| RiskTables.ProhibitedPractice | classifier_logic.py:30-71 | each practice's entry cites "Artikel 5(1)(x)", where x is the letter of that practice, from a to h |
| RiskTables.ProhibitedPracticeArticlesDistinct | classifier_logic.py:30-71 | different practices cite different points of Article 5(1) |
| RiskTables.SocialScoringArticle | classifier_logic.py:41-45 | social scoring cites "Artikel 5(1)(c)" |
| RiskTables.HighRiskDomain | classifier_logic.py:74-157 | each domain's entry cites "Anhang III, Nr. n", where n is the number of that domain, from 1 to 8 |
| RiskTables.HighRiskDomainArticlesDistinct | classifier_logic.py:74-157 | different domains cite different points of Annex III |
| RiskTables.AnnexIProducts | classifier_logic.py:160-174 | the Annex I product list offers thirteen categories |
| RiskTables.LookupDomain | classifier_logic.py:292-293 | a key is found in the domain table only if it is that domain's own key; every other string is found nowhere |
| RiskTables.LookupDomainKey | classifier_logic.py:74-158 | every domain of the table is found under its own key, so the eight keys are distinct |
| RiskTables.HighRiskObligations | classifier_logic.py:397-411 | the high-risk obligation catalogue has eleven entries |
| RiskTables.HighRiskRecommendations | classifier_logic.py:414-424 | the high-risk recommendation catalogue has seven entries |
| RiskTables.UnacceptableObligations | classifier_logic.py:254-258 | a prohibited practice carries three consequences |
| RiskTables.UnacceptableRecommendations | classifier_logic.py:259-263 | a prohibited practice carries three recommendations |
| RiskTables.LimitedObligations | classifier_logic.py:357-362 | the Limited tier carries four disclosure duties |
| RiskTables.LimitedRecommendations | classifier_logic.py:364-369 | the Limited tier carries four recommendations |
| RiskTables.MinimalObligations | classifier_logic.py:381 | the Minimal tier carries the single statement that nothing is mandatory |
| RiskTables.MinimalRecommendations | classifier_logic.py:382-386 | the Minimal tier carries three voluntary recommendations |
| RiskTables.RiskColor | classifier_logic.py:427-435 | every tier is shown in a '#' followed by six hexadecimal digits, and never in the grey fallback, which no tier can reach |
| RiskTables.RiskColorDistinct | classifier_logic.py:427-435 | different tiers are shown in different colours |
| RiskClassifier.ReasonTextEchoes | classifier_logic.py:276-314 | the product category and the use case the caller gives close their reason lines verbatim |
| RiskClassifier.CitationTextInjective | classifier_logic.py:250 | different citations are written as different lines, so a cited article stands for exactly one citation |
| RiskClassifier.RenderArticlesInjective | classifier_logic.py:20-25 | the article lines the source returns determine the cited articles, in order |
| RiskClassifier.Classify | classifier_logic.py:253-394 | every result gives at least one reason, one obligation, one recommendation and one article |
| RiskClassifier.FiredCharacterised | classifier_logic.py:247-251 | the keys kept by the check loop are exactly those whose check fired, in check order, so none is kept twice |
| RiskClassifier.ProhibitedChecks | classifier_logic.py:236-245 | there is one check per prohibited practice |
| RiskClassifier.ExceptionClaimed | classifier_logic.py:295-309 | no exception is recorded under profiling or when no exception flag is set; otherwise a set exception is recorded, and no exception tested before it is set |
| RiskClassifier.CheckProhibitedPractices | classifier_logic.py:236-251 | the reasons and articles collected are those of the practices the checks report, in check order, one of each per practice |
| RiskClassifier.CheckTransparencyTriggers | classifier_logic.py:331-352 | the triggers collected are those whose flag is set, in test order, each with its paragraph of Article 50 at the same position |
| RiskClassifier.ClassifyAiSystem | classifier_logic.py:186-394 | the step-by-step procedure returns exactly the result of the phase-by-phase specification `Classify` |
| ClassifierProperties.PracticeOrderRanked | classifier_logic.py:236-245 | the check list names each of the eight practices once |
| ClassifierProperties.ProhibitedChecksRanked | classifier_logic.py:236-245 | the checks come in a fixed order, and the check of a practice fires exactly when its flag is set |
| ClassifierProperties.FiredPracticesCharacterised | classifier_logic.py:247-253 | a practice is reported exactly when its flag is set, each at most once and in check order; none is reported exactly when no prohibited flag is set |
| ClassifierProperties.FiredTriggersCharacterised | classifier_logic.py:332-354 | a transparency trigger is raised exactly when its flag is set; none is raised exactly when no transparency flag is set |
| ClassifierProperties.FiredTriggersInOrder | classifier_logic.py:332-352 | the raised triggers come in test order, each at most once |
| ClassifierProperties.TierDecision | classifier_logic.py:253-394 | the tier is Unacceptable for any prohibited practice; otherwise High for either pathway; otherwise Limited for any transparency trigger; otherwise Minimal |
| ClassifierProperties.CataloguesFollowTier | classifier_logic.py:253-394 | the obligations and recommendations are the fixed catalogues of the tier reached |
| ClassifierProperties.ProhibitedPracticesReported | classifier_logic.py:236-270 | with any prohibited practice the tier is Unacceptable; a practice is reported and its Article 5(1) point is cited exactly when its flag is set; reasons and articles pair up by position, in check order |
| ClassifierProperties.OnlySocialScoringFired | classifier_logic.py:236-251 | with social scoring as the only prohibited flag, the checks report social scoring and nothing else |
| ClassifierProperties.SocialScoringIsProhibited | classifier_logic.py:236-270 | with social scoring as the only prohibited practice, the result is Unacceptable, with that practice as its only reason and Article 5(1)(c) as its only article |
| ClassifierProperties.PathwayAReported | classifier_logic.py:272-289 | a product or safety component under Annex I that needs a third-party assessment is High. It cites exactly Article 6(1) and Annex I, and names the roles, plus the product category exactly when a non-empty one is given |
| ClassifierProperties.DomainRecognised | classifier_logic.py:292-293 | a domain is recognised exactly when a non-empty key equals that domain's table key |
| ClassifierProperties.PathwayBReported | classifier_logic.py:291-329 | a recognised domain outside the earlier tiers is High exactly when the system profiles or sets no exception flag. When High, it cites the domain's Annex III point and Article 6(2) only. Its reasons are exactly the domain, then the use case when a non-empty one is given, then profiling when it occurs |
| ClassifierProperties.ProfilingDefeatsExceptions | classifier_logic.py:295-297 | with profiling, a recognised domain is High whatever exception flags are set |
| ClassifierProperties.DomainInputsMatterOnlyInPathwayB | classifier_logic.py:291-329 | when Pathway B does not apply (unknown domain, or an exception claimed), the domain, use case, profiling and exception inputs do not change the result |
| ClassifierProperties.TransparencyReported | classifier_logic.py:331-377 | with no earlier tier and any trigger the tier is Limited; a trigger is reported exactly when its flag is set, in test order, each with its Article 50 paragraph at the same position |
| ClassifierProperties.TransparencyArticlesCited | classifier_logic.py:334-352 | the Limited tier cites Article 50(1) exactly for human interaction; 50(4) exactly for deepfakes or synthetic content; 50(3) exactly for permitted emotion recognition or biometric categorisation |
| ClassifierProperties.MinimalReported | classifier_logic.py:379-394 | with no tier applying, the result is Minimal with the fixed reason, catalogues and "no specific article" citation |
| ClassifierProperties.ExceptionReasonNeverReported | classifier_logic.py:297-380 | no result ever contains an exception line: the path that writes one replaces the reasons in step 4 or 5 |
| ClassifierProperties.IdentityIrrelevant | classifier_logic.py:186-190 | the system's name, description and provider never change the classification |
| ClassifierProperties.DefaultInputIsMinimal | classifier_logic.py:186-225 | a call with only the three required strings is Minimal and cites "Keine spezifischen Artikel anwendbar" |

## Left out

- `app.py` (the web form and result page) and `export_utils.py` (report and spreadsheet export) are not part of this model. They call the classifier and format its result.
- The creation timestamp of `ClassificationResult` (`datetime.now`) is left out: it reads the clock and is never used in the decision.
- The classifier never consults the `ANNEX_I_PRODUCTS` list (`AnnexIProducts`) or the `use_cases` lists of the domain table (`DomainUseCases`). Only the user interface and the export read them (`app.py:330`, `app.py:363-366`, `app.py:776-777`, `export_utils.py:424-425`). The product type and the use case the classifier receives are free strings.
- LimitedRiskTrigger: no contract on the five trigger texts. Every fact about these long literals, even a bound on their length, is beyond the solver's budget here. The texts are written out exactly, and `TransparencyReported` states which trigger is reported.
- Python's dictionary lookups that would raise `KeyError` cannot fail here. The practice and trigger keys are closed enumerations, and the domain lookup is guarded exactly as in the source.
- The catalogue helpers return fresh lists in the source. Sharing or later mutation of those lists by callers is not modelled; the lists are values.
