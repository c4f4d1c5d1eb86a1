/**
 * The EU AI Act risk classifier: the decision inputs, the result record, a
 * phase-by-phase specification of the classification (`Classify`) and the
 * single-pass procedure (`ClassifyAiSystem`) that builds its reason and article
 * lists by appending, proved to produce exactly that specification.
 *
 * The five phases are checked in a fixed order and the first that applies decides:
 * Article 5 prohibited practices (Unacceptable), Article 6(1) with Annex I regulated
 * products (High, "Pathway A"), Article 6(2) with an Annex III domain unless an
 * Article 6(3) exception applies (High, "Pathway B"), Article 50 transparency
 * triggers (Limited), and otherwise Minimal.
 *
 * Each reason and each cited article is kept as the message it stands for (a
 * `Reason` or a `Citation`); `ReasonText` and `CitationText` produce the exact line
 * the classifier writes, and `Render` turns a whole result into its lines.
 */
module RiskClassifier {
  import opened Wrappers
  import opened RiskTables

  // ---------------------------------------------------------------------------
  // Records
  // ---------------------------------------------------------------------------

  /**
   * The keyword arguments of the classifier. The three identity strings are
   * accepted but never read.
   */
  datatype ClassificationInput = ClassificationInput(
    systemName: string,
    systemDescription: string,
    provider: string,
    // Article 5 prohibited practices
    usesSubliminalManipulation: bool,
    exploitsVulnerableGroups: bool,
    performsSocialScoring: bool,
    predictivePolicingOnlyProfiling: bool,
    scrapesFacialRecognition: bool,
    emotionRecognitionWorkEducation: bool,
    biometricCategorizationSensitive: bool,
    realtimeBiometricPublic: bool,
    // Pathway A: Annex I regulated products
    isSafetyComponentAnnexI: bool,
    isProductAnnexI: bool,
    requiresThirdPartyAssessment: bool,
    annexIProductType: Option<string>,
    // Pathway B: Annex III domains
    highRiskDomain: Option<string>,
    highRiskUseCase: Option<string>,
    performsProfiling: bool,
    // Article 6(3) exceptions
    narrowProceduralTask: bool,
    improvesHumanWork: bool,
    detectsPatternsOnly: bool,
    preparatoryTaskOnly: bool,
    // Article 50 transparency triggers
    interactsWithHumans: bool,
    generatesSyntheticContent: bool,
    generatesDeepfakes: bool,
    emotionRecognitionMedicalSafety: bool,
    biometricCategorizationLawful: bool)

  /** A call that passes only the three required strings: every flag false, every option None. */
  function DefaultInput(name: string, description: string, provider: string): ClassificationInput
  {
    ClassificationInput(name, description, provider,
      false, false, false, false, false, false, false, false,
      false, false, false, None,
      None, None, false,
      false, false, false, false,
      false, false, false, false, false)
  }

  /** The four Article 6(3) exceptions, in the order the classifier tests them. */
  datatype HighRiskException = NarrowProcedural | ImprovesHumanWork | DetectsPatterns | PreparatoryTask

  /** Every kind of reason line the classifier writes. */
  datatype Reason =
    | PracticeFound(practice: Practice)
    | AnnexIProduct(safetyComponent: bool, product: bool)
    | ProductCategory(productType: string)
    | ExceptionApplied(exception: HighRiskException)
    | AnnexIIIDomain(domain: Domain)
    | UseCase(useCase: string)
    | ProfilingPerformed
    | TransparencyDuty(trigger: Trigger)
    | NoCriteriaApply

  /** Every legal citation the classifier writes. */
  datatype Citation =
    | PracticeArticle(practice: Practice)
    | Article6Para1
    | AnnexI
    | DomainArticle(domain: Domain)
    | Article6Para2
    | Article50Para1
    | Article50Para3
    | Article50Para4
    | NoSpecificArticles

  /** The classifier's result; the creation timestamp is not modelled. */
  datatype ClassificationResult = ClassificationResult(
    riskLevel: RiskLevel,
    reasons: seq<Reason>,
    obligations: seq<Obligation>,
    recommendations: seq<Recommendation>,
    applicableArticles: seq<Citation>)

  // ---------------------------------------------------------------------------
  // The lines written for each message
  // ---------------------------------------------------------------------------

  function ExceptionText(e: HighRiskException): string
  {
    match e
    case NarrowProcedural => "Ausnahme angewendet: Enge verfahrenstechnische Aufgabe"
    case ImprovesHumanWork => "Ausnahme angewendet: Verbessert bereits abgeschlossene menschliche Arbeit"
    case DetectsPatterns => "Ausnahme angewendet: Erkennt nur Muster ohne menschliche Bewertung zu ersetzen"
    case PreparatoryTask => "Ausnahme angewendet: Nur vorbereitende Aufgabe"
  }

  /** The line written for each reason; an unset Pathway A role leaves its slot empty. */
  function ReasonText(r: Reason): string
  {
    match r
    case PracticeFound(p) =>
      "Verbotene Praktik: " + ProhibitedPractice(p).name + " - " + ProhibitedPractice(p).description
    case AnnexIProduct(safetyComponent, product) =>
      "Hochrisiko Pathway A: KI-System ist "
        + (if safetyComponent then "Sicherheitskomponente von" else "") + " "
        + (if product then "reguliertem Produkt" else "") + " nach Anhang I"
    case ProductCategory(productType) => "Produktkategorie: " + productType
    case ExceptionApplied(e) => ExceptionText(e)
    case AnnexIIIDomain(d) => "Hochrisiko Pathway B: Anwendungsbereich '" + HighRiskDomain(d).name + "'"
    case UseCase(useCase) => "Anwendungsfall: " + useCase
    case ProfilingPerformed => "Profiling natürlicher Personen - Ausnahmen nicht anwendbar"
    case TransparencyDuty(t) => "Transparenzpflicht ausgelöst: " + LimitedRiskTrigger(t)
    case NoCriteriaApply => "Keine Hochrisiko-Kriterien oder Transparenzpflichten anwendbar"
  }

  /**
   * The product category and the use case the caller names close their lines
   * verbatim, whatever they contain.
   */
  lemma ReasonTextEchoes(productType: string, useCase: string)
    ensures var s := ReasonText(ProductCategory(productType));
      |productType| <= |s| && s[|s| - |productType|..] == productType
    ensures var s := ReasonText(UseCase(useCase));
      |useCase| <= |s| && s[|s| - |useCase|..] == useCase
  {
    assert ReasonText(ProductCategory(productType)) == "Produktkategorie: " + productType;
    assert ReasonText(UseCase(useCase)) == "Anwendungsfall: " + useCase;
  }

  function CitationText(c: Citation): string
  {
    match c
    case PracticeArticle(p) => ProhibitedPractice(p).article
    case Article6Para1 => "Artikel 6(1)"
    case AnnexI => "Anhang I"
    case DomainArticle(d) => HighRiskDomain(d).article
    case Article6Para2 => "Artikel 6(2)"
    case Article50Para1 => "Artikel 50(1)"
    case Article50Para3 => "Artikel 50(3)"
    case Article50Para4 => "Artikel 50(4)"
    case NoSpecificArticles => "Keine spezifischen Artikel anwendbar"
  }

  /** Different citations are written differently, so a citation stands for exactly one line. */
  lemma CitationTextInjective(a: Citation, b: Citation)
    requires a != b
    ensures CitationText(a) != CitationText(b)
  {
    if a.PracticeArticle? && b.PracticeArticle? {
      ProhibitedPracticeArticlesDistinct(a.practice, b.practice);
    } else if a.DomainArticle? && b.DomainArticle? {
      HighRiskDomainArticlesDistinct(a.domain, b.domain);
    }
  }

  /** The result as the lists of lines the classifier returns. */
  datatype RenderedResult = RenderedResult(
    riskLevel: RiskLevel,
    reasons: seq<string>,
    obligations: seq<string>,
    recommendations: seq<string>,
    applicableArticles: seq<string>)

  function Render(r: ClassificationResult): (rendered: RenderedResult)
    ensures rendered.riskLevel == r.riskLevel
    ensures |rendered.reasons| == |r.reasons| && |rendered.obligations| == |r.obligations|
    ensures |rendered.recommendations| == |r.recommendations| && |rendered.applicableArticles| == |r.applicableArticles|
    ensures forall i :: 0 <= i < |r.reasons| ==> rendered.reasons[i] == ReasonText(r.reasons[i])
    ensures forall i :: 0 <= i < |r.applicableArticles| ==> rendered.applicableArticles[i] == CitationText(r.applicableArticles[i])
  {
    RenderedResult(r.riskLevel,
      Map(ReasonText, r.reasons),
      Map(ObligationText, r.obligations),
      Map(RecommendationText, r.recommendations),
      Map(CitationText, r.applicableArticles))
  }
  /**
   * The article lines a result returns determine its citations: two results whose
   * rendered article lists agree cite the same articles, in the same order.
   */
  lemma RenderArticlesInjective(a: ClassificationResult, b: ClassificationResult)
    requires Render(a).applicableArticles == Render(b).applicableArticles
    ensures a.applicableArticles == b.applicableArticles
  {
    forall i | 0 <= i < |a.applicableArticles|
      ensures a.applicableArticles[i] == b.applicableArticles[i]
    {
      if a.applicableArticles[i] != b.applicableArticles[i] {
        CitationTextInjective(a.applicableArticles[i], b.applicableArticles[i]);
      }
    }
  }


  // ---------------------------------------------------------------------------
  // Ordered checks and their generic evaluation
  // ---------------------------------------------------------------------------

  /** The one-element list when `flag` is set, else the empty list. */
  function Emit<K>(flag: bool, k: K): (r: seq<K>)
    ensures |r| <= 1
  {
    if flag then [k] else []
  }

  /**
   * The keys of an ordered list of (flag, key) checks whose flag is set, in list
   * order: what a loop over the checks appends, one check at a time.
   */
  function Fired<K>(checks: seq<(bool, K)>): seq<K>
  {
    if checks == [] then []
    else Fired(checks[..|checks| - 1]) + Emit(checks[|checks| - 1].0, checks[|checks| - 1].1)
  }

  /** Evaluating one more check appends its key exactly when its flag is set. */
  lemma FiredSnoc<K>(checks: seq<(bool, K)>, c: (bool, K))
    ensures Fired(checks + [c]) == Fired(checks) + Emit(c.0, c.1)
  {
    assert (checks + [c])[..|checks|] == checks;
  }

  /**
   * For checks listed in strictly increasing rank, the fired keys are exactly the
   * keys whose flag is set, still in strictly increasing rank.
   */
  lemma {:induction false} FiredCharacterised<K>(checks: seq<(bool, K)>, rank: K -> int)
    requires forall i, j :: 0 <= i < j < |checks| ==> rank(checks[i].1) < rank(checks[j].1)
    ensures forall x :: x in Fired(checks) ==> (true, x) in checks
    ensures forall x :: (true, x) in checks ==> x in Fired(checks)
    ensures forall j, k :: 0 <= j < k < |Fired(checks)| ==> rank(Fired(checks)[j]) < rank(Fired(checks)[k])
  {
    if checks != [] {
      var n := |checks| - 1;
      var rest, last := checks[..n], checks[n];
      FiredCharacterised(rest, rank);
      assert Fired(checks) == Fired(rest) + Emit(last.0, last.1);
      forall x | (true, x) in checks
        ensures x in Fired(checks)
      {
        var i :| 0 <= i < |checks| && checks[i] == (true, x);
        if i < n {
          assert rest[i] == (true, x);
        }
      }
      forall x | x in Fired(rest)
        ensures (true, x) in checks && rank(x) < rank(last.1)
      {
        var i :| 0 <= i < |rest| && rest[i] == (true, x);
        assert checks[i] == rest[i];
      }
    }
  }

  /** The value of `f` at each element of `s`, in order: a list comprehension. */
  function Map<A, B>(f: A -> B, s: seq<A>): seq<B>
  {
    seq(|s|, k requires 0 <= k < |s| => f(s[k]))
  }

  /** The mapped sequence has the same length, and `f` of each element at its position. */
  lemma MapAt<A, B>(f: A -> B, s: seq<A>, i: int)
    requires 0 <= i < |s|
    ensures |Map(f, s)| == |s| && Map(f, s)[i] == f(s[i])
  {
  }

  /** Mapping distributes over concatenation. */
  lemma MapAppend<A, B>(f: A -> B, s: seq<A>, t: seq<A>)
    ensures Map(f, s + t) == Map(f, s) + Map(f, t)
  {
  }

  /** Appending one element appends its image. */
  lemma MapSnoc<A, B>(f: A -> B, s: seq<A>, x: A)
    ensures Map(f, s + [x]) == Map(f, s) + [f(x)]
  {
  }

  /** Evaluating one more check extends the mapped fired keys by the mapped key, if its flag is set. */
  lemma FiredMapSnoc<K, B>(f: K -> B, checks: seq<(bool, K)>, c: (bool, K))
    ensures Map(f, Fired(checks + [c])) == Map(f, Fired(checks)) + Emit(c.0, f(c.1))
  {
    FiredSnoc(checks, c);
    MapAppend(f, Fired(checks), Emit(c.0, c.1));
  }

  // ---------------------------------------------------------------------------
  // Step 1: prohibited practices
  // ---------------------------------------------------------------------------

  /** The input flag that asserts each prohibited practice. */
  predicate ProhibitedFlag(inp: ClassificationInput, p: Practice)
  {
    match p
    case SubliminalManipulation => inp.usesSubliminalManipulation
    case ExploitationVulnerable => inp.exploitsVulnerableGroups
    case SocialScoring => inp.performsSocialScoring
    case PredictivePolicingProfiling => inp.predictivePolicingOnlyProfiling
    case FacialRecognitionScraping => inp.scrapesFacialRecognition
    case EmotionRecognitionWorkEducation => inp.emotionRecognitionWorkEducation
    case BiometricCategorizationSensitive => inp.biometricCategorizationSensitive
    case RealtimeBiometricPublic => inp.realtimeBiometricPublic
  }

  predicate AnyProhibited(inp: ClassificationInput)
  {
    exists p: Practice :: ProhibitedFlag(inp, p)
  }

  /** The position of each practice in the check order. */
  function PracticeRank(p: Practice): (r: int)
    ensures 0 <= r < 8
  {
    match p
    case SubliminalManipulation => 0
    case ExploitationVulnerable => 1
    case SocialScoring => 2
    case PredictivePolicingProfiling => 3
    case FacialRecognitionScraping => 4
    case EmotionRecognitionWorkEducation => 5
    case BiometricCategorizationSensitive => 6
    case RealtimeBiometricPublic => 7
  }

  /** The practices in the order the classifier checks them. */
  const PracticeOrder: seq<Practice> := [SubliminalManipulation, ExploitationVulnerable, SocialScoring,
    PredictivePolicingProfiling, FacialRecognitionScraping, EmotionRecognitionWorkEducation,
    BiometricCategorizationSensitive, RealtimeBiometricPublic]

  /** The list `prohibited_checks`: each practice in check order, paired with its flag. */
  function ProhibitedChecks(inp: ClassificationInput): (checks: seq<(bool, Practice)>)
    ensures |checks| == |PracticeOrder|
  {
    seq(|PracticeOrder|, i requires 0 <= i < |PracticeOrder| => (ProhibitedFlag(inp, PracticeOrder[i]), PracticeOrder[i]))
  }

  /** The practices that fire, in check order. */
  function FiredPractices(inp: ClassificationInput): seq<Practice>
  {
    Fired(ProhibitedChecks(inp))
  }

  function PracticeReason(p: Practice): Reason
  {
    PracticeFound(p)
  }

  function PracticeCitation(p: Practice): Citation
  {
    PracticeArticle(p)
  }

  // ---------------------------------------------------------------------------
  // Step 2: Pathway A
  // ---------------------------------------------------------------------------

  predicate PathwayA(inp: ClassificationInput)
  {
    (inp.isSafetyComponentAnnexI || inp.isProductAnnexI) && inp.requiresThirdPartyAssessment
  }

  // ---------------------------------------------------------------------------
  // Step 3: Pathway B and the Article 6(3) exceptions
  // ---------------------------------------------------------------------------

  /** The recognised domain of the input: a non-empty key that is in the domain table. */
  function DomainOf(inp: ClassificationInput): Option<Domain>
  {
    if Truthy(inp.highRiskDomain) then LookupDomain(inp.highRiskDomain.value) else None
  }

  predicate ExceptionFlag(inp: ClassificationInput, e: HighRiskException)
  {
    match e
    case NarrowProcedural => inp.narrowProceduralTask
    case ImprovesHumanWork => inp.improvesHumanWork
    case DetectsPatterns => inp.detectsPatternsOnly
    case PreparatoryTask => inp.preparatoryTaskOnly
  }

  predicate AnyException(inp: ClassificationInput)
  {
    inp.narrowProceduralTask || inp.improvesHumanWork || inp.detectsPatternsOnly || inp.preparatoryTaskOnly
  }

  function ExceptionRank(e: HighRiskException): nat
  {
    match e
    case NarrowProcedural => 0
    case ImprovesHumanWork => 1
    case DetectsPatterns => 2
    case PreparatoryTask => 3
  }

  /**
   * The exception the classifier records: none under profiling, otherwise the first
   * exception (in test order) whose flag is set.
   */
  function ExceptionClaimed(inp: ClassificationInput): (r: Option<HighRiskException>)
    ensures r.None? <==> inp.performsProfiling || !AnyException(inp)
    ensures r.Some? ==> ExceptionFlag(inp, r.value)
    ensures r.Some? ==> forall e :: ExceptionRank(e) < ExceptionRank(r.value) ==> !ExceptionFlag(inp, e)
  {
    if inp.performsProfiling then None
    else if inp.narrowProceduralTask then Some(NarrowProcedural)
    else if inp.improvesHumanWork then Some(ImprovesHumanWork)
    else if inp.detectsPatternsOnly then Some(DetectsPatterns)
    else if inp.preparatoryTaskOnly then Some(PreparatoryTask)
    else None
  }

  /** Pathway B applies: a recognised domain and no exception claimed. */
  predicate PathwayB(inp: ClassificationInput)
  {
    DomainOf(inp).Some? && ExceptionClaimed(inp).None?
  }

  // ---------------------------------------------------------------------------
  // Step 4: transparency triggers
  // ---------------------------------------------------------------------------

  /** The input flag that raises each transparency trigger. */
  predicate TransparencyFlag(inp: ClassificationInput, t: Trigger)
  {
    match t
    case Chatbot => inp.interactsWithHumans
    case Deepfake => inp.generatesDeepfakes
    case AiGeneratedContent => inp.generatesSyntheticContent
    case EmotionRecognitionAllowed => inp.emotionRecognitionMedicalSafety
    case BiometricCategorizationAllowed => inp.biometricCategorizationLawful
  }

  predicate AnyTransparency(inp: ClassificationInput)
  {
    inp.interactsWithHumans || inp.generatesDeepfakes || inp.generatesSyntheticContent
      || inp.emotionRecognitionMedicalSafety || inp.biometricCategorizationLawful
  }

  function TriggerRank(t: Trigger): (r: int)
    ensures 0 <= r < 5
  {
    match t
    case Chatbot => 0
    case Deepfake => 1
    case AiGeneratedContent => 2
    case EmotionRecognitionAllowed => 3
    case BiometricCategorizationAllowed => 4
  }

  /** The triggers raised by the five transparency tests, in the order they are made. */
  function FiredTriggers(inp: ClassificationInput): seq<Trigger>
  {
    Emit(inp.interactsWithHumans, Chatbot)
      + Emit(inp.generatesDeepfakes, Deepfake)
      + Emit(inp.generatesSyntheticContent, AiGeneratedContent)
      + Emit(inp.emotionRecognitionMedicalSafety, EmotionRecognitionAllowed)
      + Emit(inp.biometricCategorizationLawful, BiometricCategorizationAllowed)
  }

  function TriggerReason(t: Trigger): Reason
  {
    TransparencyDuty(t)
  }

  /** The paragraph of Article 50 cited for each trigger. */
  function TriggerCitation(t: Trigger): Citation
  {
    match t
    case Chatbot => Article50Para1
    case Deepfake => Article50Para4
    case AiGeneratedContent => Article50Para4
    case EmotionRecognitionAllowed => Article50Para3
    case BiometricCategorizationAllowed => Article50Para3
  }

  // ---------------------------------------------------------------------------
  // Specification: one outcome per phase, the first present one wins
  // ---------------------------------------------------------------------------

  function ProhibitedOutcome(inp: ClassificationInput): Option<ClassificationResult>
  {
    var fired := FiredPractices(inp);
    if fired == [] then None
    else Some(ClassificationResult(Unacceptable,
      Map(PracticeReason, fired),
      UnacceptableObligations(),
      UnacceptableRecommendations(),
      Map(PracticeCitation, fired)))
  }

  function PathwayAOutcome(inp: ClassificationInput): Option<ClassificationResult>
  {
    if !PathwayA(inp) then None
    else Some(ClassificationResult(High,
      [AnnexIProduct(inp.isSafetyComponentAnnexI, inp.isProductAnnexI)]
        + (if Truthy(inp.annexIProductType) then [ProductCategory(inp.annexIProductType.value)] else []),
      HighRiskObligations(),
      HighRiskRecommendations(),
      [Article6Para1, AnnexI]))
  }

  function PathwayBOutcome(inp: ClassificationInput): Option<ClassificationResult>
  {
    if !PathwayB(inp) then None
    else
      var d := DomainOf(inp).value;
      Some(ClassificationResult(High,
        [AnnexIIIDomain(d)]
          + (if Truthy(inp.highRiskUseCase) then [UseCase(inp.highRiskUseCase.value)] else [])
          + (if inp.performsProfiling then [ProfilingPerformed] else []),
        HighRiskObligations(),
        HighRiskRecommendations(),
        [DomainArticle(d), Article6Para2]))
  }

  function TransparencyOutcome(inp: ClassificationInput): Option<ClassificationResult>
  {
    var fired := FiredTriggers(inp);
    if fired == [] then None
    else Some(ClassificationResult(Limited,
      Map(TriggerReason, fired),
      LimitedObligations(),
      LimitedRecommendations(),
      Map(TriggerCitation, fired)))
  }

  function MinimalOutcome(): ClassificationResult
  {
    ClassificationResult(Minimal, [NoCriteriaApply], MinimalObligations(), MinimalRecommendations(),
      [NoSpecificArticles])
  }

  /** The classification: the outcome of the first phase that applies, else the fallback. */
  function Classify(inp: ClassificationInput): (r: ClassificationResult)
    ensures r.reasons != [] && r.applicableArticles != []
    ensures r.obligations != [] && r.recommendations != []
  {
    if ProhibitedOutcome(inp).Some? then ProhibitedOutcome(inp).value
    else if PathwayAOutcome(inp).Some? then PathwayAOutcome(inp).value
    else if PathwayBOutcome(inp).Some? then PathwayBOutcome(inp).value
    else if TransparencyOutcome(inp).Some? then TransparencyOutcome(inp).value
    else MinimalOutcome()
  }

  // ---------------------------------------------------------------------------
  // The outcome of each phase, as the procedure reaches it: each lemma gives the
  // specification's result once the earlier phases are known not to apply.
  // ---------------------------------------------------------------------------

  lemma ClassifyUnacceptable(inp: ClassificationInput)
    requires FiredPractices(inp) != []
    ensures Classify(inp) == ClassificationResult(Unacceptable, Map(PracticeReason, FiredPractices(inp)),
      UnacceptableObligations(), UnacceptableRecommendations(), Map(PracticeCitation, FiredPractices(inp)))
  {
  }

  lemma ClassifyPathwayA(inp: ClassificationInput)
    requires FiredPractices(inp) == [] && PathwayA(inp)
    ensures Classify(inp) == PathwayAOutcome(inp).value
  {
  }

  lemma ClassifyPathwayB(inp: ClassificationInput)
    requires FiredPractices(inp) == [] && !PathwayA(inp) && PathwayB(inp)
    ensures Classify(inp) == PathwayBOutcome(inp).value
  {
  }

  lemma ClassifyLimited(inp: ClassificationInput)
    requires FiredPractices(inp) == [] && !PathwayA(inp) && !PathwayB(inp) && FiredTriggers(inp) != []
    ensures Classify(inp) == ClassificationResult(Limited, Map(TriggerReason, FiredTriggers(inp)),
      LimitedObligations(), LimitedRecommendations(), Map(TriggerCitation, FiredTriggers(inp)))
  {
  }

  lemma ClassifyMinimal(inp: ClassificationInput)
    requires FiredPractices(inp) == [] && !PathwayA(inp) && !PathwayB(inp) && FiredTriggers(inp) == []
    ensures Classify(inp) == MinimalOutcome()
  {
  }

  // ---------------------------------------------------------------------------
  // The procedure
  // ---------------------------------------------------------------------------

  /**
   * Step 1: the loop over the prohibited-practice checks, appending a reason and
   * the practice's article for each check that fires.
   */
  method CheckProhibitedPractices(inp: ClassificationInput) returns (reasons: seq<Reason>, applicableArticles: seq<Citation>)
    ensures reasons == Map(PracticeReason, FiredPractices(inp))
    ensures applicableArticles == Map(PracticeCitation, FiredPractices(inp))
  {
    reasons := [];
    applicableArticles := [];
    var prohibitedChecks := ProhibitedChecks(inp);
    var i := 0;
    while i < |prohibitedChecks|
      invariant 0 <= i <= |prohibitedChecks|
      invariant reasons == Map(PracticeReason, Fired(prohibitedChecks[..i]))
      invariant applicableArticles == Map(PracticeCitation, Fired(prohibitedChecks[..i]))
    {
      var (isTriggered, practiceKey) := prohibitedChecks[i];
      FiredMapSnoc(PracticeReason, prohibitedChecks[..i], prohibitedChecks[i]);
      FiredMapSnoc(PracticeCitation, prohibitedChecks[..i], prohibitedChecks[i]);
      assert prohibitedChecks[..i + 1] == prohibitedChecks[..i] + [prohibitedChecks[i]];
      if isTriggered {
        reasons := reasons + [PracticeFound(practiceKey)];
        applicableArticles := applicableArticles + [PracticeArticle(practiceKey)];
      }
      i := i + 1;
    }
    assert prohibitedChecks[..i] == prohibitedChecks;
  }

  /**
   * Step 4: the five transparency tests, each appending its trigger and the
   * paragraph of Article 50 it raises.
   */
  method CheckTransparencyTriggers(inp: ClassificationInput) returns (limitedRiskTriggers: seq<Trigger>, applicableArticles: seq<Citation>)
    ensures limitedRiskTriggers == FiredTriggers(inp)
    ensures applicableArticles == Map(TriggerCitation, limitedRiskTriggers)
  {
    limitedRiskTriggers := [];
    applicableArticles := [];

    if inp.interactsWithHumans {
      MapSnoc(TriggerCitation, limitedRiskTriggers, Chatbot);
      limitedRiskTriggers := limitedRiskTriggers + [Chatbot];
      applicableArticles := applicableArticles + [Article50Para1];
    }
    assert limitedRiskTriggers == Emit(inp.interactsWithHumans, Chatbot);

    if inp.generatesDeepfakes {
      MapSnoc(TriggerCitation, limitedRiskTriggers, Deepfake);
      limitedRiskTriggers := limitedRiskTriggers + [Deepfake];
      applicableArticles := applicableArticles + [Article50Para4];
    }
    assert limitedRiskTriggers == Emit(inp.interactsWithHumans, Chatbot)
      + Emit(inp.generatesDeepfakes, Deepfake);

    if inp.generatesSyntheticContent {
      MapSnoc(TriggerCitation, limitedRiskTriggers, AiGeneratedContent);
      limitedRiskTriggers := limitedRiskTriggers + [AiGeneratedContent];
      applicableArticles := applicableArticles + [Article50Para4];
    }
    assert limitedRiskTriggers == Emit(inp.interactsWithHumans, Chatbot)
      + Emit(inp.generatesDeepfakes, Deepfake)
      + Emit(inp.generatesSyntheticContent, AiGeneratedContent);

    if inp.emotionRecognitionMedicalSafety {
      MapSnoc(TriggerCitation, limitedRiskTriggers, EmotionRecognitionAllowed);
      limitedRiskTriggers := limitedRiskTriggers + [EmotionRecognitionAllowed];
      applicableArticles := applicableArticles + [Article50Para3];
    }
    assert limitedRiskTriggers == Emit(inp.interactsWithHumans, Chatbot)
      + Emit(inp.generatesDeepfakes, Deepfake)
      + Emit(inp.generatesSyntheticContent, AiGeneratedContent)
      + Emit(inp.emotionRecognitionMedicalSafety, EmotionRecognitionAllowed);

    if inp.biometricCategorizationLawful {
      MapSnoc(TriggerCitation, limitedRiskTriggers, BiometricCategorizationAllowed);
      limitedRiskTriggers := limitedRiskTriggers + [BiometricCategorizationAllowed];
      applicableArticles := applicableArticles + [Article50Para3];
    }
  }

  /**
   * The classifier: the five steps in order, each returning as soon as it applies.
   * `reasons` and `applicableArticles` grow by appending; the catalogues are
   * assigned at the return points.
   */
  method ClassifyAiSystem(inp: ClassificationInput) returns (result: ClassificationResult)
    ensures result == Classify(inp)
  {
    var reasons: seq<Reason> := [];
    var obligations: seq<Obligation> := [];
    var recommendations: seq<Recommendation> := [];
    var applicableArticles: seq<Citation> := [];

    // Step 1: prohibited practices
    reasons, applicableArticles := CheckProhibitedPractices(inp);
    if reasons != [] {
      obligations := UnacceptableObligations();
      recommendations := UnacceptableRecommendations();
      ClassifyUnacceptable(inp);
      return ClassificationResult(Unacceptable, reasons, obligations, recommendations, applicableArticles);
    }

    // Step 2: Pathway A
    if (inp.isSafetyComponentAnnexI || inp.isProductAnnexI) && inp.requiresThirdPartyAssessment {
      reasons := reasons + [AnnexIProduct(inp.isSafetyComponentAnnexI, inp.isProductAnnexI)];
      if Truthy(inp.annexIProductType) {
        reasons := reasons + [ProductCategory(inp.annexIProductType.value)];
      }
      applicableArticles := applicableArticles + [Article6Para1, AnnexI];
      obligations := HighRiskObligations();
      recommendations := HighRiskRecommendations();
      ClassifyPathwayA(inp);
      return ClassificationResult(High, reasons, obligations, recommendations, applicableArticles);
    }

    // Step 3: Pathway B with the Article 6(3) exceptions
    if Truthy(inp.highRiskDomain) && LookupDomain(inp.highRiskDomain.value).Some? {
      var domain := LookupDomain(inp.highRiskDomain.value).value;
      var exceptionsApply := false;
      if !inp.performsProfiling {
        if inp.narrowProceduralTask {
          exceptionsApply := true;
          reasons := reasons + [ExceptionApplied(NarrowProcedural)];
        } else if inp.improvesHumanWork {
          exceptionsApply := true;
          reasons := reasons + [ExceptionApplied(ImprovesHumanWork)];
        } else if inp.detectsPatternsOnly {
          exceptionsApply := true;
          reasons := reasons + [ExceptionApplied(DetectsPatterns)];
        } else if inp.preparatoryTaskOnly {
          exceptionsApply := true;
          reasons := reasons + [ExceptionApplied(PreparatoryTask)];
        }
      }
      assert exceptionsApply == ExceptionClaimed(inp).Some?;
      assert reasons == (if exceptionsApply then [ExceptionApplied(ExceptionClaimed(inp).value)] else []);

      if !exceptionsApply {
        assert PathwayB(inp) && DomainOf(inp) == Some(domain) && reasons == [];
        reasons := reasons + [AnnexIIIDomain(domain)];
        if Truthy(inp.highRiskUseCase) {
          reasons := reasons + [UseCase(inp.highRiskUseCase.value)];
        }
        if inp.performsProfiling {
          reasons := reasons + [ProfilingPerformed];
        }
        applicableArticles := applicableArticles + [DomainArticle(domain)];
        applicableArticles := applicableArticles + [Article6Para2];
        obligations := HighRiskObligations();
        recommendations := HighRiskRecommendations();
        ClassifyPathwayB(inp);
        return ClassificationResult(High, reasons, obligations, recommendations, applicableArticles);
      }
    }

    assert !PathwayB(inp);

    // Step 4: transparency triggers
    var limitedRiskTriggers, transparencyArticles := CheckTransparencyTriggers(inp);
    applicableArticles := applicableArticles + transparencyArticles;
    if limitedRiskTriggers != [] {
      reasons := Map(TriggerReason, limitedRiskTriggers);
      obligations := LimitedObligations();
      recommendations := LimitedRecommendations();
      ClassifyLimited(inp);
      return ClassificationResult(Limited, reasons, obligations, recommendations, applicableArticles);
    }

    // Step 5: fallback
    reasons := [NoCriteriaApply];
    obligations := MinimalObligations();
    recommendations := MinimalRecommendations();
    ClassifyMinimal(inp);
    return ClassificationResult(Minimal, reasons, obligations, recommendations, [NoSpecificArticles]);
  }
}
