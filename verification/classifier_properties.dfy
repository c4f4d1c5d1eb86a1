/**
 * Properties of the EU AI Act risk classification: which practices and triggers
 * are reported, the order in which the tiers are decided, what each tier reports,
 * and which inputs cannot change the result.
 */
module ClassifierProperties {
  import opened Wrappers
  import opened RiskTables
  import opened RiskClassifier

  // ---------------------------------------------------------------------------
  // The reported practices and triggers
  // ---------------------------------------------------------------------------

  /** The check order lists each practice once, at its rank. */
  lemma PracticeOrderRanked()
    ensures forall i :: 0 <= i < |PracticeOrder| ==> PracticeRank(PracticeOrder[i]) == i
    ensures forall p :: PracticeOrder[PracticeRank(p)] == p
  {
  }

  /** The prohibited checks come in strictly increasing rank, and a check is set exactly when its practice's flag is. */
  lemma ProhibitedChecksRanked(inp: ClassificationInput)
    ensures forall i, j :: 0 <= i < j < |ProhibitedChecks(inp)| ==>
      PracticeRank(ProhibitedChecks(inp)[i].1) < PracticeRank(ProhibitedChecks(inp)[j].1)
    ensures forall p :: (true, p) in ProhibitedChecks(inp) <==> ProhibitedFlag(inp, p)
  {
    PracticeOrderRanked();
    var checks := ProhibitedChecks(inp);
    forall p | ProhibitedFlag(inp, p)
      ensures (true, p) in checks
    {
      assert checks[PracticeRank(p)] == (true, p);
    }
  }

  /**
   * A practice is reported exactly when its flag is set, and the reported practices
   * come in check order, each at most once.
   */
  lemma FiredPracticesCharacterised(inp: ClassificationInput)
    ensures forall p :: p in FiredPractices(inp) <==> ProhibitedFlag(inp, p)
    ensures forall j, k :: 0 <= j < k < |FiredPractices(inp)| ==>
      PracticeRank(FiredPractices(inp)[j]) < PracticeRank(FiredPractices(inp)[k])
    ensures FiredPractices(inp) == [] <==> !AnyProhibited(inp)
  {
    ProhibitedChecksRanked(inp);
    var checks, rank := ProhibitedChecks(inp), PracticeRank;
    forall i, j | 0 <= i < j < |checks|
      ensures rank(checks[i].1) < rank(checks[j].1)
    {
    }
    FiredCharacterised(checks, rank);
    if AnyProhibited(inp) {
      var p :| ProhibitedFlag(inp, p);
      assert p in FiredPractices(inp);
    }
    assert FiredPractices(inp) != [] ==> ProhibitedFlag(inp, FiredPractices(inp)[0]);
  }

  /** Triggers listed in strictly increasing test order. */
  predicate TriggersInOrder(s: seq<Trigger>)
  {
    forall j, k :: 0 <= j < k < |s| ==> TriggerRank(s[j]) < TriggerRank(s[k])
  }

  /**
   * Appending a trigger tested after every listed one keeps the list in test order,
   * and no listed trigger is tested after it.
   */
  lemma EmitKeepsOrder(s: seq<Trigger>, flag: bool, t: Trigger)
    requires TriggersInOrder(s)
    requires forall i :: 0 <= i < |s| ==> TriggerRank(s[i]) < TriggerRank(t)
    ensures TriggersInOrder(s + Emit(flag, t))
    ensures forall i :: 0 <= i < |s + Emit(flag, t)| ==> TriggerRank((s + Emit(flag, t))[i]) <= TriggerRank(t)
  {
  }

  /** A transparency trigger is reported exactly when its flag is set. */
  lemma FiredTriggersCharacterised(inp: ClassificationInput)
    ensures forall t :: t in FiredTriggers(inp) <==> TransparencyFlag(inp, t)
    ensures FiredTriggers(inp) == [] <==> !AnyTransparency(inp)
  {
  }

  /** The reported triggers come in test order, each at most once. */
  lemma FiredTriggersInOrder(inp: ClassificationInput)
    ensures TriggersInOrder(FiredTriggers(inp))
  {
    var s1 := Emit(inp.interactsWithHumans, Chatbot);
    var s2 := s1 + Emit(inp.generatesDeepfakes, Deepfake);
    var s3 := s2 + Emit(inp.generatesSyntheticContent, AiGeneratedContent);
    var s4 := s3 + Emit(inp.emotionRecognitionMedicalSafety, EmotionRecognitionAllowed);
    EmitKeepsOrder([], inp.interactsWithHumans, Chatbot);
    EmitKeepsOrder(s1, inp.generatesDeepfakes, Deepfake);
    EmitKeepsOrder(s2, inp.generatesSyntheticContent, AiGeneratedContent);
    EmitKeepsOrder(s3, inp.emotionRecognitionMedicalSafety, EmotionRecognitionAllowed);
    EmitKeepsOrder(s4, inp.biometricCategorizationLawful, BiometricCategorizationAllowed);
  }

  // ---------------------------------------------------------------------------
  // The tier decision
  // ---------------------------------------------------------------------------

  /**
   * The tier is decided in a fixed order: any prohibited practice makes the system
   * Unacceptable; otherwise either high-risk pathway makes it High; otherwise any
   * transparency trigger makes it Limited; otherwise it is Minimal.
   */
  lemma TierDecision(inp: ClassificationInput)
    ensures Classify(inp).riskLevel ==
      if AnyProhibited(inp) then Unacceptable
      else if PathwayA(inp) || PathwayB(inp) then High
      else if AnyTransparency(inp) then Limited
      else Minimal
  {
    FiredPracticesCharacterised(inp);
    FiredTriggersCharacterised(inp);
  }

  /** The obligation and recommendation catalogues depend on the tier alone. */
  lemma CataloguesFollowTier(inp: ClassificationInput)
    ensures var r := Classify(inp);
      match r.riskLevel
      case Unacceptable => r.obligations == UnacceptableObligations() && r.recommendations == UnacceptableRecommendations()
      case High => r.obligations == HighRiskObligations() && r.recommendations == HighRiskRecommendations()
      case Limited => r.obligations == LimitedObligations() && r.recommendations == LimitedRecommendations()
      case Minimal => r.obligations == MinimalObligations() && r.recommendations == MinimalRecommendations()
  {
  }

  // ---------------------------------------------------------------------------
  // What each tier reports
  // ---------------------------------------------------------------------------

  /**
   * With a prohibited practice the system is Unacceptable, whatever else holds: it
   * reports every flagged practice and no other, in check order, each with the
   * Article 5(1) point of that practice at the same position.
   */
  lemma ProhibitedPracticesReported(inp: ClassificationInput)
    requires AnyProhibited(inp)
    ensures Classify(inp).riskLevel == Unacceptable
    ensures forall p :: PracticeFound(p) in Classify(inp).reasons <==> ProhibitedFlag(inp, p)
    ensures forall p :: PracticeArticle(p) in Classify(inp).applicableArticles <==> ProhibitedFlag(inp, p)
    ensures |Classify(inp).applicableArticles| == |Classify(inp).reasons|
    ensures forall i :: 0 <= i < |Classify(inp).reasons| ==>
      Classify(inp).reasons[i].PracticeFound? &&
      Classify(inp).applicableArticles[i] == PracticeArticle(Classify(inp).reasons[i].practice)
    ensures forall j, k :: 0 <= j < k < |Classify(inp).reasons| ==>
      PracticeRank(Classify(inp).reasons[j].practice) < PracticeRank(Classify(inp).reasons[k].practice)
  {
    FiredPracticesCharacterised(inp);
    var fired := FiredPractices(inp);
    ClassifyUnacceptable(inp);
    var r := Classify(inp);
    assert r.reasons == Map(PracticeReason, fired);
    assert r.applicableArticles == Map(PracticeCitation, fired);
    forall i | 0 <= i < |fired|
      ensures r.reasons[i] == PracticeFound(fired[i]) && r.applicableArticles[i] == PracticeArticle(fired[i])
    {
      MapAt(PracticeReason, fired, i);
      MapAt(PracticeCitation, fired, i);
    }
  }

  /**
   * Pathway A (an Annex I safety component or product that needs a third-party
   * conformity assessment) makes a system without prohibited practices High. It
   * cites Article 6(1) and Annex I only, names the roles first, and adds the product
   * category as a second reason exactly when a non-empty one is given.
   */
  lemma PathwayAReported(inp: ClassificationInput)
    requires !AnyProhibited(inp) && PathwayA(inp)
    ensures Classify(inp).riskLevel == High
    ensures Classify(inp).applicableArticles == [Article6Para1, AnnexI]
    ensures 1 <= |Classify(inp).reasons| <= 2
    ensures Classify(inp).reasons[0] == AnnexIProduct(inp.isSafetyComponentAnnexI, inp.isProductAnnexI)
    ensures |Classify(inp).reasons| == 2 <==> Truthy(inp.annexIProductType)
    ensures |Classify(inp).reasons| == 2 ==> Classify(inp).reasons[1] == ProductCategory(inp.annexIProductType.value)
  {
    FiredPracticesCharacterised(inp);
    ClassifyPathwayA(inp);
  }

  /** A domain is recognised exactly when a non-empty key names an entry of the domain table. */
  lemma DomainRecognised(inp: ClassificationInput, d: Domain)
    ensures DomainOf(inp) == Some(d) <==> Truthy(inp.highRiskDomain) && inp.highRiskDomain.value == DomainKey(d)
  {
    if Truthy(inp.highRiskDomain) && inp.highRiskDomain.value == DomainKey(d) {
      LookupDomainKey(d);
    }
  }

  /**
   * Pathway B: a system without prohibited practices outside Pathway A, with a
   * recognised Annex III domain, is High exactly when it profiles natural persons
   * or sets none of the four Article 6(3) exception flags. When High, it cites the
   * domain's Annex III point and Article 6(2), and its reasons are exactly the
   * domain, then the use case when a non-empty one is given, then profiling when it
   * occurs.
   */
  lemma PathwayBReported(inp: ClassificationInput, d: Domain)
    requires !AnyProhibited(inp) && !PathwayA(inp) && DomainOf(inp) == Some(d)
    ensures Classify(inp).riskLevel == High <==> inp.performsProfiling || !AnyException(inp)
    ensures Classify(inp).riskLevel == High ==>
      && Classify(inp).applicableArticles == [DomainArticle(d), Article6Para2]
      && Classify(inp).reasons[0] == AnnexIIIDomain(d)
      && (Truthy(inp.highRiskUseCase) ==> UseCase(inp.highRiskUseCase.value) in Classify(inp).reasons)
      && (!Truthy(inp.highRiskUseCase) ==> forall u :: UseCase(u) !in Classify(inp).reasons)
      && (ProfilingPerformed in Classify(inp).reasons <==> inp.performsProfiling)
    ensures Classify(inp).riskLevel == High ==>
      && |Classify(inp).reasons|
           == 1 + (if Truthy(inp.highRiskUseCase) then 1 else 0) + (if inp.performsProfiling then 1 else 0)
      && (Truthy(inp.highRiskUseCase) ==> Classify(inp).reasons[1] == UseCase(inp.highRiskUseCase.value))
      && (inp.performsProfiling ==> Classify(inp).reasons[|Classify(inp).reasons| - 1] == ProfilingPerformed)
  {
    TierDecision(inp);
    FiredPracticesCharacterised(inp);
    if PathwayB(inp) {
      ClassifyPathwayB(inp);
    }
  }

  /** Profiling of natural persons rules the exceptions out: a recognised domain is then always High. */
  lemma ProfilingDefeatsExceptions(inp: ClassificationInput)
    requires !AnyProhibited(inp) && DomainOf(inp).Some? && inp.performsProfiling
    ensures Classify(inp).riskLevel == High
  {
    TierDecision(inp);
  }

  /** Inputs with the same Article 5 flags report the same practices. */
  lemma SameFlagsSamePractices(a: ClassificationInput, b: ClassificationInput)
    requires forall p :: ProhibitedFlag(a, p) == ProhibitedFlag(b, p)
    ensures FiredPractices(a) == FiredPractices(b)
  {
    assert ProhibitedChecks(a) == ProhibitedChecks(b);
  }

  /**
   * Outside Pathway B (no recognised domain, or an exception claimed) the domain,
   * the use case, profiling and the exception flags do not change the result: it
   * is the one the system would get with none of them given.
   */
  lemma DomainInputsMatterOnlyInPathwayB(inp: ClassificationInput)
    requires !PathwayB(inp)
    ensures Classify(inp) == Classify(inp.(highRiskDomain := None, highRiskUseCase := None, performsProfiling := false,
      narrowProceduralTask := false, improvesHumanWork := false, detectsPatternsOnly := false, preparatoryTaskOnly := false))
  {
    var other := inp.(highRiskDomain := None, highRiskUseCase := None, performsProfiling := false,
      narrowProceduralTask := false, improvesHumanWork := false, detectsPatternsOnly := false, preparatoryTaskOnly := false);
    SameFlagsSamePractices(inp, other);
    assert FiredTriggers(inp) == FiredTriggers(other);
    if FiredPractices(inp) != [] {
      ClassifyUnacceptable(inp);
      ClassifyUnacceptable(other);
    } else if PathwayA(inp) {
      ClassifyPathwayA(inp);
      ClassifyPathwayA(other);
    } else if FiredTriggers(inp) != [] {
      ClassifyLimited(inp);
      ClassifyLimited(other);
    } else {
      ClassifyMinimal(inp);
      ClassifyMinimal(other);
    }
  }

  /**
   * With no prohibited practice and neither pathway, any transparency trigger makes
   * the system Limited: it reports every raised trigger and no other, in test
   * order, each with its paragraph of Article 50 at the same position.
   */
  lemma TransparencyReported(inp: ClassificationInput)
    requires !AnyProhibited(inp) && !PathwayA(inp) && !PathwayB(inp) && AnyTransparency(inp)
    ensures Classify(inp).riskLevel == Limited
    ensures forall t :: TransparencyDuty(t) in Classify(inp).reasons <==> TransparencyFlag(inp, t)
    ensures |Classify(inp).applicableArticles| == |Classify(inp).reasons|
    ensures forall i :: 0 <= i < |Classify(inp).reasons| ==>
      Classify(inp).reasons[i].TransparencyDuty? &&
      Classify(inp).applicableArticles[i] == TriggerCitation(Classify(inp).reasons[i].trigger)
    ensures forall j, k :: 0 <= j < k < |Classify(inp).reasons| ==>
      TriggerRank(Classify(inp).reasons[j].trigger) < TriggerRank(Classify(inp).reasons[k].trigger)
  {
    FiredPracticesCharacterised(inp);
    FiredTriggersCharacterised(inp);
    FiredTriggersInOrder(inp);
    var fired := FiredTriggers(inp);
    ClassifyLimited(inp);
    var r := Classify(inp);
    assert r.reasons == Map(TriggerReason, fired);
    assert r.applicableArticles == Map(TriggerCitation, fired);
    forall i | 0 <= i < |fired|
      ensures r.reasons[i] == TransparencyDuty(fired[i]) && r.applicableArticles[i] == TriggerCitation(fired[i])
    {
      MapAt(TriggerReason, fired, i);
      MapAt(TriggerCitation, fired, i);
    }
    forall t | TransparencyFlag(inp, t)
      ensures TransparencyDuty(t) in r.reasons
    {
      var i :| 0 <= i < |fired| && fired[i] == t;
      assert r.reasons[i] == TransparencyDuty(t);
    }
  }

  /** A citation is among those of a list of triggers exactly when one of the triggers carries it. */
  lemma CitationOfTriggers(ts: seq<Trigger>, c: Citation)
    ensures c in Map(TriggerCitation, ts) <==> exists t :: t in ts && TriggerCitation(t) == c
  {
    if c in Map(TriggerCitation, ts) {
      var i :| 0 <= i < |ts| && Map(TriggerCitation, ts)[i] == c;
      MapAt(TriggerCitation, ts, i);
      assert ts[i] in ts;
    }
    if t :| t in ts && TriggerCitation(t) == c {
      var i :| 0 <= i < |ts| && ts[i] == t;
      MapAt(TriggerCitation, ts, i);
    }
  }

  /**
   * The Limited tier cites Article 50(1) exactly for a system interacting with
   * people, 50(4) exactly for deepfakes or synthetic content, and 50(3) exactly for
   * the permitted emotion recognition or biometric categorisation.
   */
  lemma TransparencyArticlesCited(inp: ClassificationInput)
    requires !AnyProhibited(inp) && !PathwayA(inp) && !PathwayB(inp) && AnyTransparency(inp)
    ensures Article50Para1 in Classify(inp).applicableArticles <==> inp.interactsWithHumans
    ensures Article50Para4 in Classify(inp).applicableArticles <==> inp.generatesDeepfakes || inp.generatesSyntheticContent
    ensures Article50Para3 in Classify(inp).applicableArticles <==>
      inp.emotionRecognitionMedicalSafety || inp.biometricCategorizationLawful
  {
    FiredPracticesCharacterised(inp);
    FiredTriggersCharacterised(inp);
    var fired := FiredTriggers(inp);
    ClassifyLimited(inp);
    assert Classify(inp).applicableArticles == Map(TriggerCitation, fired);
    forall c | c in {Article50Para1, Article50Para3, Article50Para4}
      ensures c in Map(TriggerCitation, fired) <==> exists t :: TransparencyFlag(inp, t) && TriggerCitation(t) == c
    {
      CitationOfTriggers(fired, c);
    }
    assert TriggerCitation(Chatbot) == Article50Para1;
    assert TriggerCitation(Deepfake) == TriggerCitation(AiGeneratedContent) == Article50Para4;
    assert TriggerCitation(EmotionRecognitionAllowed) == TriggerCitation(BiometricCategorizationAllowed) == Article50Para3;
  }

  /** With no tier applying, the result is the fixed Minimal one. */
  lemma MinimalReported(inp: ClassificationInput)
    requires !AnyProhibited(inp) && !PathwayA(inp) && !PathwayB(inp) && !AnyTransparency(inp)
    ensures Classify(inp) == ClassificationResult(Minimal, [NoCriteriaApply], MinimalObligations(),
      MinimalRecommendations(), [NoSpecificArticles])
  {
    FiredPracticesCharacterised(inp);
    FiredTriggersCharacterised(inp);
  }

  /**
   * The exception line is never part of a result: the Pathway B path that writes it
   * goes on to the transparency or minimal phase, which replaces the reasons.
   */
  lemma ExceptionReasonNeverReported(inp: ClassificationInput)
    ensures forall e :: ExceptionApplied(e) !in Classify(inp).reasons
  {
    TierDecision(inp);
    if AnyProhibited(inp) {
      ProhibitedPracticesReported(inp);
    } else if PathwayA(inp) {
      PathwayAReported(inp);
    } else if PathwayB(inp) {
      FiredPracticesCharacterised(inp);
      ClassifyPathwayB(inp);
    } else if AnyTransparency(inp) {
      TransparencyReported(inp);
    } else {
      MinimalReported(inp);
    }
  }

  // ---------------------------------------------------------------------------
  // Inputs that cannot change the result, and concrete calls
  // ---------------------------------------------------------------------------

  /** The system's name, description and provider never influence the classification. */
  lemma IdentityIrrelevant(inp: ClassificationInput, name: string, description: string, provider: string)
    ensures Classify(inp.(systemName := name, systemDescription := description, provider := provider)) == Classify(inp)
  {
    var other := inp.(systemName := name, systemDescription := description, provider := provider);
    SameFlagsSamePractices(inp, other);
    assert FiredTriggers(inp) == FiredTriggers(other);
    assert PathwayB(inp) == PathwayB(other);
    if FiredPractices(inp) != [] {
      ClassifyUnacceptable(inp);
      ClassifyUnacceptable(other);
    } else if PathwayA(inp) {
      ClassifyPathwayA(inp);
      ClassifyPathwayA(other);
    } else if PathwayB(inp) {
      ClassifyPathwayB(inp);
      ClassifyPathwayB(other);
    } else if FiredTriggers(inp) != [] {
      ClassifyLimited(inp);
      ClassifyLimited(other);
    } else {
      ClassifyMinimal(inp);
      ClassifyMinimal(other);
    }
  }

  /** A call with only the three required strings is Minimal and cites no specific article. */
  lemma DefaultInputIsMinimal(name: string, description: string, provider: string)
    ensures Classify(DefaultInput(name, description, provider)).riskLevel == Minimal
    ensures Render(Classify(DefaultInput(name, description, provider))).applicableArticles ==
      ["Keine spezifischen Artikel anwendbar"]
  {
    var inp := DefaultInput(name, description, provider);
    MinimalReported(inp);
    MapAt(CitationText, [NoSpecificArticles], 0);
  }

  /** When social scoring is the only prohibited practice flagged, it is the only one the checks report. */
  lemma OnlySocialScoringFired(inp: ClassificationInput)
    requires forall p :: ProhibitedFlag(inp, p) <==> p == SocialScoring
    ensures SocialScoring in FiredPractices(inp)
    ensures forall i :: 0 <= i < |FiredPractices(inp)| ==> FiredPractices(inp)[i] == SocialScoring
  {
    FiredPracticesCharacterised(inp);
    assert ProhibitedFlag(inp, SocialScoring);
    forall i | 0 <= i < |FiredPractices(inp)|
      ensures FiredPractices(inp)[i] == SocialScoring
    {
      assert FiredPractices(inp)[i] in FiredPractices(inp);
    }
  }

  /**
   * A system whose only prohibited practice is social scoring is Unacceptable,
   * reported as that practice alone and cited as Article 5(1)(c) alone.
   */
  lemma SocialScoringIsProhibited(inp: ClassificationInput)
    requires forall p :: ProhibitedFlag(inp, p) <==> p == SocialScoring
    ensures Classify(inp).riskLevel == Unacceptable
    ensures forall x :: x in Classify(inp).reasons <==> x == PracticeFound(SocialScoring)
    ensures forall c :: c in Classify(inp).applicableArticles <==> c == PracticeArticle(SocialScoring)
    ensures CitationText(PracticeArticle(SocialScoring)) == "Artikel 5(1)(c)"
  {
    SocialScoringArticle();
    OnlySocialScoringFired(inp);
    var fired := FiredPractices(inp);
    var k :| 0 <= k < |fired| && fired[k] == SocialScoring;
    ClassifyUnacceptable(inp);
    var r := Classify(inp);
    forall i | 0 <= i < |fired|
      ensures r.reasons[i] == PracticeFound(SocialScoring)
      ensures r.applicableArticles[i] == PracticeArticle(SocialScoring)
    {
      MapAt(PracticeReason, fired, i);
      MapAt(PracticeCitation, fired, i);
    }
    MapAt(PracticeReason, fired, k);
    MapAt(PracticeCitation, fired, k);
  }
}
