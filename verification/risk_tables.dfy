/**
 * The static reference data of the EU AI Act classifier (Regulation (EU) 2024/1689):
 * the four risk tiers, the Article 5 prohibited practices, the Annex III high-risk
 * domains, the Article 50 transparency triggers, the fixed obligation and
 * recommendation catalogues, and the colour shown for each tier.
 *
 * String-keyed dictionaries whose keys the classifier itself supplies become closed
 * enumerations; the one key that comes from the caller (the domain key) keeps its
 * string form and is resolved by `LookupDomain`.
 */
module RiskTables {
  import opened Wrappers

  /** The four risk tiers. */
  datatype RiskLevel = Unacceptable | High | Limited | Minimal

  /** The display value each tier carries. */
  function RiskLevelValue(level: RiskLevel): string
  {
    match level
    case Unacceptable => "Unannehmbares Risiko (Verboten)"
    case High => "Hohes Risiko"
    case Limited => "Begrenztes Risiko"
    case Minimal => "Minimales Risiko"
  }

  /** The four tiers carry four different values, so none is an alias of another. */
  lemma RiskLevelValueDistinct(a: RiskLevel, b: RiskLevel)
    requires a != b
    ensures RiskLevelValue(a) != RiskLevelValue(b)
  {
  }

  // ---------------------------------------------------------------------------
  // Article 5: prohibited practices
  // ---------------------------------------------------------------------------

  /** The keys of the prohibited-practice table, in the classifier's check order. */
  datatype Practice =
    | SubliminalManipulation
    | ExploitationVulnerable
    | SocialScoring
    | PredictivePolicingProfiling
    | FacialRecognitionScraping
    | EmotionRecognitionWorkEducation
    | BiometricCategorizationSensitive
    | RealtimeBiometricPublic

  datatype PracticeEntry = PracticeEntry(name: string, description: string, article: string)

  /** The dictionary key of each practice. */
  function PracticeKey(p: Practice): string
  {
    match p
    case SubliminalManipulation => "subliminal_manipulation"
    case ExploitationVulnerable => "exploitation_vulnerable"
    case SocialScoring => "social_scoring"
    case PredictivePolicingProfiling => "predictive_policing_profiling"
    case FacialRecognitionScraping => "facial_recognition_scraping"
    case EmotionRecognitionWorkEducation => "emotion_recognition_work_education"
    case BiometricCategorizationSensitive => "biometric_categorization_sensitive"
    case RealtimeBiometricPublic => "realtime_biometric_public"
  }

  /** The point of Article 5(1) that forbids each practice, a letter from a to h. */
  function PracticePoint(p: Practice): (c: char)
    ensures 'a' <= c <= 'h'
  {
    match p
    case SubliminalManipulation => 'a'
    case ExploitationVulnerable => 'b'
    case SocialScoring => 'c'
    case PredictivePolicingProfiling => 'd'
    case FacialRecognitionScraping => 'e'
    case EmotionRecognitionWorkEducation => 'f'
    case BiometricCategorizationSensitive => 'g'
    case RealtimeBiometricPublic => 'h'
  }

  /** The name of each practice in the table. */
  function PracticeName(p: Practice): string
  {
    match p
    case SubliminalManipulation => "Unterschwellige Manipulation"
    case ExploitationVulnerable => "Ausnutzung von Schutzbedürftigen"
    case SocialScoring => "Soziales Scoring"
    case PredictivePolicingProfiling => "Predictive Policing (nur Profiling)"
    case FacialRecognitionScraping => "Gesichtserkennung-Scraping"
    case EmotionRecognitionWorkEducation => "Emotionserkennung am Arbeitsplatz/in Bildung"
    case BiometricCategorizationSensitive => "Biometrische Kategorisierung (sensibel)"
    case RealtimeBiometricPublic => "Echtzeit-Biometrie in öffentlichen Räumen"
  }

  /** The description of each practice in the table. */
  function PracticeDescription(p: Practice): string
  {
    match p
    case SubliminalManipulation =>
      "KI, die unterschwellige Techniken einsetzt, um Verhalten zu beeinflussen"
    case ExploitationVulnerable =>
      "Ausnutzung von Schwächen aufgrund von Alter, Behinderung oder sozioökonomischer Lage"
    case SocialScoring =>
      "Bewertung von Personen basierend auf sozialem Verhalten oder Persönlichkeitsmerkmalen"
    case PredictivePolicingProfiling =>
      "Vorhersage von Straftaten ausschließlich basierend auf Profiling"
    case FacialRecognitionScraping =>
      "Erstellen von Gesichtserkennungs-Datenbanken durch ungezieltes Internet-/CCTV-Scraping"
    case EmotionRecognitionWorkEducation =>
      "Ableitung von Emotionen am Arbeitsplatz oder in Bildungseinrichtungen (außer medizinisch/sicherheitsrelevant)"
    case BiometricCategorizationSensitive =>
      "Kategorisierung durch Ableitung von Rasse, politischen Meinungen, Gewerkschaftszugehörigkeit, Religion, Sexualleben"
    case RealtimeBiometricPublic =>
      "Echtzeit-Fernidentifizierung in öffentlich zugänglichen Räumen für Strafverfolgung"
  }

  /**
   * The table entry of each practice: its name, its description and its Article 5(1)
   * point, cited as "Artikel 5(1)(x)" with the practice's letter x.
   */
  function ProhibitedPractice(p: Practice): (e: PracticeEntry)
    ensures |e.article| == 15 && e.article[..13] == "Artikel 5(1)(" && e.article[14] == ')'
    ensures e.article[13] == PracticePoint(p)
  {
    PracticeEntry(PracticeName(p), PracticeDescription(p), "Artikel 5(1)(" + [PracticePoint(p)] + ")")
  }

  /** No two practices share an Article 5(1) point: the eight practices take the eight letters a to h. */
  lemma ProhibitedPracticeArticlesDistinct(p: Practice, q: Practice)
    requires p != q
    ensures ProhibitedPractice(p).article != ProhibitedPractice(q).article
  {
    assert PracticePoint(p) != PracticePoint(q);
    assert ProhibitedPractice(p).article[13] != ProhibitedPractice(q).article[13];
  }

  /** Social scoring is forbidden by point (c). */
  lemma SocialScoringArticle()
    ensures ProhibitedPractice(SocialScoring).article == "Artikel 5(1)(c)"
  {
  }

  // ---------------------------------------------------------------------------
  // Annex III: high-risk domains
  // ---------------------------------------------------------------------------

  /** The eight keys of the high-risk domain table. */
  datatype Domain =
    | Biometrics
    | CriticalInfrastructure
    | Education
    | Employment
    | EssentialServices
    | LawEnforcement
    | MigrationBorder
    | JusticeDemocracy

  datatype DomainEntry = DomainEntry(name: string, useCases: seq<string>, article: string)

  /** The dictionary key of each domain, as the caller passes it. */
  function DomainKey(d: Domain): string
  {
    match d
    case Biometrics => "biometrics"
    case CriticalInfrastructure => "critical_infrastructure"
    case Education => "education"
    case Employment => "employment"
    case EssentialServices => "essential_services"
    case LawEnforcement => "law_enforcement"
    case MigrationBorder => "migration_border"
    case JusticeDemocracy => "justice_democracy"
  }

  /**
   * The dictionary membership test and lookup `key in HIGH_RISK_DOMAINS`: the domain
   * whose key is `key`, or None for every other string.
   */
  function LookupDomain(key: string): (r: Option<Domain>)
    ensures r.Some? ==> DomainKey(r.value) == key
    ensures r.None? ==> forall d: Domain :: DomainKey(d) != key
  {
    match key
    case "biometrics" => Some(Biometrics)
    case "critical_infrastructure" => Some(CriticalInfrastructure)
    case "education" => Some(Education)
    case "employment" => Some(Employment)
    case "essential_services" => Some(EssentialServices)
    case "law_enforcement" => Some(LawEnforcement)
    case "migration_border" => Some(MigrationBorder)
    case "justice_democracy" => Some(JusticeDemocracy)
    case _ => None
  }

  /** Every domain is found under its own key, so the table's keys are distinct. */
  lemma LookupDomainKey(d: Domain)
    ensures LookupDomain(DomainKey(d)) == Some(d)
  {
  }

  /** The number of the Annex III point that lists each domain, a digit from 1 to 8. */
  function DomainPoint(d: Domain): (c: char)
    ensures '1' <= c <= '8'
  {
    match d
    case Biometrics => '1'
    case CriticalInfrastructure => '2'
    case Education => '3'
    case Employment => '4'
    case EssentialServices => '5'
    case LawEnforcement => '6'
    case MigrationBorder => '7'
    case JusticeDemocracy => '8'
  }

  /** The name of each domain in the table. */
  function DomainName(d: Domain): string
  {
    match d
    case Biometrics => "Biometrie"
    case CriticalInfrastructure => "Kritische Infrastruktur"
    case Education => "Bildung und Berufsausbildung"
    case Employment => "Beschäftigung und Personalmanagement"
    case EssentialServices => "Zugang zu wesentlichen Diensten"
    case LawEnforcement => "Strafverfolgung"
    case MigrationBorder => "Migration und Grenzkontrolle"
    case JusticeDemocracy => "Justiz und demokratische Prozesse"
  }

  /** The example use cases the table lists for each domain. */
  function DomainUseCases(d: Domain): seq<string>
  {
    match d
    case Biometrics =>
      ["Biometrische Fernidentifikation (nicht nur Verifikation)",
       "Biometrische Kategorisierung nach sensiblen Merkmalen",
       "Emotionserkennungssysteme"]
    case CriticalInfrastructure =>
      ["Sicherheitskomponenten für digitale Infrastruktur",
       "Straßenverkehrsmanagement",
       "Wasser-/Gas-/Heizungs-/Stromversorgung"]
    case Education =>
      ["Zulassungsentscheidungen",
       "Benotung und Bewertung",
       "Verhaltensüberwachung von Schülern/Studenten",
       "Prüfungsbetrugs-Erkennung"]
    case Employment =>
      ["Rekrutierung und Lebenslauf-Screening",
       "Zielgerichtete Stellenanzeigen",
       "Bewerbungsgespräch-Auswertung",
       "Leistungsüberwachung",
       "Beförderungs-/Kündigungsentscheidungen",
       "Aufgabenzuweisung"]
    case EssentialServices =>
      ["Kreditwürdigkeitsprüfung",
       "Risikobewertung für Lebens-/Krankenversicherung",
       "Sozialleistungs-Berechtigung",
       "Notruf-Bewertung und Dispatching",
       "Medizinische Triage"]
    case LawEnforcement =>
      ["Risikobewertung für (Rück-)Fälligkeit",
       "Polygraph und ähnliche Tools",
       "Beweis-Zuverlässigkeitsbewertung",
       "Profiling bei Ermittlungen",
       "Kriminalitätsanalyse"]
    case MigrationBorder =>
      ["Sicherheits-/Gesundheits-/Migrationsrisikobewertung",
       "Asyl-/Visa-/Aufenthaltsgenehmigungsprüfung",
       "Dokumenten-Echtheitsprüfung",
       "Personenerkennung und -identifikation"]
    case JusticeDemocracy =>
      ["Rechtsrecherche und -interpretation",
       "Alternative Streitbeilegung",
       "Beweisbewertung",
       "Beeinflussung von Gerichtsentscheidungen"]
  }

  /**
   * The table entry of each domain: its name, its use cases and its Annex III point,
   * cited as "Anhang III, Nr. n" with the domain's digit n.
   */
  function HighRiskDomain(d: Domain): (e: DomainEntry)
    ensures |e.article| == 17 && e.article[..16] == "Anhang III, Nr. " && e.article[16] == DomainPoint(d)
  {
    DomainEntry(DomainName(d), DomainUseCases(d), "Anhang III, Nr. " + [DomainPoint(d)])
  }

  /** No two domains share an Annex III point. */
  lemma HighRiskDomainArticlesDistinct(d: Domain, e: Domain)
    requires d != e
    ensures HighRiskDomain(d).article != HighRiskDomain(e).article
  {
    assert DomainPoint(d) != DomainPoint(e);
    assert HighRiskDomain(d).article[16] != HighRiskDomain(e).article[16];
  }

  /**
   * The Annex I product categories offered for Pathway A. The classifier itself never
   * consults this list: the product type it receives is a free string.
   */
  function AnnexIProducts(): (r: seq<string>)
    ensures |r| == 13
  {
    ["Medizinprodukte (Klasse IIa und höher)",
     "In-vitro-Diagnostika",
     "Maschinen und Anlagen",
     "Spielzeug",
     "Aufzüge und Sicherheitskomponenten",
     "Persönliche Schutzausrüstung",
     "Funkanlagen",
     "Druckgeräte",
     "Zivilluftfahrtsysteme",
     "Kraftfahrzeuge und Anhänger",
     "Land- und Forstwirtschaftsfahrzeuge",
     "Schiffsausrüstung",
     "Eisenbahnsysteme"]
  }

  // ---------------------------------------------------------------------------
  // Article 50: transparency triggers
  // ---------------------------------------------------------------------------

  /** The keys of the transparency-trigger table, in the classifier's check order. */
  datatype Trigger =
    | Chatbot
    | Deepfake
    | AiGeneratedContent
    | EmotionRecognitionAllowed
    | BiometricCategorizationAllowed

  /** The trigger text of each transparency trigger. */
  function LimitedRiskTrigger(t: Trigger): string
  {
    match t
    case Chatbot => "KI-System interagiert direkt mit Nutzern (Chatbot, virtueller Assistent)"
    case Deepfake => "Generiert oder manipuliert Bild-, Audio- oder Videoinhalte (Deepfakes)"
    case AiGeneratedContent => "Generiert synthetischen Text, der öffentlich verbreitet wird"
    case EmotionRecognitionAllowed => "Emotionserkennung für medizinische oder Sicherheitszwecke"
    case BiometricCategorizationAllowed => "Rechtmäßige biometrische Kategorisierung"
  }

  // ---------------------------------------------------------------------------
  // Fixed catalogues
  // ---------------------------------------------------------------------------

  /** Every obligation line the classifier can emit. */
  datatype Obligation =
    // a prohibited practice
    | NotOperableInEu | ImmediateCessation | PenaltyWarning
    // a high-risk system
    | RiskManagementSystem | DataGovernance | TechnicalDocumentation | AutomaticLogging
    | TransparencyToDeployers | HumanOversight | AccuracyRobustnessCybersecurity
    | ConformityAssessment | CeMarking | EuDatabaseRegistration | PostMarketMonitoring
    // a limited-risk system
    | InformUsers | LabelGeneratedContent | MachineReadableMarking | DeepfakeDisclosure
    // a minimal-risk system
    | NoMandatoryRequirements

  function ObligationText(o: Obligation): string
  {
    match o
    case NotOperableInEu => "Das KI-System darf NICHT in der EU betrieben werden"
    case ImmediateCessation => "Sofortige Einstellung aller Aktivitäten erforderlich"
    case PenaltyWarning => "Mögliche Strafe: Bis zu 35 Mio. EUR oder 7% des weltweiten Jahresumsatzes"
    case RiskManagementSystem => "Risikomanagementsystem einrichten (Artikel 9)"
    case DataGovernance => "Daten-Governance sicherstellen (Artikel 10)"
    case TechnicalDocumentation => "Technische Dokumentation erstellen (Artikel 11, Anhang IV)"
    case AutomaticLogging => "Automatische Protokollierung implementieren (Artikel 12)"
    case TransparencyToDeployers => "Transparenz gegenüber Betreibern gewährleisten (Artikel 13)"
    case HumanOversight => "Menschliche Aufsicht ermöglichen (Artikel 14)"
    case AccuracyRobustnessCybersecurity => "Genauigkeit, Robustheit und Cybersicherheit sicherstellen (Artikel 15)"
    case ConformityAssessment => "Konformitätsbewertung durchführen (Artikel 43)"
    case CeMarking => "CE-Kennzeichnung anbringen (Artikel 48)"
    case EuDatabaseRegistration => "Registrierung in EU-Datenbank (Artikel 49)"
    case PostMarketMonitoring => "Post-Market-Monitoring einrichten (Artikel 72)"
    case InformUsers => "Nutzer über KI-Interaktion informieren"
    case LabelGeneratedContent => "KI-generierte Inhalte als solche kennzeichnen"
    case MachineReadableMarking => "Maschinenlesbare Markierung für synthetische Inhalte"
    case DeepfakeDisclosure => "Bei Deepfakes: Offenlegungspflicht"
    case NoMandatoryRequirements => "Keine verpflichtenden Anforderungen nach EU AI Act"
  }

  /** Every recommendation line the classifier can emit. */
  datatype Recommendation =
    // a prohibited practice
    | SeekLegalAdvice | RedesignSystem | ReviewCompliantAlternatives
    // a high-risk system
    | StartConformityEarly | QualityManagementSystem | AppointComplianceOfficer | KeepDocumentationCurrent
    | TrainAllParticipants | ConsultNotifiedBody | ContingencyPlans
    // a limited-risk system
    | DisclosureMechanisms | WatermarkContent | UpdateTermsOfUse | TrainStaff
    // a minimal-risk system
    | VoluntaryCodesOfConduct | ResponsibleAiPractices | ReviewOnChange

  function RecommendationText(r: Recommendation): string
  {
    match r
    case SeekLegalAdvice => "Rechtliche Beratung einholen"
    case RedesignSystem => "System umgestalten um verbotene Praktiken zu eliminieren"
    case ReviewCompliantAlternatives => "Alternative Ansätze prüfen die EU AI Act-konform sind"
    case StartConformityEarly => "Frühzeitig mit Konformitätsbewertung beginnen"
    case QualityManagementSystem => "Qualitätsmanagementsystem implementieren"
    case AppointComplianceOfficer => "Verantwortlichen für KI-Compliance benennen"
    case KeepDocumentationCurrent => "Dokumentation kontinuierlich aktualisieren"
    case TrainAllParticipants => "Schulungen für alle Beteiligten durchführen"
    case ConsultNotifiedBody => "Externe Prüfer/Notified Body konsultieren"
    case ContingencyPlans => "Notfallpläne für Systemausfälle erstellen"
    case DisclosureMechanisms => "Klare Offenlegungsmechanismen implementieren"
    case WatermarkContent => "Wasserzeichen für generierte Inhalte nutzen"
    case UpdateTermsOfUse => "Nutzungsbedingungen aktualisieren"
    case TrainStaff => "Schulung für Mitarbeiter durchführen"
    case VoluntaryCodesOfConduct => "Freiwillige Verhaltenskodizes berücksichtigen"
    case ResponsibleAiPractices => "Best Practices für verantwortungsvolle KI befolgen"
    case ReviewOnChange => "Regelmäßige Überprüfung bei Änderungen am System"
  }

  /** The eleven duties of a high-risk system (Articles 9 to 15, 43, 48, 49 and 72). */
  function HighRiskObligations(): (r: seq<Obligation>)
    ensures |r| == 11
  {
    [RiskManagementSystem, DataGovernance, TechnicalDocumentation, AutomaticLogging,
     TransparencyToDeployers, HumanOversight, AccuracyRobustnessCybersecurity,
     ConformityAssessment, CeMarking, EuDatabaseRegistration, PostMarketMonitoring]
  }

  /** The seven recommendations for a high-risk system. */
  function HighRiskRecommendations(): (r: seq<Recommendation>)
    ensures |r| == 7
  {
    [StartConformityEarly, QualityManagementSystem, AppointComplianceOfficer, KeepDocumentationCurrent,
     TrainAllParticipants, ConsultNotifiedBody, ContingencyPlans]
  }

  /** The three consequences of a prohibited practice. */
  function UnacceptableObligations(): (r: seq<Obligation>)
    ensures |r| == 3
  {
    [NotOperableInEu, ImmediateCessation, PenaltyWarning]
  }

  /** The three recommendations for a system with a prohibited practice. */
  function UnacceptableRecommendations(): (r: seq<Recommendation>)
    ensures |r| == 3
  {
    [SeekLegalAdvice, RedesignSystem, ReviewCompliantAlternatives]
  }

  /** The four disclosure duties of a limited-risk system. */
  function LimitedObligations(): (r: seq<Obligation>)
    ensures |r| == 4
  {
    [InformUsers, LabelGeneratedContent, MachineReadableMarking, DeepfakeDisclosure]
  }

  /** The four recommendations for a limited-risk system. */
  function LimitedRecommendations(): (r: seq<Recommendation>)
    ensures |r| == 4
  {
    [DisclosureMechanisms, WatermarkContent, UpdateTermsOfUse, TrainStaff]
  }

  /** The single statement made for a minimal-risk system. */
  function MinimalObligations(): (r: seq<Obligation>)
    ensures |r| == 1
  {
    [NoMandatoryRequirements]
  }

  /** The three voluntary recommendations for a minimal-risk system. */
  function MinimalRecommendations(): (r: seq<Recommendation>)
    ensures |r| == 3
  {
    [VoluntaryCodesOfConduct, ResponsibleAiPractices, ReviewOnChange]
  }

  // ---------------------------------------------------------------------------
  // Colours
  // ---------------------------------------------------------------------------

  /**
   * The colour shown for each tier. The source's dictionary has a grey fallback for
   * a value outside the four tiers; the closed datatype leaves no such value.
   */
  function RiskColor(level: RiskLevel): (c: string)
    ensures |c| == 7 && c[0] == '#'
    ensures forall i :: 1 <= i < 7 ==> c[i] in "0123456789ABCDEF"
    ensures c != "#808080"
  {
    match level
    case Unacceptable => "#FF0000"
    case High => "#FFA500"
    case Limited => "#FFD700"
    case Minimal => "#00FF00"
  }

  /** The four tiers are shown in four different colours. */
  lemma RiskColorDistinct(a: RiskLevel, b: RiskLevel)
    requires a != b
    ensures RiskColor(a) != RiskColor(b)
  {
  }
}
