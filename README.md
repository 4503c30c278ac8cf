# Predictive drug reaction: a verified model of the prediction engine

This project models, in Dafny, the simulated pharmacogenetic engine of the
"predictive drug reaction" application and proves what its rules guarantee.

- **The knowledge base.** Ten genetic variants, ten diseases and fifteen
  drugs, plus the side-effect catalogue for each response type
  (`knowledge_base.dfy`).
- **The interaction rules.** Drug–gene warnings, the dosage advisor and the
  contraindication statements (`interaction_rules.dfy`). Each rule is written
  twice: as a reference function on a resolved variant and drug, and as the
  imperative routine the engine runs. The routine pushes into a list, or
  overwrites fields of a recommendation, and is proved equal to the reference.
- **The response classifier `predictDrugResponse`** (`prediction.dfy`). It
  classifies the response, picks the confidence band, samples side effects,
  ranks alternatives and writes the narrative. The engine keeps its
  prediction history in a class whose field the methods reassign.
- **The `DrugGeneWarning` banner rules** (`drug_gene_warning.dfy`). A
  single-banner classifier with its own priority order and a case-insensitive
  statin test.
- **The `AIServiceFactory` state machine** (`ai_service_factory.dfy`). A
  service registry and the current service type, with a guarded switch to
  the API service.

Every random draw, generated id and clock reading becomes a parameter.
`Draws` carries the results of `Math.floor(Math.random() * k)`, and
`ValidDraws` says which ranges they lie in. The shuffled order of a catalogue
is an arbitrary permutation. `FreshIds` carries the ids, and `now` the time.
Every branch and bound can therefore be stated exactly, for every possible
draw.

The code is followed where it departs from the obvious reading:

- The warfarin dosage rule overwrites the poor-metaboliser dose
  (`requested * 0.4`); it does not compound with it.
- The engine's statin test is case-sensitive.
- The banner's statin test lower-cases the drug name first.

## Model

| member | source | states |
|---|---|---|
| KnowledgeBase.SideEffects | src/utils/mockData.ts:132-151 | each response type has 3 to 5 distinct catalogue entries |
| KnowledgeBase.Find | src/utils/mockData.ts:156-157 | `find` by key: a found element has the key looked up |
| KnowledgeBase.FindIsFirstMatch | src/utils/mockData.ts:156-157 | `find` returns the first element with the key; it returns nothing exactly when no element has the key |
| KnowledgeBase.FindAt | src/utils/mockData.ts:156-157 | an element whose key no earlier element has is what `find` returns for that key |
| KnowledgeBase.FindVariant | src/utils/mockData.ts:157 | a resolved variant has the id looked up |
| KnowledgeBase.FindDrug | src/utils/mockData.ts:156 | a resolved drug has the id looked up |
| KnowledgeBase.FindDisease | src/utils/mockData.ts:281 | a resolved disease has the id looked up |
| KnowledgeBase.FindVariantInTable | src/utils/mockData.ts:85-96 | a variant id resolves exactly when the variant table has an entry with it, and then to a table entry |
| KnowledgeBase.FindDrugInTable | src/utils/mockData.ts:113-129 | a drug id resolves exactly when the drug table has an entry with it, and then to a table entry |
| KnowledgeBase.FindDiseaseInTable | src/utils/mockData.ts:99-110 | a disease id resolves exactly when the disease table has an entry with it, and then to a table entry |
| KnowledgeBase.VariantIdsAreNonEmpty | src/utils/mockData.ts:85-96 | no variant in the table has the empty id |
| KnowledgeBase.DrugIdsAreNonEmpty | src/utils/mockData.ts:113-129 | no drug in the table has the empty id |
| Strings.Contains | src/utils/mockData.ts:181 | `includes` holds exactly when the needle occurs at some position of the string |
| Strings.ToLower | src/components/DrugGeneWarning.tsx:31 | lower-casing keeps the length and maps each character through the ASCII letter mapping |
| InteractionRules.SensitivityWarningsProperties | src/utils/mockData.ts:179-200 | at most one sensitivity warning; there is one exactly when the statin, warfarin or thiopurine rule matches; it is critical exactly for thiopurine toxicity and never mild |
| InteractionRules.WarningsOfProperties | src/utils/mockData.ts:161-200 | at most three warnings; the contraindication warning is present exactly when the drug is contraindicated, and the reduced-metabolism warning exactly for a poor metaboliser of the drug; a critical warning appears exactly when the drug is contraindicated or thiopurine-toxic; none is mild |
| InteractionRules.GetWarnings | src/utils/mockData.ts:154-203 | the pushed list equals the reference warnings: empty for an unresolved drug or variant, otherwise one entry per firing rule in rule order |
| InteractionRules.DosageOfProperties | src/utils/mockData.ts:212-235 | a recommendation exists exactly when the dose is non-zero and the poor-metaboliser or the var4 + Warfarin rule fires; it keeps the requested dose as standard, uses "mg", has a non-empty reason, recommends 0.4 × the dose under the warfarin rule (overriding) and 0.5 × otherwise, and lowers every positive dose |
| InteractionRules.GetDosageRecommendation | src/utils/mockData.ts:206-236 | the routine that overwrites fields equals the reference advice: none when unresolved or when the dose did not change |
| InteractionRules.ContraindicationsOfProperties | src/utils/mockData.ts:269-271 | at most one statement, present exactly when the drug is contraindicated for the variant |
| InteractionRules.GetContraindications | src/utils/mockData.ts:262-274 | the pushed list equals the reference statements, empty when unresolved |
| InteractionRules.NothingForUnknownIds | src/utils/mockData.ts:156-159 | a drug or variant id that is not in its table gives no warnings, no dosage advice and no contraindications |
| Prediction.DrugCountIsTableSize | src/utils/mockData.ts:113-129 | the drug table has 15 entries, the most alternatives that can be drawn for |
| Prediction.OtherTreatments | src/utils/mockData.ts:247-250 | the filter is no longer than the table and never keeps the current drug |
| Prediction.AlternativesIn | src/utils/mockData.ts:245-258 | no more alternatives than table drugs, and none is the current drug |
| Prediction.OtherTreatmentsProperties | src/utils/mockData.ts:247-250 | the filter keeps exactly the table drugs that treat the disease and are not the current drug, as a subsequence of the table |
| Prediction.AlternativesAreFilteredDrugs | src/utils/mockData.ts:251-256 | the i-th alternative is the i-th filtered drug with confidence 70 + its draw |
| Prediction.AlternativesSound | src/utils/mockData.ts:245-258 | no alternative is the current drug; each has confidence in [70, 99] and is a table drug treating the disease |
| Prediction.AlternativesComplete | src/utils/mockData.ts:247-250 | every other table drug that treats the disease is offered, and the offers follow table order |
| Prediction.ShuffleRestriction | src/utils/mockData.ts:328-329 | the shuffled order of any catalogue is a permutation of its indices |
| Prediction.SampleSideEffects | src/utils/mockData.ts:326-330 | countDraw + 1 side effects, each from the catalogue of the response |
| Prediction.SampleSideEffectsProperties | src/utils/mockData.ts:326-330 | countDraw + 1 side effects (so 1 to 3), all distinct, all from the catalogue of the chosen response |
| Prediction.ResponseForProperties | src/utils/mockData.ts:294-312 | contraindicated ⇒ negative; not indicated ⇒ neutral; not contraindicated and not a poor metaboliser ⇒ never negative; a poor metaboliser can get each of the three responses; anyone else can get neutral and positive |
| Prediction.ConfidenceForProperties | src/utils/mockData.ts:314-324 | confidence is in [65, 99] and in its case's band: [95, 99], [70, 79], [80, 89], or for a poor metaboliser [65, 74] if positive and [85, 94] otherwise |
| Prediction.MetabolismNoteProperties | src/utils/mockData.ts:337-343 | the metabolism note is non-empty exactly for a poor or intermediate metaboliser of a drug processed by the variant's pathway |
| Prediction.ClassifyResponse | src/utils/mockData.ts:294-312 | the reassigning routine computes the reference response |
| Prediction.ScoreConfidence | src/utils/mockData.ts:314-324 | the reassigning routine computes the reference confidence |
| Prediction.DescribeMetabolism | src/utils/mockData.ts:337-343 | the reassigning routine computes the reference metabolism note |
| Prediction.DescribeResponse | src/utils/mockData.ts:346-353 | the reassigning routine computes the reference narrative, whose clauses `DetailsClauses` and `DetailsMentions` fix |
| Prediction.PositiveDetailsDiffer | src/utils/mockData.ts:347-353 | for the same disease and drug the positive narrative differs from the negative and the neutral one, whatever the flags |
| Prediction.NegativeDetailsDiffer | src/utils/mockData.ts:349-353 | for the same disease and drug the negative narrative differs from the neutral one, whatever the flags |
| Prediction.DetailsClauses | src/utils/mockData.ts:348-352 | the positive narrative ignores the contraindications and grows by the adjusted-dosing clause when a recommendation exists; the negative one ignores the dosage and grows by the contraindication clause when some are listed; the neutral one depends on neither |
| Prediction.DetailsMentions | src/utils/mockData.ts:348-350 | a positive narrative is the adjusted-dosing template exactly when a recommendation exists; a negative one is the contraindication template exactly when contraindications are listed |
| Prediction.PredictionNarrative | src/utils/mockData.ts:346-353 | a successful record's positive narrative mentions adjusted dosing exactly when it carries a dosage recommendation; its negative narrative mentions genetic contraindications exactly when it lists some, that is exactly when the drug is contraindicated for the variant |
| Prediction.PredictionFor | src/utils/mockData.ts:277-380 | the prediction fails exactly when an id does not resolve, with the invalid-id message; a record carries the requested drug id and the patient's name |
| Prediction.ResolvesExactlyOnKnownIds | src/utils/mockData.ts:279-283 | the variant, drug and disease ids all resolve exactly when each is in its table |
| Prediction.PredictionFailsExactlyOnUnknownIds | src/utils/mockData.ts:283-285 | a prediction fails exactly when an id does not resolve, and then with "Invalid variant, drug, or disease ID" |
| Prediction.PredictionResponseCases | src/utils/mockData.ts:287-312 | a successful record names the resolved drug and disease; its response is negative if contraindicated, neutral if not indicated, and never negative for anyone but a poor metaboliser |
| Prediction.PredictionConfidenceBands | src/utils/mockData.ts:314-324 | a successful record's confidence is in [65, 99] and in the band of its case |
| Prediction.PredictionSideEffectsAndAlternatives | src/utils/mockData.ts:326-367 | a successful record has 1 to 3 distinct side effects from its response's catalogue; its alternatives are other table drugs treating the disease, each with confidence in [70, 99] |
| Prediction.PredictionRules | src/utils/mockData.ts:332-343 | a successful record carries the rule outputs for the resolved pair; contraindications are listed exactly when contraindicated; a critical warning is given exactly when contraindicated or thiopurine-toxic; the metabolism note is set exactly for a poor or intermediate metaboliser of the drug |
| Prediction.TpmtLookup | src/utils/mockData.ts:94 | "var9" resolves to the TPMT*3A entry |
| Prediction.AzathioprineLookup | src/utils/mockData.ts:126 | "drug13" resolves to Azathioprine, contraindicated for var9 |
| Prediction.ThiopurineScenario | src/utils/mockData.ts:291-324 | TPMT*3A with Azathioprine: success, a critical warning, a contraindication statement, a negative response with confidence in [95, 99] |
| Prediction.PoorMetabolizerDoseScenario | src/utils/mockData.ts:218-222 | a CYP2C19*2 patient asking for 500 mg of Sertraline is recommended 250 mg, with a reason |
| Prediction.PredictionEngine.constructor | src/utils/mockData.ts:239 | the history starts empty |
| Prediction.PredictionEngine.PredictDrugResponse | src/utils/mockData.ts:277-380 | the result is the reference prediction; a success puts exactly that record at the front of the history, and a failure leaves the history unchanged |
| Prediction.PredictionEngine.GetPredictionHistory | src/utils/mockData.ts:383-385 | returns the history, most recent first |
| Prediction.PredictionEngine.ClearPredictionHistory | src/utils/mockData.ts:388-390 | the history is empty afterwards |
| DrugGeneWarningRules.HasSensitivityIssue | src/components/DrugGeneWarning.tsx:30-33 | the sensitivity test only fires for a statin, warfarin or thiopurine risk class |
| DrugGeneWarningRules.BannerFor | src/components/DrugGeneWarning.tsx:24-59 | a banner names the drug and the variant and is never mild |
| DrugGeneWarningRules.DrugGeneWarning | src/components/DrugGeneWarning.tsx:16-21 | a banner is only shown for two non-empty ids that both resolve |
| DrugGeneWarningRules.NoBannerForUnresolvedIds | src/components/DrugGeneWarning.tsx:16-21 | no banner for an empty id or an id missing from its table |
| DrugGeneWarningRules.BannerForProperties | src/components/DrugGeneWarning.tsx:24-59 | a banner is shown exactly when the contraindication, poor-metabolism or sensitivity rule fires; it is critical exactly when contraindicated and moderate otherwise, never mild; the title follows the priority contraindication > metabolism > sensitivity and is never the empty default |
| DrugGeneWarningRules.IntermediateIsNoMetabolismIssue | src/components/DrugGeneWarning.tsx:27 | an intermediate metaboliser never gets the poor-metabolism banner |
| DrugGeneWarningRules.LowerKeepsLowerNeedle | src/components/DrugGeneWarning.tsx:31 | lower-casing a string keeps every occurrence of a lower-case needle |
| DrugGeneWarningRules.StatinRuleIsWeakerThanBanner | src/components/DrugGeneWarning.tsx:31 | every drug the engine's case-sensitive statin rule flags, the banner's case-insensitive rule flags too |
| DrugGeneWarningRules.StatinRulesDisagreeOnCase | src/components/DrugGeneWarning.tsx:31 | a drug named "Statin" is flagged by the banner but gets no sensitivity warning from the engine |
| DrugGeneWarningRules.WarningsImplyBanner | src/components/DrugGeneWarning.tsx:16-35 | whenever the engine emits any warning for a patient and a drug, the banner is shown for that variant and drug |
| ServiceFactory.AIServiceFactory.constructor | src/services/AIServiceFactory.ts:13-19 | only the mock service is registered, the current type is mock, and the registry invariant holds |
| ServiceFactory.AIServiceFactory.GetService | src/services/AIServiceFactory.ts:31-37 | the current type's service, or the error naming the type; under the invariant it never fails |
| ServiceFactory.AIServiceFactory.ConfigureAPIService | src/services/AIServiceFactory.ts:42-44 | installs or replaces only the API entry, keeps the current type and the invariant |
| ServiceFactory.AIServiceFactory.UseAPIService | src/services/AIServiceFactory.ts:49-54 | switches to the API service when it is registered; otherwise fails with "API service not configured. Call configureAPIService first." and changes nothing |
| ServiceFactory.AIServiceFactory.UseMockService | src/services/AIServiceFactory.ts:59-61 | the current type becomes mock, and the registry is unchanged |
| ServiceFactory.AIServiceFactory.GetCurrentServiceType | src/services/AIServiceFactory.ts:66-68 | returns the current type |
| ServiceFactory.AIServiceFactory.IsAPIServiceAvailable | src/services/AIServiceFactory.ts:73-77 | false without an API service; otherwise the API service's own availability answer |
| ServiceFactory.ConfigureThenSwitch | src/services/AIServiceFactory.ts:42-54 | switching before configuring fails; after configuring, the switch succeeds and the API service is served |

## Left out

- The React pages and components are presentation and navigation, and are not part of this model. So are the JSX half of `DrugGeneWarning.tsx`, the hooks, the transitions helpers, the mock and API service classes, the Supabase function and the model-conversion script.
- `Math.random()`, `generateId()` and `new Date()` are not modelled: the model takes what they return as parameters. Nothing is said about how the draws are distributed, or about the format of the id strings.
- The random-comparator sort is modelled only by its outcome: some permutation of the catalogue. Which permutations a real sort produces, and how often, is not modelled.
- Dosages are exact `real` values, not IEEE doubles. A non-finite dose is not modelled; with `Infinity` or `NaN` the source's "changed" test would behave differently.
- Strings.ToLower: maps only ASCII letters, while the source's `toLowerCase` applies full Unicode case mapping. Every drug name in the table is ASCII.
- Timestamps are integers rather than `Date` objects.
- The message, explanation, title and description of warnings and banners are not stored as strings. They are rendered from a template tag and the interpolated names (`Message`, `Explanation`, `Title`, `Description`), and their wording is not reasoned about.
- The module-level history variable becomes the `history` field of a `PredictionEngine` object.
- The singleton `getInstance` and the exported factory instance are not modelled: the factory is an ordinary object.
- `isAPIServiceAvailable` is asynchronous and asks the API service over the network. The answer that service would give is a parameter.
- One might expect the two dosage reductions to compound (0.5 × 0.4). The code overwrites instead: the warfarin rule sets `requested * 0.4` after the poor-metaboliser rule. The model follows the code. No variant in the table is both a poor metaboliser and var4, so the two readings agree on the table.
- A thiopurine risk leads the engine to a critical warning, but the banner to a moderate one. Azathioprine is contraindicated for TPMT*3A, so both show critical for the table's data. The model states each behaviour separately.
