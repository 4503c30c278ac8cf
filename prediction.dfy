/** The response classifier of the engine (`predictDrugResponse`), the
    alternatives ranker (`getAlternatives`) and the in-process prediction
    history. Every value the engine draws from `Math.random()` or
    `generateId()`, and the clock, is a parameter. */
module Prediction {
  import opened Wrappers
  import opened KnowledgeBase
  import opened InteractionRules

  datatype PredictionRequest = PredictionRequest(
    patientId: Option<string>,
    patient: Patient,
    drugId: string,
    dosage: real,
    timestamp: Option<int>)

  datatype AlternativeDrug = AlternativeDrug(
    drugId: string,
    drugName: string,
    confidence: int,
    description: string)

  datatype PredictionResponse = PredictionResponse(
    id: string,
    patientId: string,
    patientName: string,
    drugId: string,
    drugName: string,
    diseaseId: string,
    diseaseName: string,
    response: ResponseType,
    confidence: int,
    sideEffects: seq<string>,
    alternatives: seq<AlternativeDrug>,
    timestamp: int,
    details: string,
    dosageRecommendation: Option<DosageRecommendation>,
    warnings: seq<Warning>,
    metabolismImpact: string,
    contraindications: seq<string>)

  /** The values one prediction takes from the random source:
      `responseDraw` and `confidenceDraw` are whole numbers drawn below 10,
      `sideEffectCountDraw` one drawn below 3,
      `shuffle` is the order the random-comparator sort leaves the largest
      catalogue in (a permutation of its indices; a smaller catalogue is left
      in the order of its own indices within it), and `alternativeDraws[i]` is
      the whole number below 30 drawn for the i-th alternative. */
  datatype Draws = Draws(
    responseDraw: int,
    confidenceDraw: int,
    sideEffectCountDraw: int,
    shuffle: seq<nat>,
    alternativeDraws: seq<int>)

  /** The two ids `generateId()` supplies: the prediction's, and the patient's
      when the request carries none. */
  datatype FreshIds = FreshIds(predictionId: string, patientId: string)

  /** `p` lists each of 0, ..., n-1 exactly once. */
  predicate IsPermutation(p: seq<nat>, n: nat)
  {
    && |p| == n
    && (forall i :: 0 <= i < n ==> p[i] < n)
    && Distinct(p)
  }

  /** The number of drugs in the table; `getAlternatives` draws at most this many confidences. */
  const DrugCount: nat := 15

  lemma DrugCountIsTableSize()
    ensures |Drugs| == DrugCount
  {
  }

  /** The ranges the random source confines the draws to. */
  predicate ValidDraws(r: Draws)
  {
    && 0 <= r.responseDraw < 10
    && 0 <= r.confidenceDraw < 10
    && 0 <= r.sideEffectCountDraw < 3
    && IsPermutation(r.shuffle, MaxCatalogueSize)
    && |r.alternativeDraws| >= DrugCount
    && (forall i :: 0 <= i < |r.alternativeDraws| ==> 0 <= r.alternativeDraws[i] < 30)
  }

  // ---------------------------------------------------------------------
  // Alternatives

  /** `a` is `b` with some elements left out, the rest kept in order. */
  predicate IsSubsequence<T(==)>(a: seq<T>, b: seq<T>)
    decreases |b|
  {
    if a == [] then true
    else if b == [] then false
    else (a[0] == b[0] && IsSubsequence(a[1..], b[1..])) || IsSubsequence(a, b[1..])
  }

  /** The `filter` step of `getAlternatives`: the drugs that treat `diseaseId`
      other than `currentDrugId`. */
  function OtherTreatments(drugs: seq<Drug>, diseaseId: string, currentDrugId: string): (r: seq<Drug>)
    ensures |r| <= |drugs|
    ensures forall k :: 0 <= k < |r| ==> r[k].id != currentDrugId
  {
    if drugs == [] then []
    else
      (if diseaseId in drugs[0].relatedDiseases && drugs[0].id != currentDrugId then [drugs[0]] else [])
      + OtherTreatments(drugs[1..], diseaseId, currentDrugId)
  }

  /** The filter keeps exactly the drugs that treat the disease and are not the
      current one, in the order of the table. */
  lemma {:induction false} OtherTreatmentsProperties(drugs: seq<Drug>, diseaseId: string, currentDrugId: string)
    ensures |OtherTreatments(drugs, diseaseId, currentDrugId)| <= |drugs|
    ensures forall d :: d in OtherTreatments(drugs, diseaseId, currentDrugId) <==>
              d in drugs && diseaseId in d.relatedDiseases && d.id != currentDrugId
    ensures IsSubsequence(OtherTreatments(drugs, diseaseId, currentDrugId), drugs)
  {
    if drugs != [] {
      var rest := OtherTreatments(drugs[1..], diseaseId, currentDrugId);
      OtherTreatmentsProperties(drugs[1..], diseaseId, currentDrugId);
      assert drugs == [drugs[0]] + drugs[1..];
      if diseaseId in drugs[0].relatedDiseases && drugs[0].id != currentDrugId {
        assert OtherTreatments(drugs, diseaseId, currentDrugId) == [drugs[0]] + rest;
        assert ([drugs[0]] + rest)[1..] == rest;
      } else {
        assert OtherTreatments(drugs, diseaseId, currentDrugId) == rest;
      }
    }
  }

  /** `getAlternatives` over the drug table `drugs`: the filtered drugs, each
      with confidence `70 + draws[i]`. */
  function AlternativesIn(drugs: seq<Drug>, diseaseId: string, currentDrugId: string, draws: seq<int>)
    : (r: seq<AlternativeDrug>)
    requires |draws| >= |drugs|
    ensures |r| <= |drugs|
    ensures forall i :: 0 <= i < |r| ==> r[i].drugId != currentDrugId
  {
    var c := OtherTreatments(drugs, diseaseId, currentDrugId);
    OtherTreatmentsProperties(drugs, diseaseId, currentDrugId);
    seq(|c|, i requires 0 <= i < |c| => AlternativeDrug(c[i].id, c[i].name, draws[i] + 70, c[i].description))
  }

  /** The alternatives are the filtered drugs, in the filter's order, each
      with confidence `70 + draws[i]`. */
  lemma AlternativesAreFilteredDrugs(drugs: seq<Drug>, diseaseId: string, currentDrugId: string, draws: seq<int>)
    requires |draws| >= |drugs|
    ensures var alts := AlternativesIn(drugs, diseaseId, currentDrugId, draws);
            var c := OtherTreatments(drugs, diseaseId, currentDrugId);
            && |c| <= |drugs|
            && |alts| == |c|
            && forall i :: 0 <= i < |alts| ==>
                 alts[i] == AlternativeDrug(c[i].id, c[i].name, draws[i] + 70, c[i].description)
  {
    OtherTreatmentsProperties(drugs, diseaseId, currentDrugId);
  }

  /** Every alternative is another drug of the table that treats the disease,
      with a confidence in [70, 99]. */
  lemma AlternativesSound(drugs: seq<Drug>, diseaseId: string, currentDrugId: string, draws: seq<int>)
    requires |draws| >= |drugs|
    requires forall i :: 0 <= i < |draws| ==> 0 <= draws[i] < 30
    ensures forall a :: a in AlternativesIn(drugs, diseaseId, currentDrugId, draws) ==>
              && a.drugId != currentDrugId
              && 70 <= a.confidence <= 99
              && exists d :: d in drugs && d.id == a.drugId && diseaseId in d.relatedDiseases
  {
    var alts := AlternativesIn(drugs, diseaseId, currentDrugId, draws);
    var c := OtherTreatments(drugs, diseaseId, currentDrugId);
    OtherTreatmentsProperties(drugs, diseaseId, currentDrugId);
    AlternativesAreFilteredDrugs(drugs, diseaseId, currentDrugId, draws);
    forall a | a in alts
      ensures && a.drugId != currentDrugId
              && 70 <= a.confidence <= 99
              && exists d :: d in drugs && d.id == a.drugId && diseaseId in d.relatedDiseases
    {
      var i :| 0 <= i < |alts| && alts[i] == a;
      assert c[i] in c;
    }
  }

  /** Every other drug of the table that treats the disease is offered, and
      the offers follow the table's order. */
  lemma AlternativesComplete(drugs: seq<Drug>, diseaseId: string, currentDrugId: string, draws: seq<int>)
    requires |draws| >= |drugs|
    ensures forall d :: d in drugs && diseaseId in d.relatedDiseases && d.id != currentDrugId ==>
              exists a :: a in AlternativesIn(drugs, diseaseId, currentDrugId, draws) && a.drugId == d.id
    ensures IsSubsequence(OtherTreatments(drugs, diseaseId, currentDrugId), drugs)
  {
    var alts := AlternativesIn(drugs, diseaseId, currentDrugId, draws);
    var c := OtherTreatments(drugs, diseaseId, currentDrugId);
    OtherTreatmentsProperties(drugs, diseaseId, currentDrugId);
    AlternativesAreFilteredDrugs(drugs, diseaseId, currentDrugId, draws);
    forall d | d in drugs && diseaseId in d.relatedDiseases && d.id != currentDrugId
      ensures exists a :: a in alts && a.drugId == d.id
    {
      var i :| 0 <= i < |c| && c[i] == d;
      assert alts[i] in alts;
    }
  }

  // ---------------------------------------------------------------------
  // Side effects

  /** The entries of `p` below `n`, in their order in `p`. */
  function Below(p: seq<nat>, n: nat): seq<nat>
  {
    if p == [] then []
    else (if p[0] < n then [p[0]] else []) + Below(p[1..], n)
  }

  predicate Distinct<T(==)>(s: seq<T>)
  {
    forall i, j :: 0 <= i < j < |s| ==> s[i] != s[j]
  }

  lemma {:induction false} BelowProperties(p: seq<nat>, n: nat)
    ensures forall x :: x in Below(p, n) <==> x in p && x < n
    ensures Distinct(p) ==> Distinct(Below(p, n))
  {
    if p != [] {
      BelowProperties(p[1..], n);
      assert p == [p[0]] + p[1..];
      if Distinct(p) {
        assert Distinct(p[1..]);
        assert p[0] !in p[1..];
      }
    }
  }

  /** The set of the elements of `s`. */
  function Elements(s: seq<nat>): set<nat>
  {
    if s == [] then {} else {s[0]} + Elements(s[1..])
  }

  /** The naturals below `n`. */
  function Range(n: nat): set<nat>
  {
    if n == 0 then {} else Range(n - 1) + {n - 1}
  }

  lemma {:induction false} ElementsProperties(s: seq<nat>)
    ensures forall x :: x in Elements(s) <==> x in s
    ensures Distinct(s) ==> |Elements(s)| == |s|
  {
    if s != [] {
      ElementsProperties(s[1..]);
      assert s == [s[0]] + s[1..];
      if Distinct(s) {
        assert Distinct(s[1..]);
        assert s[0] !in s[1..];
      }
    }
  }

  lemma {:induction false} RangeProperties(n: nat)
    ensures forall x: nat :: x in Range(n) <==> x < n
    ensures |Range(n)| == n
  {
    if n > 0 {
      RangeProperties(n - 1);
      assert n - 1 !in Range(n - 1);
    }
  }

  /** A permutation of 0, ..., m-1 lists every index below `n <= m`, so
      restricting it to them gives a permutation of 0, ..., n-1. */
  lemma ShuffleRestriction(p: seq<nat>, m: nat, n: nat)
    requires IsPermutation(p, m) && n <= m
    ensures IsPermutation(Below(p, n), n)
  {
    var o := Below(p, n);
    BelowProperties(p, n);
    ElementsProperties(p);
    ElementsProperties(o);
    RangeProperties(m);
    RangeProperties(n);
    var sp, full := Elements(p), Range(m);
    assert sp <= full;
    assert full * sp == sp;
    assert |full - sp| == 0;
    assert full - sp == {};
    assert forall x :: x in full ==> x in sp by {
      forall x | x in full ensures x in sp {
        assert x !in full - sp;
      }
    }
    assert Elements(o) == Range(n);
    forall i | 0 <= i < |o| ensures o[i] < |o| {
      assert o[i] in o;
    }
  }

  /** The reported side effects: the catalogue of the response, shuffled,
      cut to its first `countDraw + 1` entries. */
  function SampleSideEffects(response: ResponseType, shuffle: seq<nat>, countDraw: int): (r: seq<string>)
    requires IsPermutation(shuffle, MaxCatalogueSize) && 0 <= countDraw < 3
    ensures |r| == countDraw + 1
    ensures forall i :: 0 <= i < |r| ==> r[i] in SideEffects(response)
  {
    var catalogue := SideEffects(response);
    var order := Below(shuffle, |catalogue|);
    ShuffleRestriction(shuffle, MaxCatalogueSize, |catalogue|);
    seq(countDraw + 1, i requires 0 <= i < countDraw + 1 => catalogue[order[i]])
  }

  /** One to three side effects are reported, as many as the count draw says,
      all different and all from the catalogue of the response type. */
  lemma SampleSideEffectsProperties(response: ResponseType, shuffle: seq<nat>, countDraw: int)
    requires IsPermutation(shuffle, MaxCatalogueSize) && 0 <= countDraw < 3
    ensures |SampleSideEffects(response, shuffle, countDraw)| == countDraw + 1
    ensures Distinct(SampleSideEffects(response, shuffle, countDraw))
    ensures forall e :: e in SampleSideEffects(response, shuffle, countDraw) ==> e in SideEffects(response)
  {
    var s := SampleSideEffects(response, shuffle, countDraw);
    var catalogue := SideEffects(response);
    var order := Below(shuffle, |catalogue|);
    ShuffleRestriction(shuffle, MaxCatalogueSize, |catalogue|);
    forall e | e in s ensures e in catalogue {
      var i :| 0 <= i < |s| && s[i] == e;
      assert catalogue[order[i]] in catalogue;
    }
  }

  // ---------------------------------------------------------------------
  // Classification

  /** The mapping of the weighted random index to a response. */
  function ResponseFromIndex(index: int): ResponseType
  {
    if index < 3 then Negative else if index < 7 then Neutral else Positive
  }

  /** The response: forced by a contraindication or a drug that does not treat
      the disease, otherwise drawn from 0..9 for a poor metaboliser and from
      5..14 for anyone else. */
  function ResponseFor(v: Variant, d: Drug, dis: Disease, draw: int): ResponseType
  {
    if IsContraindicated(v, d) then Negative
    else if dis.id !in d.relatedDiseases then Neutral
    else ResponseFromIndex(if IsPoorMetabolizer(v, d) then draw else draw + 5)
  }

  /** A contraindicated drug is always predicted negative, a drug that does not
      treat the disease always neutral, and an indicated drug for anyone but a
      poor metaboliser never negative. For a poor metaboliser every response
      can be drawn; for anyone else, both neutral and positive can. */
  lemma ResponseForProperties(v: Variant, d: Drug, dis: Disease, draw: int)
    requires 0 <= draw < 10
    ensures IsContraindicated(v, d) ==> ResponseFor(v, d, dis, draw) == Negative
    ensures !IsContraindicated(v, d) && dis.id !in d.relatedDiseases ==> ResponseFor(v, d, dis, draw) == Neutral
    ensures !IsContraindicated(v, d) && !IsPoorMetabolizer(v, d) ==> ResponseFor(v, d, dis, draw) != Negative
    ensures !IsContraindicated(v, d) && dis.id in d.relatedDiseases && IsPoorMetabolizer(v, d) ==>
              && ResponseFor(v, d, dis, 0) == Negative
              && ResponseFor(v, d, dis, 3) == Neutral
              && ResponseFor(v, d, dis, 7) == Positive
    ensures !IsContraindicated(v, d) && dis.id in d.relatedDiseases && !IsPoorMetabolizer(v, d) ==>
              ResponseFor(v, d, dis, 0) == Neutral && ResponseFor(v, d, dis, 9) == Positive
  {
  }

  function Min(a: int, b: int): int
  {
    if a < b then a else b
  }

  /** The confidence: a base of 95, 70, 65 or 85 (poor metaboliser, positive
      or not) or 80, plus the draw, capped at 99. */
  function ConfidenceFor(v: Variant, d: Drug, dis: Disease, response: ResponseType, draw: int): int
  {
    var base :=
      if IsContraindicated(v, d) then 95
      else if dis.id !in d.relatedDiseases then 70
      else if IsPoorMetabolizer(v, d) then (if response == Positive then 65 else 85)
      else 80;
    Min(base + draw, 99)
  }

  /** Confidence is in [65, 99] in every case, and in the band of its case:
      [95, 99] contraindicated, [70, 79] unrelated, [80, 89] indicated for a
      normal metaboliser, [65, 74] or [85, 94] indicated for a poor one. */
  lemma ConfidenceForProperties(v: Variant, d: Drug, dis: Disease, response: ResponseType, draw: int)
    requires 0 <= draw < 10
    ensures var c := ConfidenceFor(v, d, dis, response, draw);
            && 65 <= c <= 99
            && (IsContraindicated(v, d) ==> 95 <= c <= 99)
            && (!IsContraindicated(v, d) && dis.id !in d.relatedDiseases ==> 70 <= c <= 79)
            && (!IsContraindicated(v, d) && dis.id in d.relatedDiseases && !IsPoorMetabolizer(v, d) ==> 80 <= c <= 89)
            && (!IsContraindicated(v, d) && dis.id in d.relatedDiseases && IsPoorMetabolizer(v, d) ==>
                  if response == Positive then 65 <= c <= 74 else 85 <= c <= 94)
  {
  }

  /** The metabolism narrative: set only for a poor or intermediate metaboliser
      of a drug processed by the variant's pathway. */
  function MetabolismNote(v: Variant, d: Drug): string
  {
    if v.metabolismImpact == Some(Poor) && v.id in d.metabolizedBy then
      v.name + " causes reduced metabolism of " + d.name
        + ", potentially increasing drug concentration in the bloodstream."
    else if v.metabolismImpact == Some(Intermediate) && v.id in d.metabolizedBy then
      v.name + " may cause slightly reduced metabolism of " + d.name + "."
    else ""
  }

  lemma MetabolismNoteProperties(v: Variant, d: Drug)
    ensures MetabolismNote(v, d) != "" <==>
              (v.metabolismImpact == Some(Poor) || v.metabolismImpact == Some(Intermediate))
              && v.id in d.metabolizedBy
  {
  }

  /** The narrative, per response type. */
  function Details(response: ResponseType, dis: Disease, d: Drug, adjusted: bool, contraindicated: bool): string
  {
    match response
    case Positive =>
      "Patient with " + dis.name + " is predicted to respond well to " + d.name
        + ". Therapeutic effect is expected within standard timeframe"
        + (if adjusted then " with adjusted dosing" else "") + "."
    case Negative =>
      "Patient with " + dis.name + " is predicted to have an adverse reaction to " + d.name
        + ". Consider alternative treatments"
        + (if contraindicated then " due to genetic contraindications" else "") + "."
    case Neutral =>
      "Patient with " + dis.name + " is predicted to have limited response to " + d.name
        + ". May require dosage adjustment or alternative therapy."
  }

  /** The response type picks the template: for the same disease and drug
      the positive narrative differs from the other two, whatever the flags... */
  lemma PositiveDetailsDiffer(dis: Disease, d: Drug, a: bool, c: bool, a': bool, c': bool)
    ensures Details(Positive, dis, d, a, c) != Details(Negative, dis, d, a', c')
    ensures Details(Positive, dis, d, a, c) != Details(Neutral, dis, d, a', c')
  {
    var k := |"Patient with " + dis.name + " is predicted to "|;
    assert Details(Positive, dis, d, a, c)[k] == 'r';
    assert Details(Negative, dis, d, a', c')[k] == 'h';
    assert Details(Neutral, dis, d, a', c')[k] == 'h';
  }

  /** ... and the negative narrative differs from the neutral one. */
  lemma NegativeDetailsDiffer(dis: Disease, d: Drug, a: bool, c: bool, a': bool, c': bool)
    ensures Details(Negative, dis, d, a, c) != Details(Neutral, dis, d, a', c')
  {
    var k := |"Patient with " + dis.name + " is predicted to have "|;
    assert Details(Negative, dis, d, a, c)[k] == 'a';
    assert Details(Neutral, dis, d, a', c')[k] == 'l';
  }

  /** A positive narrative grows by the adjusted-dosing clause exactly when a
      dosage recommendation exists and ignores the contraindications; a
      negative one grows by the contraindication clause exactly when some are
      listed and ignores the dosage; a neutral one depends on neither. */
  lemma DetailsClauses(dis: Disease, d: Drug, a: bool, c: bool)
    ensures Details(Positive, dis, d, a, c) == Details(Positive, dis, d, a, !c)
    ensures |Details(Positive, dis, d, true, c)| == |Details(Positive, dis, d, false, c)| + |" with adjusted dosing"|
    ensures Details(Negative, dis, d, a, c) == Details(Negative, dis, d, !a, c)
    ensures |Details(Negative, dis, d, a, true)| == |Details(Negative, dis, d, a, false)| + |" due to genetic contraindications"|
    ensures Details(Neutral, dis, d, a, c) == Details(Neutral, dis, d, !a, !c)
  {
  }

  /** Which clause a narrative carries: the positive one is the
      adjusted-dosing template exactly when `adjusted` holds, and the negative
      one the contraindication template exactly when `contraindicated` does. */
  lemma DetailsMentions(response: ResponseType, dis: Disease, d: Drug, adjusted: bool, contraindicated: bool)
    ensures response == Positive ==>
              (Details(response, dis, d, adjusted, contraindicated) == Details(Positive, dis, d, true, false) <==> adjusted)
    ensures response == Negative ==>
              (Details(response, dis, d, adjusted, contraindicated) == Details(Negative, dis, d, false, true) <==> contraindicated)
  {
    DetailsClauses(dis, d, adjusted, contraindicated);
    DetailsClauses(dis, d, false, false);
  }

  const InvalidIdError := "Invalid variant, drug, or disease ID"

  /** The request's variant, drug and disease ids all resolve. */
  predicate Resolves(request: PredictionRequest)
  {
    && FindVariant(request.patient.variantId).Some?
    && FindDrug(request.drugId).Some?
    && FindDisease(request.patient.diseaseId).Some?
  }

  /** The prediction record `predictDrugResponse` builds, or its error. */
  function PredictionFor(request: PredictionRequest, draws: Draws, ids: FreshIds, now: int)
    : (r: Result<PredictionResponse, string>)
    requires ValidDraws(draws)
    ensures r.Failure? <==> !Resolves(request)
    ensures r.Failure? ==> r.error == InvalidIdError
    ensures r.Success? ==> r.value.drugId == request.drugId && r.value.patientName == request.patient.name
  {
    if !Resolves(request) then Failure(InvalidIdError)
    else
      var v := FindVariant(request.patient.variantId).value;
      var d := FindDrug(request.drugId).value;
      var dis := FindDisease(request.patient.diseaseId).value;
      var response := ResponseFor(v, d, dis, draws.responseDraw);
      var dosage := Dosage(request.patient, request.drugId, request.dosage);
      var contraindications := Contraindications(request.patient, request.drugId);
      DrugCountIsTableSize();
      Success(PredictionResponse(
        ids.predictionId,
        if request.patientId.Some? && request.patientId.value != "" then request.patientId.value else ids.patientId,
        request.patient.name,
        request.drugId,
        d.name,
        dis.id,
        dis.name,
        response,
        ConfidenceFor(v, d, dis, response, draws.confidenceDraw),
        SampleSideEffects(response, draws.shuffle, draws.sideEffectCountDraw),
        AlternativesIn(Drugs, dis.id, d.id, draws.alternativeDraws),
        if request.timestamp.Some? then request.timestamp.value else now,
        Details(response, dis, d, dosage.Some?, contraindications != []),
        dosage,
        Warnings(request.patient, request.drugId),
        MetabolismNote(v, d),
        contraindications))
  }

  /** The three ids resolve exactly when each is in its table. */
  lemma ResolvesExactlyOnKnownIds(request: PredictionRequest)
    ensures Resolves(request) <==>
              && (exists v :: v in Variants && v.id == request.patient.variantId)
              && (exists d :: d in Drugs && d.id == request.drugId)
              && (exists dis :: dis in Diseases && dis.id == request.patient.diseaseId)
  {
    FindVariantInTable(request.patient.variantId);
    FindDrugInTable(request.drugId);
    FindDiseaseInTable(request.patient.diseaseId);
  }

  /** A prediction fails exactly when one of the three ids does not resolve,
      and then with the lookup error. */
  lemma PredictionFailsExactlyOnUnknownIds(request: PredictionRequest, draws: Draws, ids: FreshIds, now: int)
    requires ValidDraws(draws)
    ensures var r := PredictionFor(request, draws, ids, now);
            && (r.Failure? <==> !Resolves(request))
            && (r.Failure? ==> r.error == InvalidIdError)
  {
  }

  /** The response of a successful prediction, case by case: a
      contraindicated drug is negative, a drug that does not treat the disease
      neutral, and an indicated drug for anyone but a poor metaboliser never
      negative. The record names the resolved drug and disease. */
  lemma PredictionResponseCases(request: PredictionRequest, draws: Draws, ids: FreshIds, now: int)
    requires ValidDraws(draws) && Resolves(request)
    ensures var r := PredictionFor(request, draws, ids, now);
            var v := FindVariant(request.patient.variantId).value;
            var d := FindDrug(request.drugId).value;
            var dis := FindDisease(request.patient.diseaseId).value;
            && r.Success?
            && r.value.drugName == d.name && r.value.diseaseId == dis.id && r.value.diseaseName == dis.name
            && (IsContraindicated(v, d) ==> r.value.response == Negative)
            && (!IsContraindicated(v, d) && dis.id !in d.relatedDiseases ==> r.value.response == Neutral)
            && (!IsContraindicated(v, d) && !IsPoorMetabolizer(v, d) ==> r.value.response != Negative)
  {
    var v := FindVariant(request.patient.variantId).value;
    var d := FindDrug(request.drugId).value;
    var dis := FindDisease(request.patient.diseaseId).value;
    ResponseForProperties(v, d, dis, draws.responseDraw);
  }

  /** The confidence of a successful prediction is in [65, 99], and in the
      band of its case: [95, 99] contraindicated, [70, 79] not indicated,
      [80, 89] indicated for anyone but a poor metaboliser, and for a poor
      metaboliser [65, 74] when positive and [85, 94] otherwise. */
  lemma PredictionConfidenceBands(request: PredictionRequest, draws: Draws, ids: FreshIds, now: int)
    requires ValidDraws(draws) && Resolves(request)
    ensures var r := PredictionFor(request, draws, ids, now).value;
            var v := FindVariant(request.patient.variantId).value;
            var d := FindDrug(request.drugId).value;
            var dis := FindDisease(request.patient.diseaseId).value;
            && 65 <= r.confidence <= 99
            && (IsContraindicated(v, d) ==> 95 <= r.confidence <= 99)
            && (!IsContraindicated(v, d) && dis.id !in d.relatedDiseases ==> 70 <= r.confidence <= 79)
            && (!IsContraindicated(v, d) && dis.id in d.relatedDiseases && !IsPoorMetabolizer(v, d) ==>
                  80 <= r.confidence <= 89)
            && (!IsContraindicated(v, d) && dis.id in d.relatedDiseases && IsPoorMetabolizer(v, d) ==>
                  if r.response == Positive then 65 <= r.confidence <= 74 else 85 <= r.confidence <= 94)
  {
    var v := FindVariant(request.patient.variantId).value;
    var d := FindDrug(request.drugId).value;
    var dis := FindDisease(request.patient.diseaseId).value;
    ConfidenceForProperties(v, d, dis, ResponseFor(v, d, dis, draws.responseDraw), draws.confidenceDraw);
  }

  /** A successful prediction reports one to three distinct side effects from
      the catalogue of its response, and only alternatives that are other
      drugs of the table treating the patient's disease, each with a
      confidence in [70, 99]. */
  lemma PredictionSideEffectsAndAlternatives(request: PredictionRequest, draws: Draws, ids: FreshIds, now: int)
    requires ValidDraws(draws) && Resolves(request)
    ensures var r := PredictionFor(request, draws, ids, now).value;
            && 1 <= |r.sideEffects| <= 3
            && Distinct(r.sideEffects)
            && (forall e :: e in r.sideEffects ==> e in SideEffects(r.response))
            && (forall a :: a in r.alternatives ==>
                  && a.drugId != request.drugId
                  && 70 <= a.confidence <= 99
                  && exists d :: d in Drugs && d.id == a.drugId && r.diseaseId in d.relatedDiseases)
  {
    var d := FindDrug(request.drugId).value;
    var dis := FindDisease(request.patient.diseaseId).value;
    var r := PredictionFor(request, draws, ids, now).value;
    SampleSideEffectsProperties(r.response, draws.shuffle, draws.sideEffectCountDraw);
    DrugCountIsTableSize();
    AlternativesSound(Drugs, dis.id, d.id, draws.alternativeDraws);
  }

  /** The warnings, dosage recommendation, contraindications and metabolism
      note of a successful prediction are those of the patient's variant and
      the drug: contraindications are listed exactly when the drug is
      contraindicated, and a critical warning is raised exactly when it is
      contraindicated or a thiopurine risk applies. */
  lemma PredictionRules(request: PredictionRequest, draws: Draws, ids: FreshIds, now: int)
    requires ValidDraws(draws) && Resolves(request)
    ensures var r := PredictionFor(request, draws, ids, now).value;
            var v := FindVariant(request.patient.variantId).value;
            var d := FindDrug(request.drugId).value;
            && r.warnings == WarningsOf(v, d)
            && r.dosageRecommendation == DosageOf(v, d, request.dosage)
            && r.contraindications == ContraindicationsOf(v, d)
            && (r.contraindications != [] <==> IsContraindicated(v, d))
            && ((exists i :: 0 <= i < |r.warnings| && r.warnings[i].severity == Critical) <==>
                  IsContraindicated(v, d) || IsThiopurineToxic(v, d))
            && (r.metabolismImpact != "" <==>
                  (v.metabolismImpact == Some(Poor) || v.metabolismImpact == Some(Intermediate))
                  && v.id in d.metabolizedBy)
  {
    var v := FindVariant(request.patient.variantId).value;
    var d := FindDrug(request.drugId).value;
    WarningsOfProperties(v, d);
    ContraindicationsOfProperties(v, d);
    MetabolismNoteProperties(v, d);
  }

  /** The narrative of a successful prediction is the template of its
      response: a positive one mentions adjusted dosing exactly when a dosage
      recommendation exists, and a negative one mentions genetic
      contraindications exactly when some are listed, that is exactly when
      the drug is contraindicated for the variant. */
  lemma PredictionNarrative(request: PredictionRequest, draws: Draws, ids: FreshIds, now: int)
    requires ValidDraws(draws) && Resolves(request)
    ensures var r := PredictionFor(request, draws, ids, now).value;
            var v := FindVariant(request.patient.variantId).value;
            var d := FindDrug(request.drugId).value;
            var dis := FindDisease(request.patient.diseaseId).value;
            && (r.response == Positive ==>
                  (r.details == Details(Positive, dis, d, true, false) <==> r.dosageRecommendation.Some?))
            && (r.response == Negative ==>
                  (r.details == Details(Negative, dis, d, false, true) <==> r.contraindications != [])
                  && (r.details == Details(Negative, dis, d, false, true) <==> IsContraindicated(v, d)))
            && (r.response == Neutral ==> r.details == Details(Neutral, dis, d, false, false))
  {
    var v := FindVariant(request.patient.variantId).value;
    var d := FindDrug(request.drugId).value;
    var dis := FindDisease(request.patient.diseaseId).value;
    var r := PredictionFor(request, draws, ids, now).value;
    assert r.details == Details(r.response, dis, d, r.dosageRecommendation.Some?, r.contraindications != []);
    DetailsMentions(r.response, dis, d, r.dosageRecommendation.Some?, r.contraindications != []);
    ContraindicationsOfProperties(v, d);
  }

  /** The variant id "var9" resolves to TPMT*3A. */
  lemma TpmtLookup()
    ensures FindVariant("var9") == Some(Variants[8])
  {
    FindAt(Variants, VariantId, 8);
  }

  /** The drug id "drug13" resolves to Azathioprine, which lists TPMT*3A as
      contraindicated. */
  lemma AzathioprineLookup()
    ensures FindDrug("drug13") == Some(Drugs[12])
    ensures Drugs[12].name == "Azathioprine" && "var9" in Drugs[12].contraindicatedVariants
  {
    FindAt(Drugs, DrugId, 12);
  }

  /** A TPMT*3A patient given Azathioprine: a critical warning, a listed
      contraindication, a negative response with confidence in [95, 99]. */
  lemma ThiopurineScenario(request: PredictionRequest, draws: Draws, ids: FreshIds, now: int)
    requires ValidDraws(draws)
    requires request.patient.variantId == "var9" && request.drugId == "drug13"
    requires FindDisease(request.patient.diseaseId).Some?
    ensures var r := PredictionFor(request, draws, ids, now);
            && r.Success?
            && r.value.drugName == "Azathioprine"
            && r.value.response == Negative
            && 95 <= r.value.confidence <= 99
            && r.value.contraindications != []
            && exists i :: 0 <= i < |r.value.warnings| && r.value.warnings[i].severity == Critical
  {
    TpmtLookup();
    AzathioprineLookup();
    PredictionResponseCases(request, draws, ids, now);
    PredictionConfidenceBands(request, draws, ids, now);
    PredictionRules(request, draws, ids, now);
  }

  /** A CYP2C19*2 poor metaboliser asking for 500 mg of Sertraline is
      recommended 250 mg, with a reason. */
  lemma PoorMetabolizerDoseScenario(patient: Patient)
    requires patient.variantId == "var3"
    ensures var r := Dosage(patient, "drug3", 500.0);
            && r.Some?
            && r.value.standard == 500.0 && r.value.recommended == 250.0 && r.value.unit == "mg"
            && r.value.adjustmentReason.Some? && r.value.adjustmentReason.value != ""
  {
    var v := FindVariant("var3").value;
    var d := FindDrug("drug3").value;
    assert IsPoorMetabolizer(v, d) && !IsWarfarinSensitive(v, d);
    DosageOfProperties(v, d, 500.0);
  }

  /** The response step of `predictDrugResponse`. */
  method ClassifyResponse(v: Variant, d: Drug, dis: Disease, draw: int) returns (response: ResponseType)
    ensures response == ResponseFor(v, d, dis, draw)
  {
    var isDrugRelatedToDisease := dis.id in d.relatedDiseases;
    var hasContraindication := v.id in d.contraindicatedVariants;
    if hasContraindication {
      response := Negative;
    } else if !isDrugRelatedToDisease {
      response := Neutral;
    } else {
      var isPoorMetabolizer := v.metabolismImpact == Some(Poor) && v.id in d.metabolizedBy;
      var responseIndex := if isPoorMetabolizer then draw else draw + 5;
      if responseIndex < 3 {
        response := Negative;
      } else if responseIndex < 7 {
        response := Neutral;
      } else {
        response := Positive;
      }
    }
  }

  /** The confidence step of `predictDrugResponse`. */
  method ScoreConfidence(v: Variant, d: Drug, dis: Disease, response: ResponseType, draw: int)
    returns (confidence: int)
    ensures confidence == ConfidenceFor(v, d, dis, response, draw)
  {
    var isDrugRelatedToDisease := dis.id in d.relatedDiseases;
    var hasContraindication := v.id in d.contraindicatedVariants;
    confidence := 80;
    if hasContraindication {
      confidence := 95;
    } else if !isDrugRelatedToDisease {
      confidence := 70;
    } else if v.metabolismImpact == Some(Poor) && v.id in d.metabolizedBy {
      confidence := if response == Positive then 65 else 85;
    }
    confidence := confidence + draw;
    confidence := Min(confidence, 99);
  }

  /** The metabolism-impact step of `predictDrugResponse`. */
  method DescribeMetabolism(v: Variant, d: Drug) returns (metabolismImpact: string)
    ensures metabolismImpact == MetabolismNote(v, d)
  {
    metabolismImpact := "";
    if v.metabolismImpact == Some(Poor) && v.id in d.metabolizedBy {
      metabolismImpact := v.name + " causes reduced metabolism of " + d.name
        + ", potentially increasing drug concentration in the bloodstream.";
    } else if v.metabolismImpact == Some(Intermediate) && v.id in d.metabolizedBy {
      metabolismImpact := v.name + " may cause slightly reduced metabolism of " + d.name + ".";
    }
  }

  /** The details step of `predictDrugResponse`. */
  method DescribeResponse(response: ResponseType, dis: Disease, d: Drug, adjusted: bool, contraindicated: bool)
    returns (details: string)
    ensures details == Details(response, dis, d, adjusted, contraindicated)
  {
    details := "";
    if response == Positive {
      details := "Patient with " + dis.name + " is predicted to respond well to " + d.name
        + ". Therapeutic effect is expected within standard timeframe"
        + (if adjusted then " with adjusted dosing" else "") + ".";
    } else if response == Negative {
      details := "Patient with " + dis.name + " is predicted to have an adverse reaction to " + d.name
        + ". Consider alternative treatments"
        + (if contraindicated then " due to genetic contraindications" else "") + ".";
    } else {
      details := "Patient with " + dis.name + " is predicted to have limited response to " + d.name
        + ". May require dosage adjustment or alternative therapy.";
    }
  }

  /** The engine with its prediction history, most recent first. */
  class PredictionEngine {
    var history: seq<PredictionResponse>

    constructor()
      ensures history == []
    {
      history := [];
    }

    /** `predictDrugResponse`: classifies the request, and on success puts the
        record at the front of the history. */
    method PredictDrugResponse(request: PredictionRequest, draws: Draws, ids: FreshIds, now: int)
      returns (result: Result<PredictionResponse, string>)
      requires ValidDraws(draws)
      modifies this
      ensures result == PredictionFor(request, draws, ids, now)
      ensures result.Success? ==> history == [result.value] + old(history)
      ensures result.Failure? ==> history == old(history)
    {
      var variant := FindVariant(request.patient.variantId);
      var drug := FindDrug(request.drugId);
      var disease := FindDisease(request.patient.diseaseId);
      if variant.None? || drug.None? || disease.None? {
        return Failure(InvalidIdError);
      }
      var v, d, dis := variant.value, drug.value, disease.value;

      var response := ClassifyResponse(v, d, dis, draws.responseDraw);
      var confidence := ScoreConfidence(v, d, dis, response, draws.confidenceDraw);

      var selectedSideEffects := SampleSideEffects(response, draws.shuffle, draws.sideEffectCountDraw);

      var warnings := GetWarnings(request.patient, request.drugId);
      var dosageRecommendation := GetDosageRecommendation(request.patient, request.drugId, request.dosage);
      var contraindications := GetContraindications(request.patient, request.drugId);

      var metabolismImpact := DescribeMetabolism(v, d);
      var details := DescribeResponse(response, dis, d, dosageRecommendation.Some?, |contraindications| > 0);

      DrugCountIsTableSize();
      var prediction := PredictionResponse(
        ids.predictionId,
        if request.patientId.Some? && request.patientId.value != "" then request.patientId.value else ids.patientId,
        request.patient.name,
        request.drugId,
        d.name,
        dis.id,
        dis.name,
        response,
        confidence,
        selectedSideEffects,
        AlternativesIn(Drugs, dis.id, d.id, draws.alternativeDraws),
        if request.timestamp.Some? then request.timestamp.value else now,
        details,
        dosageRecommendation,
        warnings,
        metabolismImpact,
        contraindications);

      history := [prediction] + history;
      return Success(prediction);
    }

    /** `getPredictionHistory`. */
    method GetPredictionHistory() returns (h: seq<PredictionResponse>)
      ensures h == history
    {
      h := history;
    }

    /** `clearPredictionHistory`. */
    method ClearPredictionHistory()
      modifies this
      ensures history == []
    {
      history := [];
    }
  }
}
