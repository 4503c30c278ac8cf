/** The drug-gene interaction rules of the engine: warnings, the dosage
    advisor and contraindications. Each is given as a reference function on
    resolved entities and as the imperative routine the engine runs, which
    looks the patient's variant and the drug up and builds its result step by
    step. */
module InteractionRules {
  import opened Wrappers
  import opened Strings
  import opened KnowledgeBase

  datatype Gender = Male | Female | Other

  datatype Patient = Patient(
    id: Option<string>,
    name: string,
    age: int,
    gender: Gender,
    variantId: string,
    diseaseId: string)

  datatype Severity = Critical | Moderate | Mild

  /** Which rule a warning comes from; it fixes the wording of the warning. */
  datatype WarningKind =
    | MayBeContraindicated
    | ReducedMetabolism
    | MyopathyRisk
    | WarfarinSensitivity
    | ThiopurineToxicity

  /** A warning: its severity and the template its message and explanation are
      rendered from, with the drug and variant names they interpolate. */
  datatype Warning = Warning(severity: Severity, kind: WarningKind, drugName: string, variantName: string)

  /** The short message of a warning, worded as the engine words it. */
  function Message(w: Warning): string
  {
    match w.kind
    case MayBeContraindicated => w.drugName + " may be contraindicated with " + w.variantName
    case ReducedMetabolism => "Reduced " + w.drugName + " metabolism due to " + w.variantName
    case MyopathyRisk => "Increased myopathy risk with " + w.drugName
    case WarfarinSensitivity => "Increased warfarin sensitivity"
    case ThiopurineToxicity => "High risk of thiopurine toxicity"
  }

  /** The longer explanation of a warning, worded as the engine words it. */
  function Explanation(w: Warning): string
  {
    match w.kind
    case MayBeContraindicated =>
      "Patients with " + w.variantName + " may experience severe adverse reactions to " + w.drugName + "."
    case ReducedMetabolism =>
      "Patients with " + w.variantName + " may metabolize " + w.drugName
        + " more slowly, potentially leading to increased drug concentration and side effects."
    case MyopathyRisk =>
      "Patients with " + w.variantName + " have increased risk of muscle pain and damage when taking statins."
    case WarfarinSensitivity =>
      "Patients with " + w.variantName + " may require lower warfarin doses to avoid bleeding complications."
    case ThiopurineToxicity =>
      "Patients with " + w.variantName
        + " have reduced ability to metabolize thiopurines, leading to potentially severe bone marrow suppression."
  }

  datatype DosageRecommendation = DosageRecommendation(
    standard: real,
    recommended: real,
    unit: string,
    adjustmentReason: Option<string>)

  /** The variant is on the drug's contraindication list. */
  predicate IsContraindicated(v: Variant, d: Drug)
  {
    v.id in d.contraindicatedVariants
  }

  /** The variant is a poor metaboliser and the drug is processed by its pathway. */
  predicate IsPoorMetabolizer(v: Variant, d: Drug)
  {
    v.metabolismImpact == Some(Poor) && v.id in d.metabolizedBy
  }

  /** The VKORC1 variant together with the drug named exactly "Warfarin". */
  predicate IsWarfarinSensitive(v: Variant, d: Drug)
  {
    v.id == "var4" && d.name == "Warfarin"
  }

  /** A JavaScript-truthy (present and non-empty) sensitivity risk equal to `risk`. */
  predicate HasRisk(v: Variant, risk: string)
  {
    v.sensitivityRisk.Some? && v.sensitivityRisk.value != "" && v.sensitivityRisk.value == risk
  }

  /** The thiopurine sensitivity rule of the warnings: TPMT risk and Azathioprine. */
  predicate IsThiopurineToxic(v: Variant, d: Drug)
  {
    HasRisk(v, "thiopurines") && d.name == "Azathioprine"
  }

  function ContraindicationWarning(v: Variant, d: Drug): Warning
  {
    Warning(Critical, MayBeContraindicated, d.name, v.name)
  }

  function MetabolismWarning(v: Variant, d: Drug): Warning
  {
    Warning(Moderate, ReducedMetabolism, d.name, v.name)
  }

  function MyopathyWarning(v: Variant, d: Drug): Warning
  {
    Warning(Moderate, MyopathyRisk, d.name, v.name)
  }

  function WarfarinWarning(v: Variant, d: Drug): Warning
  {
    Warning(Moderate, WarfarinSensitivity, d.name, v.name)
  }

  function ThiopurineWarning(v: Variant, d: Drug): Warning
  {
    Warning(Critical, ThiopurineToxicity, d.name, v.name)
  }

  /** The sensitivity entry of the warnings: the first matching rule of a
      closed table, where the statin test is a case-sensitive substring test. */
  function SensitivityWarnings(v: Variant, d: Drug): seq<Warning>
  {
    if v.sensitivityRisk.None? || v.sensitivityRisk.value == "" then []
    else
      var risk := v.sensitivityRisk.value;
      if risk == "statins" && Contains(d.name, "statin") then [MyopathyWarning(v, d)]
      else if risk == "warfarin" && d.name == "Warfarin" then [WarfarinWarning(v, d)]
      else if risk == "thiopurines" && d.name == "Azathioprine" then [ThiopurineWarning(v, d)]
      else []
  }

  /** The statin rule of the warnings: a case-sensitive "statin" substring. */
  predicate IsStatinSensitive(v: Variant, d: Drug)
  {
    HasRisk(v, "statins") && Contains(d.name, "statin")
  }

  /** The warfarin rule of the warnings, which looks at the risk class rather than the id. */
  predicate IsWarfarinSensitivityRisk(v: Variant, d: Drug)
  {
    HasRisk(v, "warfarin") && d.name == "Warfarin"
  }

  /** At most one sensitivity warning is given, and exactly when one of the
      three rules matches; it is critical exactly for thiopurine toxicity. */
  lemma SensitivityWarningsProperties(v: Variant, d: Drug)
    ensures |SensitivityWarnings(v, d)| <= 1
    ensures SensitivityWarnings(v, d) != [] <==>
              IsStatinSensitive(v, d) || IsWarfarinSensitivityRisk(v, d) || IsThiopurineToxic(v, d)
    ensures forall w :: w in SensitivityWarnings(v, d) ==>
              w.severity != Mild && (w.severity == Critical <==> IsThiopurineToxic(v, d))
  {
  }

  /** The warnings for a resolved variant and drug, in the order the rules are checked. */
  function WarningsOf(v: Variant, d: Drug): seq<Warning>
  {
    (if IsContraindicated(v, d) then [ContraindicationWarning(v, d)] else [])
    + (if IsPoorMetabolizer(v, d) then [MetabolismWarning(v, d)] else [])
    + SensitivityWarnings(v, d)
  }

  /** Each rule contributes its own warning exactly when it fires: a critical
      contraindication entry, a moderate poor-metaboliser entry, and at most one
      sensitivity entry. A critical warning appears exactly when the pair is
      contraindicated or thiopurine-toxic, and no warning is ever mild. */
  lemma WarningsOfProperties(v: Variant, d: Drug)
    ensures |WarningsOf(v, d)| <= 3
    ensures IsContraindicated(v, d) <==> ContraindicationWarning(v, d) in WarningsOf(v, d)
    ensures IsPoorMetabolizer(v, d) <==> MetabolismWarning(v, d) in WarningsOf(v, d)
    ensures (exists i :: 0 <= i < |WarningsOf(v, d)| && WarningsOf(v, d)[i].severity == Critical)
            <==> IsContraindicated(v, d) || IsThiopurineToxic(v, d)
    ensures forall w :: w in WarningsOf(v, d) ==> w.severity != Mild
  {
    SensitivityWarningsProperties(v, d);
    var contra := if IsContraindicated(v, d) then [ContraindicationWarning(v, d)] else [];
    var metab := if IsPoorMetabolizer(v, d) then [MetabolismWarning(v, d)] else [];
    var sens := SensitivityWarnings(v, d);
    var ws := contra + metab + sens;
    assert ws == WarningsOf(v, d);
    assert forall w :: w in ws ==> w in contra || w in metab || w in sens;
    assert IsThiopurineToxic(v, d) ==> ws[|ws| - 1] == sens[0];
  }

  /** The warnings for a patient and a drug id: none when either does not resolve. */
  function Warnings(patient: Patient, drugId: string): seq<Warning>
  {
    match (FindDrug(drugId), FindVariant(patient.variantId))
    case (Some(d), Some(v)) => WarningsOf(v, d)
    case _ => []
  }

  /** `getWarnings`: pushes one entry per rule that fires. */
  method GetWarnings(patient: Patient, drugId: string) returns (warnings: seq<Warning>)
    ensures warnings == Warnings(patient, drugId)
  {
    warnings := [];
    var drug := FindDrug(drugId);
    var variant := FindVariant(patient.variantId);
    if drug.None? || variant.None? {
      return;
    }
    var d, v := drug.value, variant.value;
    if v.id in d.contraindicatedVariants {
      warnings := warnings + [ContraindicationWarning(v, d)];
    }
    if v.id in d.metabolizedBy && v.metabolismImpact == Some(Poor) {
      warnings := warnings + [MetabolismWarning(v, d)];
    }
    ghost var beforeSensitivity := warnings;
    if v.sensitivityRisk.Some? && v.sensitivityRisk.value != "" {
      var risk := v.sensitivityRisk.value;
      if risk == "statins" && Contains(d.name, "statin") {
        warnings := warnings + [MyopathyWarning(v, d)];
      } else if risk == "warfarin" && d.name == "Warfarin" {
        warnings := warnings + [WarfarinWarning(v, d)];
      } else if risk == "thiopurines" && d.name == "Azathioprine" {
        warnings := warnings + [ThiopurineWarning(v, d)];
      }
    }
    assert warnings == beforeSensitivity + SensitivityWarnings(v, d);
  }

  const PoorMetabolizerReasonPrefix := "Reduced dosage recommended due to "
  const WarfarinReason := "Significant dosage reduction required due to VKORC1 warfarin sensitivity"

  /** The dosage advice for a resolved variant and drug. The warfarin rule,
      checked last, replaces the dose computed by the poor-metaboliser rule
      rather than compounding it. Advice is given only when the dose changed. */
  function DosageOf(v: Variant, d: Drug, requested: real): Option<DosageRecommendation>
  {
    if requested == 0.0 then None
    else if IsWarfarinSensitive(v, d) then
      Some(DosageRecommendation(requested, requested * 0.4, "mg", Some(WarfarinReason)))
    else if IsPoorMetabolizer(v, d) then
      Some(DosageRecommendation(requested, requested * 0.5, "mg",
        Some(PoorMetabolizerReasonPrefix + v.name + " poor metabolizer status")))
    else None
  }

  /** Advice is given exactly when a rule fires and changes the dose (a zero
      dose is left unchanged by both); it keeps the requested dose as the
      standard, is in mg, carries a reason, and recommends half the dose for a
      poor metaboliser or 0.4 of it for warfarin sensitivity, the latter
      overriding the former. A positive dose is always lowered. */
  lemma DosageOfProperties(v: Variant, d: Drug, requested: real)
    ensures DosageOf(v, d, requested).Some? <==>
              requested != 0.0 && (IsPoorMetabolizer(v, d) || IsWarfarinSensitive(v, d))
    ensures DosageOf(v, d, requested).Some? ==>
              var rec := DosageOf(v, d, requested).value;
              && rec.standard == requested
              && rec.unit == "mg"
              && rec.recommended != rec.standard
              && rec.recommended == (if IsWarfarinSensitive(v, d) then requested * 0.4 else requested * 0.5)
              && rec.adjustmentReason.Some? && rec.adjustmentReason.value != ""
              && (requested > 0.0 ==> 0.0 < rec.recommended < rec.standard)
  {
  }

  /** The dosage advice for a patient and a drug id: none when either does not resolve. */
  function Dosage(patient: Patient, drugId: string, requested: real): Option<DosageRecommendation>
  {
    match (FindDrug(drugId), FindVariant(patient.variantId))
    case (Some(d), Some(v)) => DosageOf(v, d, requested)
    case _ => None
  }

  /** `getDosageRecommendation`: starts from the requested dose, lets each rule
      overwrite the recommendation, and returns it only if it changed. */
  method GetDosageRecommendation(patient: Patient, drugId: string, requestedDosage: real)
    returns (r: Option<DosageRecommendation>)
    ensures r == Dosage(patient, drugId, requestedDosage)
  {
    var drug := FindDrug(drugId);
    var variant := FindVariant(patient.variantId);
    if drug.None? || variant.None? {
      return None;
    }
    var d, v := drug.value, variant.value;
    var dosageRec := DosageRecommendation(requestedDosage, requestedDosage, "mg", None);
    if v.metabolismImpact == Some(Poor) && v.id in d.metabolizedBy {
      dosageRec := dosageRec.(recommended := requestedDosage * 0.5,
        adjustmentReason := Some(PoorMetabolizerReasonPrefix + v.name + " poor metabolizer status"));
    }
    if v.id == "var4" && d.name == "Warfarin" {
      dosageRec := dosageRec.(recommended := requestedDosage * 0.4,
        adjustmentReason := Some(WarfarinReason));
    }
    if dosageRec.recommended != dosageRec.standard {
      return Some(dosageRec);
    }
    return None;
  }

  /** The contraindication statements for a resolved variant and drug. */
  function ContraindicationsOf(v: Variant, d: Drug): seq<string>
  {
    if IsContraindicated(v, d) then [d.name + " is contraindicated with the " + v.name + " variant."]
    else []
  }

  /** There is at most one statement, and there is one exactly when the pair
      is contraindicated. */
  lemma ContraindicationsOfProperties(v: Variant, d: Drug)
    ensures |ContraindicationsOf(v, d)| <= 1
    ensures ContraindicationsOf(v, d) != [] <==> IsContraindicated(v, d)
  {
  }

  /** The contraindications for a patient and a drug id: none when either does not resolve. */
  function Contraindications(patient: Patient, drugId: string): seq<string>
  {
    match (FindDrug(drugId), FindVariant(patient.variantId))
    case (Some(d), Some(v)) => ContraindicationsOf(v, d)
    case _ => []
  }

  /** `getContraindications`: pushes the one statement when the pair is contraindicated. */
  method GetContraindications(patient: Patient, drugId: string) returns (contraindications: seq<string>)
    ensures contraindications == Contraindications(patient, drugId)
  {
    contraindications := [];
    var drug := FindDrug(drugId);
    var variant := FindVariant(patient.variantId);
    if drug.None? || variant.None? {
      return;
    }
    var d, v := drug.value, variant.value;
    if v.id in d.contraindicatedVariants {
      contraindications := contraindications + [d.name + " is contraindicated with the " + v.name + " variant."];
    }
  }

  /** A drug id or a variant id that is not in its table yields no warnings,
      no dosage advice and no contraindications. */
  lemma NothingForUnknownIds(patient: Patient, drugId: string, requested: real)
    ensures (forall d :: d in Drugs ==> d.id != drugId)
            || (forall v :: v in Variants ==> v.id != patient.variantId)
            ==> && Warnings(patient, drugId) == []
                && Dosage(patient, drugId, requested).None?
                && Contraindications(patient, drugId) == []
  {
    FindDrugInTable(drugId);
    FindVariantInTable(patient.variantId);
  }
}
