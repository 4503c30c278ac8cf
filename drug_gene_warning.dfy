/** The rule part of the `DrugGeneWarning` component: for one variant and one
    drug it shows at most one banner, whose severity, title and description
    follow a fixed priority (contraindication, then poor metabolism, then
    sensitivity). Unlike the warnings of the prediction engine, its statin
    test ignores the case of the drug name. */
module DrugGeneWarningRules {
  import opened Wrappers
  import opened Strings
  import opened KnowledgeBase
  import opened InteractionRules

  /** Which title and description pair the banner shows. `Untitled` is the
      pair of empty strings the component starts from. */
  datatype BannerKind = ContraindicatedBanner | PoorMetabolismBanner | MyopathyBanner
                      | WarfarinBanner | ThiopurineBanner | Untitled

  datatype GeneWarning = GeneWarning(severity: Severity, kind: BannerKind, drugName: string, variantName: string)

  function Title(w: GeneWarning): string
  {
    match w.kind
    case ContraindicatedBanner => w.drugName + " is contraindicated with " + w.variantName
    case PoorMetabolismBanner => "Poor metabolism of " + w.drugName + " with " + w.variantName
    case MyopathyBanner => "Increased myopathy risk with " + w.drugName
    case WarfarinBanner => "Increased warfarin sensitivity"
    case ThiopurineBanner => "High risk of thiopurine toxicity"
    case Untitled => ""
  }

  function Description(w: GeneWarning): string
  {
    match w.kind
    case ContraindicatedBanner =>
      "Patients with " + w.variantName + " may experience severe adverse reactions to " + w.drugName
        + ". Consider alternative medications."
    case PoorMetabolismBanner =>
      w.variantName + " causes reduced metabolism of " + w.drugName
        + ", potentially increasing blood levels. Dosage adjustment may be needed."
    case MyopathyBanner =>
      "Patients with " + w.variantName + " have increased risk of muscle pain and damage when taking statins."
    case WarfarinBanner =>
      "Patients with " + w.variantName + " may require lower warfarin doses to avoid bleeding complications."
    case ThiopurineBanner =>
      "Patients with " + w.variantName
        + " have reduced ability to metabolize thiopurines, leading to potentially severe bone marrow suppression."
    case Untitled => ""
  }

  /** The component's sensitivity test: the statin rule lower-cases the drug
      name first; the warfarin and thiopurine rules compare names exactly. */
  predicate HasSensitivityIssue(v: Variant, d: Drug): (r: bool)
    ensures r ==> v.sensitivityRisk in {Some("statins"), Some("warfarin"), Some("thiopurines")}
  {
    || (v.sensitivityRisk == Some("statins") && Contains(ToLower(d.name), "statin"))
    || (v.sensitivityRisk == Some("warfarin") && d.name == "Warfarin")
    || (v.sensitivityRisk == Some("thiopurines") && d.name == "Azathioprine")
  }

  /** The banner for a resolved variant and drug. */
  function BannerFor(v: Variant, d: Drug): (r: Option<GeneWarning>)
    ensures r.Some? ==> r.value.drugName == d.name && r.value.variantName == v.name && r.value.severity != Mild
  {
    var isContraindicated := IsContraindicated(v, d);
    var isMetabolismIssue := IsPoorMetabolizer(v, d);
    var hasSensitivityIssue := HasSensitivityIssue(v, d);
    if !isContraindicated && !isMetabolismIssue && !hasSensitivityIssue then None
    else
      var severity :=
        if isContraindicated then Critical
        else if isMetabolismIssue || hasSensitivityIssue then Moderate
        else Mild;
      var kind :=
        if isContraindicated then ContraindicatedBanner
        else if isMetabolismIssue then PoorMetabolismBanner
        else if hasSensitivityIssue then
          if v.sensitivityRisk == Some("statins") then MyopathyBanner
          else if v.sensitivityRisk == Some("warfarin") then WarfarinBanner
          else if v.sensitivityRisk == Some("thiopurines") then ThiopurineBanner
          else Untitled
        else Untitled;
      Some(GeneWarning(severity, kind, d.name, v.name))
  }

  /** The component for a variant id and a drug id: nothing when either is
      empty or does not resolve. */
  function DrugGeneWarning(variantId: string, drugId: string): (r: Option<GeneWarning>)
    ensures r.Some? ==> variantId != "" && drugId != "" && FindVariant(variantId).Some? && FindDrug(drugId).Some?
  {
    if variantId == "" || drugId == "" then None
    else
      match (FindVariant(variantId), FindDrug(drugId))
      case (Some(v), Some(d)) => BannerFor(v, d)
      case _ => None
  }

  /** Nothing is shown for an empty id or an id that is not in its table. */
  lemma NoBannerForUnresolvedIds(variantId: string, drugId: string)
    ensures variantId == "" || drugId == ""
            || (forall v :: v in Variants ==> v.id != variantId)
            || (forall d :: d in Drugs ==> d.id != drugId)
            ==> DrugGeneWarning(variantId, drugId).None?
  {
    FindVariantInTable(variantId);
    FindDrugInTable(drugId);
  }

  /** For a resolved pair a banner is shown exactly when one of the three
      rules fires. Its severity is critical exactly for a contraindication and
      moderate otherwise (never mild), and its title follows the priority
      contraindication, poor metabolism, sensitivity, always with a title of
      its own. */
  lemma BannerForProperties(v: Variant, d: Drug)
    ensures BannerFor(v, d).Some? <==>
              IsContraindicated(v, d) || IsPoorMetabolizer(v, d) || HasSensitivityIssue(v, d)
    ensures BannerFor(v, d).Some? ==>
              var w := BannerFor(v, d).value;
              && w.drugName == d.name && w.variantName == v.name
              && (w.severity == Critical <==> IsContraindicated(v, d))
              && (w.severity == Moderate <==> !IsContraindicated(v, d))
              && w.severity != Mild
              && w.kind != Untitled
              && (IsContraindicated(v, d) ==> w.kind == ContraindicatedBanner)
              && (!IsContraindicated(v, d) && IsPoorMetabolizer(v, d) ==> w.kind == PoorMetabolismBanner)
              && (!IsContraindicated(v, d) && !IsPoorMetabolizer(v, d) ==>
                    w.kind in {MyopathyBanner, WarfarinBanner, ThiopurineBanner})
  {
  }

  /** An intermediate metaboliser never raises the metabolism banner. */
  lemma IntermediateIsNoMetabolismIssue(v: Variant, d: Drug)
    requires v.metabolismImpact == Some(Intermediate)
    ensures BannerFor(v, d).Some? ==> BannerFor(v, d).value.kind != PoorMetabolismBanner
  {
  }

  /** Lower-casing keeps every occurrence of a lower-case needle. */
  lemma {:induction false} LowerKeepsLowerNeedle(s: string, sub: string)
    requires forall k :: 0 <= k < |sub| ==> LowerChar(sub[k]) == sub[k]
    requires Contains(s, sub)
    ensures Contains(ToLower(s), sub)
  {
    var i :| 0 <= i <= |s| && sub <= s[i..];
    var t := ToLower(s);
    forall k | 0 <= k < |sub| ensures t[i..][k] == sub[k] {
      assert s[i..][k] == s[i + k];
    }
    assert sub <= t[i..];
  }

  /** Every drug the engine's case-sensitive statin rule flags, the banner's
      case-insensitive rule flags too. */
  lemma StatinRuleIsWeakerThanBanner(v: Variant, d: Drug)
    requires IsStatinSensitive(v, d)
    ensures HasSensitivityIssue(v, d)
  {
    LowerKeepsLowerNeedle(d.name, "statin");
  }

  /** A drug named "Statin" is flagged by the banner but not by the engine's
      warnings: the two statin tests disagree on capitalised names. */
  lemma StatinRulesDisagreeOnCase()
    ensures var v := Variant("v", "SLCO1B1*5", "", None, Some("statins"));
            var d := Drug("d", "Statin", "", [], [], []);
            HasSensitivityIssue(v, d) && SensitivityWarnings(v, d) == []
  {
    var name := "Statin";
    assert ToLower(name) == "statin";
    assert "statin" <= ToLower(name)[0..];
    assert !Contains(name, "statin") by {
      assert name[0] != "statin"[0];
    }
  }

  /** Whenever the engine emits any warning for a patient and a drug, the
      banner is shown for the same variant and drug. */
  lemma WarningsImplyBanner(patient: Patient, drugId: string)
    ensures Warnings(patient, drugId) != [] ==> DrugGeneWarning(patient.variantId, drugId).Some?
  {
    var vr, dr := FindVariant(patient.variantId), FindDrug(drugId);
    if vr.Some? && dr.Some? {
      var v, d := vr.value, dr.value;
      SensitivityWarningsProperties(v, d);
      if IsStatinSensitive(v, d) {
        StatinRuleIsWeakerThanBanner(v, d);
      }
      FindVariantInTable(patient.variantId);
      FindDrugInTable(drugId);
      VariantIdsAreNonEmpty();
      DrugIdsAreNonEmpty();
    }
  }
}
