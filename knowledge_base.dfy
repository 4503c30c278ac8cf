/** The static knowledge base of the prediction engine: genetic variants,
    diseases, drugs and the per-response side-effect catalogue, with the
    id lookups (`Array.prototype.find`) every rule starts from. */
module KnowledgeBase {
  import opened Wrappers

  datatype MetabolismImpact = Normal | Intermediate | Poor

  /** A genetic variant. `metabolismImpact` and `sensitivityRisk` are optional. */
  datatype Variant = Variant(
    id: string,
    name: string,
    description: string,
    metabolismImpact: Option<MetabolismImpact>,
    sensitivityRisk: Option<string>)

  datatype Disease = Disease(id: string, name: string, description: string)

  /** A drug. An absent `contraindicatedVariants` or `metabolizedBy` list is the
      empty sequence: `includes` on an absent list is falsy, as on an empty one. */
  datatype Drug = Drug(
    id: string,
    name: string,
    description: string,
    relatedDiseases: seq<string>,
    contraindicatedVariants: seq<string>,
    metabolizedBy: seq<string>)

  datatype ResponseType = Positive | Negative | Neutral

  const Variants: seq<Variant> := [
    Variant("var1", "CYP2D6*1", "Normal metabolizer", Some(Normal), None),
    Variant("var2", "CYP2C9*2", "Intermediate metabolizer", Some(Intermediate), None),
    Variant("var3", "CYP2C19*2", "Poor metabolizer", Some(Poor), None),
    Variant("var4", "VKORC1-1639G>A", "Warfarin sensitivity", None, Some("warfarin")),
    Variant("var5", "HLA-B*5701", "Abacavir hypersensitivity", None, Some("abacavir")),
    Variant("var6", "CYP3A5*3", "Poor metabolizer", Some(Poor), None),
    Variant("var7", "CYP2C9*3", "Poor metabolizer", Some(Poor), None),
    Variant("var8", "DPYD*2A", "Dihydropyrimidine dehydrogenase deficiency (5-FU toxicity risk)", None, Some("5-fluorouracil")),
    Variant("var9", "TPMT*3A", "Thiopurine methyltransferase deficiency (Azathioprine/6-MP toxicity)", None, Some("thiopurines")),
    Variant("var10", "SLCO1B1*5", "Statin-induced myopathy risk", None, Some("statins"))
  ]

  const Diseases: seq<Disease> := [
    Disease("dis1", "Hypertension", "High blood pressure"),
    Disease("dis2", "Type 2 Diabetes", "Insulin resistance"),
    Disease("dis3", "Depression", "Major depressive disorder"),
    Disease("dis4", "Asthma", "Chronic lung condition"),
    Disease("dis5", "Epilepsy", "Seizure disorder"),
    Disease("dis6", "Rheumatoid Arthritis", "Autoimmune joint inflammation"),
    Disease("dis7", "Cardiovascular Disease", "Increased heart disease risk"),
    Disease("dis8", "Schizophrenia", "Chronic psychiatric disorder"),
    Disease("dis9", "Parkinson's Disease", "Neurodegenerative disorder"),
    Disease("dis10", "Gout", "Uric acid buildup causing joint inflammation")
  ]

  const Drugs: seq<Drug> := [
    Drug("drug1", "Metoprolol", "Beta-blocker for hypertension", ["dis1", "dis7"], [], ["var1"]),
    Drug("drug2", "Metformin", "First-line medication for type 2 diabetes", ["dis2"], [], []),
    Drug("drug3", "Sertraline", "SSRI for depression", ["dis3"], [], ["var1", "var3"]),
    Drug("drug4", "Albuterol", "Bronchodilator for asthma", ["dis4"], [], []),
    Drug("drug5", "Lamotrigine", "Anticonvulsant for epilepsy", ["dis5"], [], []),
    Drug("drug6", "Lisinopril", "ACE inhibitor for hypertension", ["dis1", "dis7"], [], []),
    Drug("drug7", "Gliclazide", "Sulfonylurea for type 2 diabetes", ["dis2"], [], ["var2", "var7"]),
    Drug("drug8", "Fluoxetine", "SSRI for depression", ["dis3"], [], ["var1", "var3"]),
    Drug("drug9", "Montelukast", "Leukotriene modifier for asthma", ["dis4"], [], []),
    Drug("drug10", "Levetiracetam", "Anticonvulsant for epilepsy", ["dis5"], [], []),
    Drug("drug11", "Atorvastatin", "Cholesterol-lowering statin", ["dis7"], ["var10"], []),
    Drug("drug12", "Warfarin", "Anticoagulant (VKORC1 sensitivity dependent)", ["dis7"], ["var4"], []),
    Drug("drug13", "Azathioprine", "Immunosuppressant (TPMT deficiency risk)", ["dis6"], ["var9"], []),
    Drug("drug14", "Allopurinol", "Gout treatment", ["dis10"], ["var5"], []),
    Drug("drug15", "Clopidogrel", "Antiplatelet drug", ["dis7"], [], ["var3"])
  ]

  /** The largest side-effect catalogue (the one for negative responses). */
  const MaxCatalogueSize: nat := 5

  /** The side effects that may be reported for each response type. */
  function SideEffects(response: ResponseType): (c: seq<string>)
    ensures 3 <= |c| <= MaxCatalogueSize
    ensures forall i, j :: 0 <= i < j < |c| ==> c[i] != c[j]
  {
    match response
    case Positive => ["Mild drowsiness", "Temporary dizziness", "Slight fatigue", "Dry mouth"]
    case Negative => ["Severe headache", "Nausea and vomiting", "Skin rash", "Insomnia",
                      "Significant blood pressure changes"]
    case Neutral => ["Minimal drug effect", "Lack of efficacy", "Minor gastrointestinal discomfort"]
  }

  /** The first element of `xs` whose key is `id`, as `find` returns it.
      Where the element comes from is stated by `FindIsFirstMatch`, so that
      callers on the tables below do not unfold them. */
  function Find<T>(xs: seq<T>, key: T -> string, id: string): (r: Option<T>)
    ensures r.Some? ==> key(r.value) == id
  {
    if |xs| == 0 then None
    else if key(xs[0]) == id then Some(xs[0])
    else Find(xs[1..], key, id)
  }

  /** `Find` returns the first element with the key, and nothing exactly when
      no element has it. */
  lemma {:induction false} FindIsFirstMatch<T>(xs: seq<T>, key: T -> string, id: string)
    ensures Find(xs, key, id).Some? ==>
              exists i :: 0 <= i < |xs| && xs[i] == Find(xs, key, id).value
                          && forall j :: 0 <= j < i ==> key(xs[j]) != id
    ensures Find(xs, key, id).None? <==> forall j :: 0 <= j < |xs| ==> key(xs[j]) != id
  {
    if |xs| > 0 && key(xs[0]) != id {
      FindIsFirstMatch(xs[1..], key, id);
      if Find(xs, key, id).Some? {
        var i :| 0 <= i < |xs| - 1 && xs[1..][i] == Find(xs, key, id).value
                 && forall j :: 0 <= j < i ==> key(xs[1..][j]) != id;
        assert xs[i + 1] == Find(xs, key, id).value;
        assert forall j :: 0 <= j < i + 1 ==> key(xs[j]) != id by {
          forall j | 0 <= j < i + 1 ensures key(xs[j]) != id {
            if j > 0 { assert xs[j] == xs[1..][j - 1]; }
          }
        }
      } else {
        assert forall j :: 0 <= j < |xs| ==> key(xs[j]) != id by {
          forall j | 0 <= j < |xs| ensures key(xs[j]) != id {
            if j > 0 { assert xs[j] == xs[1..][j - 1]; }
          }
        }
      }
    }
  }

  /** An element whose key no earlier element has is what `Find` returns for
      that key. */
  lemma {:induction false} FindAt<T>(xs: seq<T>, key: T -> string, i: nat)
    requires i < |xs| && forall j :: 0 <= j < i ==> key(xs[j]) != key(xs[i])
    ensures Find(xs, key, key(xs[i])) == Some(xs[i])
  {
    if i > 0 {
      assert xs[1..][i - 1] == xs[i];
      forall j | 0 <= j < i - 1 ensures key(xs[1..][j]) != key(xs[1..][i - 1]) {
        assert xs[1..][j] == xs[j + 1];
      }
      FindAt(xs[1..], key, i - 1);
    }
  }

  function VariantId(v: Variant): string { v.id }
  function DiseaseId(d: Disease): string { d.id }
  function DrugId(d: Drug): string { d.id }

  /** The variant with the given id. */
  function FindVariant(id: string): (r: Option<Variant>)
    ensures r.Some? ==> r.value.id == id
  {
    Find(Variants, VariantId, id)
  }

  /** The disease with the given id. */
  function FindDisease(id: string): (r: Option<Disease>)
    ensures r.Some? ==> r.value.id == id
  {
    Find(Diseases, DiseaseId, id)
  }

  /** The drug with the given id. */
  function FindDrug(id: string): (r: Option<Drug>)
    ensures r.Some? ==> r.value.id == id
  {
    Find(Drugs, DrugId, id)
  }

  /** No entry of the variant table has the empty id. */
  lemma VariantIdsAreNonEmpty()
    ensures forall v :: v in Variants ==> v.id != ""
  {
  }

  /** No entry of the drug table has the empty id. */
  lemma DrugIdsAreNonEmpty()
    ensures forall d :: d in Drugs ==> d.id != ""
  {
  }

  /** A drug id resolves exactly when the drug table has an entry with it, and
      then to a table entry. */
  lemma FindDrugInTable(id: string)
    ensures FindDrug(id).Some? ==> FindDrug(id).value in Drugs
    ensures FindDrug(id).None? <==> forall d :: d in Drugs ==> d.id != id
  {
    FindIsFirstMatch(Drugs, DrugId, id);
  }

  /** A variant id resolves exactly when the variant table has an entry with it. */
  lemma FindVariantInTable(id: string)
    ensures FindVariant(id).Some? ==> FindVariant(id).value in Variants
    ensures FindVariant(id).None? <==> forall v :: v in Variants ==> v.id != id
  {
    FindIsFirstMatch(Variants, VariantId, id);
  }

  /** A disease id resolves exactly when the disease table has an entry with it. */
  lemma FindDiseaseInTable(id: string)
    ensures FindDisease(id).Some? ==> FindDisease(id).value in Diseases
    ensures FindDisease(id).None? <==> forall d :: d in Diseases ==> d.id != id
  {
    FindIsFirstMatch(Diseases, DiseaseId, id);
  }
}
