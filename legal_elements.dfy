/**
 * The legal element schemas: nine schemas, each naming the elements a claim
 * must satisfy, and the table that files them under "area/sub_category"
 * keys, aliases included.
 */
module LegalElements {
  import opened Wrappers

  /**
   * A schema, identified by its area, sub-category, claim type and the
   * names of its elements in order.
   */
  datatype Schema = Schema(area: string, subCategory: string, claimType: string, elementNames: seq<string>)

  const TenancyBondRefund := Schema("tenancy", "bond_refund", "Bond refund claim",
    ["Valid tenancy agreement", "Bond paid", "Tenancy ended", "Property condition", "No outstanding rent/costs"])
  const TenancyEviction := Schema("tenancy", "eviction_notice", "Challenge to eviction notice",
    ["Valid notice", "Correct notice period", "Valid grounds", "Procedural compliance"])
  const TenancyRepairs := Schema("tenancy", "repairs_maintenance", "Repairs and maintenance claim",
    ["Landlord obligation", "Proper notification", "Reasonable time elapsed", "Failure to repair"])
  const EmploymentUnfairDismissal := Schema("employment", "unfair_dismissal", "Unfair dismissal claim",
    ["Employment relationship", "Minimum employment period", "Dismissal occurred",
     "Harsh, unjust or unreasonable", "Procedural fairness"])
  const EmploymentUnderpayment := Schema("employment", "underpayment", "Underpayment/wage theft claim",
    ["Employment relationship", "Applicable instrument", "Work performed", "Underpayment amount"])
  const FamilyDomesticViolenceOrder := Schema("family", "domestic_violence_order", "Application for DVO/AVO",
    ["Relevant relationship", "Domestic violence", "Fear of future violence", "Protection needed"])
  const FamilyChildCustody := Schema("family", "child_custody", "Parenting orders (custody/visitation)",
    ["Child's best interests", "Meaningful relationship", "Protection from harm", "Practical considerations"])
  const ConsumerRefund := Schema("consumer", "refund", "Consumer guarantee refund claim",
    ["Consumer transaction", "Consumer guarantee breach", "Major failure (for refund)", "Timeframe"])
  const CriminalAssault := Schema("criminal", "assault", "Assault charge (prosecution must prove)",
    ["Physical contact or threat", "Intentional or reckless", "Without consent", "Without lawful excuse"])

  /** The nine schemas. */
  const Schemas: seq<Schema> := [
    TenancyBondRefund, TenancyEviction, TenancyRepairs,
    EmploymentUnfairDismissal, EmploymentUnderpayment,
    FamilyDomesticViolenceOrder, FamilyChildCustody,
    ConsumerRefund, CriminalAssault]

  /**
   * `ELEMENT_SCHEMAS`, in insertion order, each key "area/sub_category"
   * written as its two halves.
   */
  const Filed: seq<(string, string, Schema)> := [
    ("tenancy", "bond_refund", TenancyBondRefund),
    ("tenancy", "bond_dispute", TenancyBondRefund),
    ("tenancy", "eviction_notice", TenancyEviction),
    ("tenancy", "eviction", TenancyEviction),
    ("tenancy", "repairs_maintenance", TenancyRepairs),
    ("tenancy", "repairs", TenancyRepairs),
    ("employment", "unfair_dismissal", EmploymentUnfairDismissal),
    ("employment", "unfair_termination", EmploymentUnfairDismissal),
    ("employment", "underpayment", EmploymentUnderpayment),
    ("employment", "wages", EmploymentUnderpayment),
    ("employment", "wage_theft", EmploymentUnderpayment),
    ("family", "domestic_violence_order", FamilyDomesticViolenceOrder),
    ("family", "domestic_violence", FamilyDomesticViolenceOrder),
    ("family", "dvo", FamilyDomesticViolenceOrder),
    ("family", "avo", FamilyDomesticViolenceOrder),
    ("family", "child_custody", FamilyChildCustody),
    ("family", "custody", FamilyChildCustody),
    ("family", "parenting", FamilyChildCustody),
    ("consumer", "refund", ConsumerRefund),
    ("consumer", "consumer_guarantee", ConsumerRefund),
    ("contract", "refund", ConsumerRefund),
    ("criminal", "assault", CriminalAssault)]

  /** The dictionary key of an area and a sub-category. */
  function Key(area: string, subCategory: string): string {
    area + "/" + subCategory
  }

  /** `ELEMENT_SCHEMAS` as the dictionary it is: key and schema, in order. */
  function ElementSchemas(): (table: seq<(string, Schema)>)
    ensures |table| == |Filed|
  {
    seq(|Filed|, i requires 0 <= i < |Filed| => (Key(Filed[i].0, Filed[i].1), Filed[i].2))
  }

  /** `dict.get`: the entry of the key, if any (the first, were there two). */
  function Lookup(table: seq<(string, Schema)>, key: string): Option<Schema> {
    if table == [] then None
    else if table[0].0 == key then Some(table[0].1)
    else Lookup(table[1..], key)
  }

  /** `get_element_schema`: the key is `area/sub_category`, matched exactly. */
  function GetElementSchema(area: string, subCategory: string): Option<Schema> {
    Lookup(ElementSchemas(), Key(area, subCategory))
  }

  /** `get_areas_with_schemas`: the keys in table order. */
  function GetAreasWithSchemas(): (keys: seq<string>)
    ensures |keys| == |Filed|
    ensures forall i :: 0 <= i < |keys| ==> keys[i] == Key(Filed[i].0, Filed[i].1)
  {
    seq(|ElementSchemas()|, i requires 0 <= i < |ElementSchemas()| => ElementSchemas()[i].0)
  }

  // ---------------------------------------------------------------------
  // Properties
  // ---------------------------------------------------------------------

  /** The '/' after an area is not inside another area that has none. */
  lemma AreaNotShorter(a1: string, s1: string, a2: string, s2: string)
    requires '/' !in a2
    requires Key(a1, s1) == Key(a2, s2)
    ensures |a1| >= |a2|
  {
    var k := Key(a1, s1);
    assert k[|a1|] == '/';
    assert forall j :: 0 <= j < |a2| ==> k[j] == a2[j];
  }

  /** A key splits back into its area and sub-category when the areas have no '/'. */
  lemma KeySplits(a1: string, s1: string, a2: string, s2: string)
    requires '/' !in a1 && '/' !in a2
    requires Key(a1, s1) == Key(a2, s2)
    ensures a1 == a2 && s1 == s2
  {
    AreaNotShorter(a1, s1, a2, s2);
    AreaNotShorter(a2, s2, a1, s1);
    var k := Key(a1, s1);
    assert a1 == k[..|a1|] == a2;
    assert s1 == k[|a1| + 1..] == s2;
  }

  /** No area of the table holds a '/', and no (area, sub-category) pair is filed twice. */
  lemma PairsDistinct()
    ensures forall i :: 0 <= i < |Filed| ==> '/' !in Filed[i].0
    ensures forall j, k :: 0 <= j < k < |Filed| ==> (Filed[j].0, Filed[j].1) != (Filed[k].0, Filed[k].1)
  {
  }

  /** `dict.get` finds a key exactly when the table holds it, and then a schema filed under it. */
  lemma {:induction false} LookupSpec(table: seq<(string, Schema)>, key: string)
    ensures Lookup(table, key).Some? <==> exists i :: 0 <= i < |table| && table[i].0 == key
    ensures Lookup(table, key).Some? ==> exists i :: 0 <= i < |table| && table[i] == (key, Lookup(table, key).value)
  {
    if table != [] && table[0].0 != key {
      LookupSpec(table[1..], key);
      assert forall i :: 1 <= i < |table| ==> table[1..][i - 1] == table[i];
      if Lookup(table, key).Some? {
        var i :| 0 <= i < |table[1..]| && table[1..][i] == (key, Lookup(table, key).value);
        assert table[i + 1] == (key, Lookup(table, key).value);
      }
    }
  }

  /** In a table without repeated keys, each key finds its own entry. */
  lemma {:induction false} LookupDistinct(table: seq<(string, Schema)>, i: nat)
    requires i < |table|
    requires forall j, k :: 0 <= j < k < |table| ==> table[j].0 != table[k].0
    ensures Lookup(table, table[i].0) == Some(table[i].1)
  {
    if i > 0 {
      assert table[0].0 != table[i].0;
      LookupDistinct(table[1..], i - 1);
    }
  }

  /** The 22 keys are distinct. */
  lemma KeysDistinct()
    ensures |ElementSchemas()| == 22
    ensures forall j, k :: 0 <= j < k < |ElementSchemas()| ==> ElementSchemas()[j].0 != ElementSchemas()[k].0
  {
    PairsDistinct();
    forall j, k | 0 <= j < k < |ElementSchemas()| ensures ElementSchemas()[j].0 != ElementSchemas()[k].0 {
      if ElementSchemas()[j].0 == ElementSchemas()[k].0 {
        KeySplits(Filed[j].0, Filed[j].1, Filed[k].0, Filed[k].1);
      }
    }
  }

  /** The pair filed at position `i` finds the schema filed there. */
  lemma FiledAt(i: nat)
    requires i < |Filed|
    ensures GetElementSchema(Filed[i].0, Filed[i].1) == Some(Filed[i].2)
  {
    KeysDistinct();
    LookupDistinct(ElementSchemas(), i);
  }

  /**
   * The listed keys are 22, distinct, and each finds the schema filed
   * under it.
   */
  lemma ListedKeysResolve()
    ensures |GetAreasWithSchemas()| == 22
    ensures forall j, k :: 0 <= j < k < 22 ==> GetAreasWithSchemas()[j] != GetAreasWithSchemas()[k]
    ensures forall i :: 0 <= i < 22 ==> Lookup(ElementSchemas(), GetAreasWithSchemas()[i]) == Some(Filed[i].2)
  {
    KeysDistinct();
    forall i | 0 <= i < 22 ensures Lookup(ElementSchemas(), GetAreasWithSchemas()[i]) == Some(Filed[i].2) {
      LookupDistinct(ElementSchemas(), i);
    }
  }

  /** Every schema is found under its own area and sub-category. */
  lemma SchemaRoundTrip()
    ensures forall s :: s in Schemas ==> GetElementSchema(s.area, s.subCategory) == Some(s)
  {
    TenancyAliases();
    EmploymentAliases();
    FamilyAliases();
    ConsumerAliases();
    FiledAt(21);
  }

  /** Tenancy aliases find the schema of their canonical key. */
  lemma TenancyAliases()
    ensures GetElementSchema("tenancy", "bond_dispute") == GetElementSchema("tenancy", "bond_refund") == Some(TenancyBondRefund)
    ensures GetElementSchema("tenancy", "eviction") == GetElementSchema("tenancy", "eviction_notice") == Some(TenancyEviction)
    ensures GetElementSchema("tenancy", "repairs") == GetElementSchema("tenancy", "repairs_maintenance") == Some(TenancyRepairs)
  {
    FiledAt(0);
    FiledAt(1);
    FiledAt(2);
    FiledAt(3);
    FiledAt(4);
    FiledAt(5);
  }

  /** Employment aliases find the schema of their canonical key. */
  lemma EmploymentAliases()
    ensures GetElementSchema("employment", "unfair_termination") == GetElementSchema("employment", "unfair_dismissal") == Some(EmploymentUnfairDismissal)
    ensures GetElementSchema("employment", "wages") == GetElementSchema("employment", "underpayment") == Some(EmploymentUnderpayment)
    ensures GetElementSchema("employment", "wage_theft") == GetElementSchema("employment", "underpayment")
  {
    FiledAt(6);
    FiledAt(7);
    FiledAt(8);
    FiledAt(9);
    FiledAt(10);
  }

  /** Family aliases find the schema of their canonical key. */
  lemma FamilyAliases()
    ensures GetElementSchema("family", "domestic_violence") == GetElementSchema("family", "domestic_violence_order") == Some(FamilyDomesticViolenceOrder)
    ensures GetElementSchema("family", "dvo") == GetElementSchema("family", "domestic_violence_order")
    ensures GetElementSchema("family", "avo") == GetElementSchema("family", "domestic_violence_order")
    ensures GetElementSchema("family", "custody") == GetElementSchema("family", "child_custody") == Some(FamilyChildCustody)
    ensures GetElementSchema("family", "parenting") == GetElementSchema("family", "child_custody")
  {
    FiledAt(11);
    FiledAt(12);
    FiledAt(13);
    FiledAt(14);
    FiledAt(15);
    FiledAt(16);
    FiledAt(17);
  }

  /**
   * Consumer aliases find the consumer refund schema; the key's area need
   * not be the schema's: "contract/refund" files a consumer schema.
   */
  lemma ConsumerAliases()
    ensures GetElementSchema("consumer", "consumer_guarantee") == GetElementSchema("consumer", "refund") == Some(ConsumerRefund)
    ensures GetElementSchema("contract", "refund") == GetElementSchema("consumer", "refund")
    ensures GetElementSchema("contract", "refund").value.area == "consumer"
  {
    FiledAt(18);
    FiledAt(19);
    FiledAt(20);
  }

  /**
   * A pair that is not filed finds nothing (when its area has no '/'): keys
   * are matched exactly, so "Tenancy" is not "tenancy".
   */
  lemma UnfiledFindsNothing(area: string, subCategory: string)
    requires '/' !in area
    requires forall i :: 0 <= i < |Filed| ==> (Filed[i].0, Filed[i].1) != (area, subCategory)
    ensures GetElementSchema(area, subCategory) == None
  {
    PairsDistinct();
    LookupSpec(ElementSchemas(), Key(area, subCategory));
    forall i | 0 <= i < |ElementSchemas()| ensures ElementSchemas()[i].0 != Key(area, subCategory) {
      if ElementSchemas()[i].0 == Key(area, subCategory) {
        KeySplits(Filed[i].0, Filed[i].1, area, subCategory);
      }
    }
  }

  lemma UnknownKeys()
    ensures GetElementSchema("Tenancy", "bond_refund") == None
    ensures GetElementSchema("tenancy", "") == None
  {
    UnfiledFindsNothing("Tenancy", "bond_refund");
    UnfiledFindsNothing("tenancy", "");
  }
}
