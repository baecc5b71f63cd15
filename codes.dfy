/**
 * The fixed code -> label tables of the catalog and the first-match lookup
 * (`get_tuple`) through which every display decoder goes.
 */
module Codes {
  import opened Wrappers

  /** An association list of (code, label) pairs, in declaration order. */
  type Table = seq<(string, string)>

  /** The label paired with the first entry whose key is `key`, if any. */
  function Lookup<K(==), V>(table: seq<(K, V)>, key: K): Option<V>
  {
    if |table| == 0 then None
    else if table[0].0 == key then Some(table[0].1)
    else Lookup(table[1..], key)
  }

  /** `get_tuple`: scan the pairs in order and stop at the first key match. */
  method GetTuple<K(==), V>(table: seq<(K, V)>, key: K) returns (r: Option<V>)
    ensures r == Lookup(table, key)
  {
    for i := 0 to |table|
      invariant Lookup(table, key) == Lookup(table[i..], key)
    {
      assert table[i..][1..] == table[i + 1..];
      if key == table[i].0 {
        return Some(table[i].1);
      }
    }
    return None;
  }

  /** No two entries of the table share a key. */
  ghost predicate DistinctKeys<K, V>(table: seq<(K, V)>)
  {
    forall i, j :: 0 <= i < j < |table| ==> table[i].0 != table[j].0
  }

  /** `key` is the key of some entry. */
  ghost predicate Listed<K, V>(table: seq<(K, V)>, key: K)
  {
    exists i :: 0 <= i < |table| && table[i].0 == key
  }

  /**
   * Lookup yields `Some(v)` exactly when some entry carries `key` and `v`
   * and no earlier entry carries `key`.
   */
  lemma {:induction false} LookupFirstMatch<K, V>(table: seq<(K, V)>, key: K, v: V)
    ensures Lookup(table, key) == Some(v) <==>
            exists i :: 0 <= i < |table| && table[i] == (key, v) &&
                        forall j :: 0 <= j < i ==> table[j].0 != key
  {
    if |table| > 0 {
      LookupFirstMatch(table[1..], key, v);
      if Lookup(table, key) == Some(v) {
        if table[0].0 == key {
          assert table[0] == (key, v);
        } else {
          var i :| 0 <= i < |table[1..]| && table[1..][i] == (key, v) &&
                   forall j :: 0 <= j < i ==> table[1..][j].0 != key;
          assert table[i + 1] == (key, v);
          assert forall j :: 0 <= j < i + 1 ==> table[j].0 != key by {
            forall j | 0 < j < i + 1 ensures table[j].0 != key {
              assert table[j] == table[1..][j - 1];
            }
          }
        }
      }
      if exists i :: 0 <= i < |table| && table[i] == (key, v) &&
                     forall j :: 0 <= j < i ==> table[j].0 != key {
        var i :| 0 <= i < |table| && table[i] == (key, v) &&
                 forall j :: 0 <= j < i ==> table[j].0 != key;
        if i > 0 {
          assert table[1..][i - 1] == (key, v);
          assert forall j :: 0 <= j < i - 1 ==> table[1..][j].0 != key by {
            forall j | 0 <= j < i - 1 ensures table[1..][j].0 != key {
              assert table[1..][j] == table[j + 1];
            }
          }
        }
      }
    }
  }

  /** Lookup yields `None` exactly when no entry carries `key`. */
  lemma {:induction false} LookupMissing<K, V>(table: seq<(K, V)>, key: K)
    ensures Lookup(table, key).None? <==> !Listed(table, key)
  {
    if |table| > 0 {
      LookupMissing(table[1..], key);
      if Listed(table[1..], key) {
        var i :| 0 <= i < |table[1..]| && table[1..][i].0 == key;
        assert table[i + 1].0 == key;
      }
      if Listed(table, key) && table[0].0 != key {
        var i :| 0 <= i < |table| && table[i].0 == key;
        assert table[1..][i - 1].0 == key;
      }
    }
  }

  /** With pairwise-distinct keys, every listed code decodes to its own label. */
  lemma {:induction false} LookupListed<K, V>(table: seq<(K, V)>, i: nat)
    requires DistinctKeys(table)
    requires i < |table|
    ensures Lookup(table, table[i].0) == Some(table[i].1)
  {
    if i > 0 {
      assert table[1..][i - 1] == table[i];
      LookupListed(table[1..], i - 1);
    }
  }

  // ---------------------------------------------------------------------
  // The code tables, entry for entry and in declaration order.
  // ---------------------------------------------------------------------

  /** `Relationship.STATUS` */
  const STATUS: Table := [
    ("U", "Unknown"),
    ("V", "Validated"),
    ("P", "Pending")
  ]

  /** `Prevalence.PTYPE` */
  const PTYPE: Table := [
    ("C", "Cases/families"),
    ("P", "Point prevalence"),
    ("A", "Annual incidence"),
    ("B", "Prevalence at birth"),
    ("L", "Lifetime Prevalence")
  ]

  /** `Prevalence.PQUAL` */
  const PQUAL: Table := [
    ("S", "Case"),
    ("V", "Value and class"),
    ("C", "Class only"),
    ("F", "Family")
  ]

  /** `Prevalence.PCLASS` */
  const PCLASS: Table := [
    ("A", ">1 / 1000"),
    ("B", "<1 / 1 000 000"),
    ("C", "1-5 / 10 000"),
    ("D", "1-9 / 1 000 000"),
    ("E", "1-9 / 100 000"),
    ("F", "6-9 / 10 000"),
    ("X", "Not yet documented"),
    ("U", "Unknown")
  ]

  /** `Prevalence.PSTATUS` */
  const PSTATUS: Table := [
    ("A", "Validated"),
    ("B", "Not yet validated")
  ]

  /** `DiseaseGeneAssociation.TYPES` */
  const TYPES: Table := [
    ("Orphanet_317343", "disease-causing germline mutation(s) in"),
    ("Orphanet_317344", "disease-causing somatic mutation(s) in"),
    ("Orphanet_317345", "major susceptibility factor in"),
    ("Orphanet_317346", "modifying germline mutation in"),
    ("Orphanet_317348", "part of a fusion gene in"),
    ("Orphanet_317349", "role in the phenotype of"),
    ("Orphanet_327767", "candidate gene tested in"),
    ("Orphanet_410295", "disease-causing germline mutation(s) (loss of function) in"),
    ("Orphanet_410296", "disease-causing germline mutation(s) (gain of function) in"),
    ("Orphanet_465410", "biomarker tested in")
  ]

  /** `Frequency.FREQUENCY` */
  const FREQUENCY: Table := [
    ("HP:0040280", "Obligate (always present, i.e., in 100% of the cases)"),
    ("HP:0040281", "Very frequent (present in 80% to 99% of the cases)"),
    ("HP:0040282", "Frequent (present in 30% to 79% of the cases)"),
    ("HP:0040283", "Occasional (present in 5% to 29% of the cases)"),
    ("HP:0040284", "Very rare (present in 1% to 4% of the cases)"),
    ("HP:0040285", "Excluded (present in 0% of the cases)")
  ]

  /** `DiseasePhenotypeAssociation.EVIDENCE` */
  const EVIDENCE: Table := [
    ("PCS", "Published clinical study (PCS)"),
    ("IEA", "Inferred from electronic annotation (IEA)"),
    ("TAS", "Traceable author statement (TAS)")
  ]

  /** `DiseasePhenotypeAssociation.SEX` */
  const SEX: Table := [
    ("M", "Male"),
    ("F", "Female"),
    ("X", "Unknown")
  ]

  /** `DiseasePhenotypeAssociation.ASPECT` */
  const ASPECT: Table := [
    ("P", "Phenotypic abnormality"),
    ("I", "Inheritance"),
    ("C", "Onset and clinical course")
  ]

  /** `DiseasePhenotypeAssociation.ONSET` */
  const ONSET: Table := [
    ("HP:0030674", "Antenatal onset (prior to birth)"),
    ("HP:0003623", "Neonatal onset (within the first 28 days of life)"),
    ("HP:0011461", "Fetal onset (prior to birth but after 8 weeks of gestation)"),
    ("HP:0011460", "Embryonal onset (up to 8 weeks of gestation)"),
    ("HP:0003577", "Congenital onset (present at birth)"),
    ("HP:0410280", "Pediatric onset (before the age of 16 years, but excluding neonatal or congenital onset)"),
    ("HP:0003593", "Infantile onset (between 28 days to one year of life)"),
    ("HP:0011463", "Childhood onset (age of between 1 and 5 years)"),
    ("HP:0003621", "Juvenile onset (between the age of 5 and 15 years)"),
    ("HP:0003581", "Adult onset (age of 16 years or later)"),
    ("HP:0011462", "Young adult onset (age between 16 and 40 years)"),
    ("HP:0003596", "Middle age onset (age between 40 and 60 years)"),
    ("HP:0003584", "Late onset (after age of 60 years)")
  ]

  /** The short code tables have pairwise-distinct keys. */
  lemma ShortTablesHaveDistinctKeys()
    ensures DistinctKeys(STATUS) && DistinctKeys(PTYPE) && DistinctKeys(PQUAL)
    ensures DistinctKeys(PCLASS) && DistinctKeys(PSTATUS) && DistinctKeys(EVIDENCE)
    ensures DistinctKeys(SEX) && DistinctKeys(ASPECT)
  {
  }

  /** The association types and the frequency bands have pairwise-distinct keys. */
  lemma TypeAndBandTablesHaveDistinctKeys()
    ensures DistinctKeys(TYPES) && DistinctKeys(FREQUENCY)
  {
  }

  /** The onset codes are pairwise distinct. */
  lemma OnsetTableHasDistinctKeys()
    ensures DistinctKeys(ONSET)
  {
  }

  /** Every listed code of `table` decodes to its own label. */
  ghost predicate DecodesListed(table: Table)
  {
    forall i :: 0 <= i < |table| ==> Lookup(table, table[i].0) == Some(table[i].1)
  }

  lemma DistinctKeysDecode(table: Table)
    requires DistinctKeys(table)
    ensures DecodesListed(table)
  {
    forall i | 0 <= i < |table| ensures Lookup(table, table[i].0) == Some(table[i].1) {
      LookupListed(table, i);
    }
  }

  /** Decoding any listed code of any table returns exactly its paired label. */
  lemma DecodeListedCodes()
    ensures DecodesListed(STATUS) && DecodesListed(PTYPE) && DecodesListed(PQUAL)
    ensures DecodesListed(PCLASS) && DecodesListed(PSTATUS) && DecodesListed(TYPES)
    ensures DecodesListed(FREQUENCY) && DecodesListed(EVIDENCE) && DecodesListed(SEX)
    ensures DecodesListed(ASPECT) && DecodesListed(ONSET)
  {
    ShortTablesHaveDistinctKeys();
    TypeAndBandTablesHaveDistinctKeys();
    OnsetTableHasDistinctKeys();
    DistinctKeysDecode(STATUS);
    DistinctKeysDecode(PTYPE);
    DistinctKeysDecode(PQUAL);
    DistinctKeysDecode(PCLASS);
    DistinctKeysDecode(PSTATUS);
    DistinctKeysDecode(TYPES);
    DistinctKeysDecode(FREQUENCY);
    DistinctKeysDecode(EVIDENCE);
    DistinctKeysDecode(SEX);
    DistinctKeysDecode(ASPECT);
    DistinctKeysDecode(ONSET);
  }
}
