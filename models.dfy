/**
 * The records of the catalog: terms and their variants, prevalence
 * statements, frequency encodings and the two association kinds, with their
 * field defaults and their code decoders (`get_type`, `get_value`, ...).
 */
module Models {
  import opened Wrappers
  import opened Codes

  /** Primary keys (UUIDs in their text form). */
  type Id = string

  /**
   * The concrete variant of a Term row. `PlainTerm` is a row of the base
   * table only: the base Term table is concrete, not abstract.
   */
  datatype Kind =
    | PlainTerm
    | DiseaseTerm
    | GeneTerm(symbol: string, locus: Option<string>)
    | PhenotypeTerm
    | InheritanceTerm
    | ReferenceTerm

  /** A row of the Term hierarchy: the shared base fields and the variant. */
  datatype Term = Term(cui: string, labelText: string, url: string,
                       description: Option<string>, kind: Kind)

  /** A prevalence statement; the four coded dimensions hold raw codes. */
  datatype Prevalence = Prevalence(ptype: string, pqual: string, pclass: string,
                                   geo: string, status: string)
  {
    /** `get_type`: decoded only when `ptype` is a listed code. */
    function GetType(): (r: Option<string>)
      ensures r.Some? <==> Listed(PTYPE, ptype)
    {
      LookupMissing(PTYPE, ptype);
      Lookup(PTYPE, ptype)
    }

    /** `get_qualification` */
    function GetQualification(): (r: Option<string>)
      ensures r.Some? <==> Listed(PQUAL, pqual)
    {
      LookupMissing(PQUAL, pqual);
      Lookup(PQUAL, pqual)
    }

    /** `get_class` */
    function GetClass(): (r: Option<string>)
      ensures r.Some? <==> Listed(PCLASS, pclass)
    {
      LookupMissing(PCLASS, pclass);
      Lookup(PCLASS, pclass)
    }

    /** `get_status` */
    function GetStatus(): (r: Option<string>)
      ensures r.Some? <==> Listed(PSTATUS, status)
    {
      LookupMissing(PSTATUS, status);
      Lookup(PSTATUS, status)
    }
  }

  /**
   * A frequency encoding: an HPO frequency band, free text, or both. Either
   * may be null in a value; the store refuses a row with neither.
   */
  datatype Frequency = Frequency(value: Option<string>, other: Option<string>)
  {
    /** The check constraint `frequency_not_null`. */
    predicate NotNull()
    {
      other.Some? || value.Some?
    }

    /** `get_value`: a null band never matches a key, so it decodes to null. */
    function GetValue(): (r: Option<string>)
      ensures r.Some? <==> value.Some? && Listed(FREQUENCY, value.value)
    {
      match value
      case None => None
      case Some(code) =>
        LookupMissing(FREQUENCY, code);
        Lookup(FREQUENCY, code)
    }
  }

  /** A Disease-Gene association row. */
  datatype GeneAssoc = GeneAssoc(
    name: string,
    status: string,
    comments: Option<string>,
    disease: Id,
    gene: Id,
    assocType: string,
    references: set<Id>,
    modifiedBy: Option<Id>,
    createdBy: Option<Id>)
  {
    /** `get_type` */
    function GetType(): (r: Option<string>)
      ensures r.Some? <==> Listed(TYPES, assocType)
    {
      LookupMissing(TYPES, assocType);
      Lookup(TYPES, assocType)
    }
  }

  /** A Disease-Phenotype association row. */
  datatype PhenoAssoc = PhenoAssoc(
    name: string,
    status: string,
    comments: Option<string>,
    disease: Id,
    phenotype: Id,
    evidence: string,
    frequency: Option<Id>,
    onset: Option<string>,
    sex: Option<string>,
    modifier: Option<Id>,
    aspect: string,
    references: set<Id>,
    modifiedBy: Option<Id>,
    createdBy: Option<Id>)
  {
    /** `get_onset`: a null onset decodes to null. */
    function GetOnset(): (r: Option<string>)
      ensures r.Some? <==> onset.Some? && Listed(ONSET, onset.value)
    {
      match onset
      case None => None
      case Some(code) =>
        LookupMissing(ONSET, code);
        Lookup(ONSET, code)
    }

    /** `get_evidence` */
    function GetEvidence(): (r: Option<string>)
      ensures r.Some? <==> Listed(EVIDENCE, evidence)
    {
      LookupMissing(EVIDENCE, evidence);
      Lookup(EVIDENCE, evidence)
    }

    /** `get_aspect` */
    function GetAspect(): (r: Option<string>)
      ensures r.Some? <==> Listed(ASPECT, aspect)
    {
      LookupMissing(ASPECT, aspect);
      Lookup(ASPECT, aspect)
    }
  }

  // ---------------------------------------------------------------------
  // Freshly created records: the field defaults.
  // ---------------------------------------------------------------------

  /** A new Prevalence: type 'P', qualification 'V', class 'D', status 'A'. */
  function NewPrevalence(geo: string): (p: Prevalence)
    ensures p.geo == geo
    ensures p.GetType() == Some("Point prevalence")
    ensures p.GetQualification() == Some("Value and class")
    ensures p.GetClass() == Some("1-9 / 1 000 000")
    ensures p.GetStatus() == Some("Validated")
  {
    Prevalence("P", "V", "D", geo, "A")
  }

  /** A new Disease-Gene association: status 'U', no references, no users. */
  function NewGeneAssoc(disease: Id, gene: Id, assocType: string): (a: GeneAssoc)
    ensures a.disease == disease && a.gene == gene && a.assocType == assocType
    ensures a.name == "DiseaseGeneAssociation"
    ensures Lookup(STATUS, a.status) == Some("Unknown")
    ensures a.comments.None? && a.references == {}
    ensures a.createdBy.None? && a.modifiedBy.None?
  {
    GeneAssoc("DiseaseGeneAssociation", "U", None, disease, gene, assocType,
              {}, None, None)
  }

  /**
   * A new Disease-Phenotype association: status 'U', aspect 'P', and the
   * evidence default '', which is not a listed evidence code.
   */
  function NewPhenoAssoc(disease: Id, phenotype: Id): (a: PhenoAssoc)
    ensures a.disease == disease && a.phenotype == phenotype
    ensures a.name == "DiseasePhenotypeAssociation"
    ensures Lookup(STATUS, a.status) == Some("Unknown")
    ensures a.GetAspect() == Some("Phenotypic abnormality")
    ensures a.GetEvidence().None?
    ensures a.frequency.None? && a.onset.None? && a.sex.None? && a.modifier.None?
    ensures a.comments.None? && a.references == {}
    ensures a.createdBy.None? && a.modifiedBy.None?
  {
    PhenoAssoc("DiseasePhenotypeAssociation", "U", None, disease, phenotype, "",
               None, None, None, None, "P", {}, None, None)
  }

  /** The band 'HP:0040282' decodes to its label. */
  lemma FrequentBandDecodes(other: Option<string>)
    ensures Frequency(Some("HP:0040282"), other).GetValue() ==
            Some("Frequent (present in 30% to 79% of the cases)")
  {
    DecodeListedCodes();
    assert FREQUENCY[2].0 == "HP:0040282";
  }
}
