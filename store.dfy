/**
 * The database behind the catalog: one table per record kind, the unique and
 * check constraints as a class invariant, guarded inserts, and deletes that
 * cascade (or set null) along the foreign keys.
 */
module Store {
  import opened Wrappers
  import opened Models

  /** Why the database refuses a write. */
  datatype StoreError =
    | DuplicateCui        // unique constraint on Term.cui
    | DuplicatePair       // unique_disease_gene_assoc / unique_disease_pheno_assoc
    | DuplicateFrequency  // unique_frequency
    | NullFrequency       // frequency_not_null
    | MissingRow          // a foreign key that names no row of the right table

  /** The result of a write: committed, or refused with no effect. */
  datatype Outcome = Saved | Rejected(error: StoreError)

  // ---------------------------------------------------------------------
  // Conditions that decide a write.
  // ---------------------------------------------------------------------

  /** Some Term row, of any variant, already carries `cui`. */
  predicate CuiTaken(terms: map<Id, Term>, cui: string)
  {
    exists k :: k in terms && terms[k].cui == cui
  }

  /** An association row already links `disease` and `gene`. */
  predicate GenePairTaken(m: map<Id, GeneAssoc>, disease: Id, gene: Id)
  {
    exists k :: k in m && m[k].disease == disease && m[k].gene == gene
  }

  /** An association row already links `disease` and `phenotype`. */
  predicate PhenoPairTaken(m: map<Id, PhenoAssoc>, disease: Id, phenotype: Id)
  {
    exists k :: k in m && m[k].disease == disease && m[k].phenotype == phenotype
  }

  /**
   * A unique constraint treats null as distinct from everything, null
   * included: `f` clashes only when both its columns are set and an equal
   * row exists.
   */
  predicate FrequencyTaken(m: map<Id, Frequency>, f: Frequency)
  {
    f.value.Some? && f.other.Some? && exists k :: k in m && m[k] == f
  }

  predicate IsDisease(terms: map<Id, Term>, id: Id)
  {
    id in terms && terms[id].kind.DiseaseTerm?
  }

  predicate IsGene(terms: map<Id, Term>, id: Id)
  {
    id in terms && terms[id].kind.GeneTerm?
  }

  predicate IsPhenotype(terms: map<Id, Term>, id: Id)
  {
    id in terms && terms[id].kind.PhenotypeTerm?
  }

  predicate AreReferences(terms: map<Id, Term>, refs: set<Id>)
  {
    forall r :: r in refs ==> r in terms && terms[r].kind.ReferenceTerm?
  }

  /** A nullable user link is null or names an existing user. */
  predicate UserOrNull(users: set<Id>, u: Option<Id>)
  {
    u.Some? ==> u.value in users
  }

  /** Every foreign key of a Disease-Gene row names a row of the right table. */
  predicate GeneAssocLinked(terms: map<Id, Term>, users: set<Id>, a: GeneAssoc)
  {
    && IsDisease(terms, a.disease)
    && IsGene(terms, a.gene)
    && AreReferences(terms, a.references)
    && UserOrNull(users, a.modifiedBy)
    && UserOrNull(users, a.createdBy)
  }

  /** Every foreign key of a Disease-Phenotype row names a row of the right table. */
  predicate PhenoAssocLinked(terms: map<Id, Term>, freqs: map<Id, Frequency>,
                             users: set<Id>, a: PhenoAssoc)
  {
    && IsDisease(terms, a.disease)
    && IsPhenotype(terms, a.phenotype)
    && (a.frequency.Some? ==> a.frequency.value in freqs)
    && (a.modifier.Some? ==> a.modifier.value in terms)
    && AreReferences(terms, a.references)
    && UserOrNull(users, a.modifiedBy)
    && UserOrNull(users, a.createdBy)
  }

  // ---------------------------------------------------------------------
  // The constraints of the schema, table by table.
  // ---------------------------------------------------------------------

  /** `cui` is unique across the whole Term hierarchy. */
  ghost predicate CuiUnique(terms: map<Id, Term>)
  {
    forall a, b :: a in terms && b in terms && a != b ==> terms[a].cui != terms[b].cui
  }

  ghost predicate GenePairsUnique(m: map<Id, GeneAssoc>)
  {
    forall a, b :: a in m && b in m && a != b ==>
      m[a].disease != m[b].disease || m[a].gene != m[b].gene
  }

  ghost predicate PhenoPairsUnique(m: map<Id, PhenoAssoc>)
  {
    forall a, b :: a in m && b in m && a != b ==>
      m[a].disease != m[b].disease || m[a].phenotype != m[b].phenotype
  }

  ghost predicate FrequenciesNotNull(m: map<Id, Frequency>)
  {
    forall k :: k in m ==> m[k].NotNull()
  }

  /** Two distinct rows are equal only if one of their columns is null. */
  ghost predicate FrequenciesUnique(m: map<Id, Frequency>)
  {
    forall a, b :: a in m && b in m && a != b && m[a] == m[b] ==>
      m[a].value.None? || m[a].other.None?
  }

  ghost predicate GeneAssocsLinked(terms: map<Id, Term>, users: set<Id>, m: map<Id, GeneAssoc>)
  {
    forall k :: k in m ==> GeneAssocLinked(terms, users, m[k])
  }

  ghost predicate PhenoAssocsLinked(terms: map<Id, Term>, freqs: map<Id, Frequency>,
                                    users: set<Id>, m: map<Id, PhenoAssoc>)
  {
    forall k :: k in m ==> PhenoAssocLinked(terms, freqs, users, m[k])
  }

  /** Every (disease, prevalence) link joins a Disease and a Prevalence. */
  ghost predicate EpidemiologyLinked(terms: map<Id, Term>, prevs: map<Id, Prevalence>,
                                     links: set<(Id, Id)>)
  {
    forall l :: l in links ==> IsDisease(terms, l.0) && l.1 in prevs
  }

  /** Every declared constraint of the schema, over the seven tables. */
  ghost predicate Schema(terms: map<Id, Term>, freqs: map<Id, Frequency>,
                         prevs: map<Id, Prevalence>, links: set<(Id, Id)>,
                         ga: map<Id, GeneAssoc>, pa: map<Id, PhenoAssoc>, users: set<Id>)
  {
    && CuiUnique(terms)
    && FrequenciesNotNull(freqs)
    && FrequenciesUnique(freqs)
    && GenePairsUnique(ga)
    && PhenoPairsUnique(pa)
    && GeneAssocsLinked(terms, users, ga)
    && PhenoAssocsLinked(terms, freqs, users, pa)
    && EpidemiologyLinked(terms, prevs, links)
  }

  // ---------------------------------------------------------------------
  // What deletes do to the association tables.
  // ---------------------------------------------------------------------

  /**
   * Deleting term `id`: Disease-Gene rows on either end go (CASCADE), and
   * the survivors lose `id` from their references.
   */
  function GeneCascade(m: map<Id, GeneAssoc>, id: Id): map<Id, GeneAssoc>
  {
    map k | k in m && m[k].disease != id && m[k].gene != id ::
      m[k].(references := m[k].references - {id})
  }

  /**
   * Deleting term `id`: Disease-Phenotype rows whose disease, phenotype or
   * modifier is `id` go (CASCADE), and the survivors lose `id` from their
   * references.
   */
  function PhenoCascade(m: map<Id, PhenoAssoc>, id: Id): map<Id, PhenoAssoc>
  {
    map k | k in m && m[k].disease != id && m[k].phenotype != id && m[k].modifier != Some(id) ::
      m[k].(references := m[k].references - {id})
  }

  /** The epidemiology links left when the Disease `id` goes. */
  function DropDisease(links: set<(Id, Id)>, id: Id): set<(Id, Id)>
  {
    set l | l in links && l.0 != id
  }

  /** The epidemiology links left when the Prevalence `id` goes. */
  function DropPrevalence(links: set<(Id, Id)>, id: Id): set<(Id, Id)>
  {
    set l | l in links && l.1 != id
  }

  /** Deleting Frequency `id`: the Disease-Phenotype rows that use it go (CASCADE). */
  function DropFrequency(m: map<Id, PhenoAssoc>, id: Id): map<Id, PhenoAssoc>
  {
    map k | k in m && m[k].frequency != Some(id) :: m[k]
  }

  /** SET_NULL: a link to the deleted user `u` becomes null. */
  function Unlink(link: Option<Id>, u: Id): Option<Id>
  {
    if link == Some(u) then None else link
  }

  function GeneSetNull(m: map<Id, GeneAssoc>, u: Id): map<Id, GeneAssoc>
  {
    map k | k in m :: m[k].(modifiedBy := Unlink(m[k].modifiedBy, u),
                            createdBy := Unlink(m[k].createdBy, u))
  }

  function PhenoSetNull(m: map<Id, PhenoAssoc>, u: Id): map<Id, PhenoAssoc>
  {
    map k | k in m :: m[k].(modifiedBy := Unlink(m[k].modifiedBy, u),
                            createdBy := Unlink(m[k].createdBy, u))
  }

  // ---------------------------------------------------------------------
  // Each write keeps each constraint.
  // ---------------------------------------------------------------------

  /** `m2` keeps every row of `m` unchanged. */
  ghost predicate Extends<V>(m: map<Id, V>, m2: map<Id, V>)
  {
    forall k :: k in m ==> k in m2 && m2[k] == m[k]
  }

  lemma CuiUniqueInsert(terms: map<Id, Term>, id: Id, t: Term)
    requires CuiUnique(terms) && id !in terms && !CuiTaken(terms, t.cui)
    ensures CuiUnique(terms[id := t])
  {
  }

  /** Adding rows to the referenced tables keeps every association linked. */
  lemma LinksGrow(terms: map<Id, Term>, terms2: map<Id, Term>,
                  freqs: map<Id, Frequency>, freqs2: map<Id, Frequency>,
                  prevs: map<Id, Prevalence>, prevs2: map<Id, Prevalence>,
                  users: set<Id>, users2: set<Id>,
                  ga: map<Id, GeneAssoc>, pa: map<Id, PhenoAssoc>, links: set<(Id, Id)>)
    requires Extends(terms, terms2) && Extends(freqs, freqs2) && Extends(prevs, prevs2)
    requires users <= users2
    requires GeneAssocsLinked(terms, users, ga)
    requires PhenoAssocsLinked(terms, freqs, users, pa)
    requires EpidemiologyLinked(terms, prevs, links)
    ensures GeneAssocsLinked(terms2, users2, ga)
    ensures PhenoAssocsLinked(terms2, freqs2, users2, pa)
    ensures EpidemiologyLinked(terms2, prevs2, links)
  {
    forall k | k in ga ensures GeneAssocLinked(terms2, users2, ga[k]) {
      assert GeneAssocLinked(terms, users, ga[k]);
    }
    forall k | k in pa ensures PhenoAssocLinked(terms2, freqs2, users2, pa[k]) {
      assert PhenoAssocLinked(terms, freqs, users, pa[k]);
    }
  }

  /** After deleting term `id`, the surviving Disease-Gene rows keep the schema. */
  lemma GeneCascadeKeeps(terms: map<Id, Term>, users: set<Id>, m: map<Id, GeneAssoc>, id: Id)
    requires GenePairsUnique(m) && GeneAssocsLinked(terms, users, m)
    ensures GenePairsUnique(GeneCascade(m, id))
    ensures GeneAssocsLinked(terms - {id}, users, GeneCascade(m, id))
  {
    var m2 := GeneCascade(m, id);
    forall k | k in m2 ensures GeneAssocLinked(terms - {id}, users, m2[k]) {
      assert GeneAssocLinked(terms, users, m[k]);
    }
  }

  /** After deleting term `id`, the surviving Disease-Phenotype rows keep the schema. */
  lemma PhenoCascadeKeeps(terms: map<Id, Term>, freqs: map<Id, Frequency>, users: set<Id>,
                          m: map<Id, PhenoAssoc>, id: Id)
    requires PhenoPairsUnique(m) && PhenoAssocsLinked(terms, freqs, users, m)
    ensures PhenoPairsUnique(PhenoCascade(m, id))
    ensures PhenoAssocsLinked(terms - {id}, freqs, users, PhenoCascade(m, id))
  {
    var m2 := PhenoCascade(m, id);
    forall k | k in m2 ensures PhenoAssocLinked(terms - {id}, freqs, users, m2[k]) {
      assert PhenoAssocLinked(terms, freqs, users, m[k]);
    }
  }

  /**
   * What deleting term `id` does to the Disease-Gene table: no surviving row
   * mentions `id`, every row that does not have `id` as an endpoint survives
   * with the same endpoints, and no row is created.
   */
  lemma GeneCascadeMeaning(m: map<Id, GeneAssoc>, id: Id)
    ensures forall k :: k in GeneCascade(m, id) ==>
              k in m && GeneCascade(m, id)[k].disease != id &&
              GeneCascade(m, id)[k].gene != id && id !in GeneCascade(m, id)[k].references
    ensures forall k :: k in m && m[k].disease != id && m[k].gene != id ==>
              k in GeneCascade(m, id) &&
              GeneCascade(m, id)[k].disease == m[k].disease &&
              GeneCascade(m, id)[k].gene == m[k].gene
  {
  }

  /**
   * What deleting term `id` does to the Disease-Phenotype table: no
   * surviving row has `id` as disease, phenotype, modifier or reference, and
   * every row that does not depend on `id` survives with the same endpoints.
   */
  lemma PhenoCascadeMeaning(m: map<Id, PhenoAssoc>, id: Id)
    ensures forall k :: k in PhenoCascade(m, id) ==>
              k in m && PhenoCascade(m, id)[k].disease != id &&
              PhenoCascade(m, id)[k].phenotype != id &&
              PhenoCascade(m, id)[k].modifier != Some(id) &&
              id !in PhenoCascade(m, id)[k].references
    ensures forall k :: k in m && m[k].disease != id && m[k].phenotype != id &&
                        m[k].modifier != Some(id) ==>
              k in PhenoCascade(m, id) &&
              PhenoCascade(m, id)[k].disease == m[k].disease &&
              PhenoCascade(m, id)[k].phenotype == m[k].phenotype
  {
  }

  /** After deleting term `id`, the Term table and the epidemiology links keep the schema. */
  lemma TermDeleteKeeps(terms: map<Id, Term>, prevs: map<Id, Prevalence>,
                        links: set<(Id, Id)>, id: Id)
    requires CuiUnique(terms) && EpidemiologyLinked(terms, prevs, links)
    ensures CuiUnique(terms - {id})
    ensures EpidemiologyLinked(terms - {id}, prevs, DropDisease(links, id))
  {
  }

  /** After deleting user `u`, every association still keeps the schema. */
  lemma SetNullKeeps(terms: map<Id, Term>, freqs: map<Id, Frequency>, users: set<Id>,
                     ga: map<Id, GeneAssoc>, pa: map<Id, PhenoAssoc>, u: Id)
    requires GenePairsUnique(ga) && GeneAssocsLinked(terms, users, ga)
    requires PhenoPairsUnique(pa) && PhenoAssocsLinked(terms, freqs, users, pa)
    ensures GenePairsUnique(GeneSetNull(ga, u))
    ensures GeneAssocsLinked(terms, users - {u}, GeneSetNull(ga, u))
    ensures PhenoPairsUnique(PhenoSetNull(pa, u))
    ensures PhenoAssocsLinked(terms, freqs, users - {u}, PhenoSetNull(pa, u))
  {
    var ga2, pa2 := GeneSetNull(ga, u), PhenoSetNull(pa, u);
    forall k | k in ga2 ensures GeneAssocLinked(terms, users - {u}, ga2[k]) {
      assert GeneAssocLinked(terms, users, ga[k]);
    }
    forall k | k in pa2 ensures PhenoAssocLinked(terms, freqs, users - {u}, pa2[k]) {
      assert PhenoAssocLinked(terms, freqs, users, pa[k]);
    }
  }

  /** Deleting a Term, with its cascades, keeps every constraint of the schema. */
  lemma DeleteTermKeepsSchema(terms: map<Id, Term>, freqs: map<Id, Frequency>,
                              prevs: map<Id, Prevalence>, links: set<(Id, Id)>,
                              ga: map<Id, GeneAssoc>, pa: map<Id, PhenoAssoc>,
                              users: set<Id>, id: Id)
    requires Schema(terms, freqs, prevs, links, ga, pa, users)
    ensures Schema(terms - {id}, freqs, prevs, DropDisease(links, id),
                   GeneCascade(ga, id), PhenoCascade(pa, id), users)
  {
    TermDeleteKeeps(terms, prevs, links, id);
    GeneCascadeKeeps(terms, users, ga, id);
    PhenoCascadeKeeps(terms, freqs, users, pa, id);
  }

  /** Deleting a Frequency, with the rows that use it, keeps every constraint. */
  lemma DeleteFrequencyKeepsSchema(terms: map<Id, Term>, freqs: map<Id, Frequency>,
                                   prevs: map<Id, Prevalence>, links: set<(Id, Id)>,
                                   ga: map<Id, GeneAssoc>, pa: map<Id, PhenoAssoc>,
                                   users: set<Id>, id: Id)
    requires Schema(terms, freqs, prevs, links, ga, pa, users)
    ensures Schema(terms, freqs - {id}, prevs, links, ga, DropFrequency(pa, id), users)
  {
    var pa2 := DropFrequency(pa, id);
    forall k | k in pa2 ensures PhenoAssocLinked(terms, freqs - {id}, users, pa2[k]) {
      assert PhenoAssocLinked(terms, freqs, users, pa[k]);
    }
  }

  /** Deleting a user, nulling the links to it, keeps every constraint. */
  lemma DeleteUserKeepsSchema(terms: map<Id, Term>, freqs: map<Id, Frequency>,
                              prevs: map<Id, Prevalence>, links: set<(Id, Id)>,
                              ga: map<Id, GeneAssoc>, pa: map<Id, PhenoAssoc>,
                              users: set<Id>, u: Id)
    requires Schema(terms, freqs, prevs, links, ga, pa, users)
    ensures Schema(terms, freqs, prevs, links, GeneSetNull(ga, u), PhenoSetNull(pa, u), users - {u})
  {
    SetNullKeeps(terms, freqs, users, ga, pa, u);
  }

  /** The catalog's tables, mutated one committed write at a time. */
  class Catalog {
    var terms: map<Id, Term>
    var frequencies: map<Id, Frequency>
    var prevalences: map<Id, Prevalence>
    /** The plain many-to-many table Disease.epidemiology: (disease, prevalence). */
    var epidemiology: set<(Id, Id)>
    var geneAssocs: map<Id, GeneAssoc>
    var phenoAssocs: map<Id, PhenoAssoc>
    var users: set<Id>

    /** The declared constraints of the schema hold of the stored rows. */
    ghost predicate Valid()
      reads this
    {
      Schema(terms, frequencies, prevalences, epidemiology, geneAssocs, phenoAssocs, users)
    }

    constructor ()
      ensures Valid()
      ensures terms == map[] && frequencies == map[] && prevalences == map[]
      ensures epidemiology == {} && geneAssocs == map[] && phenoAssocs == map[]
      ensures users == {}
    {
      terms, frequencies, prevalences := map[], map[], map[];
      epidemiology := {};
      geneAssocs, phenoAssocs := map[], map[];
      users := {};
    }

    method AddUser(u: Id)
      requires Valid()
      modifies this`users
      ensures Valid()
      ensures users == old(users) + {u}
    {
      users := users + {u};
    }

    /** Create a Term of any variant; refused when its `cui` is taken by any variant. */
    method InsertTerm(id: Id, t: Term) returns (r: Outcome)
      requires Valid()
      requires id !in terms
      modifies this`terms
      ensures Valid()
      ensures r == if CuiTaken(old(terms), t.cui) then Rejected(DuplicateCui) else Saved
      ensures terms == if r.Saved? then old(terms)[id := t] else old(terms)
    {
      if CuiTaken(terms, t.cui) {
        return Rejected(DuplicateCui);
      }
      CuiUniqueInsert(terms, id, t);
      LinksGrow(terms, terms[id := t], frequencies, frequencies, prevalences, prevalences,
                users, users, geneAssocs, phenoAssocs, epidemiology);
      terms := terms[id := t];
      r := Saved;
    }

    /**
     * Create a Frequency; refused by the check constraint when both columns
     * are null, and by the unique constraint when an equal fully set row exists.
     */
    method InsertFrequency(id: Id, f: Frequency) returns (r: Outcome)
      requires Valid()
      requires id !in frequencies
      modifies this`frequencies
      ensures Valid()
      ensures r == if !f.NotNull() then Rejected(NullFrequency)
                   else if FrequencyTaken(old(frequencies), f) then Rejected(DuplicateFrequency)
                   else Saved
      ensures frequencies == if r.Saved? then old(frequencies)[id := f] else old(frequencies)
    {
      if !f.NotNull() {
        return Rejected(NullFrequency);
      }
      if FrequencyTaken(frequencies, f) {
        return Rejected(DuplicateFrequency);
      }
      frequencies := frequencies[id := f];
      r := Saved;
    }

    /** Create a Prevalence; no constraint beyond its identity. */
    method InsertPrevalence(id: Id, p: Prevalence)
      requires Valid()
      requires id !in prevalences
      modifies this`prevalences
      ensures Valid()
      ensures prevalences == old(prevalences)[id := p]
    {
      prevalences := prevalences[id := p];
    }

    /**
     * Add a Prevalence to a Disease's epidemiology; the same Prevalence may
     * be attached to any number of Diseases, and adding a present link is a
     * no-op.
     */
    method AttachPrevalence(disease: Id, prevalence: Id) returns (r: Outcome)
      requires Valid()
      modifies this`epidemiology
      ensures Valid()
      ensures r == if IsDisease(terms, disease) && prevalence in prevalences
                   then Saved else Rejected(MissingRow)
      ensures epidemiology == if r.Saved? then old(epidemiology) + {(disease, prevalence)}
                              else old(epidemiology)
    {
      if !(IsDisease(terms, disease) && prevalence in prevalences) {
        return Rejected(MissingRow);
      }
      epidemiology := epidemiology + {(disease, prevalence)};
      r := Saved;
    }

    /** Create a Disease-Gene association; a second row for the same pair is refused. */
    method InsertGeneAssoc(id: Id, a: GeneAssoc) returns (r: Outcome)
      requires Valid()
      requires id !in geneAssocs
      modifies this`geneAssocs
      ensures Valid()
      ensures r == if !GeneAssocLinked(terms, users, a) then Rejected(MissingRow)
                   else if GenePairTaken(old(geneAssocs), a.disease, a.gene) then Rejected(DuplicatePair)
                   else Saved
      ensures geneAssocs == if r.Saved? then old(geneAssocs)[id := a] else old(geneAssocs)
    {
      if !GeneAssocLinked(terms, users, a) {
        return Rejected(MissingRow);
      }
      if GenePairTaken(geneAssocs, a.disease, a.gene) {
        return Rejected(DuplicatePair);
      }
      geneAssocs := geneAssocs[id := a];
      r := Saved;
    }

    /** Create a Disease-Phenotype association; a second row for the same pair is refused. */
    method InsertPhenoAssoc(id: Id, a: PhenoAssoc) returns (r: Outcome)
      requires Valid()
      requires id !in phenoAssocs
      modifies this`phenoAssocs
      ensures Valid()
      ensures r == if !PhenoAssocLinked(terms, frequencies, users, a) then Rejected(MissingRow)
                   else if PhenoPairTaken(old(phenoAssocs), a.disease, a.phenotype) then Rejected(DuplicatePair)
                   else Saved
      ensures phenoAssocs == if r.Saved? then old(phenoAssocs)[id := a] else old(phenoAssocs)
    {
      if !PhenoAssocLinked(terms, frequencies, users, a) {
        return Rejected(MissingRow);
      }
      if PhenoPairTaken(phenoAssocs, a.disease, a.phenotype) {
        return Rejected(DuplicatePair);
      }
      phenoAssocs := phenoAssocs[id := a];
      r := Saved;
    }

    /**
     * Delete a Term of any variant. Only that Term row goes; associations
     * that hang on it go with it, links to it are dropped, and every other
     * Term, Frequency and Prevalence row stays.
     */
    method DeleteTerm(id: Id)
      requires Valid()
      modifies this`terms, this`geneAssocs, this`phenoAssocs, this`epidemiology
      ensures Valid()
      ensures terms == old(terms) - {id}
      ensures geneAssocs == GeneCascade(old(geneAssocs), id)
      ensures phenoAssocs == PhenoCascade(old(phenoAssocs), id)
      ensures epidemiology == DropDisease(old(epidemiology), id)
    {
      DeleteTermKeepsSchema(terms, frequencies, prevalences, epidemiology,
                            geneAssocs, phenoAssocs, users, id);
      terms, geneAssocs, phenoAssocs, epidemiology :=
        terms - {id}, GeneCascade(geneAssocs, id), PhenoCascade(phenoAssocs, id),
        DropDisease(epidemiology, id);
    }

    /** Delete a Frequency; the Disease-Phenotype rows that use it go with it. */
    method DeleteFrequency(id: Id)
      requires Valid()
      modifies this`frequencies, this`phenoAssocs
      ensures Valid()
      ensures frequencies == old(frequencies) - {id}
      ensures phenoAssocs == DropFrequency(old(phenoAssocs), id)
    {
      DeleteFrequencyKeepsSchema(terms, frequencies, prevalences, epidemiology,
                                 geneAssocs, phenoAssocs, users, id);
      frequencies, phenoAssocs := frequencies - {id}, DropFrequency(phenoAssocs, id);
    }

    /** Delete a Prevalence; its epidemiology links go, the Diseases stay. */
    method DeletePrevalence(id: Id)
      requires Valid()
      modifies this`prevalences, this`epidemiology
      ensures Valid()
      ensures prevalences == old(prevalences) - {id}
      ensures epidemiology == DropPrevalence(old(epidemiology), id)
    {
      prevalences := prevalences - {id};
      epidemiology := DropPrevalence(epidemiology, id);
    }

    method DeleteGeneAssoc(id: Id)
      requires Valid()
      modifies this`geneAssocs
      ensures Valid()
      ensures geneAssocs == old(geneAssocs) - {id}
    {
      geneAssocs := geneAssocs - {id};
    }

    method DeletePhenoAssoc(id: Id)
      requires Valid()
      modifies this`phenoAssocs
      ensures Valid()
      ensures phenoAssocs == old(phenoAssocs) - {id}
    {
      phenoAssocs := phenoAssocs - {id};
    }

    /**
     * Delete a user: `created_by`/`modified_by` links to it become null and
     * no association row is deleted.
     */
    method DeleteUser(u: Id)
      requires Valid()
      modifies this`users, this`geneAssocs, this`phenoAssocs
      ensures Valid()
      ensures users == old(users) - {u}
      ensures geneAssocs == GeneSetNull(old(geneAssocs), u)
      ensures phenoAssocs == PhenoSetNull(old(phenoAssocs), u)
      ensures geneAssocs.Keys == old(geneAssocs).Keys
      ensures phenoAssocs.Keys == old(phenoAssocs).Keys
    {
      DeleteUserKeepsSchema(terms, frequencies, prevalences, epidemiology,
                            geneAssocs, phenoAssocs, users, u);
      users, geneAssocs, phenoAssocs :=
        users - {u}, GeneSetNull(geneAssocs, u), PhenoSetNull(phenoAssocs, u);
    }
  }
}
