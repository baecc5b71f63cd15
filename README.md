# gardrail catalog core in Dafny

This project models the core of the gardrail biomedical catalog, a Django application. Its catalog holds Terms and their variants (Disease, Gene, Phenotype, Inheritance, Reference), Prevalence statements, Frequency encodings, and the Disease-Gene and Disease-Phenotype associations. The project models two parts of that core.

- **The data model** (`core/models.py`).
  - `get_tuple`, the first-match lookup through which every `get_*` decoder reads the fixed code tables.
  - The code tables themselves, entry for entry.
  - The field defaults of new records.
  - The write-time rules of the database, modelled as a store class `Store.Catalog` with one map per table:
    - the unique `cui` across the Term hierarchy;
    - the unique endpoint pairs of the associations;
    - the Frequency check constraint and its unique pair;
    - the foreign keys, with their CASCADE and SET_NULL delete rules.
- **The admin display helpers** (`core/admin.py`).
  - `link` and `show_frequency`.
  - The `<ul>` builders, which append one `<li>` per query row in a loop.
  - The five-entry `show_diseases` summary of Gene and Phenotype pages.

Modules:

- `Wrappers`: `Option`.
- `Codes`: `Lookup`, `GetTuple` and the tables.
- `Models`: the records, their decoders and their defaults.
- `Store`: the tables, the schema invariant, inserts and deletes.
- `Text`: concatenation and `'%d'`.
- `Admin`: the display helpers.

Query results enter the model as sequences in query order. Django's `reverse` and `urlencode` are the two uninterpreted functions of `Admin.Web`. Each builder returns the markup string it hands to `format_html`.

Two points where the model follows what the code does rather than what it might be read to mean:

- **Frequency uniqueness.** The `(value, other)` unique constraint is a database unique constraint, and databases treat null as distinct from every value, null included. Two Frequency rows therefore clash only when both columns are set and equal (`Store.FrequenciesUnique`). Rows such as `(null, "2/10 cases")` may repeat.
- **The base Term table.** It is concrete, not abstract: a row of the base table alone is a legal Term (`Models.PlainTerm`).

## Model

| member | source | states |
|---|---|---|
| `Codes.Lookup` | core/models.py:8-12 | The reference definition of `get_tuple`: the label of the first pair whose key equals `key`, or None when no pair has it. `LookupFirstMatch` and `LookupMissing` state its meaning. |
| `Codes.GetTuple` | core/models.py:8-12 | The loop over the pairs returns exactly `Lookup(table, key)`: the label of the first pair whose key matches, or None. |
| `Codes.LookupFirstMatch` | core/models.py:8-12 | The lookup yields `Some(v)` if and only if some pair is `(key, v)` and no earlier pair has that key. |
| `Codes.LookupMissing` | core/models.py:8-12 | The lookup yields None if and only if no pair carries the key. |
| `Codes.LookupListed` | core/models.py:8-12 | In a table with pairwise-distinct keys, the key of every pair decodes to that pair's own label. |
| `Codes.ShortTablesHaveDistinctKeys` | core/models.py:48-227 | STATUS, PTYPE, PQUAL, PCLASS, PSTATUS, EVIDENCE, SEX and ASPECT each have pairwise-distinct codes. |
| `Codes.TypeAndBandTablesHaveDistinctKeys` | core/models.py:147-188 | The ten association types and the six HPO frequency bands have pairwise-distinct codes. |
| `Codes.OnsetTableHasDistinctKeys` | core/models.py:228-242 | The thirteen onset codes are pairwise distinct. |
| `Codes.DistinctKeysDecode` | core/models.py:8-12 | Distinct keys imply that every listed code decodes to its paired label. |
| `Codes.DecodeListedCodes` | core/models.py:48-279 | In all eleven tables, decoding a listed code returns exactly its paired label. |
| `Models.Frequency.NotNull` | core/models.py:198-201 | The check constraint `frequency_not_null`: at least one of the band and the free text is set. |
| `Models.Prevalence.GetType` | core/models.py:117-118 | `get_type` decodes to a label exactly when the stored code is listed in PTYPE, and to None otherwise. |
| `Models.Prevalence.GetQualification` | core/models.py:120-121 | `get_qualification` decodes to a label exactly when the code is listed in PQUAL. |
| `Models.Prevalence.GetClass` | core/models.py:123-124 | `get_class` decodes to a label exactly when the code is listed in PCLASS. |
| `Models.Prevalence.GetStatus` | core/models.py:126-127 | `get_status` decodes to a label exactly when the code is listed in PSTATUS. |
| `Models.Frequency.GetValue` | core/models.py:205-206 | `get_value` decodes to a label exactly when the band is set and listed in FREQUENCY; a null band decodes to None. |
| `Models.GeneAssoc.GetType` | core/models.py:177-178 | `get_type` decodes to a label exactly when `assoc_type` is listed in TYPES. |
| `Models.PhenoAssoc.GetOnset` | core/models.py:272-273 | `get_onset` decodes to a label exactly when the onset is set and listed in ONSET. |
| `Models.PhenoAssoc.GetEvidence` | core/models.py:275-276 | `get_evidence` decodes to a label exactly when the evidence code is listed in EVIDENCE. |
| `Models.PhenoAssoc.GetAspect` | core/models.py:278-279 | `get_aspect` decodes to a label exactly when the aspect code is listed in ASPECT. |
| `Models.NewPrevalence` | core/models.py:102-109 | A new Prevalence decodes to "Point prevalence", "Value and class", "1-9 / 1 000 000" and "Validated". |
| `Models.NewGeneAssoc` | core/models.py:53-168 | A new Disease-Gene row is named "DiseaseGeneAssociation". Its status decodes to "Unknown". It has no comments, no references and no users. |
| `Models.NewPhenoAssoc` | core/models.py:243-263 | A new Disease-Phenotype row has status "Unknown" and aspect "Phenotypic abnormality". Its default evidence '' decodes to nothing. Every optional link is null. |
| `Models.FrequentBandDecodes` | core/models.py:181-206 | The band 'HP:0040282' decodes to "Frequent (present in 30% to 79% of the cases)", whatever the free text. |
| `Store.CuiUnique` | core/models.py:24 | No two Term rows of any variant carry the same `cui`. |
| `Store.GenePairsUnique` | core/models.py:171-175 | No two Disease-Gene rows share both their disease and their gene (`unique_disease_gene_assoc`). |
| `Store.PhenoPairsUnique` | core/models.py:266-270 | No two Disease-Phenotype rows share both their disease and their phenotype (`unique_disease_pheno_assoc`). |
| `Store.FrequenciesNotNull` | core/models.py:198-201 | Every stored Frequency satisfies `frequency_not_null`. |
| `Store.FrequenciesUnique` | core/models.py:194-197 | Two distinct Frequency rows are equal only when one of their columns is null: the `unique_frequency` constraint under SQL null semantics. |
| `Store.Schema` | core/models.py:24-270 | The conjunction of every declared constraint: the unique `cui`, the Frequency check and unique constraints, the two unique association pairs, and every foreign key naming a stored row of the right variant (users may be null). |
| `Store.GeneCascade` | core/models.py:161-164 | The Disease-Gene rows left when Term `id` goes: rows with `id` as disease or gene are dropped, and `id` leaves every reference set. `GeneCascadeMeaning` states this in both directions. |
| `Store.PhenoCascade` | core/models.py:245-257 | The Disease-Phenotype rows left when Term `id` goes: rows with `id` as disease, phenotype or modifier are dropped, and `id` leaves every reference set. `PhenoCascadeMeaning` states this in both directions. |
| `Store.DropDisease` | core/models.py:142 | The epidemiology join rows left when Disease `id` goes: those whose disease is not `id`. |
| `Store.DropPrevalence` | core/models.py:142 | The epidemiology join rows left when Prevalence `id` goes: those whose prevalence is not `id`. |
| `Store.DropFrequency` | core/models.py:248-249 | The Disease-Phenotype rows left when Frequency `id` goes: exactly those whose frequency is not `id`, unchanged. |
| `Store.GeneSetNull` | core/models.py:165-168 | Every Disease-Gene row stays, with a `created_by`/`modified_by` link to the deleted user replaced by null. |
| `Store.PhenoSetNull` | core/models.py:258-263 | Every Disease-Phenotype row stays, with a `created_by`/`modified_by` link to the deleted user replaced by null. |
| `Store.CuiUniqueInsert` | core/models.py:24 | Adding a Term whose cui no row of any variant carries keeps `cui` unique. |
| `Store.LinksGrow` | core/models.py:161-168 | Adding rows to the referenced tables keeps every foreign key of every association valid. |
| `Store.GeneCascadeKeeps` | core/models.py:161-175 | After a Term is deleted, the surviving Disease-Gene rows keep their unique pairs. Their keys name existing rows of the right variant. |
| `Store.PhenoCascadeKeeps` | core/models.py:245-270 | After a Term is deleted, the surviving Disease-Phenotype rows keep their unique pairs and valid foreign keys. |
| `Store.GeneCascadeMeaning` | core/models.py:161-164 | Deleting term `id`: no surviving Disease-Gene row has `id` as disease, gene or reference. Every row with other endpoints survives with the same endpoints. |
| `Store.PhenoCascadeMeaning` | core/models.py:245-257 | Deleting term `id`: no surviving Disease-Phenotype row has `id` as disease, phenotype, modifier or reference. Every row independent of `id` survives unchanged in its endpoints. |
| `Store.TermDeleteKeeps` | core/models.py:142 | Deleting a Term keeps `cui` unique. Dropping its epidemiology links keeps every link between a Disease and a Prevalence. |
| `Store.SetNullKeeps` | core/models.py:165-168 | Nulling the user links of a deleted user keeps both association tables within the schema. |
| `Store.DeleteTermKeepsSchema` | core/models.py:161-254 | Deleting a Term, with its cascades, preserves every constraint of the schema. |
| `Store.DeleteFrequencyKeepsSchema` | core/models.py:248-249 | Deleting a Frequency, with the Disease-Phenotype rows that use it, preserves every constraint. |
| `Store.DeleteUserKeepsSchema` | core/models.py:258-263 | Deleting a user preserves every constraint once its `created_by`/`modified_by` links are nulled. |
| `Store.Catalog.Valid` | core/models.py:24-270 | The stored tables satisfy `Schema`; every constructor, insert and delete keeps it. |
| `Store.Catalog.InsertTerm` | core/models.py:24 | The insert is refused with `DuplicateCui` exactly when some row of any variant has the cui. Otherwise exactly that row is added. The schema holds after. |
| `Store.Catalog.InsertFrequency` | core/models.py:194-202 | A row with both columns null is refused with `NullFrequency`. A fully set row equal to a stored one is refused with `DuplicateFrequency`. Otherwise the row is added. The schema holds after. |
| `Store.Catalog.InsertPrevalence` | core/models.py:101-109 | A Prevalence is added with no further constraint. |
| `Store.Catalog.AttachPrevalence` | core/models.py:142 | Linking a Prevalence to a Disease succeeds when both exist, and adds the pair, or leaves the set unchanged if the pair is present. Any number of Diseases may share one Prevalence. Otherwise the link is refused with `MissingRow`. |
| `Store.Catalog.InsertGeneAssoc` | core/models.py:161-175 | A row with a dangling foreign key is refused with `MissingRow`. A second row for the same `(disease, gene)` is refused with `DuplicatePair`. Otherwise the row is added. |
| `Store.Catalog.InsertPhenoAssoc` | core/models.py:245-270 | As for genes, for the `(disease, phenotype)` pair. The frequency and modifier links must name stored rows. |
| `Store.Catalog.DeleteTerm` | core/models.py:161-254 | Only that Term row goes. Associations with it as an endpoint or modifier go (CASCADE). It is removed from every reference list. The epidemiology links of a deleted Disease go. The schema holds after. |
| `Store.Catalog.DeleteFrequency` | core/models.py:248-249 | The Frequency goes, with exactly the Disease-Phenotype rows that use it. |
| `Store.Catalog.DeletePrevalence` | core/models.py:142 | The Prevalence and its epidemiology links go; the Diseases stay. |
| `Store.Catalog.DeleteGeneAssoc` | core/models.py:146-175 | Removing one Disease-Gene row keeps the schema. |
| `Store.Catalog.DeletePhenoAssoc` | core/models.py:212-270 | Removing one Disease-Phenotype row keeps the schema. |
| `Store.Catalog.DeleteUser` | core/models.py:165-168 | The user goes, and its `created_by`/`modified_by` links become null (SET_NULL). No association row is deleted: both key sets are unchanged. |
| `Text.Decimal` | core/admin.py:189 | `'%d'` of a count: a non-empty string of decimal digits with no leading zero except for zero itself. |
| `Text.DecimalRoundTrip` | core/admin.py:189 | Reading back the digits that `'%d'` renders for a count gives the count. |
| `Admin.Link` | core/admin.py:10-11 | `link`: the changelist URL of the model, then '?', then the encoded `field=id` query; `LinkShape` and `LinkSeparatesIds` state its shape. |
| `Admin.LinkShape` | core/admin.py:10-11 | A link is the changelist URL, then '?', then the encoded `field=id` query. |
| `Admin.LinkSeparatesIds` | core/admin.py:10-11 | Two links to the same changelist are equal exactly when their encoded queries are equal. |
| `Admin.ShowFrequency` | core/admin.py:106-111 | No frequency record shows nothing. A set band shows a label exactly when the band is listed in FREQUENCY. A null band shows the free text as stored. |
| `Admin.ShowFrequencyAbsent` | core/admin.py:106-111 | Without a frequency record, `show_frequency` shows nothing. |
| `Admin.ShowFrequencyPrefersValue` | core/admin.py:106-109 | With a band set, the decoded band is shown and the free text is ignored, whatever it is. |
| `Admin.ShowFrequencyFallsBack` | core/admin.py:110 | Without a band, the free text is shown verbatim. |
| `Admin.ShowFrequencyDefined` | core/admin.py:106-111 | Every storable frequency whose band, if set, is listed shows something. |
| `Admin.ShowFrequencyExamples` | core/admin.py:106-110 | Free text alone shows "2/10 cases". The band 'HP:0040282' alone shows its "Frequent ..." label. |
| `Admin.ShowTerms` | core/admin.py:18-25 | `show_terms` returns "<ul>", then one "label (cui)" entry per term in query order linked by cui, then "</ul>". |
| `Admin.ShowPrevalenceDiseases` | core/admin.py:51-58 | `show_diseases` of a Prevalence gives the same list over its diseases. |
| `Admin.ShowInheritance` | core/admin.py:140-147 | `show_inheritance` gives the same list over the disease's inheritance patterns. |
| `Admin.ShowGenes` | core/admin.py:150-157 | `show_genes` gives one entry per association, showing the gene's symbol, inside "<ul>" and "</ul>". |
| `Admin.ShowPhenotypes` | core/admin.py:160-167 | `show_phenotypes` gives one entry per association, showing the phenotype's label, inside "<ul>" and "</ul>". |
| `Admin.CuiListAppend` | core/admin.py:18-25 | The entries of two query parts are those of each part, in order: no row is skipped or duplicated. |
| `Admin.ShowEpidemiology` | core/admin.py:170-178 | The builder as written: it succeeds exactly when every prevalence's type and class decode, and yields the entries "<type>, <class>" followed by "</ul>". |
| `Admin.EpidemiologyNeverOpensList` | core/admin.py:170-178 | The as-written output always ends with "</ul>" and never begins with "<ul>". |
| `Admin.ShowEpidemiologyList` | core/admin.py:170-178 | The corrected builder: the same entries inside "<ul>" and "</ul>", under the same success condition. |
| `Admin.ShowDiseases` | core/admin.py:188-195 | The output is the count label, then "<ul>", then the entries of the first min(N, 5) diseases in order, then "</ul>". |
| `Admin.CountLabelIsTotal` | core/admin.py:189 | The number in "N disease(s)" reads back as the total number of associations. |
| `Admin.FewDiseasesAllShown` | core/admin.py:190 | Up to five associations are all listed. |
| `Admin.MoreDiseasesOnlyRecount` | core/admin.py:189-190 | Associations beyond the fifth change only the count; the listed entries stay those of the first five. |
| `Admin.SevenDiseasesShowFive` | core/admin.py:188-195 | Seven associations give "7 disease(s)" and exactly five entries. |

## Left out

- The history and audit snapshots (`HistoricalRecords`, `SimpleHistoryAdmin`): third-party code that is not part of this model.
- Synonyms are not modelled: the Synonym table, its unique `name` and the `Term.synonyms` many-to-many table. `show_terms` takes the query result as given.
- The `Disease.inheritance` many-to-many table is not modelled. `show_inheritance` takes its query result as given.
- Updates of stored rows: only inserts and deletes are modelled. The unique `cui` and unique pair checks on update are therefore not modelled.
- Primary keys: inserts take a caller-supplied id not yet in the table, in place of a generated UUID.
- The `valmoy` float column.
- The `max_length` limits and the `choices` lists. The model stores what the database accepts with neither check applied, so a code column may hold any string. The program's own write paths, the admin model forms and the REST serializers built on `ModelSerializer` (core/serializers.py:7-193), check both before a row is saved, and some database backends also refuse values longer than `max_length`. The paths where a decoder returns None for an unlisted code, and where `Admin.ShowEpidemiology` returns None, are therefore reachable only through writes that bypass those forms and serializers.
- Users and authentication: a user is only an id in `Store.Catalog.users`.
- Transactions and concurrent writers: writes are sequential, and each refused write has no effect.
- `format_html`, HTML escaping, `reverse` and `urlencode`: the builders return the markup string they pass to `format_html`. The two URL functions are uninterpreted.
- The single-anchor helpers `show_gene`, `show_disease` and `show_phenotype` are not modelled. Nor are `label_display`, the `show_type`/`show_qualification`/`show_class`/`show_status`/`show_assoc_type`/`show_evidence`/`show_aspect` wrappers (they return the decoders' results) or `TermAdmin.show_type`, which calls `get_subclass` from a library that is not part of this model.
- The REST serializers, views and URL routing.
- Store.Catalog.DeleteTerm: deleting a Reference removes it from association reference lists. Synonym and inheritance links are not modelled, so their join rows are not shown being removed.

## Findings

| source | as written | input that shows it | evidently intended | confidence | as-written member | corrected member |
|---|---|---|---|---|---|---|
| core/admin.py:172 | `show_epidemiology` starts its accumulator at '' instead of '<ul>' but still appends '</ul>', so its list is never opened. | Any disease: with no prevalence the output is "</ul>", and with one it is "<li>...</li></ul>". | Start the accumulator at '<ul>', as every other list builder does. | high; not executed | `Admin.ShowEpidemiology` (with `Admin.EpidemiologyNeverOpensList`) | `Admin.ShowEpidemiologyList` |
