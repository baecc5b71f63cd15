/**
 * The admin pages' display helpers: the changelist link, the frequency
 * summary, and the HTML lists built row by row from query results.
 *
 * Query results come in as sequences in query order. Django's `reverse` and
 * `urlencode` are left uninterpreted (the `Web` parameter); the builders
 * return the markup that is handed to `format_html`.
 */
module Admin {
  import opened Wrappers
  import opened Codes
  import opened Models
  import opened Text

  /** URL reversal by route name, and query-string encoding of one field. */
  datatype Web = Web(reverse: string -> string, urlencode: (string, string) -> string)

  /** The admin changelist URL of a model. */
  function Changelist(web: Web, model: string): string
  {
    web.reverse("admin:core_" + model + "_changelist")
  }

  /** `link`: the changelist of `model`, filtered by `field` = `id`. */
  function Link(web: Web, model: string, field: string, id: string): string
  {
    Changelist(web, model) + "?" + web.urlencode(field, id)
  }

  /** A link is the changelist URL, then '?', then the encoded `field=id` query. */
  lemma LinkShape(web: Web, model: string, field: string, id: string)
    ensures var url, list := Link(web, model, field, id), Changelist(web, model);
            && |url| > |list|
            && url[..|list|] == list
            && url[|list|] == '?'
            && url[|list| + 1..] == web.urlencode(field, id)
  {
  }

  /**
   * Links to the same changelist that filter on ids the encoder tells apart
   * are different links, and two links to one changelist are equal exactly
   * when their encoded queries are.
   */
  lemma LinkSeparatesIds(web: Web, model: string, field: string, id1: string, id2: string)
    ensures Link(web, model, field, id1) == Link(web, model, field, id2) <==>
            web.urlencode(field, id1) == web.urlencode(field, id2)
  {
    var list := Changelist(web, model);
    var u1, u2 := Link(web, model, field, id1), Link(web, model, field, id2);
    if u1 == u2 {
      LinkShape(web, model, field, id1);
      LinkShape(web, model, field, id2);
      assert u1[|list| + 1..] == u2[|list| + 1..];
    }
  }

  // ---------------------------------------------------------------------
  // show_frequency
  // ---------------------------------------------------------------------

  /**
   * `show_frequency`: nothing without a frequency record; otherwise the
   * decoded band when one is set, else the free text verbatim.
   */
  function ShowFrequency(freq: Option<Frequency>): (r: Option<string>)
    ensures freq.None? ==> r.None?
    ensures freq.Some? && freq.value.value.Some? ==>
              (r.Some? <==> Listed(FREQUENCY, freq.value.value.value))
    ensures freq.Some? && freq.value.value.None? ==> r == freq.value.other
  {
    match freq
    case None => None
    case Some(f) => if f.value.Some? then f.GetValue() else f.other
  }

  /** Without a frequency record there is nothing to show. */
  lemma ShowFrequencyAbsent()
    ensures ShowFrequency(None) == None
  {
  }

  /**
   * A set band wins: the free text is never shown beside it, and the band
   * shown is the decoded label of the stored code.
   */
  lemma ShowFrequencyPrefersValue(code: string, other1: Option<string>, other2: Option<string>)
    ensures ShowFrequency(Some(Frequency(Some(code), other1))) ==
            ShowFrequency(Some(Frequency(Some(code), other2))) ==
            Lookup(FREQUENCY, code)
  {
  }

  /** Without a band the free text is shown verbatim. */
  lemma ShowFrequencyFallsBack(other: Option<string>)
    ensures ShowFrequency(Some(Frequency(None, other))) == other
  {
  }

  /**
   * Every frequency the store can hold (one column set) whose band, when
   * set, is a listed code has something to show.
   */
  lemma ShowFrequencyDefined(f: Frequency)
    requires f.NotNull()
    requires f.value.Some? ==> Listed(FREQUENCY, f.value.value)
    ensures ShowFrequency(Some(f)).Some?
  {
  }

  /** Two examples: free text alone, and the band 'HP:0040282' alone. */
  lemma ShowFrequencyExamples()
    ensures ShowFrequency(Some(Frequency(None, Some("2/10 cases")))) == Some("2/10 cases")
    ensures ShowFrequency(Some(Frequency(Some("HP:0040282"), None))) ==
            Some("Frequent (present in 30% to 79% of the cases)")
  {
    FrequentBandDecodes(None);
  }

  // ---------------------------------------------------------------------
  // List entries
  // ---------------------------------------------------------------------

  /** One list entry: an anchor to `url` showing `text`. */
  function Entry(url: string, text: string): string
  {
    "<li><a href=\"" + url + "\">" + text + "</a></li>"
  }

  /** The literal entry text of the "label (cui)" builders is an `Entry`. */
  lemma LabelledItem(url: string, text: string, cui: string)
    ensures "<li><a href=\"" + url + "\">" + text + " (" + cui + ")</a></li>" ==
            Entry(url, text + " (" + cui + ")")
  {
  }

  /** The literal entry text of the gene and phenotype builders is an `Entry`. */
  lemma PlainItem(url: string, text: string)
    ensures "<li><a href=\"" + url + "\">" + text + "</a></li>" == Entry(url, text)
  {
  }

  /** The literal entry text of the epidemiology builder is an `Entry`. */
  lemma PrevalenceItem(url: string, ptype: string, pclass: string)
    ensures "<li><a href=\"" + url + "\">" + ptype + ", " + pclass + "</a></li>" ==
            Entry(url, ptype + ", " + pclass)
  {
  }

  /** The entry of a term shown as "label (cui)", linked to its changelist by cui. */
  function CuiEntry(web: Web, model: string, t: Term): string
  {
    Entry(Link(web, model, "cui", t.cui), t.labelText + " (" + t.cui + ")")
  }

  /** One entry per row, in row order. */
  function CuiEntries(web: Web, model: string, rows: seq<Term>): (es: seq<string>)
    ensures |es| == |rows|
    ensures forall i :: 0 <= i < |rows| ==> es[i] == CuiEntry(web, model, rows[i])
  {
    seq(|rows|, i requires 0 <= i < |rows| => CuiEntry(web, model, rows[i]))
  }

  /** The entries of a concatenated query are the entries of each part, in order. */
  lemma CuiListAppend(web: Web, model: string, a: seq<Term>, b: seq<Term>)
    ensures Join(CuiEntries(web, model, a + b)) ==
            Join(CuiEntries(web, model, a)) + Join(CuiEntries(web, model, b))
  {
    assert CuiEntries(web, model, a + b) == CuiEntries(web, model, a) + CuiEntries(web, model, b);
    JoinAppend(CuiEntries(web, model, a), CuiEntries(web, model, b));
  }

  /** A bulleted list of the entries, in order. */
  function Bullets(entries: seq<string>): string
  {
    "<ul>" + Join(entries) + "</ul>"
  }

  predicate AllGenes(rows: seq<Term>)
  {
    forall i :: 0 <= i < |rows| ==> rows[i].kind.GeneTerm?
  }

  /** The entry of a gene shown by its symbol. */
  function GeneEntry(web: Web, g: Term): string
    requires g.kind.GeneTerm?
  {
    Entry(Link(web, "gene", "cui", g.cui), g.kind.symbol)
  }

  function GeneEntries(web: Web, genes: seq<Term>): (es: seq<string>)
    requires AllGenes(genes)
    ensures |es| == |genes|
    ensures forall i :: 0 <= i < |genes| ==> es[i] == GeneEntry(web, genes[i])
  {
    seq(|genes|, i requires 0 <= i < |genes| => GeneEntry(web, genes[i]))
  }

  /** The entry of a phenotype shown by its label alone. */
  function PhenotypeEntry(web: Web, p: Term): string
  {
    Entry(Link(web, "phenotype", "cui", p.cui), p.labelText)
  }

  function PhenotypeEntries(web: Web, phenotypes: seq<Term>): (es: seq<string>)
    ensures |es| == |phenotypes|
    ensures forall i :: 0 <= i < |phenotypes| ==> es[i] == PhenotypeEntry(web, phenotypes[i])
  {
    seq(|phenotypes|, i requires 0 <= i < |phenotypes| => PhenotypeEntry(web, phenotypes[i]))
  }

  // ---------------------------------------------------------------------
  // The `<ul>` builders
  // ---------------------------------------------------------------------

  /** Shared step of the cui-listing loops. */
  lemma CuiEntriesStep(web: Web, model: string, rows: seq<Term>, i: nat)
    requires i < |rows|
    ensures Join(CuiEntries(web, model, rows[..i + 1])) ==
            Join(CuiEntries(web, model, rows[..i])) + CuiEntry(web, model, rows[i])
  {
    assert CuiEntries(web, model, rows[..i + 1]) ==
           CuiEntries(web, model, rows[..i]) + [CuiEntry(web, model, rows[i])];
    JoinSnoc(CuiEntries(web, model, rows[..i]), CuiEntry(web, model, rows[i]));
  }

  /**
   * One pass of a "label (cui)" loop: appending the literal entry text of
   * row `i` to the markup of rows `..i` gives the markup of rows `..i + 1`.
   */
  lemma CuiLoopStep(web: Web, model: string, rows: seq<Term>, i: nat, prefix: string, item: string)
    requires i < |rows|
    requires item == "<li><a href=\"" + Link(web, model, "cui", rows[i].cui) + "\">" +
                     rows[i].labelText + " (" + rows[i].cui + ")</a></li>"
    ensures prefix + Join(CuiEntries(web, model, rows[..i])) + item ==
            prefix + Join(CuiEntries(web, model, rows[..i + 1]))
  {
    LabelledItem(Link(web, model, "cui", rows[i].cui), rows[i].labelText, rows[i].cui);
    CuiEntriesStep(web, model, rows, i);
  }

  /** Closing the markup of all rows gives their bulleted list. */
  lemma CloseList(entries: seq<string>, html: string)
    requires html == "<ul>" + Join(entries)
    ensures html + "</ul>" == Bullets(entries)
  {
  }

  /** `SynonymAdmin.show_terms`: the terms carrying a synonym, one entry each. */
  method ShowTerms(web: Web, terms: seq<Term>) returns (html: string)
    ensures html == Bullets(CuiEntries(web, "term", terms))
  {
    html := "<ul>";
    for i := 0 to |terms|
      invariant html == "<ul>" + Join(CuiEntries(web, "term", terms[..i]))
    {
      var t := terms[i];
      var url := Link(web, "term", "cui", t.cui);
      var item := "<li><a href=\"" + url + "\">" + t.labelText + " (" + t.cui + ")</a></li>";
      CuiLoopStep(web, "term", terms, i, "<ul>", item);
      html := html + item;
    }
    assert terms[..|terms|] == terms;
    CloseList(CuiEntries(web, "term", terms), html);
    html := html + "</ul>";
  }

  /** `PrevalenceAdmin.show_diseases`: the diseases a prevalence is attached to. */
  method ShowPrevalenceDiseases(web: Web, diseases: seq<Term>) returns (html: string)
    ensures html == Bullets(CuiEntries(web, "disease", diseases))
  {
    html := "<ul>";
    for i := 0 to |diseases|
      invariant html == "<ul>" + Join(CuiEntries(web, "disease", diseases[..i]))
    {
      var d := diseases[i];
      var url := Link(web, "disease", "cui", d.cui);
      var item := "<li><a href=\"" + url + "\">" + d.labelText + " (" + d.cui + ")</a></li>";
      CuiLoopStep(web, "disease", diseases, i, "<ul>", item);
      html := html + item;
    }
    assert diseases[..|diseases|] == diseases;
    CloseList(CuiEntries(web, "disease", diseases), html);
    html := html + "</ul>";
  }

  /** `DiseaseAdmin.show_inheritance`: a disease's inheritance patterns. */
  method ShowInheritance(web: Web, inheritances: seq<Term>) returns (html: string)
    ensures html == Bullets(CuiEntries(web, "inheritance", inheritances))
  {
    html := "<ul>";
    for i := 0 to |inheritances|
      invariant html == "<ul>" + Join(CuiEntries(web, "inheritance", inheritances[..i]))
    {
      var inh := inheritances[i];
      var url := Link(web, "inheritance", "cui", inh.cui);
      var item := "<li><a href=\"" + url + "\">" + inh.labelText + " (" + inh.cui + ")</a></li>";
      CuiLoopStep(web, "inheritance", inheritances, i, "<ul>", item);
      html := html + item;
    }
    assert inheritances[..|inheritances|] == inheritances;
    CloseList(CuiEntries(web, "inheritance", inheritances), html);
    html := html + "</ul>";
  }

  /** One pass of the gene loop, as `CuiLoopStep` for symbol entries. */
  lemma GeneLoopStep(web: Web, genes: seq<Term>, i: nat, item: string)
    requires i < |genes| && AllGenes(genes)
    requires item == "<li><a href=\"" + Link(web, "gene", "cui", genes[i].cui) + "\">" +
                     genes[i].kind.symbol + "</a></li>"
    ensures AllGenes(genes[..i]) && AllGenes(genes[..i + 1])
    ensures "<ul>" + Join(GeneEntries(web, genes[..i])) + item ==
            "<ul>" + Join(GeneEntries(web, genes[..i + 1]))
  {
    var g := genes[i];
    assert genes[..i + 1][i] == g;
    assert GeneEntries(web, genes[..i + 1]) == GeneEntries(web, genes[..i]) + [GeneEntry(web, g)];
    JoinSnoc(GeneEntries(web, genes[..i]), GeneEntry(web, g));
    PlainItem(Link(web, "gene", "cui", g.cui), g.kind.symbol);
  }

  /**
   * `DiseaseAdmin.show_genes`: one entry per Disease-Gene association of the
   * disease, showing the gene's symbol. `genes` are the associations' genes
   * in query order.
   */
  method ShowGenes(web: Web, genes: seq<Term>) returns (html: string)
    requires AllGenes(genes)
    ensures html == Bullets(GeneEntries(web, genes))
  {
    html := "<ul>";
    for i := 0 to |genes|
      invariant AllGenes(genes[..i])
      invariant html == "<ul>" + Join(GeneEntries(web, genes[..i]))
    {
      var g := genes[i];
      var url := Link(web, "gene", "cui", g.cui);
      var item := "<li><a href=\"" + url + "\">" + g.kind.symbol + "</a></li>";
      GeneLoopStep(web, genes, i, item);
      html := html + item;
    }
    assert genes[..|genes|] == genes;
    CloseList(GeneEntries(web, genes), html);
    html := html + "</ul>";
  }

  /** One pass of the phenotype loop, as `CuiLoopStep` for label entries. */
  lemma PhenotypeLoopStep(web: Web, phenotypes: seq<Term>, i: nat, item: string)
    requires i < |phenotypes|
    requires item == "<li><a href=\"" + Link(web, "phenotype", "cui", phenotypes[i].cui) + "\">" +
                     phenotypes[i].labelText + "</a></li>"
    ensures "<ul>" + Join(PhenotypeEntries(web, phenotypes[..i])) + item ==
            "<ul>" + Join(PhenotypeEntries(web, phenotypes[..i + 1]))
  {
    var p := phenotypes[i];
    assert phenotypes[..i + 1][i] == p;
    assert PhenotypeEntries(web, phenotypes[..i + 1]) ==
           PhenotypeEntries(web, phenotypes[..i]) + [PhenotypeEntry(web, p)];
    JoinSnoc(PhenotypeEntries(web, phenotypes[..i]), PhenotypeEntry(web, p));
    PlainItem(Link(web, "phenotype", "cui", p.cui), p.labelText);
  }

  /**
   * `DiseaseAdmin.show_phenotypes`: one entry per Disease-Phenotype
   * association of the disease, showing the phenotype's label.
   */
  method ShowPhenotypes(web: Web, phenotypes: seq<Term>) returns (html: string)
    ensures html == Bullets(PhenotypeEntries(web, phenotypes))
  {
    html := "<ul>";
    for i := 0 to |phenotypes|
      invariant html == "<ul>" + Join(PhenotypeEntries(web, phenotypes[..i]))
    {
      var p := phenotypes[i];
      var url := Link(web, "phenotype", "cui", p.cui);
      var item := "<li><a href=\"" + url + "\">" + p.labelText + "</a></li>";
      PhenotypeLoopStep(web, phenotypes, i, item);
      html := html + item;
    }
    assert phenotypes[..|phenotypes|] == phenotypes;
    CloseList(PhenotypeEntries(web, phenotypes), html);
    html := html + "</ul>";
  }

  // ---------------------------------------------------------------------
  // show_epidemiology
  // ---------------------------------------------------------------------

  /** Both codes the epidemiology entry shows decode. */
  predicate Decodable(p: Prevalence)
  {
    p.GetType().Some? && p.GetClass().Some?
  }

  predicate AllDecodable(prevalences: seq<(Id, Prevalence)>)
  {
    forall i :: 0 <= i < |prevalences| ==> Decodable(prevalences[i].1)
  }

  /** The entry of a prevalence: "<type>, <class>", linked to its changelist by id. */
  function EpidemiologyEntry(web: Web, id: Id, p: Prevalence): string
    requires Decodable(p)
  {
    Entry(Link(web, "prevalence", "id", id), p.GetType().value + ", " + p.GetClass().value)
  }

  function EpidemiologyEntries(web: Web, prevalences: seq<(Id, Prevalence)>): (es: seq<string>)
    requires AllDecodable(prevalences)
    ensures |es| == |prevalences|
  {
    if |prevalences| == 0 then []
    else
      var last := prevalences[|prevalences| - 1];
      EpidemiologyEntries(web, prevalences[..|prevalences| - 1]) + [EpidemiologyEntry(web, last.0, last.1)]
  }

  lemma EpidemiologyStep(web: Web, prevalences: seq<(Id, Prevalence)>, i: nat)
    requires i < |prevalences| && AllDecodable(prevalences[..i + 1])
    ensures AllDecodable(prevalences[..i])
    ensures Join(EpidemiologyEntries(web, prevalences[..i + 1])) ==
            Join(EpidemiologyEntries(web, prevalences[..i])) +
            EpidemiologyEntry(web, prevalences[i].0, prevalences[i].1)
  {
    var after := prevalences[..i + 1];
    assert after[..i] == prevalences[..i] && after[i] == prevalences[i];
    JoinSnoc(EpidemiologyEntries(web, prevalences[..i]),
             EpidemiologyEntry(web, prevalences[i].0, prevalences[i].1));
  }

  /** Rows `..i` decode and row `i` decodes: rows `..i + 1` decode. */
  lemma DecodableSnoc(prevalences: seq<(Id, Prevalence)>, i: nat)
    requires i < |prevalences| && AllDecodable(prevalences[..i])
    requires Decodable(prevalences[i].1)
    ensures AllDecodable(prevalences[..i + 1])
  {
    var after := prevalences[..i + 1];
    forall k | 0 <= k < i + 1 ensures Decodable(after[k].1) {
      if k < i {
        assert after[k] == prevalences[..i][k];
      }
    }
  }

  /**
   * One pass of the epidemiology loop: once both codes of row `i` decode,
   * appending its literal entry text extends the markup by one entry.
   */
  lemma EpidemiologyLoopStep(web: Web, prevalences: seq<(Id, Prevalence)>, i: nat,
                             prefix: string, item: string)
    requires i < |prevalences| && AllDecodable(prevalences[..i])
    requires Decodable(prevalences[i].1)
    requires item == "<li><a href=\"" + Link(web, "prevalence", "id", prevalences[i].0) + "\">" +
                     prevalences[i].1.GetType().value + ", " +
                     prevalences[i].1.GetClass().value + "</a></li>"
    ensures AllDecodable(prevalences[..i + 1])
    ensures prefix + Join(EpidemiologyEntries(web, prevalences[..i])) + item ==
            prefix + Join(EpidemiologyEntries(web, prevalences[..i + 1]))
  {
    DecodableSnoc(prevalences, i);
    PrevalenceItem(Link(web, "prevalence", "id", prevalences[i].0),
                   prevalences[i].1.GetType().value, prevalences[i].1.GetClass().value);
    EpidemiologyStep(web, prevalences, i);
  }

  /**
   * `DiseaseAdmin.show_epidemiology`, as written: the entries followed by
   * "</ul>", with no opening "<ul>". A prevalence whose type or class code
   * is not listed makes the string concatenation fail (`None` here).
   */
  method ShowEpidemiology(web: Web, prevalences: seq<(Id, Prevalence)>) returns (html: Option<string>)
    ensures html.Some? <==> AllDecodable(prevalences)
    ensures html.Some? ==> html.value == Join(EpidemiologyEntries(web, prevalences)) + "</ul>"
  {
    var s := "";
    for i := 0 to |prevalences|
      invariant AllDecodable(prevalences[..i])
      invariant s == Join(EpidemiologyEntries(web, prevalences[..i]))
    {
      var (id, p) := prevalences[i];
      var url := Link(web, "prevalence", "id", id);
      var ptype, pclass := p.GetType(), p.GetClass();
      if ptype.None? || pclass.None? {
        return None;
      }
      var item := "<li><a href=\"" + url + "\">" + ptype.value + ", " + pclass.value + "</a></li>";
      EpidemiologyLoopStep(web, prevalences, i, "", item);
      assert "" + s == s;
      s := s + item;
    }
    assert prevalences[..|prevalences|] == prevalences;
    html := Some(s + "</ul>");
  }

  /** Every entry opens with "<li>", so its second character is 'l'. */
  lemma EntryOpens(url: string, text: string)
    ensures |Entry(url, text)| > 1 && Entry(url, text)[1] == 'l'
  {
  }

  /** Each fragment opens like an entry: its second character is 'l'. */
  predicate OpenAsItems(es: seq<string>)
  {
    forall i :: 0 <= i < |es| ==> |es[i]| > 1 && es[i][1] == 'l'
  }

  /** Entries that each open with "<li>", followed by "</ul>", do not open with "<ul>". */
  lemma {:induction false} ClosedButNotOpened(es: seq<string>)
    requires OpenAsItems(es)
    ensures var s := Join(es) + "</ul>";
            && s[|s| - 5..] == "</ul>"
            && !(|s| >= 4 && s[..4] == "<ul>")
  {
    var s := Join(es) + "</ul>";
    assert s[|s| - 5..] == "</ul>";
    if |es| == 0 {
      assert s == "</ul>";
      assert s[1] == '/';
    } else {
      JoinFirst(es);
      assert s == es[0] + (Join(es[1..]) + "</ul>");
      assert s[1] == 'l';
    }
    assert |s| >= 4 ==> s[..4][1] == s[1] != 'u';
  }

  /** Every entry of the epidemiology list opens with "<li>". */
  lemma {:induction false} EpidemiologyEntriesOpen(web: Web, prevalences: seq<(Id, Prevalence)>)
    requires AllDecodable(prevalences)
    ensures OpenAsItems(EpidemiologyEntries(web, prevalences))
  {
    if |prevalences| > 0 {
      var n := |prevalences| - 1;
      var (id, p) := prevalences[n];
      assert AllDecodable(prevalences[..n]) by {
        forall k | 0 <= k < n ensures Decodable(prevalences[..n][k].1) {
          assert prevalences[..n][k] == prevalences[k];
        }
      }
      var before := EpidemiologyEntries(web, prevalences[..n]);
      var e := EpidemiologyEntry(web, id, p);
      assert EpidemiologyEntries(web, prevalences) == before + [e];
      EpidemiologyEntriesOpen(web, prevalences[..n]);
      EntryOpens(Link(web, "prevalence", "id", id), p.GetType().value + ", " + p.GetClass().value);
      forall k | 0 <= k < |before| + 1 ensures |(before + [e])[k]| > 1 && (before + [e])[k][1] == 'l' {
        if k < |before| {
          assert (before + [e])[k] == before[k];
        }
      }
    }
  }

  /** The as-written list never opens with "<ul>", yet always closes with "</ul>". */
  lemma EpidemiologyNeverOpensList(web: Web, prevalences: seq<(Id, Prevalence)>)
    requires AllDecodable(prevalences)
    ensures var s := Join(EpidemiologyEntries(web, prevalences)) + "</ul>";
            && s[|s| - 5..] == "</ul>"
            && !(|s| >= 4 && s[..4] == "<ul>")
  {
    EpidemiologyEntriesOpen(web, prevalences);
    ClosedButNotOpened(EpidemiologyEntries(web, prevalences));
  }

  /** `show_epidemiology` as evidently intended: the same entries inside "<ul>" ... "</ul>". */
  method ShowEpidemiologyList(web: Web, prevalences: seq<(Id, Prevalence)>) returns (html: Option<string>)
    ensures html.Some? <==> AllDecodable(prevalences)
    ensures html.Some? ==> html.value == Bullets(EpidemiologyEntries(web, prevalences))
  {
    var s := "<ul>";
    for i := 0 to |prevalences|
      invariant AllDecodable(prevalences[..i])
      invariant s == "<ul>" + Join(EpidemiologyEntries(web, prevalences[..i]))
    {
      var (id, p) := prevalences[i];
      var url := Link(web, "prevalence", "id", id);
      var ptype, pclass := p.GetType(), p.GetClass();
      if ptype.None? || pclass.None? {
        return None;
      }
      var item := "<li><a href=\"" + url + "\">" + ptype.value + ", " + pclass.value + "</a></li>";
      EpidemiologyLoopStep(web, prevalences, i, "<ul>", item);
      s := s + item;
    }
    assert prevalences[..|prevalences|] == prevalences;
    CloseList(EpidemiologyEntries(web, prevalences), s);
    html := Some(s + "</ul>");
  }

  // ---------------------------------------------------------------------
  // DiseaseRelationshipAdmin.show_diseases: a count and at most five entries
  // ---------------------------------------------------------------------

  /** The display policy: at most this many diseases are listed. */
  const SHOWN: nat := 5

  function Min(a: nat, b: nat): nat
  {
    if a < b then a else b
  }

  /** "N disease(s)", where N is rendered as by `'%d'`. */
  function CountLabel(n: nat): string
  {
    Decimal(n) + " disease(s)"
  }

  /** The summary for the diseases of a gene's or a phenotype's associations. */
  function DiseaseSummary(web: Web, diseases: seq<Term>): string
  {
    CountLabel(|diseases|) + Bullets(CuiEntries(web, "disease", diseases[..Min(|diseases|, SHOWN)]))
  }

  /**
   * `DiseaseRelationshipAdmin.show_diseases`; `diseases` are the disease
   * ends of the associations, in query order.
   */
  method ShowDiseases(web: Web, diseases: seq<Term>) returns (html: string)
    ensures html == DiseaseSummary(web, diseases)
  {
    var n := Min(|diseases|, SHOWN);
    html := Decimal(|diseases|) + " disease(s)<ul>";
    SummaryOpens(|diseases|);
    var shown := diseases[..n];
    for i := 0 to n
      invariant html == CountLabel(|diseases|) + "<ul>" + Join(CuiEntries(web, "disease", shown[..i]))
    {
      var d := shown[i];
      var url := Link(web, "disease", "cui", d.cui);
      var item := "<li><a href=\"" + url + "\">" + d.labelText + " (" + d.cui + ")</a></li>";
      CuiLoopStep(web, "disease", shown, i, CountLabel(|diseases|) + "<ul>", item);
      html := html + item;
    }
    assert shown[..n] == shown;
    SummaryCloses(web, diseases, html);
    html := html + "</ul>";
  }

  /** The literal opening of the summary is the count label and "<ul>". */
  lemma SummaryOpens(n: nat)
    ensures Decimal(n) + " disease(s)<ul>" == CountLabel(n) + "<ul>"
  {
  }

  /** Closing the markup of the shown diseases gives the summary. */
  lemma SummaryCloses(web: Web, diseases: seq<Term>, html: string)
    requires html == CountLabel(|diseases|) + "<ul>" +
                     Join(CuiEntries(web, "disease", diseases[..Min(|diseases|, SHOWN)]))
    ensures html + "</ul>" == DiseaseSummary(web, diseases)
  {
  }

  /** The count label reads back as the total number of associations. */
  lemma CountLabelIsTotal(n: nat)
    ensures |CountLabel(n)| > 11 && AllDigits(CountLabel(n)[..|CountLabel(n)| - 11])
    ensures DigitsValue(CountLabel(n)[..|CountLabel(n)| - 11]) == n
  {
    assert CountLabel(n)[..|CountLabel(n)| - 11] == Decimal(n);
    DecimalRoundTrip(n);
  }

  /** Up to five diseases are all listed. */
  lemma FewDiseasesAllShown(web: Web, diseases: seq<Term>)
    requires |diseases| <= SHOWN
    ensures DiseaseSummary(web, diseases) ==
            CountLabel(|diseases|) + Bullets(CuiEntries(web, "disease", diseases))
  {
    assert diseases[..|diseases|] == diseases;
  }

  /**
   * Beyond the fifth, further diseases change only the count: the listed
   * entries stay those of the first five.
   */
  lemma MoreDiseasesOnlyRecount(web: Web, diseases: seq<Term>, more: seq<Term>)
    requires |diseases| >= SHOWN
    ensures DiseaseSummary(web, diseases + more) ==
            CountLabel(|diseases| + |more|) + Bullets(CuiEntries(web, "disease", diseases[..SHOWN]))
  {
    assert (diseases + more)[..SHOWN] == diseases[..SHOWN];
  }

  /** Seven associated diseases: "7 disease(s)" and exactly five entries. */
  lemma SevenDiseasesShowFive(web: Web, diseases: seq<Term>)
    requires |diseases| == 7
    ensures DiseaseSummary(web, diseases) ==
            "7 disease(s)" + Bullets(CuiEntries(web, "disease", diseases[..5]))
    ensures |CuiEntries(web, "disease", diseases[..5])| == 5
  {
    assert Decimal(7) == "7";
  }
}
