/** Choosing and rendering the knowledge that goes into the prompt
    (`getRelevantKnowledge`). The selection accumulates chunk ids in a set:
    the first two search hits of every query, then the first chunk of each
    category the primary objective maps to. The chosen chunks are taken back
    from the corpus in corpus order and rendered as text blocks. */
module Relevance {
  import opened FunnelTypes
  import opened Seqs
  import opened Text
  import opened KnowledgeBase

  /** The query list: objective, industry and business model, then the
      current problems, then the KPIs to prioritise. */
  function Queries(form: FunnelRequestForm): (r: seq<string>)
    ensures |r| == 3 + |form.funnelActual.problemasActuales| + |form.kpisAPriorizar|
  {
    [ObjetivoName(form.objetivoPrincipal), form.industria, ModeloNegocioName(form.modeloNegocio)]
    + form.funnelActual.problemasActuales + form.kpisAPriorizar
  }

  /** `categoryMap[objetivo] || []`: the categories each objective adds. */
  function CategoryMap(objetivo: string): (r: seq<string>)
    ensures |r| <= 3
  {
    if objetivo == "captacion" then ["lead-magnet", "b2b"]
    else if objetivo == "conversion" then ["webinar", "copywriting", "optimizacion"]
    else if objetivo == "retencion" then ["automatizacion", "optimizacion"]
    else if objetivo == "escalado" then ["automatizacion", "optimizacion", "b2b"]
    else []
  }

  /** Every objective the form can carry is in the table, and nothing else
      is: any other text maps to no category. Names of inherited object
      properties are not modelled. */
  lemma CategoryMapKeys(objetivo: string)
    ensures CategoryMap(objetivo) != [] <==> exists o :: ObjetivoName(o) == objetivo
  {
    if objetivo == "captacion" { assert ObjetivoName(Captacion) == objetivo; }
    if objetivo == "conversion" { assert ObjetivoName(Conversion) == objetivo; }
    if objetivo == "retencion" { assert ObjetivoName(Retencion) == objetivo; }
    if objetivo == "escalado" { assert ObjetivoName(Escalado) == objetivo; }
  }

  function IdsOf(cs: seq<KnowledgeChunk>): set<string>
  {
    set c | c in cs :: c.id
  }

  lemma IdsOfSize(cs: seq<KnowledgeChunk>)
    ensures |IdsOf(cs)| <= |cs|
    decreases |cs|
  {
    if cs != [] {
      IdsOfSize(cs[1..]);
      assert IdsOf(cs) == {cs[0].id} + IdsOf(cs[1..]);
    }
  }

  /** Ids the search step adds for one query: its first two hits. */
  function QueryHits(corpus: seq<KnowledgeChunk>, query: string): set<string>
  {
    IdsOf(Take(Search(corpus, query), 2))
  }

  /** The chunks of the category with this name (`c.categoria === cat`). */
  function InCategory(corpus: seq<KnowledgeChunk>, cat: string): seq<KnowledgeChunk>
  {
    Filter((c: KnowledgeChunk) => CategoriaName(c.categoria) == cat, corpus)
  }

  /** Ids the category step adds for one category: its first chunk. */
  function CategoryHits(corpus: seq<KnowledgeChunk>, cat: string): set<string>
  {
    IdsOf(Take(InCategory(corpus, cat), 1))
  }

  /** The ids a set accumulates when, for each key in turn, the ids
      `hits(key)` are added to it. */
  function Accumulate(hits: string -> set<string>, keys: seq<string>): set<string>
    decreases |keys|
  {
    if keys == [] then {}
    else Accumulate(hits, keys[..|keys| - 1]) + hits(keys[|keys| - 1])
  }

  /** The id set after the search step has run over `queries`. */
  function SearchStepIds(corpus: seq<KnowledgeChunk>, queries: seq<string>): set<string>
  {
    Accumulate(q => QueryHits(corpus, q), queries)
  }

  /** The ids the category step adds for `cats`. */
  function CategoryStepIds(corpus: seq<KnowledgeChunk>, cats: seq<string>): set<string>
  {
    Accumulate(cat => CategoryHits(corpus, cat), cats)
  }

  /** One more key adds its hits. */
  lemma AccumulateNext(hits: string -> set<string>, keys: seq<string>, i: nat)
    requires i < |keys|
    ensures Accumulate(hits, keys[..i + 1]) == Accumulate(hits, keys[..i]) + hits(keys[i])
  {
    assert keys[..i + 1][..i] == keys[..i];
  }

  /** The whole id set of `relevantChunks` for a form. */
  function SelectedIds(corpus: seq<KnowledgeChunk>, form: FunnelRequestForm): set<string>
  {
    SearchStepIds(corpus, Queries(form))
    + CategoryStepIds(corpus, CategoryMap(ObjetivoName(form.objetivoPrincipal)))
  }

  /** `KNOWLEDGE_CHUNKS.filter(c => relevantChunks.has(c.id))` */
  function Selection(corpus: seq<KnowledgeChunk>, ids: set<string>): (r: seq<KnowledgeChunk>)
    ensures IsSubsequence(r, corpus)
    ensures forall c :: c in r <==> c in corpus && c.id in ids
  {
    var p := (c: KnowledgeChunk) => c.id in ids;
    FilterIsSubsequence(p, corpus);
    FilterMembers(p, corpus);
    Filter(p, corpus)
  }

  /** `chunks.forEach(chunk => relevantChunks.add(chunk.id))` */
  method AddIds(relevant: set<string>, chunks: seq<KnowledgeChunk>) returns (r: set<string>)
    ensures r == relevant + IdsOf(chunks)
  {
    r := relevant;
    for j := 0 to |chunks|
      invariant r == relevant + IdsOf(chunks[..j])
    {
      assert chunks[..j + 1] == chunks[..j] + [chunks[j]];
      r := r + {chunks[j].id};
    }
    assert chunks[..|chunks|] == chunks;
  }

  /** The selection half of `getRelevantKnowledge`: the id set is filled by a
      loop over the queries, adding each query's first two hits, and a loop
      over the mapped categories, adding each one's first chunk. */
  method SelectRelevant(corpus: seq<KnowledgeChunk>, form: FunnelRequestForm)
    returns (selected: seq<KnowledgeChunk>)
    ensures selected == Selection(corpus, SelectedIds(corpus, form))
  {
    var queries := Queries(form);
    var relevant: set<string> := {};
    for i := 0 to |queries|
      invariant relevant == SearchStepIds(corpus, queries[..i])
    {
      var results := Search(corpus, queries[i]);
      relevant := AddIds(relevant, Take(results, 2));
      AccumulateNext(q => QueryHits(corpus, q), queries, i);
    }
    assert queries[..|queries|] == queries;
    var searchIds := relevant;

    var cats := CategoryMap(ObjetivoName(form.objetivoPrincipal));
    for k := 0 to |cats|
      invariant relevant == searchIds + CategoryStepIds(corpus, cats[..k])
    {
      var chunks := InCategory(corpus, cats[k]);
      relevant := AddIds(relevant, Take(chunks, 1));
      AccumulateNext(cat => CategoryHits(corpus, cat), cats, k);
    }
    assert cats[..|cats|] == cats;
    selected := Selection(corpus, relevant);
  }

  // ---------------------------------------------------------------------
  // What the selection is

  /** An id is accumulated exactly when some key's hits contain it. */
  lemma {:induction false} AccumulateMembers(hits: string -> set<string>, keys: seq<string>, id: string)
    ensures id in Accumulate(hits, keys) <==> exists k :: 0 <= k < |keys| && id in hits(keys[k])
    decreases |keys|
  {
    if keys != [] {
      var n := |keys| - 1;
      var front := keys[..n];
      AccumulateMembers(hits, front, id);
      assert forall k :: 0 <= k < n ==> front[k] == keys[k];
    }
  }

  /** The accumulated set sees its keys as a set: order and repetition do
      not matter. */
  lemma AccumulateOfSameKeys(hits: string -> set<string>, keys1: seq<string>, keys2: seq<string>)
    requires forall q :: q in keys1 <==> q in keys2
    ensures Accumulate(hits, keys1) == Accumulate(hits, keys2)
  {
    forall id | id in Accumulate(hits, keys1)
      ensures id in Accumulate(hits, keys2)
    {
      AccumulateMembers(hits, keys1, id);
      var k :| 0 <= k < |keys1| && id in hits(keys1[k]);
      assert keys1[k] in keys2;
      AccumulateMembers(hits, keys2, id);
    }
    forall id | id in Accumulate(hits, keys2)
      ensures id in Accumulate(hits, keys1)
    {
      AccumulateMembers(hits, keys2, id);
      var k :| 0 <= k < |keys2| && id in hits(keys2[k]);
      assert keys2[k] in keys1;
      AccumulateMembers(hits, keys1, id);
    }
  }

  /** At most `bound` new ids per key. */
  lemma {:induction false} AccumulateSize(hits: string -> set<string>, keys: seq<string>, bound: nat)
    requires forall k :: 0 <= k < |keys| ==> |hits(keys[k])| <= bound
    ensures |Accumulate(hits, keys)| <= bound * |keys|
    decreases |keys|
  {
    if keys != [] {
      var n := |keys| - 1;
      forall k | 0 <= k < n
        ensures |hits(keys[..n][k])| <= bound
      {
        assert keys[..n][k] == keys[k];
      }
      AccumulateSize(hits, keys[..n], bound);
      var before, added := Accumulate(hits, keys[..n]), hits(keys[n]);
      assert Accumulate(hits, keys) == before + added;
      assert |before| <= bound * n && |added| <= bound;
      UnionSize(before, added);
      assert bound * n + bound == bound * |keys| by {
        assert |keys| == n + 1;
      }
    }
  }

  /** A union has at most as many elements as its two parts together. */
  lemma UnionSize(a: set<string>, b: set<string>)
    ensures |a + b| <= |a| + |b|
  {
    assert a + b == a + (b - a);
    assert |b - a| <= |b| by {
      assert b - a <= b;
    }
  }

  /** Asking a query again adds nothing: adding an id twice is the same as
      adding it once. */
  lemma RepeatedQueryAddsNothing(corpus: seq<KnowledgeChunk>, queries: seq<string>, q: string)
    requires q in queries
    ensures SearchStepIds(corpus, queries + [q]) == SearchStepIds(corpus, queries)
  {
    var hits := q => QueryHits(corpus, q);
    assert (queries + [q])[..|queries|] == queries;
    var k :| 0 <= k < |queries| && queries[k] == q;
    forall id | id in hits(q)
      ensures id in Accumulate(hits, queries)
    {
      AccumulateMembers(hits, queries, id);
    }
  }

  /** Reordering the current problems or the KPIs of a form does not change
      which chunks are selected, nor their order. */
  lemma SelectionIgnoresListOrder(corpus: seq<KnowledgeChunk>, form: FunnelRequestForm,
                                  problemas: seq<string>, kpis: seq<string>)
    requires multiset(problemas) == multiset(form.funnelActual.problemasActuales)
    requires multiset(kpis) == multiset(form.kpisAPriorizar)
    ensures var reordered := form.(funnelActual := form.funnelActual.(problemasActuales := problemas),
                                   kpisAPriorizar := kpis);
            Selection(corpus, SelectedIds(corpus, reordered)) == Selection(corpus, SelectedIds(corpus, form))
  {
    var reordered := form.(funnelActual := form.funnelActual.(problemasActuales := problemas),
                           kpisAPriorizar := kpis);
    forall q
      ensures q in Queries(reordered) <==> q in Queries(form)
    {
      assert q in problemas <==> q in multiset(problemas);
      assert q in form.funnelActual.problemasActuales <==> q in multiset(form.funnelActual.problemasActuales);
      assert q in kpis <==> q in multiset(kpis);
      assert q in form.kpisAPriorizar <==> q in multiset(form.kpisAPriorizar);
    }
    AccumulateOfSameKeys(q => QueryHits(corpus, q), Queries(reordered), Queries(form));
  }

  /** The selection is the corpus restricted to the chosen ids: corpus order
      kept, nothing invented, and no id twice when the corpus has none. */
  lemma SelectionShape(corpus: seq<KnowledgeChunk>, ids: set<string>)
    ensures IsSubsequence(Selection(corpus, ids), corpus)
    ensures forall c :: c in Selection(corpus, ids) <==> c in corpus && c.id in ids
    ensures IdsDistinct(corpus) ==> IdsDistinct(Selection(corpus, ids))
  {
    var p := (c: KnowledgeChunk) => c.id in ids;
    FilterIsSubsequence(p, corpus);
    FilterMembers(p, corpus);
    var r := Selection(corpus, ids);
    forall c | c in corpus && c.id in ids
      ensures c in r
    {
      var i :| 0 <= i < |corpus| && corpus[i] == c;
    }
    if IdsDistinct(corpus) {
      SelectionDistinct(corpus, ids);
    }
  }

  lemma {:induction false} SelectionDistinct(corpus: seq<KnowledgeChunk>, ids: set<string>)
    requires IdsDistinct(corpus)
    ensures IdsDistinct(Selection(corpus, ids))
    decreases |corpus|
  {
    if corpus != [] {
      var p := (c: KnowledgeChunk) => c.id in ids;
      var rest := Selection(corpus[1..], ids);
      SelectionDistinct(corpus[1..], ids);
      FilterMembers(p, corpus[1..]);
      if corpus[0].id in ids {
        forall k | 0 <= k < |rest|
          ensures rest[k].id != corpus[0].id
        {
          var i :| 0 <= i < |corpus[1..]| && corpus[1..][i] == rest[k];
          assert corpus[i + 1] == rest[k];
        }
      }
    }
  }

  /** With distinct ids, the selection has at most one chunk per id. */
  lemma {:induction false} SelectionSize(corpus: seq<KnowledgeChunk>, ids: set<string>)
    requires IdsDistinct(corpus)
    ensures |Selection(corpus, ids)| <= |ids|
    decreases |corpus|
  {
    if corpus != [] {
      var x := corpus[0];
      var rest := corpus[1..];
      assert IdsDistinct(rest);
      if x.id in ids {
        var smaller := ids - {x.id};
        forall c | c in rest
          ensures (c.id in ids) <==> (c.id in smaller)
        {
          var i :| 0 <= i < |rest| && rest[i] == c;
          assert corpus[i + 1] == c;
        }
        FilterCongruent((c: KnowledgeChunk) => c.id in ids, (c: KnowledgeChunk) => c.id in smaller, rest);
        SelectionSize(rest, smaller);
      } else {
        SelectionSize(rest, ids);
      }
    }
  }

  /** No more chunks than the corpus has, and, when the ids are distinct, no
      more than two per query plus one per mapped category. */
  lemma SelectionBound(corpus: seq<KnowledgeChunk>, form: FunnelRequestForm)
    ensures |Selection(corpus, SelectedIds(corpus, form))| <= |corpus|
    ensures IdsDistinct(corpus) ==>
      |Selection(corpus, SelectedIds(corpus, form))|
        <= 2 * (3 + |form.funnelActual.problemasActuales| + |form.kpisAPriorizar|)
           + |CategoryMap(ObjetivoName(form.objetivoPrincipal))|
  {
    var queries := Queries(form);
    var cats := CategoryMap(ObjetivoName(form.objetivoPrincipal));
    forall k | 0 <= k < |queries|
      ensures |QueryHits(corpus, queries[k])| <= 2
    {
      IdsOfSize(Take(Search(corpus, queries[k]), 2));
    }
    AccumulateSize(q => QueryHits(corpus, q), queries, 2);
    forall k | 0 <= k < |cats|
      ensures |CategoryHits(corpus, cats[k])| <= 1
    {
      IdsOfSize(Take(InCategory(corpus, cats[k]), 1));
    }
    AccumulateSize(cat => CategoryHits(corpus, cat), cats, 1);
    if IdsDistinct(corpus) {
      SelectionSize(corpus, SelectedIds(corpus, form));
    }
  }

  // ---------------------------------------------------------------------
  // The category step on the shipped corpus

  /** With a corpus laid out like the shipped one, capture (`captacion`)
      always brings in the first lead-magnet chunk and the first B2B chunk. */
  lemma CaptacionCategoryStep(corpus: seq<KnowledgeChunk>, form: FunnelRequestForm)
    requires CategoriasOf(corpus) == ShippedCategorias && IdsList(corpus) == ShippedIds
    requires form.objetivoPrincipal == Captacion
    ensures "lm-001" in SelectedIds(corpus, form) && "b2b-001" in SelectedIds(corpus, form)
  {
    var cats := CategoryMap(ObjetivoName(form.objetivoPrincipal));
    assert cats == ["lead-magnet", "b2b"];
    FirstOfFilter((c: KnowledgeChunk) => CategoriaName(c.categoria) == "lead-magnet", corpus, 0);
    assert CategoriasOf(corpus)[1] == Categoria.Automatizacion && CategoriasOf(corpus)[2] == Webinar;
    FirstOfFilter((c: KnowledgeChunk) => CategoriaName(c.categoria) == "b2b", corpus, 3);
    assert CategoryHits(corpus, "lead-magnet") == {"lm-001"};
    assert CategoryHits(corpus, "b2b") == {"b2b-001"};
    assert cats[..1] == ["lead-magnet"] && cats[..1][..0] == [];
    assert CategoryStepIds(corpus, cats) == CategoryStepIds(corpus, cats[..1]) + CategoryHits(corpus, "b2b");
    assert CategoryStepIds(corpus, cats[..1]) == CategoryStepIds(corpus, []) + CategoryHits(corpus, "lead-magnet");
  }

  /** With the shipped corpus, capture always selects `lm-001` and
      `b2b-001`. */
  lemma CaptacionSelectsLeadMagnetAndB2b(form: FunnelRequestForm)
    requires form.objetivoPrincipal == Captacion
    ensures "lm-001" in SelectedIds(Corpus(), form) && "b2b-001" in SelectedIds(Corpus(), form)
  {
    CorpusOutline();
    CaptacionCategoryStep(Corpus(), form);
  }

  /** In a corpus laid out like the shipped one, `hormozi-001` is the second
      optimisation chunk, so no category's first chunk is it. */
  lemma CategoryHitsSkipSecondOptimizacion(corpus: seq<KnowledgeChunk>, cat: string)
    requires CategoriasOf(corpus) == ShippedCategorias && IdsList(corpus) == ShippedIds
    ensures "hormozi-001" !in CategoryHits(corpus, cat)
  {
    var p := (c: KnowledgeChunk) => CategoriaName(c.categoria) == cat;
    assert IdsList(corpus)[5] == "hormozi-001";
    if cat == "optimizacion" {
      assert forall j :: 0 <= j < 4 ==> CategoriasOf(corpus)[j] != Optimizacion;
      FirstOfFilter(p, corpus, 4);
    } else {
      FilterMembers(p, corpus);
      forall c | c in InCategory(corpus, cat)
        ensures c.id != "hormozi-001"
      {
        var i :| 0 <= i < |corpus| && corpus[i] == c;
        assert IdsList(corpus)[i] == c.id;
      }
    }
  }

  lemma {:induction false} CategoryStepSkipsSecondOptimizacion(corpus: seq<KnowledgeChunk>, cats: seq<string>)
    requires CategoriasOf(corpus) == ShippedCategorias && IdsList(corpus) == ShippedIds
    ensures "hormozi-001" !in CategoryStepIds(corpus, cats)
    decreases |cats|
  {
    if cats != [] {
      var n := |cats| - 1;
      CategoryStepSkipsSecondOptimizacion(corpus, cats[..n]);
      CategoryHitsSkipSecondOptimizacion(corpus, cats[n]);
    }
  }

  /** With the shipped corpus the category step never adds `hormozi-001`. */
  lemma CategoryStepNeverAddsHormozi(cats: seq<string>)
    ensures "hormozi-001" !in CategoryStepIds(Corpus(), cats)
  {
    CorpusOutline();
    CategoryStepSkipsSecondOptimizacion(Corpus(), cats);
  }

  // ---------------------------------------------------------------------
  // Rendering

  /** The text block of one chunk: a header with the upper-cased category,
      sub-category and source, the content, the key insights as bullet lines
      and then the examples as bullet lines. */
  function RenderChunk(c: KnowledgeChunk): (r: string)
    ensures "\n=== " + Upper(CategoriaName(c.categoria)) + " - " + c.subcategoria + " ===\n" <= r
    ensures r[|r| - 1] == '\n'
  {
    "\n=== " + Upper(CategoriaName(c.categoria)) + " - " + c.subcategoria + " ===\n"
    + "Fuente: " + c.fuente + "\n\n"
    + c.contenido + "\n\n"
    + "INSIGHTS CLAVE:\n" + Join(Prefixed("- ", c.insights_clave), "\n") + "\n\n"
    + "EJEMPLOS:\n" + Join(Prefixed("- ", c.ejemplos), "\n") + "\n"
  }

  const Separator: string := "\n\n---\n\n"

  function Blocks(selected: seq<KnowledgeChunk>): (r: seq<string>)
    ensures |r| == |selected| && forall i :: 0 <= i < |selected| ==> r[i] == RenderChunk(selected[i])
  {
    seq(|selected|, i requires 0 <= i < |selected| => RenderChunk(selected[i]))
  }

  /** The rendering half of `getRelevantKnowledge`. */
  function RenderKnowledge(selected: seq<KnowledgeChunk>): (r: string)
    ensures r == "" <==> selected == []
    ensures selected != [] ==> RenderChunk(selected[0]) <= r
  {
    var blocks := Blocks(selected);
    if blocks == [] then ""
    else
      JoinHead(blocks, Separator);
      Join(blocks, Separator)
  }

  /** Nothing selected renders as the empty string. */
  lemma RenderNothing()
    ensures RenderKnowledge([]) == ""
  {
  }

  /** The blocks come in selection order, one separator between each two. */
  lemma RenderInOrder(selected: seq<KnowledgeChunk>)
    requires |selected| >= 2
    ensures RenderKnowledge(selected) == RenderChunk(selected[0]) + Separator + RenderKnowledge(selected[1..])
  {
    assert Blocks(selected)[1..] == Blocks(selected[1..]);
  }

  /** n blocks are joined by exactly n - 1 separators and nothing else. */
  lemma RenderLength(selected: seq<KnowledgeChunk>)
    requires |selected| >= 1
    ensures |RenderKnowledge(selected)| == TotalLength(Blocks(selected)) + (|selected| - 1) * |Separator|
  {
    JoinLength(Blocks(selected), Separator);
  }

  /** The whole block: the header line, the source, the content, then the
      insights and then the examples, each list as `- x` lines. */
  lemma ChunkEndsWithInsightsThenExamples(c: KnowledgeChunk)
    ensures RenderChunk(c) == "\n=== " + Upper(CategoriaName(c.categoria)) + " - " + c.subcategoria
                              + " ===\nFuente: " + c.fuente + "\n\n" + c.contenido + "\n\nINSIGHTS CLAVE:\n"
                              + Join(Prefixed("- ", c.insights_clave), "\n") + "\n\nEJEMPLOS:\n"
                              + Join(Prefixed("- ", c.ejemplos), "\n") + "\n"
  {
    ChunkLayout("\n=== " + Upper(CategoriaName(c.categoria)) + " - " + c.subcategoria, c.fuente, c.contenido,
                Join(Prefixed("- ", c.insights_clave), "\n"), Join(Prefixed("- ", c.ejemplos), "\n"));
  }

  /** Merging the adjacent literals of the block template. */
  lemma ChunkLayout(head: string, fuente: string, contenido: string, insights: string, examples: string)
    ensures head + " ===\n" + "Fuente: " + fuente + "\n\n" + contenido + "\n\n" + "INSIGHTS CLAVE:\n"
            + insights + "\n\n" + "EJEMPLOS:\n" + examples + "\n"
         == head + " ===\nFuente: " + fuente + "\n\n" + contenido + "\n\nINSIGHTS CLAVE:\n"
            + insights + "\n\nEJEMPLOS:\n" + examples + "\n"
  {
    var a := head + " ===\n" + "Fuente: ";
    assert a == head + " ===\nFuente: ";
    var b := a + fuente + "\n\n" + contenido + "\n\n" + "INSIGHTS CLAVE:\n";
    assert b == a + fuente + "\n\n" + contenido + "\n\nINSIGHTS CLAVE:\n";
    var d := b + insights + "\n\n" + "EJEMPLOS:\n";
    assert d == b + insights + "\n\nEJEMPLOS:\n";
  }

  /** A bullet list reads back, line by line, as its `- x` lines when no item
      spans several lines. */
  lemma BulletLines(xs: seq<string>)
    requires |xs| >= 1
    requires forall i :: 0 <= i < |xs| ==> '\n' !in xs[i]
    ensures Split(Join(Prefixed("- ", xs), "\n"), '\n') == Prefixed("- ", xs)
  {
    var b := Prefixed("- ", xs);
    forall k | 0 <= k < |b|
      ensures '\n' !in b[k]
    {
      assert b[k] == "- " + xs[k];
    }
    SplitJoin(b, '\n');
  }

  /** `getRelevantKnowledge`: select, then render. */
  method GetRelevantKnowledge(corpus: seq<KnowledgeChunk>, form: FunnelRequestForm) returns (text: string)
    ensures text == RenderKnowledge(Selection(corpus, SelectedIds(corpus, form)))
  {
    var selected := SelectRelevant(corpus, form);
    text := RenderKnowledge(selected);
  }
}
