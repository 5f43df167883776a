/** The fixed expert-knowledge corpus and its three lookups. The corpus is a
    parameter so that every property holds of any corpus; `Corpus()` is the
    shipped one with its real identifiers, categories, sub-categories,
    sources and tags, and its prose cut down to a headline, one example and
    one insight per chunk. */
module KnowledgeBase {
  import opened FunnelTypes
  import opened Seqs
  import opened Text

  /** `getKnowledgeByCategory`: the chunks of one category, in corpus order. */
  function ByCategory(corpus: seq<KnowledgeChunk>, categoria: Categoria): (r: seq<KnowledgeChunk>)
    ensures IsSubsequence(r, corpus)
    ensures forall i :: 0 <= i < |r| ==> r[i].categoria == categoria
    ensures forall i :: 0 <= i < |corpus| && corpus[i].categoria == categoria ==> corpus[i] in r
  {
    FilterIsSubsequence((c: KnowledgeChunk) => c.categoria == categoria, corpus);
    FilterMembers((c: KnowledgeChunk) => c.categoria == categoria, corpus);
    Filter((c: KnowledgeChunk) => c.categoria == categoria, corpus)
  }

  /** Some tag of the chunk is, character for character, one of `tags`. */
  predicate SharesTag(c: KnowledgeChunk, tags: seq<string>)
  {
    exists t :: t in c.tags && t in tags
  }

  /** `getKnowledgeByTags`: chunks with a tag exactly equal to a wanted one. */
  function ByTags(corpus: seq<KnowledgeChunk>, tags: seq<string>): (r: seq<KnowledgeChunk>)
    ensures IsSubsequence(r, corpus)
    ensures forall i :: 0 <= i < |r| ==> SharesTag(r[i], tags)
    ensures forall i :: 0 <= i < |corpus| && SharesTag(corpus[i], tags) ==> corpus[i] in r
    ensures tags == [] ==> r == []
  {
    FilterIsSubsequence((c: KnowledgeChunk) => SharesTag(c, tags), corpus);
    FilterMembers((c: KnowledgeChunk) => SharesTag(c, tags), corpus);
    Filter((c: KnowledgeChunk) => SharesTag(c, tags), corpus)
  }

  /** The condition `searchKnowledge` tests, for an already lower-cased
      query: it occurs in the lower-cased content, in some lower-cased tag or
      in some lower-cased key insight. Examples, id, source and
      sub-category are not looked at. */
  predicate Matches(c: KnowledgeChunk, lowerQuery: string)
  {
    || Contains(Lower(c.contenido), lowerQuery)
    || (exists t :: t in c.tags && Contains(Lower(t), lowerQuery))
    || (exists s :: s in c.insights_clave && Contains(Lower(s), lowerQuery))
  }

  /** `searchKnowledge`: the chunks matching the lower-cased query. */
  function Search(corpus: seq<KnowledgeChunk>, query: string): (r: seq<KnowledgeChunk>)
    ensures IsSubsequence(r, corpus)
    ensures forall i :: 0 <= i < |r| ==> Matches(r[i], Lower(query))
    ensures forall i :: 0 <= i < |corpus| && Matches(corpus[i], Lower(query)) ==> corpus[i] in r
  {
    var lowerQuery := Lower(query);
    FilterIsSubsequence((c: KnowledgeChunk) => Matches(c, lowerQuery), corpus);
    FilterMembers((c: KnowledgeChunk) => Matches(c, lowerQuery), corpus);
    Filter((c: KnowledgeChunk) => Matches(c, lowerQuery), corpus)
  }

  /** Only the lower-cased query matters: queries differing in case agree. */
  lemma SearchCaseInsensitive(corpus: seq<KnowledgeChunk>, q1: string, q2: string)
    requires Lower(q1) == Lower(q2)
    ensures Search(corpus, q1) == Search(corpus, q2)
  {
    FilterCongruent((c: KnowledgeChunk) => Matches(c, Lower(q1)), (c: KnowledgeChunk) => Matches(c, Lower(q2)), corpus);
  }

  /** Lower-casing the query first changes nothing. */
  lemma SearchLowerQuery(corpus: seq<KnowledgeChunk>, q: string)
    ensures Search(corpus, Lower(q)) == Search(corpus, q)
  {
    LowerIdempotent(q);
    SearchCaseInsensitive(corpus, Lower(q), q);
  }

  /** Whether a chunk matches does not depend on its id, examples, source or
      sub-category. */
  lemma MatchIgnoresUnsearchedFields(c: KnowledgeChunk, id: string, subcategoria: string,
                                     fuente: string, ejemplos: seq<string>, lowerQuery: string)
    ensures Matches(c, lowerQuery)
        <==> Matches(c.(id := id, subcategoria := subcategoria, fuente := fuente, ejemplos := ejemplos), lowerQuery)
  {
  }

  /** The empty query matches every chunk. */
  lemma SearchEmptyIsCorpus(corpus: seq<KnowledgeChunk>)
    ensures Search(corpus, "") == corpus
  {
    forall c | c in corpus
      ensures Matches(c, Lower(""))
    {
      ContainsEmpty(Lower(c.contenido));
    }
    FilterAll((c: KnowledgeChunk) => Matches(c, Lower("")), corpus);
  }

  /** A longer query finds no more: if the first lower-cased query occurs in
      the second, every hit of the second is a hit of the first, in the
      same order. */
  lemma SearchAntiMonotone(corpus: seq<KnowledgeChunk>, q1: string, q2: string)
    requires Contains(Lower(q2), Lower(q1))
    ensures IsSubsequence(Search(corpus, q2), Search(corpus, q1))
  {
    var l1, l2 := Lower(q1), Lower(q2);
    forall c | c in corpus && Matches(c, l2)
      ensures Matches(c, l1)
    {
      if Contains(Lower(c.contenido), l2) {
        ContainsTransitive(l1, l2, Lower(c.contenido));
      } else if exists t :: t in c.tags && Contains(Lower(t), l2) {
        var t :| t in c.tags && Contains(Lower(t), l2);
        ContainsTransitive(l1, l2, Lower(t));
      } else {
        var s :| s in c.insights_clave && Contains(Lower(s), l2);
        ContainsTransitive(l1, l2, Lower(s));
      }
    }
    FilterStronger((c: KnowledgeChunk) => Matches(c, l2), (c: KnowledgeChunk) => Matches(c, l1), corpus);
  }

  // ---------------------------------------------------------------------
  // The shipped corpus

  /** No two chunks share an id. */
  predicate IdsDistinct(corpus: seq<KnowledgeChunk>)
  {
    forall i, j :: 0 <= i < j < |corpus| ==> corpus[i].id != corpus[j].id
  }

  const Lm001 := KnowledgeChunk("lm-001", LeadMagnet, "errores-criticos",
    "7 ERRORES CRÍTICOS AL CREAR UN LEAD MAGNET", "LeadMadness EP.23",
    ["lead-magnet", "conversion", "validacion", "errores"],
    ["Quiz interactivo en vez de ebook genérico"],
    ["Validar interés antes de lanzar ahorra 80% del tiempo"])

  const Lm002 := KnowledgeChunk("lm-002", Categoria.Automatizacion, "workflows-clave",
    "8 AUTOMATIZACIONES CLAVE PARA AUMENTAR VENTAS", "LeadMadness EP.22",
    ["automatizacion", "crm", "email-marketing", "workflows"],
    ["Secuencia automática 7 días post-webinar"],
    ["Automatización reduce tiempo comercial 70%"])

  const Lm003 := KnowledgeChunk("lm-003", Webinar, "conversion-hacks",
    "5 HACKS PARA WEBINARS QUE VENDEN", "LeadMadness EP.21",
    ["webinar", "conversion", "storytelling", "urgencia"],
    ["Bonus: Acceso a comunidad privada solo para compradores hoy"],
    ["Storytelling conecta mejor que datos puros - genera emoción"])

  const B2b001 := KnowledgeChunk("b2b-001", B2b, "prospecting-stack",
    "STACK DE PROSPECCIÓN B2B (TOP 1% DE EQUIPOS)", "Estrategias B2B Avanzadas",
    ["b2b", "prospecting", "herramientas", "outbound", "lead-generation"],
    ["Workflow Agency: LinkedIn Sales Nav → PhantomBuster → Clearbit → Cold email"],
    ["Combinar inbound + outbound multiplica alcance por 10x"])

  const Hubspot001 := KnowledgeChunk("hubspot-001", Optimizacion, "loop-marketing",
    "LOOP MARKETING - FRAMEWORK HUBSPOT 2025", "Loop Marketing HubSpot 2025",
    ["loop-marketing", "hubspot", "inbound", "omnichannel", "ia", "personalizacion"],
    ["Personalización: Visitante SaaS ve casos SaaS, ecommerce ve casos ecommerce"],
    ["IA + toque humano = crecimiento sin perder autenticidad"])

  const Hormozi001 := KnowledgeChunk("hormozi-001", Optimizacion, "value-ladder-hormozi",
    "ESCALERA DE VALOR - ALEX HORMOZI", "Alex Hormozi - $100M Offers & Value Ladder",
    ["value-ladder", "pricing", "hormozi", "ltv", "upsell"],
    ["Coach: Quiz gratis → Ebook $27 → Curso $497 → Coaching grupal $3k → 1-on-1 $15k"],
    ["LTV real viene de ascender clientes, no solo venta inicial"])

  const Copy001 := KnowledgeChunk("copy-001", Copywriting, "frameworks",
    "FRAMEWORKS DE COPYWRITING PARA FUNNELS", "Copywriting Best Practices",
    ["copywriting", "conversion", "frameworks", "persuasion"],
    ["Before-After: Cliente facturaba $20k → Ahora $100k → Usó nuestro framework X\""],
    ["Focus en BENEFICIOS (qué ganan) no features (qué es)"])

  function Corpus(): (r: seq<KnowledgeChunk>)
    ensures |r| == 7
  {
    [Lm001, Lm002, Lm003, B2b001, Hubspot001, Hormozi001, Copy001]
  }

  /** The categories of a corpus, in corpus order. */
  function CategoriasOf(corpus: seq<KnowledgeChunk>): (r: seq<Categoria>)
    ensures |r| == |corpus| && forall i :: 0 <= i < |corpus| ==> r[i] == corpus[i].categoria
  {
    seq(|corpus|, i requires 0 <= i < |corpus| => corpus[i].categoria)
  }

  /** The ids of a corpus, in corpus order. */
  function IdsList(corpus: seq<KnowledgeChunk>): (r: seq<string>)
    ensures |r| == |corpus| && forall i :: 0 <= i < |corpus| ==> r[i] == corpus[i].id
  {
    seq(|corpus|, i requires 0 <= i < |corpus| => corpus[i].id)
  }

  const ShippedCategorias: seq<Categoria> :=
    [LeadMagnet, Categoria.Automatizacion, Webinar, B2b, Optimizacion, Optimizacion, Copywriting]

  const ShippedIds: seq<string> :=
    ["lm-001", "lm-002", "lm-003", "b2b-001", "hubspot-001", "hormozi-001", "copy-001"]

  /** The shipped corpus, as far as ids and categories go. */
  lemma CorpusOutline()
    ensures CategoriasOf(Corpus()) == ShippedCategorias
    ensures IdsList(Corpus()) == ShippedIds
  {
  }

  /** The seven shipped ids are pairwise distinct. */
  lemma CorpusIdsDistinct()
    ensures IdsDistinct(Corpus())
  {
  }

  /** Filtering seven chunks of which only the fifth and sixth are
      optimisation chunks. */
  lemma ByCategoryOfSeven(a: KnowledgeChunk, b: KnowledgeChunk, c: KnowledgeChunk, d: KnowledgeChunk,
                          e: KnowledgeChunk, f: KnowledgeChunk, g: KnowledgeChunk)
    requires a.categoria != Optimizacion && b.categoria != Optimizacion && c.categoria != Optimizacion
    requires d.categoria != Optimizacion && e.categoria == Optimizacion && f.categoria == Optimizacion
    requires g.categoria != Optimizacion
    ensures ByCategory([a, b, c, d, e, f, g], Optimizacion) == [e, f]
  {
    var opt := (x: KnowledgeChunk) => x.categoria == Optimizacion;
    FilterCons(opt, g, []);
    FilterCons(opt, f, [g]);
    FilterCons(opt, e, [f, g]);
    FilterCons(opt, d, [e, f, g]);
    FilterCons(opt, c, [d, e, f, g]);
    FilterCons(opt, b, [c, d, e, f, g]);
    FilterCons(opt, a, [b, c, d, e, f, g]);
    assert [a] + [b, c, d, e, f, g] == [a, b, c, d, e, f, g];
  }

  /** Exactly two chunks, the fifth and the sixth (`hubspot-001` and
      `hormozi-001`), are optimisation chunks. */
  lemma CorpusOptimizacion()
    ensures ByCategory(Corpus(), Optimizacion) == [Hubspot001, Hormozi001]
  {
    ByCategoryOfSeven(Lm001, Lm002, Lm003, B2b001, Hubspot001, Hormozi001, Copy001);
  }

  /** No chunk is a tech-stack chunk, so that category finds nothing. */
  lemma CorpusHasNoStackTech()
    ensures ByCategory(Corpus(), StackTech) == []
  {
    var corpus := Corpus();
    CorpusOutline();
    forall i | 0 <= i < |corpus|
      ensures corpus[i].categoria != StackTech
    {
      assert CategoriasOf(corpus)[i] == ShippedCategorias[i];
    }
    NoneOfCategory(corpus, StackTech);
  }

  /** A category no chunk carries yields nothing. */
  lemma {:induction false} NoneOfCategory(corpus: seq<KnowledgeChunk>, categoria: Categoria)
    requires forall i :: 0 <= i < |corpus| ==> corpus[i].categoria != categoria
    ensures ByCategory(corpus, categoria) == []
    decreases |corpus|
  {
    if corpus != [] {
      forall i | 0 <= i < |corpus| - 1
        ensures corpus[1..][i].categoria != categoria
      {
        assert corpus[1..][i] == corpus[i + 1];
      }
      NoneOfCategory(corpus[1..], categoria);
    }
  }

}
