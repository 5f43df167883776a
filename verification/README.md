# Funnel generator core, modelled in Dafny

The funnel generator takes a sales-funnel questionnaire, picks matching
entries from a fixed knowledge base of seven expert chunks, writes a prompt
for a language model and accepts the JSON strategy it returns. The results
page then shows the strategy in cards. This project models the logic of that
pipeline and proves properties about it:

- the three knowledge-base queries (by category, by tags, free-text search);
- the relevance selection (a set of ids filled by two loops) and the text
  rendering of the selected chunks;
- the user prompt template and the fixed system prompt;
- the handling of the model's reply and the shallow `validateStrategy`;
- the questionnaire schema and `processFormData`, which splits and trims the
  comma-separated fields;
- the small derivations of the cards: the essential-cost fold, the icon
  lookup, the score bands and the group-by-category reduce.

Modules, one per source file plus shared foundations:

| module | file | models |
|---|---|---|
| `Wrappers` | wrappers.dfy | `Option` and `Result` (errors carry the thrown message) |
| `Seqs` | seqs.dfy | order-preserving `filter`, `slice(0, n)`, subsequences |
| `Text` | text.dfy | ASCII case mapping, `includes`, `trim`, `split`, `join`, prefixing every item |
| `FunnelTypes` | types.dfy | the records and literal enumerations of `src/types/funnel.ts` |
| `KnowledgeBase` | knowledge_base.dfy | `src/data/knowledge-base.ts` |
| `Relevance` | relevance.dfy | `getRelevantKnowledge` in `src/lib/openai.ts` |
| `FunnelForm` | funnel_form.dfy | `src/components/forms/FunnelRequestForm.tsx` |
| `Prompt` | prompt.dfy | the two prompts of `src/lib/openai.ts` |
| `Generation` | generation.dfy | `generateFunnel` and `validateStrategy` |
| `Budget` | budget.dfy | `src/components/funnel/BudgetCard.tsx` |
| `Diagnosis` | diagnosis.dfy | `src/components/funnel/DiagnosisCard.tsx` |
| `TechStack` | tech_stack.dfy | `src/components/funnel/TechStackCard.tsx` |

The corpus is a parameter (`seq<KnowledgeChunk>`), so the general lemmas hold
for any corpus. `KnowledgeBase.Corpus()` is the shipped corpus with its real
ids, categories, sub-categories, sources and tags. Its content, examples and
insights are shortened. The concrete lemmas about the shipped corpus are
proved for any corpus with the same ids and categories in the same order.

The selection in `getRelevantKnowledge` mutates a `Set` inside two `forEach`
loops. It is modelled as the method `Relevance.SelectRelevant`, with a set
accumulator and loop invariants, proved against the specification function
`Relevance.SelectedIds`. The tech-stack reduce mutates a dictionary of
arrays. It is the method `TechStack.GroupStack`, with a `map` of sequences and
the list of keys in insertion order, proved against `TechStack.Group` and
`TechStack.CategoryOrder`. Everything else in the core is expressions and is
modelled by functions.

The outside world enters as parameters:

- the language-model call is `complete: (system, user) -> Result<choices>`;
- `JSON.parse` is `parse: string -> Result<Json>`;
- `parseFloat` is `parseFloat: string -> JsNumber`;
- number-to-text conversion is `numText: real -> string`;
- the email format check is `isEmail: string -> bool`;
- the two `Date.now()` readings are `startTime` and `endTime`.

Behaviour of the code worth noting:

- The response check looks at seven top-level sections.
- The check is truthiness only: `[]` or `"x"` passes as a section.
- `generateFunnel` never calls `validateStrategy`. Whatever `JSON.parse`
  returns, `null` and `{}` included, is handed back as the strategy.
- The score range 0-100 and the budget total are never checked.
- List fields can hold empty items: `",,,"` passes the schema.

## Model

| member | source | states |
|---|---|---|
| KnowledgeBase.ByCategory | src/data/knowledge-base.ts:835-837 | the result is a subsequence of the corpus (order kept, nothing invented) holding every chunk of the category and only those |
| KnowledgeBase.ByTags | src/data/knowledge-base.ts:842-846 | subsequence of the corpus; a chunk is kept iff one of its tags equals (case-sensitively) one of the given tags; no tags gives no chunks |
| KnowledgeBase.Search | src/data/knowledge-base.ts:851-858 | subsequence of the corpus; a chunk is kept iff the lower-cased query occurs in its lower-cased content, a lower-cased tag or a lower-cased insight |
| KnowledgeBase.SearchCaseInsensitive | src/data/knowledge-base.ts:851-852 | queries with the same lower-case form give identical results |
| KnowledgeBase.SearchLowerQuery | src/data/knowledge-base.ts:852 | lower-casing the query before searching changes nothing |
| KnowledgeBase.MatchIgnoresUnsearchedFields | src/data/knowledge-base.ts:853-857 | changing id, sub-category, source or examples never changes whether a chunk matches |
| KnowledgeBase.SearchEmptyIsCorpus | src/data/knowledge-base.ts:852-857 | the empty query returns the whole corpus |
| KnowledgeBase.SearchAntiMonotone | src/data/knowledge-base.ts:853-857 | if lower(q1) occurs in lower(q2), the hits of q2 are a subsequence of the hits of q1 |
| KnowledgeBase.Corpus | src/data/knowledge-base.ts:8-830 | the shipped corpus has seven chunks |
| KnowledgeBase.CorpusOutline | src/data/knowledge-base.ts:8-830 | the shipped ids and categories, in corpus order |
| KnowledgeBase.CorpusIdsDistinct | src/data/knowledge-base.ts:8-830 | the seven ids are pairwise distinct |
| KnowledgeBase.ByCategoryOfSeven | src/data/knowledge-base.ts:835-837 | in a seven-chunk corpus whose fifth and sixth chunks alone are `optimizacion`, the category query returns exactly those two |
| KnowledgeBase.CorpusOptimizacion | src/data/knowledge-base.ts:835-837 | exactly two shipped chunks are `optimizacion`: hubspot-001 then hormozi-001 |
| KnowledgeBase.CorpusHasNoStackTech | src/data/knowledge-base.ts:835-837 | the `stack-tech` query on the shipped corpus is empty |
| KnowledgeBase.NoneOfCategory | src/data/knowledge-base.ts:835-837 | a category no chunk carries yields no chunks |
| Relevance.Queries | src/lib/openai.ts:51-57 | the query list has 3 + \|problemas\| + \|kpis\| entries |
| Relevance.CategoryMap | src/lib/openai.ts:71-78 | each objective maps to at most three categories |
| Relevance.CategoryMapKeys | src/lib/openai.ts:71-78 | the table gives a non-empty list exactly for the four objective literals; any other text that is not an inherited object property name gives `[]` |
| Relevance.IdsOfSize | src/lib/openai.ts:64-66 | the ids of n chunks are at most n |
| Relevance.AccumulateNext | src/lib/openai.ts:62-67 | one more loop step adds exactly the hits of the next key |
| Relevance.AddIds | src/lib/openai.ts:64-66 | the inner loop leaves the set holding the old ids plus the ids of the chunks |
| Relevance.SelectRelevant | src/lib/openai.ts:60-85 | the two loops end with the corpus filtered by the accumulated ids of both steps |
| Relevance.AccumulateMembers | src/lib/openai.ts:62-67 | an id is in the set iff some key's hits contain it |
| Relevance.AccumulateOfSameKeys | src/lib/openai.ts:62-67 | key lists with the same members give the same set, whatever their order or repetitions |
| Relevance.AccumulateSize | src/lib/openai.ts:62-67 | with at most b hits per key, the set has at most b·(number of keys) ids |
| Relevance.RepeatedQueryAddsNothing | src/lib/openai.ts:62-67 | adding an id (query) a second time changes nothing |
| Relevance.SelectionIgnoresListOrder | src/lib/openai.ts:51-85 | permuting `problemasActuales` or `kpisAPriorizar` leaves the selection unchanged |
| Relevance.Selection | src/lib/openai.ts:85 | the selected chunks are a subsequence of the corpus (corpus order kept), holding a chunk iff it is in the corpus and its id is in the set |
| Relevance.SelectionShape | src/lib/openai.ts:85 | the selection is a subsequence of the corpus holding exactly the chunks whose id is in the set; distinct corpus ids stay distinct |
| Relevance.SelectionDistinct | src/lib/openai.ts:85 | a corpus with distinct ids gives a selection with distinct ids |
| Relevance.SelectionSize | src/lib/openai.ts:85 | with distinct ids, the selection is no longer than the id set |
| Relevance.SelectionBound | src/lib/openai.ts:60-85 | the selection has at most \|corpus\| chunks, and with distinct ids at most 2·(3+\|problemas\|+\|kpis\|) + \|categories\| |
| Relevance.CaptacionCategoryStep | src/lib/openai.ts:77-83 | for any corpus laid out like the shipped one, `captacion` selects lm-001 and b2b-001 |
| Relevance.CaptacionSelectsLeadMagnetAndB2b | src/lib/openai.ts:77-83 | with the shipped corpus, `captacion` always selects lm-001 and b2b-001 |
| Relevance.CategoryHitsSkipSecondOptimizacion | src/lib/openai.ts:79-82 | no category lookup yields hormozi-001, the second `optimizacion` chunk |
| Relevance.CategoryStepSkipsSecondOptimizacion | src/lib/openai.ts:79-83 | the category step never adds hormozi-001, for any category list |
| Relevance.CategoryStepNeverAddsHormozi | src/lib/openai.ts:79-83 | the same for the shipped corpus |
| Relevance.RenderChunk | src/lib/openai.ts:87-97 | a block opens with its header line `=== CATEGORY - subcategory ===` (category upper-cased) and ends with a line break |
| Relevance.RenderKnowledge | src/lib/openai.ts:87-98 | the text is empty iff nothing is selected, and otherwise starts with the first selected chunk's block |
| Relevance.RenderNothing | src/lib/openai.ts:87-98 | an empty selection renders as `""` |
| Relevance.RenderInOrder | src/lib/openai.ts:87-98 | blocks appear in selection order with one separator between neighbours |
| Relevance.RenderLength | src/lib/openai.ts:98 | n blocks are joined by exactly n−1 separators `"\n\n---\n\n"` |
| Relevance.ChunkEndsWithInsightsThenExamples | src/lib/openai.ts:87-97 | a block is the header line, `Fuente:` line, content, then the insights and then the examples, each list as `- x` lines |
| Relevance.BulletLines | src/lib/openai.ts:93-97 | a bullet list of single-line items splits back into its `- x` lines |
| Relevance.GetRelevantKnowledge | src/lib/openai.ts:50-99 | the returned text is the rendering of the selection |
| FunnelForm.ParseNumeroEmpleados | src/components/forms/FunnelRequestForm.tsx:21 | only the five listed literals parse, each to the value written as it |
| FunnelForm.ParseModeloNegocio | src/components/forms/FunnelRequestForm.tsx:23 | only the four listed literals parse, each to the value written as it |
| FunnelForm.ParseObjetivo | src/components/forms/FunnelRequestForm.tsx:33 | only the four listed literals parse, each to the value written as it |
| FunnelForm.ParsePresupuesto | src/components/forms/FunnelRequestForm.tsx:34 | only the four listed literals parse, each to the value written as it |
| FunnelForm.ParseTiempo | src/components/forms/FunnelRequestForm.tsx:35 | only the four listed literals parse, each to the value written as it |
| FunnelForm.EnumNamesParse | src/components/forms/FunnelRequestForm.tsx:21-35 | every enumerated value parses back from its literal |
| FunnelForm.SchemaEnumLiterals | src/components/forms/FunnelRequestForm.tsx:16-43 | an accepted form holds only listed literals in its five enumerated fields |
| FunnelForm.ParseList | src/components/forms/FunnelRequestForm.tsx:66 | item i is the trimmed i-th comma-separated piece |
| FunnelForm.ParseListShape | src/components/forms/FunnelRequestForm.tsx:66 | (commas + 1) items, none containing a comma or surrounding whitespace |
| FunnelForm.TrimKeepsOut | src/components/forms/FunnelRequestForm.tsx:66 | trimming never introduces a character |
| FunnelForm.ParseListWithoutComma | src/components/forms/FunnelRequestForm.tsx:66 | text without commas becomes `[trim(s)]` |
| FunnelForm.ParseJoinedList | src/components/forms/FunnelRequestForm.tsx:66 | a non-empty list of comma-free trimmed items joined with `", "` splits and trims back to itself |
| FunnelForm.ParseListStable | src/components/forms/FunnelRequestForm.tsx:66 | a list the form produced survives a join with `", "` and a second parse |
| FunnelForm.CommasOnlyList | src/components/forms/FunnelRequestForm.tsx:27 | an accepted form with `",,,"` as its stages is still accepted, and processing turns the stages into four empty items |
| FunnelForm.ParseTasa | src/components/forms/FunnelRequestForm.tsx:69-71 | absent or empty text gives no rate; other text gives `parseFloat` of it |
| FunnelForm.ProcessFormData | src/components/forms/FunnelRequestForm.tsx:61-80 | the five list fields are split and trimmed, the rate parsed, and every other field passed through unchanged |
| FunnelForm.SchemaAccepts | src/components/forms/FunnelRequestForm.tsx:16-43 | accepted data holds valid literals in all five enumerations, so it can be processed |
| FunnelForm.Submit | src/components/forms/FunnelRequestForm.tsx:16-43 | a request is produced iff the schema accepts the raw data, and it is the processed data |
| FunnelForm.ProcessedListsShaped | src/components/forms/FunnelRequestForm.tsx:66-77 | every list of a processed request is non-empty with comma-free, trimmed items |
| Prompt.ConversionLine | src/lib/openai.ts:128 | the rate line is non-empty iff the rate is truthy, and then reads `Tasa de conversión actual: <rate>%` |
| Prompt.PromptLines | src/lib/openai.ts:113-249 | the template has 43 lines |
| Prompt.UserPrompt | src/lib/openai.ts:113-249 | the prompt contains the knowledge header line followed by the rendered knowledge on its own line |
| Prompt.FalsyRatesSamePrompt | src/lib/openai.ts:128 | absent, 0 and NaN rates give the identical prompt |
| Prompt.RateLineShown | src/lib/openai.ts:128 | prompt line 15 is non-empty iff the request's rate is truthy |
| Prompt.PromptOmitsEmail | src/lib/openai.ts:113-249 | the email never appears in the prompt: changing it leaves the prompt identical |
| Prompt.KnowledgeVerbatim | src/lib/openai.ts:141-142 | the rendered knowledge is inserted verbatim as its own block right after its header |
| Prompt.ListLineReadsBack | src/lib/openai.ts:125 | a captioned `", "`-joined list line reads back as its list |
| Prompt.SituationListsReadBack | src/lib/openai.ts:125-127 | the stages, tools and problems lines read back, through the form's split and trim, as their lists |
| Prompt.GoalListsReadBack | src/lib/openai.ts:134 | the KPI line of the goals block reads back as the KPI list |
| Prompt.InstructionListsReadBack | src/lib/openai.ts:147 | the KPI line of the instructions reads back as the KPI list |
| Prompt.IdealClientListsReadBack | src/lib/openai.ts:138-139 | the pain-point and channel lines read back as their lists |
| Generation.ValidateStrategy | src/lib/openai.ts:300-311 | throws exactly on `null`; true iff the value is an object whose seven sections are all present and truthy |
| Generation.EmptySectionsPass | src/lib/openai.ts:300-311 | seven empty arrays pass: nested shape is not checked |
| Generation.FalsySectionFails | src/lib/openai.ts:300-311 | one missing or falsy section fails the check whatever the rest holds |
| Generation.HandleCompletion | src/lib/openai.ts:265-282 | a call error is rethrown unchanged, no choice raises the read error, and a result carries end − start as its time |
| Generation.EmptyContentRejected | src/lib/openai.ts:265-268 | null or `""` content raises `No se recibió respuesta del modelo de IA`, before the parser is consulted |
| Generation.ContentParsed | src/lib/openai.ts:270-278 | non-empty content gives the parser's error unchanged or its value as the strategy |
| Generation.UnvalidatedNullAccepted | src/lib/openai.ts:270-278 | a reply parsing to `null` is returned although `validateStrategy` would throw on it |
| Generation.EmptyObjectReturned | src/lib/openai.ts:270-278 | a reply of `{}` is returned although `validateStrategy` rejects it |
| Generation.GenerateFunnel | src/lib/openai.ts:104-283 | the model is asked with the system prompt and the user prompt built from the selected knowledge; the outcome is the handled reply |
| Generation.OutcomeIgnoresEmail | src/lib/openai.ts:104-142 | the generation outcome does not depend on the email |
| Budget.TotalEsencial | src/components/funnel/BudgetCard.tsx:21-23 | the filter-then-reduce equals the sum of `costoMensual` over the essential items, an independent recursive definition |
| Budget.NoEssentialIsZero | src/components/funnel/BudgetCard.tsx:21-23 | no essential items (an empty breakdown included) gives 0 |
| Budget.EssentialWithinTotal | src/components/funnel/BudgetCard.tsx:21-23 | with non-negative costs, 0 ≤ essential ≤ sum of all costs |
| Budget.TotalEsencialPermutation | src/components/funnel/BudgetCard.tsx:21-23 | reordering the breakdown leaves the essential investment unchanged |
| Budget.EssentialSumPermutation | src/components/funnel/BudgetCard.tsx:21-23 | the reference sum is invariant under permutation |
| Budget.BudgetSummary | src/components/funnel/BudgetCard.tsx:37-49 | the displayed total is the supplied total; the essential figure is the essential sum |
| Budget.TotalNotChecked | src/components/funnel/BudgetCard.tsx:37 | a total of 100 over an empty breakdown is displayed as 100 |
| Budget.CategoryIcon | src/components/funnel/BudgetCard.tsx:13-19 | the five known categories get their icons; the box icon comes out iff the category is unknown or `otros` |
| Diagnosis.ScoreColor | src/components/funnel/DiagnosisCard.tsx:10-14 | green iff score ≥ 70, yellow iff 40 ≤ score < 70, red iff score < 40 |
| Diagnosis.ScoreBg | src/components/funnel/DiagnosisCard.tsx:16-20 | the same three bands for the background |
| Diagnosis.SameBand | src/components/funnel/DiagnosisCard.tsx:10-20 | colour and background always name the band of the score |
| Diagnosis.ColorMatchesBackground | src/components/funnel/DiagnosisCard.tsx:10-20 | two scores share a colour iff they share a background |
| Diagnosis.Boundaries | src/components/funnel/DiagnosisCard.tsx:11-18 | 70 is green, 69 yellow, 40 yellow, 39 red |
| Diagnosis.Monotone | src/components/funnel/DiagnosisCard.tsx:10-14 | a higher score never gets a worse band |
| Diagnosis.NoClamping | src/components/funnel/DiagnosisCard.tsx:10-20 | 150 is green and −5 red: no clamping to 0-100 |
| TechStack.GroupStack | src/components/funnel/TechStackCard.tsx:10-16 | the keys are the categories present in first-appearance order, and each group is the stack filtered by its category |
| TechStack.OrderCovers | src/components/funnel/TechStackCard.tsx:11-13 | the key list holds each present category exactly once and nothing else |
| TechStack.OrderPrefix | src/components/funnel/TechStackCard.tsx:10-26 | keys created earlier keep their place: the keys of a prefix are a prefix of the keys |
| TechStack.GroupSnoc | src/components/funnel/TechStackCard.tsx:14 | a push appends the item to its own group only |
| TechStack.GroupOfAbsent | src/components/funnel/TechStackCard.tsx:11-13 | a category that does not occur has no items |
| TechStack.ItemInOwnGroup | src/components/funnel/TechStackCard.tsx:10-16 | an item lies in a group iff the group is its category's |
| TechStack.GroupKeepsOrder | src/components/funnel/TechStackCard.tsx:14 | within a group the items keep their stack order |
| TechStack.GroupSizesSum | src/components/funnel/TechStackCard.tsx:10-16 | the group sizes add up to the number of tools |
| TechStack.EmptyStackNoGroups | src/components/funnel/TechStackCard.tsx:10-16 | an empty stack yields no keys |
| TechStack.AlternativesLine | src/components/funnel/TechStackCard.tsx:44-48 | the alternatives line exists iff there are alternatives, and is then the caption followed by the alternatives joined with `", "` |
| TechStack.AlternativesReadBack | src/components/funnel/TechStackCard.tsx:47 | the alternatives are joined with `", "` so that comma-free trimmed items read back |

## Left out

- The OpenAI client, the API-key check at module load, the network call and
  its options (model, temperature, token limit) are not modelled. The call is
  the parameter `complete`.
- `Date.now` is not modelled: the two clock readings are parameters.
- `console.error` is left out: it only logs before rethrowing.
- `generateAdditionalResources` is a stub that returns `[]`. It is not modelled.
- HTTP routing, the result pages, browser storage, downloads and sharing are
  outside the core.
- `FunnelStagesCard`, the layout and all JSX markup are presentation only.
- Floating point is not modelled. Costs, totals and scores are `int`. The
  conversion rate is a real or NaN. Number formatting (`toLocaleString` and
  number-to-text) is a parameter or left out.
- The generated strategy is typed: `esencial` is a `bool`, costs are `int`.
  The source tests `esencial` for truthiness on JSON from the model that
  is never checked, so `1`, `"no"` or a missing field are not modelled.
- The corpus prose is shortened. `vector_embedding` is absent because the
  shipped chunks have none.
- Text.Lower: maps only ASCII letters; the Unicode case mapping of
  `toLowerCase`/`toUpperCase` is not modelled.
- FunnelForm.SchemaAccepts: measures lengths in characters, not UTF-16 code
  units. The email format rule of the validation library is the parameter
  `isEmail`.
- TechStack.GroupStack: assumes categories that are not integer-like. Such
  keys would be listed first, in numeric order. It also uses a plain map: in
  the source a category named like an inherited object property (such as
  `constructor`) hits that property and makes the push throw.
- Budget.CategoryIcon: a category named like an inherited object property
  would return that property instead of the box icon.
- Relevance.CategoryMapKeys: assumes the objective is not the name of an
  inherited object property. For `constructor`, `toString` or `__proto__`
  the source's lookup yields a truthy inherited member and the category
  loop throws; the model gives `[]`.
