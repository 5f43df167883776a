/** The two prompts sent to the language model: the fixed system prompt and
    the user prompt, a fixed template filled in from the request and the
    rendered knowledge, with one line that depends on the conversion rate. */
module Prompt {
  import opened Wrappers
  import opened FunnelTypes
  import opened Text
  import opened FunnelForm

  /** The system prompt, word for word. */
  const SystemPrompt: string := @"Eres un experto en funnels de ventas con 15 años de experiencia, especializado en:
- Estrategias de LeadMadness Show (automatización, webinars, lead magnets)
- Loop Marketing de HubSpot (Definición → Adaptación → Amplificación → Optimización)
- Metodologías B2B (prospección, cualificación, outreach)
- Frameworks de Alex Hormozi (value ladder, irresistible offers)

Tu tarea es analizar la información del cliente y generar un funnel personalizado que incluya:

1. DIAGNÓSTICO (análisis DAFO del estado actual con score 0-100)
2. ESTRATEGIA DE FUNNEL (etapas específicas adaptadas al cliente con tipo de funnel)
3. STACK TECNOLÓGICO (herramientas recomendadas con alternativas)
4. PLAN DE IMPLEMENTACIÓN (roadmap con quick wins para primeros 30 días)
5. KPIS Y MÉTRICAS (dashboard de seguimiento con objetivos realistas)
6. PRESUPUESTO DETALLADO (inversión por categoría con ROI esperado)
7. AUTOMATIZACIONES CLAVE (workflows específicos priorizados)

IMPORTANTE:
- Sé específico y accionable
- Basa recomendaciones en las mejores prácticas del conocimiento proporcionado
- Adapta TODO al contexto específico del cliente (industria, presupuesto, objetivos)
- Incluye quick wins para primeros 30 días
- Proporciona métricas realistas basadas en benchmarks de industria
- Prioriza según recursos disponibles

FORMATO DE SALIDA: JSON estructurado válido según el schema proporcionado"

  /** The JSON layout the user prompt asks the model to follow, word for word. */
  const SchemaText: string := @"{
  ""diagnostico"": {
    ""fortalezas"": [""string""],
    ""debilidades"": [""string""],
    ""oportunidades"": [""string""],
    ""amenazas"": [""string""],
    ""scoreActual"": number (0-100)
  },
  ""funnel"": {
    ""nombre"": ""string"",
    ""tipo"": ""lead-magnet"" | ""webinar"" | ""vsl"" | ""tripwire"" | ""application"" | ""hybrid"",
    ""etapas"": [
      {
        ""orden"": number,
        ""nombre"": ""string"",
        ""objetivo"": ""string"",
        ""tacticas"": [""string""],
        ""contenido"": [
          {
            ""tipo"": ""email"" | ""landing-page"" | ""webinar"" | ""video"" | ""ebook"" | ""blog-post"" | ""social-media"" | ""ad"",
            ""titulo"": ""string"",
            ""descripcion"": ""string"",
            ""cta"": ""string (opcional)""
          }
        ],
        ""automatizaciones"": [""string""],
        ""metricasClave"": [""string""],
        ""tasaConversionEsperada"": number
      }
    ],
    ""escaleraValor"": [
      {
        ""nivel"": number,
        ""nombre"": ""string"",
        ""precio"": number,
        ""descripcion"": ""string"",
        ""deliverables"": [""string""],
        ""tiempoEntrega"": ""string""
      }
    ]
  },
  ""stack"": [
    {
      ""categoria"": ""string"",
      ""herramienta"": ""string"",
      ""proposito"": ""string"",
      ""costo"": ""string"",
      ""alternativas"": [""string""]
    }
  ],
  ""roadmap"": [
    {
      ""fase"": ""string"",
      ""duracion"": ""string"",
      ""tareas"": [
        {
          ""titulo"": ""string"",
          ""descripcion"": ""string"",
          ""prioridad"": ""alta"" | ""media"" | ""baja"",
          ""estimacionHoras"": number (opcional)
        }
      ],
      ""quickWins"": [""string""]
    }
  ],
  ""kpis"": [
    {
      ""metrica"": ""string"",
      ""valorActual"": number (opcional),
      ""objetivo"": number,
      ""frecuenciaMedicion"": ""string""
    }
  ],
  ""presupuesto"": {
    ""total"": number,
    ""desglose"": [
      {
        ""concepto"": ""string"",
        ""categoria"": ""herramientas"" | ""publicidad"" | ""contenido"" | ""personal"" | ""otros"",
        ""costoMensual"": number,
        ""esencial"": boolean
      }
    ],
    ""roi_esperado"": ""string""
  },
  ""automatizaciones"": [
    {
      ""tipo"": ""string"",
      ""trigger"": ""string"",
      ""accion"": ""string"",
      ""herramienta"": ""string"",
      ""prioridad"": ""alta"" | ""media"" | ""baja""
    }
  ]
}"

  /** The conditional line: shown only for a truthy rate, so an absent rate,
      0 and NaN all leave the line empty. `numText` is JavaScript's number to
      text conversion. */
  function ConversionLine(tasa: Option<JsNumber>, numText: real -> string): (r: string)
    ensures r != "" <==> tasa.Some? && NumberTruthy(tasa.value)
    ensures r != "" ==> r == "Tasa de conversión actual: " + numText(tasa.value.value) + "%"
  {
    if tasa.Some? && NumberTruthy(tasa.value) then
      "Tasa de conversión actual: " + numText(tasa.value.value) + "%"
    else ""
  }

  /** The lines of the user prompt template, section by section. The
      template starts and ends with a line break, hence the empty first and
      last lines. */
  function PromptLines(form: FunnelRequestForm, knowledge: string, numText: real -> string): (r: seq<string>)
    ensures |r| == 43
  {
    ClientLines(form) + SituationLines(form.funnelActual, numText) + GoalLines(form)
    + IdealClientLines(form.clienteIdeal) + KnowledgeLines(knowledge) + InstructionLines(form) + ClosingLines()
  }

  function ClientLines(form: FunnelRequestForm): (r: seq<string>)
    ensures |r| == 10
  {
    [ "",
      "Genera una estrategia completa de funnel de ventas para el siguiente cliente:",
      "",
      "=== INFORMACIÓN DEL CLIENTE ===",
      "Nombre: " + form.nombre,
      "Empresa: " + form.empresa,
      "Industria: " + form.industria,
      "Modelo de Negocio: " + ModeloNegocioName(form.modeloNegocio),
      "Tamaño: " + NumeroEmpleadosName(form.numeroEmpleados) + " empleados",
      "" ]
  }

  function SituationLines(fa: FunnelActual, numText: real -> string): (r: seq<string>)
    ensures |r| == 7
    ensures r[2] == EtapasLabel + Join(fa.etapas, ", ")
    ensures r[3] == HerramientasLabel + Join(fa.herramientasUsadas, ", ")
    ensures r[4] == ProblemasLabel + Join(fa.problemasActuales, ", ")
  {
    [ "=== SITUACIÓN ACTUAL ===",
      "Descripción del funnel actual: " + fa.descripcion,
      EtapasLabel + Join(fa.etapas, ", "),
      HerramientasLabel + Join(fa.herramientasUsadas, ", "),
      ProblemasLabel + Join(fa.problemasActuales, ", "),
      ConversionLine(fa.tasaConversionActual, numText),
      "" ]
  }

  function GoalLines(form: FunnelRequestForm): (r: seq<string>)
    ensures |r| == 6
    ensures r[4] == KpisLabel + Join(form.kpisAPriorizar, ", ")
  {
    [ "=== OBJETIVOS Y RECURSOS ===",
      "Objetivo Principal: " + ObjetivoName(form.objetivoPrincipal),
      "Presupuesto Mensual: " + PresupuestoName(form.presupuestoMensual),
      "Tiempo para Implementación: " + TiempoName(form.tiempoImplementacion),
      KpisLabel + Join(form.kpisAPriorizar, ", "),
      "" ]
  }

  function IdealClientLines(ci: ClienteIdeal): (r: seq<string>)
    ensures |r| == 5
    ensures r[2] == PuntosDolorLabel + Join(ci.puntosDolor, ", ")
    ensures r[3] == CanalesLabel + Join(ci.canalesPreferidos, ", ")
  {
    [ "=== CLIENTE IDEAL ===",
      "Perfil: " + ci.perfil,
      PuntosDolorLabel + Join(ci.puntosDolor, ", "),
      CanalesLabel + Join(ci.canalesPreferidos, ", "),
      "" ]
  }

  function KnowledgeLines(knowledge: string): (r: seq<string>)
    ensures |r| == 3
  {
    [ KnowledgeHeader,
      knowledge,
      "" ]
  }

  const KnowledgeHeader: string := "=== CONOCIMIENTO EXPERTO RELEVANTE ==="

  function InstructionLines(form: FunnelRequestForm): (r: seq<string>)
    ensures |r| == 8
    ensures r[3] == PrioridadLabel + Join(form.kpisAPriorizar, ", ")
  {
    [ "=== INSTRUCCIONES ESPECÍFICAS ===",
      "- El funnel debe ser implementable en " + TiempoName(form.tiempoImplementacion),
      "- Presupuesto disponible: " + PresupuestoName(form.presupuestoMensual),
      PrioridadLabel + Join(form.kpisAPriorizar, ", "),
      "- CRÍTICO: Incluir quick wins específicos para los primeros 30 días",
      "- Stack tecnológico debe ser compatible con equipo de " + NumeroEmpleadosName(form.numeroEmpleados) + " personas",
      "- Automatizaciones priorizadas según recursos disponibles",
      "" ]
  }

  function ClosingLines(): (r: seq<string>)
    ensures |r| == 4
  {
    [ "Devuelve un JSON válido con esta estructura EXACTA:",
      "",
      SchemaText,
      "" ]
  }

  const EtapasLabel: string := "Etapas actuales: "
  const HerramientasLabel: string := "Herramientas usadas: "
  const ProblemasLabel: string := "Problemas actuales: "
  const KpisLabel: string := "KPIs a Priorizar: "
  const PuntosDolorLabel: string := "Puntos de Dolor: "
  const CanalesLabel: string := "Canales Preferidos: "
  const PrioridadLabel: string := "- Prioriza estos KPIs: "

  /** The user prompt: the template lines joined by line breaks. The
      rendered knowledge stands on its own line right below its header. */
  function UserPrompt(form: FunnelRequestForm, knowledge: string, numText: real -> string): (r: string)
    ensures Contains(r, KnowledgeHeader + "\n" + knowledge + "\n")
  {
    var lines := PromptLines(form, knowledge, numText);
    KnowledgeBlock(form, knowledge, numText);
    ContainsMiddle(Join(lines[..28], "\n") + "\n", KnowledgeHeader + "\n" + knowledge + "\n", Join(lines[30..], "\n"));
    Join(lines, "\n")
  }

  /** The form with another conversion rate. */
  function WithRate(form: FunnelRequestForm, tasa: Option<JsNumber>): FunnelRequestForm
  {
    form.(funnelActual := form.funnelActual.(tasaConversionActual := tasa))
  }

  predicate RateFalsy(tasa: Option<JsNumber>)
  {
    tasa.None? || !NumberTruthy(tasa.value)
  }

  /** An absent rate, 0 and NaN give the same prompt: all leave the
      conditional line empty. */
  lemma FalsyRatesSamePrompt(form: FunnelRequestForm, knowledge: string, numText: real -> string,
                             t1: Option<JsNumber>, t2: Option<JsNumber>)
    requires RateFalsy(t1) && RateFalsy(t2)
    ensures UserPrompt(WithRate(form, t1), knowledge, numText) == UserPrompt(WithRate(form, t2), knowledge, numText)
  {
    assert SituationLines(WithRate(form, t1).funnelActual, numText) == SituationLines(WithRate(form, t2).funnelActual, numText);
  }

  /** The conditional line of the prompt (line 15) is non-empty exactly when
      the request's rate is truthy. */
  lemma RateLineShown(form: FunnelRequestForm, knowledge: string, numText: real -> string)
    ensures PromptLines(form, knowledge, numText)[15] != "" <==> !RateFalsy(form.funnelActual.tasaConversionActual)
  {
    var lines := PromptLines(form, knowledge, numText);
    assert lines[15] == SituationLines(form.funnelActual, numText)[5];
  }

  /** The email address never reaches the model. */
  lemma PromptOmitsEmail(form: FunnelRequestForm, email: string, knowledge: string, numText: real -> string)
    ensures UserPrompt(form.(email := email), knowledge, numText) == UserPrompt(form, knowledge, numText)
  {
    assert ClientLines(form.(email := email)) == ClientLines(form);
  }

  /** The rendered knowledge is inserted verbatim as its own block (line 29),
      right after its header, between the lines before it and the
      instructions after it. */
  lemma KnowledgeVerbatim(form: FunnelRequestForm, knowledge: string, numText: real -> string)
    ensures var lines := PromptLines(form, knowledge, numText);
            && lines[28] == KnowledgeHeader
            && UserPrompt(form, knowledge, numText)
               == Join(lines[..29], "\n") + "\n" + knowledge + "\n" + Join(lines[30..], "\n")
  {
    KnowledgeInLines(form, knowledge, numText);
  }

  /** The joined template seen around the knowledge line. */
  lemma KnowledgeInLines(form: FunnelRequestForm, knowledge: string, numText: real -> string)
    ensures var lines := PromptLines(form, knowledge, numText);
            && lines[28] == KnowledgeHeader
            && Join(lines, "\n") == Join(lines[..29], "\n") + "\n" + knowledge + "\n" + Join(lines[30..], "\n")
  {
    var lines := PromptLines(form, knowledge, numText);
    var before := ClientLines(form) + SituationLines(form.funnelActual, numText) + GoalLines(form)
                  + IdealClientLines(form.clienteIdeal);
    assert |before| == 28;
    assert lines == before + KnowledgeLines(knowledge) + InstructionLines(form) + ClosingLines();
    assert lines[28] == KnowledgeHeader && lines[29] == knowledge;
    JoinAround(lines, 29, "\n");
  }

  /** The joined template holds the header line and the knowledge line as
      one block. */
  lemma KnowledgeBlock(form: FunnelRequestForm, knowledge: string, numText: real -> string)
    ensures var lines := PromptLines(form, knowledge, numText);
            Join(lines, "\n") == Join(lines[..28], "\n") + "\n" + (KnowledgeHeader + "\n" + knowledge + "\n")
                                + Join(lines[30..], "\n")
  {
    var lines := PromptLines(form, knowledge, numText);
    KnowledgeInLines(form, knowledge, numText);
    assert lines[..29] == lines[..28] + [KnowledgeHeader];
    JoinAppend(lines[..28], [KnowledgeHeader], "\n");
    var a, b := Join(lines[..28], "\n"), Join(lines[30..], "\n");
    assert a + "\n" + KnowledgeHeader + "\n" + knowledge + "\n" + b
        == a + "\n" + (KnowledgeHeader + "\n" + knowledge + "\n") + b;
  }

  /** Joining a list, seen around one of its inner items. */
  lemma JoinAround(xs: seq<string>, i: nat, sep: string)
    requires 1 <= i < |xs| - 1
    ensures Join(xs, sep) == Join(xs[..i], sep) + sep + xs[i] + sep + Join(xs[i + 1..], sep)
  {
    assert xs == xs[..i] + ([xs[i]] + xs[i + 1..]);
    JoinAppend(xs[..i], [xs[i]] + xs[i + 1..], sep);
    JoinAppend([xs[i]], xs[i + 1..], sep);
    var p, q := Join(xs[..i], sep), Join(xs[i + 1..], sep);
    assert p + sep + (xs[i] + sep + q) == p + sep + xs[i] + sep + q;
  }

  /** A labelled list line reads back, through the form's own split and
      trim, as the list it shows. */
  predicate ReadsBack(line: string, caption: string, xs: seq<string>)
  {
    caption <= line && ParseList(line[|caption|..]) == xs
  }

  lemma ListLineReadsBack(line: string, caption: string, xs: seq<string>)
    requires line == caption + Join(xs, ", ") && ListShaped(xs)
    ensures ReadsBack(line, caption, xs)
  {
    assert line[|caption|..] == Join(xs, ", ");
    ParseJoinedList(xs);
  }

  /** Round trip between the questionnaire and the prompt: every list of a
      processed request is shown joined with `", "` after its caption, and
      splitting and trimming that text gives the list back. */
  lemma SituationListsReadBack(fa: FunnelActual, numText: real -> string)
    requires ListShaped(fa.etapas) && ListShaped(fa.herramientasUsadas) && ListShaped(fa.problemasActuales)
    ensures var lines := SituationLines(fa, numText);
            && ReadsBack(lines[2], EtapasLabel, fa.etapas)
            && ReadsBack(lines[3], HerramientasLabel, fa.herramientasUsadas)
            && ReadsBack(lines[4], ProblemasLabel, fa.problemasActuales)
  {
    var lines := SituationLines(fa, numText);
    ListLineReadsBack(lines[2], EtapasLabel, fa.etapas);
    ListLineReadsBack(lines[3], HerramientasLabel, fa.herramientasUsadas);
    ListLineReadsBack(lines[4], ProblemasLabel, fa.problemasActuales);
  }

  lemma GoalListsReadBack(form: FunnelRequestForm)
    requires ListShaped(form.kpisAPriorizar)
    ensures ReadsBack(GoalLines(form)[4], KpisLabel, form.kpisAPriorizar)
  {
    ListLineReadsBack(GoalLines(form)[4], KpisLabel, form.kpisAPriorizar);
  }

  lemma InstructionListsReadBack(form: FunnelRequestForm)
    requires ListShaped(form.kpisAPriorizar)
    ensures ReadsBack(InstructionLines(form)[3], PrioridadLabel, form.kpisAPriorizar)
  {
    ListLineReadsBack(InstructionLines(form)[3], PrioridadLabel, form.kpisAPriorizar);
  }

  lemma IdealClientListsReadBack(ci: ClienteIdeal)
    requires ListShaped(ci.puntosDolor) && ListShaped(ci.canalesPreferidos)
    ensures ReadsBack(IdealClientLines(ci)[2], PuntosDolorLabel, ci.puntosDolor)
    ensures ReadsBack(IdealClientLines(ci)[3], CanalesLabel, ci.canalesPreferidos)
  {
    ListLineReadsBack(IdealClientLines(ci)[2], PuntosDolorLabel, ci.puntosDolor);
    ListLineReadsBack(IdealClientLines(ci)[3], CanalesLabel, ci.canalesPreferidos);
  }
}
