/** The records the funnel generator passes around: the knowledge chunk,
    the validated questionnaire and the strategy the model returns. The
    JavaScript `number` is `int` here, except the conversion rate, which
    keeps NaN because NaN decides whether the prompt shows it. */
module FunnelTypes {
  import opened Wrappers

  // ---------------------------------------------------------------------
  // Knowledge base

  datatype Categoria =
    | LeadMagnet | Automatizacion | Webinar | Optimizacion | B2b | Copywriting | StackTech

  /** The literal that stands for each category in the source. */
  function CategoriaName(c: Categoria): string
  {
    match c
    case LeadMagnet => "lead-magnet"
    case Automatizacion => "automatizacion"
    case Webinar => "webinar"
    case Optimizacion => "optimizacion"
    case B2b => "b2b"
    case Copywriting => "copywriting"
    case StackTech => "stack-tech"
  }

  datatype KnowledgeChunk = KnowledgeChunk(
    id: string,
    categoria: Categoria,
    subcategoria: string,
    contenido: string,
    fuente: string,
    tags: seq<string>,
    ejemplos: seq<string>,
    insights_clave: seq<string>)

  // ---------------------------------------------------------------------
  // Questionnaire

  datatype NumeroEmpleados = Hasta10 | De11a50 | De51a200 | De201a500 | Mas500
  datatype ModeloNegocio = B2B | B2C | B2B2C | Marketplace
  datatype Objetivo = Captacion | Conversion | Retencion | Escalado
  datatype PresupuestoMensual = Hasta1000 | De1000a5000 | De5000a15000 | Mas15000
  datatype TiempoImplementacion = UnMes | DosATresMeses | TresASeisMeses | SeisADoceMeses

  function NumeroEmpleadosName(n: NumeroEmpleados): string
  {
    match n
    case Hasta10 => "1-10"
    case De11a50 => "11-50"
    case De51a200 => "51-200"
    case De201a500 => "201-500"
    case Mas500 => "500+"
  }

  function ModeloNegocioName(m: ModeloNegocio): string
  {
    match m
    case B2B => "B2B"
    case B2C => "B2C"
    case B2B2C => "B2B2C"
    case Marketplace => "Marketplace"
  }

  function ObjetivoName(o: Objetivo): string
  {
    match o
    case Captacion => "captacion"
    case Conversion => "conversion"
    case Retencion => "retencion"
    case Escalado => "escalado"
  }

  function PresupuestoName(p: PresupuestoMensual): string
  {
    match p
    case Hasta1000 => "0-1000"
    case De1000a5000 => "1000-5000"
    case De5000a15000 => "5000-15000"
    case Mas15000 => "15000+"
  }

  function TiempoName(t: TiempoImplementacion): string
  {
    match t
    case UnMes => "1-mes"
    case DosATresMeses => "2-3-meses"
    case TresASeisMeses => "3-6-meses"
    case SeisADoceMeses => "6-12-meses"
  }

  /** A JavaScript number as far as the core looks at it: a finite value or
      the NaN that `parseFloat` returns for text that is not a number. */
  datatype JsNumber = Finite(value: real) | NaN

  /** JavaScript truthiness of a number: neither 0 nor NaN. */
  predicate NumberTruthy(n: JsNumber)
  {
    n.Finite? && n.value != 0.0
  }

  datatype FunnelActual = FunnelActual(
    descripcion: string,
    etapas: seq<string>,
    herramientasUsadas: seq<string>,
    problemasActuales: seq<string>,
    tasaConversionActual: Option<JsNumber>)

  datatype ClienteIdeal = ClienteIdeal(
    perfil: string,
    puntosDolor: seq<string>,
    canalesPreferidos: seq<string>)

  datatype FunnelRequestForm = FunnelRequestForm(
    nombre: string,
    email: string,
    empresa: string,
    numeroEmpleados: NumeroEmpleados,
    industria: string,
    modeloNegocio: ModeloNegocio,
    funnelActual: FunnelActual,
    objetivoPrincipal: Objetivo,
    presupuestoMensual: PresupuestoMensual,
    tiempoImplementacion: TiempoImplementacion,
    kpisAPriorizar: seq<string>,
    clienteIdeal: ClienteIdeal)

  // ---------------------------------------------------------------------
  // Generated strategy

  datatype Diagnostico = Diagnostico(
    fortalezas: seq<string>,
    debilidades: seq<string>,
    oportunidades: seq<string>,
    amenazas: seq<string>,
    scoreActual: int)

  datatype FunnelTipo = LeadMagnetFunnel | WebinarFunnel | Vsl | Tripwire | Application | Hybrid

  datatype ContentTipo = Email | LandingPage | WebinarPiece | Video | Ebook | BlogPost | SocialMedia | Ad

  datatype ContentPiece = ContentPiece(
    tipo: ContentTipo,
    titulo: string,
    descripcion: string,
    cta: Option<string>)

  datatype FunnelStage = FunnelStage(
    orden: int,
    nombre: string,
    objetivo: string,
    tacticas: seq<string>,
    contenido: seq<ContentPiece>,
    automatizaciones: seq<string>,
    metricasClave: seq<string>,
    tasaConversionEsperada: int)

  datatype ValueLadderItem = ValueLadderItem(
    nivel: int,
    nombre: string,
    precio: int,
    descripcion: string,
    deliverables: seq<string>,
    tiempoEntrega: string)

  datatype FunnelDefinicion = FunnelDefinicion(
    nombre: string,
    tipo: FunnelTipo,
    etapas: seq<FunnelStage>,
    escaleraValor: seq<ValueLadderItem>)

  datatype TechStackItem = TechStackItem(
    categoria: string,
    herramienta: string,
    proposito: string,
    costo: string,
    alternativas: seq<string>)

  datatype Prioridad = Alta | Media | Baja

  datatype Task = Task(
    titulo: string,
    descripcion: string,
    responsable: Option<string>,
    prioridad: Prioridad,
    estimacionHoras: Option<int>)

  datatype RoadmapPhase = RoadmapPhase(
    fase: string,
    duracion: string,
    tareas: seq<Task>,
    quickWins: seq<string>)

  datatype Kpi = Kpi(
    metrica: string,
    valorActual: Option<int>,
    objetivo: int,
    frecuenciaMedicion: string,
    formula: Option<string>)

  /** `categoria` is declared as one of five literals, but the value comes
      unchecked from the model's JSON, so any text can arrive. */
  datatype BudgetItem = BudgetItem(
    concepto: string,
    categoria: string,
    costoMensual: int,
    costoAnual: Option<int>,
    esencial: bool)

  datatype Presupuesto = Presupuesto(
    total: int,
    desglose: seq<BudgetItem>,
    roi_esperado: string)

  datatype Automatizacion = Automatizacion(
    tipo: string,
    trigger: string,
    accion: string,
    herramienta: string,
    prioridad: Prioridad,
    descripcion: Option<string>)

  datatype RecursoTipo = Guia | PlantillaRecurso | Checklist | Script | Framework

  datatype RecursoAdicional = RecursoAdicional(
    tipo: RecursoTipo,
    nombre: string,
    descripcion: string,
    url: Option<string>)

  datatype PlantillaTipo = EmailPlantilla | Landing | ScriptPlantilla | Documento

  datatype Plantilla = Plantilla(
    nombre: string,
    tipo: PlantillaTipo,
    contenido: string,
    variables: Option<seq<string>>)

  datatype FunnelStrategy = FunnelStrategy(
    diagnostico: Diagnostico,
    funnel: FunnelDefinicion,
    stack: seq<TechStackItem>,
    roadmap: seq<RoadmapPhase>,
    kpis: seq<Kpi>,
    presupuesto: Presupuesto,
    automatizaciones: seq<Automatizacion>,
    recursos_adicionales: Option<seq<RecursoAdicional>>,
    plantillas: Option<seq<Plantilla>>)
}
