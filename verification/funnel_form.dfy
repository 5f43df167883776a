/** The questionnaire front end: the validation schema as a predicate over
    the raw text the browser form holds, and `processFormData`, which turns
    accepted raw text into the typed request (comma-separated lists split
    and trimmed, the conversion rate parsed). */
module FunnelForm {
  import opened Wrappers
  import opened FunnelTypes
  import opened Text

  // ---------------------------------------------------------------------
  // Raw form data: every input is text

  datatype RawFunnelActual = RawFunnelActual(
    descripcion: string,
    etapas: string,
    herramientasUsadas: string,
    problemasActuales: string,
    tasaConversionActual: Option<string>)

  datatype RawClienteIdeal = RawClienteIdeal(
    perfil: string,
    puntosDolor: string,
    canalesPreferidos: string)

  datatype RawForm = RawForm(
    nombre: string,
    email: string,
    empresa: string,
    numeroEmpleados: string,
    industria: string,
    modeloNegocio: string,
    funnelActual: RawFunnelActual,
    objetivoPrincipal: string,
    presupuestoMensual: string,
    tiempoImplementacion: string,
    kpisAPriorizar: string,
    clienteIdeal: RawClienteIdeal)

  // ---------------------------------------------------------------------
  // The enumerated fields: only the listed literals are accepted

  function ParseNumeroEmpleados(s: string): (r: Option<NumeroEmpleados>)
    ensures r.Some? <==> s in ["1-10", "11-50", "51-200", "201-500", "500+"]
    ensures r.Some? ==> NumeroEmpleadosName(r.value) == s
  {
    if s == "1-10" then Some(Hasta10)
    else if s == "11-50" then Some(De11a50)
    else if s == "51-200" then Some(De51a200)
    else if s == "201-500" then Some(De201a500)
    else if s == "500+" then Some(Mas500)
    else None
  }

  function ParseModeloNegocio(s: string): (r: Option<ModeloNegocio>)
    ensures r.Some? <==> s in ["B2B", "B2C", "B2B2C", "Marketplace"]
    ensures r.Some? ==> ModeloNegocioName(r.value) == s
  {
    if s == "B2B" then Some(B2B)
    else if s == "B2C" then Some(B2C)
    else if s == "B2B2C" then Some(B2B2C)
    else if s == "Marketplace" then Some(Marketplace)
    else None
  }

  function ParseObjetivo(s: string): (r: Option<Objetivo>)
    ensures r.Some? <==> s in ["captacion", "conversion", "retencion", "escalado"]
    ensures r.Some? ==> ObjetivoName(r.value) == s
  {
    if s == "captacion" then Some(Captacion)
    else if s == "conversion" then Some(Conversion)
    else if s == "retencion" then Some(Retencion)
    else if s == "escalado" then Some(Escalado)
    else None
  }

  function ParsePresupuesto(s: string): (r: Option<PresupuestoMensual>)
    ensures r.Some? <==> s in ["0-1000", "1000-5000", "5000-15000", "15000+"]
    ensures r.Some? ==> PresupuestoName(r.value) == s
  {
    if s == "0-1000" then Some(Hasta1000)
    else if s == "1000-5000" then Some(De1000a5000)
    else if s == "5000-15000" then Some(De5000a15000)
    else if s == "15000+" then Some(Mas15000)
    else None
  }

  function ParseTiempo(s: string): (r: Option<TiempoImplementacion>)
    ensures r.Some? <==> s in ["1-mes", "2-3-meses", "3-6-meses", "6-12-meses"]
    ensures r.Some? ==> TiempoName(r.value) == s
  {
    if s == "1-mes" then Some(UnMes)
    else if s == "2-3-meses" then Some(DosATresMeses)
    else if s == "3-6-meses" then Some(TresASeisMeses)
    else if s == "6-12-meses" then Some(SeisADoceMeses)
    else None
  }

  /** Every enumerated value is written as a literal its parser reads back. */
  lemma EnumNamesParse(n: NumeroEmpleados, m: ModeloNegocio, o: Objetivo, p: PresupuestoMensual, t: TiempoImplementacion)
    ensures ParseNumeroEmpleados(NumeroEmpleadosName(n)) == Some(n)
    ensures ParseModeloNegocio(ModeloNegocioName(m)) == Some(m)
    ensures ParseObjetivo(ObjetivoName(o)) == Some(o)
    ensures ParsePresupuesto(PresupuestoName(p)) == Some(p)
    ensures ParseTiempo(TiempoName(t)) == Some(t)
  {
  }

  predicate EnumsValid(raw: RawForm)
  {
    && ParseNumeroEmpleados(raw.numeroEmpleados).Some?
    && ParseModeloNegocio(raw.modeloNegocio).Some?
    && ParseObjetivo(raw.objetivoPrincipal).Some?
    && ParsePresupuesto(raw.presupuestoMensual).Some?
    && ParseTiempo(raw.tiempoImplementacion).Some?
  }

  /** `funnelRequestSchema`: minimum lengths on the raw text, a valid email
      (the format check is the parameter `isEmail`), the enumerations, and an
      optional conversion rate that may hold any text. */
  predicate SchemaAccepts(raw: RawForm, isEmail: string -> bool)
    ensures SchemaAccepts(raw, isEmail) ==> EnumsValid(raw)
  {
    && |raw.nombre| >= 2
    && isEmail(raw.email)
    && |raw.empresa| >= 2
    && |raw.industria| >= 2
    && |raw.funnelActual.descripcion| >= 10
    && |raw.funnelActual.etapas| >= 3
    && |raw.funnelActual.herramientasUsadas| >= 2
    && |raw.funnelActual.problemasActuales| >= 10
    && |raw.kpisAPriorizar| >= 3
    && |raw.clienteIdeal.perfil| >= 10
    && |raw.clienteIdeal.puntosDolor| >= 10
    && |raw.clienteIdeal.canalesPreferidos| >= 3
    && EnumsValid(raw)
  }

  /** The schema lets through only the listed literals in the five
      enumerated fields. */
  lemma SchemaEnumLiterals(raw: RawForm, isEmail: string -> bool)
    requires SchemaAccepts(raw, isEmail)
    ensures raw.numeroEmpleados in ["1-10", "11-50", "51-200", "201-500", "500+"]
    ensures raw.modeloNegocio in ["B2B", "B2C", "B2B2C", "Marketplace"]
    ensures raw.objetivoPrincipal in ["captacion", "conversion", "retencion", "escalado"]
    ensures raw.presupuestoMensual in ["0-1000", "1000-5000", "5000-15000", "15000+"]
    ensures raw.tiempoImplementacion in ["1-mes", "2-3-meses", "3-6-meses", "6-12-meses"]
  {
  }

  // ---------------------------------------------------------------------
  // processFormData

  /** `s.split(',').map(s => s.trim())` */
  function ParseList(s: string): (r: seq<string>)
    ensures |r| == |Split(s, ',')|
    ensures forall i :: 0 <= i < |r| ==> r[i] == Trim(Split(s, ',')[i])
  {
    var pieces := Split(s, ',');
    seq(|pieces|, i requires 0 <= i < |pieces| => Trim(pieces[i]))
  }

  /** A list field has one item more than the text has commas; no item holds
      a comma or surrounding whitespace. */
  lemma ParseListShape(s: string)
    ensures |ParseList(s)| == Count(s, ',') + 1
    ensures forall i :: 0 <= i < |ParseList(s)| ==> ',' !in ParseList(s)[i] && IsTrimmed(ParseList(s)[i])
  {
    SplitShape(s, ',');
    var pieces := Split(s, ',');
    forall i | 0 <= i < |pieces|
      ensures ',' !in Trim(pieces[i])
    {
      TrimKeepsOut(pieces[i], ',');
    }
  }

  /** Trimming never brings in a character the text did not have. */
  lemma TrimKeepsOut(piece: string, c: char)
    requires c !in piece
    ensures c !in Trim(piece)
  {
    var a, b :| 0 <= a <= b <= |piece| && Trim(piece) == piece[a..b];
    forall k | 0 <= k < |piece[a..b]|
      ensures piece[a..b][k] != c
    {
      assert piece[a..b][k] == piece[a + k];
    }
  }

  /** Text without commas is one item, trimmed. */
  lemma ParseListWithoutComma(s: string)
    requires ',' !in s
    ensures ParseList(s) == [Trim(s)]
  {
    assert Split(s + "", ',') == [s + Split("", ',')[0]] + Split("", ',')[1..] by {
      SplitPrefix(s, "", ',');
    }
    assert s + "" == s;
  }

  lemma {:induction false} JoinSpaced(xs: seq<string>)
    requires |xs| >= 1
    ensures Join(Prefixed(" ", xs), ",") == " " + Join(xs, ", ")
    decreases |xs|
  {
    if |xs| >= 2 {
      assert Prefixed(" ", xs)[1..] == Prefixed(" ", xs[1..]);
      JoinSpaced(xs[1..]);
    }
  }

  /** `xs.join(', ')` is the comma join of the items after the first, each with
      a blank in front. */
  lemma CommaBlank(a: string, rest: string)
    ensures a + "," + (" " + rest) == a + ", " + rest
  {
  }

  lemma JoinCommaSpace(xs: seq<string>)
    requires |xs| >= 1
    ensures Join(xs, ", ") == Join([xs[0]] + Prefixed(" ", xs[1..]), ",")
  {
    var ys := [xs[0]] + Prefixed(" ", xs[1..]);
    if |xs| == 1 {
      assert ys == xs;
    } else {
      var rest := Join(xs[1..], ", ");
      var tail := Prefixed(" ", xs[1..]);
      assert ys[1..] == tail;
      var joined := Join(ys, ",");
      assert joined == ys[0] + "," + Join(tail, ",");
      JoinSpaced(xs[1..]);
      assert joined == xs[0] + "," + (" " + rest);
      CommaBlank(xs[0], rest);
    }
  }

  /** Round trip with the prompt: a non-empty list of comma-free, trimmed items
      joined with `", "` splits and trims back to itself. */
  lemma ParseJoinedList(xs: seq<string>)
    requires |xs| >= 1
    requires forall i :: 0 <= i < |xs| ==> ',' !in xs[i] && IsTrimmed(xs[i])
    ensures ParseList(Join(xs, ", ")) == xs
  {
    var ys := [xs[0]] + Prefixed(" ", xs[1..]);
    JoinCommaSpace(xs);
    forall k | 0 <= k < |ys|
      ensures ',' !in ys[k] && Trim(ys[k]) == xs[k]
    {
      if k > 0 {
        TrimBlankItem(xs[k]);
      }
    }
    SplitJoin(ys, ',');
    TrimmedPieces(Join(xs, ", "), ys, xs);
  }

  lemma TrimmedPieces(s: string, pieces: seq<string>, xs: seq<string>)
    requires Split(s, ',') == pieces && |pieces| == |xs|
    requires forall k :: 0 <= k < |pieces| ==> Trim(pieces[k]) == xs[k]
    ensures ParseList(s) == xs
  {
  }

  /** An item shown after `", "` trims back to itself. */
  lemma TrimBlankItem(x: string)
    requires ',' !in x && IsTrimmed(x)
    ensures ',' !in " " + x && Trim(" " + x) == x
  {
    assert " " + x == [' '] + x;
    TrimAfterWhitespace(' ', x);
  }

  /** A list the form produced survives being shown in the prompt and read
      again. */
  lemma ParseListStable(s: string)
    ensures ParseList(Join(ParseList(s), ", ")) == ParseList(s)
  {
    ParseListShape(s);
    ParseJoinedList(ParseList(s));
  }

  /** Three commas split into four empty items. */
  lemma CommasOnlyPieces()
    ensures ParseList(",,,") == ["", "", "", ""]
  {
    assert ",,," == [','] + ",,";
    assert ",," == [','] + ",";
    assert "," == [','] + "";
    assert Split("", ',') == [""];
    assert Split(",", ',') == [""] + Split("", ',');
    assert Split(",,", ',') == [""] + Split(",", ',');
    assert Split(",,,", ',') == [""] + Split(",,", ',');
    assert Trim("") == "";
  }

  /** Minimum lengths are checked before splitting: a form the schema
      accepts still passes with `",,,"` as its stages, and its stages then
      become four empty items. */
  lemma CommasOnlyList(raw: RawForm, isEmail: string -> bool, parseFloat: string -> JsNumber)
    requires SchemaAccepts(raw, isEmail)
    ensures var commas := raw.(funnelActual := raw.funnelActual.(etapas := ",,,"));
            && SchemaAccepts(commas, isEmail)
            && ProcessFormData(commas, parseFloat).funnelActual.etapas == ["", "", "", ""]
  {
    CommasOnlyPieces();
  }

  /** The conversion rate: empty or absent text gives no value, anything else
      goes to `parseFloat`, a parameter here (it may give NaN). */
  function ParseTasa(t: Option<string>, parseFloat: string -> JsNumber): (r: Option<JsNumber>)
    ensures r.None? <==> (t.None? || t.value == "")
    ensures r.Some? ==> r.value == parseFloat(t.value)
  {
    match t
    case None => None
    case Some(s) => if s == "" then None else Some(parseFloat(s))
  }

  /** `processFormData`: the five list fields are split and trimmed, the rate
      parsed, every other field passed through unchanged. */
  function ProcessFormData(raw: RawForm, parseFloat: string -> JsNumber): (r: FunnelRequestForm)
    requires EnumsValid(raw)
    ensures r.nombre == raw.nombre && r.email == raw.email && r.empresa == raw.empresa
    ensures r.industria == raw.industria
    ensures NumeroEmpleadosName(r.numeroEmpleados) == raw.numeroEmpleados
    ensures ModeloNegocioName(r.modeloNegocio) == raw.modeloNegocio
    ensures ObjetivoName(r.objetivoPrincipal) == raw.objetivoPrincipal
    ensures PresupuestoName(r.presupuestoMensual) == raw.presupuestoMensual
    ensures TiempoName(r.tiempoImplementacion) == raw.tiempoImplementacion
    ensures r.funnelActual.descripcion == raw.funnelActual.descripcion
    ensures r.clienteIdeal.perfil == raw.clienteIdeal.perfil
    ensures r.funnelActual.etapas == ParseList(raw.funnelActual.etapas)
    ensures r.funnelActual.herramientasUsadas == ParseList(raw.funnelActual.herramientasUsadas)
    ensures r.funnelActual.problemasActuales == ParseList(raw.funnelActual.problemasActuales)
    ensures r.funnelActual.tasaConversionActual == ParseTasa(raw.funnelActual.tasaConversionActual, parseFloat)
    ensures r.kpisAPriorizar == ParseList(raw.kpisAPriorizar)
    ensures r.clienteIdeal.puntosDolor == ParseList(raw.clienteIdeal.puntosDolor)
    ensures r.clienteIdeal.canalesPreferidos == ParseList(raw.clienteIdeal.canalesPreferidos)
  {
    FunnelRequestForm(
      raw.nombre,
      raw.email,
      raw.empresa,
      ParseNumeroEmpleados(raw.numeroEmpleados).value,
      raw.industria,
      ParseModeloNegocio(raw.modeloNegocio).value,
      FunnelActual(
        raw.funnelActual.descripcion,
        ParseList(raw.funnelActual.etapas),
        ParseList(raw.funnelActual.herramientasUsadas),
        ParseList(raw.funnelActual.problemasActuales),
        ParseTasa(raw.funnelActual.tasaConversionActual, parseFloat)),
      ParseObjetivo(raw.objetivoPrincipal).value,
      ParsePresupuesto(raw.presupuestoMensual).value,
      ParseTiempo(raw.tiempoImplementacion).value,
      ParseList(raw.kpisAPriorizar),
      ClienteIdeal(
        raw.clienteIdeal.perfil,
        ParseList(raw.clienteIdeal.puntosDolor),
        ParseList(raw.clienteIdeal.canalesPreferidos)))
  }

  /** Submitting: the request exists only when the schema accepts the raw
      data. */
  function Submit(raw: RawForm, isEmail: string -> bool, parseFloat: string -> JsNumber): (r: Option<FunnelRequestForm>)
    ensures r.Some? <==> SchemaAccepts(raw, isEmail)
    ensures r.Some? ==> r.value == ProcessFormData(raw, parseFloat)
  {
    if SchemaAccepts(raw, isEmail) then Some(ProcessFormData(raw, parseFloat)) else None
  }

  /** The shape of every list `processFormData` produces: at least one item,
      no item holding a comma or surrounding whitespace. */
  predicate ListShaped(xs: seq<string>)
  {
    |xs| >= 1 && forall i :: 0 <= i < |xs| ==> ',' !in xs[i] && IsTrimmed(xs[i])
  }

  predicate RequestListsShaped(form: FunnelRequestForm)
  {
    && ListShaped(form.funnelActual.etapas)
    && ListShaped(form.funnelActual.herramientasUsadas)
    && ListShaped(form.funnelActual.problemasActuales)
    && ListShaped(form.kpisAPriorizar)
    && ListShaped(form.clienteIdeal.puntosDolor)
    && ListShaped(form.clienteIdeal.canalesPreferidos)
  }

  /** Every list of a processed request has that shape, though its items
      may be empty. */
  lemma ProcessedListsShaped(raw: RawForm, parseFloat: string -> JsNumber)
    requires EnumsValid(raw)
    ensures RequestListsShaped(ProcessFormData(raw, parseFloat))
  {
    ParseListShape(raw.funnelActual.etapas);
    ParseListShape(raw.funnelActual.herramientasUsadas);
    ParseListShape(raw.funnelActual.problemasActuales);
    ParseListShape(raw.kpisAPriorizar);
    ParseListShape(raw.clienteIdeal.puntosDolor);
    ParseListShape(raw.clienteIdeal.canalesPreferidos);
  }
}
