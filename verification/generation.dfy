/** The end of `generateFunnel`: the model's reply is checked for content,
    handed to `JSON.parse` and returned with the elapsed time, and the
    shallow `validateStrategy` check over a parsed reply. The language-model
    call, `JSON.parse` and the clock are parameters. */
module Generation {
  import opened Wrappers
  import opened FunnelTypes
  import opened KnowledgeBase
  import opened Relevance
  import opened Prompt

  /** A value `JSON.parse` can return. */
  datatype Json =
    | JNull
    | JBool(b: bool)
    | JNum(n: JsNumber)
    | JStr(s: string)
    | JArr(items: seq<Json>)
    | JObj(fields: map<string, Json>)

  /** JavaScript truthiness of a parsed value: arrays and objects are truthy
      even when empty. */
  predicate Truthy(j: Json)
  {
    match j
    case JNull => false
    case JBool(b) => b
    case JNum(n) => NumberTruthy(n)
    case JStr(s) => s != ""
    case JArr(_) => true
    case JObj(_) => true
  }

  /** The seven sections `validateStrategy` looks at. */
  const Sections: seq<string> :=
    ["diagnostico", "funnel", "stack", "roadmap", "kpis", "presupuesto", "automatizaciones"]

  /** Reading a property: only objects have the sections; on any other
      non-null value the read gives `undefined`, which is falsy. */
  predicate PropertyTruthy(j: Json, key: string)
  {
    j.JObj? && key in j.fields && Truthy(j.fields[key])
  }

  /** What reading a property of `null` raises. */
  const NullRead: string := "Cannot read properties of null (reading 'diagnostico')"

  /** `validateStrategy`: the truthiness of the `&&` chain over the seven
      sections; on `null` the first read throws. */
  function ValidateStrategy(j: Json): (r: Result<bool>)
    ensures r.Err? <==> j.JNull?
    ensures r.Err? ==> r.message == NullRead
    ensures r == Ok(true) <==> j.JObj? && forall k :: k in Sections ==> k in j.fields && Truthy(j.fields[k])
  {
    if j.JNull? then Err(NullRead)
    else Ok(
      && PropertyTruthy(j, "diagnostico")
      && PropertyTruthy(j, "funnel")
      && PropertyTruthy(j, "stack")
      && PropertyTruthy(j, "roadmap")
      && PropertyTruthy(j, "kpis")
      && PropertyTruthy(j, "presupuesto")
      && PropertyTruthy(j, "automatizaciones"))
  }

  /** The nested shape is not looked at: seven empty arrays pass. */
  lemma EmptySectionsPass()
    ensures ValidateStrategy(JObj(map k | k in Sections :: JArr([]))) == Ok(true)
  {
  }

  /** A section that is missing, or holds `0`, `""`, `false` or `null`,
      fails the check, whatever the other sections hold. */
  lemma FalsySectionFails(fields: map<string, Json>, key: string)
    requires key in Sections
    requires key !in fields || !Truthy(fields[key])
    ensures ValidateStrategy(JObj(fields)) == Ok(false)
  {
  }

  // ---------------------------------------------------------------------
  // The reply

  const NoResponse: string := "No se recibió respuesta del modelo de IA"

  /** What reading `message` of a missing first choice raises. */
  const NoChoice: string := "Cannot read properties of undefined (reading 'message')"

  datatype Generated = Generated(strategy: Json, generationTime: int)

  /** The branch after the model call. `completion` is the call's outcome:
      the error it raised, or the content of each choice. Every error is
      passed on unchanged; the parsed value is returned without validation. */
  function HandleCompletion(completion: Result<seq<Option<string>>>, parse: string -> Result<Json>,
                            startTime: int, endTime: int): (r: Result<Generated>)
    ensures completion.Err? ==> r == Err(completion.message)
    ensures completion.Ok? && |completion.value| == 0 ==> r == Err(NoChoice)
    ensures r.Ok? ==> r.value.generationTime == endTime - startTime
  {
    match completion
    case Err(e) => Err(e)
    case Ok(choices) =>
      if |choices| == 0 then Err(NoChoice)
      else
        var content := choices[0];
        if content.None? || content.value == "" then Err(NoResponse)
        else
          match parse(content.value)
          case Err(e) => Err(e)
          case Ok(strategy) => Ok(Generated(strategy, endTime - startTime))
  }

  /** No content, or empty content, raises the fixed error before
      `JSON.parse` is reached: the parser plays no part in the outcome. */
  lemma EmptyContentRejected(choices: seq<Option<string>>, parse1: string -> Result<Json>,
                             parse2: string -> Result<Json>, startTime: int, endTime: int)
    requires |choices| >= 1 && (choices[0].None? || choices[0].value == "")
    ensures HandleCompletion(Ok(choices), parse1, startTime, endTime) == Err(NoResponse)
    ensures HandleCompletion(Ok(choices), parse1, startTime, endTime)
         == HandleCompletion(Ok(choices), parse2, startTime, endTime)
  {
  }

  /** Non-empty content is exactly what `JSON.parse` makes of it: its error
      unchanged, or its value, whether or not that value would pass
      `validateStrategy`. */
  lemma ContentParsed(choices: seq<Option<string>>, parse: string -> Result<Json>, startTime: int, endTime: int)
    requires |choices| >= 1 && choices[0].Some? && choices[0].value != ""
    ensures var r := HandleCompletion(Ok(choices), parse, startTime, endTime);
            && (parse(choices[0].value).Err? ==> r == Err(parse(choices[0].value).message))
            && (parse(choices[0].value).Ok? ==> r == Ok(Generated(parse(choices[0].value).value, endTime - startTime)))
  {
  }

  /** A reply that parses to `null` is returned as the strategy although
      `validateStrategy` would throw on it. */
  lemma UnvalidatedNullAccepted(choices: seq<Option<string>>, parse: string -> Result<Json>, startTime: int, endTime: int)
    requires |choices| >= 1 && choices[0].Some? && choices[0].value != ""
    requires parse(choices[0].value) == Ok(JNull)
    ensures HandleCompletion(Ok(choices), parse, startTime, endTime) == Ok(Generated(JNull, endTime - startTime))
    ensures ValidateStrategy(JNull).Err?
  {
  }

  /** A reply of `{}` is returned as the strategy, although it has none of
      the seven sections and `validateStrategy` rejects it. */
  lemma EmptyObjectReturned(choices: seq<Option<string>>, parse: string -> Result<Json>, startTime: int, endTime: int)
    requires |choices| >= 1 && choices[0] == Some("{}")
    requires parse("{}") == Ok(JObj(map[]))
    ensures HandleCompletion(Ok(choices), parse, startTime, endTime) == Ok(Generated(JObj(map[]), endTime - startTime))
    ensures ValidateStrategy(JObj(map[])) == Ok(false)
  {
  }

  // ---------------------------------------------------------------------
  // The whole generation

  /** What `generateFunnel` yields for a request, given the model's answer
      to the two prompts, the parser and the two clock readings. */
  function Outcome(corpus: seq<KnowledgeChunk>, form: FunnelRequestForm, numText: real -> string,
                   complete: (string, string) -> Result<seq<Option<string>>>,
                   parse: string -> Result<Json>, startTime: int, endTime: int): Result<Generated>
  {
    var knowledge := RenderKnowledge(Selection(corpus, SelectedIds(corpus, form)));
    HandleCompletion(complete(SystemPrompt, UserPrompt(form, knowledge, numText)), parse, startTime, endTime)
  }

  /** `generateFunnel`: select and render the knowledge, build the user
      prompt, ask the model, handle its reply. */
  method GenerateFunnel(corpus: seq<KnowledgeChunk>, form: FunnelRequestForm, numText: real -> string,
                        complete: (string, string) -> Result<seq<Option<string>>>,
                        parse: string -> Result<Json>, startTime: int, endTime: int)
    returns (r: Result<Generated>)
    ensures r == Outcome(corpus, form, numText, complete, parse, startTime, endTime)
    ensures r.Ok? ==> r.value.generationTime == endTime - startTime
  {
    var knowledge := GetRelevantKnowledge(corpus, form);
    var userPrompt := UserPrompt(form, knowledge, numText);
    var completion := complete(SystemPrompt, userPrompt);
    r := HandleCompletion(completion, parse, startTime, endTime);
  }

  /** The email address plays no part in the generation: neither the
      selected knowledge nor the prompt depends on it. */
  lemma OutcomeIgnoresEmail(corpus: seq<KnowledgeChunk>, form: FunnelRequestForm, email: string,
                            numText: real -> string, complete: (string, string) -> Result<seq<Option<string>>>,
                            parse: string -> Result<Json>, startTime: int, endTime: int)
    ensures Outcome(corpus, form.(email := email), numText, complete, parse, startTime, endTime)
         == Outcome(corpus, form, numText, complete, parse, startTime, endTime)
  {
    var other := form.(email := email);
    assert Queries(other) == Queries(form);
    assert SelectedIds(corpus, other) == SelectedIds(corpus, form);
    PromptOmitsEmail(form, email, RenderKnowledge(Selection(corpus, SelectedIds(corpus, form))), numText);
  }
}
