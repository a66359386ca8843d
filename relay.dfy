/**
 * The relay's one route, `POST /api/diagnose`: check the request's `text`,
 * send one chat-completion request to the language-model service, parse the
 * first choice's content as JSON and answer with it, or answer with a fixed
 * error shape.  The handler keeps no state, so it is a function of the
 * request's `text`, of what the downstream call did, and of the JSON parser.
 */
module Relay {
  import opened Wrappers
  import opened Json

  const ModelName := "llama-3.3-70b-versatile"
  const Temperature: real := 0.1
  const ResponseFormat := "json_object"

  const MissingText := "Texto é obrigatório"
  const AiFailure := "Erro na IA"
  const EmptyReply := "Resposta vazia"

  /** The fixed system instruction, exactly as the template literal spells it. */
  const SystemPrompt: string :=
    "Você é um assistente médico inteligente (Co-Pilot).\n" +
    "                    \n" +
    "                    TAREFA 1: Analise o texto bruto da transcrição e separe o diálogo entre \"Médico\" e \"Paciente\" baseando-se no contexto (quem faz perguntas técnicas vs quem relata sintomas).\n" +
    "                    TAREFA 2: Gere os dados clínicos estruturados.\n" +
    "\n" +
    "                    SAÍDA OBRIGATÓRIA (JSON puro):\n" +
    "                    {\n" +
    "                        \"dialogo_estruturado\": [\n" +
    "                            {\"falante\": \"Médico\", \"texto\": \"Onde dói?\"},\n" +
    "                            {\"falante\": \"Paciente\", \"texto\": \"Na barriga.\"}\n" +
    "                        ],\n" +
    "                        \"diagnostico_provavel\": \"Hipótese principal\",\n" +
    "                        \"doencas_associadas\": [\"CIDs prováveis\"],\n" +
    "                        \"exames_sugeridos\": [\"Lista de exames\"],\n" +
    "                        \"medicamentos_comuns\": [\"Lista de princípios ativos\"]\n" +
    "                    }\n" +
    "\n" +
    "                    Se o texto não tiver diálogo claro, deduza o melhor possível. Responda em PT-BR."

  datatype Role = System | User

  datatype ChatMessage = ChatMessage(role: Role, content: Json)

  datatype CompletionRequest = CompletionRequest(
    model: string,
    temperature: real,
    messages: seq<ChatMessage>,
    responseFormat: string)

  /** What the one downstream call did. */
  datatype Downstream =
      /** the awaited call rejected; `message` is the error's `message` property (absent as None) */
    | Threw(message: Option<string>)
      /** the call returned; `content` is `choices[0].message.content` (null as None) */
    | Completed(content: Option<string>)

  datatype Response = Response(status: nat, body: Json)

  /** The downstream requests the handler issued, in order, and what it answered. */
  datatype Exchange = Exchange(sent: seq<CompletionRequest>, response: Response)

  /**
   * How a request ends.  The status alone separates three groups: `Answered`
   * (200), `MissingInput` (400), and the three downstream failures, which all
   * answer 500 and differ only in the `details` text.
   */
  datatype Outcome = Answered | MissingInput | UpstreamFailure | EmptyCompletion | MalformedCompletion

  /** The request the handler builds for a given `text`. */
  function CompletionFor(text: Json): (q: CompletionRequest)
    ensures q.temperature == 0.1 && q.responseFormat == "json_object"
    ensures |q.messages| == 2
    ensures q.messages[0] == ChatMessage(System, JStr(SystemPrompt))
    ensures q.messages[1] == ChatMessage(User, text)
  {
    CompletionRequest(ModelName, Temperature,
      [ChatMessage(System, JStr(SystemPrompt)), ChatMessage(User, text)],
      ResponseFormat)
  }

  /**
   * The 500 body: `{error: "Erro na IA", details: error.message}`.  When the
   * thrown value has no `message`, `JSON.stringify` drops the `details` key.
   */
  function FailureBody(message: Option<string>): (r: Json)
    ensures r.JObj? && Field(r, "error") == JStr(AiFailure)
    ensures "details" in r.fields <==> message.Some?
    ensures message.Some? ==> Field(r, "details") == JStr(message.value)
    ensures r.fields.Keys <= {"error", "details"}
  {
    match message
    case Some(m) => JObj(map["error" := JStr(AiFailure), "details" := JStr(m)])
    case None => JObj(map["error" := JStr(AiFailure)])
  }

  /** Which error class a request falls in. */
  function Classify(text: Json, downstream: Downstream, parse: string -> Result<Json, string>): (o: Outcome)
    ensures o == MissingInput <==> !Truthy(text)
    ensures o == UpstreamFailure <==> Truthy(text) && downstream.Threw?
    ensures o == Answered <==>
      && Truthy(text) && downstream.Completed? && downstream.content.Some? && downstream.content.value != ""
      && parse(downstream.content.value).Success?
  {
    if !Truthy(text) then MissingInput
    else match downstream
      case Threw(_) => UpstreamFailure
      case Completed(content) =>
        if content.None? || content.value == "" then EmptyCompletion
        else if parse(content.value).Failure? then MalformedCompletion
        else Answered
  }

  /**
   * The handler.  A falsy `text` is refused before any downstream call; a
   * non-empty content is parsed and sent back unchanged with status 200;
   * an empty content raises "Resposta vazia" inside the `try`, so it reaches
   * the same `catch` as a failed call or a failed parse.
   */
  function Diagnose(text: Json, downstream: Downstream, parse: string -> Result<Json, string>): (x: Exchange)
    ensures !Truthy(text) <==> x.sent == []
    ensures Truthy(text) ==> x.sent == [CompletionFor(text)]
    ensures x.response.status == 400 <==> Classify(text, downstream, parse) == MissingInput
    ensures x.response.status == 200 <==> Classify(text, downstream, parse) == Answered
    ensures x.response.status == 400 ==> x.response.body == JObj(map["error" := JStr(MissingText)])
    ensures x.response.status == 200 ==>
      downstream.Completed? && x.response.body == parse(downstream.content.value).value
    ensures x.response.status !in {200, 400} ==>
      x.response.status == 500 && Field(x.response.body, "error") == JStr(AiFailure)
  {
    if !Truthy(text) then
      Exchange([], Response(400, JObj(map["error" := JStr(MissingText)])))
    else
      var sent := [CompletionFor(text)];
      match downstream
      case Threw(message) => Exchange(sent, Response(500, FailureBody(message)))
      case Completed(content) =>
        if content.Some? && content.value != "" then
          match parse(content.value)
          case Success(v) => Exchange(sent, Response(200, v))
          case Failure(m) => Exchange(sent, Response(500, FailureBody(Some(m))))
        else
          Exchange(sent, Response(500, FailureBody(Some(EmptyReply))))
  }

  /** Every answer is one of the three documented statuses. */
  lemma StatusIsDocumented(text: Json, downstream: Downstream, parse: string -> Result<Json, string>)
    ensures Diagnose(text, downstream, parse).response.status in {200, 400, 500}
  {
  }

  /**
   * The three downstream failure classes collapse into one answer shape: an
   * empty or null content answers exactly as a call that threw "Resposta vazia".
   */
  lemma EmptyCompletionLooksLikeThrow(text: Json, content: Option<string>, parse: string -> Result<Json, string>)
    requires content.None? || content.value == ""
    ensures Diagnose(text, Completed(content), parse) == Diagnose(text, Threw(Some(EmptyReply)), parse)
  {
  }

  /** A parse failure answers exactly as a call that threw the parser's message. */
  lemma MalformedCompletionLooksLikeThrow(text: Json, content: string, parse: string -> Result<Json, string>)
    requires content != "" && parse(content).Failure?
    ensures Diagnose(text, Completed(Some(content)), parse) == Diagnose(text, Threw(Some(parse(content).error)), parse)
  {
  }

  /** Each failure's `details` is the error's message. */
  lemma FailureDetails(text: Json, downstream: Downstream, parse: string -> Result<Json, string>)
    requires Classify(text, downstream, parse) in {UpstreamFailure, EmptyCompletion, MalformedCompletion}
    ensures var body := Diagnose(text, downstream, parse).response.body;
      && Field(body, "error") == JStr(AiFailure)
      && (Classify(text, downstream, parse) == EmptyCompletion ==> Field(body, "details") == JStr(EmptyReply))
      && (Classify(text, downstream, parse) == MalformedCompletion ==>
            Field(body, "details") == JStr(parse(downstream.content.value).error))
      && (downstream.Threw? && downstream.message.Some? ==> Field(body, "details") == JStr(downstream.message.value))
      && (downstream.Threw? && downstream.message.None? ==> "details" !in body.fields)
  {
  }

  /** With a falsy `text` nothing downstream matters: the answer is the same 400 whatever the model would have done. */
  lemma MissingTextIgnoresDownstream(text: Json, d1: Downstream, d2: Downstream,
                                     p1: string -> Result<Json, string>, p2: string -> Result<Json, string>)
    requires !Truthy(text)
    ensures Diagnose(text, d1, p1) == Diagnose(text, d2, p2)
  {
  }
}
