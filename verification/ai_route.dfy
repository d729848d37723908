/** The single-call chat route: one POST relays a message and the recent
    history to one runtime model and answers with the reply, the model
    name and the runtime's processing time in milliseconds. */
module AiRoute {
  import opened Common

  const DefaultModel: string := "phi3:mini"
  const HistoryKept: nat := 6
  const SystemText: string := "Ти си CrazyIT AI асистент - експерт по програмиране. Можеш да поправяш грешки в код, да обясняваш проблеми и да предлагаш решения. Отговаряй на български език."
  const NoAnswer: string := "Няма отговор"
  const NanosPerMilli: nat := 1000000

  /** The request body after destructuring; an absent `model` or
      `history` is None (the defaults apply only then). */
  datatype Request = Request(message: string, model: Option<string>, history: Option<seq<Message>>)

  /** Why the route answers with status 500. */
  datatype RouteError =
    | BadRequest              // the request body is not JSON
    | BackendStatus(status: int)  // "Ollama error: <status>"
    | BackendUnavailable      // fetch rejected (connection refused, 180 s timeout)
    | BackendBadBody          // the runtime's success body is not JSON

  datatype Answer = Answer(content: string, model: string, processingTime: int)

  /** The model the request names, `phi3:mini` when it names none. */
  function ModelOf(req: Request): (m: string)
    ensures req.model.Some? ==> m == req.model.value
    ensures req.model.None? ==> m == DefaultModel
  {
    req.model.GetOr(DefaultModel)
  }

  /** The messages posted: the fixed system prompt, the last six history
      entries as given, and the user's message. */
  function Prompt(history: seq<Message>, message: string): (ms: seq<Message>)
    ensures 2 <= |ms| <= HistoryKept + 2
    ensures ms[0] == Message("system", SystemText)
    ensures ms[|ms| - 1] == Message("user", message)
    ensures ms[1..|ms| - 1] == LastN(history, HistoryKept)
    ensures |history| <= HistoryKept ==> ms[1..|ms| - 1] == history
  {
    [Message("system", SystemText)] + LastN(history, HistoryKept) + [Message("user", message)]
  }

  /** The history window slides: one more history entry pushes out the
      oldest one once six are kept. */
  lemma PromptSlides(history: seq<Message>, h: Message, message: string)
    ensures var ms := Prompt(history + [h], message);
      ms[1..|ms| - 1] == LastN(LastN(history, HistoryKept) + [h], HistoryKept)
  {
    LastNAppend(history, h, HistoryKept);
  }

  /** `total_duration ? Math.round(total_duration / 1e6) : 0`. */
  function ProcessingTime(totalDuration: Option<nat>): (ms: nat)
    ensures totalDuration.None? || totalDuration.value == 0 ==> ms == 0
    ensures totalDuration.Some? ==>
      2 * NanosPerMilli * ms - NanosPerMilli <= 2 * totalDuration.value < 2 * NanosPerMilli * ms + NanosPerMilli
  {
    if totalDuration.None? || totalDuration.value == 0 then 0
    else RoundDiv(totalDuration.value, NanosPerMilli)
  }

  /** The POST handler. `body` is the parsed request (None when it is not
      JSON) and `chat` the runtime's answer to a model name and messages. */
  function Handle(body: Option<Request>, chat: (string, seq<Message>) -> Reply): (r: Result<Answer, RouteError>)
    ensures body.None? ==> r == Err(BadRequest)
    ensures body.Some? ==>
      var reply := chat(ModelOf(body.value), Prompt(body.value.history.GetOr([]), body.value.message));
      && (r.Ok? <==> reply.Answered? && IsOk(reply.status) && reply.json.Some?)
      && (reply.Answered? && !IsOk(reply.status) ==> r == Err(BackendStatus(reply.status)))
      && (reply.Unreachable? ==> r == Err(BackendUnavailable))
      && (reply.Answered? && IsOk(reply.status) && reply.json.None? ==> r == Err(BackendBadBody))
      && (r.Ok? ==>
            && r.value.model == ModelOf(body.value)
            && r.value.content == OrElse(reply.json.value.content, NoAnswer)
            && r.value.processingTime == ProcessingTime(reply.json.value.totalDuration))
    ensures r.Ok? ==> r.value.content != "" && r.value.processingTime >= 0
  {
    match body
    case None => Err(BadRequest)
    case Some(req) =>
      var model := ModelOf(req);
      match chat(model, Prompt(req.history.GetOr([]), req.message))
      case Unreachable => Err(BackendUnavailable)
      case Answered(status, json) =>
        if !IsOk(status) then Err(BackendStatus(status))
        else if json.None? then Err(BackendBadBody)
        else Ok(Answer(OrElse(json.value.content, NoAnswer), model, ProcessingTime(json.value.totalDuration)))
  }
}
