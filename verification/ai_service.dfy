/** The socket chat service: a fixed list of three runtime models whose
    online/offline status follows the runtime's installed list, a
    conversation history per session, and running statistics with a
    trailing window of the last 50 response times. */
module AiService {
  import opened Common

  // ---------------------------------------------------------------------
  // The model registry
  // ---------------------------------------------------------------------

  datatype ModelType = Reasoning | Web | Helper

  function TypeName(t: ModelType): string {
    match t
    case Reasoning => "reasoning"
    case Web => "web"
    case Helper => "helper"
  }

  datatype Status = Online | Offline | Busy

  datatype AiModel = AiModel(name: string, ollamaName: string, kind: ModelType, role: string, status: Status, description: string)

  /** `AI_MODELS` as the service starts: every model offline. */
  function InitialModels(): (ms: seq<AiModel>)
    ensures |ms| == 3
    ensures forall i :: 0 <= i < |ms| ==> ms[i].status == Offline
  {
    [ AiModel("DeepSeek-Coder 6.7B", "deepseek-coder:6.7b-instruct-q4_0", Reasoning, "Architecture", Offline, "Основен модел"),
      AiModel("Qwen2.5-Coder 7B", "qwen2.5-coder:7b", Web, "Web Dev", Offline, "Уеб разработка"),
      AiModel("Phi-3 Mini 3.8B", "phi3:mini", Helper, "Assistant", Offline, "Бързи отговори") ]
  }

  /** The model list is the initial one with, at most, other statuses. */
  ghost predicate SameRegistry(ms: seq<AiModel>) {
    |ms| == |InitialModels()|
    && forall i :: 0 <= i < |ms| ==> ms[i] == InitialModels()[i].(status := ms[i].status)
  }

  /** The start-up state: the initial models form the registry, and the
      empty history trims to the empty window, whose average is zero. */
  lemma InitialRegistry()
    ensures SameRegistry(InitialModels())
    ensures LastN<int>([], WindowSize) == [] && Average([]) == 0
  {
    var ms := InitialModels();
    forall i | 0 <= i < |ms| ensures ms[i] == ms[i].(status := ms[i].status) {
    }
  }

  predicate StartsWith(s: string, pre: string) {
    |pre| <= |s| && s[..|pre|] == pre
  }

  predicate EndsWith(s: string, suf: string) {
    |suf| <= |s| && s[|s| - |suf|..] == suf
  }

  const PromptIntro: string := "Ти си CrazyIT "
  const PromptOutro: string := " на български."

  lemma Framed(mid: string)
    ensures StartsWith(PromptIntro + mid + PromptOutro, PromptIntro)
    ensures EndsWith(PromptIntro + mid + PromptOutro, PromptOutro)
  {
    var p := PromptIntro + mid + PromptOutro;
    assert p[..|PromptIntro|] == PromptIntro;
    assert p[|p| - |PromptOutro|..] == PromptOutro;
  }

  /** `SYSTEM_PROMPTS`, by model type: each introduces the CrazyIT
      assistant and asks for answers in Bulgarian. */
  function SystemPrompt(t: ModelType): (p: string)
    ensures StartsWith(p, PromptIntro) && EndsWith(p, PromptOutro)
  {
    var mid := match t
      case Reasoning => "Senior Developer. Отговаряй"
      case Web => "Web Developer. Отговаряй"
      case Helper => "Assistant. Отговаряй кратко";
    Framed(mid);
    PromptIntro + mid + PromptOutro
  }

  /** Each model type has a prompt of its own. */
  lemma SystemPromptsDistinct(a: ModelType, b: ModelType)
    ensures SystemPrompt(a) == SystemPrompt(b) <==> a == b
  {
    // the prompts already differ in their first character after the intro
    var k := |PromptIntro|;
    assert SystemPrompt(a)[k] == (match a case Reasoning => 'S' case Web => 'W' case Helper => 'A');
    assert SystemPrompt(b)[k] == (match b case Reasoning => 'S' case Web => 'W' case Helper => 'A');
  }

  // ---------------------------------------------------------------------
  // Status refresh (updateModelStatus)
  // ---------------------------------------------------------------------

  /** `name.split(':')[0]`: everything before the first colon. */
  function BaseName(n: string): (b: string)
    ensures b <= n
    ensures ':' !in b
    ensures b == n || n[|b|] == ':'
  {
    if n == [] || n[0] == ':' then []
    else [n[0]] + BaseName(n[1..])
  }

  /** `installed.some(i => i === m.ollamaName || i.startsWith(base))`.
      The equality test adds nothing: a name starts with its own base. */
  function IsInstalled(ollamaName: string, installed: seq<string>): (r: bool)
    ensures r <==> exists i :: 0 <= i < |installed| && BaseName(ollamaName) <= installed[i]
  {
    if installed == [] then false
    else
      (installed[0] == ollamaName || BaseName(ollamaName) <= installed[0])
      || IsInstalled(ollamaName, installed[1..])
  }

  function StatusFor(m: AiModel, installed: seq<string>): Status {
    if IsInstalled(m.ollamaName, installed) then Online else Offline
  }

  // ---------------------------------------------------------------------
  // Message routing (selectModel)
  // ---------------------------------------------------------------------

  /** `toLowerCase` on ASCII letters, on the Cyrillic capitals
      U+0400-U+042F and on the Kelvin sign U+212A (which lowers to an
      ASCII `k`); every other character is left as it is. */
  function LowerChar(c: char): (l: char)
    ensures 'A' <= c <= 'Z' ==> l as int == c as int + 32
    ensures 'А' <= c <= 'Я' ==> l as int == c as int + 32
    ensures 'Ѐ' <= c <= 'Џ' ==> l as int == c as int + 80
    ensures c == '\U{212A}' ==> l == 'k'
    ensures !('A' <= c <= 'Z' || 'Ѐ' <= c <= 'Я' || c == '\U{212A}') ==> l == c
  {
    if 'A' <= c <= 'Z' || 'А' <= c <= 'Я' then (c as int + 32) as char
    else if 'Ѐ' <= c <= 'Џ' then (c as int + 80) as char
    else if c == '\U{212A}' then 'k'
    else c
  }

  function ToLower(s: string): (r: string)
    ensures |r| == |s|
    ensures forall i :: 0 <= i < |s| ==> r[i] == LowerChar(s[i])
    ensures forall i :: 0 <= i < |r| ==> !('A' <= r[i] <= 'Z' || 'Ѐ' <= r[i] <= 'Я' || r[i] == '\U{212A}')
  {
    seq(|s|, i requires 0 <= i < |s| => LowerChar(s[i]))
  }

  /** Lowering twice is lowering once. */
  lemma ToLowerIdempotent(s: string)
    ensures ToLower(ToLower(s)) == ToLower(s)
  {
    forall i | 0 <= i < |s|
      ensures LowerChar(LowerChar(s[i])) == LowerChar(s[i])
    {
      var c := s[i];
      if 'A' <= c <= 'Z' || 'Ѐ' <= c <= 'Я' || c == '\U{212A}' {
        assert !('A' <= LowerChar(c) <= 'Z' || 'Ѐ' <= LowerChar(c) <= 'Я' || LowerChar(c) == '\U{212A}');
      }
    }
  }

  /** k occurs in s starting at position i. */
  predicate OccursAt(s: string, k: string, i: int) {
    0 <= i <= |s| - |k| && s[i..i + |k|] == k
  }

  lemma PrefixOccurs(s: string, k: string)
    ensures OccursAt(s, k, 0) <==> k <= s
  {
  }

  lemma TailSlice(s: string, i: int, n: nat)
    requires 1 <= i && i + n <= |s|
    ensures s[1..][i - 1..i - 1 + n] == s[i..i + n]
  {
  }

  /** When k is not a prefix of s, its occurrences in s are those in the
      tail of s, one position further on. */
  lemma OccursShift(s: string, k: string)
    requires s != [] && !(k <= s)
    ensures forall i :: OccursAt(s, k, i) <==> i >= 1 && OccursAt(s[1..], k, i - 1)
  {
    PrefixOccurs(s, k);
    forall i | OccursAt(s, k, i) ensures i >= 1 && OccursAt(s[1..], k, i - 1) {
      TailSlice(s, i, |k|);
    }
    forall i | i >= 1 && OccursAt(s[1..], k, i - 1) ensures OccursAt(s, k, i) {
      TailSlice(s, i, |k|);
    }
  }

  /** `s.includes(k)`. */
  function Includes(s: string, k: string): (r: bool)
    ensures r <==> exists i :: OccursAt(s, k, i)
  {
    if k <= s then
      assert OccursAt(s, k, 0);
      true
    else if s == [] then
      assert forall i :: !OccursAt(s, k, i);
      false
    else
      var r := Includes(s[1..], k);
      OccursShift(s, k);
      if r then
        var j :| OccursAt(s[1..], k, j);
        assert OccursAt(s, k, j + 1);
        r
      else
        r
  }

  /** `keys.some(k => s.includes(k))`. */
  function IncludesAny(s: string, keys: seq<string>): (r: bool)
    ensures r <==> exists j :: 0 <= j < |keys| && Includes(s, keys[j])
  {
    if keys == [] then false
    else Includes(s, keys[0]) || IncludesAny(s, keys[1..])
  }

  const ReasoningKeywords: seq<string> := ["архитектура", "backend", "python", "c++", "debug", "алгоритъм"]
  const WebKeywords: seq<string> := ["web", "уеб", "api", "react", "html", "css", "sql"]

  /** `selectModel`: reasoning keywords win over web keywords; otherwise
      the helper model. Matching is on the lower-cased message. */
  function SelectModel(msg: string): (t: ModelType)
    ensures t == Reasoning <==> IncludesAny(ToLower(msg), ReasoningKeywords)
    ensures t == Web <==> !IncludesAny(ToLower(msg), ReasoningKeywords) && IncludesAny(ToLower(msg), WebKeywords)
    ensures t == Helper <==> !IncludesAny(ToLower(msg), ReasoningKeywords) && !IncludesAny(ToLower(msg), WebKeywords)
  {
    var l := ToLower(msg);
    if IncludesAny(l, ReasoningKeywords) then Reasoning
    else if IncludesAny(l, WebKeywords) then Web
    else Helper
  }

  /** Routing ignores letter case. */
  lemma SelectModelIgnoresCase(msg: string)
    ensures SelectModel(ToLower(msg)) == SelectModel(msg)
  {
    ToLowerIdempotent(msg);
  }

  // ---------------------------------------------------------------------
  // Model resolution, prompt assembly and the runtime call
  // ---------------------------------------------------------------------

  /** `pref || selectModel(msg)`: the caller's type name when it is a
      non-empty string, otherwise the routed type. */
  function RequestedType(msg: string, pref: Option<string>): (t: string)
    ensures Truthy(pref) ==> t == pref.value
    ensures !Truthy(pref) ==> t == TypeName(SelectModel(msg))
  {
    OrElse(pref, TypeName(SelectModel(msg)))
  }

  /** `ms.findIndex(m => m.type === t)`, as an option. */
  function FirstOfType(ms: seq<AiModel>, t: string): (k: Option<nat>)
    ensures k.Some? ==> k.value < |ms| && TypeName(ms[k.value].kind) == t
    ensures k.Some? ==> forall j :: 0 <= j < k.value ==> TypeName(ms[j].kind) != t
    ensures k.None? ==> forall j :: 0 <= j < |ms| ==> TypeName(ms[j].kind) != t
  {
    if ms == [] then None
    else if TypeName(ms[0].kind) == t then Some(0)
    else match FirstOfType(ms[1..], t)
      case None => None
      case Some(j) => Some(j + 1)
  }

  /** `ms.findIndex(m => m.status === 'online')`, as an option. */
  function FirstOnline(ms: seq<AiModel>): (k: Option<nat>)
    ensures k.Some? ==> k.value < |ms| && ms[k.value].status == Online
    ensures k.Some? ==> forall j :: 0 <= j < k.value ==> ms[j].status != Online
    ensures k.None? ==> forall j :: 0 <= j < |ms| ==> ms[j].status != Online
  {
    if ms == [] then None
    else if ms[0].status == Online then Some(0)
    else match FirstOnline(ms[1..])
      case None => None
      case Some(j) => Some(j + 1)
  }

  /** The first model of the requested type, or the first model of all. */
  function Chosen(ms: seq<AiModel>, t: string): (m: AiModel)
    requires ms != []
    ensures m in ms
    ensures FirstOfType(ms, t).Some? ==> m == ms[FirstOfType(ms, t).value]
    ensures FirstOfType(ms, t).None? ==> m == ms[0]
    ensures (exists j :: 0 <= j < |ms| && TypeName(ms[j].kind) == t) ==> TypeName(m.kind) == t
  {
    match FirstOfType(ms, t)
    case Some(i) => ms[i]
    case None => ms[0]
  }

  /** processChat's model choice: the chosen model; if it is offline, the
      first online model instead; None (the call throws "no models
      available") when the result is still offline. */
  function ResolveModel(ms: seq<AiModel>, t: string): (r: Option<AiModel>)
    requires ms != []
    ensures r.Some? ==> r.value in ms && r.value.status != Offline
    ensures Chosen(ms, t).status != Offline ==> r == Some(Chosen(ms, t))
    ensures Chosen(ms, t).status == Offline ==>
      (r.None? <==> forall j :: 0 <= j < |ms| ==> ms[j].status != Online)
    ensures Chosen(ms, t).status == Offline && r.Some? ==>
      exists k :: 0 <= k < |ms| && r.value == ms[k] && ms[k].status == Online
        && forall j :: 0 <= j < k ==> ms[j].status != Online
  {
    var m := Chosen(ms, t);
    if m.status != Offline then Some(m)
    else match FirstOnline(ms)
      case Some(k) => Some(ms[k])
      case None => None
  }

  datatype Role = User | Assistant | System

  function RoleName(r: Role): string {
    match r
    case User => "user"
    case Assistant => "assistant"
    case System => "system"
  }

  /** One `ConversationMessage` of a session's history. */
  datatype Entry = Entry(role: Role, content: string, timestamp: int, model: Option<string>)

  /** x is the `{ role, content }` of some user or assistant entry of hist. */
  predicate Replays(hist: seq<Entry>, x: Message) {
    exists h :: h in hist && h.role != System && x == Message(RoleName(h.role), h.content)
  }

  /** The history entries replayed to the runtime: every user and
      assistant entry, and nothing else, in order, as `{ role, content }`. */
  function Replay(hist: seq<Entry>): (r: seq<Message>)
    ensures |r| <= |hist|
    ensures forall i :: 0 <= i < |r| ==> r[i].role in {"user", "assistant"}
    ensures forall x :: x in r <==> Replays(hist, x)
  {
    if hist == [] then []
    else
      var p, h := hist[..|hist| - 1], hist[|hist| - 1];
      var r := Replay(p)
        + (if h.role == User || h.role == Assistant then [Message(RoleName(h.role), h.content)] else []);
      assert hist == p + [h];
      assert forall x :: Replays(hist, x) <==> Replays(p, x) || (h.role != System && x == Message(RoleName(h.role), h.content)) by {
        forall x | Replays(hist, x)
          ensures Replays(p, x) || (h.role != System && x == Message(RoleName(h.role), h.content))
        {
          var g :| g in hist && g.role != System && x == Message(RoleName(g.role), g.content);
          if g != h { assert g in p; }
        }
        forall x | Replays(p, x) ensures Replays(hist, x) {
          var g :| g in p && g.role != System && x == Message(RoleName(g.role), g.content);
          assert g in hist;
        }
        forall x | h.role != System && x == Message(RoleName(h.role), h.content) ensures Replays(hist, x) {
          assert h in hist;
        }
      }
      r
  }

  /** One entry replays as its `{ role, content }` unless it is a system
      entry; with ReplayAppend this determines Replay. */
  lemma ReplaySingle(h: Entry)
    ensures Replay([h]) == if h.role == System then [] else [Message(RoleName(h.role), h.content)]
  {
    assert [h][..0] == [];
  }

  /** Replay distributes over concatenation, so it keeps the order of the
      history and drops exactly the system entries. */
  lemma {:induction false} ReplayAppend(a: seq<Entry>, b: seq<Entry>)
    ensures Replay(a + b) == Replay(a) + Replay(b)
  {
    if b == [] {
      assert a + b == a;
    } else {
      var b', h := b[..|b| - 1], b[|b| - 1];
      ReplayAppend(a, b');
      assert (a + b)[..|a + b| - 1] == a + b';
      assert (a + b)[|a + b| - 1] == h;
    }
  }

  /** One more entry of w replays as ReplaySingle says. */
  lemma ReplayStep(w: seq<Entry>, i: int)
    requires 0 <= i < |w|
    ensures Replay(w[..i + 1]) == Replay(w[..i])
      + (if w[i].role == User || w[i].role == Assistant then [Message(RoleName(w[i].role), w[i].content)] else [])
  {
    assert w[..i + 1] == w[..i] + [w[i]];
    ReplayAppend(w[..i], [w[i]]);
    ReplaySingle(w[i]);
  }

  /** The prompt of one chat turn: the system prompt of the model's type,
      the replayable entries among the last 8 of the history, the message. */
  function BuildPrompt(t: ModelType, hist: seq<Entry>, msg: string): (ms: seq<Message>)
    ensures 2 <= |ms| <= 10
    ensures ms[0] == Message("system", SystemPrompt(t))
    ensures ms[|ms| - 1] == Message("user", msg)
    ensures ms[1..|ms| - 1] == Replay(LastN(hist, 8))
  {
    [Message("system", SystemPrompt(t))] + Replay(LastN(hist, 8)) + [Message("user", msg)]
  }

  /** The building loop of processChat: system message, one push per
      replayable entry of `hist.slice(-8)`, then the user message. */
  method AssemblePrompt(t: ModelType, hist: seq<Entry>, msg: string) returns (msgs: seq<Message>)
    ensures msgs == BuildPrompt(t, hist, msg)
  {
    var window := LastN(hist, 8);
    msgs := [Message("system", SystemPrompt(t))];
    for i := 0 to |window|
      invariant msgs == [Message("system", SystemPrompt(t))] + Replay(window[..i])
    {
      var h := window[i];
      ReplayStep(window, i);
      if h.role == User || h.role == Assistant {
        msgs := msgs + [Message(RoleName(h.role), h.content)];
      }
    }
    assert window[..|window|] == window;
    msgs := msgs + [Message("user", msg)];
  }

  /** Why a chat turn or a code request fails. */
  datatype ChatError =
    | NoModelAvailable        // "Няма налични AI модели."
    | BackendUnavailable      // fetch rejected (connection refused, 120 s timeout)
    | BackendStatus(status: int)  // "Ollama error: <status>"
    | BackendBadBody          // the success body was not JSON

  const NoAnswer: string := "Няма отговор."

  /** `callOllama`: a non-success status throws; an empty or missing
      content becomes the placeholder, so a success is never empty. */
  function CallOllama(reply: Reply): (r: Result<string, ChatError>)
    ensures r.Ok? <==> reply.Answered? && IsOk(reply.status) && reply.json.Some?
    ensures reply.Answered? && !IsOk(reply.status) ==> r == Err(BackendStatus(reply.status))
    ensures reply.Unreachable? ==> r == Err(BackendUnavailable)
    ensures reply.Answered? && IsOk(reply.status) && reply.json.None? ==> r == Err(BackendBadBody)
    ensures r.Ok? ==> r.value != ""
    ensures r.Ok? && Truthy(reply.json.value.content) ==> r.value == reply.json.value.content.value
    ensures r.Ok? && !Truthy(reply.json.value.content) ==> r.value == NoAnswer
  {
    match reply
    case Unreachable => Err(BackendUnavailable)
    case Answered(status, json) =>
      if !IsOk(status) then Err(BackendStatus(status))
      else if json.None? then Err(BackendBadBody)
      else Ok(OrElse(json.value.content, NoAnswer))
  }

  // ---------------------------------------------------------------------
  // Statistics
  // ---------------------------------------------------------------------

  const WindowSize: nat := 50

  /** `responseTimes.push(t); if (responseTimes.length > 50) responseTimes.shift()`. */
  function Push(times: seq<int>, t: int): (w: seq<int>)
    requires |times| <= WindowSize
    ensures 1 <= |w| <= WindowSize
    ensures w[|w| - 1] == t
  {
    var grown := times + [t];
    if |grown| > WindowSize then grown[1..] else grown
  }

  /** The window always holds the most recent (at most 50) times of the
      whole history, in arrival order. */
  lemma PushKeepsRecent(history: seq<int>, t: int)
    ensures Push(LastN(history, WindowSize), t) == LastN(history + [t], WindowSize)
  {
    LastNAppend(history, t, WindowSize);
  }

  /** `Math.round(sum / length)`, and 0 before the first response. */
  function Average(times: seq<int>): (a: int)
    ensures times != [] ==> 2 * |times| * a - |times| <= 2 * Sum(times) < 2 * |times| * a + |times|
    ensures times == [] ==> a == 0
  {
    if times == [] then 0 else RoundDiv(Sum(times), |times|)
  }

  /** What a successful chat turn answers with. */
  datatype ChatReply = ChatReply(response: string, model: AiModel, processingTime: int)

  /** The answer of one chat turn, given the model list, the session's
      history and the runtime: a reply from an online model that is never
      empty, or the reason the turn failed. */
  function ChatTurn(ms: seq<AiModel>, hist: seq<Entry>, msg: string, pref: Option<string>,
                    chat: (string, seq<Message>) -> Reply, elapsed: int): (r: Result<ChatReply, ChatError>)
    requires ms != []
    ensures var m := ResolveModel(ms, RequestedType(msg, pref));
      r == Err(NoModelAvailable) <==> m.None?
    ensures var m := ResolveModel(ms, RequestedType(msg, pref));
      r.Ok? <==> m.Some? && CallOllama(chat(m.value.ollamaName, BuildPrompt(m.value.kind, hist, msg))).Ok?
    ensures var m := ResolveModel(ms, RequestedType(msg, pref));
      m.Some? && r.Err? ==> r.error == CallOllama(chat(m.value.ollamaName, BuildPrompt(m.value.kind, hist, msg))).error
    ensures r.Ok? ==> Some(r.value.model) == ResolveModel(ms, RequestedType(msg, pref))
    ensures r.Ok? ==> r.value.model in ms && r.value.model.status != Offline
    ensures r.Ok? ==> r.value.response != "" && r.value.processingTime == elapsed
    ensures r.Ok? ==> Ok(r.value.response) == CallOllama(chat(r.value.model.ollamaName, BuildPrompt(r.value.model.kind, hist, msg)))
  {
    match ResolveModel(ms, RequestedType(msg, pref))
    case None => Err(NoModelAvailable)
    case Some(m) =>
      match CallOllama(chat(m.ollamaName, BuildPrompt(m.kind, hist, msg)))
      case Ok(text) => Ok(ChatReply(text, m, elapsed))
      case Err(e) => Err(e)
  }

  /** `(stats.modelUsage[name] || 0) + 1`. */
  function Bump(usage: map<string, nat>, name: string): (u: map<string, nat>)
    ensures u.Keys == usage.Keys + {name}
    ensures u[name] == (if name in usage then usage[name] else 0) + 1
    ensures forall k :: k in usage && k != name ==> u[k] == usage[k]
  {
    usage[name := (if name in usage then usage[name] else 0) + 1]
  }

  /** Where each type sits in the registry. */
  function TypeIndex(t: ModelType): nat {
    match t
    case Reasoning => 0
    case Web => 1
    case Helper => 2
  }

  /** Whatever the statuses, the registry has exactly one model of each
      type, so looking a type up always finds that model. */
  lemma RegistryHasType(ms: seq<AiModel>, t: ModelType)
    requires SameRegistry(ms)
    ensures FirstOfType(ms, TypeName(t)) == Some(TypeIndex(t))
  {
    assert forall i :: 0 <= i < |ms| ==> ms[i].kind == InitialModels()[i].kind;
    assert ms[TypeIndex(t)].kind == t;
    var k := FirstOfType(ms, TypeName(t));
    assert k.Some? && k.value <= TypeIndex(t);
    assert ms[k.value].kind == t;
  }

  /** The code helpers' model: the first of the type (the `!` asserts one
      exists), or the first online model when that one is offline; unlike
      a chat turn, an offline model is still called. */
  function CodeModel(ms: seq<AiModel>, t: ModelType): (m: AiModel)
    requires FirstOfType(ms, TypeName(t)).Some?
    ensures m in ms
    ensures ms[FirstOfType(ms, TypeName(t)).value].status != Offline ==> m == ms[FirstOfType(ms, TypeName(t)).value]
    ensures ms[FirstOfType(ms, TypeName(t)).value].status == Offline && FirstOnline(ms).Some? ==>
      m == ms[FirstOnline(ms).value] && m.status == Online
    ensures ms[FirstOfType(ms, TypeName(t)).value].status == Offline && FirstOnline(ms).None? ==>
      m == ms[FirstOfType(ms, TypeName(t)).value]
  {
    var m := ms[FirstOfType(ms, TypeName(t)).value];
    if m.status == Offline then
      match FirstOnline(ms)
      case Some(j) => ms[j]
      case None => m
    else m
  }

  // ---------------------------------------------------------------------
  // The service state
  // ---------------------------------------------------------------------

  class Service {
    var models: seq<AiModel>
    var conversations: map<string, seq<Entry>>
    var totalMessages: nat
    var totalRequests: nat
    var averageResponseTime: int
    var modelUsage: map<string, nat>
    var uptime: int
    var responseTimes: seq<int>
    /** Every response time recorded since start, oldest first. */
    ghost var timeHistory: seq<int>

    ghost predicate Valid()
      reads this
    {
      && SameRegistry(models)
      && |responseTimes| <= WindowSize
      && responseTimes == LastN(timeHistory, WindowSize)
      && averageResponseTime == Average(responseTimes)
    }

    /** The service at start-up, `startedAt` standing for `Date.now()`. */
    constructor (startedAt: int)
      ensures Valid()
      ensures models == InitialModels() && conversations == map[]
      ensures totalMessages == 0 && totalRequests == 0 && averageResponseTime == 0
      ensures modelUsage == map[] && uptime == startedAt && responseTimes == [] && timeHistory == []
    {
      models := InitialModels();
      conversations := map[];
      totalMessages, totalRequests, averageResponseTime := 0, 0, 0;
      modelUsage := map[];
      uptime := startedAt;
      responseTimes, timeHistory := [], [];
      new;
      InitialRegistry();
      assert SameRegistry(models);
      assert responseTimes == LastN(timeHistory, WindowSize);
    }

    /** `updateModelStatus` with the runtime's installed names: each model
        becomes online iff installed, nothing else changes. */
    method UpdateModelStatus(installed: seq<string>) returns (ms: seq<AiModel>)
      requires Valid()
      modifies this`models
      ensures Valid()
      ensures |models| == |old(models)|
      ensures forall i :: 0 <= i < |models| ==>
        models[i] == old(models)[i].(status := StatusFor(old(models)[i], installed))
      ensures ms == models
    {
      for i := 0 to |models|
        invariant |models| == |old(models)|
        invariant forall k :: 0 <= k < i ==> models[k] == old(models)[k].(status := StatusFor(old(models)[k], installed))
        invariant forall k :: i <= k < |models| ==> models[k] == old(models)[k]
      {
        models := models[i := models[i].(status := StatusFor(models[i], installed))];
      }
      ms := models;
    }

    /** `processChat(sid, msg, pref)`; `chat` is the runtime, `elapsed` the
        measured response time and `now` the time stamp of both entries. */
    method ProcessChat(sid: string, msg: string, pref: Option<string>,
                       chat: (string, seq<Message>) -> Reply, elapsed: int, now: int)
      returns (r: Result<ChatReply, ChatError>)
      requires Valid()
      modifies this`conversations, this`totalMessages, this`totalRequests,
               this`averageResponseTime, this`modelUsage, this`responseTimes, this`timeHistory
      ensures Valid()
      ensures r == ChatTurn(old(models), if sid in old(conversations) then old(conversations)[sid] else [],
                            msg, pref, chat, elapsed)
      // on failure nothing is recorded
      ensures r.Err? ==>
        && conversations == old(conversations) && totalMessages == old(totalMessages)
        && totalRequests == old(totalRequests) && modelUsage == old(modelUsage)
        && responseTimes == old(responseTimes) && averageResponseTime == old(averageResponseTime)
        && timeHistory == old(timeHistory)
      // on success: counters, usage, window, and two entries appended to this session only
      ensures r.Ok? ==>
        var hist := if sid in old(conversations) then old(conversations)[sid] else [];
        && totalMessages == old(totalMessages) + 1
        && totalRequests == old(totalRequests) + 1
        && modelUsage == Bump(old(modelUsage), r.value.model.name)
        && timeHistory == old(timeHistory) + [elapsed]
        && responseTimes == Push(old(responseTimes), elapsed)
        && conversations == old(conversations)[sid := hist + [
             Entry(User, msg, now, None),
             Entry(Assistant, r.value.response, now, Some(r.value.model.name))]]
    {
      var resolved := ResolveModel(models, RequestedType(msg, pref));
      if resolved.None? {
        r := Err(NoModelAvailable);
        return;
      }
      var model := resolved.value;
      var hist := if sid in conversations then conversations[sid] else [];
      var msgs := AssemblePrompt(model.kind, hist, msg);
      var resp := CallOllama(chat(model.ollamaName, msgs));
      if resp.Err? {
        r := Err(resp.error);
        assert r == ChatTurn(models, hist, msg, pref, chat, elapsed);
        return;
      }
      assert Ok(ChatReply(resp.value, model, elapsed)) == ChatTurn(models, hist, msg, pref, chat, elapsed);
      RecordResponse(model.name, elapsed);
      conversations := conversations[sid := hist + [
        Entry(User, msg, now, None),
        Entry(Assistant, resp.value, now, Some(model.name))]];
      r := Ok(ChatReply(resp.value, model, elapsed));
    }

    /** The statistics update after a successful chat turn: one more
        message and request, one more use of the model, and the response
        time pushed into the window the average is taken over. */
    method RecordResponse(name: string, elapsed: int)
      requires Valid()
      modifies this`totalMessages, this`totalRequests, this`modelUsage,
               this`responseTimes, this`timeHistory, this`averageResponseTime
      ensures Valid()
      ensures totalMessages == old(totalMessages) + 1
      ensures totalRequests == old(totalRequests) + 1
      ensures modelUsage == Bump(old(modelUsage), name)
      ensures timeHistory == old(timeHistory) + [elapsed]
      ensures responseTimes == Push(old(responseTimes), elapsed)
    {
      totalMessages := totalMessages + 1;
      totalRequests := totalRequests + 1;
      modelUsage := Bump(modelUsage, name);
      PushKeepsRecent(timeHistory, elapsed);
      responseTimes := Push(responseTimes, elapsed);
      timeHistory := timeHistory + [elapsed];
      averageResponseTime := Average(responseTimes);
    }

    /** The `init-session` handler: the given id when it is a non-empty
        string, else a generated one; an empty history only for a new id. */
    method InitSession(requested: Option<string>, generated: string) returns (sid: string)
      requires Valid()
      modifies this`conversations
      ensures Valid()
      ensures sid == OrElse(requested, generated)
      ensures sid in old(conversations) ==> conversations == old(conversations)
      ensures sid !in old(conversations) ==> conversations == old(conversations)[sid := []]
    {
      sid := OrElse(requested, generated);
      if sid !in conversations {
        conversations := conversations[sid := []];
      }
    }

    /** The `clear-conversation` handler: that session's history goes. */
    method ClearConversation(sid: string)
      requires Valid()
      modifies this`conversations
      ensures Valid()
      ensures conversations == old(conversations) - {sid}
    {
      conversations := conversations - {sid};
    }

    /** `handleCode(type, prompt, ...)`: one runtime call with the type's
        system prompt and the prompt; a success counts as a request but not
        as a message. */
    method HandleCode(t: ModelType, prompt: string, chat: (string, seq<Message>) -> Reply)
      returns (r: Result<string, ChatError>)
      requires Valid()
      modifies this`totalRequests
      ensures Valid()
      ensures FirstOfType(models, TypeName(t)).Some?
      ensures r == CallOllama(chat(CodeModel(models, t).ollamaName,
                    [Message("system", SystemPrompt(t)), Message("user", prompt)]))
      ensures totalRequests == old(totalRequests) + (if r.Ok? then 1 else 0)
    {
      RegistryHasType(models, t);
      var m := CodeModel(models, t);
      r := CallOllama(chat(m.ollamaName, [Message("system", SystemPrompt(t)), Message("user", prompt)]));
      if r.Ok? {
        totalRequests := totalRequests + 1;
      }
    }
  }
}
