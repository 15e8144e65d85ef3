/**
  A model of `CustomAPILLM` (llm_model.py): the chat history and prompt builder
  that talks to a chat-completion endpoint on behalf of the persona "VIKA".

  The object keeps four pieces of mutable state (the tagged history lines, the
  list of available actions, the current system line and the previous
  generation) and turns them into one prompt string. The HTTP post of
  `__call__` is not modelled: the status code and the parsed body it yields
  are parameters of `Call`.
*/
module LlmModel {

  datatype Option<T> = None | Some(value: T)

  datatype Result<T, E> = Ok(value: T) | Err(error: E)

  // ---------------------------------------------------------------------------
  // Constants of the source
  // ---------------------------------------------------------------------------

  /** The default action; the action list always starts with it. */
  const Conversation: string := "Разговор"

  /** `default_system`: note that it opens a quote after `system: ` and never closes it. */
  const DefaultSystem: string :=
    "system: 'Ты - помощник по имени ВИКА на заброшенной космической станции. "
    + "У тебя есть доступ к системам станции. Отвечай только в формате JSON с ключами "
    + "'MessageText' и 'Actions', содержащими как минимум одно "
    + "(или несколько) доступных "
    + "вам действий. Если в Actions есть имя действия, оно будет исполнено. "
    + "Заканчивайте ответ символом }. Ниже - история сообщений из предыдущего диалога "
    + "с пользователем, а также список доступных тебе действий."

  /** The fixed opening of every prompt. */
  const PromptHeader: string :=
    "Системное сообщение, которому ты должен следовать, "
    + "отмечено словом 'system'. "
    + "Предыдущие сообщения пользователя отмечены словом 'user'. "
    + "Твои предыдущие сообщения отмечены словом 'VIKA'. "
    + "\n\nИстория сообщений:"

  /** The text between the history and the comma-separated action list. */
  const ActionsIntro: string :=
    "\n\nТы можешь совершать только "
    + "действия из представленного списка.\n"
    + "Доступные действия:\n Разговор, "

  /** The text between the action list and the user's message. */
  const ClosingIntro: string :=
    "\n\nОтветь на сообщение пользователя, "
    + "беря во внимания всю предыдущую информацию.\nСообщение пользователя:\n"

  const InvalidResponseFormat: string := "Invalid response format"

  const StatusErrorPrefix: string := "API request failed with status code "

  // ---------------------------------------------------------------------------
  // Tagged history lines
  // ---------------------------------------------------------------------------

  /** Who a history line is attributed to. */
  datatype Speaker = System | User | Vika

  function Tag(sp: Speaker): string
  {
    match sp
    case System => "system"
    case User => "user"
    case Vika => "VIKA"
  }

  /** The text in front of the quoted message, e.g. `user: '`. */
  function Opener(sp: Speaker): string
  {
    Tag(sp) + ": '"
  }

  /** The line `<tag>: '<msg>'`, the format of `set_system` and `add_to_history`. */
  function Tagged(sp: Speaker, msg: string): string
  {
    Opener(sp) + msg + "'"
  }

  /** `set_system(s)` stores this line. */
  function SystemLine(s: string): string
  {
    Tagged(System, s)
  }

  /** The line `add_to_history(msg, is_bot, start)` appends, given the current system line. */
  function HistoryLine(system: string, msg: string, isBot: bool, start: bool): string
  {
    if start then system
    else if isBot then Tagged(Vika, msg)
    else Tagged(User, msg)
  }

  /** Reads a tagged line back: the speaker and the quoted message, if the line is well formed. */
  function Untag(line: string): (r: Option<(Speaker, string)>)
    ensures r.Some? ==> Tagged(r.value.0, r.value.1) == line
  {
    if |line| > 0 && line[|line| - 1] == '\'' then
      if |Opener(System)| < |line| && Opener(System) <= line then
        SplitTagged(System, line);
        Some((System, line[|Opener(System)|..|line| - 1]))
      else if |Opener(User)| < |line| && Opener(User) <= line then
        SplitTagged(User, line);
        Some((User, line[|Opener(User)|..|line| - 1]))
      else if |Opener(Vika)| < |line| && Opener(Vika) <= line then
        SplitTagged(Vika, line);
        Some((Vika, line[|Opener(Vika)|..|line| - 1]))
      else None
    else None
  }

  /** A line that starts with an opener and ends with a quote is that speaker's tagged line. */
  lemma SplitTagged(sp: Speaker, line: string)
    requires |Opener(sp)| < |line| && Opener(sp) <= line && line[|line| - 1] == '\''
    ensures Tagged(sp, line[|Opener(sp)|..|line| - 1]) == line
  {
    var n := |Opener(sp)|;
    assert line == line[..n] + line[n..|line| - 1] + line[|line| - 1..];
  }

  /** The three openers begin with different letters, so no tagged line carries two of them. */
  lemma OpenersExclusive(sp: Speaker, other: Speaker, msg: string)
    requires sp != other
    ensures !(Opener(other) <= Tagged(sp, msg))
  {
    assert Tagged(sp, msg)[0] == Opener(sp)[0];
    assert Opener(other)[0] != Opener(sp)[0];
  }

  /** A tagged line names its speaker and its message: `Untag` inverts `Tagged`. */
  lemma {:induction false} UntagTagged(sp: Speaker, msg: string)
    ensures Untag(Tagged(sp, msg)) == Some((sp, msg))
  {
    var line := Tagged(sp, msg);
    assert line[|line| - 1] == '\'';
    assert Opener(sp) <= line;
    assert line[|Opener(sp)|..|line| - 1] == msg;
    match sp
    case System =>
    case User =>
      OpenersExclusive(User, System, msg);
    case Vika =>
      OpenersExclusive(Vika, System, msg);
      OpenersExclusive(Vika, User, msg);
  }

  /** Two tagged lines are equal only if speaker and message both are. */
  lemma TaggedInjective(sp1: Speaker, m1: string, sp2: Speaker, m2: string)
    requires Tagged(sp1, m1) == Tagged(sp2, m2)
    ensures sp1 == sp2 && m1 == m2
  {
    UntagTagged(sp1, m1);
    UntagTagged(sp2, m2);
  }

  /** The line appended by `add_to_history` with `start=False` is a user or VIKA line carrying `msg`. */
  lemma HistoryLineSpeaker(system: string, msg: string, isBot: bool)
    ensures Untag(HistoryLine(system, msg, isBot, false)) == Some((if isBot then Vika else User, msg))
  {
    UntagTagged(if isBot then Vika else User, msg);
  }

  /**
    The default system line is not one `set_system` could produce: it ends
    with a full stop, not with the closing quote.
  */
  lemma DefaultSystemUnclosed()
    ensures Untag(DefaultSystem) == None
    ensures forall s :: SystemLine(s) != DefaultSystem
  {
    assert DefaultSystem[|DefaultSystem| - 1] == '.';
    forall s ensures SystemLine(s) != DefaultSystem {
      assert SystemLine(s)[|SystemLine(s)| - 1] == '\'';
    }
  }

  // ---------------------------------------------------------------------------
  // Prompt assembly
  // ---------------------------------------------------------------------------

  /** Each history line preceded by a newline, in order (the `for message in self.history` loop). */
  function HistoryBlock(history: seq<string>): string
  {
    if history == [] then ""
    else HistoryBlock(history[..|history| - 1]) + "\n" + history[|history| - 1]
  }

  /** Python's `sep.join(items)`. */
  function Join(items: seq<string>, sep: string): string
  {
    if |items| == 0 then ""
    else if |items| == 1 then items[0]
    else Join(items[..|items| - 1], sep) + sep + items[|items| - 1]
  }

  /** The prompt `get_user_prompt(msg)` builds from the history and the action list. */
  function UserPrompt(history: seq<string>, actions: seq<string>, msg: string): string
  {
    PromptHeader + HistoryBlock(history) + ActionsIntro + Join(actions, ", ") + ClosingIntro + msg
  }

  /** The history block of a concatenation is the concatenation of the blocks. */
  lemma {:induction false} HistoryBlockConcat(a: seq<string>, b: seq<string>)
    ensures HistoryBlock(a + b) == HistoryBlock(a) + HistoryBlock(b)
    decreases |b|
  {
    if b == [] {
      assert a + b == a;
    } else {
      var b' := b[..|b| - 1];
      assert (a + b)[..|a + b| - 1] == a + b';
      HistoryBlockConcat(a, b');
    }
  }

  /**
    Every history line shows up in the prompt's history block, on a line of its
    own, right after the lines before it.
  */
  lemma HistoryLineInBlock(history: seq<string>, i: nat)
    requires i < |history|
    ensures HistoryBlock(history[..i]) + "\n" + history[i] <= HistoryBlock(history)
  {
    var front, rest := history[..i + 1], history[i + 1..];
    assert history == front + rest;
    HistoryBlockConcat(front, rest);
    assert front[..|front| - 1] == history[..i];
    var line := HistoryBlock(history[..i]) + "\n" + history[i];
    assert HistoryBlock(front) == line;
    PrefixOfConcat(line, HistoryBlock(rest));
  }

  lemma PrefixOfConcat(x: string, y: string)
    ensures x <= x + y
  {
  }

  /** The join of two non-empty lists is the two joins with one separator between them. */
  lemma {:induction false} JoinConcat(a: seq<string>, b: seq<string>, sep: string)
    requires a != [] && b != []
    ensures Join(a + b, sep) == Join(a, sep) + sep + Join(b, sep)
    decreases |b|
  {
    if |b| == 1 {
      assert (a + b)[..|a + b| - 1] == a;
    } else {
      var b' := b[..|b| - 1];
      assert (a + b)[..|a + b| - 1] == a + b';
      JoinConcat(a, b', sep);
    }
  }

  /**
    With the default action list the prompt names "Разговор" twice: once from
    the fixed text and once from the list itself.
  */
  lemma DefaultActionsTwice(history: seq<string>, msg: string)
    ensures UserPrompt(history, [Conversation], msg)
         == PromptHeader + HistoryBlock(history) + ActionsIntro + Conversation + ClosingIntro + msg
    ensures ActionsIntro[|ActionsIntro| - |Conversation| - 2..] == Conversation + ", "
  {
  }

  // ---------------------------------------------------------------------------
  // Parsed responses and Python subscription
  // ---------------------------------------------------------------------------

  /** A parsed JSON value (numbers are kept integral; no subscript reads them). */
  datatype Json =
    | JNull
    | JBool(b: bool)
    | JNumber(n: int)
    | JString(s: string)
    | JArray(items: seq<Json>)
    | JObject(members: map<string, Json>)

  /** A Python subscript key: a string (`d["k"]`) or an integer (`xs[0]`). */
  datatype Key = Field(name: string) | Index(i: int)

  /** The Python exceptions the lookup can raise. */
  datatype PyError = KeyError | IndexError | TypeError | ValueError(message: string)

  /** Python's `v[k]` on a value decoded from JSON. */
  function Subscript(v: Json, k: Key): (r: Result<Json, PyError>)
    ensures r == Err(KeyError) ==> v.JObject?
    ensures r == Err(IndexError) ==> k.Index? && (v.JArray? || v.JString?)
  {
    match (v, k)
    case (JObject(m), Field(name)) => if name in m then Ok(m[name]) else Err(KeyError)
    // keys of a decoded JSON object are strings, so an integer key is never present
    case (JObject(_), Index(_)) => Err(KeyError)
    case (JArray(xs), Index(i)) =>
      if -|xs| <= i < |xs| then Ok(xs[if i < 0 then i + |xs| else i]) else Err(IndexError)
    case (JString(s), Index(i)) =>
      if -|s| <= i < |s| then Ok(JString([s[if i < 0 then i + |s| else i]])) else Err(IndexError)
    case _ => Err(TypeError)
  }

  /** `v[k0][k1]...`, stopping at the first exception. */
  function Lookup(v: Json, path: seq<Key>): Result<Json, PyError>
    decreases |path|
  {
    if path == [] then Ok(v)
    else
      match Subscript(v, path[0])
      case Ok(w) => Lookup(w, path[1..])
      case Err(e) => Err(e)
  }

  const ContentPath: seq<Key> := [Field("choices"), Index(0), Field("message"), Field("content")]

  /**
    `get_text_from_response`: `response["choices"][0]["message"]["content"]`,
    with a `KeyError` turned into `ValueError("Invalid response format")`;
    every other exception passes through.
  */
  function GetTextFromResponse(response: Json): (r: Result<Json, PyError>)
    ensures r != Err(KeyError)
    ensures r.Err? && r.error.ValueError? ==> r.error.message == InvalidResponseFormat
  {
    match Lookup(response, ContentPath)
    case Ok(v) => Ok(v)
    case Err(KeyError) => Err(ValueError(InvalidResponseFormat))
    case Err(e) => Err(e)
  }

  /** The shape of a well-formed completion, written out field by field. */
  predicate HasContent(r: Json)
  {
    && r.JObject? && "choices" in r.members
    && r.members["choices"].JArray? && |r.members["choices"].items| > 0
    && r.members["choices"].items[0].JObject?
    && "message" in r.members["choices"].items[0].members
    && r.members["choices"].items[0].members["message"].JObject?
    && "content" in r.members["choices"].items[0].members["message"].members
  }

  function ContentOf(r: Json): Json
    requires HasContent(r)
  {
    r.members["choices"].items[0].members["message"].members["content"]
  }

  /** A completion as the endpoint sends it, carrying `content`. */
  function MakeResponse(content: Json): Json
  {
    JObject(map["choices" := JArray([JObject(map["message" := JObject(map["content" := content])])])])
  }

  /** Extraction succeeds exactly on well-formed completions and then yields their content. */
  lemma GetTextSucceedsIff(r: Json)
    ensures GetTextFromResponse(r).Ok? <==> HasContent(r)
    ensures HasContent(r) ==> GetTextFromResponse(r) == Ok(ContentOf(r))
  {
    var p := ContentPath;
    assert p[1..] == [Index(0), Field("message"), Field("content")];
    assert p[1..][1..] == [Field("message"), Field("content")];
    assert p[1..][1..][1..] == [Field("content")];
    assert p[1..][1..][1..][1..] == [];
  }

  /** Extraction inverts `MakeResponse`. */
  lemma GetTextOfMakeResponse(content: Json)
    ensures GetTextFromResponse(MakeResponse(content)) == Ok(content)
  {
    GetTextSucceedsIff(MakeResponse(content));
  }

  /**
    The error cases: a missing key becomes `ValueError`, an empty `choices`
    list raises `IndexError` (it is not caught), and a body that is not an
    object raises `TypeError`.
  */
  lemma GetTextErrors(r: Json)
    ensures !r.JObject? ==> GetTextFromResponse(r) == Err(TypeError)
    ensures r.JObject? && "choices" !in r.members
            ==> GetTextFromResponse(r) == Err(ValueError(InvalidResponseFormat))
    ensures r.JObject? && "choices" in r.members && r.members["choices"] == JArray([])
            ==> GetTextFromResponse(r) == Err(IndexError)
    ensures r.JObject? && "choices" in r.members && r.members["choices"].JArray?
            && |r.members["choices"].items| > 0 && r.members["choices"].items[0].JObject?
            && "message" !in r.members["choices"].items[0].members
            ==> GetTextFromResponse(r) == Err(ValueError(InvalidResponseFormat))
    ensures r.JObject? && "choices" in r.members && r.members["choices"].JObject?
            ==> GetTextFromResponse(r) == Err(ValueError(InvalidResponseFormat))
    ensures r.JObject? && "choices" in r.members && r.members["choices"].JArray?
            && |r.members["choices"].items| > 0 && r.members["choices"].items[0].JObject?
            && "message" in r.members["choices"].items[0].members
            && r.members["choices"].items[0].members["message"].JObject?
            && "content" !in r.members["choices"].items[0].members["message"].members
            ==> GetTextFromResponse(r) == Err(ValueError(InvalidResponseFormat))
  {
    var p := ContentPath;
    assert p[1..] == [Index(0), Field("message"), Field("content")];
    assert p[1..][1..] == [Field("message"), Field("content")];
    assert p[1..][1..][1..] == [Field("content")];
    assert p[1..][1..][1..][1..] == [];
  }

  /**
    Some subscript on the path raises `KeyError`: a key is absent from an
    object, or `choices` is an object, whose keys are never the integer 0.
  */
  predicate MissingKey(r: Json)
  {
    && r.JObject?
    && ("choices" !in r.members
        || r.members["choices"].JObject?
        || (&& r.members["choices"].JArray? && |r.members["choices"].items| > 0
            && r.members["choices"].items[0].JObject?
            && ("message" !in r.members["choices"].items[0].members
                || (&& r.members["choices"].items[0].members["message"].JObject?
                    && "content" !in r.members["choices"].items[0].members["message"].members))))
  }

  /** Extraction raises `ValueError("Invalid response format")` exactly when a key is missing. */
  lemma GetTextValueErrorIff(r: Json)
    ensures GetTextFromResponse(r) == Err(ValueError(InvalidResponseFormat)) <==> MissingKey(r)
  {
    var p := ContentPath;
    assert p[1..] == [Index(0), Field("message"), Field("content")];
    assert p[1..][1..] == [Field("message"), Field("content")];
    assert p[1..][1..][1..] == [Field("content")];
    assert p[1..][1..][1..][1..] == [];
  }

  // ---------------------------------------------------------------------------
  // Status codes in error messages
  // ---------------------------------------------------------------------------

  function DigitChar(d: nat): (c: char)
    requires d < 10
    ensures '0' <= c <= '9' && c as int - '0' as int == d
  {
    ('0' as int + d) as char
  }

  predicate IsDigits(s: string)
  {
    forall i :: 0 <= i < |s| ==> '0' <= s[i] <= '9'
  }

  /** Decimal digits of `n`, most significant first (Python's `str` on a non-negative int). */
  function NatToString(n: nat): (s: string)
    ensures |s| > 0 && IsDigits(s)
  {
    if n < 10 then [DigitChar(n)] else NatToString(n / 10) + [DigitChar(n % 10)]
  }

  /** Python's `str` on an int, as `f"{status_code}"` formats it. */
  function IntToString(i: int): string
  {
    if i < 0 then "-" + NatToString(-i) else NatToString(i)
  }

  function ParseNat(s: string): nat
    requires IsDigits(s)
  {
    if s == [] then 0 else ParseNat(s[..|s| - 1]) * 10 + (s[|s| - 1] as int - '0' as int)
  }

  function ParseInt(s: string): int
    requires |s| > 0 && (IsDigits(s) || (s[0] == '-' && IsDigits(s[1..])))
  {
    if s[0] == '-' then 0 - ParseNat(s[1..]) as int else ParseNat(s)
  }

  lemma {:induction false} ParseNatToString(n: nat)
    ensures ParseNat(NatToString(n)) == n
  {
    if n >= 10 {
      var s := NatToString(n);
      assert s[..|s| - 1] == NatToString(n / 10);
      ParseNatToString(n / 10);
    }
  }

  /** The decimal text of an integer reads back as that integer. */
  lemma ParseIntToString(i: int)
    ensures ParseInt(IntToString(i)) == i
  {
    if i < 0 {
      assert IntToString(i)[1..] == NatToString(-i);
      ParseNatToString(-i);
    } else {
      assert NatToString(i)[0] != '-';
      ParseNatToString(i);
    }
  }

  /** The message of the `ValueError` raised for a non-200 status. */
  function StatusErrorMessage(status: int): string
  {
    StatusErrorPrefix + IntToString(status)
  }

  /** The error message names the status code: different codes give different messages. */
  lemma StatusErrorNamesCode(a: int, b: int)
    requires StatusErrorMessage(a) == StatusErrorMessage(b)
    ensures a == b
  {
    var n := |StatusErrorPrefix|;
    assert StatusErrorMessage(a)[n..] == IntToString(a);
    assert StatusErrorMessage(b)[n..] == IntToString(b);
    ParseIntToString(a);
    ParseIntToString(b);
  }

  // ---------------------------------------------------------------------------
  // The request sent by `__call__`
  // ---------------------------------------------------------------------------

  datatype ChatMessage = ChatMessage(role: string, content: string)

  /** The POST `__call__` sends: its target, its content type and the JSON body's fields. */
  datatype ChatRequest = ChatRequest(url: string, contentType: string, model: string, messages: seq<ChatMessage>)

  // ---------------------------------------------------------------------------
  // The stateful client
  // ---------------------------------------------------------------------------

  class CustomApiLlm {
    const apiUrl: string
    const modelName: string
    const defaultSystem: string
    var history: seq<string>
    var availableActions: seq<string>
    var system: string
    var previousGeneration: Option<string>

    /** What every method keeps: the default action leads the list, the default system line is fixed. */
    ghost predicate Valid()
      reads this
    {
      |availableActions| > 0 && availableActions[0] == Conversation && defaultSystem == DefaultSystem
    }

    /** The state after `__init__` and after `clear()`. */
    ghost predicate Initial()
      reads this
    {
      && history == []
      && availableActions == [Conversation]
      && system == defaultSystem
      && previousGeneration == None
    }

    constructor (apiUrl: string, modelName: string)
      ensures Valid() && Initial()
      ensures this.apiUrl == apiUrl && this.modelName == modelName
      ensures history == [] && availableActions == [Conversation]
      ensures system == DefaultSystem && previousGeneration == None
    {
      this.apiUrl := apiUrl;
      this.modelName := modelName;
      this.defaultSystem := DefaultSystem;
      history := [];
      availableActions := [Conversation];
      system := DefaultSystem;
      previousGeneration := None;
    }

    /** `set_system(s)`: the system line becomes `system: '<s>'`; nothing else changes. */
    method SetSystem(s: string)
      requires Valid()
      modifies this`system
      ensures Valid()
      ensures system == SystemLine(s)
      ensures Untag(system) == Some((System, s))
    {
      system := Tagged(System, s);
      UntagTagged(System, s);
    }

    /** `set_available_actions(xs)`: `xs` is appended in order; duplicates are kept. */
    method SetAvailableActions(xs: seq<string>)
      requires Valid()
      modifies this`availableActions
      ensures Valid()
      ensures availableActions == old(availableActions) + xs
      ensures availableActions[0] == Conversation
      ensures xs != [] ==> Join(availableActions, ", ") == old(Join(availableActions, ", ")) + ", " + Join(xs, ", ")
    {
      if xs != [] {
        JoinConcat(availableActions, xs, ", ");
      }
      availableActions := availableActions + xs;
    }

    /**
      `add_to_history(msg, is_bot, start)`: exactly one line is appended; with
      `start` it is the current system line verbatim, otherwise `msg` tagged as
      VIKA's or the user's.
    */
    method AddToHistory(msg: string, isBot: bool, start: bool)
      requires Valid()
      modifies this`history
      ensures Valid()
      ensures history == old(history) + [HistoryLine(system, msg, isBot, start)]
      ensures start ==> history[|history| - 1] == system
      ensures !start ==> Untag(history[|history| - 1]) == Some((if isBot then Vika else User, msg))
    {
      if start {
        history := history + [system];
      } else {
        var line := if isBot then Tagged(Vika, msg) else Tagged(User, msg);
        history := history + [line];
        HistoryLineSpeaker(system, msg, isBot);
      }
    }

    /** `set_previous_generation(msg)`. */
    method SetPreviousGeneration(msg: string)
      requires Valid()
      modifies this`previousGeneration
      ensures Valid()
      ensures previousGeneration == Some(msg)
    {
      previousGeneration := Some(msg);
    }

    /**
      `get_user_prompt(msg)`: the header, each history line after a newline,
      the action list behind the fixed "Разговор, ", then `msg`. Changes nothing.
    */
    method GetUserPrompt(msg: string) returns (prompt: string)
      ensures prompt == UserPrompt(history, availableActions, msg)
      ensures PromptHeader <= prompt
      ensures prompt[|prompt| - |msg|..] == msg
    {
      prompt := PromptHeader;
      for i := 0 to |history|
        invariant prompt == PromptHeader + HistoryBlock(history[..i])
      {
        assert history[..i + 1][..i] == history[..i];
        prompt := prompt + "\n" + history[i];
      }
      assert history[..|history|] == history;
      prompt := prompt + ActionsIntro + Join(availableActions, ", ");
      prompt := prompt + ClosingIntro + msg;
    }

    /**
      `__call__(prompt)` with the HTTP exchange abstracted: `request` is what
      would be posted, and `status` and `body` are what came back. A 200 yields
      the extracted completion text; any other status a `ValueError` naming it.
    */
    method Call(prompt: string, status: int, body: Json) returns (request: ChatRequest, r: Result<Json, PyError>)
      ensures request == ChatRequest(apiUrl, "application/json", modelName,
                                     [ChatMessage("user", UserPrompt(history, availableActions, prompt))])
      ensures status == 200 ==> r == GetTextFromResponse(body)
      ensures status != 200 ==> r == Err(ValueError(StatusErrorMessage(status)))
    {
      var userPrompt := GetUserPrompt(prompt);
      request := ChatRequest(apiUrl, "application/json", modelName, [ChatMessage("user", userPrompt)]);
      if status == 200 {
        r := GetTextFromResponse(body);
      } else {
        r := Err(ValueError(StatusErrorPrefix + IntToString(status)));
      }
    }

    /** `clear()`: back to the initial state; the result does not depend on the state before, so it is idempotent. */
    method Clear()
      requires Valid()
      modifies this
      ensures Valid() && Initial()
      ensures history == [] && availableActions == [Conversation]
      ensures system == DefaultSystem && previousGeneration == None
    {
      availableActions := [Conversation];
      history := [];
      previousGeneration := None;
      system := defaultSystem;
    }
  }
}
