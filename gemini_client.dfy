/**
 * The decision logic of the Gemini gateway (backend/gemini_client.py): which model names
 * the client is built with, how the system instruction is composed, how the conversation is
 * converted for the API, and how the attempts on the models are combined into one reply or
 * one error. A call to a model is not modelled: the outcome of each attempt is an input.
 */
module GeminiClient {
  import opened Wrappers
  import opened Text
  import Chat

  const DefaultPrimaryModel: string := "gemini-2.5-flash"
  const DefaultFallbackModel: string := "gemini-2.0-flash-exp"

  const MissingKeyMessage: string := "Missing GEMINI_API_KEY. Populate .env or environment variables."
  const NoModelMessage: string := "Không tìm thấy model Gemini hợp lệ."
  const GeminiErrorPrefix: string := "Lỗi Gemini: "
  const DefaultQuotaMessage: string := "Gemini quota exceeded."
  const EmptyHistoryMessage: string := "Conversation history is empty."
  const MissingPortionMessage: string := "Thiếu thông tin khẩu phần để hoàn tất."

  /** The fixed instruction text every model receives; its wording is not part of this model. */
  const SystemPrompt: string

  /** Python's `a or b` on optional strings: the first value that is present and non-empty. */
  function Or(a: Option<string>, b: string): (r: string)
    ensures a.Some? && a.value != "" ==> r == a.value
    ensures a.None? || a.value == "" ==> r == b
  {
    if a.Some? && a.value != "" then a.value else b
  }

  /** `PRIMARY_MODEL`: GEMINI_MODEL, else GEMINI_MODEL_PRIMARY, else the default; never empty. */
  function ResolvePrimary(geminiModel: Option<string>, geminiModelPrimary: Option<string>): (name: string)
    ensures name != ""
    ensures geminiModel.Some? && geminiModel.value != "" ==> name == geminiModel.value
    ensures (geminiModel.None? || geminiModel.value == "") && geminiModelPrimary.Some? && geminiModelPrimary.value != ""
      ==> name == geminiModelPrimary.value
    ensures (geminiModel.None? || geminiModel.value == "") && (geminiModelPrimary.None? || geminiModelPrimary.value == "")
      ==> name == DefaultPrimaryModel
  {
    Or(geminiModel, Or(geminiModelPrimary, DefaultPrimaryModel))
  }

  /** `FALLBACK_MODEL`: GEMINI_MODEL_FALLBACK, else the default; never empty. */
  function ResolveFallback(geminiModelFallback: Option<string>): (name: string)
    ensures name != ""
    ensures geminiModelFallback.Some? && geminiModelFallback.value != "" ==> name == geminiModelFallback.value
    ensures geminiModelFallback.None? || geminiModelFallback.value == "" ==> name == DefaultFallbackModel
  {
    Or(geminiModelFallback, DefaultFallbackModel)
  }

  // ---------------------------------------------------------------- the model list

  /** The candidates with empty and repeated names dropped, each name kept at its first place. */
  function Dedup(names: seq<string>): seq<string> {
    if names == [] then []
    else
      var kept := Dedup(names[..|names| - 1]);
      var name := names[|names| - 1];
      if name != "" && name !in kept then kept + [name] else kept
  }

  /** The de-duplicated list holds each non-empty candidate exactly once and nothing else. */
  lemma {:induction false} DedupProperties(names: seq<string>)
    ensures forall i, j :: 0 <= i < j < |Dedup(names)| ==> Dedup(names)[i] != Dedup(names)[j]
    ensures forall x :: x in Dedup(names) <==> x != "" && x in names
    ensures |Dedup(names)| <= |names|
  {
    if names != [] {
      var init := names[..|names| - 1];
      DedupProperties(init);
      assert names == init + [names[|names| - 1]];
    }
  }

  /** The two configured names give [primary, fallback], with an empty or repeated fallback dropped. */
  lemma DedupTwo(primary: string, fallback: string)
    ensures primary != "" && fallback != "" && primary != fallback ==> Dedup([primary, fallback]) == [primary, fallback]
    ensures primary != "" && (fallback == "" || fallback == primary) ==> Dedup([primary, fallback]) == [primary]
    ensures primary == "" && fallback != "" ==> Dedup([primary, fallback]) == [fallback]
    ensures primary == "" && fallback == "" ==> Dedup([primary, fallback]) == []
  {
    var names := [primary, fallback];
    assert names[..1] == [primary] && [primary][..0] == [];
    assert [primary][..|[primary]| - 1] == [];
    var first := Dedup([primary]);
    assert first == if primary != "" && primary !in Dedup([]) then Dedup([]) + [primary] else Dedup([]);
    assert Dedup(names) == if fallback != "" && fallback !in first then first + [fallback] else first;
  }

  /** The loop of `__init__` that collects the model names. */
  method BuildModelNames(candidates: seq<string>) returns (models: seq<string>)
    ensures models == Dedup(candidates)
  {
    models := [];
    for i := 0 to |candidates|
      invariant models == Dedup(candidates[..i])
    {
      var name := candidates[i];
      assert candidates[..i + 1][..i] == candidates[..i];
      if name != "" && name !in models {
        models := models + [name];
      }
    }
    assert candidates[..|candidates|] == candidates;
  }

  /**
   * `GeminiClient.__init__`: a missing or empty API key fails before any model name is looked at;
   * otherwise the client holds the de-duplicated [primary, fallback] list, which must not be empty.
   */
  method NewClient(apiKey: Option<string>, primary: string, fallback: string) returns (r: Result<seq<string>, string>)
    ensures apiKey.None? || apiKey.value == "" ==> r == Failure(MissingKeyMessage)
    ensures apiKey.Some? && apiKey.value != "" && Dedup([primary, fallback]) == [] ==> r == Failure(NoModelMessage)
    ensures apiKey.Some? && apiKey.value != "" && Dedup([primary, fallback]) != [] ==> r == Success(Dedup([primary, fallback]))
  {
    if apiKey.None? || apiKey.value == "" {
      return Failure(MissingKeyMessage);
    }
    var models := BuildModelNames([primary, fallback]);
    if models == [] {
      return Failure(NoModelMessage);
    }
    return Success(models);
  }

  /** With the names the environment resolves to, the client holds one or two distinct model names. */
  lemma ConfiguredModels(geminiModel: Option<string>, geminiModelPrimary: Option<string>, geminiModelFallback: Option<string>)
    ensures var names := Dedup([ResolvePrimary(geminiModel, geminiModelPrimary), ResolveFallback(geminiModelFallback)]);
      1 <= |names| <= 2 && names[0] == ResolvePrimary(geminiModel, geminiModelPrimary)
      && (|names| == 2 ==> names[0] != names[1])
  {
    DedupTwo(ResolvePrimary(geminiModel, geminiModelPrimary), ResolveFallback(geminiModelFallback));
  }

  // ---------------------------------------------------------------- the instruction

  /** `_build_model`: the system prompt, followed by a blank line and the stripped extra instruction when one is given. */
  function BuildInstruction(extraInstruction: Option<string>): (instruction: string)
    ensures SystemPrompt <= instruction
    ensures extraInstruction.None? || extraInstruction.value == "" ==> instruction == SystemPrompt
    ensures extraInstruction.Some? && extraInstruction.value != "" ==>
      instruction[|SystemPrompt|..] == "\n\n" + Strip(extraInstruction.value)
  {
    if extraInstruction.Some? && extraInstruction.value != "" then
      var instruction := SystemPrompt + "\n\n" + Strip(extraInstruction.value);
      assert instruction[|SystemPrompt|..] == "\n\n" + Strip(extraInstruction.value);
      instruction
    else
      SystemPrompt
  }

  /** An extra instruction of white space alone still adds the blank line. */
  lemma BlankExtraInstruction()
    ensures BuildInstruction(Some(" ")) == SystemPrompt + "\n\n"
  {
    assert Strip(" ") == "";
  }

  // ---------------------------------------------------------------- the fallback loop

  /**
   * What one attempt on one model gives: a reply, a quota refusal, another API error, or another
   * exception, which records whether it is a `ValueError` (the one class an endpoint treats apart).
   */
  datatype Attempt =
    | Succeeded(text: string)
    | QuotaExhausted(message: string)
    | ApiError(message: string)
    | Raised(message: string, valueError: bool)

  /**
   * The errors the gateway raises: quota, a wrapped API error, bad input (a `ValueError`), or an
   * exception passed through with its `ValueError` mark.
   */
  datatype GatewayError =
    | QuotaExceeded(detail: string)
    | GeminiError(detail: string)
    | InvalidInput(detail: string)
    | Other(detail: string, valueError: bool)

  /** The gateway errors that are Python `ValueError`s. */
  predicate IsValueError(e: GatewayError) {
    e.InvalidInput? || (e.Other? && e.valueError)
  }

  /** The attempts the loop catches and goes on after. */
  predicate Caught(a: Attempt) {
    a.QuotaExhausted? || a.ApiError?
  }

  /** The index of the first attempt the loop does not go on after, or the number of attempts. */
  function FirstStop(attempts: seq<Attempt>): (k: nat)
    ensures k <= |attempts|
    ensures forall j :: 0 <= j < k ==> Caught(attempts[j])
    ensures k < |attempts| ==> !Caught(attempts[k])
  {
    if attempts == [] || !Caught(attempts[0]) then 0 else 1 + FirstStop(attempts[1..])
  }

  /** The message of the last quota refusal, if any. */
  function LastQuota(attempts: seq<Attempt>): Option<string> {
    if attempts == [] then None
    else if attempts[|attempts| - 1].QuotaExhausted? then Some(attempts[|attempts| - 1].message)
    else LastQuota(attempts[..|attempts| - 1])
  }

  /** The message of the last other API error, if any. */
  function LastApiError(attempts: seq<Attempt>): Option<string> {
    if attempts == [] then None
    else if attempts[|attempts| - 1].ApiError? then Some(attempts[|attempts| - 1].message)
    else LastApiError(attempts[..|attempts| - 1])
  }

  /**
   * What `_generate_with_fallback` gives for the outcomes of the models in list order: the stripped
   * reply of the first model that answers; an exception that is not an API error passes through;
   * when every model fails, a quota refusal outranks other API errors, and no model at all counts
   * as a quota refusal.
   */
  function FallbackOutcome(attempts: seq<Attempt>): Result<string, GatewayError> {
    var k := FirstStop(attempts);
    if k < |attempts| then
      if attempts[k].Succeeded? then Success(Strip(attempts[k].text)) else Failure(Other(attempts[k].message, attempts[k].valueError))
    else if LastQuota(attempts).Some? then Failure(QuotaExceeded(LastQuota(attempts).value))
    else if LastApiError(attempts).Some? then Failure(GeminiError(GeminiErrorPrefix + LastApiError(attempts).value))
    else Failure(QuotaExceeded(DefaultQuotaMessage))
  }

  /** How many models are called: up to and including the first one the loop does not go on after. */
  function Tried(attempts: seq<Attempt>): nat {
    if FirstStop(attempts) < |attempts| then FirstStop(attempts) + 1 else |attempts|
  }

  /**
   * `_generate_with_fallback`: tries the models in order, remembering the last quota refusal and the
   * last other API error, and stops at the first model that answers or raises anything else.
   */
  method GenerateWithFallback(attempts: seq<Attempt>) returns (r: Result<string, GatewayError>, tried: nat)
    ensures r == FallbackOutcome(attempts)
    ensures tried == Tried(attempts)
  {
    var quotaExc: Option<string> := None;
    var lastExc: Option<string> := None;
    var i := 0;
    while i < |attempts| && Caught(attempts[i])
      invariant i <= FirstStop(attempts)
      invariant quotaExc == LastQuota(attempts[..i])
      invariant lastExc == LastApiError(attempts[..i])
    {
      assert attempts[..i + 1][..i] == attempts[..i];
      if attempts[i].QuotaExhausted? {
        quotaExc := Some(attempts[i].message);
      } else {
        lastExc := Some(attempts[i].message);
      }
      i := i + 1;
    }
    if i < |attempts| {
      tried := i + 1;
      if attempts[i].Succeeded? {
        r := Success(Strip(attempts[i].text));
      } else {
        r := Failure(Other(attempts[i].message, attempts[i].valueError));
      }
      return;
    }
    assert attempts[..i] == attempts;
    tried := i;
    if quotaExc.Some? {
      r := Failure(QuotaExceeded(quotaExc.value));
    } else if lastExc.Some? {
      r := Failure(GeminiError(GeminiErrorPrefix + lastExc.value));
    } else {
      r := Failure(QuotaExceeded(DefaultQuotaMessage));
    }
  }

  /** The first model that answers decides the reply, and the models after it are never called. */
  lemma FirstAnswerWins(failed: seq<Attempt>, text: string, later: seq<Attempt>)
    requires forall j :: 0 <= j < |failed| ==> Caught(failed[j])
    ensures FallbackOutcome(failed + [Succeeded(text)] + later) == Success(Strip(text))
    ensures Tried(failed + [Succeeded(text)] + later) == |failed| + 1
  {
    var attempts := failed + [Succeeded(text)] + later;
    var k := FirstStop(attempts);
    assert attempts[|failed|] == Succeeded(text);
    assert forall j :: 0 <= j < |failed| ==> attempts[j] == failed[j];
  }

  /**
   * An exception other than an API error ends the loop at once and reaches the caller unchanged,
   * its `ValueError` mark included; the models after it are never called.
   */
  lemma RaisedPassesThrough(failed: seq<Attempt>, message: string, valueError: bool, later: seq<Attempt>)
    requires forall j :: 0 <= j < |failed| ==> Caught(failed[j])
    ensures FallbackOutcome(failed + [Raised(message, valueError)] + later) == Failure(Other(message, valueError))
    ensures Tried(failed + [Raised(message, valueError)] + later) == |failed| + 1
  {
    var attempts := failed + [Raised(message, valueError)] + later;
    var k := FirstStop(attempts);
    assert attempts[|failed|] == Raised(message, valueError);
    assert forall j :: 0 <= j < |failed| ==> attempts[j] == failed[j];
  }

  lemma {:induction false} LastQuotaPresent(attempts: seq<Attempt>, j: nat)
    requires j < |attempts| && attempts[j].QuotaExhausted?
    ensures LastQuota(attempts).Some?
  {
    if j < |attempts| - 1 {
      LastQuotaPresent(attempts[..|attempts| - 1], j);
    }
  }

  /** When every model fails and one of them hit its quota, the result is a quota refusal, whatever the others raised. */
  lemma QuotaTakesPrecedence(attempts: seq<Attempt>, j: nat)
    requires forall i :: 0 <= i < |attempts| ==> Caught(attempts[i])
    requires j < |attempts| && attempts[j].QuotaExhausted?
    ensures FallbackOutcome(attempts).Failure? && FallbackOutcome(attempts).error.QuotaExceeded?
    ensures Tried(attempts) == |attempts|
  {
    LastQuotaPresent(attempts, j);
  }

  lemma {:induction false} NoQuotaAbsent(attempts: seq<Attempt>)
    requires forall i :: 0 <= i < |attempts| ==> attempts[i].ApiError?
    ensures LastQuota(attempts).None?
  {
    if attempts != [] {
      NoQuotaAbsent(attempts[..|attempts| - 1]);
    }
  }

  /** When every model fails with an API error other than quota, the last error is raised behind the "Lỗi Gemini: " prefix. */
  lemma AllApiErrors(attempts: seq<Attempt>)
    requires attempts != [] && forall i :: 0 <= i < |attempts| ==> attempts[i].ApiError?
    ensures FallbackOutcome(attempts) == Failure(GeminiError(GeminiErrorPrefix + attempts[|attempts| - 1].message))
  {
    NoQuotaAbsent(attempts);
  }

  /** With no model at all nothing is called and the result is the default quota refusal. */
  lemma NoModelsMeansQuota()
    ensures FallbackOutcome([]) == Failure(QuotaExceeded(DefaultQuotaMessage))
    ensures Tried([]) == 0
  {
  }

  // ---------------------------------------------------------------- the conversation

  /** One entry of the converted history: the API role and the text part. */
  datatype Content = Content(role: string, part: string)

  /** The API role of a turn: "user" for a user turn or a turn without role, "model" for any other. */
  function ApiRole(m: Chat.Message): (role: string)
    ensures role == "user" <==> m.role.None? || m.role.value == "user"
    ensures role == "user" || role == "model"
  {
    if m.role.None? || m.role.value == "user" then "user" else "model"
  }

  /** The stripped content of a turn; a turn without content has none. */
  function StrippedContent(m: Chat.Message): string {
    if m.content.Some? then Strip(m.content.value) else ""
  }

  /** The entry one turn converts to: none when its stripped content is empty. */
  function ConvertOne(m: Chat.Message): seq<Content> {
    if StrippedContent(m) == "" then [] else [Content(ApiRole(m), StrippedContent(m))]
  }

  /** The converted history: one entry per turn whose stripped content is not empty, in order. */
  function Converted(messages: seq<Chat.Message>): seq<Content> {
    if messages == [] then []
    else Converted(messages[..|messages| - 1]) + ConvertOne(messages[|messages| - 1])
  }

  /** `_convert_messages`: the loop that builds the converted history. */
  method ConvertMessages(messages: seq<Chat.Message>) returns (converted: seq<Content>)
    ensures converted == Converted(messages)
  {
    converted := [];
    for i := 0 to |messages|
      invariant converted == Converted(messages[..i])
    {
      var message := messages[i];
      var role := ApiRole(message);
      var content := StrippedContent(message);
      assert messages[..i + 1][..i] == messages[..i];
      if content != "" {
        converted := converted + [Content(role, content)];
      }
    }
    assert messages[..|messages|] == messages;
  }

  /** Converting a joined conversation converts each part in turn: the relative order of the turns is kept. */
  lemma {:induction false} ConvertedAppend(a: seq<Chat.Message>, b: seq<Chat.Message>)
    ensures Converted(a + b) == Converted(a) + Converted(b)
  {
    if b != [] {
      var init := b[..|b| - 1];
      var last := b[|b| - 1];
      assert a + b == (a + init) + [last];
      assert (a + b)[..|a + b| - 1] == a + init;
      assert (a + b)[|a + b| - 1] == last;
      ConvertedAppend(a, init);
      assert Converted(a + b) == Converted(a + init) + ConvertOne(last);
      assert Converted(b) == Converted(init) + ConvertOne(last);
    } else {
      assert a + b == a;
    }
  }

  /** An entry the API accepts: role "user" or "model", and a non-empty text with nothing left to strip. */
  predicate WellFormed(c: Content) {
    (c.role == "user" || c.role == "model") && c.part != "" && Strip(c.part) == c.part
  }

  /** One turn converts to at most one entry, and that entry is well formed. */
  lemma ConvertOneShape(m: Chat.Message)
    ensures |ConvertOne(m)| <= 1
    ensures forall k :: 0 <= k < |ConvertOne(m)| ==> WellFormed(ConvertOne(m)[k])
  {
    if m.content.Some? {
      TrimIdempotent(m.content.value, IsPyWhitespace);
    }
  }

  /** The converted history is no longer than the conversation, and each of its entries is well formed. */
  lemma {:induction false} ConvertedShape(messages: seq<Chat.Message>)
    ensures |Converted(messages)| <= |messages|
    ensures forall k :: 0 <= k < |Converted(messages)| ==> WellFormed(Converted(messages)[k])
  {
    if messages != [] {
      var init := Converted(messages[..|messages| - 1]);
      var one := ConvertOne(messages[|messages| - 1]);
      ConvertedShape(messages[..|messages| - 1]);
      ConvertOneShape(messages[|messages| - 1]);
      forall k | 0 <= k < |init + one| ensures WellFormed((init + one)[k]) {
        if k >= |init| {
          assert (init + one)[k] == one[k - |init|];
        }
      }
    }
  }

  /** A single turn converts to one entry exactly when its stripped content is not empty. */
  lemma ConvertedSingle(m: Chat.Message)
    ensures StrippedContent(m) == "" ==> Converted([m]) == []
    ensures StrippedContent(m) != "" ==> Converted([m]) == [Content(ApiRole(m), StrippedContent(m))]
  {
    assert [m][..0] == [];
  }

  /** `generate_chat_response`: an empty converted history is refused before any model is called. */
  method GenerateChatResponse(messages: seq<Chat.Message>, attempts: seq<Attempt>) returns (r: Result<string, GatewayError>, tried: nat)
    ensures Converted(messages) == [] ==> r == Failure(InvalidInput(EmptyHistoryMessage)) && tried == 0
    ensures Converted(messages) != [] ==> r == FallbackOutcome(attempts) && tried == Tried(attempts)
  {
    var contents := ConvertMessages(messages);
    if contents == [] {
      return Failure(InvalidInput(EmptyHistoryMessage)), 0;
    }
    r, tried := GenerateWithFallback(attempts);
  }

  /** `finalize_meal`: clarifications of white space alone are refused before any model is called. */
  method FinalizeMeal(clarifications: string, attempts: seq<Attempt>) returns (r: Result<string, GatewayError>, tried: nat)
    ensures Strip(clarifications) == "" ==> r == Failure(InvalidInput(MissingPortionMessage)) && tried == 0
    ensures Strip(clarifications) != "" ==> r == FallbackOutcome(attempts) && tried == Tried(attempts)
  {
    if Strip(clarifications) == "" {
      return Failure(InvalidInput(MissingPortionMessage)), 0;
    }
    r, tried := GenerateWithFallback(attempts);
  }

  /** `analyze_meal`: no check of its own; the outcome is that of the fallback loop. */
  method AnalyzeMeal(attempts: seq<Attempt>) returns (r: Result<string, GatewayError>, tried: nat)
    ensures r == FallbackOutcome(attempts) && tried == Tried(attempts)
  {
    r, tried := GenerateWithFallback(attempts);
  }
}
