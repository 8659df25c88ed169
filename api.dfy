/**
 * The decisions of the HTTP layer (backend/main.py): the CORS settings read from the
 * environment, the request validators, and the response each endpoint gives for the outcome
 * of its call to the Gemini gateway.
 */
module Api {
  import opened Wrappers
  import opened Text
  import Chat
  import MealAnalysis
  import GeminiClient

  type HttpError = MealAnalysis.HttpError
  type GatewayError = GeminiClient.GatewayError

  const InternalError: int := 500
  const BadRequest: int := 400

  // ---------------------------------------------------------------- CORS settings

  /** The wildcard origin. */
  const Wildcard: string := "*"

  /** The stripped pieces that are not empty, in order. */
  function NonEmptyStripped(pieces: seq<string>): seq<string> {
    if pieces == [] then []
    else
      var last := Strip(pieces[|pieces| - 1]);
      NonEmptyStripped(pieces[..|pieces| - 1]) + (if last == "" then [] else [last])
  }

  /** `origins`: ALLOWED_ORIGINS split at commas, each piece stripped, empty pieces dropped; unset or empty gives the wildcard. */
  function ParseOrigins(allowedOrigins: Option<string>): (origins: seq<string>)
    ensures allowedOrigins.None? || allowedOrigins.value == "" ==> origins == [Wildcard]
    ensures allowedOrigins.Some? && allowedOrigins.value != "" ==> origins == NonEmptyStripped(SplitOn(allowedOrigins.value, ','))
    ensures forall k :: 0 <= k < |origins| ==> origins[k] != "" && Strip(origins[k]) == origins[k]
  {
    if allowedOrigins.Some? && allowedOrigins.value != "" then
      NonEmptyStrippedShape(SplitOn(allowedOrigins.value, ','));
      NonEmptyStripped(SplitOn(allowedOrigins.value, ','))
    else
      assert Strip(Wildcard) == Wildcard;
      [Wildcard]
  }

  /** Every kept piece is a non-empty stripped piece of the input, and none is longer than the input has pieces. */
  lemma {:induction false} NonEmptyStrippedShape(pieces: seq<string>)
    ensures |NonEmptyStripped(pieces)| <= |pieces|
    ensures forall k :: 0 <= k < |NonEmptyStripped(pieces)| ==>
      NonEmptyStripped(pieces)[k] != "" && Strip(NonEmptyStripped(pieces)[k]) == NonEmptyStripped(pieces)[k]
  {
    if pieces != [] {
      var init := NonEmptyStripped(pieces[..|pieces| - 1]);
      NonEmptyStrippedShape(pieces[..|pieces| - 1]);
      TrimIdempotent(pieces[|pieces| - 1], IsPyWhitespace);
    }
  }

  /** Pieces already non-empty and stripped are all kept, unchanged and in order. */
  lemma {:induction false} NonEmptyStrippedKeeps(pieces: seq<string>)
    requires forall k :: 0 <= k < |pieces| ==> pieces[k] != "" && Strip(pieces[k]) == pieces[k]
    ensures NonEmptyStripped(pieces) == pieces
  {
    if pieces != [] {
      NonEmptyStrippedKeeps(pieces[..|pieces| - 1]);
      assert pieces[..|pieces| - 1] + [pieces[|pieces| - 1]] == pieces;
    }
  }

  /** A list of origins written out joined by commas is read back as the same list. */
  lemma OriginsRoundTrip(origins: seq<string>)
    requires origins != []
    requires forall k :: 0 <= k < |origins| ==> origins[k] != "" && Strip(origins[k]) == origins[k] && ',' !in origins[k]
    ensures ParseOrigins(Some(JoinWith(origins, ','))) == origins
  {
    SplitJoin(origins, ',');
    NonEmptyStrippedKeeps(origins);
    if |origins| > 1 {
      assert JoinWith(origins, ',') == origins[0] + [','] + JoinWith(origins[1..], ',');
    }
  }

  /** ALLOW_CREDENTIALS with its default "false" when unset. */
  function CredentialsFlag(allowCredentials: Option<string>): string {
    if allowCredentials.Some? then allowCredentials.value else "false"
  }

  /** `allow_credentials`: the flag lowers to "true", and is switched off when the parsed origins hold the wildcard. */
  function AllowCredentials(allowCredentials: Option<string>, origins: seq<string>): (r: bool)
    ensures r ==> Wildcard !in origins
    ensures allowCredentials.None? ==> !r
    ensures Wildcard !in origins ==> (r <==> Lower(CredentialsFlag(allowCredentials)) == "true")
  {
    LowerFalse();
    var enabled := Lower(CredentialsFlag(allowCredentials)) == "true";
    if Wildcard in origins then false else enabled
  }

  lemma LowerFalse()
    ensures Lower("false") == "false"
  {
  }

  /** The flag is read without regard to letter case. */
  lemma CredentialsAnyCase()
    ensures AllowCredentials(Some("TRUE"), ["https://a.vn"])
  {
    assert Lower("TRUE") == "true";
    assert Wildcard != "https://a.vn";
  }

  /** The settings handed to the CORS middleware. */
  datatype Cors = Cors(allowOrigins: seq<string>, allowCredentials: bool)

  /** `allow_origins`: the parsed origins, or the wildcard when none remain. */
  function MiddlewareOrigins(origins: seq<string>): (r: seq<string>)
    ensures r != []
    ensures origins != [] ==> r == origins
    ensures origins == [] ==> r == [Wildcard]
  {
    if origins == [] then [Wildcard] else origins
  }

  /**
   * The CORS settings as the code computes them: the credentials rule looks at the parsed
   * origins, while the middleware may receive the wildcard in their place.
   */
  function CorsAsWritten(allowedOrigins: Option<string>, allowCredentials: Option<string>): (c: Cors)
    ensures c.allowOrigins == MiddlewareOrigins(ParseOrigins(allowedOrigins))
    ensures c.allowCredentials == AllowCredentials(allowCredentials, ParseOrigins(allowedOrigins))
    ensures c.allowOrigins != []
    ensures c.allowCredentials ==> Wildcard !in ParseOrigins(allowedOrigins)
  {
    var origins := ParseOrigins(allowedOrigins);
    Cors(MiddlewareOrigins(origins), AllowCredentials(allowCredentials, origins))
  }

  /** ALLOWED_ORIGINS="," parses to no origin at all. */
  lemma CommaParsesToNothing()
    ensures ParseOrigins(Some(",")) == []
  {
    assert SplitOn(",", ',') == ["", ""];
    assert Strip("") == "";
    assert SplitOn(",", ',')[..1] == [""];
  }

  /** With ALLOWED_ORIGINS="," and ALLOW_CREDENTIALS=true the middleware gets the wildcard together with credentials. */
  lemma WildcardWithCredentials()
    ensures CorsAsWritten(Some(","), Some("true")) == Cors([Wildcard], true)
  {
    CommaParsesToNothing();
    LowerTrue();
    assert AllowCredentials(Some("true"), []);
  }

  lemma LowerTrue()
    ensures Lower("true") == "true"
  {
    forall c | c in "true" ensures LowerChar(c) == c { }
    LowerOfLowerCase("true");
  }

  /** The settings with the credentials rule applied to the origins the middleware receives. */
  function CorsCorrected(allowedOrigins: Option<string>, allowCredentials: Option<string>): (c: Cors)
    ensures c.allowOrigins == MiddlewareOrigins(ParseOrigins(allowedOrigins))
    ensures c.allowCredentials == AllowCredentials(allowCredentials, c.allowOrigins)
    ensures c.allowCredentials ==> Wildcard !in c.allowOrigins
  {
    var origins := MiddlewareOrigins(ParseOrigins(allowedOrigins));
    Cors(origins, AllowCredentials(allowCredentials, origins))
  }

  /** The wildcard never goes with credentials, and whenever some origin is parsed the settings agree with the code as written. */
  lemma CorsNeverWildcardWithCredentials(allowedOrigins: Option<string>, allowCredentials: Option<string>)
    ensures Wildcard in CorsCorrected(allowedOrigins, allowCredentials).allowOrigins
      ==> !CorsCorrected(allowedOrigins, allowCredentials).allowCredentials
    ensures ParseOrigins(allowedOrigins) != []
      ==> CorsCorrected(allowedOrigins, allowCredentials) == CorsAsWritten(allowedOrigins, allowCredentials)
  {
  }

  // ---------------------------------------------------------------- request validation

  /** A chat turn as the API receives it. */
  datatype ApiMessage = ApiMessage(role: string, content: string)

  /** The reasons a request field is refused (status 422). */
  datatype FieldError = RoleMismatch | BlankContent(detail: string) | TooShort(minLength: nat) | TooFewWords(detail: string)

  const BlankContentMessage: string := "Nội dung tin nhắn không được để trống."
  const TooFewWordsMessage: string := "Vui lòng mô tả chi tiết khẩu phần trước khi tính dinh dưỡng."
  const MinClarificationLength: nat := 10
  const MinClarificationWords: nat := 5

  /** The two roles `^(user|assistant)$` admits. */
  predicate KnownRole(role: string) {
    role == "user" || role == "assistant"
  }

  /** A stored chat turn: a known role and non-empty content with nothing left to strip. */
  predicate ValidMessage(m: ApiMessage) {
    KnownRole(m.role) && m.content != "" && Strip(m.content) == m.content
  }

  /**
   * `Message`: the role must match `^(user|assistant)$` and the content must not be empty or
   * white space; both fields are checked and their errors reported in field order; the content
   * is stored stripped.
   */
  function ValidateMessage(role: string, content: string): (r: Result<ApiMessage, seq<FieldError>>)
    ensures r.Success? <==> KnownRole(role) && Strip(content) != ""
    ensures r.Success? ==> r.value == ApiMessage(role, Strip(content)) && ValidMessage(r.value)
    ensures r.Failure? ==> r.error == (if KnownRole(role) then [] else [RoleMismatch])
                                      + (if Strip(content) != "" then [] else [BlankContent(BlankContentMessage)])
  {
    TrimIdempotent(content, IsPyWhitespace);
    var roleErrors := if KnownRole(role) then [] else [RoleMismatch];
    var contentErrors := if content == "" || Strip(content) == "" then [BlankContent(BlankContentMessage)] else [];
    if roleErrors + contentErrors == [] then Success(ApiMessage(role, Strip(content)))
    else Failure(roleErrors + contentErrors)
  }

  /** `to_guard` / `dict()`: the form the chat rules and the gateway read a turn in. */
  function ToGuard(m: ApiMessage): Chat.Message {
    Chat.Message(Some(m.role), Some(m.content))
  }

  function ToGuardAll(msgs: seq<ApiMessage>): (r: seq<Chat.Message>)
    ensures |r| == |msgs| && forall k :: 0 <= k < |msgs| ==> r[k] == ToGuard(msgs[k])
  {
    if msgs == [] then [] else ToGuardAll(msgs[..|msgs| - 1]) + [ToGuard(msgs[|msgs| - 1])]
  }

  /** The entry a validated turn is sent as: users stay "user", assistants become "model". */
  function SentAs(m: ApiMessage): GeminiClient.Content {
    GeminiClient.Content(if m.role == "user" then "user" else "model", m.content)
  }

  /** A validated turn converts to exactly its own entry. */
  lemma ValidTurnConverts(m: ApiMessage)
    requires ValidMessage(m)
    ensures GeminiClient.ConvertOne(ToGuard(m)) == [SentAs(m)]
  {
  }

  /**
   * Validated turns survive the conversion for the gateway one to one: every turn is kept, users
   * stay "user" and assistants become "model". So the gateway refuses a validated chat only when it has no turn.
   */
  lemma {:induction false} ValidatedTurnsConvert(msgs: seq<ApiMessage>)
    requires forall k :: 0 <= k < |msgs| ==> ValidMessage(msgs[k])
    ensures |GeminiClient.Converted(ToGuardAll(msgs))| == |msgs|
    ensures forall k :: 0 <= k < |msgs| ==> GeminiClient.Converted(ToGuardAll(msgs))[k] == SentAs(msgs[k])
  {
    if msgs != [] {
      var init := msgs[..|msgs| - 1];
      var last := msgs[|msgs| - 1];
      ValidatedTurnsConvert(init);
      ValidTurnConverts(last);
      var guards := ToGuardAll(msgs);
      assert guards[..|guards| - 1] == ToGuardAll(init);
      var before := GeminiClient.Converted(ToGuardAll(init));
      assert GeminiClient.Converted(guards) == before + [SentAs(last)];
      forall k | 0 <= k < |msgs| ensures (before + [SentAs(last)])[k] == SentAs(msgs[k]) {
        if k < |init| {
          assert msgs[k] == init[k];
        }
      }
    }
  }

  /**
   * `MealFinalizeRequest`: the raw value must have at least 10 characters (checked first, by the
   * field constraint); then its stripped form must hold at least 5 words; the stripped form is stored.
   */
  function ValidateFinalize(clarifications: string): (r: Result<string, FieldError>)
    ensures r.Success? <==> |clarifications| >= MinClarificationLength && |Words(Strip(clarifications))| >= MinClarificationWords
    ensures r.Success? ==> r.value == Strip(clarifications)
    ensures |clarifications| < MinClarificationLength ==> r == Failure(TooShort(MinClarificationLength))
  {
    if |clarifications| < MinClarificationLength then Failure(TooShort(MinClarificationLength))
    else if |Words(Strip(clarifications))| < MinClarificationWords then Failure(TooFewWords(TooFewWordsMessage))
    else Success(Strip(clarifications))
  }

  /** A validated clarification is never blank, so the gateway's own blank check cannot refuse it. */
  lemma FinalizeNeverBlank(clarifications: string)
    requires ValidateFinalize(clarifications).Success?
    ensures Strip(ValidateFinalize(clarifications).value) != ""
    ensures Strip(Strip(clarifications)) == Strip(clarifications)
  {
    WordsNonEmptyStrip(Strip(clarifications));
    TrimIdempotent(clarifications, IsPyWhitespace);
  }

  /**
   * The length bound is checked before stripping: a value of 9 characters with five words in it
   * (such as "a b c d e") passes once a space puts it at 10, and is stored with 9.
   */
  lemma StoredMayBeShort(stored: string)
    requires |stored| == MinClarificationLength - 1 && |Words(stored)| >= MinClarificationWords
    requires !IsPyWhitespace(stored[0]) && !IsPyWhitespace(stored[|stored| - 1])
    ensures ValidateFinalize([' '] + stored) == Success(stored)
    ensures |ValidateFinalize([' '] + stored).value| < MinClarificationLength
  {
    StripLeadingBlank(' ', stored);
    StripNoEdges(stored);
    assert Strip([' '] + stored) == stored;
  }

  // ---------------------------------------------------------------- endpoints

  /** `str()` of the HTTP error `acquire_client` raises when the client cannot be built. */
  function ConfigErrorText(reason: string): string {
    "500: Gemini chưa được cấu hình: " + reason
  }

  /** `str()` of a gateway error: its message. */
  function ErrorText(e: GatewayError): string {
    e.detail
  }

  const ChatFailurePrefix: string := "Lỗi khi gọi Gemini: "
  const MealFailurePrefix: string := "Lỗi khi phân tích bữa ăn: "
  const FinalizeFailurePrefix: string := "Lỗi khi tính dinh dưỡng: "
  /** The fixed apologies sent when the quota is exhausted (long texts written in pieces). */
  const ChatQuotaApology: string := "Máy chủ tạm thời hết hạn mức Gemini. Bạn vui lòng chờ ít phút hoặc cấu hình API key còn hạn để "
    + "mình có thể tiếp tục hỗ trợ nhé!"
  const MealQuotaApology: string := "Hiện hệ thống hết hạn mức xử lý ảnh từ Gemini. Vui lòng thử lại sau ít phút hoặc thay khóa API "
    + "khác để tiếp tục phân tích bữa ăn."
  const FinalizeQuotaApology: string := "Máy chủ hết hạn mức tính toán dinh dưỡng trên Gemini. Hãy chờ hệ thống làm mới quota hoặc dùng "
    + "API key khác rồi yêu cầu lại giúp mình nhé."

  /** The body of a chat reply. */
  datatype ChatResponse = ChatResponse(reply: string, guardrailTriggered: bool)

  /**
   * `/api/chat`, given whether the client could be built and what the gateway gave: a reply is
   * passed on with the guardrail flag down; a quota refusal becomes the fixed apology with the flag
   * up; every other failure, a missing configuration or an empty conversation included, is a 500.
   */
  function ChatEndpoint(client: Result<seq<string>, string>, gateway: Result<string, GatewayError>): (r: Result<ChatResponse, HttpError>)
    ensures client.Success? && gateway.Success? ==> r == Success(ChatResponse(gateway.value, false))
    ensures client.Success? && gateway.Failure? && gateway.error.QuotaExceeded? ==> r == Success(ChatResponse(ChatQuotaApology, true))
    ensures r.Failure? <==> client.Failure? || (gateway.Failure? && !gateway.error.QuotaExceeded?)
    ensures r.Failure? ==> r.error.status == InternalError && ChatFailurePrefix <= r.error.detail
  {
    if client.Failure? then Failure(MealAnalysis.HttpError(InternalError, ChatFailurePrefix + ConfigErrorText(client.error)))
    else match gateway
      case Success(reply) => Success(ChatResponse(reply, false))
      case Failure(QuotaExceeded(_)) => Success(ChatResponse(ChatQuotaApology, true))
      case Failure(e) => Failure(MealAnalysis.HttpError(InternalError, ChatFailurePrefix + ErrorText(e)))
  }

  /**
   * Validated turns give the gateway an empty history only for an empty request, which the
   * gateway's own check refuses and the client receives as a 500, not a 400.
   */
  lemma EmptyChatIsServerError(models: seq<string>, msgs: seq<ApiMessage>)
    requires forall k :: 0 <= k < |msgs| ==> ValidMessage(msgs[k])
    ensures GeminiClient.Converted(ToGuardAll(msgs)) == [] <==> msgs == []
    ensures ChatEndpoint(Success(models), Failure(GeminiClient.InvalidInput(GeminiClient.EmptyHistoryMessage)))
      == Failure(MealAnalysis.HttpError(InternalError, ChatFailurePrefix + GeminiClient.EmptyHistoryMessage))
  {
    var e := GeminiClient.InvalidInput(GeminiClient.EmptyHistoryMessage);
    assert ChatEndpoint(Success(models), Failure(e)) == Failure(MealAnalysis.HttpError(InternalError, ChatFailurePrefix + ErrorText(e)));
    if msgs != [] {
      ValidatedTurnsConvert(msgs);
    }
  }

  /** The body of a meal analysis. */
  datatype AnalysisResponse = AnalysisResponse(reply: string, needsFollowUp: bool)

  /**
   * `/api/analyze-meal`: the upload checks come first and their 400 is returned as is; then a
   * reply is passed on with its follow-up flag, a quota refusal becomes the fixed apology with the
   * flag up, and every other failure is a 500.
   */
  function AnalyzeMealEndpoint(contentType: Option<string>, data: seq<MealAnalysis.byte>,
                               client: Result<seq<string>, string>, gateway: Result<string, GatewayError>): (r: Result<AnalysisResponse, HttpError>)
    ensures MealAnalysis.ReadImageBytes(contentType, data).Failure? ==> r == Failure(MealAnalysis.ReadImageBytes(contentType, data).error)
    ensures MealAnalysis.ReadImageBytes(contentType, data).Success? && client.Success? && gateway.Success? ==>
      r == Success(AnalysisResponse(gateway.value, MealAnalysis.DetectFollowUpNeed(Some(gateway.value))))
    ensures MealAnalysis.ReadImageBytes(contentType, data).Success? && client.Success? && gateway.Failure? && gateway.error.QuotaExceeded? ==>
      r == Success(AnalysisResponse(MealQuotaApology, true))
    ensures MealAnalysis.ReadImageBytes(contentType, data).Success? ==>
      (r.Failure? <==> client.Failure? || (gateway.Failure? && !gateway.error.QuotaExceeded?))
    ensures r.Failure? && MealAnalysis.ReadImageBytes(contentType, data).Success? ==>
      r.error.status == InternalError && MealFailurePrefix <= r.error.detail
  {
    var upload := MealAnalysis.ReadImageBytes(contentType, data);
    if upload.Failure? then Failure(upload.error)
    else if client.Failure? then Failure(MealAnalysis.HttpError(InternalError, MealFailurePrefix + ConfigErrorText(client.error)))
    else match gateway
      case Success(reply) => Success(AnalysisResponse(reply, MealAnalysis.DetectFollowUpNeed(Some(reply))))
      case Failure(QuotaExceeded(_)) => Success(AnalysisResponse(MealQuotaApology, true))
      case Failure(e) => Failure(MealAnalysis.HttpError(InternalError, MealFailurePrefix + ErrorText(e)))
  }

  /** A refused upload is answered the same whatever the client and the gateway would have done. */
  lemma UploadCheckedFirst(contentType: Option<string>, data: seq<MealAnalysis.byte>,
                           client1: Result<seq<string>, string>, gateway1: Result<string, GatewayError>,
                           client2: Result<seq<string>, string>, gateway2: Result<string, GatewayError>)
    requires MealAnalysis.ReadImageBytes(contentType, data).Failure?
    ensures AnalyzeMealEndpoint(contentType, data, client1, gateway1) == AnalyzeMealEndpoint(contentType, data, client2, gateway2)
    ensures AnalyzeMealEndpoint(contentType, data, client1, gateway1).error.status == BadRequest
  {
  }

  /** An empty reply and a quota refusal both ask the user to follow up. */
  lemma EmptyReplyNeedsFollowUp(contentType: Option<string>, data: seq<MealAnalysis.byte>, models: seq<string>)
    requires MealAnalysis.ReadImageBytes(contentType, data).Success?
    ensures AnalyzeMealEndpoint(contentType, data, Success(models), Success("")) == Success(AnalysisResponse("", true))
  {
  }

  /**
   * `/api/meal-finalize`: a reply is passed on; a quota refusal becomes the fixed apology without an
   * error; a `ValueError` from the gateway (its own input check, or one raised by a model call) is
   * a 400 with its message; every other failure, a missing configuration included, is a 500.
   */
  function FinalizeEndpoint(client: Result<seq<string>, string>, gateway: Result<string, GatewayError>): (r: Result<string, HttpError>)
    ensures client.Success? && gateway.Success? ==> r == Success(gateway.value)
    ensures client.Success? && gateway.Failure? && gateway.error.QuotaExceeded? ==> r == Success(FinalizeQuotaApology)
    ensures r.Failure? <==> client.Failure? || (gateway.Failure? && !gateway.error.QuotaExceeded?)
    ensures client.Success? && gateway.Failure? && GeminiClient.IsValueError(gateway.error) ==>
      r == Failure(MealAnalysis.HttpError(BadRequest, gateway.error.detail))
    ensures client.Failure? || (gateway.Failure? && !gateway.error.QuotaExceeded? && !GeminiClient.IsValueError(gateway.error)) ==>
      r.Failure? && r.error.status == InternalError && FinalizeFailurePrefix <= r.error.detail
  {
    if client.Failure? then Failure(MealAnalysis.HttpError(InternalError, FinalizeFailurePrefix + ConfigErrorText(client.error)))
    else match gateway
      case Success(reply) => Success(reply)
      case Failure(QuotaExceeded(_)) => Success(FinalizeQuotaApology)
      case Failure(e) =>
        if GeminiClient.IsValueError(e) then Failure(MealAnalysis.HttpError(BadRequest, e.detail))
        else Failure(MealAnalysis.HttpError(InternalError, FinalizeFailurePrefix + ErrorText(e)))
  }

  /** A `ValueError` raised by the first model called is answered 400 with its own message. */
  lemma ModelValueErrorIsBadRequest(models: seq<string>, message: string, later: seq<GeminiClient.Attempt>)
    ensures FinalizeEndpoint(Success(models), GeminiClient.FallbackOutcome([GeminiClient.Raised(message, true)] + later))
      == Failure(MealAnalysis.HttpError(BadRequest, message))
  {
    GeminiClient.RaisedPassesThrough([], message, true, later);
    assert [] + [GeminiClient.Raised(message, true)] + later == [GeminiClient.Raised(message, true)] + later;
  }
}
