/**
 * The conversation-completeness gate of the chat backend (backend/chat.py):
 * whether a conversation asks for a training or nutrition plan, which of the
 * seven facts needed for a personal plan no user turn has supplied yet, the
 * single clarification text built from that list, and the decision that
 * combines them.
 */
module Chat {
  import opened Wrappers
  import opened Text

  /**
   * One turn of the conversation as the caller's dictionary: either key may be
   * absent, which `message.get(...)` turns into a non-user role or into "".
   */
  datatype Message = Message(role: Option<string>, content: Option<string>)

  /** Phrases whose presence in a user turn marks a request for a plan, in source order. */
  const PlanKeywords: seq<string> := [
    "kế hoạch", "lịch tập", "workout", "tập luyện", "chương trình tập", "plan",
    "routine", "thực đơn", "meal plan", "chế độ ăn", "nutrition plan"
  ]

  // ---------------------------------------------------------------- the seven fields

  /** The facts a personal plan needs; the label table lists its keys in this order. */
  datatype Field = Goal | Experience | Equipment | Schedule | Limitations | Diet | BodyMetrics

  /** The dictionary key of a field. */
  function Key(f: Field): string {
    match f
    case Goal => "goal"
    case Experience => "experience"
    case Equipment => "equipment"
    case Schedule => "schedule"
    case Limitations => "limitations"
    case Diet => "diet"
    case BodyMetrics => "body_metrics"
  }

  /** Looking a key up in the label table: the field it names, or none (`KeyError`). */
  function FieldNamed(key: string): Option<Field> {
    if key == "goal" then Some(Goal)
    else if key == "experience" then Some(Experience)
    else if key == "equipment" then Some(Equipment)
    else if key == "schedule" then Some(Schedule)
    else if key == "limitations" then Some(Limitations)
    else if key == "diet" then Some(Diet)
    else if key == "body_metrics" then Some(BodyMetrics)
    else None
  }

  /** The substring patterns of a field (`FIELD_PATTERNS.get(field, [])`); body metrics has none. */
  function Patterns(f: Field): seq<string> {
    match f
    case Goal => ["tăng cơ", "giảm mỡ", "giữ form", "giữ dáng", "giảm cân", "lean"]
    case Experience => ["mới tập", "newbie", "trung cấp", "nâng cao", "advanced", "beginner"]
    case Equipment => ["không dụng cụ", "bodyweight", "dụng cụ", "tạ", "gym", "dumbbell", "resistance"]
    case Schedule => ["ngày", "buổi", "lịch", "tuần"]
    case Limitations => ["đau", "chấn thương", "hạn chế", "không thể", "tránh"]
    case Diet => ["ăn chay", "eat clean", "ít carb", "đạm cao", "thuần chay", "keto", "mediterranean"]
    case BodyMetrics => []
  }

  /** The human-readable label of a field (long labels are written in pieces joined without separator). */
  function Label(f: Field): string {
    match f
    case Goal => "mục tiêu (tăng cơ/giảm mỡ/giữ form)"
    case Experience => "trình độ tập luyện"
    case Equipment => "dụng cụ sẵn có"
    case Schedule => "số buổi/tuần bạn có thể tập"
    case Limitations => "giới hạn vận động hoặc vùng " + "bị đau (không nêu chi tiết bệnh lý)"
    case Diet => "khẩu vị hoặc chế độ ăn ưu tiên"
    case BodyMetrics => "cân nặng, chiều cao, độ tuổi"
  }

  /** The fields in the order of the label table, which is the order of every scan. */
  const FieldOrder: seq<Field> := [Goal, Experience, Equipment, Schedule, Limitations, Diet, BodyMetrics]

  /** Position of a field in the scan order. */
  function Rank(f: Field): nat {
    match f
    case Goal => 0
    case Experience => 1
    case Equipment => 2
    case Schedule => 3
    case Limitations => 4
    case Diet => 5
    case BodyMetrics => 6
  }

  /** The keys of a list of fields, in order: looking each one up gives back its field. */
  function Keys(fields: seq<Field>): (keys: seq<string>)
    ensures |keys| == |fields|
    ensures forall k :: 0 <= k < |keys| ==> FieldNamed(keys[k]) == Some(fields[k])
  {
    if fields == [] then []
    else
      KeyLookup(fields[0], Key(fields[0]));
      [Key(fields[0])] + Keys(fields[1..])
  }

  /** First line of a clarification request. */
  const Header: string := "Để mình cá nhân hóa kế hoạch " + "chuẩn xác và tránh đoán mò, " + "mình cần bạn bổ sung:"

  /** Last line of a clarification request. */
  const Footer: string := "Hãy trả lời từng mục, mình sẽ " + "tiếp tục tư vấn ngay sau khi " + "nhận đủ thông tin nhé!"

  /** The unit tokens of the weight pattern `kg|kilô|kgm?`. */
  const WeightUnits: seq<string> := ["kg", "kilô", "kgm"]

  // ---------------------------------------------------------------- properties of the tables

  /** The label table's lookup inverts the key of each field and knows no other key. */
  lemma KeyLookup(f: Field, key: string)
    ensures FieldNamed(Key(f)) == Some(f)
    ensures FieldNamed(key) == Some(f) ==> key == Key(f)
  {
  }

  /** No field occurs twice in the scan order. */
  lemma FieldOrderDistinct()
    ensures forall a, b :: 0 <= a < b < |FieldOrder| ==> FieldOrder[a] != FieldOrder[b]
  {
  }

  /** The scan order is a listing of all seven fields, each once, at its rank. */
  lemma FieldOrderComplete(f: Field)
    ensures f in FieldOrder && FieldOrder[Rank(f)] == f
    ensures forall k :: 0 <= k < |FieldOrder| ==> Rank(FieldOrder[k]) == k
  {
  }

  // ---------------------------------------------------------------- turns

  predicate IsUser(m: Message) {
    m.role == Some("user")
  }

  /** The lower-cased content of a turn; a missing content reads as "". */
  function TextOf(m: Message): string {
    match m.content
    case None => ""
    case Some(c) => Lower(c)
  }

  // ---------------------------------------------------------------- body metrics

  /** `\b` at position `i` of `t`: exactly one side of the position is a word character. */
  predicate BoundaryAt(t: string, i: nat)
    requires i <= |t|
  {
    (i > 0 && IsWordChar(t[i - 1])) != (i < |t| && IsWordChar(t[i]))
  }

  /** `n` ASCII digits stand at position `i`. */
  predicate DigitsAt(t: string, i: nat, n: nat) {
    i + n <= |t| && forall j :: i <= j < i + n ==> IsAsciiDigit(t[j])
  }

  /** Position `i + n` holds a whitespace character when `s == 1`, nothing when `s == 0` (`\s?`). */
  predicate OptionalSpaceAt(t: string, i: nat, s: nat) {
    s <= 1 && i + s <= |t| && (s == 1 ==> IsPyWhitespace(t[i]))
  }

  /** `\b\d{2,3}\s?(kg|kilô|kgm?)\b` matches at `i` with `d` digits, `s` spaces and unit `u`. */
  predicate WeightMatchAt(t: string, i: nat, d: nat, s: nat, u: nat) {
    i <= |t| && 2 <= d <= 3 && u < |WeightUnits|
    && BoundaryAt(t, i) && DigitsAt(t, i, d) && OptionalSpaceAt(t, i + d, s)
    && WeightUnits[u] <= t[i + d + s..]
    && BoundaryAt(t, i + d + s + |WeightUnits[u]|)
  }

  /** `\b\d{3}\s?cm\b` matches at `i` with `s` spaces. */
  predicate HeightMatchAt(t: string, i: nat, s: nat) {
    i <= |t| && BoundaryAt(t, i) && DigitsAt(t, i, 3) && OptionalSpaceAt(t, i + 3, s)
    && "cm" <= t[i + 3 + s..]
    && BoundaryAt(t, i + 3 + s + 2)
  }

  /** The body-metrics rule: a weight, a height in centimetres, or the word for "age". */
  predicate HasBodyMetrics(t: string) {
    (exists i, d, s, u :: 0 <= i <= |t| && 2 <= d <= 3 && s <= 1 && u < 3 && WeightMatchAt(t, i, d, s, u))
    || (exists i, s :: 0 <= i <= |t| && s <= 1 && HeightMatchAt(t, i, s))
    || Contains(t, "tuổi")
  }

  /**
   * The digits of a weight match are a whole number: the boundary before them rules out a digit
   * on the left, and the space or the unit after them rules out one on the right.
   */
  lemma WeightDigitsWhole(t: string, i: nat, d: nat, s: nat, u: nat)
    ensures WeightMatchAt(t, i, d, s, u) ==> i == 0 || !IsAsciiDigit(t[i - 1])
    ensures WeightMatchAt(t, i, d, s, u) ==> i + d < |t| && !IsAsciiDigit(t[i + d])
  {
    if WeightMatchAt(t, i, d, s, u) {
      assert IsAsciiDigit(t[i]) && IsWordChar(t[i]);
      assert WeightUnits[u][0] == 'k';
      assert t[i + d + s] == 'k';
    }
  }

  /** A weight or height pattern needs an ASCII digit somewhere in the text. */
  lemma NumericMetricsNeedDigit(t: string)
    requires (exists i, d, s, u :: 0 <= i <= |t| && 2 <= d <= 3 && s <= 1 && u < 3 && WeightMatchAt(t, i, d, s, u))
      || (exists i, s :: 0 <= i <= |t| && s <= 1 && HeightMatchAt(t, i, s))
    ensures exists c :: c in t && IsAsciiDigit(c)
  {
    if exists i, d, s, u :: 0 <= i <= |t| && 2 <= d <= 3 && s <= 1 && u < 3 && WeightMatchAt(t, i, d, s, u) {
      var i, d, s, u :| 0 <= i <= |t| && 2 <= d <= 3 && s <= 1 && u < 3 && WeightMatchAt(t, i, d, s, u);
      assert t[i] in t && IsAsciiDigit(t[i]);
    } else {
      var i, s :| 0 <= i <= |t| && s <= 1 && HeightMatchAt(t, i, s);
      assert t[i] in t && IsAsciiDigit(t[i]);
    }
  }

  /** Examples of the body-metrics rule: a weight, an age and a height are detected. */
  lemma BodyMetricsDetected()
    ensures HasBodyMetrics("nặng 65kg")
    ensures HasBodyMetrics("23 tuổi")
    ensures HasBodyMetrics("150cm")
    ensures HasBodyMetrics("nặng 70 kilô")
  {
    assert WeightMatchAt("nặng 65kg", 5, 2, 0, 0);
    ContainsAt("23 tuổi", "tuổi", 3);
    assert HeightMatchAt("150cm", 0, 0);
    assert WeightMatchAt("nặng 70 kilô", 5, 2, 1, 1);
  }

  /** A text with no digit and no "tuổi" has no body metrics. */
  lemma BodyMetricsAbsent()
    ensures !HasBodyMetrics("không có gì")
  {
    var t := "không có gì";
    forall c | c in t ensures !IsAsciiDigit(c) { }
    FirstCharAbsent(t, "tuổi");
    if HasBodyMetrics(t) && !Contains(t, "tuổi") {
      NumericMetricsNeedDigit(t);
    }
  }

  /** Four digits before "kg" are no weight: the digit run has no word boundary two or three digits back. */
  lemma FourDigitWeightAbsent()
    ensures !HasBodyMetrics("1234kg")
  {
    var w := "1234kg";
    assert IsAsciiDigit(w[0]) && IsAsciiDigit(w[1]) && IsAsciiDigit(w[2]) && IsAsciiDigit(w[3]);
    forall i, d, s, u | 0 <= i <= |w| && 2 <= d <= 3 && s <= 1 && u < 3 ensures !WeightMatchAt(w, i, d, s, u) {
      WeightDigitsWhole(w, i, d, s, u);
    }
    forall c | c in w ensures IsWordChar(c) { }
    forall i, s | 0 <= i <= |w| && s <= 1 ensures !HeightMatchAt(w, i, s) {
      if 0 < i < |w| {
        assert w[i - 1] in w;
      }
    }
    FirstCharAbsent(w, "tuổi");
  }

  // ---------------------------------------------------------------- field detection

  /** Whether lower-cased text supplies a field: the body-metrics rule, or one of the field's patterns. */
  predicate FieldPresent(f: Field, text: string) {
    if f == BodyMetrics then HasBodyMetrics(text) else ContainsAny(text, Patterns(f))
  }

  /** A turn supplies a field when it is a user turn whose lower-cased content matches the field's rule. */
  predicate Supplies(m: Message, f: Field) {
    IsUser(m) && FieldPresent(f, TextOf(m))
  }

  /** Some turn of the conversation supplies the field. */
  predicate Supplied(msgs: seq<Message>, f: Field) {
    exists j :: 0 <= j < |msgs| && Supplies(msgs[j], f)
  }

  /** Some turn before position `i` supplies the field. */
  predicate SuppliedBefore(msgs: seq<Message>, i: nat, f: Field)
    requires i <= |msgs|
  {
    exists j :: 0 <= j < i && Supplies(msgs[j], f)
  }

  lemma SuppliedBeforeNext(msgs: seq<Message>, i: nat, f: Field)
    requires i < |msgs|
    ensures SuppliedBefore(msgs, i + 1, f) <==> SuppliedBefore(msgs, i, f) || Supplies(msgs[i], f)
  {
  }

  /** A turn asks for a plan when it is a user turn whose lower-cased content holds a plan keyword. */
  predicate AsksForPlan(m: Message) {
    IsUser(m) && ContainsAny(TextOf(m), PlanKeywords)
  }

  /** The conversation asks for a plan when one of its turns does. */
  predicate IsPlanRequest(msgs: seq<Message>) {
    exists j :: 0 <= j < |msgs| && AsksForPlan(msgs[j])
  }

  /** Some turn before position `i` asks for a plan. */
  predicate AskedBefore(msgs: seq<Message>, i: nat)
    requires i <= |msgs|
  {
    exists j :: 0 <= j < i && AsksForPlan(msgs[j])
  }

  lemma AskedBeforeNext(msgs: seq<Message>, i: nat)
    requires i < |msgs|
    ensures AskedBefore(msgs, i + 1) <==> AskedBefore(msgs, i) || AsksForPlan(msgs[i])
  {
  }

  lemma AskedBeforeGrows(msgs: seq<Message>, i: nat, n: nat)
    requires i <= n <= |msgs| && AskedBefore(msgs, i)
    ensures AskedBefore(msgs, n)
  {
  }

  /** The fields of `fields` that no turn of `msgs` supplies, in the order of `fields`. */
  function Unsupplied(fields: seq<Field>, msgs: seq<Message>): seq<Field> {
    if fields == [] then []
    else
      var last := fields[|fields| - 1];
      Unsupplied(fields[..|fields| - 1], msgs) + (if Supplied(msgs, last) then [] else [last])
  }

  /** The fields a conversation misses, in the scan order. */
  function MissingFields(msgs: seq<Message>): seq<Field> {
    Unsupplied(FieldOrder, msgs)
  }

  // ---------------------------------------------------------------- the scans

  /** `detect_plan_request`: scans the turns in order and stops at the first user turn with a plan keyword. */
  method DetectPlanRequest(messages: seq<Message>) returns (planRelated: bool)
    ensures planRelated <==> IsPlanRequest(messages)
  {
    planRelated := false;
    var i := 0;
    while i < |messages| && !planRelated
      invariant i <= |messages|
      invariant planRelated == AskedBefore(messages, i)
    {
      var message := messages[i];
      if IsUser(message) {
        var text := TextOf(message);
        planRelated := ContainsAny(text, PlanKeywords);
      }
      AskedBeforeNext(messages, i);
      i := i + 1;
    }
    if planRelated {
      AskedBeforeGrows(messages, i, |messages|);
    }
  }

  /** The flags hold one entry per field. */
  predicate Flags(status: map<Field, bool>) {
    forall k :: 0 <= k < |FieldOrder| ==> FieldOrder[k] in status
  }

  /** The inner loop of `evaluate_missing_fields`: raises the flag of every field the text supplies. */
  method RaiseFlags(status: map<Field, bool>, text: string) returns (raised: map<Field, bool>)
    requires Flags(status)
    ensures Flags(raised)
    ensures forall k :: 0 <= k < |FieldOrder| ==>
      (raised[FieldOrder[k]] <==> status[FieldOrder[k]] || FieldPresent(FieldOrder[k], text))
  {
    raised := status;
    FieldOrderDistinct();
    for n := 0 to |FieldOrder|
      invariant Flags(raised)
      invariant forall k :: 0 <= k < n ==> (raised[FieldOrder[k]] <==> status[FieldOrder[k]] || FieldPresent(FieldOrder[k], text))
      invariant forall k :: n <= k < |FieldOrder| ==> raised[FieldOrder[k]] == status[FieldOrder[k]]
    {
      var field := FieldOrder[n];
      ghost var previous := raised;
      var present := FieldPresent(field, text);
      if !raised[field] && present {
        raised := raised[field := true];
      }
      assert raised[field] <==> status[field] || present;
      assert forall k :: 0 <= k < |FieldOrder| && k != n ==> raised[FieldOrder[k]] == previous[FieldOrder[k]];
    }
  }

  /** The closing comprehension of `evaluate_missing_fields`: the fields whose flag is down, in the order given. */
  function Unflagged(status: map<Field, bool>, fields: seq<Field>): seq<Field>
    requires forall k :: 0 <= k < |fields| ==> fields[k] in status
  {
    if fields == [] then []
    else
      var last := fields[|fields| - 1];
      Unflagged(status, fields[..|fields| - 1]) + (if status[last] then [] else [last])
  }

  /** Flags that record exactly which fields the conversation supplies leave down exactly the missing fields. */
  lemma {:induction false} UnflaggedUnsupplied(status: map<Field, bool>, fields: seq<Field>, msgs: seq<Message>)
    requires forall k :: 0 <= k < |fields| ==> fields[k] in status && (status[fields[k]] <==> Supplied(msgs, fields[k]))
    ensures Unflagged(status, fields) == Unsupplied(fields, msgs)
  {
    if fields != [] {
      UnflaggedUnsupplied(status, fields[..|fields| - 1], msgs);
    }
  }

  /**
   * `evaluate_missing_fields`: one flag per field, raised by the first user turn that
   * supplies the field and never lowered, then the keys of the fields whose flag stayed down.
   */
  method EvaluateMissingFields(messages: seq<Message>) returns (missing: seq<string>)
    ensures missing == Keys(MissingFields(messages))
  {
    var status: map<Field, bool> := map f | f in FieldOrder :: false;
    for i := 0 to |messages|
      invariant Flags(status)
      invariant forall k :: 0 <= k < |FieldOrder| ==> (status[FieldOrder[k]] <==> SuppliedBefore(messages, i, FieldOrder[k]))
    {
      var message := messages[i];
      ghost var before := status;
      if IsUser(message) {
        var text := TextOf(message);
        status := RaiseFlags(status, text);
      }
      forall k | 0 <= k < |FieldOrder|
        ensures status[FieldOrder[k]] <==> SuppliedBefore(messages, i + 1, FieldOrder[k])
      {
        SuppliedBeforeNext(messages, i, FieldOrder[k]);
      }
    }
    forall k | 0 <= k < |FieldOrder| ensures status[FieldOrder[k]] <==> Supplied(messages, FieldOrder[k]) {
      assert SuppliedBefore(messages, |messages|, FieldOrder[k]) == Supplied(messages, FieldOrder[k]);
    }
    UnflaggedUnsupplied(status, FieldOrder, messages);
    missing := Keys(Unflagged(status, FieldOrder));
  }

  // ---------------------------------------------------------------- the clarification text

  /** Every key of the list has a label. */
  predicate AllKnown(keys: seq<string>) {
    forall k :: 0 <= k < |keys| ==> FieldNamed(keys[k]).Some?
  }

  /** The fields that a list of known keys names, in order. */
  function Resolve(keys: seq<string>): (fields: seq<Field>)
    requires AllKnown(keys)
    ensures |fields| == |keys|
    ensures forall k :: 0 <= k < |keys| ==> FieldNamed(keys[k]) == Some(fields[k])
  {
    if keys == [] then []
    else Resolve(keys[..|keys| - 1]) + [FieldNamed(keys[|keys| - 1]).value]
  }

  /** Resolving the keys of a list of fields gives the list back. */
  lemma ResolveKeys(fields: seq<Field>)
    ensures AllKnown(Keys(fields)) && Resolve(Keys(fields)) == fields
  {
  }

  /** The bullet line of one field. */
  function Bullet(f: Field): string {
    "- " + Label(f)
  }

  /** `f` applied to every element, built by appending at the end as a loop does. */
  function Mapped<A, B>(f: A -> B, xs: seq<A>): (r: seq<B>)
    ensures |r| == |xs|
  {
    if xs == [] then [] else Mapped(f, xs[..|xs| - 1]) + [f(xs[|xs| - 1])]
  }

  /** The element at position `k` of a mapped list is `f` of the element at `k`. */
  lemma {:induction false} MappedAt<A, B>(f: A -> B, xs: seq<A>, k: nat)
    requires k < |xs|
    ensures Mapped(f, xs)[k] == f(xs[k])
  {
    var init := xs[..|xs| - 1];
    if k < |init| {
      MappedAt(f, init, k);
      assert init[k] == xs[k];
    }
  }

  /** One bullet line per field, in the order of the list. */
  function Bullets(fields: seq<Field>): seq<string> {
    Mapped(Bullet, fields)
  }

  /** Extending a prefix of known keys by one known key adds that key's bullet. */
  lemma BulletsNext(keys: seq<string>, k: nat)
    requires k < |keys| && AllKnown(keys[..k]) && FieldNamed(keys[k]).Some?
    ensures AllKnown(keys[..k + 1])
    ensures Bullets(Resolve(keys[..k + 1])) == Bullets(Resolve(keys[..k])) + [Bullet(FieldNamed(keys[k]).value)]
  {
    assert keys[..k + 1][..k] == keys[..k];
  }

  /** The lines of the clarification request for a list of fields. */
  function ClarificationLines(fields: seq<Field>): seq<string> {
    [Header] + Bullets(fields) + [Footer]
  }

  /** The clarification text: "" when nothing is missing, else its lines joined by newlines. */
  function ClarificationText(fields: seq<Field>): string {
    if fields == [] then "" else JoinWith(ClarificationLines(fields), '\n')
  }

  /**
   * `build_clarification_prompt`: "" for an empty list; otherwise the header, one bullet per
   * key appended in a loop, and the footer, joined by newlines. A key without a label
   * raises `KeyError`, modelled as a failure naming the first such key.
   */
  method BuildClarificationPrompt(missingFields: seq<string>) returns (r: Result<string, string>)
    ensures missingFields == [] ==> r == Success("")
    ensures AllKnown(missingFields) ==> r == Success(ClarificationText(Resolve(missingFields)))
    ensures !AllKnown(missingFields) ==>
      exists k :: 0 <= k < |missingFields| && AllKnown(missingFields[..k]) && FieldNamed(missingFields[k]).None?
                  && r == Failure(missingFields[k])
  {
    if missingFields == [] {
      return Success("");
    }
    var lines := [Header];
    var k := 0;
    while k < |missingFields| && FieldNamed(missingFields[k]).Some?
      invariant k <= |missingFields|
      invariant AllKnown(missingFields[..k])
      invariant lines == [Header] + Bullets(Resolve(missingFields[..k]))
    {
      var fieldLabel := Label(FieldNamed(missingFields[k]).value);
      BulletsNext(missingFields, k);
      lines := lines + ["- " + fieldLabel];
      k := k + 1;
    }
    if k < |missingFields| {
      return Failure(missingFields[k]);
    }
    assert missingFields[..|missingFields|] == missingFields;
    lines := lines + [Footer];
    return Success(JoinWith(lines, '\n'));
  }

  // ---------------------------------------------------------------- the guard

  /**
   * `guard_chat_request`: no clarification for a conversation that does not ask for a plan
   * or that misses nothing; otherwise the clarification text for the missing fields.
   */
  method GuardChatRequest(messages: seq<Message>) returns (r: Option<string>)
    ensures r == None <==> !IsPlanRequest(messages) || MissingFields(messages) == []
    ensures r.Some? ==> r.value == ClarificationText(MissingFields(messages))
    ensures r.Some? ==> r.value != ""
  {
    var planRelated := DetectPlanRequest(messages);
    if !planRelated {
      return None;
    }
    var missing := EvaluateMissingFields(messages);
    if missing == [] {
      return None;
    }
    var prompt := BuildClarificationPrompt(missing);
    ResolveKeys(MissingFields(messages));
    ClarificationNonEmpty(MissingFields(messages));
    return Some(prompt.value);
  }

  // ---------------------------------------------------------------- properties of the scan

  /** A field is missing exactly when it is among `fields` and no turn supplies it. */
  lemma {:induction false} UnsuppliedMembers(fields: seq<Field>, msgs: seq<Message>)
    ensures forall f :: f in Unsupplied(fields, msgs) <==> f in fields && !Supplied(msgs, f)
  {
    if fields != [] {
      var init := fields[..|fields| - 1];
      UnsuppliedMembers(init, msgs);
      assert fields == init + [fields[|fields| - 1]];
    }
  }

  /** When every field of the list is supplied, none is missing. */
  lemma {:induction false} UnsuppliedNone(fields: seq<Field>, msgs: seq<Message>)
    requires forall f :: Supplied(msgs, f)
    ensures Unsupplied(fields, msgs) == []
  {
    if fields != [] {
      UnsuppliedNone(fields[..|fields| - 1], msgs);
    }
  }

  /** Filtering keeps the order: fields listed in increasing rank stay in increasing rank. */
  lemma {:induction false} UnsuppliedKeepsOrder(fields: seq<Field>, msgs: seq<Message>)
    requires forall a, b :: 0 <= a < b < |fields| ==> Rank(fields[a]) < Rank(fields[b])
    ensures forall a, b :: 0 <= a < b < |Unsupplied(fields, msgs)| ==>
      Rank(Unsupplied(fields, msgs)[a]) < Rank(Unsupplied(fields, msgs)[b])
  {
    if fields != [] {
      var init := fields[..|fields| - 1];
      var last := fields[|fields| - 1];
      assert forall a :: 0 <= a < |init| ==> init[a] == fields[a];
      UnsuppliedKeepsOrder(init, msgs);
      UnsuppliedMembers(init, msgs);
      var u := Unsupplied(init, msgs);
      forall k | 0 <= k < |u| ensures Rank(u[k]) < Rank(last) {
        assert u[k] in u;
        var i :| 0 <= i < |init| && init[i] == u[k];
      }
      var r := Unsupplied(fields, msgs);
      if !Supplied(msgs, last) {
        assert r == u + [last];
        forall a, b | 0 <= a < b < |r| ensures Rank(r[a]) < Rank(r[b]) {
          assert r[a] == u[a];
          if b < |u| {
            assert r[b] == u[b];
          }
        }
      }
    }
  }

  lemma {:induction false} UnsuppliedLength(fields: seq<Field>, msgs: seq<Message>)
    ensures |Unsupplied(fields, msgs)| <= |fields|
  {
    if fields != [] {
      UnsuppliedLength(fields[..|fields| - 1], msgs);
    }
  }

  /**
   * The missing-field list is a subsequence of goal, experience, equipment, schedule,
   * limitations, diet, body_metrics: at most seven entries, in that order, none twice.
   */
  lemma MissingFieldsOrdered(msgs: seq<Message>)
    ensures |MissingFields(msgs)| <= |FieldOrder|
    ensures forall a, b :: 0 <= a < b < |MissingFields(msgs)| ==>
      Rank(MissingFields(msgs)[a]) < Rank(MissingFields(msgs)[b])
    ensures forall a, b :: 0 <= a < b < |MissingFields(msgs)| ==> MissingFields(msgs)[a] != MissingFields(msgs)[b]
  {
    FieldOrderComplete(Goal);
    UnsuppliedKeepsOrder(FieldOrder, msgs);
    UnsuppliedLength(FieldOrder, msgs);
  }

  /** A field is missing exactly when no user turn supplies it. */
  lemma MissingFieldsIff(msgs: seq<Message>, f: Field)
    ensures f in MissingFields(msgs) <==>
      !exists j :: 0 <= j < |msgs| && IsUser(msgs[j]) && FieldPresent(f, TextOf(msgs[j]))
  {
    FieldOrderComplete(f);
    UnsuppliedMembers(FieldOrder, msgs);
  }

  /** Missing-field lists agree whenever the conversations supply the same fields. */
  lemma {:induction false} UnsuppliedCongruent(fields: seq<Field>, a: seq<Message>, b: seq<Message>)
    requires forall f :: Supplied(a, f) == Supplied(b, f)
    ensures Unsupplied(fields, a) == Unsupplied(fields, b)
  {
    if fields != [] {
      UnsuppliedCongruent(fields[..|fields| - 1], a, b);
    }
  }

  /**
   * Monotonicity: a conversation that holds every turn of another (more turns, or the
   * same turns in any order) misses no field the other supplies, and still asks for a plan.
   */
  lemma MoreTurnsMissLess(a: seq<Message>, b: seq<Message>)
    requires forall i :: 0 <= i < |a| ==> a[i] in b
    ensures forall f :: f in MissingFields(b) ==> f in MissingFields(a)
    ensures IsPlanRequest(a) ==> IsPlanRequest(b)
  {
    forall f | Supplied(a, f) ensures Supplied(b, f) {
      var j :| 0 <= j < |a| && Supplies(a[j], f);
      var i :| 0 <= i < |b| && b[i] == a[j];
    }
    if IsPlanRequest(a) {
      var j :| 0 <= j < |a| && AsksForPlan(a[j]);
      var i :| 0 <= i < |b| && b[i] == a[j];
    }
    UnsuppliedMembers(FieldOrder, a);
    UnsuppliedMembers(FieldOrder, b);
  }

  /** Appending a turn never adds a field to the missing list: flags only go from false to true. */
  lemma AppendNeverAddsMissing(msgs: seq<Message>, m: Message)
    ensures forall f :: f in MissingFields(msgs + [m]) ==> f in MissingFields(msgs)
    ensures IsPlanRequest(msgs) ==> IsPlanRequest(msgs + [m])
  {
    var b := msgs + [m];
    assert forall i :: 0 <= i < |msgs| ==> msgs[i] == b[i];
    MoreTurnsMissLess(msgs, b);
  }

  /** The result depends only on which turns occur, not on their order or repetition. */
  lemma SameTurnsSameResult(a: seq<Message>, b: seq<Message>)
    requires forall i :: 0 <= i < |a| ==> a[i] in b
    requires forall i :: 0 <= i < |b| ==> b[i] in a
    ensures MissingFields(a) == MissingFields(b)
    ensures IsPlanRequest(a) == IsPlanRequest(b)
  {
    MoreTurnsMissLess(a, b);
    MoreTurnsMissLess(b, a);
    forall f ensures Supplied(a, f) == Supplied(b, f) {
      if Supplied(a, f) {
        var j :| 0 <= j < |a| && Supplies(a[j], f);
        var i :| 0 <= i < |b| && b[i] == a[j];
      }
      if Supplied(b, f) {
        var j :| 0 <= j < |b| && Supplies(b[j], f);
        var i :| 0 <= i < |a| && a[i] == b[j];
      }
    }
    UnsuppliedCongruent(FieldOrder, a, b);
  }

  /** Inserting an entry that fails `p` does not change whether some entry satisfies `p`. */
  lemma InsertedFailing<T>(a: seq<T>, m: T, b: seq<T>, p: T -> bool)
    requires !p(m)
    ensures (exists j :: 0 <= j < |a + [m] + b| && p((a + [m] + b)[j])) == (exists j :: 0 <= j < |a + b| && p((a + b)[j]))
  {
    var x := a + [m] + b;
    var y := a + b;
    if exists j :: 0 <= j < |x| && p(x[j]) {
      var j :| 0 <= j < |x| && p(x[j]);
      var k := if j < |a| then j else j - 1;
      assert y[k] == x[j];
    }
    if exists j :: 0 <= j < |y| && p(y[j]) {
      var j :| 0 <= j < |y| && p(y[j]);
      var k := if j < |a| then j else j + 1;
      assert x[k] == y[j];
    }
  }

  lemma NonUserTurnSupplies(a: seq<Message>, m: Message, b: seq<Message>, f: Field)
    requires !IsUser(m)
    ensures Supplied(a + [m] + b, f) == Supplied(a + b, f)
  {
    InsertedFailing(a, m, b, msg => Supplies(msg, f));
  }

  lemma NonUserTurnAsks(a: seq<Message>, m: Message, b: seq<Message>)
    requires !IsUser(m)
    ensures IsPlanRequest(a + [m] + b) == IsPlanRequest(a + b)
  {
    InsertedFailing(a, m, b, AsksForPlan);
  }

  /**
   * Turns that are not from the user are never inspected: inserting one anywhere (and so
   * removing one, or replacing it by another) changes neither the plan detection nor the
   * missing-field list.
   */
  lemma NonUserTurnsIgnored(a: seq<Message>, m: Message, b: seq<Message>)
    requires !IsUser(m)
    ensures MissingFields(a + [m] + b) == MissingFields(a + b)
    ensures IsPlanRequest(a + [m] + b) == IsPlanRequest(a + b)
  {
    forall f ensures Supplied(a + [m] + b, f) == Supplied(a + b, f) {
      NonUserTurnSupplies(a, m, b, f);
    }
    UnsuppliedCongruent(FieldOrder, a + [m] + b, a + b);
    NonUserTurnAsks(a, m, b);
  }

  /** A user turn containing "lịch tập" both asks for a plan and supplies the schedule ("lịch"). */
  lemma LichTapAsksAndSchedules(m: Message)
    requires IsUser(m) && Contains(TextOf(m), "lịch tập")
    ensures AsksForPlan(m) && Supplies(m, Schedule)
  {
    assert PlanKeywords[1] == "lịch tập";
    assert "lịch tập" == "lịch" + " tập";
    ContainsPrefixOf(TextOf(m), "lịch", " tập");
    assert Patterns(Schedule)[2] == "lịch";
  }

  /** The single user turn of the complete-conversation example, in two parts. */
  const RequestTopics: string := "plan lean newbie gym keto, "
  const RequestSchedule: string := "3 buổi, đau gối, "
  const RequestAge: string := "23 tuổi"
  const RequestDetails: string := RequestSchedule + RequestAge
  const CompleteRequest: string := RequestTopics + RequestDetails

  lemma RequestTopicsLowerCase()
    ensures IsLowerCase(RequestTopics)
  {
    forall c | c in RequestTopics ensures LowerChar(c) == c { }
  }

  lemma RequestDetailsLowerCase()
    ensures IsLowerCase(RequestDetails)
  {
    forall c | c in RequestSchedule ensures LowerChar(c) == c { }
    forall c | c in RequestAge ensures LowerChar(c) == c { }
    LowerCaseAppend(RequestSchedule, RequestAge);
  }

  /** The example is already lower-case, so the detection reads it unchanged. */
  lemma CompleteRequestLowerCase()
    ensures Lower(CompleteRequest) == CompleteRequest
  {
    RequestTopicsLowerCase();
    RequestDetailsLowerCase();
    LowerCaseAppend(RequestTopics, RequestDetails);
    LowerOfLowerCase(CompleteRequest);
  }

  lemma RequestTopicsPatterns()
    ensures Contains(RequestTopics, "plan") && Contains(RequestTopics, "lean") && Contains(RequestTopics, "newbie")
    ensures Contains(RequestTopics, "gym") && Contains(RequestTopics, "keto")
  {
    assert "plan" <= RequestTopics[0..];
    assert "lean" <= RequestTopics[5..];
    assert "newbie" <= RequestTopics[10..];
    assert "gym" <= RequestTopics[17..];
    assert "keto" <= RequestTopics[21..];
  }

  lemma RequestDetailsPatterns()
    ensures Contains(RequestDetails, "buổi") && Contains(RequestDetails, "đau") && Contains(RequestDetails, "tuổi")
  {
    assert "buổi" <= RequestDetails[2..];
    assert "đau" <= RequestDetails[8..];
    assert "tuổi" <= RequestDetails[20..];
  }

  /** A pattern found in the topics part is found in the whole example. */
  lemma TopicInRequest(p: string)
    requires Contains(RequestTopics, p)
    ensures Contains(CompleteRequest, p)
  {
    ContainsInLonger(RequestTopics, RequestDetails, p);
  }

  /** A pattern found in the details part is found in the whole example. */
  lemma DetailInRequest(p: string)
    requires Contains(RequestDetails, p)
    ensures Contains(CompleteRequest, p)
  {
    ContainsInLonger(RequestDetails, RequestTopics, p);
  }

  lemma CompleteRequestAsks()
    ensures ContainsAny(CompleteRequest, PlanKeywords)
  {
    RequestTopicsPatterns();
    TopicInRequest("plan");
    assert PlanKeywords[5] == "plan";
  }

  lemma CompleteRequestGoal()
    ensures FieldPresent(Goal, CompleteRequest)
  {
    RequestTopicsPatterns();
    TopicInRequest("lean");
    assert Patterns(Goal)[5] == "lean";
  }

  lemma CompleteRequestExperience()
    ensures FieldPresent(Experience, CompleteRequest)
  {
    RequestTopicsPatterns();
    TopicInRequest("newbie");
    assert Patterns(Experience)[1] == "newbie";
  }

  lemma CompleteRequestEquipment()
    ensures FieldPresent(Equipment, CompleteRequest)
  {
    RequestTopicsPatterns();
    TopicInRequest("gym");
    assert Patterns(Equipment)[4] == "gym";
  }

  lemma CompleteRequestSchedule()
    ensures FieldPresent(Schedule, CompleteRequest)
  {
    RequestDetailsPatterns();
    DetailInRequest("buổi");
    assert Patterns(Schedule)[1] == "buổi";
  }

  lemma CompleteRequestLimitations()
    ensures FieldPresent(Limitations, CompleteRequest)
  {
    RequestDetailsPatterns();
    DetailInRequest("đau");
    assert Patterns(Limitations)[0] == "đau";
  }

  lemma CompleteRequestDiet()
    ensures FieldPresent(Diet, CompleteRequest)
  {
    RequestTopicsPatterns();
    TopicInRequest("keto");
    assert Patterns(Diet)[5] == "keto";
  }

  lemma CompleteRequestBodyMetrics()
    ensures FieldPresent(BodyMetrics, CompleteRequest)
  {
    RequestDetailsPatterns();
    DetailInRequest("tuổi");
  }

  /** The example asks for a plan and supplies every field. */
  lemma CompleteRequestSupplies(f: Field)
    ensures ContainsAny(CompleteRequest, PlanKeywords)
    ensures FieldPresent(f, CompleteRequest)
  {
    CompleteRequestAsks();
    match f
    case Goal => CompleteRequestGoal();
    case Experience => CompleteRequestExperience();
    case Equipment => CompleteRequestEquipment();
    case Schedule => CompleteRequestSchedule();
    case Limitations => CompleteRequestLimitations();
    case Diet => CompleteRequestDiet();
    case BodyMetrics => CompleteRequestBodyMetrics();
  }

  /** A conversation that supplies every field in one user turn asks for no clarification. */
  lemma CompleteConversation()
    ensures var msgs := [Message(Some("user"), Some(CompleteRequest))];
      IsPlanRequest(msgs) && MissingFields(msgs) == []
  {
    var m := Message(Some("user"), Some(CompleteRequest));
    var msgs := [m];
    CompleteRequestLowerCase();
    assert TextOf(m) == CompleteRequest;
    CompleteRequestSupplies(Goal);
    assert AsksForPlan(msgs[0]);
    forall f ensures Supplied(msgs, f) {
      CompleteRequestSupplies(f);
      assert Supplies(msgs[0], f);
    }
    UnsuppliedNone(FieldOrder, msgs);
  }

  // ---------------------------------------------------------------- properties of the text

  // One literal per proof: the verifier decides membership in a string literal by
  // unfolding it character by character, which is cheap only one literal at a time.
  lemma GoalLabelSingleLine() ensures '\n' !in Label(Goal) { }
  lemma ExperienceLabelSingleLine() ensures '\n' !in Label(Experience) { }
  lemma EquipmentLabelSingleLine() ensures '\n' !in Label(Equipment) { }
  lemma ScheduleLabelSingleLine() ensures '\n' !in Label(Schedule) { }
  lemma LimitationsLabelSingleLine() ensures '\n' !in Label(Limitations) { }
  lemma DietLabelSingleLine() ensures '\n' !in Label(Diet) { }
  lemma BodyMetricsLabelSingleLine() ensures '\n' !in Label(BodyMetrics) { }

  /** No label holds a line break. */
  lemma LabelSingleLine(f: Field)
    ensures '\n' !in Label(f)
  {
    match f
    case Goal => GoalLabelSingleLine();
    case Experience => ExperienceLabelSingleLine();
    case Equipment => EquipmentLabelSingleLine();
    case Schedule => ScheduleLabelSingleLine();
    case Limitations => LimitationsLabelSingleLine();
    case Diet => DietLabelSingleLine();
    case BodyMetrics => BodyMetricsLabelSingleLine();
  }

  lemma HeaderSingleLine() ensures '\n' !in Header && Header[0] != '-' { }
  lemma FooterSingleLine() ensures '\n' !in Footer && Footer[0] != '-' { }

  /** No two fields share a label, so a bullet names exactly one field. */
  lemma LabelsDistinct(f: Field, g: Field)
    ensures Label(f) == Label(g) ==> f == g
  {
  }

  /** The bullet at position `k` is the bullet of the `k`-th field. */
  lemma BulletAt(fields: seq<Field>, k: nat)
    requires k < |fields|
    ensures Bullets(fields)[k] == Bullet(fields[k])
  {
    MappedAt(Bullet, fields, k);
  }

  lemma BulletsAt(fields: seq<Field>)
    ensures forall k :: 0 <= k < |fields| ==> Bullets(fields)[k] == Bullet(fields[k])
  {
    forall k | 0 <= k < |fields| ensures Bullets(fields)[k] == Bullet(fields[k]) {
      BulletAt(fields, k);
    }
  }

  /** A non-empty list of fields yields a non-empty text. */
  lemma ClarificationNonEmpty(fields: seq<Field>)
    requires fields != []
    ensures ClarificationText(fields) != ""
  {
    var lines := ClarificationLines(fields);
    assert lines[0] == Header;
    assert JoinWith(lines, '\n') == Header + ['\n'] + JoinWith(lines[1..], '\n');
  }

  /** The clarification lines hold the header, the bullets of the fields in order, and the footer. */
  lemma ClarificationLinesAt(fields: seq<Field>)
    ensures |ClarificationLines(fields)| == |fields| + 2
    ensures ClarificationLines(fields)[0] == Header && ClarificationLines(fields)[|fields| + 1] == Footer
    ensures forall k :: 0 <= k < |fields| ==> ClarificationLines(fields)[k + 1] == "- " + Label(fields[k])
  {
    var lines := ClarificationLines(fields);
    var bullets := Bullets(fields);
    BulletsAt(fields);
    forall k | 0 <= k < |fields| ensures lines[k + 1] == bullets[k] {
    }
  }

  /** One clarification line holds no line break, and starts with "- " exactly when it is a bullet. */
  lemma ClarificationLineAt(fields: seq<Field>, k: nat)
    requires k < |fields| + 2
    ensures '\n' !in ClarificationLines(fields)[k]
    ensures "- " <= ClarificationLines(fields)[k] <==> 1 <= k <= |fields|
  {
    ClarificationLinesAt(fields);
    if k == 0 {
      HeaderSingleLine();
    } else if k == |fields| + 1 {
      FooterSingleLine();
    } else {
      LabelSingleLine(fields[k - 1]);
    }
  }

  /** The lines of the clarification: header, one bullet per field, footer; none holds a line break. */
  lemma ClarificationLinesShape(fields: seq<Field>)
    ensures |ClarificationLines(fields)| == |fields| + 2
    ensures ClarificationLines(fields)[0] == Header && ClarificationLines(fields)[|fields| + 1] == Footer
    ensures forall k :: 0 <= k < |fields| ==> ClarificationLines(fields)[k + 1] == "- " + Label(fields[k])
    ensures forall k :: 0 <= k < |fields| + 2 ==> '\n' !in ClarificationLines(fields)[k]
    ensures forall k :: 0 <= k < |fields| + 2 ==> ("- " <= ClarificationLines(fields)[k] <==> 1 <= k <= |fields|)
  {
    ClarificationLinesAt(fields);
    forall k | 0 <= k < |fields| + 2
      ensures '\n' !in ClarificationLines(fields)[k]
      ensures "- " <= ClarificationLines(fields)[k] <==> 1 <= k <= |fields|
    {
      ClarificationLineAt(fields, k);
    }
  }

  /**
   * Shape of the clarification text: split at newlines it gives back its lines, the header,
   * one `"- " + label` line per field in the given order, and the footer.
   */
  lemma ClarificationShape(fields: seq<Field>)
    requires fields != []
    ensures SplitOn(ClarificationText(fields), '\n') == ClarificationLines(fields)
  {
    ClarificationLinesShape(fields);
    var lines := ClarificationLines(fields);
    forall k | 0 <= k < |lines| ensures '\n' !in lines[k] { }
    SplitJoin(lines, '\n');
  }
}
