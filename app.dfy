/**
 * The browser client (frontend/app.js): the session memory that `updateMemoryFromText`
 * overwrites field by field from what the user types, the two regular expressions it
 * reads a schedule and a body weight with, and the chat history with its append, clear
 * and export-to-API operations and the empty-input guards of sending and finalizing.
 */
module App {
  import opened Wrappers
  import opened Text

  // ---------------------------------------------------------------- trigger rules

  /** One `if (lower.includes(t1) || ...) field = value` line. */
  datatype Rule = Rule(triggers: seq<string>, value: string)

  /** A rule sets its value when one of its triggers occurs, and leaves the field alone otherwise. */
  function Fire(rule: Rule, lower: string, previous: Option<string>): Option<string> {
    if ContainsAny(lower, rule.triggers) then Some(rule.value) else previous
  }

  /** The rules of one field applied one after the other, in the order they are written. */
  function Applied(rules: seq<Rule>, lower: string, previous: Option<string>): Option<string> {
    if rules == [] then previous
    else Fire(rules[|rules| - 1], lower, Applied(rules[..|rules| - 1], lower, previous))
  }

  const GoalRules: seq<Rule> := [
    Rule(["tăng cơ"], "tăng cơ"),
    Rule(["giảm mỡ", "giảm cân"], "giảm mỡ"),
    Rule(["giữ form", "giữ dáng"], "giữ form")
  ]

  const ExperienceRules: seq<Rule> := [
    Rule(["mới tập", "beginner"], "mới tập"),
    Rule(["trung cấp", "intermediate"], "trung cấp"),
    Rule(["nâng cao", "advanced"], "nâng cao")
  ]

  const EquipmentRules: seq<Rule> := [
    Rule(["không dụng cụ", "bodyweight"], "tự do"),
    Rule(["phòng gym", "gym"], "phòng gym")
  ]

  const DietRules: seq<Rule> := [Rule(["ăn chay"], "ăn chay"), Rule(["ít carb"], "ít carb")]

  const LimitationRules: seq<Rule> := [Rule(["đau", "chấn thương"], "có hạn chế")]

  /** When no rule fires, the field keeps its value. */
  lemma {:induction false} NoRuleFires(rules: seq<Rule>, lower: string, previous: Option<string>)
    requires forall k :: 0 <= k < |rules| ==> !ContainsAny(lower, rules[k].triggers)
    ensures Applied(rules, lower, previous) == previous
  {
    if rules != [] {
      var init := rules[..|rules| - 1];
      assert forall k :: 0 <= k < |init| ==> init[k] == rules[k];
      NoRuleFires(init, lower, previous);
    }
  }

  /**
   * The last rule that fires decides the field, whatever it held before. This is the meaning of
   * the sequence of `if` statements, stated without their order of execution.
   */
  lemma {:induction false} LastFiringRuleWins(rules: seq<Rule>, lower: string, previous: Option<string>, k: nat)
    requires k < |rules| && ContainsAny(lower, rules[k].triggers)
    requires forall j :: k < j < |rules| ==> !ContainsAny(lower, rules[j].triggers)
    ensures Applied(rules, lower, previous) == Some(rules[k].value)
  {
    if k < |rules| - 1 {
      var init := rules[..|rules| - 1];
      assert forall j :: k <= j < |init| ==> init[j] == rules[j];
      LastFiringRuleWins(init, lower, previous, k);
    }
  }

  /** A field is never reset to `null`: once set, it stays set. */
  lemma {:induction false} AppliedNeverResets(rules: seq<Rule>, lower: string, previous: Option<string>)
    requires previous.Some?
    ensures Applied(rules, lower, previous).Some?
  {
    if rules != [] {
      AppliedNeverResets(rules[..|rules| - 1], lower, previous);
    }
  }

  /** The position of the last rule that fires, or -1 when none does. */
  lemma {:induction false} LastFiring(rules: seq<Rule>, lower: string) returns (k: int)
    ensures -1 <= k < |rules|
    ensures k >= 0 ==> ContainsAny(lower, rules[k].triggers)
    ensures forall j :: k < j < |rules| ==> !ContainsAny(lower, rules[j].triggers)
  {
    if rules == [] {
      k := -1;
    } else if ContainsAny(lower, rules[|rules| - 1].triggers) {
      k := |rules| - 1;
    } else {
      var init := rules[..|rules| - 1];
      k := LastFiring(init, lower);
      assert forall j :: k < j < |init| ==> init[j] == rules[j];
    }
  }

  /** Reading the same text twice changes nothing the first reading did not. */
  lemma AppliedIdempotent(rules: seq<Rule>, lower: string, previous: Option<string>)
    ensures Applied(rules, lower, Applied(rules, lower, previous)) == Applied(rules, lower, previous)
  {
    var once := Applied(rules, lower, previous);
    var k := LastFiring(rules, lower);
    if k < 0 {
      NoRuleFires(rules, lower, previous);
      NoRuleFires(rules, lower, once);
    } else {
      LastFiringRuleWins(rules, lower, previous, k);
      LastFiringRuleWins(rules, lower, once, k);
    }
  }

  // ---------------------------------------------------------------- the two regular expressions

  /** A match of a regular expression: where its first group starts in the text, and how long it is. */
  datatype Capture = Capture(start: nat, length: nat)

  /** The number of ASCII digits in the run that starts at `i`. */
  function DigitRun(s: string, i: nat): (n: nat)
    requires i <= |s|
    ensures i + n <= |s|
    ensures forall j :: i <= j < i + n ==> IsAsciiDigit(s[j])
    ensures i + n == |s| || !IsAsciiDigit(s[i + n])
    decreases |s| - i
  {
    if i < |s| && IsAsciiDigit(s[i]) then 1 + DigitRun(s, i + 1) else 0
  }

  /** The number of white-space characters (`\s`) in the run that starts at `i`. */
  function SpaceRun(s: string, i: nat): (n: nat)
    requires i <= |s|
    ensures i + n <= |s|
    ensures forall j :: i <= j < i + n ==> IsJsWhitespace(s[j])
    ensures i + n == |s| || !IsJsWhitespace(s[i + n])
    decreases |s| - i
  {
    if i < |s| && IsJsWhitespace(s[i]) then 1 + SpaceRun(s, i + 1) else 0
  }

  /** The lower-case word `p` occurs at `k`, compared without regard to letter case (the `i` flag). */
  predicate WordAt(s: string, k: nat, p: string) {
    k + |p| <= |s| && forall j :: 0 <= j < |p| ==> LowerChar(s[k + j]) == p[j]
  }

  /**
   * `/(\d+)\s*(buổi|ngày)/i` matches at `i`: a run of digits, any white space, then "buổi" or
   * "ngày". The greedy runs need no backtracking: giving back a digit or a space leaves a digit
   * or a space where the word must start.
   */
  predicate ScheduleAt(s: string, i: nat) {
    i < |s| && IsAsciiDigit(s[i]) && UnitAt(s, UnitStart(s, i))
  }

  /** Where the unit word must start for a match at `i`: after the digit run and the white space. */
  function UnitStart(s: string, i: nat): nat
    requires i <= |s|
  {
    i + DigitRun(s, i) + SpaceRun(s, i + DigitRun(s, i))
  }

  /** "buổi" or "ngày" at `k`. */
  predicate UnitAt(s: string, k: nat) {
    WordAt(s, k, "buổi") || WordAt(s, k, "ngày")
  }

  /**
   * The backtracking reading of the pattern gives nothing the greedy one misses: any split of the
   * text at `i` into `d >= 1` digits, `sp` white-space characters and a unit word is the split
   * into the whole digit run and the whole white-space run, so `ScheduleAt` holds.
   */
  lemma ScheduleAtWithoutBacktracking(s: string, i: nat, d: nat, sp: nat)
    requires i <= |s| && 1 <= d <= DigitRun(s, i) && sp <= SpaceRun(s, i + d) && UnitAt(s, i + d + sp)
    ensures d == DigitRun(s, i) && sp == SpaceRun(s, i + d)
    ensures ScheduleAt(s, i)
  {
    var k := i + d + sp;
    if WordAt(s, k, "buổi") {
      assert LowerChar(s[k + 0]) == "buổi"[0] == 'b';
    } else {
      assert LowerChar(s[k + 0]) == "ngày"[0] == 'n';
    }
    LowerCharFixes(s[k]);
    assert !IsAsciiDigit(s[k]) && !IsJsWhitespace(s[k]);
    assert !IsAsciiDigit(s[i + d]) by {
      if sp > 0 {
        assert IsJsWhitespace(s[i + d]);
      }
    }
  }

  /** A match starting at a digit also starts one digit earlier, at the same unit word. */
  lemma ScheduleAtEarlier(s: string, i: nat)
    requires 0 < i < |s| && IsAsciiDigit(s[i - 1])
    ensures UnitStart(s, i - 1) == UnitStart(s, i)
  {
    assert DigitRun(s, i - 1) == 1 + DigitRun(s, i);
  }

  /**
   * The least position in `[i, n)` that satisfies `p`, if any: the leftmost-first search of
   * `String.prototype.match`, which tries one start position after the other.
   */
  function FirstFrom(p: nat -> bool, i: nat, n: nat): (r: Option<nat>)
    ensures r.None? <==> forall j :: i <= j < n ==> !p(j)
    ensures r.Some? ==> i <= r.value < n && p(r.value) && forall j :: i <= j < r.value ==> !p(j)
    decreases n - i
  {
    if i >= n then None else if p(i) then Some(i) else FirstFrom(p, i + 1, n)
  }

  /** `text.match(/(\d+)\s*(buổi|ngày)/i)`: the leftmost match, with the digit run as its group. */
  function ScheduleMatch(text: string): (r: Option<Capture>)
    ensures r.None? <==> forall j :: 0 <= j < |text| ==> !ScheduleAt(text, j)
    ensures r.Some? ==> r.value.start < |text| && ScheduleAt(text, r.value.start)
    ensures r.Some? ==> r.value.length == DigitRun(text, r.value.start)
    ensures r.Some? ==> forall j :: 0 <= j < r.value.start ==> !ScheduleAt(text, j)
  {
    var at := (j: nat) => ScheduleAt(text, j);
    assert forall j: nat :: at(j) == ScheduleAt(text, j);
    var first := FirstFrom(at, 0, |text|);
    if first.None? then None else Some(Capture(first.value, DigitRun(text, first.value)))
  }

  /**
   * The number read as the schedule is a whole digit run: the match never starts in the middle
   * of a number, since it would then have started one digit earlier.
   */
  lemma ScheduleTakesWholeNumber(text: string)
    requires ScheduleMatch(text).Some?
    ensures var c := ScheduleMatch(text).value;
      c.length >= 1 && (c.start == 0 || !IsAsciiDigit(text[c.start - 1]))
  {
    var c := ScheduleMatch(text).value;
    if c.start > 0 && IsAsciiDigit(text[c.start - 1]) {
      ScheduleAtEarlier(text, c.start);
      assert ScheduleAt(text, c.start - 1);
      assert false;
    }
  }

  /**
   * `/(\d{2,3})\s?kg/i` matches at `i` with a group of `d` digits: `d` digits, at most one white-space
   * character, then "kg". There is no word boundary, so a group may be the tail of a longer number.
   */
  predicate BodyAt(s: string, i: nat, d: nat) {
    i <= |s| && d <= DigitRun(s, i) && KgAt(s, i + d)
  }

  /** `\s?kg` at `k`: "kg" right there, or after one white-space character. */
  predicate KgAt(s: string, k: nat) {
    WordAt(s, k, "kg") || (k < |s| && IsJsWhitespace(s[k]) && WordAt(s, k + 1, "kg"))
  }

  /** A body match starts at `i` with some group length the engine tries (three digits, then two). */
  predicate BodyStartsAt(s: string, i: nat) {
    BodyAt(s, i, 3) || BodyAt(s, i, 2)
  }

  /**
   * `text.match(/(\d{2,3})\s?kg/i)`: the leftmost match; at that position three digits are tried
   * before two.
   */
  function BodyMatch(text: string): (r: Option<Capture>)
    ensures r.None? <==> forall j :: 0 <= j < |text| ==> !BodyStartsAt(text, j)
    ensures r.Some? ==> r.value.start < |text| && BodyAt(text, r.value.start, r.value.length)
    ensures r.Some? ==> r.value.length == 3 || (r.value.length == 2 && !BodyAt(text, r.value.start, 3))
    ensures r.Some? ==> forall j :: 0 <= j < r.value.start ==> !BodyStartsAt(text, j)
  {
    var at := (j: nat) => BodyStartsAt(text, j);
    assert forall j: nat :: at(j) == BodyStartsAt(text, j);
    var first := FirstFrom(at, 0, |text|);
    if first.None? then None
    else if BodyAt(text, first.value, 3) then Some(Capture(first.value, 3))
    else Some(Capture(first.value, 2))
  }

  /** The text of a capture group. */
  function Group(s: string, c: Capture): string
    requires c.start + c.length <= |s|
  {
    s[c.start..c.start + c.length]
  }

  /** No match starts on the first character of "1234kg": four digits are one too many. */
  lemma BodySampleNotAtStart()
    ensures !BodyStartsAt("1234kg", 0)
  {
    var t := "1234kg";
    var kg := "kg";
    LowerCharFixes(t[3]);
    LowerCharFixes(t[2]);
    assert LowerChar(t[3 + 0]) != kg[0];
    assert LowerChar(t[2 + 0]) != kg[0];
    assert !WordAt(t, 3, kg) && !WordAt(t, 2, kg);
  }

  /** "234kg" inside "1234kg" is a match with a three-digit group. */
  lemma BodySampleAtOne()
    ensures BodyAt("1234kg", 1, 3)
  {
    var t := "1234kg";
    assert DigitRun(t, 4) == 0;
    assert DigitRun(t, 1) == 3;
    assert WordAt(t, 4, "kg");
  }

  /** `/(\d{2,3})\s?kg/i` has no word boundary: in "1234kg" it matches "234". */
  lemma BodyExample()
    ensures BodyMatch("1234kg") == Some(Capture(1, 3))
  {
    var t := "1234kg";
    BodySampleNotAtStart();
    BodySampleAtOne();
    assert BodyStartsAt(t, 1);
    var m := BodyMatch(t);
    assert m.Some? && m.value.start <= 1;
  }

  /** The letters of "ngày" are already lower-case. */
  lemma NgayAtTwo()
    ensures WordAt("3 ngày", 2, "ngày")
  {
    assert LowerChar('n') == 'n' && LowerChar('g') == 'g';
    assert LowerChar('à') == 'à' && LowerChar('y') == 'y';
  }

  /** "3 ngày" holds the unit word "ngày" after one digit and one space. */
  lemma ScheduleSampleAtStart()
    ensures ScheduleAt("3 ngày", 0)
  {
    var t := "3 ngày";
    assert DigitRun(t, 1) == 0;
    assert SpaceRun(t, 2) == 0;
    assert UnitStart(t, 0) == 2;
    NgayAtTwo();
  }

  /** `/(\d+)\s*(buổi|ngày)/i` finds "3 ngày" at the start, with "3" as its group. */
  lemma ScheduleExample()
    ensures ScheduleMatch("3 ngày") == Some(Capture(0, 1))
  {
    ScheduleSampleAtStart();
    assert DigitRun("3 ngày", 1) == 0;
  }

  // ---------------------------------------------------------------- the session memory

  /** The seven fields of `state.memory`, each `null` until some text sets it. */
  datatype Profile = Profile(
    goal: Option<string>,
    experience: Option<string>,
    equipment: Option<string>,
    schedule: Option<string>,
    diet: Option<string>,
    limitations: Option<string>,
    body: Option<string>)

  const EmptyProfile: Profile := Profile(None, None, None, None, None, None, None)

  /** The schedule after reading `text`: "<n> buổi/tuần" from the group of the first match, whichever unit word matched. */
  function ScheduleValue(text: string, previous: Option<string>): Option<string> {
    var m := ScheduleMatch(text);
    if m.None? then previous else Some(Group(text, m.value) + " buổi/tuần")
  }

  /** The body weight after reading `text`: "<n> kg" from the group of the first match. */
  function BodyValue(text: string, previous: Option<string>): Option<string> {
    var m := BodyMatch(text);
    if m.None? then previous else Some(Group(text, m.value) + " kg")
  }

  /**
   * What `updateMemoryFromText` leaves in the memory: each keyword field by its rules on the
   * lower-cased text, the schedule and the body weight by their expressions on the text as typed.
   */
  function Updated(p: Profile, text: string): Profile {
    var lower := Lower(text);
    Profile(
      Applied(GoalRules, lower, p.goal),
      Applied(ExperienceRules, lower, p.experience),
      Applied(EquipmentRules, lower, p.equipment),
      ScheduleValue(text, p.schedule),
      Applied(DietRules, lower, p.diet),
      Applied(LimitationRules, lower, p.limitations),
      BodyValue(text, p.body))
  }

  lemma AppliedOne(r0: Rule, lower: string, previous: Option<string>)
    ensures Applied([r0], lower, previous) == Fire(r0, lower, previous)
  {
    assert [r0][..0] == [];
  }

  lemma AppliedTwo(r0: Rule, r1: Rule, lower: string, previous: Option<string>)
    ensures Applied([r0, r1], lower, previous) == Fire(r1, lower, Fire(r0, lower, previous))
  {
    assert [r0, r1][..1] == [r0];
    AppliedOne(r0, lower, previous);
  }

  lemma AppliedThree(r0: Rule, r1: Rule, r2: Rule, lower: string, previous: Option<string>)
    ensures Applied([r0, r1, r2], lower, previous) == Fire(r2, lower, Fire(r1, lower, Fire(r0, lower, previous)))
  {
    assert [r0, r1, r2][..2] == [r0, r1];
    AppliedTwo(r0, r1, lower, previous);
  }

  /** The goal rules, written out as the three `if` lines of the source. */
  lemma GoalRulesWrittenOut(lower: string, previous: Option<string>)
    ensures Applied(GoalRules, lower, previous) ==
      if Contains(lower, "giữ form") || Contains(lower, "giữ dáng") then Some("giữ form")
      else if Contains(lower, "giảm mỡ") || Contains(lower, "giảm cân") then Some("giảm mỡ")
      else if Contains(lower, "tăng cơ") then Some("tăng cơ")
      else previous
  {
    AppliedThree(GoalRules[0], GoalRules[1], GoalRules[2], lower, previous);
    ContainsAnyOne(lower, "tăng cơ");
    ContainsAnyTwo(lower, "giảm mỡ", "giảm cân");
    ContainsAnyTwo(lower, "giữ form", "giữ dáng");
  }

  lemma ExperienceRulesWrittenOut(lower: string, previous: Option<string>)
    ensures Applied(ExperienceRules, lower, previous) ==
      if Contains(lower, "nâng cao") || Contains(lower, "advanced") then Some("nâng cao")
      else if Contains(lower, "trung cấp") || Contains(lower, "intermediate") then Some("trung cấp")
      else if Contains(lower, "mới tập") || Contains(lower, "beginner") then Some("mới tập")
      else previous
  {
    AppliedThree(ExperienceRules[0], ExperienceRules[1], ExperienceRules[2], lower, previous);
    ContainsAnyTwo(lower, "mới tập", "beginner");
    ContainsAnyTwo(lower, "trung cấp", "intermediate");
    ContainsAnyTwo(lower, "nâng cao", "advanced");
  }

  lemma EquipmentRulesWrittenOut(lower: string, previous: Option<string>)
    ensures Applied(EquipmentRules, lower, previous) ==
      if Contains(lower, "phòng gym") || Contains(lower, "gym") then Some("phòng gym")
      else if Contains(lower, "không dụng cụ") || Contains(lower, "bodyweight") then Some("tự do")
      else previous
  {
    AppliedTwo(EquipmentRules[0], EquipmentRules[1], lower, previous);
    ContainsAnyTwo(lower, "không dụng cụ", "bodyweight");
    ContainsAnyTwo(lower, "phòng gym", "gym");
  }

  lemma DietRulesWrittenOut(lower: string, previous: Option<string>)
    ensures Applied(DietRules, lower, previous) ==
      if Contains(lower, "ít carb") then Some("ít carb")
      else if Contains(lower, "ăn chay") then Some("ăn chay")
      else previous
  {
    AppliedTwo(DietRules[0], DietRules[1], lower, previous);
    ContainsAnyOne(lower, "ăn chay");
    ContainsAnyOne(lower, "ít carb");
  }

  lemma LimitationRulesWrittenOut(lower: string, previous: Option<string>)
    ensures Applied(LimitationRules, lower, previous) ==
      if Contains(lower, "đau") || Contains(lower, "chấn thương") then Some("có hạn chế") else previous
  {
    AppliedOne(LimitationRules[0], lower, previous);
    ContainsAnyTwo(lower, "đau", "chấn thương");
  }

  /** No keyword field is ever reset to `null`: a field that was set stays set. */
  lemma UpdatedNeverResets(p: Profile, text: string)
    ensures p.goal.Some? ==> Updated(p, text).goal.Some?
    ensures p.experience.Some? ==> Updated(p, text).experience.Some?
    ensures p.equipment.Some? ==> Updated(p, text).equipment.Some?
    ensures p.diet.Some? ==> Updated(p, text).diet.Some?
    ensures p.limitations.Some? ==> Updated(p, text).limitations.Some?
  {
    var lower := Lower(text);
    if p.goal.Some? { AppliedNeverResets(GoalRules, lower, p.goal); }
    if p.experience.Some? { AppliedNeverResets(ExperienceRules, lower, p.experience); }
    if p.equipment.Some? { AppliedNeverResets(EquipmentRules, lower, p.equipment); }
    if p.diet.Some? { AppliedNeverResets(DietRules, lower, p.diet); }
    if p.limitations.Some? { AppliedNeverResets(LimitationRules, lower, p.limitations); }
  }

  /** Nor are the schedule and the body weight: without a match they keep their value. */
  lemma MatchedFieldsNeverReset(p: Profile, text: string)
    ensures p.schedule.Some? ==> ScheduleValue(text, p.schedule).Some?
    ensures p.body.Some? ==> BodyValue(text, p.body).Some?
  {
  }

  /** Reading the same text a second time changes nothing. */
  lemma UpdatedIdempotent(p: Profile, text: string)
    ensures Updated(Updated(p, text), text) == Updated(p, text)
  {
    var lower := Lower(text);
    AppliedIdempotent(GoalRules, lower, p.goal);
    AppliedIdempotent(ExperienceRules, lower, p.experience);
    AppliedIdempotent(EquipmentRules, lower, p.equipment);
    AppliedIdempotent(DietRules, lower, p.diet);
    AppliedIdempotent(LimitationRules, lower, p.limitations);
  }

  /** "giảm cân" comes after "tăng cơ" in the source, so a text with both sets the goal to "giảm mỡ". */
  lemma LaterGoalWins(p: Profile, text: string)
    requires Contains(Lower(text), "tăng cơ") && Contains(Lower(text), "giảm cân")
    requires !Contains(Lower(text), "giữ form") && !Contains(Lower(text), "giữ dáng")
    ensures Updated(p, text).goal == Some("giảm mỡ")
  {
    GoalRulesWrittenOut(Lower(text), p.goal);
  }

  /** "gym" is the last equipment trigger, so it overrides "bodyweight" and "không dụng cụ". */
  lemma GymWins(p: Profile, text: string)
    requires Contains(Lower(text), "gym")
    ensures Updated(p, text).equipment == Some("phòng gym")
  {
    EquipmentRulesWrittenOut(Lower(text), p.equipment);
  }

  /** "ít carb" is checked after "ăn chay", so it wins when both occur. */
  lemma LowCarbWins(p: Profile, text: string)
    requires Contains(Lower(text), "ít carb")
    ensures Updated(p, text).diet == Some("ít carb")
  {
    DietRulesWrittenOut(Lower(text), p.diet);
  }

  /** The limitations become "có hạn chế" exactly when "đau" or "chấn thương" occurs, unless they already were. */
  lemma LimitationsRule(p: Profile, text: string)
    ensures Contains(Lower(text), "đau") || Contains(Lower(text), "chấn thương") ==>
      Updated(p, text).limitations == Some("có hạn chế")
    ensures !Contains(Lower(text), "đau") && !Contains(Lower(text), "chấn thương") ==>
      Updated(p, text).limitations == p.limitations
  {
    LimitationRulesWrittenOut(Lower(text), p.limitations);
  }

  /** A body weight is read from a group of two or three digits. */
  lemma BodyGroupDigits(text: string)
    requires BodyMatch(text).Some?
    ensures var c := BodyMatch(text).value;
      2 <= c.length <= 3 && c.start + c.length <= |text|
      && forall k :: c.start <= k < c.start + c.length ==> IsAsciiDigit(text[k])
  {
  }

  /** Fields each read from `text` make up `Updated` of the profile before. */
  lemma FieldsUpdated(before: Profile, goal: Option<string>, experience: Option<string>, equipment: Option<string>,
                      schedule: Option<string>, diet: Option<string>, limitations: Option<string>,
                      body: Option<string>, text: string)
    requires goal == Applied(GoalRules, Lower(text), before.goal)
    requires experience == Applied(ExperienceRules, Lower(text), before.experience)
    requires equipment == Applied(EquipmentRules, Lower(text), before.equipment)
    requires schedule == ScheduleValue(text, before.schedule)
    requires diet == Applied(DietRules, Lower(text), before.diet)
    requires limitations == Applied(LimitationRules, Lower(text), before.limitations)
    requires body == BodyValue(text, before.body)
    ensures Profile(goal, experience, equipment, schedule, diet, limitations, body) == Updated(before, text)
  {
  }

  /** Lines 114-116 of `updateMemoryFromText`: the goal, each trigger overriding the one before. */
  method ReadGoal(lower: string, current: Option<string>) returns (goal: Option<string>)
    ensures goal == Applied(GoalRules, lower, current)
  {
    GoalRulesWrittenOut(lower, current);
    goal := current;
    if Contains(lower, "tăng cơ") { goal := Some("tăng cơ"); }
    if Contains(lower, "giảm mỡ") || Contains(lower, "giảm cân") { goal := Some("giảm mỡ"); }
    if Contains(lower, "giữ form") || Contains(lower, "giữ dáng") { goal := Some("giữ form"); }
  }

  method ReadExperience(lower: string, current: Option<string>) returns (experience: Option<string>)
    ensures experience == Applied(ExperienceRules, lower, current)
  {
    ExperienceRulesWrittenOut(lower, current);
    experience := current;
    if Contains(lower, "mới tập") || Contains(lower, "beginner") { experience := Some("mới tập"); }
    if Contains(lower, "trung cấp") || Contains(lower, "intermediate") { experience := Some("trung cấp"); }
    if Contains(lower, "nâng cao") || Contains(lower, "advanced") { experience := Some("nâng cao"); }
  }

  method ReadEquipment(lower: string, current: Option<string>) returns (equipment: Option<string>)
    ensures equipment == Applied(EquipmentRules, lower, current)
  {
    EquipmentRulesWrittenOut(lower, current);
    equipment := current;
    if Contains(lower, "không dụng cụ") || Contains(lower, "bodyweight") { equipment := Some("tự do"); }
    if Contains(lower, "phòng gym") || Contains(lower, "gym") { equipment := Some("phòng gym"); }
  }

  method ReadSchedule(text: string, current: Option<string>) returns (schedule: Option<string>)
    ensures schedule == ScheduleValue(text, current)
  {
    schedule := current;
    var scheduleMatch := ScheduleMatch(text);
    if scheduleMatch.Some? { schedule := Some(Group(text, scheduleMatch.value) + " buổi/tuần"); }
  }

  method ReadDiet(lower: string, current: Option<string>) returns (diet: Option<string>)
    ensures diet == Applied(DietRules, lower, current)
  {
    DietRulesWrittenOut(lower, current);
    diet := current;
    if Contains(lower, "ăn chay") { diet := Some("ăn chay"); }
    if Contains(lower, "ít carb") { diet := Some("ít carb"); }
  }

  method ReadLimitations(lower: string, current: Option<string>) returns (limitations: Option<string>)
    ensures limitations == Applied(LimitationRules, lower, current)
  {
    LimitationRulesWrittenOut(lower, current);
    limitations := current;
    if Contains(lower, "đau") || Contains(lower, "chấn thương") { limitations := Some("có hạn chế"); }
  }

  method ReadBody(text: string, current: Option<string>) returns (body: Option<string>)
    ensures body == BodyValue(text, current)
  {
    body := current;
    var bodyMatch := BodyMatch(text);
    if bodyMatch.Some? { body := Some(Group(text, bodyMatch.value) + " kg"); }
  }

  /** `state.memory`: the fields `updateMemoryFromText` overwrites in place. */
  class Memory {
    var goal: Option<string>
    var experience: Option<string>
    var equipment: Option<string>
    var schedule: Option<string>
    var diet: Option<string>
    var limitations: Option<string>
    var body: Option<string>

    /** The memory's fields as one value. */
    function Snapshot(): Profile
      reads this
    {
      Profile(goal, experience, equipment, schedule, diet, limitations, body)
    }

    /** Every field starts out `null`. */
    constructor()
      ensures Snapshot() == EmptyProfile
    {
      goal, experience, equipment, schedule := None, None, None, None;
      diet, limitations, body := None, None, None;
    }

    /**
     * `updateMemoryFromText`: the trigger lines of the source, one after the other; the lines
     * of each field are consecutive there, and each group is one method here.
     */
    method UpdateFromText(text: string)
      modifies this
      ensures Snapshot() == Updated(old(Snapshot()), text)
    {
      ghost var before := Snapshot();
      var lower := Lower(text);
      goal := ReadGoal(lower, goal);
      experience := ReadExperience(lower, experience);
      equipment := ReadEquipment(lower, equipment);
      schedule := ReadSchedule(text, schedule);
      diet := ReadDiet(lower, diet);
      limitations := ReadLimitations(lower, limitations);
      body := ReadBody(text, body);
      FieldsUpdated(before, goal, experience, equipment, schedule, diet, limitations, body, text);
    }
  }

  // ---------------------------------------------------------------- the chat history

  /** An entry's `meta`: its `type`, and for a meal reply whether a follow-up is needed. */
  datatype Meta = Meta(kind: Option<string>, followUp: Option<bool>)

  /** The default `meta = {}`. */
  const NoMeta: Meta := Meta(None, None)

  /** One entry of `state.history`; `timestamp` is the ISO time the caller supplies. */
  datatype Entry = Entry(role: string, content: string, meta: Meta, timestamp: string)

  /** One message of the `/api/chat` payload: a role and the content, nothing else. */
  datatype ApiTurn = ApiTurn(role: string, content: string)

  /** The roles `buildApiMessages` keeps. */
  predicate IsChatRole(role: string) {
    role == "user" || role == "assistant"
  }

  /** The `map` step of `buildApiMessages`. */
  function ApiTurnOf(e: Entry): ApiTurn {
    ApiTurn(if e.role == "user" then "user" else "assistant", e.content)
  }

  /** `buildApiMessages`: the user and assistant entries of the history, in order, as API messages. */
  function BuildApiMessages(history: seq<Entry>): (r: seq<ApiTurn>)
    ensures |r| <= |history|
    ensures forall k :: 0 <= k < |r| ==> IsChatRole(r[k].role)
  {
    if history == [] then []
    else
      var init := BuildApiMessages(history[..|history| - 1]);
      var last := history[|history| - 1];
      if IsChatRole(last.role) then init + [ApiTurnOf(last)] else init
  }

  /** A single entry is kept, as its role and content, exactly when it is a user or assistant entry. */
  lemma ApiMessagesOfOne(e: Entry)
    ensures BuildApiMessages([e]) == if IsChatRole(e.role) then [ApiTurn(e.role, e.content)] else []
  {
    assert [e][..0] == [];
  }

  /** The filter and the map work entry by entry: the messages of two histories put together are put together. */
  lemma {:induction false} ApiMessagesConcat(a: seq<Entry>, b: seq<Entry>)
    ensures BuildApiMessages(a + b) == BuildApiMessages(a) + BuildApiMessages(b)
    decreases |b|
  {
    if b == [] {
      assert a + b == a;
    } else {
      var init := b[..|b| - 1];
      ApiMessagesConcat(a, init);
      assert (a + b)[..|a + b| - 1] == a + init;
      assert (a + b)[|a + b| - 1] == b[|b| - 1];
    }
  }

  /** A history with no user or assistant entry sends no message. */
  lemma {:induction false} ApiMessagesDropsOthers(history: seq<Entry>)
    requires forall k :: 0 <= k < |history| ==> !IsChatRole(history[k].role)
    ensures BuildApiMessages(history) == []
  {
    if history != [] {
      var init := history[..|history| - 1];
      assert forall k :: 0 <= k < |init| ==> init[k] == history[k];
      ApiMessagesDropsOthers(init);
    }
  }

  /** A history of user and assistant entries only is sent one message per entry. */
  lemma {:induction false} ApiMessagesKeepCount(history: seq<Entry>)
    requires forall k :: 0 <= k < |history| ==> IsChatRole(history[k].role)
    ensures |BuildApiMessages(history)| == |history|
  {
    if history != [] {
      var init := history[..|history| - 1];
      assert forall k :: 0 <= k < |init| ==> init[k] == history[k];
      ApiMessagesKeepCount(init);
    }
  }

  /** In such a history the `k`-th message is the role and the content of the `k`-th entry. */
  lemma {:induction false} ApiMessageAt(history: seq<Entry>, k: nat)
    requires forall j :: 0 <= j < |history| ==> IsChatRole(history[j].role)
    requires k < |history|
    ensures |BuildApiMessages(history)| == |history|
    ensures BuildApiMessages(history)[k] == ApiTurn(history[k].role, history[k].content)
  {
    ApiMessagesKeepCount(history);
    var init := history[..|history| - 1];
    var last := history[|history| - 1];
    assert forall j :: 0 <= j < |init| ==> init[j] == history[j];
    assert IsChatRole(last.role);
    assert BuildApiMessages(history) == BuildApiMessages(init) + [ApiTurnOf(last)];
    if k < |init| {
      ApiMessageAt(init, k);
    } else {
      assert ApiTurnOf(last) == ApiTurn(last.role, last.content);
    }
  }

  /** So such a history is sent entry by entry, in order. */
  lemma ApiMessagesKeepChat(history: seq<Entry>)
    requires forall k :: 0 <= k < |history| ==> IsChatRole(history[k].role)
    ensures |BuildApiMessages(history)| == |history|
    ensures forall k :: 0 <= k < |history| ==>
      BuildApiMessages(history)[k] == ApiTurn(history[k].role, history[k].content)
  {
    ApiMessagesKeepCount(history);
    forall k | 0 <= k < |history|
      ensures BuildApiMessages(history)[k] == ApiTurn(history[k].role, history[k].content)
    {
      ApiMessageAt(history, k);
    }
  }

  /** Only roles and contents reach the API: the meta data and the timestamps make no difference. */
  lemma {:induction false} ApiMessagesIgnoreMeta(a: seq<Entry>, b: seq<Entry>)
    requires |a| == |b|
    requires forall k :: 0 <= k < |a| ==> a[k].role == b[k].role && a[k].content == b[k].content
    ensures BuildApiMessages(a) == BuildApiMessages(b)
  {
    if a != [] {
      var n := |a| - 1;
      assert forall k :: 0 <= k < n ==> a[..n][k] == a[k] && b[..n][k] == b[k];
      ApiMessagesIgnoreMeta(a[..n], b[..n]);
    }
  }

  /** The payload `sendMessage` builds ends with the message just typed. */
  lemma SentLast(history: seq<Entry>, text: string, now: string)
    ensures BuildApiMessages(history + [Entry("user", text, NoMeta, now)]) ==
      BuildApiMessages(history) + [ApiTurn("user", text)]
  {
    var e := Entry("user", text, NoMeta, now);
    ApiMessagesConcat(history, [e]);
    ApiMessagesOfOne(e);
  }

  /** Every entry is a user or an assistant entry, as every entry the client appends is. */
  predicate ChatOnly(history: seq<Entry>) {
    forall k :: 0 <= k < |history| ==> IsChatRole(history[k].role)
  }

  /** Appending a user or assistant entry keeps a history chat-only. */
  lemma ChatOnlyAppend(history: seq<Entry>, e: Entry)
    requires ChatOnly(history) && IsChatRole(e.role)
    ensures ChatOnly(history + [e])
  {
    assert forall k :: 0 <= k < |history| ==> (history + [e])[k] == history[k];
  }

  /** The payload of a chat-only history holds every entry, one message each, in order. */
  lemma ChatOnlyPayload(history: seq<Entry>)
    requires ChatOnly(history)
    ensures |BuildApiMessages(history)| == |history|
    ensures forall k :: 0 <= k < |history| ==>
      BuildApiMessages(history)[k] == ApiTurn(history[k].role, history[k].content)
  {
    ApiMessagesKeepChat(history);
  }

  /** What `fetch` brought back from `/api/chat`: the reply and whether the guard triggered, or an error message. */
  datatype ChatReply = Reply(text: string, guardrailTriggered: bool) | Failed(message: string)

  const ChatErrorPrefix: string := "⚠️ Xin lỗi, có lỗi xảy ra: "
  const FinalizePrefix: string := "Hoàn tất khẩu phần: "
  const FinalizeErrorPrefix: string := "⚠️ Không thể hoàn tất khẩu phần: "

  /** `state` of the page: the history, the text box and the session memory. */
  class ChatState {
    var history: seq<Entry>
    var input: string
    const memory: Memory

    /** An empty history, an empty text box and the empty memory. */
    constructor()
      ensures history == [] && input == ""
      ensures fresh(memory) && memory.Snapshot() == EmptyProfile
    {
      history := [];
      input := "";
      memory := new Memory();
    }

    /** `appendMessage`: one entry more at the end; the earlier entries stay as they were. */
    method AppendMessage(role: string, content: string, meta: Meta, now: string)
      modifies this
      ensures history == old(history) + [Entry(role, content, meta, now)]
      ensures input == old(input)
      ensures ChatOnly(old(history)) && IsChatRole(role) ==> ChatOnly(history)
    {
      if ChatOnly(history) && IsChatRole(role) {
        ChatOnlyAppend(history, Entry(role, content, meta, now));
      }
      history := history + [Entry(role, content, meta, now)];
    }

    /** `clearHistory`: after the confirmation the history is empty; the memory is not touched. */
    method ClearHistory(confirmed: bool)
      modifies this
      ensures history == if confirmed then [] else old(history)
      ensures input == old(input)
      ensures memory.Snapshot() == old(memory.Snapshot())
    {
      if !confirmed {
        return;
      }
      history := [];
    }

    /**
     * `sendMessage` up to the request: the trimmed text is appended as a user entry and read into
     * the memory, the text box is cleared, and the payload is the whole history as API messages.
     * An empty text changes nothing and sends nothing.
     */
    method SendMessage(now: string) returns (payload: Option<seq<ApiTurn>>)
      modifies this, memory
      ensures JsTrim(old(input)) == [] ==>
        payload.None? && history == old(history) && input == old(input)
        && memory.Snapshot() == old(memory.Snapshot())
      ensures JsTrim(old(input)) != [] ==>
        history == old(history) + [Entry("user", JsTrim(old(input)), NoMeta, now)] && input == ""
        && memory.Snapshot() == Updated(old(memory.Snapshot()), JsTrim(old(input)))
        && payload == Some(BuildApiMessages(history))
      ensures ChatOnly(old(history)) ==> ChatOnly(history)
    {
      var text := JsTrim(input);
      if text == [] {
        return None;
      }
      AppendMessage("user", text, NoMeta, now);
      memory.UpdateFromText(text);
      input := "";
      payload := Some(BuildApiMessages(history));
    }

    /** The end of `sendMessage`: the reply, marked as a guard reply or a chat reply, or the error. */
    method ReceiveChatReply(reply: ChatReply, now: string)
      modifies this
      ensures reply.Reply? ==> (history == old(history) +
        [Entry("assistant", reply.text, Meta(Some(if reply.guardrailTriggered then "guard" else "chat"), None), now)])
      ensures reply.Failed? ==> (history == old(history) +
        [Entry("assistant", ChatErrorPrefix + reply.message, Meta(Some("error"), None), now)])
      ensures input == old(input)
      ensures ChatOnly(old(history)) ==> ChatOnly(history)
    {
      match reply
      case Reply(text, guardrailTriggered) =>
        AppendMessage("assistant", text, Meta(Some(if guardrailTriggered then "guard" else "chat"), None), now);
      case Failed(message) =>
        AppendMessage("assistant", ChatErrorPrefix + message, Meta(Some("error"), None), now);
    }

    /**
     * `finalizeMeal` up to the request: the trimmed clarifications are read into the memory and
     * appended as a "finalize" entry, the text box is cleared, and the clarifications are what
     * is sent. Empty clarifications change nothing and send nothing.
     */
    method FinalizeMeal(now: string) returns (clarifications: Option<string>)
      modifies this, memory
      ensures JsTrim(old(input)) == [] ==>
        clarifications.None? && history == old(history) && input == old(input)
        && memory.Snapshot() == old(memory.Snapshot())
      ensures JsTrim(old(input)) != [] ==>
        clarifications == Some(JsTrim(old(input)))
        && history == old(history) +
           [Entry("user", FinalizePrefix + JsTrim(old(input)), Meta(Some("finalize"), None), now)]
        && input == ""
        && memory.Snapshot() == Updated(old(memory.Snapshot()), JsTrim(old(input)))
      ensures ChatOnly(old(history)) ==> ChatOnly(history)
    {
      var text := JsTrim(input);
      if text == [] {
        return None;
      }
      memory.UpdateFromText(text);
      AppendMessage("user", FinalizePrefix + text, Meta(Some("finalize"), None), now);
      input := "";
      clarifications := Some(text);
    }

    /** The end of `finalizeMeal`: the reply as a "meal-final" entry, or the error. */
    method ReceiveFinalizeReply(reply: Result<string, string>, now: string)
      modifies this
      ensures reply.Success? ==> history == old(history) + [Entry("assistant", reply.value, Meta(Some("meal-final"), None), now)]
      ensures reply.Failure? ==> history == old(history) + [Entry("assistant", FinalizeErrorPrefix + reply.error, Meta(Some("error"), None), now)]
      ensures input == old(input)
      ensures ChatOnly(old(history)) ==> ChatOnly(history)
    {
      match reply
      case Success(text) =>
        AppendMessage("assistant", text, Meta(Some("meal-final"), None), now);
      case Failure(message) =>
        AppendMessage("assistant", FinalizeErrorPrefix + message, Meta(Some("error"), None), now);
    }
  }
}
