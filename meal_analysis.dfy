/**
 * The meal-photo rules of the backend (backend/meal_analysis.py): the ordered checks an
 * uploaded image goes through before it is sent for analysis, and the classifier that decides
 * whether the analysis asks the user for more detail.
 */
module MealAnalysis {
  import opened Wrappers
  import opened Text

  newtype byte = x: int | 0 <= x < 256

  /** An HTTP error response: status code and detail message. */
  datatype HttpError = HttpError(status: int, detail: string)

  const BadRequest: int := 400

  /** The content types an upload may declare. */
  const AllowedImageTypes: seq<string> := ["image/jpeg", "image/png", "image/webp", "image/heic"]

  /** The hard upper bound on the size of an image: 8 MiB. */
  const MaxImageBytes: nat := 8 * 1024 * 1024

  const UnsupportedTypeDetail: string := "Định dạng ảnh không được hỗ trợ. Hãy dùng JPG, PNG hoặc WebP."
  const EmptyImageDetail: string := "Không nhận được dữ liệu ảnh."
  const TooLargeDetail: string := "Ảnh vượt quá giới hạn 8MB, vui lòng nén hoặc chụp lại."

  /** The declared content type is on the allow-list (a missing type never is). */
  predicate AllowedType(contentType: Option<string>) {
    contentType.Some? && contentType.value in AllowedImageTypes
  }

  /**
   * `read_image_bytes`: the content type is checked first, then the body is read and must be
   * non-empty and at most 8 MiB; accepted bytes are handed back as read.
   */
  function ReadImageBytes(contentType: Option<string>, data: seq<byte>): (r: Result<seq<byte>, HttpError>)
    ensures r.Success? <==> AllowedType(contentType) && 0 < |data| <= MaxImageBytes
    ensures r.Success? ==> r.value == data
    ensures r.Failure? ==> r.error.status == BadRequest
    ensures !AllowedType(contentType) ==> r.Failure? && r.error.detail == UnsupportedTypeDetail
    ensures AllowedType(contentType) && data == [] ==> r.Failure? && r.error.detail == EmptyImageDetail
    ensures AllowedType(contentType) && |data| > MaxImageBytes ==> r.Failure? && r.error.detail == TooLargeDetail
  {
    if !AllowedType(contentType) then
      Failure(HttpError(BadRequest, UnsupportedTypeDetail))
    else if data == [] then
      Failure(HttpError(BadRequest, EmptyImageDetail))
    else if |data| > MaxImageBytes then
      Failure(HttpError(BadRequest, TooLargeDetail))
    else
      Success(data)
  }

  /** The type is checked before the body is read: with a rejected type the body plays no part. */
  lemma TypeCheckedFirst(contentType: Option<string>, data: seq<byte>, other: seq<byte>)
    requires !AllowedType(contentType)
    ensures ReadImageBytes(contentType, data) == ReadImageBytes(contentType, other)
  {
  }

  /** An image of exactly 8 MiB with an allowed type is accepted; one byte more is rejected as too large. */
  lemma SizeBoundary(contentType: Option<string>, data: seq<byte>, b: byte)
    requires AllowedType(contentType) && |data| == MaxImageBytes
    ensures ReadImageBytes(contentType, data) == Success(data)
    ensures ReadImageBytes(contentType, data + [b]) == Failure(HttpError(BadRequest, TooLargeDetail))
  {
  }

  /** The four allowed types are exactly JPEG, PNG, WebP and HEIC; a missing type is rejected. */
  lemma AllowedTypesListed()
    ensures AllowedType(Some("image/jpeg")) && AllowedType(Some("image/png"))
    ensures AllowedType(Some("image/webp")) && AllowedType(Some("image/heic"))
    ensures !AllowedType(None)
  {
    assert AllowedImageTypes[0] == "image/jpeg";
    assert AllowedImageTypes[1] == "image/png";
    assert AllowedImageTypes[2] == "image/webp";
    assert AllowedImageTypes[3] == "image/heic";
  }

  // ---------------------------------------------------------------- the follow-up classifier

  /** The lower-case phrases that mark a reply asking the user something. */
  const QuestionMark: string := "?"
  const PleasePhrase: string := "vui lòng"
  const ImperativePhrase: string := "hãy"

  lemma PhrasesLowerCase()
    ensures IsLowerCase(QuestionMark) && IsLowerCase(PleasePhrase) && IsLowerCase(ImperativePhrase)
  {
    forall c | c in QuestionMark ensures LowerChar(c) == c { }
    forall c | c in PleasePhrase ensures LowerChar(c) == c { }
    forall c | c in ImperativePhrase ensures LowerChar(c) == c { }
  }

  /** A marker written in lower case in the text is still there once the text is lowered. */
  lemma MarkersSurviveLowering(text: string)
    ensures Contains(text, QuestionMark) ==> Contains(Lower(text), QuestionMark)
    ensures Contains(text, PleasePhrase) ==> Contains(Lower(text), PleasePhrase)
    ensures Contains(text, ImperativePhrase) ==> Contains(Lower(text), ImperativePhrase)
  {
    PhrasesLowerCase();
    if Contains(text, QuestionMark) { ContainsLowered(text, QuestionMark); }
    if Contains(text, PleasePhrase) { ContainsLowered(text, PleasePhrase); }
    if Contains(text, ImperativePhrase) { ContainsLowered(text, ImperativePhrase); }
  }

  /**
   * `detect_follow_up_need`: a missing or empty reply always needs a follow-up; any other reply
   * needs one when its lower-cased text holds "?", "vui lòng" or "hãy", in any letter case.
   */
  function DetectFollowUpNeed(responseText: Option<string>): (r: bool)
    ensures responseText == None || responseText == Some("") ==> r
    ensures responseText.Some? && responseText.value != [] ==>
      (r <==> Contains(Lower(responseText.value), QuestionMark) || Contains(Lower(responseText.value), PleasePhrase)
              || Contains(Lower(responseText.value), ImperativePhrase))
    ensures responseText.Some? && Contains(responseText.value, QuestionMark) ==> r
    ensures responseText.Some? && Contains(responseText.value, PleasePhrase) ==> r
    ensures responseText.Some? && Contains(responseText.value, ImperativePhrase) ==> r
  {
    match responseText
    case None => true
    case Some(text) =>
      if text == [] then true
      else
        var normalized := Lower(text);
        MarkersSurviveLowering(text);
        Contains(normalized, QuestionMark) || Contains(normalized, PleasePhrase) || Contains(normalized, ImperativePhrase)
  }

  /** The markers are found in any letter case: "HÃY" is lowered to "hãy". */
  lemma UpperCaseImperative()
    ensures DetectFollowUpNeed(Some("HÃY"))
  {
    assert Lower("HÃY") == ImperativePhrase;
    assert ImperativePhrase <= Lower("HÃY")[0..];
  }

  /** A reply without any of the markers needs no follow-up. */
  lemma StatementNeedsNoFollowUp()
    ensures !DetectFollowUpNeed(Some("Ổn."))
  {
    var normalized := Lower("Ổn.");
    assert normalized == "ổn.";
    FirstCharAbsent(normalized, QuestionMark);
    FirstCharAbsent(normalized, PleasePhrase);
    FirstCharAbsent(normalized, ImperativePhrase);
  }
}
