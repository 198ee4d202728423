/**
 * The task schema both the create form and the card's editor run before
 * calling the store: the title is trimmed and must hold 1 to 200 characters,
 * the description is optional, trimmed, and must hold at most 1000.
 * Every failing field gets its own message, and a failure blocks the call.
 */
module Validation {
  import opened Opt
  import opened Text

  const TitleMaxLength: nat := 200
  const DescriptionMaxLength: nat := 1000

  const TitleRequired := "Title is required"
  const TitleTooLong := "Title must be less than 200 characters"
  const DescriptionTooLong := "Description must be less than 1000 characters"

  /** The per-field messages shown under the inputs; `None` shows nothing. */
  datatype FieldErrors = FieldErrors(title: Option<string>, description: Option<string>)

  const NoErrors := FieldErrors(None, None)

  /** The schema's output: trimmed values ready to be sent. */
  datatype TaskFields = TaskFields(title: string, description: Option<string>)

  datatype Parsed = Valid(data: TaskFields) | Invalid(errors: FieldErrors)

  /** A title passes iff, once trimmed, it is neither empty nor longer than 200. */
  predicate TitleOk(title: string) {
    1 <= |Trim(title)| <= TitleMaxLength
  }

  /** A description passes iff it is absent or trims to at most 1000 characters. */
  predicate DescriptionOk(description: Option<string>) {
    description.None? || |Trim(description.value)| <= DescriptionMaxLength
  }

  /** The message for the title, if any: `min(1)` and `max(200)` on the trimmed value. */
  function TitleIssue(title: string): Option<string> {
    var t := Trim(title);
    if |t| < 1 then Some(TitleRequired)
    else if |t| > TitleMaxLength then Some(TitleTooLong)
    else None
  }

  /** The message for the description, if any: `max(1000)` on the trimmed value. */
  function DescriptionIssue(description: Option<string>): Option<string> {
    match description
    case None => None
    case Some(d) => if |Trim(d)| > DescriptionMaxLength then Some(DescriptionTooLong) else None
  }

  /** The schema's `safeParse`. It succeeds exactly when both fields pass, and then
      yields the trimmed title and the trimmed description (possibly ""). On failure
      each field carries a message iff that field fails, independently of the other,
      and the message names the bound that was broken. */
  function Validate(title: string, description: Option<string>): (p: Parsed)
    ensures p.Valid? <==> TitleOk(title) && DescriptionOk(description)
    ensures p.Valid? ==>
      && p.data.title == Trim(title) && IsTrimmed(p.data.title)
      && 1 <= |p.data.title| <= TitleMaxLength
      && p.data.description.Some? == description.Some?
      && (description.Some? ==> p.data.description.value == Trim(description.value)
                                && |p.data.description.value| <= DescriptionMaxLength)
    ensures p.Invalid? ==>
      && (p.errors.title.Some? <==> !TitleOk(title))
      && (p.errors.description.Some? <==> !DescriptionOk(description))
      && (|Trim(title)| == 0 ==> p.errors.title == Some(TitleRequired))
      && (|Trim(title)| > TitleMaxLength ==> p.errors.title == Some(TitleTooLong))
      && (!DescriptionOk(description) ==> p.errors.description == Some(DescriptionTooLong))
  {
    var titleIssue := TitleIssue(title);
    var descriptionIssue := DescriptionIssue(description);
    if titleIssue.None? && descriptionIssue.None? then
      Valid(TaskFields(Trim(title), if description.Some? then Some(Trim(description.value)) else None))
    else
      Invalid(FieldErrors(titleIssue, descriptionIssue))
  }

  /** A title of exactly 200 visible characters is accepted, although the
      message for the bound says "less than 200". */
  lemma TitleOf200Accepted(title: string)
    requires IsTrimmed(title) && |title| == 200
    ensures Validate(title, None).Valid?
  {
    TrimOfTrimmed(title);
    assert TitleOk(title);
  }

  /** 201 visible characters is the first title length refused, and only the title is flagged. */
  lemma TitleOf201Refused(title: string)
    requires IsTrimmed(title) && |title| == 201
    ensures Validate(title, None) == Invalid(FieldErrors(Some(TitleTooLong), None))
  {
    TrimOfTrimmed(title);
    assert TitleIssue(title) == Some(TitleTooLong);
  }

  /** The same inclusive bound for the description: 1000 visible characters pass... */
  lemma DescriptionOf1000Accepted(title: string, description: string)
    requires TitleOk(title) && IsTrimmed(description) && |description| == 1000
    ensures Validate(title, Some(description)).Valid?
  {
    TrimOfTrimmed(description);
    assert DescriptionOk(Some(description));
  }

  /** ...and 1001 are refused, with only the description flagged. */
  lemma DescriptionOf1001Refused(title: string, description: string)
    requires TitleOk(title) && IsTrimmed(description) && |description| == 1001
    ensures Validate(title, Some(description)) == Invalid(FieldErrors(None, Some(DescriptionTooLong)))
  {
    TrimOfTrimmed(description);
    assert TitleIssue(title) == None;
    assert DescriptionIssue(Some(description)) == Some(DescriptionTooLong);
  }

  /** Validation is stable: the trimmed values it yields validate to themselves. */
  lemma ValidateIdempotent(title: string, description: Option<string>)
    requires Validate(title, description).Valid?
    ensures var d := Validate(title, description).data;
      Validate(d.title, d.description) == Valid(d)
  {
    TrimIdempotent(title);
    if description.Some? {
      TrimIdempotent(description.value);
    }
  }
}
