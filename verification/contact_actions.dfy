/**
 * The contact form's server action (web/app/contact/actions.ts): normalise
 * the submitted fields, reject an empty message, insert one row and map the
 * insert's result to the form state. The database insert is represented by
 * its outcome, a parameter.
 */
module Contact {
  import opened Wrappers
  import opened Strings

  /** What `FormData.get` returns: nothing, a string, or an uploaded file. */
  datatype FormValue = Missing | Text(text: string) | Upload

  /** The row handed to `insert` on `contact_messages`. */
  datatype ContactRow = ContactRow(email: Option<string>, message: string)

  /** The `{ ok, error }` state the form renders. */
  datatype ActionState = ActionState(ok: bool, error: Option<string>)

  datatype InsertResult = Inserted | InsertFailed

  /** The row the action inserted, if it got that far, and the state it returned. */
  datatype Submission = Submission(inserted: Option<ContactRow>, state: ActionState)

  predicate Blank(s: string) {
    forall i :: 0 <= i < |s| ==> IsWhitespace(s[i])
  }

  /** The e-mail passed on: the trimmed text when it is a non-blank string, and null otherwise. */
  function NormalizeEmail(raw: FormValue): (email: Option<string>)
    ensures email.Some? <==> raw.Text? && !Blank(raw.text)
    ensures email.Some? ==> email.value == Trim(raw.text)
  {
    if raw.Text? then
      TrimShape(raw.text);
      if |Trim(raw.text)| > 0 then Some(Trim(raw.text)) else None
    else None
  }

  /** The message: the trimmed text when it is a string, and "" otherwise. */
  function NormalizeMessage(raw: FormValue): (message: string)
    ensures message == "" <==> !raw.Text? || Blank(raw.text)
    ensures raw.Text? ==> message == Trim(raw.text)
  {
    if raw.Text? then
      TrimShape(raw.text);
      Trim(raw.text)
    else ""
  }

  /** submitContact; `previous` is the form's previous state, which the action ignores. */
  function SubmitContact(previous: ActionState, emailRaw: FormValue, messageRaw: FormValue,
                         insert: InsertResult): (s: Submission)
    ensures s.inserted.None? <==> !messageRaw.Text? || Blank(messageRaw.text)
    ensures s.inserted.None? ==> s.state == ActionState(false, Some("Message is required."))
    ensures s.inserted.Some? ==>
      s.inserted.value == ContactRow(NormalizeEmail(emailRaw), Trim(messageRaw.text))
    ensures s.inserted.Some? && insert == InsertFailed ==>
      s.state == ActionState(false, Some("Something went wrong. Please try again."))
    ensures s.inserted.Some? && insert == Inserted ==> s.state == ActionState(true, None)
    ensures s.state.ok <==> s.state.error.None?
  {
    var email := NormalizeEmail(emailRaw);
    var message := NormalizeMessage(messageRaw);
    if message == "" then
      Submission(None, ActionState(false, Some("Message is required.")))
    else
      var row := ContactRow(email, message);
      match insert
      case InsertFailed => Submission(Some(row), ActionState(false, Some("Something went wrong. Please try again.")))
      case Inserted => Submission(Some(row), ActionState(true, None))
  }

  /** The previous state has no influence on the result. */
  lemma PreviousStateIgnored(p1: ActionState, p2: ActionState, emailRaw: FormValue,
                             messageRaw: FormValue, insert: InsertResult)
    ensures SubmitContact(p1, emailRaw, messageRaw, insert) == SubmitContact(p2, emailRaw, messageRaw, insert)
  {
  }
}
