/**
 * The mode editor of the extension popup (chrome-extension/src/popup/Popup.tsx):
 * the form state behind "create / edit mode" and its handlers. Rendering,
 * the loading flag and the reload of the modes list after a save are not part
 * of the form state and are not modelled.
 */
module Popup {
  import opened Wrappers
  import opened Strings
  import opened Seqs
  import Background

  /** The four pieces of component state the editor handlers write. */
  datatype Form = Form(
    editingMode: Option<Background.Mode>,
    modeName: string,
    websiteInput: string,
    websites: seq<string>)

  /** The form after a successful save or a cancel. */
  const EmptyForm := Form(None, "", "", [])

  /** The website list the editor keeps: no duplicates, and every entry trimmed and non-blank. */
  predicate CleanList(websites: seq<string>) {
    && NoDuplicates(websites)
    && forall i :: 0 <= i < |websites| ==> websites[i] != "" && Trim(websites[i]) == websites[i]
  }

  /**
   * handleAddWebsite: append the trimmed input unless it is blank or already
   * listed; the input is cleared only when something was appended.
   */
  function AddWebsite(f: Form): (g: Form)
    ensures g.editingMode == f.editingMode && g.modeName == f.modeName
    ensures Trim(f.websiteInput) == "" ==> g == f
    ensures Trim(f.websiteInput) in f.websites ==> g == f
    ensures Trim(f.websiteInput) != "" && Trim(f.websiteInput) !in f.websites ==>
      g.websites == f.websites + [Trim(f.websiteInput)] && g.websiteInput == ""
    ensures NoDuplicates(f.websites) ==> NoDuplicates(g.websites)
    ensures CleanList(f.websites) ==> CleanList(g.websites)
  {
    if Trim(f.websiteInput) == "" then f
    else
      var website := Trim(f.websiteInput);
      if website in f.websites then f
      else
        TrimIdempotent(f.websiteInput);
        f.(websites := f.websites + [website], websiteInput := "")
  }

  /** `websites.filter(w => w !== website)` */
  function WithoutWebsite(websites: seq<string>, website: string): (r: seq<string>)
    ensures forall w :: w in r ==> w in websites && w != website
  {
    Filter(websites, (w: string) => w != website)
  }

  /**
   * handleRemoveWebsite: every occurrence of `website` goes, every other
   * entry stays as often as it was there, and the order is kept.
   */
  function RemoveWebsite(f: Form, website: string): (g: Form)
    ensures g.editingMode == f.editingMode && g.modeName == f.modeName && g.websiteInput == f.websiteInput
    ensures website !in g.websites
    ensures forall w :: w != website ==> multiset(g.websites)[w] == multiset(f.websites)[w]
    ensures IsSubsequence(g.websites, f.websites)
    ensures CleanList(f.websites) ==> CleanList(g.websites)
  {
    WithoutWebsiteSpec(f.websites, website);
    f.(websites := WithoutWebsite(f.websites, website))
  }

  lemma WithoutWebsiteSpec(websites: seq<string>, website: string)
    ensures website !in WithoutWebsite(websites, website)
    ensures forall w :: w != website ==>
      multiset(WithoutWebsite(websites, website))[w] == multiset(websites)[w]
    ensures IsSubsequence(WithoutWebsite(websites, website), websites)
    ensures CleanList(websites) ==> CleanList(WithoutWebsite(websites, website))
  {
    var keep := (w: string) => w != website;
    var r := Filter(websites, keep);
    assert r == WithoutWebsite(websites, website);
    FilterSpec(websites, keep);
    FilterNoDuplicates(websites, keep);
    if CleanList(websites) {
      forall i | 0 <= i < |r| ensures r[i] != "" && Trim(r[i]) == r[i] {
        assert r[i] in websites;
      }
    }
  }

  /** handleEditMode: load the mode's name and a copy of its websites, and clear the input. */
  function EditMode(f: Form, mode: Background.Mode): (g: Form)
    ensures g.editingMode == Some(mode)
    ensures g.modeName == mode.name && g.websites == mode.websites && g.websiteInput == ""
    ensures CleanList(mode.websites) ==> CleanList(g.websites)
  {
    Form(Some(mode), mode.name, "", mode.websites)
  }

  /** The alert handleCreateMode raises instead of sending, if any. */
  function ValidationAlert(f: Form): (alert: Option<string>)
    ensures alert.None? <==> Trim(f.modeName) != "" && f.websites != []
    ensures Trim(f.modeName) == "" ==> alert == Some("Please enter a mode name")
    ensures Trim(f.modeName) != "" && f.websites == [] ==> alert == Some("Please add at least one website")
  {
    if Trim(f.modeName) == "" then Some("Please enter a mode name")
    else if f.websites == [] then Some("Please add at least one website")
    else None
  }

  /** The message handleCreateMode sends for a valid form. */
  function SaveRequest(f: Form): (msg: Background.Message)
    ensures f.editingMode.Some? ==>
      msg.UpdateMode? && msg.modeId == f.editingMode.value.id
    ensures f.editingMode.None? ==> msg.CreateMode?
    ensures msg.mode == Background.ModeInput(Trim(f.modeName), Some(f.websites))
  {
    var input := Background.ModeInput(Trim(f.modeName), Some(f.websites));
    if f.editingMode.Some? then Background.UpdateMode(f.editingMode.value.id, input)
    else Background.CreateMode(input)
  }

  /** What a save attempt did: an alert without sending, or the message it sent. */
  datatype SaveOutcome = Alerted(alert: string) | Sent(request: Background.Message)

  datatype Submission = Submission(form: Form, outcome: SaveOutcome)

  /**
   * handleCreateMode: validate, send, and reset the form when the background
   * reports success (`saved`); a failed or thrown send leaves the form as it
   * was.
   */
  function Save(f: Form, saved: bool): (s: Submission)
    ensures ValidationAlert(f).Some? ==> s == Submission(f, Alerted(ValidationAlert(f).value))
    ensures ValidationAlert(f).None? ==> s.outcome == Sent(SaveRequest(f))
    ensures ValidationAlert(f).None? && saved ==> s.form == EmptyForm
    ensures !saved ==> s.form == f
    ensures CleanList(f.websites) ==> CleanList(s.form.websites)
  {
    match ValidationAlert(f)
    case Some(alert) => Submission(f, Alerted(alert))
    case None => Submission(if saved then EmptyForm else f, Sent(SaveRequest(f)))
  }

  /** The popup's editor state, as React component state updated by the handlers. */
  class ModeEditor {
    var editingMode: Option<Background.Mode>
    var modeName: string
    var websiteInput: string
    var websites: seq<string>

    function State(): Form
      reads this
    {
      Form(editingMode, modeName, websiteInput, websites)
    }

    constructor ()
      ensures State() == EmptyForm
    {
      editingMode, modeName, websiteInput, websites := None, "", "", [];
    }

    /** The input box's onChange. */
    method SetWebsiteInput(text: string)
      modifies this`websiteInput
      ensures State() == old(State()).(websiteInput := text)
    {
      websiteInput := text;
    }

    /** The name box's onChange. */
    method SetModeName(text: string)
      modifies this`modeName
      ensures State() == old(State()).(modeName := text)
    {
      modeName := text;
    }

    method HandleAddWebsite()
      modifies this`websites, this`websiteInput
      ensures State() == AddWebsite(old(State()))
    {
      if Trim(websiteInput) == "" {
        return;
      }
      var website := Trim(websiteInput);
      if website !in websites {
        websites := websites + [website];
        websiteInput := "";
      }
    }

    method HandleRemoveWebsite(website: string)
      modifies this`websites
      ensures State() == RemoveWebsite(old(State()), website)
    {
      websites := WithoutWebsite(websites, website);
    }

    method HandleEditMode(mode: Background.Mode)
      modifies this
      ensures State() == EditMode(old(State()), mode)
    {
      editingMode := Some(mode);
      modeName := mode.name;
      websites := mode.websites;
      websiteInput := "";
    }

    /** handleCancelEdit: the same reset as after a successful save. */
    method HandleCancelEdit()
      modifies this
      ensures State() == EmptyForm
    {
      editingMode := None;
      modeName := "";
      websiteInput := "";
      websites := [];
    }

    /**
     * handleCreateMode, with `saved` standing for the background's answer:
     * true when the response reports success.
     */
    method HandleCreateMode(saved: bool) returns (outcome: SaveOutcome)
      modifies this
      ensures Submission(State(), outcome) == Save(old(State()), saved)
    {
      if Trim(modeName) == "" {
        return Alerted("Please enter a mode name");
      }
      if |websites| == 0 {
        return Alerted("Please add at least one website");
      }
      var request := if editingMode.Some?
        then Background.UpdateMode(editingMode.value.id, Background.ModeInput(Trim(modeName), Some(websites)))
        else Background.CreateMode(Background.ModeInput(Trim(modeName), Some(websites)));
      outcome := Sent(request);
      if saved {
        modeName := "";
        websiteInput := "";
        websites := [];
        editingMode := None;
      }
    }
  }
}
