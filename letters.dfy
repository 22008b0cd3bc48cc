/** The "Letters Unsent" screen: its cached list of letters, the write/edit form and deletion. */
module Letters {
  import opened Common
  import opened Http
  import opened Context

  const LoadFallbackText := "Failed to load letters. Please try again."
  const CreateFallbackText := "Failed to create letter. Please try again."
  const UpdateFallbackText := "Failed to update letter. Please try again."
  const DeleteFallbackText := "Failed to delete letter. Please try again."

  /** The number of characters a letter card shows before the ellipsis. */
  const CardPreviewLength := 150

  /** A letter as the server returns it (its creation time as a timestamp). */
  datatype Letter = Letter(id: int, title: string, content: string, createdAt: int)

  function LetterKey(l: Letter): int { l.id }

  /** The request a submit sends: the JSON body `{title, content}` to one of two URLs. */
  datatype LetterRequest = PostLetter(title: string, content: string) | PatchLetter(id: int, title: string, content: string)

  /** `text.substring(0, n)` followed by "..." when the text is longer than `n`. */
  function Preview(text: string, n: nat): (r: string)
    ensures |text| <= n ==> r == text
    ensures |text| > n ==> |r| == n + 3 && r[..n] == text[..n] && r[n..] == "..."
    ensures |r| <= n + 3
  {
    if |text| > n then text[..n] + "..." else text
  }

  /** Creating a letter and then deleting it by its new id gives back the list as it was. */
  lemma {:induction false} CreateThenDeleteRestores(letters: seq<Letter>, x: Letter)
    requires forall i :: 0 <= i < |letters| ==> letters[i].id != x.id
    ensures RemoveById([x] + letters, LetterKey, x.id) == letters
  {
    RemoveByIdAppend([x], letters, LetterKey, x.id);
    RemoveAbsentId(letters, LetterKey, x.id);
    assert RemoveById([x], LetterKey, x.id) == [];
  }

  /** Saving a letter with unchanged fields leaves a list with distinct ids as it was. */
  lemma {:induction false} ReplaceWithItselfIsIdentity(letters: seq<Letter>, i: int)
    requires 0 <= i < |letters|
    requires forall j, k :: 0 <= j < k < |letters| ==> letters[j].id != letters[k].id
    ensures ReplaceById(letters, LetterKey, letters[i]) == letters
  {
    var r := ReplaceById(letters, LetterKey, letters[i]);
    forall j | 0 <= j < |letters|
      ensures r[j] == letters[j]
    {
      if j != i {
        assert LetterKey(letters[j]) != LetterKey(letters[i]);
      }
    }
  }

  class LettersScreen {
    const ctx: UserContext
    var letters: seq<Letter>
    var title: string
    var content: string
    var errors: seq<string>
    var isLoading: bool
    var editingLetter: Option<Letter>
    var showForm: bool

    constructor (ctx: UserContext)
      ensures this.ctx == ctx
      ensures letters == [] && title == "" && content == "" && errors == []
      ensures !isLoading && editingLetter == None && !showForm
    {
      this.ctx := ctx;
      letters, title, content, errors := [], "", "", [];
      isLoading, editingLetter, showForm := false, None, false;
    }

    /**
     * The effect on `user`: without a user the list is emptied and nothing is
     * fetched; with one, `fetchLetters` runs and its response replaces the
     * list wholesale, or leaves it and shows the normalised errors.
     */
    method Refresh(resp: Response<seq<Letter>>) returns (fetched: bool)
      modifies this
      ensures fetched <==> ctx.user.Some?
      ensures title == old(title) && content == old(content)
      ensures editingLetter == old(editingLetter) && showForm == old(showForm)
      ensures !fetched ==> letters == [] && errors == old(errors) && isLoading == old(isLoading)
      ensures fetched ==> !isLoading
      ensures fetched && Outcome(resp).Success? ==> letters == Outcome(resp).value && errors == []
      ensures fetched && Outcome(resp).Failure? ==>
                letters == old(letters) && errors == ErrorMessages(Outcome(resp).error, LoadFallbackText)
    {
      if ctx.user.None? {
        letters := [];
        return false;
      }
      isLoading := true;
      match Outcome(resp) {
        case Success(data) =>
          letters := data;
          errors := [];
        case Failure(rej) =>
          errors := ErrorMessages(rej, LoadFallbackText);
      }
      isLoading := false;
      return true;
    }

    /**
     * `handleSubmit`: a PATCH of the letter being edited, or a POST of a new
     * one. A saved new letter goes to the front; a saved edit replaces the
     * letter with its id in place; either way the form is reset. A failure
     * keeps the form as it was and shows the normalised errors.
     */
    method Submit(resp: Response<Letter>) returns (req: LetterRequest)
      modifies this
      ensures req == if old(editingLetter).Some? then PatchLetter(old(editingLetter).value.id, old(title), old(content))
                     else PostLetter(old(title), old(content))
      ensures !isLoading
      ensures Outcome(resp).Success? ==>
                && letters == (if old(editingLetter).Some? then ReplaceById(old(letters), LetterKey, Outcome(resp).value)
                               else [Outcome(resp).value] + old(letters))
                && title == "" && content == "" && editingLetter == None && !showForm && errors == []
      ensures Outcome(resp).Failure? ==>
                && letters == old(letters) && title == old(title) && content == old(content)
                && editingLetter == old(editingLetter) && showForm == old(showForm)
                && errors == ErrorMessages(Outcome(resp).error,
                                           if old(editingLetter).Some? then UpdateFallbackText else CreateFallbackText)
    {
      errors := [];
      isLoading := true;
      req := if editingLetter.Some? then PatchLetter(editingLetter.value.id, title, content) else PostLetter(title, content);
      match Outcome(resp) {
        case Success(saved) =>
          if editingLetter.Some? {
            letters := ReplaceById(letters, LetterKey, saved);
          } else {
            letters := [saved] + letters;
          }
          title, content, editingLetter, showForm, errors := "", "", None, false, [];
        case Failure(rej) =>
          errors := ErrorMessages(rej, if editingLetter.Some? then UpdateFallbackText else CreateFallbackText);
      }
      isLoading := false;
    }

    /**
     * `handleDelete`: nothing happens unless the user confirms. An ok response
     * drops every letter with that id; a non-ok one changes nothing (its
     * rejection is never returned to the chain); a failed request shows the
     * fallback error.
     */
    method Delete(id: int, confirmed: bool, resp: Response<()>) returns (sent: bool)
      modifies this
      ensures sent == confirmed
      ensures title == old(title) && content == old(content)
      ensures editingLetter == old(editingLetter) && showForm == old(showForm)
      ensures !confirmed ==> letters == old(letters) && errors == old(errors) && isLoading == old(isLoading)
      ensures confirmed ==> !isLoading
      ensures confirmed && resp.Ok? ==> letters == RemoveById(old(letters), LetterKey, id) && errors == []
      ensures confirmed && resp.NotOk? ==> letters == old(letters) && errors == old(errors)
      ensures confirmed && resp.TransportFailure? ==> letters == old(letters) && errors == [DeleteFallbackText]
    {
      if !confirmed {
        return false;
      }
      isLoading := true;
      match resp {
        case Ok(_) =>
          letters := RemoveById(letters, LetterKey, id);
          errors := [];
        case NotOk(_, _) =>
        case TransportFailure =>
          errors := [DeleteFallbackText];
      }
      isLoading := false;
      return true;
    }

    /** `handleEditClick`: load a letter into the form. */
    method EditClick(l: Letter)
      modifies this
      ensures editingLetter == Some(l) && title == l.title && content == l.content && showForm
      ensures letters == old(letters) && errors == old(errors) && isLoading == old(isLoading)
    {
      editingLetter, title, content, showForm := Some(l), l.title, l.content, true;
    }

    /** `handleCancelEdit`: reset the form and its errors. */
    method CancelEdit()
      modifies this
      ensures editingLetter == None && title == "" && content == "" && !showForm && errors == []
      ensures letters == old(letters) && isLoading == old(isLoading)
    {
      editingLetter, title, content, showForm, errors := None, "", "", false, [];
    }

  }
}
