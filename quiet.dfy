/** "The Quiet Page": one free-writing note per user, loaded from the newest note and saved by upsert. */
module Quiet {
  import opened Common
  import opened Http
  import opened Context

  const LoadFallbackText := "Failed to load your quiet page."
  const CreateFallbackText := "Failed to create note. Please try again."
  const UpdateFallbackText := "Failed to update note. Please try again."
  const SavedText := "Note saved successfully!"

  datatype Note = Note(id: int, content: string, createdAt: int)

  /** The JSON body `{content}`, sent as a PATCH of the current note or a POST of a new one. */
  datatype NoteRequest = PostNote(content: string) | PatchNote(id: int, content: string)

  /** `currentNoteId ? 'PATCH' : 'POST'`: a null id and the id 0 are both falsy. */
  predicate UpdatesExisting(currentNoteId: Option<int>) {
    currentNoteId.Some? && currentNoteId.value != 0
  }

  /** The request a submit sends for a given note id and text. */
  function RequestFor(currentNoteId: Option<int>, content: string): (r: NoteRequest)
    ensures r.PatchNote? <==> UpdatesExisting(currentNoteId)
    ensures r.PatchNote? ==> r.id == currentNoteId.value
    ensures r.content == content
  {
    if UpdatesExisting(currentNoteId) then PatchNote(currentNoteId.value, content) else PostNote(content)
  }

  /** The note a loaded list puts on the page: the first one, or an empty page with no id. */
  function Shown(notes: seq<Note>): (r: (string, Option<int>))
    ensures notes != [] ==> r == (notes[0].content, Some(notes[0].id))
    ensures notes == [] ==> r == ("", None)
  {
    if |notes| > 0 then (notes[0].content, Some(notes[0].id)) else ("", None)
  }

  class QuietPageScreen {
    const ctx: UserContext
    var noteContent: string
    var currentNoteId: Option<int>
    var errors: seq<string>
    var isLoading: bool
    var successMessage: string

    constructor (ctx: UserContext)
      ensures this.ctx == ctx
      ensures noteContent == "" && currentNoteId == None && errors == [] && !isLoading && successMessage == ""
    {
      this.ctx := ctx;
      noteContent, currentNoteId, errors, isLoading, successMessage := "", None, [], false, "";
    }

    /**
     * The effect on `user`: without a user the page is blank with no note id;
     * with one, the newest note is shown, or an empty page when there is none;
     * a failed load keeps the page and shows the normalised errors.
     */
    method Load(resp: Response<seq<Note>>) returns (fetched: bool)
      modifies this
      ensures fetched <==> ctx.user.Some?
      ensures successMessage == old(successMessage)
      ensures !fetched ==>
                noteContent == "" && currentNoteId == None && errors == old(errors) && isLoading == old(isLoading)
      ensures fetched ==> !isLoading
      ensures fetched && Outcome(resp).Success? ==>
                (noteContent, currentNoteId) == Shown(Outcome(resp).value) && errors == []
      ensures fetched && Outcome(resp).Failure? ==>
                && noteContent == old(noteContent) && currentNoteId == old(currentNoteId)
                && errors == ErrorMessages(Outcome(resp).error, LoadFallbackText)
    {
      if ctx.user.None? {
        noteContent, currentNoteId := "", None;
        return false;
      }
      isLoading := true;
      match Outcome(resp) {
        case Success(notes) =>
          if |notes| > 0 {
            noteContent, currentNoteId := notes[0].content, Some(notes[0].id);
          } else {
            noteContent, currentNoteId := "", None;
          }
          errors := [];
        case Failure(rej) =>
          errors := ErrorMessages(rej, LoadFallbackText);
      }
      isLoading := false;
      return true;
    }

    /**
     * `handleSubmit`: an upsert of the page's text. The saved note's text and
     * id replace the page's, so a saved note with a non-zero id makes every
     * later submit a PATCH of it. A failure keeps the text and the id.
     */
    method Submit(resp: Response<Note>) returns (req: NoteRequest)
      modifies this
      ensures req == RequestFor(old(currentNoteId), old(noteContent))
      ensures !isLoading
      ensures Outcome(resp).Success? ==>
                && noteContent == Outcome(resp).value.content && currentNoteId == Some(Outcome(resp).value.id)
                && successMessage == SavedText && errors == []
                && (UpdatesExisting(currentNoteId) <==> Outcome(resp).value.id != 0)
      ensures Outcome(resp).Failure? ==>
                && noteContent == old(noteContent) && currentNoteId == old(currentNoteId) && successMessage == ""
                && errors == ErrorMessages(Outcome(resp).error,
                                           if UpdatesExisting(old(currentNoteId)) then UpdateFallbackText else CreateFallbackText)
    {
      errors := [];
      successMessage := "";
      isLoading := true;
      req := RequestFor(currentNoteId, noteContent);
      match Outcome(resp) {
        case Success(saved) =>
          noteContent, currentNoteId := saved.content, Some(saved.id);
          successMessage := SavedText;
          errors := [];
        case Failure(rej) =>
          errors := ErrorMessages(rej, if UpdatesExisting(currentNoteId) then UpdateFallbackText else CreateFallbackText);
      }
      isLoading := false;
    }
  }
}
