/** The profile overview: an all-or-nothing load of three lists and their top-three summaries. */
module Profile {
  import opened Common
  import opened Http
  import opened Context
  import Letters
  import Capsules
  import Quiet

  const LoadFallbackText := "Failed to load profile data. Please try again."

  /** How many items each summary lists before its "...and N more" line. */
  const SummarySize := 3

  /** How many characters of a note the overview shows before the ellipsis. */
  const NotePreviewLength := 50

  /** A summary: the empty-list prompt, or the first items and, when some are left over, how many. */
  datatype Summary<T> = NoneYet | Listed(top: seq<T>, more: Option<nat>)

  /** `items.slice(0, 3)` and `...and {n - 3} more` when n > 3, or the prompt for an empty list. */
  function Summarise<T>(items: seq<T>): (r: Summary<T>)
    ensures r.NoneYet? <==> items == []
    ensures r.Listed? ==> r.top == items[..if |items| < SummarySize then |items| else SummarySize]
    ensures r.Listed? ==> (r.more.Some? <==> |items| > SummarySize)
    ensures r.Listed? ==> |r.top| + r.more.GetOr(0) == |items|
  {
    if items == [] then NoneYet
    else if |items| <= SummarySize then Listed(items, None)
    else Listed(items[..SummarySize], Some(|items| - SummarySize))
  }

  /** Each line of a summary is about the list's own items, in the list's order. */
  lemma SummaryIsPrefix<T>(items: seq<T>)
    requires Summarise(items).Listed?
    ensures Summarise(items).top <= items
  {
  }

  /** A capsule's overview label. */
  function CapsuleLabel(c: Capsules.Capsule, now: int): (r: string)
    ensures r == "Open" <==> Capsules.Openable(c.openDate, now)
    ensures r == "Open" || r == "Sealed"
  {
    if Capsules.Openable(c.openDate, now) then "Open" else "Sealed"
  }

  function LetterLines(s: seq<Letters.Letter>): (r: seq<string>)
    ensures |r| == |s| && forall i :: 0 <= i < |s| ==> r[i] == s[i].title
  {
    seq(|s|, i requires 0 <= i < |s| => s[i].title)
  }

  function CapsuleLines(s: seq<Capsules.Capsule>, now: int): (r: seq<string>)
    ensures |r| == |s| && forall i :: 0 <= i < |s| ==> r[i] == CapsuleLabel(s[i], now)
  {
    seq(|s|, i requires 0 <= i < |s| => CapsuleLabel(s[i], now))
  }

  function NoteLines(s: seq<Quiet.Note>): (r: seq<string>)
    ensures |r| == |s| && forall i :: 0 <= i < |s| ==> r[i] == Letters.Preview(s[i].content, NotePreviewLength)
  {
    seq(|s|, i requires 0 <= i < |s| => Letters.Preview(s[i].content, NotePreviewLength))
  }

  datatype ProfileView =
    | LoadingView
    | ErrorView(errors: seq<string>)
    | Overview(letters: Summary<string>, capsules: Summary<string>, notes: Summary<string>)

  /** The render priority: the loading screen, then the error screen, then the overview. */
  function Render(isLoading: bool, errors: seq<string>, letters: seq<Letters.Letter>,
                  capsules: seq<Capsules.Capsule>, notes: seq<Quiet.Note>, now: int): (v: ProfileView)
    ensures v.LoadingView? <==> isLoading
    ensures v.ErrorView? <==> !isLoading && |errors| > 0
    ensures v.ErrorView? ==> v.errors == errors
    ensures v.Overview? ==>
              v == Overview(Summarise(LetterLines(letters)), Summarise(CapsuleLines(capsules, now)), Summarise(NoteLines(notes)))
  {
    if isLoading then LoadingView
    else if |errors| > 0 then ErrorView(errors)
    else Overview(Summarise(LetterLines(letters)), Summarise(CapsuleLines(capsules, now)), Summarise(NoteLines(notes)))
  }

  /** The rejection `Promise.all` settles with, taking the three requests in order. */
  function FirstRejection<A, B, C>(a: Result<A, Rejection>, b: Result<B, Rejection>, c: Result<C, Rejection>): (r: Option<Rejection>)
    ensures r.None? <==> a.Success? && b.Success? && c.Success?
    ensures a.Failure? ==> r == Some(a.error)
    ensures a.Success? && b.Failure? ==> r == Some(b.error)
    ensures a.Success? && b.Success? && c.Failure? ==> r == Some(c.error)
  {
    if a.Failure? then Some(a.error)
    else if b.Failure? then Some(b.error)
    else if c.Failure? then Some(c.error)
    else None
  }

  class ProfileScreen {
    const ctx: UserContext
    var letters: seq<Letters.Letter>
    var timeCapsules: seq<Capsules.Capsule>
    var userNotes: seq<Quiet.Note>
    var isLoading: bool
    var errors: seq<string>

    constructor (ctx: UserContext)
      ensures this.ctx == ctx
      ensures letters == [] && timeCapsules == [] && userNotes == [] && isLoading && errors == []
    {
      this.ctx := ctx;
      letters, timeCapsules, userNotes := [], [], [];
      isLoading, errors := true, [];
    }

    /**
     * The effect on `user`: without a user, loading stops and the three lists
     * are emptied; with one, the three lists are replaced together when all
     * three requests succeed, and otherwise kept while the errors come from
     * the first failure.
     */
    method Load(r1: Response<seq<Letters.Letter>>, r2: Response<seq<Capsules.Capsule>>, r3: Response<seq<Quiet.Note>>)
      returns (fetched: bool)
      modifies this
      ensures fetched <==> ctx.user.Some?
      ensures !isLoading
      ensures !fetched ==> letters == [] && timeCapsules == [] && userNotes == [] && errors == old(errors)
      ensures fetched ==>
                var rej := FirstRejection(Outcome(r1), Outcome(r2), Outcome(r3));
                if rej.None? then
                  && letters == Outcome(r1).value && timeCapsules == Outcome(r2).value && userNotes == Outcome(r3).value
                  && errors == []
                else
                  && letters == old(letters) && timeCapsules == old(timeCapsules) && userNotes == old(userNotes)
                  && errors == ErrorMessages(rej.value, LoadFallbackText)
    {
      if ctx.user.None? {
        isLoading := false;
        letters, timeCapsules, userNotes := [], [], [];
        return false;
      }
      isLoading := true;
      errors := [];
      var rej := FirstRejection(Outcome(r1), Outcome(r2), Outcome(r3));
      if rej.None? {
        letters, timeCapsules, userNotes := Outcome(r1).value, Outcome(r2).value, Outcome(r3).value;
      } else {
        errors := ErrorMessages(rej.value, LoadFallbackText);
      }
      isLoading := false;
      return true;
    }

    function View(now: int): ProfileView
      reads this
    {
      Render(isLoading, errors, letters, timeCapsules, userNotes, now)
    }
  }
}
