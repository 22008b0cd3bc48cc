/** The "Time Capsules" screen: its cached list, the day-granularity date guard, the form and deletion. */
module Capsules {
  import opened Common
  import opened Http
  import opened Context
  import Models

  const LoadFallbackText := "Failed to load time capsules. Please try again."
  const CreateFallbackText := "Failed to create time capsule. Please try again."
  const UpdateFallbackText := "Failed to update time capsule. Please try again."
  const DeleteFallbackText := "Failed to delete time capsule. Please try again."
  const FutureDateText := "Open date must be in the future."
  const SealedText := "This message is sealed until its open date."

  /** Milliseconds in a day. */
  const DayMs := 86400000

  /** `new Date(text)`: a time in milliseconds since the epoch (UTC), or an Invalid Date. */
  datatype DateValue = ValidDate(ms: int) | InvalidDate

  /** A capsule as the server returns it; its `open_date` is read through `new Date`. */
  datatype Capsule = Capsule(id: int, message: string, openDate: DateValue, createdAt: int)

  function CapsuleKey(c: Capsule): int { c.id }

  /** The JSON body `{message, open_date}` (the date as the form holds it) sent to one of two URLs. */
  datatype CapsuleRequest =
    | PostCapsule(message: string, openDate: string)
    | PatchCapsule(id: int, message: string, openDate: string)

  /**
   * The number of the local calendar day holding time `t`, for a local
   * clock `offset` milliseconds ahead of UTC.
   */
  function LocalDay(t: int, offset: int): int {
    (t + offset) / DayMs
  }

  /** `d.setHours(0,0,0,0)`: the start of `t`'s local day, as a UTC time. */
  function LocalDayStart(t: int, offset: int): (r: int)
    ensures r == LocalDay(t, offset) * DayMs - offset
    ensures r <= t < r + DayMs
  {
    t - (t + offset) % DayMs
  }

  /**
   * The submit guard `selectedDate <= now` after both are moved to the start
   * of their local day. An Invalid Date stays invalid, and comparing it is
   * false, so it passes the guard.
   */
  predicate GuardRejects(selected: DateValue, now: int, offset: int) {
    selected.ValidDate? && LocalDayStart(selected.ms, offset) <= LocalDayStart(now, offset)
  }

  /** The guard compares local calendar days: it rejects today and every earlier day. */
  lemma GuardComparesDays(t: int, now: int, offset: int)
    ensures GuardRejects(ValidDate(t), now, offset) <==> LocalDay(t, offset) <= LocalDay(now, offset)
  {
    var a, b := LocalDay(t, offset), LocalDay(now, offset);
    if a <= b {
      assert a * DayMs <= b * DayMs;
    } else {
      assert (b + 1) * DayMs <= a * DayMs;
    }
  }

  /** A date-only text `YYYY-MM-DD` is read as midnight UTC of its day `d`. */
  function DateOnly(d: int): DateValue {
    ValidDate(d * DayMs)
  }

  /** Where the local clock is at or ahead of UTC, the guard rejects a date-only day iff it is not after today. */
  lemma DateOnlyGuardAtOrEastOfUtc(d: int, now: int, offset: int)
    requires 0 <= offset < DayMs
    ensures GuardRejects(DateOnly(d), now, offset) <==> d <= LocalDay(now, offset)
  {
    assert LocalDay(d * DayMs, offset) == d;
    GuardComparesDays(d * DayMs, now, offset);
  }

  /**
   * Where the local clock is behind UTC, midnight UTC of day `d` falls on
   * local day `d - 1`, so choosing tomorrow is rejected as not in the future.
   */
  lemma {:induction false} DateOnlyTomorrowRejectedWestOfUtc(d: int, now: int, offset: int)
    requires -DayMs < offset < 0
    requires LocalDay(now, offset) == d - 1
    ensures GuardRejects(DateOnly(d), now, offset)
  {
    assert (d - 1) * DayMs <= d * DayMs + offset < d * DayMs;
    assert LocalDay(d * DayMs, offset) == d - 1;
    GuardComparesDays(d * DayMs, now, offset);
  }

  /**
   * On a clock at or east of UTC, a date-only day the form lets through is
   * one the server's rule accepts, reading the day as midnight UTC.
   */
  lemma {:induction false} DateOnlyPassingGuardIsFuture(d: int, now: int, offset: int)
    requires 0 <= offset < DayMs
    requires !GuardRejects(DateOnly(d), now, offset)
    ensures Models.ValidateOpenDate(d * DayMs, now).Success?
  {
    DateOnlyGuardAtOrEastOfUtc(d, now, offset);
    var today := LocalDay(now, offset);
    assert today * DayMs <= now + offset < (today + 1) * DayMs;
    assert (today + 1) * DayMs <= d * DayMs;
  }

  /** `isCapsuleOpenable`: the open date has been reached; an Invalid Date never is. */
  predicate Openable(openDate: DateValue, now: int) {
    openDate.ValidDate? && openDate.ms <= now
  }

  /** Once openable, a capsule stays openable. */
  lemma OpenableStaysOpen(openDate: DateValue, now: int, later: int)
    requires now <= later && Openable(openDate, now)
    ensures Openable(openDate, later)
  {
  }

  /** What a capsule card shows: the message once openable, the sealed notice before. */
  function ShownMessage(c: Capsule, now: int): (r: string)
    ensures Openable(c.openDate, now) ==> r == c.message
    ensures !Openable(c.openDate, now) ==> r == SealedText
  {
    if Openable(c.openDate, now) then c.message else SealedText
  }

  class CapsulesScreen {
    const ctx: UserContext
    var timeCapsules: seq<Capsule>
    var message: string
    var openDate: string
    var errors: seq<string>
    var isLoading: bool
    var editingCapsule: Option<Capsule>
    var showForm: bool

    constructor (ctx: UserContext)
      ensures this.ctx == ctx
      ensures timeCapsules == [] && message == "" && openDate == "" && errors == []
      ensures !isLoading && editingCapsule == None && !showForm
    {
      this.ctx := ctx;
      timeCapsules, message, openDate, errors := [], "", "", [];
      isLoading, editingCapsule, showForm := false, None, false;
    }

    /** The effect on `user`: empty the list without a user, otherwise fetch and replace it. */
    method Refresh(resp: Response<seq<Capsule>>) returns (fetched: bool)
      modifies this
      ensures fetched <==> ctx.user.Some?
      ensures message == old(message) && openDate == old(openDate)
      ensures editingCapsule == old(editingCapsule) && showForm == old(showForm)
      ensures !fetched ==> timeCapsules == [] && errors == old(errors) && isLoading == old(isLoading)
      ensures fetched ==> !isLoading
      ensures fetched && Outcome(resp).Success? ==> timeCapsules == Outcome(resp).value && errors == []
      ensures fetched && Outcome(resp).Failure? ==>
                timeCapsules == old(timeCapsules) && errors == ErrorMessages(Outcome(resp).error, LoadFallbackText)
    {
      if ctx.user.None? {
        timeCapsules := [];
        return false;
      }
      isLoading := true;
      match Outcome(resp) {
        case Success(data) =>
          timeCapsules := data;
          errors := [];
        case Failure(rej) =>
          errors := ErrorMessages(rej, LoadFallbackText);
      }
      isLoading := false;
      return true;
    }

    /**
     * `handleSubmit`. `selected` is `new Date(openDate)`, `now` the current
     * time and `offset` the local clock's lead over UTC. A day that is not
     * after today is refused before any request; otherwise the capsule being
     * edited is PATCHed or a new one POSTed, and the saved capsule is put at
     * the front or in place of its id. A failure keeps the form.
     */
    method Submit(selected: DateValue, now: int, offset: int, resp: Response<Capsule>) returns (req: Option<CapsuleRequest>)
      modifies this
      ensures !isLoading
      ensures GuardRejects(selected, now, offset) ==>
                && req == None && errors == [FutureDateText]
                && timeCapsules == old(timeCapsules) && message == old(message) && openDate == old(openDate)
                && editingCapsule == old(editingCapsule) && showForm == old(showForm)
      ensures !GuardRejects(selected, now, offset) ==>
                req == Some(if old(editingCapsule).Some? then PatchCapsule(old(editingCapsule).value.id, old(message), old(openDate))
                            else PostCapsule(old(message), old(openDate)))
      ensures !GuardRejects(selected, now, offset) && Outcome(resp).Success? ==>
                && timeCapsules == (if old(editingCapsule).Some? then ReplaceById(old(timeCapsules), CapsuleKey, Outcome(resp).value)
                                    else [Outcome(resp).value] + old(timeCapsules))
                && message == "" && openDate == "" && editingCapsule == None && !showForm && errors == []
      ensures !GuardRejects(selected, now, offset) && Outcome(resp).Failure? ==>
                && timeCapsules == old(timeCapsules) && message == old(message) && openDate == old(openDate)
                && editingCapsule == old(editingCapsule) && showForm == old(showForm)
                && errors == ErrorMessages(Outcome(resp).error,
                                           if old(editingCapsule).Some? then UpdateFallbackText else CreateFallbackText)
    {
      errors := [];
      isLoading := true;
      if GuardRejects(selected, now, offset) {
        errors := [FutureDateText];
        isLoading := false;
        return None;
      }
      req := Some(if editingCapsule.Some? then PatchCapsule(editingCapsule.value.id, message, openDate)
                  else PostCapsule(message, openDate));
      match Outcome(resp) {
        case Success(saved) =>
          if editingCapsule.Some? {
            timeCapsules := ReplaceById(timeCapsules, CapsuleKey, saved);
          } else {
            timeCapsules := [saved] + timeCapsules;
          }
          message, openDate, editingCapsule, showForm, errors := "", "", None, false, [];
        case Failure(rej) =>
          errors := ErrorMessages(rej, if editingCapsule.Some? then UpdateFallbackText else CreateFallbackText);
      }
      isLoading := false;
    }

    /** `handleDelete`: as for letters, only an ok response changes the list, and a non-ok one sets no errors. */
    method Delete(id: int, confirmed: bool, resp: Response<()>) returns (sent: bool)
      modifies this
      ensures sent == confirmed
      ensures message == old(message) && openDate == old(openDate)
      ensures editingCapsule == old(editingCapsule) && showForm == old(showForm)
      ensures !confirmed ==> timeCapsules == old(timeCapsules) && errors == old(errors) && isLoading == old(isLoading)
      ensures confirmed ==> !isLoading
      ensures confirmed && resp.Ok? ==> timeCapsules == RemoveById(old(timeCapsules), CapsuleKey, id) && errors == []
      ensures confirmed && resp.NotOk? ==> timeCapsules == old(timeCapsules) && errors == old(errors)
      ensures confirmed && resp.TransportFailure? ==> timeCapsules == old(timeCapsules) && errors == [DeleteFallbackText]
    {
      if !confirmed {
        return false;
      }
      isLoading := true;
      match resp {
        case Ok(_) =>
          timeCapsules := RemoveById(timeCapsules, CapsuleKey, id);
          errors := [];
        case NotOk(_, _) =>
        case TransportFailure =>
          errors := [DeleteFallbackText];
      }
      isLoading := false;
      return true;
    }

    /** `handleCancelEdit`: reset the form and its errors. */
    method CancelEdit()
      modifies this
      ensures editingCapsule == None && message == "" && openDate == "" && !showForm && errors == []
      ensures timeCapsules == old(timeCapsules) && isLoading == old(isLoading)
    {
      editingCapsule, message, openDate, showForm, errors := None, "", "", false, [];
    }
  }
}
