/**
 * The HTTP handlers of the server: signup, login, session check, logout and
 * the letters resource. The Flask session's 'user_id' entry, the user table and
 * the letter table are fields of a `Server`; each handler is a method that
 * returns the (status, JSON body) pair it sends.
 */
module Api {
  import opened Common
  import opened Models

  /** A user as `to_dict` shows it: the password digest is excluded. */
  datatype UserView = UserView(id: int, username: string, email: string, createdAt: int)

  datatype Body =
    | Errors(text: string)
    | Notice(text: string)
    | UserJson(user: UserView)
    | LetterJson(letter: LetterRow)
    | LetterListJson(letters: seq<LetterRow>)

  datatype Reply = Reply(status: int, body: Body)

  datatype SignupRequest = SignupRequest(username: PyValue, email: PyValue, password: PyValue, passwordConfirmation: PyValue)

  /** Login fields as strings; None stands for a missing key or a JSON null. */
  datatype LoginRequest = LoginRequest(identifier: Option<string>, password: Option<string>)

  /**
   * Letter fields of a POST or PATCH body. None is a key that is absent;
   * a key present with JSON null behaves as Some("") in every rule here.
   */
  datatype LetterFields = LetterFields(title: Option<string>, content: Option<string>)

  const UnauthorizedReply := Reply(401, Errors("Unauthorized: Please log in to access this resource."))
  const LetterNotFoundReply := Reply(404, Errors("Letter not found or unauthorized."))
  const InvalidLoginReply := Reply(401, Errors("Invalid identifier or password."))
  const LoginFailedReply := Reply(500, Errors("Login failed: An unexpected error occurred."))
  const SignupFailedText := "Failed to create user: An unexpected error occurred."
  const CreateLetterFailedText := "Failed to create letter."
  const UpdateLetterFailedText := "Failed to update letter."

  function ToDict(u: UserRow): UserView {
    UserView(u.id, u.username, u.email, u.createdAt)
  }

  function UserId(u: UserRow): int { u.id }
  function LetterId(l: LetterRow): int { l.id }

  /** `session.get('user_id')` is truthy: present and not 0. */
  predicate SessionActive(session: Option<int>) {
    session.Some? && session.value != 0
  }

  /**
   * A handler's `except ValueError` clause followed by `except Exception`:
   * only a ValueError becomes 400 with its message, every other exception,
   * the server's ValidationError included, becomes 500 with a fixed text.
   */
  function ExceptReply(e: PyError, generic: string): (r: Reply)
    ensures r.status == 400 <==> e.ValueError?
    ensures e.ValueError? ==> r.body == Errors(e.msg)
    ensures !e.ValueError? ==> r == Reply(500, Errors(generic))
  {
    match e
    case ValueError(msg) => Reply(400, Errors(msg))
    case _ => Reply(500, Errors(generic))
  }

  /** ValidationError is not a ValueError, so the handlers answer 500 for it. */
  lemma ValidationErrorIsServerError(msg: string, generic: string)
    ensures ExceptReply(ValidationError(msg), generic) == Reply(500, Errors(generic))
  {
  }

  // ---------------------------------------------------------------- table invariants

  /** What the validators and the database keep true of the user table. */
  ghost predicate UsersOk(users: seq<UserRow>) {
    && (forall i :: 0 <= i < |users| ==> UserRowOk(users[i]))
    && (forall i, j :: 0 <= i < j < |users| ==>
          && users[i].id != users[j].id
          && !SameIgnoringCase(users[i].username, users[j].username)
          && !SameIgnoringCase(users[i].email, users[j].email))
  }

  /** What the validators and the database keep true of the letter table. */
  ghost predicate LettersOk(letters: seq<LetterRow>) {
    && (forall i :: 0 <= i < |letters| ==> LetterRowOk(letters[i]))
    && (forall i, j :: 0 <= i < j < |letters| ==> letters[i].id != letters[j].id)
  }

  /** SQLite gives a new row the largest id so far plus one (1 in an empty table). */
  function NextUserId(users: seq<UserRow>): (id: int)
    ensures id > 0
    ensures forall i :: 0 <= i < |users| ==> users[i].id < id
  {
    MaxKey(users, UserId) + 1
  }

  function NextLetterId(letters: seq<LetterRow>): (id: int)
    ensures id > 0
    ensures forall i :: 0 <= i < |letters| ==> letters[i].id < id
  {
    MaxKey(letters, LetterId) + 1
  }

  // ---------------------------------------------------------------- signup

  function UsernameHolder(users: seq<UserRow>, name: string): Option<UserRow> {
    FirstMatch(users, (u: UserRow) => SameIgnoringCase(u.username, name))
  }

  function EmailHolder(users: seq<UserRow>, email: string): Option<UserRow> {
    FirstMatch(users, (u: UserRow) => SameIgnoringCase(u.email, email))
  }

  /** `User.query.filter_by(id=id).first()`. */
  function UserById(users: seq<UserRow>, id: int): Option<UserRow> {
    FirstMatch(users, (u: UserRow) => u.id == id)
  }

  predicate AllFieldsGiven(req: SignupRequest) {
    Truthy(req.username) && Truthy(req.email) && Truthy(req.password) && Truthy(req.passwordConfirmation)
  }

  /**
   * Lines 82-88 of the signup handler: the missing-field check, then the
   * password-match check (both raise ValidationError), then the model's
   * username, email and password rules in that order.
   */
  function NewUser(users: seq<UserRow>, req: SignupRequest, now: int): (r: Result<UserRow, PyError>)
    ensures !AllFieldsGiven(req) ==>
              r == Failure(ValidationError("All fields are required: username, email, password, password confirmation."))
    ensures AllFieldsGiven(req) && !PyEq(req.password, req.passwordConfirmation) ==>
              r == Failure(ValidationError("Passwords do not match."))
    ensures AllFieldsGiven(req) && PyEq(req.password, req.passwordConfirmation) ==>
              var byName := ValidateUsername(users, None, req.username);
              var byEmail := ValidateEmail(users, None, req.email);
              if byName.Failure? then r == Failure(byName.error)
              else if byEmail.Failure? then r == Failure(byEmail.error)
              else if !req.password.PyStr? then r == Failure(TypeError("Password must be a string."))
              else if |req.password.s| < MinPasswordLength then
                r == Failure(ValueError("Password must be at least 6 characters long."))
              else r.Success?
    ensures r.Success? ==>
              && req.username.PyStr? && req.email.PyStr? && req.password.PyStr?
              && r.value == UserRow(NextUserId(users), req.username.s, req.email.s, req.password.s, now)
              && UserRowOk(r.value)
              && UsernameHolder(users, req.username.s).None?
              && EmailHolder(users, req.email.s).None?
  {
    if !AllFieldsGiven(req) then
      Failure(ValidationError("All fields are required: username, email, password, password confirmation."))
    else if !PyEq(req.password, req.passwordConfirmation) then
      Failure(ValidationError("Passwords do not match."))
    else
      match ValidateUsername(users, None, req.username)
      case Failure(e) => Failure(e)
      case Success(name) =>
        match ValidateEmail(users, None, req.email)
        case Failure(e) => Failure(e)
        case Success(email) =>
          EmailFormatMatches(req.email);
          SetPassword(UserRow(NextUserId(users), name, email, "", now), req.password)
  }

  /** Adding a user that passed the rules keeps the user table's invariant. */
  lemma AddUserKeepsUsersOk(users: seq<UserRow>, u: UserRow)
    requires UsersOk(users)
    requires UserRowOk(u)
    requires forall i :: 0 <= i < |users| ==> users[i].id < u.id
    requires UsernameHolder(users, u.username).None? && EmailHolder(users, u.email).None?
    ensures UsersOk(users + [u])
  {
    var s := users + [u];
    forall i, j | 0 <= i < j < |s|
      ensures s[i].id != s[j].id
      ensures !SameIgnoringCase(s[i].username, s[j].username)
      ensures !SameIgnoringCase(s[i].email, s[j].email)
    {
      if j == |users| {
        assert !SameIgnoringCase(users[i].username, u.username);
        assert !SameIgnoringCase(users[i].email, u.email);
      }
    }
  }

  // ---------------------------------------------------------------- login

  predicate MatchesIdentifier(u: UserRow, identifier: string) {
    u.username == identifier || u.email == identifier
  }

  /** `User.query.filter((username == identifier) | (email == identifier)).first()`, case-sensitive. */
  function LoginMatch(users: seq<UserRow>, identifier: string): Option<UserRow> {
    FirstMatch(users, (u: UserRow) => MatchesIdentifier(u, identifier))
  }

  predicate Given(v: Option<string>) {
    v.Some? && v.value != []
  }

  /**
   * Emails always hold an '@', so an identifier without one can only match a
   * username, and usernames are distinct: at most one row matches it.
   */
  lemma LoginWithoutAtIsUnambiguous(users: seq<UserRow>, identifier: string)
    requires UsersOk(users)
    requires forall k :: 0 <= k < |identifier| ==> identifier[k] != '@'
    ensures forall i :: 0 <= i < |users| && MatchesIdentifier(users[i], identifier) ==> users[i].username == identifier
    ensures forall i, j ::
              (0 <= i < |users| && 0 <= j < |users| &&
               MatchesIdentifier(users[i], identifier) && MatchesIdentifier(users[j], identifier)) ==> i == j
  {
  }

  // ---------------------------------------------------------------- letters

  predicate OwnedBy(l: LetterRow, uid: int) {
    l.userId == uid
  }

  /** `Letter.query.filter_by(user_id=uid)`, in table order. */
  function LettersOf(letters: seq<LetterRow>, uid: int): (r: seq<LetterRow>)
    ensures forall l :: l in r <==> l in letters && OwnedBy(l, uid)
  {
    if letters == [] then []
    else (if OwnedBy(letters[0], uid) then [letters[0]] else []) + LettersOf(letters[1..], uid)
  }

  /** `Letter.query.filter_by(id=id, user_id=uid).first()`. */
  function OwnedLetter(letters: seq<LetterRow>, uid: int, id: int): Option<LetterRow> {
    FirstMatch(letters, (l: LetterRow) => l.id == id && OwnedBy(l, uid))
  }

  predicate NewestFirst(s: seq<LetterRow>) {
    forall i :: 0 <= i < |s| - 1 ==> s[i].createdAt >= s[i + 1].createdAt
  }

  function InsertNewestFirst(l: LetterRow, s: seq<LetterRow>): (r: seq<LetterRow>)
    requires NewestFirst(s)
    ensures NewestFirst(r)
    ensures multiset(r) == multiset(s) + multiset{l}
    ensures |r| == |s| + 1 && (r[0] == l || (s != [] && r[0] == s[0]))
  {
    if s == [] || l.createdAt >= s[0].createdAt then [l] + s
    else
      var rest := InsertNewestFirst(l, s[1..]);
      assert s == [s[0]] + s[1..];
      [s[0]] + rest
  }

  /** `order_by(Letter.created_at.desc())`; rows with equal timestamps may come in any order. */
  function SortNewestFirst(s: seq<LetterRow>): (r: seq<LetterRow>)
    ensures NewestFirst(r)
    ensures multiset(r) == multiset(s)
  {
    if s == [] then []
    else
      assert s == [s[0]] + s[1..];
      InsertNewestFirst(s[0], SortNewestFirst(s[1..]))
  }

  /**
   * Lines 175-182 of the create handler: missing title or content raises
   * ValidationError; then the model's title and content rules run in that order.
   */
  function NewLetter(letters: seq<LetterRow>, uid: int, req: LetterFields, now: int): (r: Result<LetterRow, PyError>)
    ensures Blank(req.title) || Blank(req.content) ==>
              r == Failure(ValidationError("Title and content are required for a letter."))
    ensures !Blank(req.title) && !Blank(req.content) && |req.title.value| > MaxTitleLength ==>
              r == Failure(ValueError("Title must be non-empty and less than 255 characters."))
    ensures r.Success? <==> !Blank(req.title) && !Blank(req.content) && |req.title.value| <= MaxTitleLength
    ensures r.Success? ==>
              r.value == LetterRow(NextLetterId(letters), uid, req.title.value, req.content.value, now) &&
              LetterRowOk(r.value)
  {
    if Blank(req.title) || Blank(req.content) then
      Failure(ValidationError("Title and content are required for a letter."))
    else
      match ValidateTitle(req.title)
      case Failure(e) => Failure(e)
      case Success(t) =>
        match ValidateLetterContent(req.content)
        case Failure(e) => Failure(e)
        case Success(c) => Success(LetterRow(NextLetterId(letters), uid, t, c, now))
  }

  /**
   * Lines 226-229 of the patch handler: each key present in the payload is
   * assigned, title first, and its rule runs; a failing rule raises ValueError.
   */
  function ApplyPatch(l: LetterRow, p: LetterFields): (r: Result<LetterRow, PyError>)
    ensures r.Success? <==>
              (p.title.Some? ==> ValidateTitle(p.title).Success?) &&
              (p.content.Some? ==> ValidateLetterContent(p.content).Success?)
    ensures p.title.Some? && ValidateTitle(p.title).Failure? ==> r == Failure(ValidateTitle(p.title).error)
    ensures r.Failure? ==> r.error.ValueError?
    ensures r.Success? ==>
              r.value == l.(title := p.title.GetOr(l.title), content := p.content.GetOr(l.content))
  {
    var titled :=
      if p.title.None? then Success(l)
      else match ValidateTitle(p.title)
        case Failure(e) => Failure(e)
        case Success(t) => Success(l.(title := t));
    match titled
    case Failure(e) => Failure(e)
    case Success(l1) =>
      if p.content.None? then Success(l1)
      else match ValidateLetterContent(p.content)
        case Failure(e) => Failure(e)
        case Success(c) => Success(l1.(content := c))
  }

  /** A patch that names no field leaves the letter as it was. */
  lemma EmptyPatchIsIdentity(l: LetterRow)
    ensures ApplyPatch(l, LetterFields(None, None)) == Success(l)
  {
  }

  lemma ReplaceKeepsLettersOk(letters: seq<LetterRow>, l: LetterRow)
    requires LettersOk(letters)
    requires LetterRowOk(l)
    ensures LettersOk(ReplaceById(letters, LetterId, l))
  {
    var s := ReplaceById(letters, LetterId, l);
    forall i | 0 <= i < |s| ensures s[i].id == letters[i].id {
    }
  }

  ghost predicate DistinctLetterIds(s: seq<LetterRow>) {
    forall i, j :: 0 <= i < j < |s| ==> s[i].id != s[j].id
  }

  /** Removal keeps a subsequence of the rows, so their ids stay distinct. */
  lemma {:induction false} RemoveKeepsDistinctIds(letters: seq<LetterRow>, id: int)
    requires DistinctLetterIds(letters)
    ensures DistinctLetterIds(RemoveById(letters, LetterId, id))
  {
    if letters != [] {
      var rest := letters[1..];
      assert DistinctLetterIds(rest) by {
        forall i, j | 0 <= i < j < |rest| ensures rest[i].id != rest[j].id {
          assert rest[i] == letters[i + 1] && rest[j] == letters[j + 1];
        }
      }
      RemoveKeepsDistinctIds(rest, id);
      var tail := RemoveById(rest, LetterId, id);
      if letters[0].id != id {
        var r := [letters[0]] + tail;
        forall j | 0 < j < |r| ensures r[0].id != r[j].id {
          assert r[j] == tail[j - 1];
          var k :| 0 <= k < |rest| && rest[k] == r[j];
          assert letters[k + 1] == r[j];
        }
        assert DistinctLetterIds(r) by {
          forall i, j | 0 <= i < j < |r| ensures r[i].id != r[j].id {
            if i > 0 {
              assert r[i] == tail[i - 1] && r[j] == tail[j - 1];
            }
          }
        }
      }
    }
  }

  /** Deleting by id keeps the letter table's invariant. */
  lemma RemoveKeepsLettersOk(letters: seq<LetterRow>, id: int)
    requires LettersOk(letters)
    ensures LettersOk(RemoveById(letters, LetterId, id))
  {
    RemoveKeepsDistinctIds(letters, id);
    var r := RemoveById(letters, LetterId, id);
    forall i | 0 <= i < |r| ensures LetterRowOk(r[i]) {
      assert r[i] in letters;
    }
  }

  class Server {
    /** The Flask session's 'user_id' entry; None when the key is absent. */
    var session: Option<int>
    var users: seq<UserRow>
    var letters: seq<LetterRow>

    ghost predicate Valid()
      reads this
    {
      UsersOk(users) && LettersOk(letters)
    }

    constructor ()
      ensures Valid() && session == None && users == [] && letters == []
    {
      session, users, letters := None, [], [];
    }

    /** `Signup.post`. `now` stands for `datetime.utcnow()` at insertion. */
    method Signup(req: SignupRequest, now: int) returns (r: Reply)
      requires Valid()
      modifies this
      ensures Valid() && letters == old(letters)
      ensures match NewUser(old(users), req, now)
        case Success(u) =>
          users == old(users) + [u] && session == Some(u.id) && r == Reply(201, UserJson(ToDict(u)))
        case Failure(e) =>
          users == old(users) && session == old(session) && r == ExceptReply(e, SignupFailedText)
    {
      match NewUser(users, req, now)
      case Failure(e) =>
        r := ExceptReply(e, SignupFailedText);
      case Success(u) =>
        AddUserKeepsUsersOk(users, u);
        users := users + [u];
        session := Some(u.id);
        r := Reply(201, UserJson(ToDict(u)));
    }

    /** `Login.post`. */
    method Login(req: LoginRequest) returns (r: Reply)
      modifies this`session
      ensures !(Given(req.identifier) && Given(req.password)) ==> r == LoginFailedReply && session == old(session)
      ensures Given(req.identifier) && Given(req.password) ==>
                var m := LoginMatch(users, req.identifier.value);
                if m.None? || !Authenticate(m.value, req.password.value) then
                  r == InvalidLoginReply && session == old(session)
                else
                  r == Reply(200, UserJson(ToDict(m.value))) && session == Some(m.value.id)
    {
      if !(Given(req.identifier) && Given(req.password)) {
        r := LoginFailedReply;
        return;
      }
      var m := LoginMatch(users, req.identifier.value);
      if m.None? || !Authenticate(m.value, req.password.value) {
        r := InvalidLoginReply;
        return;
      }
      session := Some(m.value.id);
      r := Reply(200, UserJson(ToDict(m.value)));
    }

    /** `CheckSession.get`: a session naming a missing user is cleared. */
    method CheckSession() returns (r: Reply)
      modifies this`session
      ensures !SessionActive(old(session)) ==>
                r == Reply(401, Errors("No active session.")) && session == old(session)
      ensures SessionActive(old(session)) ==>
                var m := UserById(users, old(session).value);
                if m.Some? then r == Reply(200, UserJson(ToDict(m.value))) && session == old(session)
                else r == Reply(401, Errors("User not found.")) && session == None
    {
      if !SessionActive(session) {
        return Reply(401, Errors("No active session."));
      }
      var m := UserById(users, session.value);
      if m.Some? {
        r := Reply(200, UserJson(ToDict(m.value)));
      } else {
        session := None;
        r := Reply(401, Errors("User not found."));
      }
    }

    /**
     * `Logout.delete`: the new state does not depend on the old session, so a second call changes nothing.
     * The handler builds a body for its 204, but a 204 carries no body on the wire, so the client never receives it.
     */
    method Logout() returns (r: Reply)
      modifies this`session
      ensures session == None && r == Reply(204, Notice("Successfully logged out."))
    {
      session := None;
      r := Reply(204, Notice("Successfully logged out."));
    }

    /** `LettersResource.get`: the session user's letters, newest first. */
    method ListLetters() returns (r: Reply)
      ensures !SessionActive(session) ==> r == UnauthorizedReply
      ensures SessionActive(session) ==>
                && r.status == 200 && r.body.LetterListJson?
                && NewestFirst(r.body.letters)
                && multiset(r.body.letters) == multiset(LettersOf(letters, session.value))
                && forall l :: l in r.body.letters <==> l in letters && OwnedBy(l, session.value)
    {
      if !SessionActive(session) {
        return UnauthorizedReply;
      }
      var mine := LettersOf(letters, session.value);
      var sorted := SortNewestFirst(mine);
      assert forall l :: l in sorted <==> l in multiset(sorted);
      r := Reply(200, LetterListJson(sorted));
    }

    /** `LettersResource.post`. */
    method CreateLetter(req: LetterFields, now: int) returns (r: Reply)
      requires Valid()
      modifies this`letters
      ensures Valid()
      ensures !SessionActive(session) ==> r == UnauthorizedReply && letters == old(letters)
      ensures SessionActive(session) ==>
                match NewLetter(old(letters), session.value, req, now)
                case Success(l) => letters == old(letters) + [l] && r == Reply(201, LetterJson(l))
                case Failure(e) => letters == old(letters) && r == ExceptReply(e, CreateLetterFailedText)
    {
      if !SessionActive(session) {
        return UnauthorizedReply;
      }
      match NewLetter(letters, session.value, req, now)
      case Failure(e) =>
        r := ExceptReply(e, CreateLetterFailedText);
      case Success(l) =>
        letters := letters + [l];
        r := Reply(201, LetterJson(l));
    }

    /**
     * `LetterByIdResource.get`: only the owner sees a letter.
     * The route's `<int:id>` converter accepts only unsigned digits, so a negative id never reaches the handler.
     */
    method GetLetter(id: int) returns (r: Reply)
      requires id >= 0
      ensures !SessionActive(session) ==> r == UnauthorizedReply
      ensures SessionActive(session) ==>
                if exists i :: 0 <= i < |letters| && letters[i].id == id && OwnedBy(letters[i], session.value)
                then r.status == 200 && r.body.LetterJson? && r.body.letter.id == id &&
                     r.body.letter in letters && OwnedBy(r.body.letter, session.value)
                else r == LetterNotFoundReply
    {
      if !SessionActive(session) {
        return UnauthorizedReply;
      }
      var m := OwnedLetter(letters, session.value, id);
      if m.None? {
        return LetterNotFoundReply;
      }
      r := Reply(200, LetterJson(m.value));
    }

    /** `LetterByIdResource.patch`: a failing rule rolls back, leaving the table as it was; the id is non-negative as for `GetLetter`. */
    method PatchLetter(id: int, patch: LetterFields) returns (r: Reply)
      requires id >= 0
      requires Valid()
      modifies this`letters
      ensures Valid()
      ensures !SessionActive(session) ==> r == UnauthorizedReply && letters == old(letters)
      ensures SessionActive(session) ==>
                var m := OwnedLetter(old(letters), session.value, id);
                if m.None? then r == LetterNotFoundReply && letters == old(letters)
                else match ApplyPatch(m.value, patch)
                  case Success(l) =>
                    letters == ReplaceById(old(letters), LetterId, l) && r == Reply(200, LetterJson(l))
                  case Failure(e) =>
                    letters == old(letters) && r == ExceptReply(e, UpdateLetterFailedText)
    {
      if !SessionActive(session) {
        return UnauthorizedReply;
      }
      var m := OwnedLetter(letters, session.value, id);
      if m.None? {
        return LetterNotFoundReply;
      }
      match ApplyPatch(m.value, patch)
      case Failure(e) =>
        r := ExceptReply(e, UpdateLetterFailedText);
      case Success(l) =>
        assert LetterRowOk(m.value);
        ReplaceKeepsLettersOk(letters, l);
        letters := ReplaceById(letters, LetterId, l);
        r := Reply(200, LetterJson(l));
    }

    /**
     * `LetterByIdResource.delete`: exactly the owned letter with that id goes.
     * As for `Logout`, the body built for the 204 never reaches the client.
     */
    method DeleteLetter(id: int) returns (r: Reply)
      requires id >= 0
      requires Valid()
      modifies this`letters
      ensures Valid()
      ensures !SessionActive(session) ==> r == UnauthorizedReply && letters == old(letters)
      ensures SessionActive(session) ==>
                if OwnedLetter(old(letters), session.value, id).None? then
                  r == LetterNotFoundReply && letters == old(letters)
                else
                  && letters == RemoveById(old(letters), LetterId, id)
                  && |letters| == |old(letters)| - 1
                  && r == Reply(204, Notice("Letter deleted successfully."))
    {
      if !SessionActive(session) {
        return UnauthorizedReply;
      }
      var m := OwnedLetter(letters, session.value, id);
      if m.None? {
        return LetterNotFoundReply;
      }
      RemoveKeepsLettersOk(letters, id);
      RemoveUniqueId(letters, LetterId, id);
      letters := RemoveById(letters, LetterId, id);
      r := Reply(204, Notice("Letter deleted successfully."));
    }
  }
}
