/**
 * The server's data model: the rows of the user and letter tables and the
 * accept/reject rules the ORM runs whenever a validated attribute is assigned.
 * A rule either returns the value it was given or raises a Python exception,
 * modelled as a `Result` whose failure is a `PyError`.
 */
module Models {
  import opened Common

  const MinPasswordLength := 6
  const MinUsernameLength := 3
  const MaxUsernameLength := 80
  const MaxTitleLength := 255
  const MaxSoulNoteLength := 500

  /** A JSON value as Python sees it after parsing: None, str, int or bool. */
  datatype PyValue = PyNone | PyStr(s: string) | PyInt(i: int) | PyBool(b: bool)

  /** Python truthiness: None, "", 0 and False are false. */
  predicate Truthy(v: PyValue) {
    match v
    case PyNone => false
    case PyStr(s) => s != []
    case PyInt(i) => i != 0
    case PyBool(b) => b
  }

  /** Python `==` on these values; note that `1 == True` and `0 == False`. */
  predicate PyEq(a: PyValue, b: PyValue) {
    match (a, b)
    case (PyInt(i), PyBool(c)) => i == (if c then 1 else 0)
    case (PyBool(c), PyInt(i)) => i == (if c then 1 else 0)
    case _ => a == b
  }

  /**
   * The exceptions raised along these paths. `ValidationError` is the server's
   * own exception class, which derives from `Exception` and not from `ValueError`.
   */
  datatype PyError =
    | ValueError(msg: string)
    | TypeError(msg: string)
    | AttributeError(msg: string)
    | ValidationError(msg: string)

  datatype UserRow = UserRow(
    id: int,
    username: string,
    email: string,
    passwordHash: string,  // stands for the bcrypt digest; see `Authenticate`
    createdAt: int)

  datatype LetterRow = LetterRow(id: int, userId: int, title: string, content: string, createdAt: int)

  // ---------------------------------------------------------------- passwords

  /** Reading `password_hash` always raises. */
  function ReadPasswordHash(u: UserRow): (r: Result<string, PyError>)
    ensures r.Failure? && r.error == AttributeError("Password hashes may not be read.")
  {
    Failure(AttributeError("Password hashes may not be read."))
  }

  /**
   * The `password_hash` setter: a non-string raises TypeError, a string shorter
   * than six characters raises ValueError, anything else is stored (hashing is
   * treated as opaque, so the stored digest stands for the password itself).
   */
  function SetPassword(u: UserRow, password: PyValue): (r: Result<UserRow, PyError>)
    ensures r.Success? <==> password.PyStr? && |password.s| >= MinPasswordLength
    ensures !password.PyStr? ==> r == Failure(TypeError("Password must be a string."))
    ensures password.PyStr? && |password.s| < MinPasswordLength ==>
              r == Failure(ValueError("Password must be at least 6 characters long."))
    ensures r.Success? ==> r.value.(passwordHash := u.passwordHash) == u
  {
    match password
    case PyStr(p) =>
      if |p| < MinPasswordLength then Failure(ValueError("Password must be at least 6 characters long."))
      else Success(u.(passwordHash := p))
    case _ => Failure(TypeError("Password must be a string."))
  }

  /** `authenticate`: the password matches the last one set. */
  predicate Authenticate(u: UserRow, password: string) {
    u.passwordHash == password
  }

  /** After a successful set of p, exactly p authenticates. */
  lemma AuthenticateAfterSet(u: UserRow, p: string, q: string)
    requires SetPassword(u, PyStr(p)).Success?
    ensures Authenticate(SetPassword(u, PyStr(p)).value, q) <==> q == p
  {
  }

  // ---------------------------------------------------------------- email format

  predicate NoAt(s: string) {
    forall i :: 0 <= i < |s| ==> s[i] != '@'
  }

  /**
   * One way for `re.match(r"[^@]+@[^@]+\.[^@]+", e)` to succeed: e[..a] is the
   * first `[^@]+`, e[a] the '@', e[a+1..b] the second `[^@]+`, e[b] the '.',
   * and e[b+1..c] the last `[^@]+`. `re.match` anchors only at the start, so
   * nothing is required of e[c..].
   */
  ghost predicate RegexSplit(e: string, a: int, b: int, c: int) {
    && 0 < a && a + 1 < b && b + 1 < c && c <= |e|
    && NoAt(e[..a]) && e[a] == '@'
    && NoAt(e[a + 1..b]) && e[b] == '.'
    && NoAt(e[b + 1..c])
  }

  /** The regular expression's meaning. */
  ghost predicate RegexMatches(e: string) {
    exists a, b, c :: RegexSplit(e, a, b, c)
  }

  /** Index of the first '@', or |s| when there is none. */
  function FirstAt(s: string): (k: nat)
    ensures k <= |s|
    ensures NoAt(s[..k])
    ensures k < |s| ==> s[k] == '@'
  {
    if s == [] then 0
    else if s[0] == '@' then 0
    else assert s[..1 + FirstAt(s[1..])] == [s[0]] + s[1..][..FirstAt(s[1..])]; 1 + FirstAt(s[1..])
  }

  /** The text between the first '@' and the next '@' (or the end). */
  function DomainSegment(e: string): (d: string)
    requires FirstAt(e) < |e|
    ensures NoAt(d)
  {
    var rest := e[FirstAt(e) + 1..];
    rest[..FirstAt(rest)]
  }

  /** A '.' that is neither the first nor the last character. */
  predicate HasInnerDot(d: string) {
    exists i :: 0 < i < |d| - 1 && d[i] == '.'
  }

  /**
   * The email format rule in direct terms: something precedes the first '@',
   * and the segment after it contains an inner '.'.
   */
  predicate EmailFormatOk(e: string) {
    var k := FirstAt(e);
    0 < k < |e| && HasInnerDot(DomainSegment(e))
  }

  lemma FirstAtOfSplit(e: string, a: int)
    requires 0 <= a < |e| && NoAt(e[..a]) && e[a] == '@'
    ensures FirstAt(e) == a
  {
  }

  /** An '@'-free prefix of length n puts the first '@' at n or later. */
  lemma FirstAtAtLeast(s: string, n: nat)
    requires n <= |s| && NoAt(s[..n])
    ensures FirstAt(s) >= n
  {
    forall j | 0 <= j < n
      ensures s[j] != '@'
    {
      assert s[j] == s[..n][j];
    }
  }

  /** A well-formed address splits the way the regular expression needs. */
  lemma EmailFormatGivesSplit(e: string)
    requires EmailFormatOk(e)
    ensures RegexMatches(e)
  {
    var a := FirstAt(e);
    var d := DomainSegment(e);
    var i :| 0 < i < |d| - 1 && d[i] == '.';
    var b, c := a + 1 + i, a + 1 + |d|;
    assert e[a + 1..c] == d;
    assert e[a + 1..b] == d[..i];
    assert e[b + 1..c] == d[i + 1..];
    assert RegexSplit(e, a, b, c);
  }

  /** In a split, the text from the '@' to the end of the match holds no further '@'. */
  lemma SplitMiddleHasNoAt(e: string, a: int, b: int, c: int)
    requires RegexSplit(e, a, b, c)
    ensures NoAt(e[a + 1..][..c - a - 1])
  {
    var rest := e[a + 1..];
    var m := rest[..c - a - 1];
    forall j | 0 <= j < |m|
      ensures m[j] != '@'
    {
      assert m[j] == rest[j];
      if j + a + 1 < b {
        assert rest[j] == e[a + 1..b][j];
      } else if j + a + 1 > b {
        assert rest[j] == e[b + 1..c][j + a + 1 - b - 1];
      }
    }
  }

  /** Any split the regular expression finds makes the address well-formed. */
  lemma SplitGivesEmailFormat(e: string, a: int, b: int, c: int)
    requires RegexSplit(e, a, b, c)
    ensures EmailFormatOk(e)
  {
    FirstAtOfSplit(e, a);
    SplitMiddleHasNoAt(e, a, b, c);
    FirstAtAtLeast(e[a + 1..], c - a - 1);
    var d := DomainSegment(e);
    assert d[b - a - 1] == e[b];
  }

  /** The direct characterisation is exactly what the regular expression accepts. */
  lemma EmailFormatMatchesRegex(e: string)
    ensures EmailFormatOk(e) <==> RegexMatches(e)
  {
    if EmailFormatOk(e) {
      EmailFormatGivesSplit(e);
    }
    if RegexMatches(e) {
      var a, b, c :| RegexSplit(e, a, b, c);
      SplitGivesEmailFormat(e, a, b, c);
    }
  }

  // ---------------------------------------------------------------- User validators

  /** A table row other than the record being validated (`existing.id != self.id`). */
  predicate IsOther(u: UserRow, selfId: Option<int>) {
    selfId.None? || u.id != selfId.value
  }

  /**
   * `validate_email`: a non-string raises TypeError inside `re.match`; a string
   * the regular expression rejects raises "Invalid email format."; the first
   * row whose email is equal ignoring case, if it is another row, raises
   * "Email already in use.".
   */
  function ValidateEmail(users: seq<UserRow>, selfId: Option<int>, email: PyValue): (r: Result<string, PyError>)
    ensures !email.PyStr? ==> r.Failure? && r.error.TypeError?
    ensures email.PyStr? && !RegexMatches(email.s) ==> r == Failure(ValueError("Invalid email format."))
    ensures r.Success? <==>
              && email.PyStr? && RegexMatches(email.s)
              && var m := FirstMatch(users, (u: UserRow) => SameIgnoringCase(u.email, email.s));
                 m.None? || !IsOther(m.value, selfId)
    ensures r.Success? ==> r.value == email.s
  {
    EmailFormatMatches(email);
    match email
    case PyStr(e) =>
      if !EmailFormatOk(e) then Failure(ValueError("Invalid email format."))
      else
        var existing := FirstMatch(users, (u: UserRow) => SameIgnoringCase(u.email, e));
        if existing.Some? && IsOther(existing.value, selfId) then Failure(ValueError("Email already in use."))
        else Success(e)
    case _ => Failure(TypeError("expected string or bytes-like object"))
  }

  lemma EmailFormatMatches(email: PyValue)
    ensures email.PyStr? ==> (EmailFormatOk(email.s) <==> RegexMatches(email.s))
  {
    if email.PyStr? {
      EmailFormatMatchesRegex(email.s);
    }
  }

  /** For a record not yet stored, "Email already in use." is raised iff some row has the email ignoring case. */
  lemma {:induction false} NewUserEmailTaken(users: seq<UserRow>, e: string)
    requires RegexMatches(e)
    ensures ValidateEmail(users, None, PyStr(e)) == Failure(ValueError("Email already in use.")) <==>
              exists i :: 0 <= i < |users| && SameIgnoringCase(users[i].email, e)
  {
    EmailFormatMatchesRegex(e);
  }

  /**
   * `validate_username`: a falsy value raises "Username cannot be empty."; a
   * value without a length raises TypeError; a length outside 3..80 raises
   * "Username must be between 3 and 80 characters."; the first row with the
   * same name ignoring case, if it is another row, raises "Username already taken.".
   */
  function ValidateUsername(users: seq<UserRow>, selfId: Option<int>, username: PyValue): (r: Result<string, PyError>)
    ensures !Truthy(username) ==> r == Failure(ValueError("Username cannot be empty."))
    ensures Truthy(username) && !username.PyStr? ==> r.Failure? && r.error.TypeError?
    ensures username.PyStr? && username.s != [] && !(MinUsernameLength <= |username.s| <= MaxUsernameLength) ==>
              r == Failure(ValueError("Username must be between 3 and 80 characters."))
    ensures r.Success? <==>
              && username.PyStr? && MinUsernameLength <= |username.s| <= MaxUsernameLength
              && var m := FirstMatch(users, (u: UserRow) => SameIgnoringCase(u.username, username.s));
                 m.None? || !IsOther(m.value, selfId)
    ensures username.PyStr? && MinUsernameLength <= |username.s| <= MaxUsernameLength &&
            (var m := FirstMatch(users, (u: UserRow) => SameIgnoringCase(u.username, username.s));
             m.Some? && IsOther(m.value, selfId)) ==>
              r == Failure(ValueError("Username already taken."))
    ensures r.Success? ==> r.value == username.s
  {
    if !Truthy(username) then Failure(ValueError("Username cannot be empty."))
    else match username
      case PyStr(n) =>
        if |n| < MinUsernameLength || |n| > MaxUsernameLength then
          Failure(ValueError("Username must be between 3 and 80 characters."))
        else
          var existing := FirstMatch(users, (u: UserRow) => SameIgnoringCase(u.username, n));
          if existing.Some? && IsOther(existing.value, selfId) then Failure(ValueError("Username already taken."))
          else Success(n)
      case _ => Failure(TypeError("object has no len()"))
  }

  /** For a record not yet stored, "Username already taken." is raised iff some row has the name ignoring case. */
  lemma NewUserNameTaken(users: seq<UserRow>, n: string)
    requires MinUsernameLength <= |n| <= MaxUsernameLength
    ensures ValidateUsername(users, None, PyStr(n)) == Failure(ValueError("Username already taken.")) <==>
              exists i :: 0 <= i < |users| && SameIgnoringCase(users[i].username, n)
  {
  }

  // ---------------------------------------------------------------- Letter, TimeCapsule, UserNote, SoulNote

  /** `not value` for a string-or-None attribute. */
  predicate Blank(v: Option<string>) {
    v.None? || v.value == []
  }

  /** `Letter.validate_title`: non-empty and at most 255 characters (255 itself is accepted). */
  function ValidateTitle(title: Option<string>): (r: Result<string, PyError>)
    ensures r.Success? <==> title.Some? && 0 < |title.value| <= MaxTitleLength
    ensures r.Success? ==> r.value == title.value
    ensures r.Failure? ==> r.error == ValueError("Title must be non-empty and less than 255 characters.")
  {
    if Blank(title) || |title.value| > MaxTitleLength then
      Failure(ValueError("Title must be non-empty and less than 255 characters."))
    else Success(title.value)
  }

  /** `Letter.validate_content`: non-empty. */
  function ValidateLetterContent(content: Option<string>): (r: Result<string, PyError>)
    ensures r.Success? <==> !Blank(content)
    ensures r.Success? ==> r.value == content.value
    ensures r.Failure? ==> r.error == ValueError("Content cannot be empty.")
  {
    if Blank(content) then Failure(ValueError("Content cannot be empty.")) else Success(content.value)
  }

  /** `TimeCapsule.validate_message`: non-empty. */
  function ValidateCapsuleMessage(message: Option<string>): (r: Result<string, PyError>)
    ensures r.Success? <==> !Blank(message)
    ensures r.Success? ==> r.value == message.value
    ensures r.Failure? ==> r.error == ValueError("Message cannot be empty.")
  {
    if Blank(message) then Failure(ValueError("Message cannot be empty.")) else Success(message.value)
  }

  /** `TimeCapsule.validate_open_date`: strictly after the current UTC time `now`. */
  function ValidateOpenDate(openDate: int, now: int): (r: Result<int, PyError>)
    ensures r.Success? <==> openDate > now
    ensures r.Success? ==> r.value == openDate
    ensures r.Failure? ==> r.error == ValueError("Open date must be in the future.")
  {
    if openDate <= now then Failure(ValueError("Open date must be in the future.")) else Success(openDate)
  }

  /** `UserNote.validate_content`: non-empty. */
  function ValidateNoteContent(content: Option<string>): (r: Result<string, PyError>)
    ensures r.Success? <==> !Blank(content)
    ensures r.Success? ==> r.value == content.value
    ensures r.Failure? ==> r.error == ValueError("Note content cannot be empty.")
  {
    if Blank(content) then Failure(ValueError("Note content cannot be empty.")) else Success(content.value)
  }

  /** `SoulNote.validate_message`: non-empty and at most 500 characters. */
  function ValidateSoulNoteMessage(message: Option<string>): (r: Result<string, PyError>)
    ensures r.Success? <==> message.Some? && 0 < |message.value| <= MaxSoulNoteLength
    ensures r.Success? ==> r.value == message.value
    ensures r.Failure? ==> r.error == ValueError("Message must be non-empty and less than 500 characters.")
  {
    if Blank(message) || |message.value| > MaxSoulNoteLength then
      Failure(ValueError("Message must be non-empty and less than 500 characters."))
    else Success(message.value)
  }

  // ---------------------------------------------------------------- row invariants

  /** What the validators guarantee of every stored user row. */
  predicate UserRowOk(u: UserRow) {
    && u.id > 0
    && MinUsernameLength <= |u.username| <= MaxUsernameLength
    && EmailFormatOk(u.email)
    && |u.passwordHash| >= MinPasswordLength
  }

  /** What the validators guarantee of every stored letter row. */
  predicate LetterRowOk(l: LetterRow) {
    && l.id > 0
    && 0 < |l.title| <= MaxTitleLength
    && l.content != []
  }
}
