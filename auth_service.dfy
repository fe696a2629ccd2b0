/**
 * The auth service: signupUser and loginUser over the User collection,
 * keyed by its unique email. bcrypt is an abstract pair `hash`/`compare`;
 * store faults are inputs, as in the transaction service.
 */
module AuthService {
  import opened Wrappers
  import opened Js
  import opened Codes
  import opened UserSchema

  /** bcrypt's `hash` (salt rounds 12) and `compare`, as given functions. */
  datatype Hasher = Hasher(hash: string -> string, compare: (string, string) -> bool)

  /** What bcrypt guarantees: a password matches its own hash. */
  ghost predicate Sound(h: Hasher) {
    forall p :: h.compare(p, h.hash(p))
  }

  // ---------------------------------------------------------------- the email check

  /**
   * `/^[^\s@]+@[^\s@]+\.[^\s@]+$/.test(s)`, computed: no whitespace, exactly
   * one "@", a non-empty part before it, and after it a "." with text on
   * both sides.
   */
  predicate IsEmail(s: string) {
    && (forall i :: 0 <= i < |s| ==> !IsWhitespace(s[i]))
    && var parts := Split(s, '@');
       |parts| == 2 && parts[0] != "" && HasInnerDot(parts[1])
  }

  predicate HasInnerDot(d: string) {
    exists k :: 0 < k < |d| - 1 && d[k] == '.'
  }

  /** `[^\s@]+`. */
  ghost predicate Word(w: string) {
    w != "" && forall i :: 0 <= i < |w| ==> w[i] != '@' && !IsWhitespace(w[i])
  }

  /** The regular expression read literally: a word, "@", a word, ".", a word, and nothing else. */
  ghost predicate EmailPattern(s: string) {
    exists i, j :: 0 <= i < j < |s| && s[i] == '@' && s[j] == '.' && Word(s[..i]) && Word(s[i + 1..j]) && Word(s[j + 1..])
  }

  /** A non-empty slice without whitespace and without "@" is a word. */
  lemma WordOfSlice(s: string, lo: int, hi: int)
    requires 0 <= lo < hi <= |s|
    requires forall m :: lo <= m < hi ==> s[m] != '@' && !IsWhitespace(s[m])
    ensures Word(s[lo..hi])
  {
    forall m | 0 <= m < hi - lo ensures s[lo..hi][m] != '@' && !IsWhitespace(s[lo..hi][m]) {
      assert s[lo..hi][m] == s[lo + m];
    }
  }

  /** The only "@" of an accepted address sits right after the first part of the split. */
  lemma AtPosition(s: string)
    requires IsEmail(s)
    ensures var a, b := Split(s, '@')[0], Split(s, '@')[1];
      |s| == |a| + 1 + |b| && s[..|a|] == a && s[|a|] == '@' && s[|a| + 1..] == b
  {
    var parts := Split(s, '@');
    JoinSplit(s, '@');
    assert parts[1..] == [parts[1]];
  }

  lemma EmailToPattern(s: string)
    requires IsEmail(s)
    ensures EmailPattern(s)
  {
    AtPosition(s);
    var a, b := Split(s, '@')[0], Split(s, '@')[1];
    assert '@' !in a && '@' !in b;
    var k :| 0 < k < |b| - 1 && b[k] == '.';
    var i, j := |a|, |a| + 1 + k;
    forall m | 0 <= m < |s| && m != i ensures s[m] != '@' {
      if m < i { assert s[m] == s[..i][m]; } else { assert s[m] == s[i + 1..][m - i - 1]; }
    }
    assert s[j] == s[i + 1..][k];
    assert !IsWhitespace('@');
    WordOfSlice(s, 0, i);
    WordOfSlice(s, i + 1, j);
    WordOfSlice(s, j + 1, |s|);
    assert s[0..i] == s[..i] && s[j + 1..|s|] == s[j + 1..];
  }

  /** Every character of a word is a character of the string it was cut from, and conversely. */
  lemma WordChars(s: string, lo: int, hi: int)
    requires 0 <= lo < hi <= |s| && Word(s[lo..hi])
    ensures forall m :: lo <= m < hi ==> s[m] != '@' && !IsWhitespace(s[m])
  {
    forall m | lo <= m < hi ensures s[m] != '@' && !IsWhitespace(s[m]) {
      assert s[m] == s[lo..hi][m - lo];
    }
  }

  /** A string cut at its only "@" splits into the two sides. */
  lemma SplitAround(s: string, i: int)
    requires 0 <= i < |s| && s[i] == '@'
    requires forall m :: 0 <= m < |s| && m != i ==> s[m] != '@'
    ensures Split(s, '@') == [s[..i], s[i + 1..]]
  {
    var a, b := s[..i], s[i + 1..];
    assert s == a + ['@'] + b;
    assert '@' !in a by {
      forall m | 0 <= m < |a| ensures a[m] != '@' { assert a[m] == s[m]; }
    }
    assert '@' !in b by {
      forall m | 0 <= m < |b| ensures b[m] != '@' { assert b[m] == s[i + 1 + m]; }
    }
    SplitAt(a, b, '@');
    SplitFree(b, '@');
  }

  lemma PatternAt(s: string, i: int, j: int)
    requires 0 <= i < j < |s| && s[i] == '@' && s[j] == '.'
    requires Word(s[0..i]) && Word(s[i + 1..j]) && Word(s[j + 1..|s|])
    ensures IsEmail(s)
  {
    WordChars(s, 0, i);
    WordChars(s, i + 1, j);
    WordChars(s, j + 1, |s|);
    assert !IsWhitespace('@') && !IsWhitespace('.');
    assert forall m :: 0 <= m < |s| && m != i ==> s[m] != '@';
    SplitAround(s, i);
    var b := s[i + 1..];
    assert b[j - i - 1] == s[j];
    assert HasInnerDot(b);
  }

  lemma PatternToEmail(s: string)
    requires EmailPattern(s)
    ensures IsEmail(s)
  {
    var i, j :| 0 <= i < j < |s| && s[i] == '@' && s[j] == '.' && Word(s[..i]) && Word(s[i + 1..j]) && Word(s[j + 1..]);
    assert s[0..i] == s[..i] && s[j + 1..|s|] == s[j + 1..];
    PatternAt(s, i, j);
  }

  /** The computed check accepts exactly the strings the regular expression matches. */
  lemma EmailCheckIsPattern(s: string)
    ensures IsEmail(s) <==> EmailPattern(s)
  {
    if IsEmail(s) { EmailToPattern(s); }
    if EmailPattern(s) { PatternToEmail(s); }
  }

  // ---------------------------------------------------------------- signup

  /** The catch block of signupUser: the duplicate-key code is tested first. */
  function SignupFault(f: StoreFault): (r: ServiceResult<()>)
    ensures r.Fail?
    ensures r.code == DuplicateEmail <==> f == DuplicateKey
    ensures r.code == ValidationError <==> f == SchemaRejected
    ensures r.code == ServerError <==> f == CastFailed || f == OtherFault
  {
    match f
    case DuplicateKey => Fail("User with this email already exists", DuplicateEmail)
    case SchemaRejected => Fail("Invalid user data provided", ValidationError)
    case _ => Fail("Internal server error occurred", ServerError)
  }

  /**
   * signupUser: the empty-field check, the `findOne({ email })` pre-check
   * (which may throw `findFault`), the hash, then `save()`: the schema's
   * validators run first, then the write (which may throw `saveFault`, e.g.
   * a duplicate key from a concurrent signup).
   */
  function SignupStep(users: map<string, User>, name: string, email: string, password: string, h: Hasher,
                      now: int, findFault: Option<StoreFault>, saveFault: Option<StoreFault>): (s: (ServiceResult<()>, map<string, User>))
    ensures s.0.Fail? ==> s.1 == users
    ensures name == "" || email == "" || password == "" ==>
      s.0 == Fail("All fields (name, email, password) are required", MissingFields)
    ensures name != "" && email != "" && password != "" && findFault.Some? ==> s.0 == SignupFault(findFault.value)
    ensures name != "" && email != "" && password != "" && findFault.None? && email in users ==>
      s.0 == Fail("User with this email already exists", UserExists)
    ensures && name != "" && email != "" && password != "" && findFault.None? && email !in users
            && !SchemaValid(User(name, email, h.hash(password), now, now)) ==>
      s.0 == Fail("Invalid user data provided", ValidationError)
    ensures && name != "" && email != "" && password != "" && findFault.None? && email !in users
            && SchemaValid(User(name, email, h.hash(password), now, now)) && saveFault.Some? ==>
      s.0 == SignupFault(saveFault.value)
    ensures s.0.Ok? <==>
      name != "" && email != "" && password != "" && findFault.None? && email !in users
      && h.hash(password) != "" && saveFault.None?
    ensures s.0.Ok? ==> s.1 == users[email := User(name, email, h.hash(password), now, now)]
    ensures s.0.Ok? ==> s.0.message == "User created successfully"
    ensures s.0.Fail? && s.0.code == DuplicateEmail ==> saveFault == Some(DuplicateKey) || findFault == Some(DuplicateKey)
    ensures Consistent(users) ==> Consistent(s.1)
  {
    if name == "" || email == "" || password == "" then
      (Fail("All fields (name, email, password) are required", MissingFields), users)
    else if findFault.Some? then
      (SignupFault(findFault.value), users)
    else if email in users then
      (Fail("User with this email already exists", UserExists), users)
    else
      var u := User(name, email, h.hash(password), now, now);
      if !SchemaValid(u) then
        (Fail("Invalid user data provided", ValidationError), users)
      else if saveFault.Some? then
        (SignupFault(saveFault.value), users)
      else
        (Ok("User created successfully", ()), InsertUnique(users, u).value)
  }

  /** A second signup with an email already taken fails, whichever name and password it carries. */
  lemma NoSecondSignup(users: map<string, User>, email: string, n1: string, p1: string, n2: string, p2: string,
                       h: Hasher, t1: int, t2: int, f: Option<StoreFault>)
    requires SignupStep(users, n1, email, p1, h, t1, None, f).0.Ok?
    requires n2 != "" && p2 != ""
    ensures SignupStep(SignupStep(users, n1, email, p1, h, t1, None, f).1, n2, email, p2, h, t2, None, None).0
         == Fail("User with this email already exists", UserExists)
  {
  }

  // ---------------------------------------------------------------- login

  /**
   * loginUser: the empty-field check, the email check, then the lookup
   * (`fault` is whatever `findOne` or `compare` throws) and the password
   * comparison. An unknown email and a wrong password give the same failure.
   */
  function Login(users: map<string, User>, email: string, password: string, h: Hasher,
                 fault: Option<StoreFault>): (r: ServiceResult<User>)
    ensures email == "" || password == "" ==> r == Fail("Email and password are required", MissingFields)
    ensures email != "" && password != "" && !IsEmail(email) ==>
      r == Fail("Please provide a valid email address", InvalidEmail)
    ensures email != "" && password != "" && IsEmail(email) && fault.Some? ==>
      r == Fail("An error occurred during login", ServerError)
    ensures r.Fail? && r.code == InvalidCredentials <==>
      email != "" && password != "" && IsEmail(email) && fault.None?
      && (email !in users || !h.compare(password, users[email].passwordHash))
    ensures r.Fail? && r.code == InvalidCredentials ==> r.message == "Invalid email or password"
    ensures r.Ok? <==>
      email != "" && password != "" && IsEmail(email) && fault.None?
      && email in users && h.compare(password, users[email].passwordHash)
    ensures r.Ok? ==> r == Ok("Login successful", users[email])
  {
    if email == "" || password == "" then
      Fail("Email and password are required", MissingFields)
    else if !IsEmail(email) then
      Fail("Please provide a valid email address", InvalidEmail)
    else if fault.Some? then
      Fail("An error occurred during login", ServerError)
    else if email !in users then
      Fail("Invalid email or password", InvalidCredentials)
    else if !h.compare(password, users[email].passwordHash) then
      Fail("Invalid email or password", InvalidCredentials)
    else
      Ok("Login successful", users[email])
  }

  /** With a sound hasher, a user who signed up can log in with the same password and gets the stored record. */
  lemma SignupThenLogin(users: map<string, User>, name: string, email: string, password: string, h: Hasher,
                        now: int, saveFault: Option<StoreFault>)
    requires Sound(h) && IsEmail(email)
    requires SignupStep(users, name, email, password, h, now, None, saveFault).0.Ok?
    ensures Login(SignupStep(users, name, email, password, h, now, None, saveFault).1, email, password, h, None)
         == Ok("Login successful", User(name, email, h.hash(password), now, now))
  {
  }

  // ---------------------------------------------------------------- the store object

  /** The User collection as the auth service sees it. */
  class UserStore {
    var users: map<string, User>

    ghost predicate Valid()
      reads this
    {
      Consistent(users)
    }

    constructor ()
      ensures Valid() && users == map[]
    {
      users := map[];
    }

    method SignupUser(name: string, email: string, password: string, h: Hasher, now: int,
                      findFault: Option<StoreFault>, saveFault: Option<StoreFault>) returns (r: ServiceResult<()>)
      requires Valid()
      modifies this
      ensures Valid()
      ensures (r, users) == SignupStep(old(users), name, email, password, h, now, findFault, saveFault)
    {
      if name == "" || email == "" || password == "" {
        return Fail("All fields (name, email, password) are required", MissingFields);
      }
      if findFault.Some? {
        return SignupFault(findFault.value);
      }
      if email in users {
        return Fail("User with this email already exists", UserExists);
      }
      var passwordHash := h.hash(password);
      var newUser := User(name, email, passwordHash, now, now);
      if !SchemaValid(newUser) {
        return Fail("Invalid user data provided", ValidationError);
      }
      if saveFault.Some? {
        return SignupFault(saveFault.value);
      }
      users := users[email := newUser];
      r := Ok("User created successfully", ());
    }

    method LoginUser(email: string, password: string, h: Hasher, fault: Option<StoreFault>) returns (r: ServiceResult<User>)
      ensures r == Login(users, email, password, h, fault)
    {
      if email == "" || password == "" {
        return Fail("Email and password are required", MissingFields);
      }
      if !IsEmail(email) {
        return Fail("Please provide a valid email address", InvalidEmail);
      }
      if fault.Some? {
        return Fail("An error occurred during login", ServerError);
      }
      if email !in users {
        return Fail("Invalid email or password", InvalidCredentials);
      }
      var user := users[email];
      var isPasswordValid := h.compare(password, user.passwordHash);
      if !isPasswordValid {
        return Fail("Invalid email or password", InvalidCredentials);
      }
      r := Ok("Login successful", user);
    }
  }
}
