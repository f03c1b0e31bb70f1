/** The login account of TechnicalTest: a normalised e-mail address, a
    password hash and salt, and an optional full name. */
module Users {
  import opened Common
  import opened Text

  const InvalidEmailMessage: string := "El correo electrónico no es válido."
  const PasswordRequiredMessage: string := "La contraseña es obligatoria."

  /** One run of the pattern class `[^@\s]+`: non-empty, with neither '@' nor
      white space. */
  predicate IsEmailPart(x: string) {
    x != [] && forall i | 0 <= i < |x| :: x[i] != '@' && !IsWhiteSpace(x[i])
  }

  /** The pattern `^[^@\s]+@[^@\s]+\.[^@\s]+$` as a decomposition: a local
      part, '@', a domain label, '.', and the rest of the domain. */
  ghost predicate MatchesEmailPattern(s: string) {
    exists a: string, b: string, c: string | IsEmailPart(a) && IsEmailPart(b) && IsEmailPart(c) ::
      s == a + "@" + b + "." + c
  }

  /** The same pattern as a check on positions: no white space, exactly one
      '@', not first, and a '.' after it with at least one character on each
      side. */
  predicate EmailShape(s: string) {
    && (forall i | 0 <= i < |s| :: !IsWhiteSpace(s[i]))
    && exists k | 0 < k < |s| ::
         && s[k] == '@'
         && (forall i | 0 <= i < |s| && i != k :: s[i] != '@')
         && exists j | k + 1 < j < |s| - 1 :: s[j] == '.'
  }

  /** A string of the right shape splits into the pattern's three parts. */
  lemma ShapeToPattern(s: string)
    requires EmailShape(s)
    ensures MatchesEmailPattern(s)
  {
    var k :| 0 < k < |s| && s[k] == '@' && (forall i | 0 <= i < |s| && i != k :: s[i] != '@')
             && exists j | k + 1 < j < |s| - 1 :: s[j] == '.';
    var j :| k + 1 < j < |s| - 1 && s[j] == '.';
    var a, b, c := s[..k], s[k + 1..j], s[j + 1..];
    assert forall i | 0 <= i < |a| :: a[i] == s[i];
    assert forall i | 0 <= i < |b| :: b[i] == s[k + 1 + i];
    assert forall i | 0 <= i < |c| :: c[i] == s[j + 1 + i];
    assert s == a + "@" + b + "." + c;
    assert IsEmailPart(a) && IsEmailPart(b) && IsEmailPart(c);
  }

  /** Three parts joined by '@' and '.' have the right shape. */
  lemma PatternToShape(s: string)
    requires MatchesEmailPattern(s)
    ensures EmailShape(s)
  {
    var a: string, b: string, c: string :| IsEmailPart(a) && IsEmailPart(b) && IsEmailPart(c) && s == a + "@" + b + "." + c;
    var k, j := |a|, |a| + 1 + |b|;
    forall i | 0 <= i < |s| ensures !IsWhiteSpace(s[i]) && (i != k ==> s[i] != '@') {
      if i < k { assert s[i] == a[i]; }
      else if k < i < j { assert s[i] == b[i - k - 1]; }
      else if j < i { assert s[i] == c[i - j - 1]; }
    }
    assert s[k] == '@' && s[j] == '.';
  }

  /** The position check accepts exactly the strings the pattern matches. */
  lemma EmailShapeMatchesPattern(s: string)
    ensures EmailShape(s) <==> MatchesEmailPattern(s)
  {
    if EmailShape(s) { ShapeToPattern(s); }
    if MatchesEmailPattern(s) { PatternToShape(s); }
  }

  /** `IsValidEmail`: not blank, and the trimmed text matches the pattern. */
  predicate IsValidEmail(email: string) {
    !IsBlank(email) && EmailShape(Trim(email))
  }

  /** Lower-casing keeps white space, '@' and '.' where they were, so it
      keeps the shape. */
  lemma LowerKeepsShape(t: string)
    requires EmailShape(t)
    ensures EmailShape(ToLowerInvariant(t))
  {
    var n := ToLowerInvariant(t);
    forall i | 0 <= i < |t| ensures (IsWhiteSpace(n[i]) <==> IsWhiteSpace(t[i])) && (n[i] == '@' <==> t[i] == '@') && (n[i] == '.' <==> t[i] == '.') {
      ToLowerInvariantAt(t, i);
      ToLowerCharFacts(t[i]);
    }
    var k :| 0 < k < |t| && t[k] == '@' && (forall i | 0 <= i < |t| && i != k :: t[i] != '@')
             && exists j | k + 1 < j < |t| - 1 :: t[j] == '.';
    var j :| k + 1 < j < |t| - 1 && t[j] == '.';
    assert n[k] == '@' && n[j] == '.';
  }

  /** A valid address matches the pattern once trimmed, and its stored,
      normalised form is valid too. */
  lemma ValidEmailNormalForm(email: string)
    requires IsValidEmail(email)
    ensures MatchesEmailPattern(Trim(email))
    ensures IsValidEmail(NormalizeEmail(email))
  {
    var t := Trim(email);
    ShapeToPattern(t);
    var n := NormalizeEmail(email);
    assert n == ToLowerInvariant(t);
    LowerKeepsShape(t);
    TrimOfTrimmed(n);
  }

  /** `fullName?.Trim()`. */
  function TrimOptional(fullName: Option<string>): (r: Option<string>)
    ensures r.None? <==> fullName.None?
    ensures r.Some? ==> r.value == Trim(fullName.value) && IsTrimmed(r.value)
  {
    match fullName
    case None => None
    case Some(n) => Some(Trim(n))
  }

  /** The values a user persists. */
  datatype UserState = UserState(
    id: Guid,
    email: string,
    passwordHash: string,
    passwordSalt: string,
    fullName: Option<string>,
    createdAtUtc: DateTime)

  class User {
    const id: Guid
    const email: string
    var passwordHash: string
    var passwordSalt: string
    var fullName: Option<string>
    const createdAtUtc: DateTime

    function State(): UserState
      reads this
    {
      UserState(id, email, passwordHash, passwordSalt, fullName, createdAtUtc)
    }

    /** What the public constructor guarantees and the mutators keep: a hash,
        a salt and a valid address. */
    ghost predicate Valid()
      reads this
    {
      !IsBlank(passwordHash) && !IsBlank(passwordSalt) && IsValidEmail(email)
    }

    /** A user read back from the store with the values it was saved with. */
    constructor FromState(s: UserState)
      ensures State() == s
    {
      id, email, createdAtUtc := s.id, s.email, s.createdAtUtc;
      passwordHash, passwordSalt, fullName := s.passwordHash, s.passwordSalt, s.fullName;
    }

    /** The public constructor: refuses an invalid address, then a blank hash
        or salt; stores the address trimmed and lower-cased, the full name
        trimmed, and the creation time given or else `now`. */
    static method New(id: Guid, email: string, passwordHash: string, passwordSalt: string,
                      now: DateTime, fullName: Option<string> := None, createdAtUtc: Option<DateTime> := None)
      returns (r: Result<User>)
      ensures r.Ok? <==> IsValidEmail(email) && !IsBlank(passwordHash) && !IsBlank(passwordSalt)
      ensures !IsValidEmail(email) ==> r == Err(Domain(InvalidEmailMessage))
      ensures IsValidEmail(email) && r.Err? ==> r.error == Domain(PasswordRequiredMessage)
      ensures r.Ok? ==> fresh(r.value) && r.value.Valid()
      ensures r.Ok? ==> r.value.State() == UserState(id, NormalizeEmail(email), passwordHash, passwordSalt,
                                                     TrimOptional(fullName), OrElse(createdAtUtc, now))
    {
      if !IsValidEmail(email) {
        return Err(Domain(InvalidEmailMessage));
      }
      if IsBlank(passwordHash) || IsBlank(passwordSalt) {
        return Err(Domain(PasswordRequiredMessage));
      }
      ValidEmailNormalForm(email);
      var u := new User.FromState(UserState(id, NormalizeEmail(email), passwordHash, passwordSalt,
                                            TrimOptional(fullName), OrElse(createdAtUtc, now)));
      return Ok(u);
    }

    /** `UpdatePassword`: refuses a blank hash or salt and then changes
        neither; otherwise replaces both. */
    method UpdatePassword(passwordHash: string, passwordSalt: string) returns (o: Outcome)
      requires Valid()
      modifies this`passwordHash, this`passwordSalt
      ensures Valid()
      ensures o.Pass? <==> !IsBlank(passwordHash) && !IsBlank(passwordSalt)
      ensures o.Fail? ==> o.error == Domain(PasswordRequiredMessage)
      ensures this.passwordHash == (if o.Pass? then passwordHash else old(this.passwordHash))
      ensures this.passwordSalt == (if o.Pass? then passwordSalt else old(this.passwordSalt))
    {
      if IsBlank(passwordHash) || IsBlank(passwordSalt) {
        return Fail(Domain(PasswordRequiredMessage));
      }
      this.passwordHash, this.passwordSalt := passwordHash, passwordSalt;
      o := Pass;
    }

    /** `UpdateFullName`: the name trimmed; no name stays no name. */
    method UpdateFullName(fullName: Option<string>)
      modifies this`fullName
      ensures this.fullName == TrimOptional(fullName)
    {
      this.fullName := TrimOptional(fullName);
    }
  }
}
