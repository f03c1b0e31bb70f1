/** The client account of TechnicalTest.Domain: a balance that only Debit,
    Credit and UpdateBalance move, the user it belongs to, and personal data
    kept in normal form. */
module Clients {
  import opened Common
  import opened Text
  import opened Guards
  import opened Channels

  /** `Client.InitialBalance`: 500,000.00. */
  const InitialBalance: Money := Units(500_000)

  const EmptyUserMessage: string := "El identificador de usuario es obligatorio."
  const NegativeBalanceMessage: string := "El saldo del cliente no puede ser negativo."
  const EmailRequiredMessage: string := "El campo email es requerido."
  const EmailFormatMessage: string := "El formato del email no es válido."
  const PhoneRequiredMessage: string := "El campo celular es requerido."
  const PhoneFormatMessage: string := "El formato del celular no es válido. Debe tener entre 7 y 15 dígitos."

  /** The message of a refused debit; it names the product when one is given. */
  function InsufficientFundsMessage(productName: Option<string>): string {
    match productName
    case None => "No tiene saldo disponible para realizar la transacción."
    case Some(name) => "No tiene saldo disponible para vincularse al producto " + name + "."
  }

  /** `ValidateAndNormalizeEmail`: a non-blank address is trimmed and
      lower-cased, and is accepted when the result holds an '@' and is at
      least five UTF-16 code units long. */
  function ValidateAndNormalizeEmail(email: string): (r: Result<string>)
    ensures r.Ok? <==> !IsBlank(email) && Contains(NormalizeEmail(email), '@') && Utf16Length(NormalizeEmail(email)) >= 5
    ensures r.Ok? ==> r.value == NormalizeEmail(email) && IsTrimmed(r.value)
    ensures IsBlank(email) ==> r == Err(Domain(EmailRequiredMessage))
    ensures !IsBlank(email) && r.Err? ==> r.error == Domain(EmailFormatMessage)
  {
    if IsBlank(email) then Err(Domain(EmailRequiredMessage))
    else
      var normalized := NormalizeEmail(email);
      if !Contains(normalized, '@') || Utf16Length(normalized) < 5 then Err(Domain(EmailFormatMessage))
      else Ok(normalized)
  }

  /** The length guard counts UTF-16 code units: an address of four
      characters, one of them outside the Basic Multilingual Plane, is five
      units long and is accepted. */
  lemma AstralCharacterCountsTwice()
    ensures ValidateAndNormalizeEmail("a@\U{1F600}x") == Ok("a@\U{1F600}x")
  {
    var e := "a@\U{1F600}x";
    assert IsTrimmed(e);
    TrimOfTrimmed(e);
    assert ToLowerInvariant(e) == e;
    assert e[1] == '@';
  }

  /** An accepted address is already in normal form: validating it again
      accepts it unchanged. */
  lemma {:induction false} EmailNormalFormIsStable(email: string)
    requires ValidateAndNormalizeEmail(email).Ok?
    ensures ValidateAndNormalizeEmail(ValidateAndNormalizeEmail(email).value) == ValidateAndNormalizeEmail(email)
  {
    var n := NormalizeEmail(email);
    NormalizeEmailIdempotent(email);
    assert n != [];
  }

  /** The characters a phone number keeps: the decimal digits of any script,
      as `char.IsDigit` classifies them, and '+'. */
  predicate IsPhoneChar(c: char) {
    IsDigit(c) || c == '+'
  }

  /** `phone.Where(c => char.IsDigit(c) || c == '+')`: the phone characters of
      `s`, in order. */
  function KeepPhoneChars(s: string): (r: string)
    ensures |r| <= |s|
    ensures forall i | 0 <= i < |r| :: IsPhoneChar(r[i])
    ensures Utf16Length(r) == |r|
  {
    if s == [] then []
    else
      var rest := KeepPhoneChars(s[1..]);
      var r := if IsPhoneChar(s[0]) then [s[0]] + rest else rest;
      Utf16LengthOfBmp(r);
      r
  }

  /** Every digit and '+' of `s` is kept, as often as it occurs, and every
      other character is dropped. */
  lemma {:induction false} KeepPhoneCharsCounts(s: string, c: char)
    ensures multiset(KeepPhoneChars(s))[c] == if IsPhoneChar(c) then multiset(s)[c] else 0
  {
    if s != [] {
      assert s == [s[0]] + s[1..];
      KeepPhoneCharsCounts(s[1..], c);
    }
  }

  /** Filtering distributes over concatenation, so the order of the kept
      characters is their order in the input. */
  lemma {:induction false} KeepPhoneCharsAppend(a: string, b: string)
    ensures KeepPhoneChars(a + b) == KeepPhoneChars(a) + KeepPhoneChars(b)
  {
    if a == [] {
      assert a + b == b;
    } else {
      assert (a + b)[1..] == a[1..] + b;
      KeepPhoneCharsAppend(a[1..], b);
    }
  }

  /** A string made only of phone characters is kept whole. */
  lemma {:induction false} KeepPhoneCharsOfPhoneChars(s: string)
    requires forall i | 0 <= i < |s| :: IsPhoneChar(s[i])
    ensures KeepPhoneChars(s) == s
  {
    if s != [] {
      KeepPhoneCharsOfPhoneChars(s[1..]);
    }
  }

  /** `ValidateAndNormalizePhone`: a non-blank number keeps its digits and '+'
      signs and is accepted when between 7 and 15 of them remain. */
  function ValidateAndNormalizePhone(phone: string): (r: Result<string>)
    ensures r.Ok? <==> !IsBlank(phone) && 7 <= |KeepPhoneChars(phone)| <= 15
    ensures r.Ok? ==> r.value == KeepPhoneChars(phone)
    ensures IsBlank(phone) ==> r == Err(Domain(PhoneRequiredMessage))
    ensures !IsBlank(phone) && r.Err? ==> r.error == Domain(PhoneFormatMessage)
  {
    if IsBlank(phone) then Err(Domain(PhoneRequiredMessage))
    else
      var normalized := KeepPhoneChars(phone);
      if |normalized| < 7 || |normalized| > 15 then Err(Domain(PhoneFormatMessage))
      else Ok(normalized)
  }

  /** An accepted number is already normal: validating it again accepts it
      unchanged. */
  lemma PhoneNormalFormIsStable(phone: string)
    requires ValidateAndNormalizePhone(phone).Ok?
    ensures ValidateAndNormalizePhone(ValidateAndNormalizePhone(phone).value) == ValidateAndNormalizePhone(phone)
  {
    var n := KeepPhoneChars(phone);
    KeepPhoneCharsOfPhoneChars(n);
    assert !IsWhiteSpace(n[0]);
  }

  /** The values a client persists. */
  datatype ClientState = ClientState(
    id: Guid,
    userId: Guid,
    firstName: string,
    lastName: string,
    city: string,
    email: string,
    phone: string,
    balance: Money,
    channel: NotificationChannel,
    createdAtUtc: DateTime)

  class Client {
    var id: Guid
    var userId: Guid
    var firstName: string
    var lastName: string
    var city: string
    var email: string
    var phone: string
    var balance: Money
    var channel: NotificationChannel
    var createdAtUtc: DateTime

    /** The client's persisted values. */
    function State(): ClientState
      reads this
    {
      ClientState(id, userId, firstName, lastName, city, email, phone, balance, channel, createdAtUtc)
    }

    /** The account invariant: the balance is never negative. */
    ghost predicate Valid()
      reads this
    {
      balance >= 0
    }

    /** The parameterless constructor the persistence layer materialises
        clients with: empty texts, the Email channel, creation time `now`. */
    constructor Blank(now: DateTime)
      ensures State() == ClientState(EmptyGuid, EmptyGuid, "", "", "", "", "", 0, Email, now)
      ensures Valid()
    {
      id, userId := EmptyGuid, EmptyGuid;
      firstName, lastName, city, email, phone := "", "", "", "", "";
      balance, channel, createdAtUtc := 0, Email, now;
    }

    /** A client read back from the store with the values it was saved with. */
    constructor FromState(s: ClientState)
      ensures State() == s
    {
      id, userId := s.id, s.userId;
      firstName, lastName, city, email, phone := s.firstName, s.lastName, s.city, s.email, s.phone;
      balance, channel, createdAtUtc := s.balance, s.channel, s.createdAtUtc;
    }

    /** The public constructor. It runs `AssignUser`, `UpdatePersonalInfo` and
        `UpdateBalance` on the new object in that order, so the first failing
        guard decides the exception (`ConstructionError`); a failure discards
        the half-built object, so the model validates first and builds the
        object once. `now` stands for `DateTime.UtcNow`. */
    static method New(id: Guid, userId: Guid, firstName: string, lastName: string, city: string,
                      email: string, phone: string, now: DateTime,
                      balance: Money := InitialBalance, channel: NotificationChannel := Email,
                      createdAtUtc: Option<DateTime> := None)
      returns (r: Result<Client>)
      ensures r.Err? <==> ConstructionError(userId, firstName, lastName, city, email, phone, balance).Some?
      ensures r.Err? ==> r.error == ConstructionError(userId, firstName, lastName, city, email, phone, balance).value
      ensures r.Ok? ==> fresh(r.value) && r.value.Valid()
      ensures r.Ok? ==> r.value.State() == ClientState(
        id, userId,
        Trim(firstName), Trim(lastName), Trim(city),
        NormalizeEmail(email), KeepPhoneChars(phone),
        balance, channel, OrElse(createdAtUtc, now))
    {
      var err := ConstructionError(userId, firstName, lastName, city, email, phone, balance);
      if err.Some? { return Err(err.value); }
      var c := new Client.FromState(ClientState(
        id, userId,
        Trim(firstName), Trim(lastName), Trim(city),
        NormalizeEmail(email), KeepPhoneChars(phone),
        balance, channel, OrElse(createdAtUtc, now)));
      return Ok(c);
    }

    /** `Debit`: refuses a non-positive amount, then an amount above the
        balance (naming the product when given); otherwise the balance drops
        by exactly the amount. Nothing else changes. */
    method Debit(amount: Money, productName: Option<string> := None) returns (o: Outcome)
      requires Valid()
      modifies this`balance
      ensures Valid()
      ensures o.Pass? <==> 0 < amount <= old(balance)
      ensures balance == if o.Pass? then old(balance) - amount else old(balance)
      ensures amount <= 0 ==> o == Fail(Domain(AmountNotPositive))
      ensures 0 < amount && old(balance) < amount ==> o == Fail(Domain(InsufficientFundsMessage(productName)))
    {
      o := ValidateAmount(amount);
      if o.Fail? { return; }
      if balance < amount {
        return Fail(Domain(InsufficientFundsMessage(productName)));
      }
      balance := balance - amount;
    }

    /** `Credit`: refuses a non-positive amount; otherwise the balance rises by
        exactly the amount, with no upper bound. */
    method Credit(amount: Money) returns (o: Outcome)
      requires Valid()
      modifies this`balance
      ensures Valid()
      ensures o.Pass? <==> amount > 0
      ensures balance == if o.Pass? then old(balance) + amount else old(balance)
      ensures o.Fail? ==> o.error == Domain(AmountNotPositive)
    {
      o := ValidateAmount(amount);
      if o.Fail? { return; }
      balance := balance + amount;
    }

    /** `UpdatePersonalInfo`: normalises the five fields in order and assigns
        each as soon as it passes, so a failure keeps the fields already
        assigned and leaves the later ones as they were. */
    method UpdatePersonalInfo(firstName: string, lastName: string, city: string, email: string, phone: string)
      returns (o: Outcome)
      modifies this`firstName, this`lastName, this`city, this`email, this`phone
      ensures unchanged(this`id, this`userId, this`balance, this`channel, this`createdAtUtc)
      ensures
        var f, l, c := NormalizeRequiredText(firstName, "firstName"), NormalizeRequiredText(lastName, "lastName"), NormalizeRequiredText(city, "city");
        var e, p := ValidateAndNormalizeEmail(email), ValidateAndNormalizePhone(phone);
        && this.firstName == (if f.Ok? then f.value else old(this.firstName))
        && this.lastName == (if f.Ok? && l.Ok? then l.value else old(this.lastName))
        && this.city == (if f.Ok? && l.Ok? && c.Ok? then c.value else old(this.city))
        && this.email == (if f.Ok? && l.Ok? && c.Ok? && e.Ok? then e.value else old(this.email))
        && this.phone == (if f.Ok? && l.Ok? && c.Ok? && e.Ok? && p.Ok? then p.value else old(this.phone))
        && o == (if f.Err? then Fail(f.error) else if l.Err? then Fail(l.error) else if c.Err? then Fail(c.error)
                 else if e.Err? then Fail(e.error) else if p.Err? then Fail(p.error) else Pass)
    {
      o := UpdateNameAndCity(firstName, lastName, city);
      if o.Pass? {
        o := UpdateContact(email, phone);
      }
    }

    /** The first three guards of `UpdatePersonalInfo`. */
    method UpdateNameAndCity(firstName: string, lastName: string, city: string) returns (o: Outcome)
      modifies this`firstName, this`lastName, this`city
      ensures unchanged(this`id, this`userId, this`balance, this`channel, this`createdAtUtc, this`email, this`phone)
      ensures
        var f, l, c := NormalizeRequiredText(firstName, "firstName"), NormalizeRequiredText(lastName, "lastName"), NormalizeRequiredText(city, "city");
        && this.firstName == (if f.Ok? then f.value else old(this.firstName))
        && this.lastName == (if f.Ok? && l.Ok? then l.value else old(this.lastName))
        && this.city == (if f.Ok? && l.Ok? && c.Ok? then c.value else old(this.city))
        && o == (if f.Err? then Fail(f.error) else if l.Err? then Fail(l.error) else if c.Err? then Fail(c.error) else Pass)
    {
      var f := NormalizeRequiredText(firstName, "firstName");
      if f.Err? {
        o := Fail(f.error);
      } else {
        this.firstName := f.value;
        var l := NormalizeRequiredText(lastName, "lastName");
        if l.Err? {
          o := Fail(l.error);
        } else {
          this.lastName := l.value;
          var c := NormalizeRequiredText(city, "city");
          if c.Err? {
            o := Fail(c.error);
          } else {
            this.city := c.value;
            o := Pass;
          }
        }
      }
    }

    /** The last two guards of `UpdatePersonalInfo`. */
    method UpdateContact(email: string, phone: string) returns (o: Outcome)
      modifies this`email, this`phone
      ensures unchanged(this`id, this`userId, this`balance, this`channel, this`createdAtUtc, this`firstName, this`lastName, this`city)
      ensures
        var e, p := ValidateAndNormalizeEmail(email), ValidateAndNormalizePhone(phone);
        && this.email == (if e.Ok? then e.value else old(this.email))
        && this.phone == (if e.Ok? && p.Ok? then p.value else old(this.phone))
        && o == (if e.Err? then Fail(e.error) else if p.Err? then Fail(p.error) else Pass)
    {
      var e := ValidateAndNormalizeEmail(email);
      if e.Err? {
        o := Fail(e.error);
      } else {
        this.email := e.value;
        var p := ValidateAndNormalizePhone(phone);
        if p.Err? {
          o := Fail(p.error);
        } else {
          this.phone := p.value;
          o := Pass;
        }
      }
    }

    /** `UpdateNotificationChannel`: any channel is accepted. */
    method UpdateNotificationChannel(channel: NotificationChannel)
      modifies this`channel
      ensures unchanged(this`id, this`firstName, this`lastName, this`city, this`email, this`phone, this`createdAtUtc, this`userId, this`balance)
      ensures this.channel == channel
    {
      this.channel := channel;
    }

    /** `AssignUser`: refuses the empty Guid; otherwise the client belongs to
        `userId`. */
    method AssignUser(userId: Guid) returns (o: Outcome)
      modifies this`userId
      ensures unchanged(this`id, this`firstName, this`lastName, this`city, this`email, this`phone, this`createdAtUtc, this`balance, this`channel)
      ensures o.Pass? <==> userId != EmptyGuid
      ensures this.userId == if o.Pass? then userId else old(this.userId)
      ensures o.Fail? ==> o.error == Domain(EmptyUserMessage)
    {
      if userId == EmptyGuid {
        return Fail(Domain(EmptyUserMessage));
      }
      this.userId := userId;
      o := Pass;
    }

    /** `UpdateBalance`: refuses a negative balance; otherwise sets it exactly. */
    method UpdateBalance(balance: Money) returns (o: Outcome)
      modifies this`balance
      ensures unchanged(this`id, this`firstName, this`lastName, this`city, this`email, this`phone, this`createdAtUtc, this`userId, this`channel)
      ensures o.Pass? <==> balance >= 0
      ensures this.balance == if o.Pass? then balance else old(this.balance)
      ensures o.Fail? ==> o.error == Domain(NegativeBalanceMessage)
    {
      if balance < 0 {
        return Fail(Domain(NegativeBalanceMessage));
      }
      this.balance := balance;
      o := Pass;
    }
  }

  /** The exception `UpdatePersonalInfo` throws, if any: that of the first of
      its five guards to fail, in field order. */
  function PersonalInfoError(firstName: string, lastName: string, city: string, email: string, phone: string): Option<Error> {
    var f, l, c := NormalizeRequiredText(firstName, "firstName"), NormalizeRequiredText(lastName, "lastName"), NormalizeRequiredText(city, "city");
    var e, p := ValidateAndNormalizeEmail(email), ValidateAndNormalizePhone(phone);
    if f.Err? then Some(f.error)
    else if l.Err? then Some(l.error)
    else if c.Err? then Some(c.error)
    else if e.Err? then Some(e.error)
    else if p.Err? then Some(p.error)
    else None
  }

  /** The exception the public constructor throws, if any: an empty user id,
      then the first personal-data guard to fail, then a negative balance. */
  function ConstructionError(userId: Guid, firstName: string, lastName: string, city: string,
                             email: string, phone: string, balance: Money): (e: Option<Error>)
    ensures e.None? <==>
      && userId != EmptyGuid
      && NormalizeRequiredText(firstName, "firstName").Ok?
      && NormalizeRequiredText(lastName, "lastName").Ok?
      && NormalizeRequiredText(city, "city").Ok?
      && ValidateAndNormalizeEmail(email).Ok?
      && ValidateAndNormalizePhone(phone).Ok?
      && balance >= 0
    ensures userId == EmptyGuid ==> e == Some(Domain(EmptyUserMessage))
    ensures e.Some? && e.value.Domain? && e.value.message == NegativeBalanceMessage ==> balance < 0
  {
    if userId == EmptyGuid then Some(Domain(EmptyUserMessage))
    else if PersonalInfoError(firstName, lastName, city, email, phone).Some? then PersonalInfoError(firstName, lastName, city, email, phone)
    else if balance < 0 then Some(Domain(NegativeBalanceMessage))
    else None
  }
}
