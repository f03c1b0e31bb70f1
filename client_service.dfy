/** `ClientService`: list, read, create, update and delete the clients of
    TechnicalTest.

    The repository is a map from id to the stored client; the id generator,
    the clock and the cancellation token are parameters. */
module ClientManagement {
  import opened Common
  import opened Text
  import opened Channels
  import opened Clients
  import M = Mapper
  import Guards

  const ClientNotFoundMessage: string := "No se encontró el cliente solicitado."

  /** The create request: the owner, the personal data, and an optional
      balance and channel name. */
  datatype ClientCreateRequest = ClientCreateRequest(
    userId: Guid, firstName: string, lastName: string, city: string, email: string, phone: string,
    balance: Option<Money>, notificationChannel: Option<string>)

  /** The update request: the personal data, and an optional owner, balance
      and channel name. */
  datatype ClientUpdateRequest = ClientUpdateRequest(
    firstName: string, lastName: string, city: string, email: string, phone: string,
    userId: Option<Guid>, balance: Option<Money>, notificationChannel: Option<string>)

  /** The record the service returns for a client. */
  datatype ClientDto = ClientDto(
    id: Guid, userId: Guid, firstName: string, lastName: string, city: string,
    balance: Money, notificationChannel: string, createdAtUtc: DateTime)

  /** A client as returned: its fields, with the channel by name. */
  function ToClientDto(c: ClientState): ClientDto {
    ClientDto(c.id, c.userId, c.firstName, c.lastName, c.city, c.balance, ChannelName(c.channel), c.createdAtUtc)
  }

  /** The channel name in the returned record parses back to the client's
      channel. */
  lemma ToClientDtoRoundTrip(c: ClientState)
    ensures M.ParseChannel(ToClientDto(c).notificationChannel) == Ok(c.channel)
  {
    ChannelNameNamesChannel(c.channel);
    ParseChannelName(c.channel, ChannelName(c.channel));
  }

  /** The channel a create request asks for: the fallback when none or a
      blank name is given, else the parse of the name. */
  function ChannelOrDefault(channel: Option<string>, fallback: NotificationChannel): (r: Result<NotificationChannel>)
    ensures channel.None? || IsBlank(channel.value) ==> r == Ok(fallback)
    ensures channel.Some? && !IsBlank(channel.value) ==> r == M.ParseChannel(channel.value)
  {
    if channel.None? || IsBlank(channel.value) then Ok(fallback) else M.ParseChannel(channel.value)
  }

  /** Every stored client is filed under its id, belongs to a user and has a
      balance that is not negative. */
  ghost predicate ValidStore(clients: map<Guid, ClientState>) {
    forall id | id in clients :: clients[id].id == id && clients[id].userId != EmptyGuid && clients[id].balance >= 0
  }

  /** Storing a client that belongs to a user and has a balance that is not
      negative, under its own id, keeps the store valid. */
  lemma StoreKeepsValid(clients: map<Guid, ClientState>, c: ClientState)
    requires c.userId != EmptyGuid && c.balance >= 0
    ensures ValidStore(clients) ==> ValidStore(clients[c.id := c])
  {
  }

  /** The store after an operation, and what it returned or threw. */
  datatype Step<T> = Step(clients: map<Guid, ClientState>, result: Result<T>)

  /** `GetByIdAsync`: the stored client, or a NotFoundException. */
  function GetByIdResult(clients: map<Guid, ClientState>, id: Guid, cancelled: bool): (r: Result<ClientDto>)
    ensures r.Ok? <==> !cancelled && id in clients
    ensures r.Ok? ==> r.value == ToClientDto(clients[id])
    ensures !cancelled && id !in clients ==> r == Err(NotFound(ClientNotFoundMessage))
  {
    if cancelled then Err(Canceled)
    else if id !in clients then Err(NotFound(ClientNotFoundMessage))
    else Ok(ToClientDto(clients[id]))
  }

  /** `CreateAsync`: null request, cancelled token, the channel (Email when
      none is named), then the `Client` constructor with the requested
      balance or `InitialBalance`; the new client is stored under the new id
      with creation time `now`. */
  function CreateStep(clients: map<Guid, ClientState>, request: Option<ClientCreateRequest>, cancelled: bool,
                      newId: Guid, now: DateTime)
    : (st: Step<ClientDto>)
    requires newId !in clients
    ensures ValidStore(clients) ==> ValidStore(st.clients)
    ensures st.result.Err? ==> st.clients == clients
    ensures st.result.Ok? <==>
      && request.Some? && !cancelled
      && ChannelOrDefault(request.value.notificationChannel, Email).Ok?
      && ConstructionError(request.value.userId, request.value.firstName, request.value.lastName, request.value.city,
                           request.value.email, request.value.phone,
                           OrElse(request.value.balance, InitialBalance)).None?
    ensures st.result.Ok? ==>
      && newId in st.clients && st.clients == clients[newId := st.clients[newId]]
      && st.result.value == ToClientDto(st.clients[newId])
    ensures st.result.Ok? ==>
      var q, c := request.value, st.clients[newId];
      && c.id == newId && c.userId == q.userId && c.createdAtUtc == now
      && c.firstName == Trim(q.firstName) && c.lastName == Trim(q.lastName) && c.city == Trim(q.city)
      && c.email == NormalizeEmail(q.email) && c.phone == KeepPhoneChars(q.phone)
      && (q.balance.None? ==> c.balance == InitialBalance)
      && (q.balance.Some? ==> c.balance == q.balance.value)
      && (q.notificationChannel.None? || IsBlank(q.notificationChannel.value) ==> c.channel == Email)
      && (q.notificationChannel.Some? && !IsBlank(q.notificationChannel.value) ==>
            M.ParseChannel(q.notificationChannel.value) == Ok(c.channel))
  {
    if request.None? then Step(clients, Err(ArgumentNull("request")))
    else if cancelled then Step(clients, Err(Canceled))
    else
      var q := request.value;
      var channel := ChannelOrDefault(q.notificationChannel, Email);
      if channel.Err? then Step(clients, Err(channel.error))
      else
        var balance := OrElse(q.balance, InitialBalance);
        var e := ConstructionError(q.userId, q.firstName, q.lastName, q.city, q.email, q.phone, balance);
        if e.Some? then Step(clients, Err(e.value))
        else
          var c := ClientState(newId, q.userId, Trim(q.firstName), Trim(q.lastName), Trim(q.city),
                               NormalizeEmail(q.email), KeepPhoneChars(q.phone), balance, channel.value, now);
          StoreKeepsValid(clients, c);
          Step(clients[newId := c], Ok(ToClientDto(c)))
  }

  /** The exception the optional parts of `UpdateAsync` throw, if any:
      `AssignUser` when an owner is given, then `UpdateBalance` when a balance
      is given, then the parse of a non-blank channel name. */
  function OptionalFieldsError(q: ClientUpdateRequest): (e: Option<Error>)
    ensures e.None? <==>
      && (q.userId.Some? ==> q.userId.value != EmptyGuid)
      && (q.balance.Some? ==> q.balance.value >= 0)
      && (q.notificationChannel.Some? && !IsBlank(q.notificationChannel.value) ==>
            M.ParseChannel(q.notificationChannel.value).Ok?)
    ensures q.userId == Some(EmptyGuid) ==> e == Some(Domain(EmptyUserMessage))
    ensures q.userId != Some(EmptyGuid) && q.balance.Some? && q.balance.value < 0 ==> e == Some(Domain(NegativeBalanceMessage))
  {
    if q.userId.Some? && q.userId.value == EmptyGuid then Some(Domain(EmptyUserMessage))
    else if q.balance.Some? && q.balance.value < 0 then Some(Domain(NegativeBalanceMessage))
    else if q.notificationChannel.Some? && !IsBlank(q.notificationChannel.value)
            && M.ParseChannel(q.notificationChannel.value).Err? then
      Some(M.ParseChannel(q.notificationChannel.value).error)
    else None
  }

  /** The exception `UpdateAsync` throws on a stored client, if any: the
      personal-data guards first, then the optional parts. */
  function UpdateError(q: ClientUpdateRequest): Option<Error> {
    var p := PersonalInfoError(q.firstName, q.lastName, q.city, q.email, q.phone);
    if p.Some? then p else OptionalFieldsError(q)
  }

  /** The channel an update leaves: the parse of a non-blank name, else the
      current one. */
  function UpdatedChannel(current: NotificationChannel, name: Option<string>): (c: NotificationChannel)
    ensures name.None? || IsBlank(name.value) ==> c == current
    ensures name.Some? && !IsBlank(name.value) && M.ParseChannel(name.value).Ok? ==>
      NamesMember(name.value, ChannelName(c))
  {
    if name.None? || IsBlank(name.value) then current
    else match M.ParseChannel(name.value)
      case Ok(parsed) => parsed
      case Err(_) => current
  }

  /** The client an accepted update leaves: the personal data in normal
      form, and the owner, balance and channel replaced only where the
      request gives them; id and creation time never change. */
  function Updated(c: ClientState, q: ClientUpdateRequest): (u: ClientState)
    ensures u.id == c.id && u.createdAtUtc == c.createdAtUtc
    ensures u.firstName == Trim(q.firstName) && u.lastName == Trim(q.lastName) && u.city == Trim(q.city)
    ensures u.email == NormalizeEmail(q.email) && u.phone == KeepPhoneChars(q.phone)
    ensures q.userId.None? ==> u.userId == c.userId
    ensures q.userId.Some? ==> u.userId == q.userId.value
    ensures q.balance.None? ==> u.balance == c.balance
    ensures q.balance.Some? ==> u.balance == q.balance.value
  {
    c.(firstName := Trim(q.firstName), lastName := Trim(q.lastName), city := Trim(q.city),
       email := NormalizeEmail(q.email), phone := KeepPhoneChars(q.phone),
       userId := OrElse(q.userId, c.userId), balance := OrElse(q.balance, c.balance),
       channel := UpdatedChannel(c.channel, q.notificationChannel))
  }

  /** An accepted update keeps the store valid. */
  lemma UpdateKeepsValid(clients: map<Guid, ClientState>, id: Guid, q: ClientUpdateRequest)
    requires id in clients && OptionalFieldsError(q).None?
    ensures ValidStore(clients) ==> ValidStore(clients[id := Updated(clients[id], q)])
  {
    var c := Updated(clients[id], q);
    if ValidStore(clients) {
      assert clients[id].userId != EmptyGuid && clients[id].balance >= 0;
      StoreKeepsValid(clients, c);
    }
  }

  /** `UpdateAsync`: null request, cancelled token, missing id, then the
      entity's guards in call order; a client any guard refuses is never
      saved, so the fields it had already taken are not persisted. */
  function UpdateStep(clients: map<Guid, ClientState>, id: Guid, request: Option<ClientUpdateRequest>, cancelled: bool)
    : (st: Step<ClientDto>)
    ensures ValidStore(clients) ==> ValidStore(st.clients)
    ensures st.result.Err? ==> st.clients == clients
    ensures request.Some? && !cancelled && id !in clients ==> st.result == Err(NotFound(ClientNotFoundMessage))
    ensures st.result.Ok? <==> request.Some? && !cancelled && id in clients && UpdateError(request.value).None?
    ensures st.result.Ok? ==>
      && st.clients == clients[id := Updated(clients[id], request.value)]
      && st.result.value == ToClientDto(st.clients[id])
  {
    if request.None? then Step(clients, Err(ArgumentNull("request")))
    else if cancelled then Step(clients, Err(Canceled))
    else if id !in clients then Step(clients, Err(NotFound(ClientNotFoundMessage)))
    else
      var q := request.value;
      var e := UpdateError(q);
      if e.Some? then Step(clients, Err(e.value))
      else
        var c := Updated(clients[id], q);
        UpdateKeepsValid(clients, id, q);
        Step(clients[id := c], Ok(ToClientDto(c)))
  }

  /** `DeleteAsync`: cancelled token, missing id, else the client is removed. */
  function DeleteStep(clients: map<Guid, ClientState>, id: Guid, cancelled: bool): (st: Step<()>)
    ensures ValidStore(clients) ==> ValidStore(st.clients)
    ensures st.result.Ok? <==> !cancelled && id in clients
    ensures st.result.Err? ==> st.clients == clients
    ensures !cancelled && id !in clients ==> st.result == Err(NotFound(ClientNotFoundMessage))
    ensures st.result.Ok? ==> st.clients == clients - {id}
  {
    if cancelled then Step(clients, Err(Canceled))
    else if id !in clients then Step(clients, Err(NotFound(ClientNotFoundMessage)))
    else Step(clients - {id}, Ok(()))
  }

  /** Updating with the same request twice is updating once: every field
      an update sets is a function of the request alone. */
  lemma UpdatedTwice(c: ClientState, q: ClientUpdateRequest)
    ensures Updated(Updated(c, q), q) == Updated(c, q)
  {
    var once := Updated(c, q);
    assert UpdatedChannel(once.channel, q.notificationChannel) == once.channel;
  }

  /** An update of a stored client that every guard accepts stores and
      returns the updated client. */
  lemma AcceptedUpdate(clients: map<Guid, ClientState>, id: Guid, q: ClientUpdateRequest)
    requires id in clients && UpdateError(q).None?
    ensures var c := Updated(clients[id], q);
      UpdateStep(clients, id, Some(q), false) == Step(clients[id := c], Ok(ToClientDto(c)))
  {
  }

  /** Repeating an accepted update changes nothing more. */
  lemma UpdateIsIdempotent(clients: map<Guid, ClientState>, id: Guid, q: ClientUpdateRequest)
    requires id in clients && UpdateError(q).None?
    ensures var once := UpdateStep(clients, id, Some(q), false);
      UpdateStep(once.clients, id, Some(q), false) == once
  {
    var c := Updated(clients[id], q);
    AcceptedUpdate(clients, id, q);
    AcceptedUpdate(clients[id := c], id, q);
    UpdatedTwice(clients[id], q);
    assert clients[id := c][id := c] == clients[id := c];
  }

  /** The request that sends a client's stored personal data back unchanged
      and names no owner, balance or channel. */
  function ResubmitRequest(c: ClientState): ClientUpdateRequest {
    ClientUpdateRequest(c.firstName, c.lastName, c.city, c.email, c.phone, None, None, None)
  }

  /** The personal data an accepted update leaves is in normal form: sent
      back, it passes every guard and changes nothing. */
  lemma ResubmitIsNoOp(c: ClientState, q: ClientUpdateRequest)
    requires PersonalInfoError(q.firstName, q.lastName, q.city, q.email, q.phone).None?
    ensures var u := Updated(c, q);
      UpdateError(ResubmitRequest(u)).None? && Updated(u, ResubmitRequest(u)) == u
  {
    var u := Updated(c, q);
    var r := ResubmitRequest(u);
    StableText(q.firstName, "firstName");
    StableText(q.lastName, "lastName");
    StableText(q.city, "city");
    EmailNormalFormIsStable(q.email);
    PhoneNormalFormIsStable(q.phone);
    assert PersonalInfoError(r.firstName, r.lastName, r.city, r.email, r.phone).None?;
  }

  /** Sending back the data an accepted update stored leaves the store as it
      is. */
  lemma UpdatedDataIsStable(clients: map<Guid, ClientState>, id: Guid, q: ClientUpdateRequest)
    requires id in clients && UpdateError(q).None?
    ensures var c := Updated(clients[id], q);
      UpdateStep(clients[id := c], id, Some(ResubmitRequest(c)), false) == Step(clients[id := c], Ok(ToClientDto(c)))
  {
    var c := Updated(clients[id], q);
    ResubmitIsNoOp(clients[id], q);
    AcceptedUpdate(clients[id := c], id, ResubmitRequest(c));
    assert clients[id := c][id := c] == clients[id := c];
  }

  /** A required text that passed its guard passes it again as it was stored. */
  lemma StableText(value: string, fieldName: string)
    requires Guards.NormalizeRequiredText(value, fieldName).Ok?
    ensures Guards.NormalizeRequiredText(Trim(value), fieldName) == Ok(Trim(value))
  {
    Guards.NormalizeRequiredTextIdempotent(value, fieldName, fieldName);
  }

  /** A created client reads back as returned, and a deleted one is gone. */
  lemma CreateThenGetThenDelete(clients: map<Guid, ClientState>, request: Option<ClientCreateRequest>, newId: Guid, now: DateTime)
    requires newId !in clients
    requires CreateStep(clients, request, false, newId, now).result.Ok?
    ensures var created := CreateStep(clients, request, false, newId, now);
      && GetByIdResult(created.clients, newId, false) == created.result
      && DeleteStep(created.clients, newId, false).clients == clients
  {
    var created := CreateStep(clients, request, false, newId, now);
    var c := created.clients[newId];
    assert created.clients == clients[newId := c];
    assert clients[newId := c] - {newId} == clients;
  }

  class ClientService {
    var clients: map<Guid, ClientState>

    ghost predicate Valid()
      reads this
    {
      ValidStore(clients)
    }

    constructor (clients: map<Guid, ClientState>)
      requires ValidStore(clients)
      ensures this.clients == clients && Valid()
    {
      this.clients := clients;
    }

    /** `GetAsync`: every stored client as returned. */
    method Get(cancelled: bool) returns (r: Result<set<ClientDto>>)
      ensures r.Ok? <==> !cancelled
      ensures r.Ok? ==> forall d :: d in r.value <==> exists id :: id in clients && ToClientDto(clients[id]) == d
    {
      if cancelled {
        r := Err(Canceled);
      } else {
        r := Ok(set id | id in clients :: ToClientDto(clients[id]));
      }
    }

    /** `GetByIdAsync`. */
    method GetById(id: Guid, cancelled: bool) returns (r: Result<ClientDto>)
      ensures r == GetByIdResult(clients, id, cancelled)
    {
      if cancelled {
        r := Err(Canceled);
      } else if id !in clients {
        r := Err(NotFound(ClientNotFoundMessage));
      } else {
        r := Ok(ToClientDto(clients[id]));
      }
    }

    /** `CreateAsync`, through the `Client` constructor. */
    method Create(request: Option<ClientCreateRequest>, cancelled: bool, newId: Guid, now: DateTime)
      returns (r: Result<ClientDto>)
      requires Valid() && newId !in clients
      modifies this
      ensures Step(clients, r) == CreateStep(old(clients), request, cancelled, newId, now)
      ensures Valid()
    {
      if request.None? {
        r := Err(ArgumentNull("request"));
      } else if cancelled {
        r := Err(Canceled);
      } else {
        var q := request.value;
        var channel := ChannelOrDefault(q.notificationChannel, Email);
        if channel.Err? {
          r := Err(channel.error);
        } else {
          var balance := OrElse(q.balance, InitialBalance);
          var created := Client.New(newId, q.userId, q.firstName, q.lastName, q.city, q.email, q.phone, now,
                                    balance, channel.value);
          if created.Err? {
            r := Err(created.error);
          } else {
            var c := created.value.State();
            clients := clients[newId := c];
            r := Ok(ToClientDto(c));
          }
        }
      }
    }

    /** `UpdateAsync`, through the entity's mutators on the stored client;
        the store is written only when all of them pass. */
    method Update(id: Guid, request: Option<ClientUpdateRequest>, cancelled: bool) returns (r: Result<ClientDto>)
      requires Valid()
      modifies this
      ensures Step(clients, r) == UpdateStep(old(clients), id, request, cancelled)
      ensures Valid()
    {
      if request.None? {
        r := Err(ArgumentNull("request"));
      } else if cancelled {
        r := Err(Canceled);
      } else if id !in clients {
        r := Err(NotFound(ClientNotFoundMessage));
      } else {
        var client := new Client.FromState(clients[id]);
        var o := Apply(client, request.value);
        if o.Fail? {
          r := Err(o.error);
        } else {
          clients := clients[id := client.State()];
          r := Ok(ToClientDto(client.State()));
        }
      }
    }

    /** `DeleteAsync`. */
    method Delete(id: Guid, cancelled: bool) returns (r: Result<()>)
      requires Valid()
      modifies this
      ensures Step(clients, r) == DeleteStep(old(clients), id, cancelled)
      ensures Valid()
    {
      if cancelled {
        r := Err(Canceled);
      } else if id !in clients {
        r := Err(NotFound(ClientNotFoundMessage));
      } else {
        clients := clients - {id};
        r := Ok(());
      }
    }
  }

  /** The mutator calls of `UpdateAsync` on a client object, in order:
      the personal data, then the optional fields. */
  method Apply(client: Client, q: ClientUpdateRequest) returns (o: Outcome)
    modifies client
    ensures o == (if UpdateError(q).Some? then Fail(UpdateError(q).value) else Pass)
    ensures o.Pass? ==> client.State() == Updated(old(client.State()), q)
  {
    ghost var before := client.State();
    o := ApplyPersonalInfo(client, q);
    if o.Pass? {
      o := ApplyOptionalFields(client, q);
      if o.Pass? {
        UpdatedFromFields(before, client.State(), q);
      }
    }
  }

  /** A client that took every field an accepted update sets, and kept the
      rest, is the updated client. */
  lemma UpdatedFromFields(c: ClientState, u: ClientState, q: ClientUpdateRequest)
    requires u.id == c.id && u.createdAtUtc == c.createdAtUtc
    requires u.firstName == Trim(q.firstName) && u.lastName == Trim(q.lastName) && u.city == Trim(q.city)
    requires u.email == NormalizeEmail(q.email) && u.phone == KeepPhoneChars(q.phone)
    requires u.userId == OrElse(q.userId, c.userId) && u.balance == OrElse(q.balance, c.balance)
    requires u.channel == UpdatedChannel(c.channel, q.notificationChannel)
    ensures u == Updated(c, q)
  {
  }

  /** `UpdatePersonalInfo` with the request's five fields: the first guard
      to fail, else all five stored in normal form. */
  method ApplyPersonalInfo(client: Client, q: ClientUpdateRequest) returns (o: Outcome)
    modifies client`firstName, client`lastName, client`city, client`email, client`phone
    ensures var p := PersonalInfoError(q.firstName, q.lastName, q.city, q.email, q.phone);
      o == (if p.Some? then Fail(p.value) else Pass)
    ensures o.Pass? ==> client.firstName == Trim(q.firstName) && client.lastName == Trim(q.lastName) && client.city == Trim(q.city)
    ensures o.Pass? ==> client.email == NormalizeEmail(q.email) && client.phone == KeepPhoneChars(q.phone)
    ensures unchanged(client`id, client`userId, client`balance, client`channel, client`createdAtUtc)
  {
    o := client.UpdatePersonalInfo(q.firstName, q.lastName, q.city, q.email, q.phone);
  }

  /** `AssignUser`, `UpdateBalance` and `UpdateNotificationChannel`, each only
      when the request gives its field and the previous ones passed. */
  method ApplyOptionalFields(client: Client, q: ClientUpdateRequest) returns (o: Outcome)
    modifies client`userId, client`balance, client`channel
    ensures o == (if OptionalFieldsError(q).Some? then Fail(OptionalFieldsError(q).value) else Pass)
    ensures o.Pass? ==>
      && client.userId == OrElse(q.userId, old(client.userId))
      && client.balance == OrElse(q.balance, old(client.balance))
      && client.channel == UpdatedChannel(old(client.channel), q.notificationChannel)
    ensures unchanged(client`id, client`createdAtUtc, client`firstName, client`lastName, client`city, client`email, client`phone)
  {
    o := Pass;
    if q.userId.Some? {
      o := client.AssignUser(q.userId.value);
    }
    if o.Pass? && q.balance.Some? {
      o := client.UpdateBalance(q.balance.value);
    }
    if o.Pass? && q.notificationChannel.Some? && !IsBlank(q.notificationChannel.value) {
      var channel := M.ParseChannel(q.notificationChannel.value);
      if channel.Err? {
        o := Fail(channel.error);
      } else {
        client.UpdateNotificationChannel(channel.value);
      }
    }
  }
}
