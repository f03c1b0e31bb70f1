/** `DomainToDtoMapper` of TechnicalTest.Application: the records the
    services return, and the parse of a notification channel name. */
module Mapper {
  import opened Common
  import opened Channels
  import opened Text
  import opened Funds
  import opened Transactions
  import opened Subscriptions
  import opened Clients

  datatype FundDto = FundDto(id: int, name: string, minimumAmount: Money, category: string)

  datatype SubscriptionDto = SubscriptionDto(
    id: Guid,
    clientId: Guid,
    fundId: int,
    amount: Money,
    subscribedAtUtc: DateTime,
    cancelledAtUtc: Option<DateTime>,
    isActive: bool)

  datatype TransactionDto = TransactionDto(
    id: Guid,
    subscriptionId: Guid,
    fundId: int,
    amount: Money,
    kind: string,
    occurredAtUtc: DateTime)

  datatype ClientBalanceDto = ClientBalanceDto(id: Guid, balance: Money, notificationChannel: string)

  /** `ToDto(Fund)`: the fund's fields, the category by name. */
  function FundToDto(f: Fund): (d: FundDto)
    ensures d.id == f.id && d.name == f.name && d.minimumAmount == f.minimumAmount
    ensures d.category == CategoryName(f.category)
  {
    FundDto(f.id, f.name, f.minimumAmount, CategoryName(f.category))
  }

  /** Distinct funds have distinct records: the category name identifies
      the category. */
  lemma FundToDtoInjective(a: Fund, b: Fund)
    requires FundToDto(a) == FundToDto(b)
    ensures a == b
  {
    assert CategoryName(a.category)[1] == CategoryName(b.category)[1];
  }

  /** `ToDto(Subscription)`: every field, the product id in the `FundId`
      position, and `IsActive` exactly when no cancellation time is set. */
  function SubscriptionToDto(s: SubscriptionState): (d: SubscriptionDto)
    ensures d.isActive <==> d.cancelledAtUtc.None?
    ensures d.isActive <==> s.IsActive()
    ensures d.id == s.id && d.clientId == s.clientId && d.fundId == s.productId
    ensures d.amount == s.amount && d.subscribedAtUtc == s.subscribedAtUtc && d.cancelledAtUtc == s.cancelledAtUtc
  {
    SubscriptionDto(s.id, s.clientId, s.productId, s.amount, s.subscribedAtUtc, s.cancelledAtUtc, s.IsActive())
  }

  /** The subscription record loses nothing: the stored values can be read
      back from it. */
  lemma SubscriptionToDtoRoundTrip(s: SubscriptionState)
    ensures var d := SubscriptionToDto(s);
      SubscriptionState(d.id, d.clientId, d.fundId, d.amount, d.subscribedAtUtc, d.cancelledAtUtc) == s
  {
  }

  /** `ToDto(Transaction)`: every field, the type by name. */
  function TransactionToDto(t: Transaction): (d: TransactionDto)
    ensures d.id == t.id && d.subscriptionId == t.subscriptionId && d.fundId == t.fundId
    ensures d.amount == t.amount && d.occurredAtUtc == t.occurredAtUtc
    ensures d.kind == TypeName(t.kind)
  {
    TransactionDto(t.id, t.subscriptionId, t.fundId, t.amount, TypeName(t.kind), t.occurredAtUtc)
  }

  /** Distinct ledger entries have distinct records: the type name identifies
      the type. */
  lemma TransactionToDtoInjective(a: Transaction, b: Transaction)
    requires TransactionToDto(a) == TransactionToDto(b)
    ensures a == b
  {
    assert TypeName(a.kind)[0] == TypeName(b.kind)[0];
  }

  /** `ToDto(Client)`: the id, the balance and the channel by name, which
      parses back to the client's channel. */
  function ClientToDto(c: ClientState): (d: ClientBalanceDto)
    ensures d.id == c.id && d.balance == c.balance
    ensures d.notificationChannel == ChannelName(c.channel)
    ensures ParseChannel(d.notificationChannel) == Ok(c.channel)
  {
    ChannelNameNamesChannel(c.channel);
    ParseChannelName(c.channel, ChannelName(c.channel));
    ClientBalanceDto(c.id, c.balance, ChannelName(c.channel))
  }

  function UnknownChannelMessage(channel: string): string {
    "Canal de notificación desconocido: " + channel
  }

  /** `ParseChannel`: the channel that the text names, up to case and the
      white space around it; any other text is refused with an
      ArgumentException on the `channel` parameter. */
  function ParseChannel(channel: string): (r: Result<NotificationChannel>)
    ensures r.Ok? <==> exists c: NotificationChannel :: NamesMember(channel, ChannelName(c))
    ensures r.Ok? ==> NamesMember(channel, ChannelName(r.value))
    ensures r.Err? ==> r.error == Argument(UnknownChannelMessage(channel), "channel")
  {
    match TryParseChannel(channel)
    case Some(c) => Ok(c)
    case None => Err(Argument(UnknownChannelMessage(channel), "channel"))
  }

  /** Every spelling of a channel's name, in any case and with any white
      space around it, parses to that channel. */
  lemma {:induction false} ParseChannelAcceptsNames(c: NotificationChannel, spelling: string)
    requires NamesMember(spelling, ChannelName(c))
    ensures ParseChannel(spelling) == Ok(c)
  {
    ParseChannelName(c, spelling);
  }
}
