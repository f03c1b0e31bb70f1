/** `DomainToDtoMapper` of BTGPactual.Fondos.Application: the records built
    from the Fondos client and subscription. The fund and ledger records
    and `ParseChannel` have the same bodies as in TechnicalTest, and the
    model shares those members of `Mapper`. */
module FondosMapper {
  import opened Common
  import opened Channels
  import FondosClients
  import FondosSubscriptions
  import Mapper

  datatype SubscriptionDto = SubscriptionDto(
    id: Guid,
    fundId: int,
    amount: Money,
    subscribedAtUtc: DateTime,
    isActive: bool)

  datatype ClientBalanceDto = ClientBalanceDto(id: Guid, balance: Money, notificationChannel: string)

  /** `ToDto(Subscription)`: the fixed fields and whether it is still active. */
  function SubscriptionToDto(s: FondosSubscriptions.Subscription): (d: SubscriptionDto)
    reads s
    ensures d.id == s.id && d.fundId == s.fundId && d.amount == s.amount && d.subscribedAtUtc == s.subscribedAtUtc
    ensures d.isActive <==> s.cancelledAtUtc.None?
  {
    SubscriptionDto(s.id, s.fundId, s.amount, s.subscribedAtUtc, s.IsActive())
  }

  /** `ToDto(Client)`: the id, the balance and the channel by name, which
      parses back to the client's channel. */
  function ClientToDto(c: FondosClients.Client): (d: ClientBalanceDto)
    reads c
    ensures d.id == c.id && d.balance == c.balance
    ensures d.notificationChannel == ChannelName(c.channel)
    ensures Mapper.ParseChannel(d.notificationChannel) == Ok(c.channel)
  {
    ChannelNameNamesChannel(c.channel);
    ParseChannelName(c.channel, ChannelName(c.channel));
    ClientBalanceDto(c.id, c.balance, ChannelName(c.channel))
  }
}
