/** The client account of BTGPactual.Fondos.Domain: an identifier fixed at
    construction, a balance that only Debit and Credit move, and the channel
    the client is notified through. */
module FondosClients {
  import opened Common
  import opened Guards
  import opened Channels

  /** `Client.InitialBalance`: 500,000.00. */
  const InitialBalance: Money := Units(500_000)

  const NegativeInitialBalanceMessage: string := "El saldo inicial del cliente no puede ser negativo."

  /** The message of a refused debit; it names the fund when one is given. */
  function InsufficientFundsMessage(fundName: Option<string>): string {
    match fundName
    case None => "No tiene saldo disponible para realizar la transacción."
    case Some(name) => "No tiene saldo disponible para vincularse al fondo " + name + "."
  }

  class Client {
    const id: Guid
    var balance: Money
    var channel: NotificationChannel

    /** The account invariant: the balance is never negative. */
    ghost predicate Valid()
      reads this
    {
      balance >= 0
    }

    constructor Init(id: Guid, balance: Money, channel: NotificationChannel)
      requires balance >= 0
      ensures this.id == id && this.balance == balance && this.channel == channel
      ensures Valid()
    {
      this.id, this.balance, this.channel := id, balance, channel;
    }

    /** The public constructor: refuses a negative opening balance. */
    static method New(id: Guid, balance: Money := InitialBalance, channel: NotificationChannel := Email)
      returns (r: Result<Client>)
      ensures r.Ok? <==> balance >= 0
      ensures r.Err? ==> r.error == Domain(NegativeInitialBalanceMessage)
      ensures r.Ok? ==> fresh(r.value) && r.value.Valid()
      ensures r.Ok? ==> r.value.id == id && r.value.balance == balance && r.value.channel == channel
    {
      if balance < 0 {
        return Err(Domain(NegativeInitialBalanceMessage));
      }
      var c := new Client.Init(id, balance, channel);
      return Ok(c);
    }

    /** `Debit`: refuses a non-positive amount, then an amount above the
        balance (naming the fund when given); otherwise the balance drops by
        exactly the amount. */
    method Debit(amount: Money, fundName: Option<string> := None) returns (o: Outcome)
      requires Valid()
      modifies this`balance
      ensures Valid()
      ensures o.Pass? <==> 0 < amount <= old(balance)
      ensures balance == if o.Pass? then old(balance) - amount else old(balance)
      ensures amount <= 0 ==> o == Fail(Domain(AmountNotPositive))
      ensures 0 < amount && old(balance) < amount ==> o == Fail(Domain(InsufficientFundsMessage(fundName)))
    {
      o := ValidateAmount(amount);
      if o.Fail? { return; }
      if balance < amount {
        return Fail(Domain(InsufficientFundsMessage(fundName)));
      }
      balance := balance - amount;
    }

    /** `Credit`: refuses a non-positive amount; otherwise the balance rises by
        exactly the amount. */
    method Credit(amount: Money) returns (o: Outcome)
      requires Valid()
      modifies this`balance
      ensures Valid()
      ensures o.Pass? <==> amount > 0
      ensures balance == if o.Pass? then old(balance) + amount else old(balance)
      ensures o.Fail? ==> o.error == Domain(AmountNotPositive)
    {
      o := ValidateAmount(amount);
      if o.Fail? { return; }
      balance := balance + amount;
    }

    /** `UpdateNotificationChannel`: any channel is accepted. */
    method UpdateNotificationChannel(channel: NotificationChannel)
      modifies this`channel
      ensures this.channel == channel
    {
      this.channel := channel;
    }
  }
}
