/** `FundManagementService`: the default client subscribes to a fund with an
    amount of its choosing, no less than the fund's minimum, and cancels for
    a refund; every subscription and cancellation is written to an
    append-only ledger of transactions, which the client reads newest first.

    As in `ProductManagement`, the repositories are maps and a sequence in
    the service, and the clock, the fresh ids, the cancellation token and the
    outcome of the notification call are parameters. */
module FundManagement {
  import opened Common
  import opened Funds
  import opened Transactions
  import opened Guards
  import Channels
  import Clients
  import Subscriptions
  import Mapper
  import PM = ProductManagement

  type ClientState = Clients.ClientState
  type SubscriptionState = Subscriptions.SubscriptionState

  /** A call made to the notification service: the client, the fund and the
      channel it was told on. */
  datatype Notice = Notice(clientId: Guid, fundId: int, channel: Channels.NotificationChannel)

  /** The request the subscription reads: a fund, an amount and the name of
      a notification channel. */
  datatype SubscriptionRequest = SubscriptionRequest(fundId: int, amount: Money, notificationChannel: string)

  datatype Store = Store(
    clients: map<Guid, ClientState>,
    funds: map<int, Fund>,
    subscriptions: map<Guid, SubscriptionState>,
    ledger: seq<Transaction>,
    notices: seq<Notice>)
  {
    /** Every entry is stored under its own id and the default client is
        present; clients never have a negative balance, funds are valid,
        subscriptions have a positive amount, and every ledger entry has a
        positive amount and belongs to a stored subscription. */
    ghost predicate Valid() {
      && DefaultClientId in clients
      && (forall id | id in clients :: clients[id].id == id && clients[id].balance >= 0)
      && (forall id | id in funds :: funds[id].id == id && funds[id].Valid())
      && (forall id | id in subscriptions :: subscriptions[id].id == id && subscriptions[id].amount > 0)
      && (forall i | 0 <= i < |ledger| :: ledger[i].subscriptionId in subscriptions && ledger[i].amount > 0)
    }
  }

  datatype Step<T> = Step(store: Store, result: Result<T>)

  function FundNotFoundMessage(id: int): string {
    "No se encontró el fondo con id " + IntText(id) + "."
  }

  function MinimumAmountMessage(fund: Fund): string {
    "El monto mínimo para el fondo " + fund.name + " es " + AmountText(fund.minimumAmount) + "."
  }

  // ---------------------------------------------------------------------
  // Step functions.

  /** The writes of a subscription or a cancellation that succeeds: the
      client saved, the subscription saved, one ledger entry appended. */
  function Commit(s: Store, client: ClientState, sub: SubscriptionState, entry: Transaction, notices: seq<Notice>): (s': Store)
    requires s.Valid() && client.id in s.clients && client.balance >= 0
    requires sub.amount > 0 && entry.subscriptionId == sub.id && entry.amount > 0
    ensures s'.Valid()
    ensures s'.ledger == s.ledger + [entry] && s'.funds == s.funds
    ensures s'.clients == s.clients[client.id := client] && s'.subscriptions == s.subscriptions[sub.id := sub]
    ensures s'.notices == notices
  {
    Store(s.clients[client.id := client], s.funds, s.subscriptions[sub.id := sub], s.ledger + [entry], notices)
  }


  /** `SubscribeAsync`. Null request and cancelled token come first, then
      the fund lookup, then the minimum (an amount equal to it is accepted),
      then the channel name. The default client takes the channel and is
      debited the amount, naming the fund when the balance is short; only a
      debit that succeeds writes anything: the client, the new active
      subscription, one ledger entry of type `Subscription`, and the
      notification. A failing notification still throws, after the writes. */
  function SubscribeStep(s: Store, request: Option<SubscriptionRequest>, cancelled: bool, now: DateTime,
                         subscriptionId: Guid, transactionId: Guid, notifyError: Option<Error>): (st: Step<Mapper.SubscriptionDto>)
    requires s.Valid() && subscriptionId !in s.subscriptions
    ensures st.store.Valid()
  {
    if request.None? then Step(s, Err(ArgumentNull("request")))
    else if cancelled then Step(s, Err(Canceled))
    else
      var q := request.value;
      if q.fundId !in s.funds then Step(s, Err(Domain(FundNotFoundMessage(q.fundId))))
      else
        var fund := s.funds[q.fundId];
        if q.amount < fund.minimumAmount then Step(s, Err(Domain(MinimumAmountMessage(fund))))
        else match Mapper.ParseChannel(q.notificationChannel)
          case Err(e) => Step(s, Err(e))
          case Ok(channel) => ChargeStep(s, fund, q.amount, channel, now, subscriptionId, transactionId, notifyError)
  }

  /** What `SubscribeAsync` does once the fund, the amount and the channel
      have passed: the default client takes the channel and is debited the
      amount, naming the fund when the balance is short; only a debit that
      succeeds writes anything: the client, the new active subscription, one
      ledger entry of type `Subscription`, and the notification. */
  function ChargeStep(s: Store, fund: Fund, amount: Money, channel: Channels.NotificationChannel, now: DateTime,
                      subscriptionId: Guid, transactionId: Guid, notifyError: Option<Error>): (st: Step<Mapper.SubscriptionDto>)
    requires s.Valid() && subscriptionId !in s.subscriptions && amount > 0
    ensures st.store.Valid()
  {
    var client := s.clients[DefaultClientId];
    if client.balance < amount then Step(s, Err(Domain(Clients.InsufficientFundsMessage(Some(fund.name)))))
    else
      var sub := Subscriptions.SubscriptionState(subscriptionId, client.id, fund.id, amount, now, None);
      var store := Commit(s, client.(channel := channel, balance := client.balance - amount), sub,
        Transaction(transactionId, subscriptionId, fund.id, amount, TransactionType.Subscription, now),
        s.notices + [Notice(client.id, fund.id, channel)]);
      Step(store, if notifyError.Some? then Err(notifyError.value) else Ok(Mapper.SubscriptionToDto(sub)))
  }

  /** Whether a request passes every check of `SubscribeAsync` that comes
      before the debit. */
  predicate Admitted(s: Store, request: Option<SubscriptionRequest>, cancelled: bool) {
    && request.Some? && !cancelled && request.value.fundId in s.funds
    && request.value.amount >= s.funds[request.value.fundId].minimumAmount
    && Mapper.ParseChannel(request.value.notificationChannel).Ok?
  }

  /** A request refused before the debit writes nothing. */
  lemma SubscribeStepRejects(s: Store, request: Option<SubscriptionRequest>, cancelled: bool, now: DateTime,
                             subscriptionId: Guid, transactionId: Guid, notifyError: Option<Error>)
    requires s.Valid() && subscriptionId !in s.subscriptions && !Admitted(s, request, cancelled)
    ensures var st := SubscribeStep(s, request, cancelled, now, subscriptionId, transactionId, notifyError);
      st.store == s && st.result.Err?
  {
  }

  /** A request admitted reaches the debit with the stored fund and the
      parsed channel. */
  lemma SubscribeStepCharges(s: Store, request: Option<SubscriptionRequest>, cancelled: bool, now: DateTime,
                             subscriptionId: Guid, transactionId: Guid, notifyError: Option<Error>)
    requires s.Valid() && subscriptionId !in s.subscriptions && Admitted(s, request, cancelled)
    ensures s.funds[request.value.fundId].minimumAmount > 0
    ensures SubscribeStep(s, request, cancelled, now, subscriptionId, transactionId, notifyError)
      == ChargeStep(s, s.funds[request.value.fundId], request.value.amount,
                    Mapper.ParseChannel(request.value.notificationChannel).value, now, subscriptionId, transactionId, notifyError)
  {
  }

  /** The two outcomes of `ChargeStep`, one lemma each, so that callers
      need not unfold it. */
  lemma ChargeStepShort(s: Store, fund: Fund, amount: Money, channel: Channels.NotificationChannel, now: DateTime,
                        subscriptionId: Guid, transactionId: Guid, notifyError: Option<Error>)
    requires s.Valid() && subscriptionId !in s.subscriptions && amount > 0
    requires s.clients[DefaultClientId].balance < amount
    ensures ChargeStep(s, fund, amount, channel, now, subscriptionId, transactionId, notifyError)
      == Step(s, Err(Domain(Clients.InsufficientFundsMessage(Some(fund.name)))))
  {
  }

  lemma ChargeStepCommits(s: Store, fund: Fund, amount: Money, channel: Channels.NotificationChannel, now: DateTime,
                          subscriptionId: Guid, transactionId: Guid, notifyError: Option<Error>)
    requires s.Valid() && subscriptionId !in s.subscriptions && amount > 0
    requires s.clients[DefaultClientId].balance >= amount
    ensures var client := s.clients[DefaultClientId];
      var sub := Subscriptions.SubscriptionState(subscriptionId, DefaultClientId, fund.id, amount, now, None);
      ChargeStep(s, fund, amount, channel, now, subscriptionId, transactionId, notifyError)
        == Step(Store(s.clients[DefaultClientId := client.(channel := channel, balance := client.balance - amount)], s.funds,
                      s.subscriptions[subscriptionId := sub],
                      s.ledger + [Transaction(transactionId, subscriptionId, fund.id, amount, TransactionType.Subscription, now)],
                      s.notices + [Notice(DefaultClientId, fund.id, channel)]),
                if notifyError.Some? then Err(notifyError.value) else Ok(Mapper.SubscriptionToDto(sub)))
  {
  }

  /** `CancelSubscriptionAsync`. The cancelled token, a missing or already
      cancelled subscription, a missing fund and a missing client throw
      before anything is written. Otherwise the subscription is marked
      cancelled at `now`, its client credited the stored amount, and one
      ledger entry of type `Cancellation` for that amount appended; no
      notification is sent. The fund is looked up by the subscription's
      product id, which is the fund id it was created with. */
  function CancelStep(s: Store, subscriptionId: Guid, cancelled: bool, now: DateTime, transactionId: Guid)
    : (st: Step<Mapper.SubscriptionDto>)
    requires s.Valid()
    ensures st.store.Valid()
    ensures cancelled ==> st == Step(s, Err(Canceled))
    ensures !cancelled && subscriptionId !in s.subscriptions ==> st == Step(s, Err(Domain(PM.SubscriptionNotFoundMessage)))
    ensures !cancelled && subscriptionId in s.subscriptions ==>
      var sub := s.subscriptions[subscriptionId];
      && (!sub.IsActive() ==> st == Step(s, Err(Domain(PM.SubscriptionAlreadyCancelledMessage))))
      && (sub.IsActive() && sub.productId !in s.funds ==> st == Step(s, Err(Domain(FundNotFoundMessage(sub.productId)))))
      && (sub.IsActive() && sub.productId in s.funds && sub.clientId !in s.clients ==>
            st == Step(s, Err(Domain(PM.SubscriptionClientNotFoundMessage))))
    ensures st.result.Ok? <==>
      && !cancelled && subscriptionId in s.subscriptions && s.subscriptions[subscriptionId].IsActive()
      && s.subscriptions[subscriptionId].productId in s.funds && s.subscriptions[subscriptionId].clientId in s.clients
    ensures st.result.Ok? ==> st == RefundStep(s, subscriptionId, now, transactionId)
  {
    if cancelled then Step(s, Err(Canceled))
    else if subscriptionId !in s.subscriptions then Step(s, Err(Domain(PM.SubscriptionNotFoundMessage)))
    else
      var sub := s.subscriptions[subscriptionId];
      if !sub.IsActive() then Step(s, Err(Domain(PM.SubscriptionAlreadyCancelledMessage)))
      else if sub.productId !in s.funds then Step(s, Err(Domain(FundNotFoundMessage(sub.productId))))
      else if sub.clientId !in s.clients then Step(s, Err(Domain(PM.SubscriptionClientNotFoundMessage)))
      else RefundStep(s, subscriptionId, now, transactionId)
  }

  /** What `CancelSubscriptionAsync` does once every check has passed: the
      subscription is marked cancelled at `now`, its client credited the
      stored amount, and one `Cancellation` entry for that amount appended to
      the ledger. */
  function RefundStep(s: Store, subscriptionId: Guid, now: DateTime, transactionId: Guid): (st: Step<Mapper.SubscriptionDto>)
    requires s.Valid() && subscriptionId in s.subscriptions
    requires s.subscriptions[subscriptionId].productId in s.funds && s.subscriptions[subscriptionId].clientId in s.clients
    ensures st.store.Valid()
    ensures var sub := s.subscriptions[subscriptionId];
      var client := s.clients[sub.clientId];
      var cancelledSub := sub.(cancelledAtUtc := Some(now));
      && st.store.clients == s.clients[sub.clientId := client.(balance := client.balance + sub.amount)]
      && st.store.subscriptions == s.subscriptions[subscriptionId := cancelledSub]
      && st.store.ledger == s.ledger + [Transaction(transactionId, subscriptionId, sub.productId, sub.amount, TransactionType.Cancellation, now)]
      && st.store.funds == s.funds && st.store.notices == s.notices
      && st.result == Ok(Mapper.SubscriptionToDto(cancelledSub))
  {
    var sub := s.subscriptions[subscriptionId];
    var client := s.clients[sub.clientId];
    var cancelledSub := sub.(cancelledAtUtc := Some(now));
    var store := Commit(s, client.(balance := client.balance + sub.amount), cancelledSub,
      Transaction(transactionId, subscriptionId, s.funds[sub.productId].id, sub.amount, TransactionType.Cancellation, now),
      s.notices);
    Step(store, Ok(Mapper.SubscriptionToDto(cancelledSub)))
  }

  // ---------------------------------------------------------------------
  // The ledger, read by client and newest first.

  /** Whether a ledger entry belongs to one of the client's subscriptions. */
  predicate BelongsTo(t: Transaction, subscriptions: map<Guid, SubscriptionState>, clientId: Guid) {
    t.subscriptionId in subscriptions && subscriptions[t.subscriptionId].clientId == clientId
  }

  /** `TransactionRepository.GetByClientIdAsync` before its ordering: the
      ledger entries of the client's subscriptions, in ledger order. */
  function ClientTransactions(ledger: seq<Transaction>, subscriptions: map<Guid, SubscriptionState>, clientId: Guid)
    : (r: seq<Transaction>)
    ensures forall t :: t in r <==> t in ledger && BelongsTo(t, subscriptions, clientId)
  {
    if ledger == [] then []
    else
      var rest := ClientTransactions(ledger[1..], subscriptions, clientId);
      if BelongsTo(ledger[0], subscriptions, clientId) then [ledger[0]] + rest else rest
  }

  /** The net amount the client's ledger entries have taken from its
      balance: subscriptions count in, cancellations count back out. */
  function Charged(ledger: seq<Transaction>, subscriptions: map<Guid, SubscriptionState>, clientId: Guid): int {
    if ledger == [] then 0
    else
      var t := ledger[|ledger| - 1];
      Charged(ledger[..|ledger| - 1], subscriptions, clientId)
        + (if !BelongsTo(t, subscriptions, clientId) then 0
           else if t.kind.Subscription? then t.amount else -t.amount)
  }

  /** The charge only looks at the subscriptions the ledger refers to, and
      at nothing of them but their client. */
  lemma {:induction false} ChargedFrame(ledger: seq<Transaction>, subs: map<Guid, SubscriptionState>,
                                        subs': map<Guid, SubscriptionState>, clientId: Guid)
    requires forall i | 0 <= i < |ledger| :: ledger[i].subscriptionId in subs && ledger[i].subscriptionId in subs'
    requires forall id | id in subs && id in subs' :: subs[id].clientId == subs'[id].clientId
    ensures Charged(ledger, subs, clientId) == Charged(ledger, subs', clientId)
  {
    if ledger != [] {
      var init := ledger[..|ledger| - 1];
      assert forall i | 0 <= i < |init| :: init[i] == ledger[i];
      ChargedFrame(init, subs, subs', clientId);
    }
  }

  /** Committing one entry for `client` changes that client's charge by the
      entry's signed amount and no other client's. */
  lemma CommitCharged(s: Store, client: ClientState, sub: SubscriptionState, entry: Transaction,
                      notices: seq<Notice>, c: Guid)
    requires s.Valid() && client.id in s.clients && client.balance >= 0
    requires sub.amount > 0 && entry.subscriptionId == sub.id && entry.amount > 0
    requires sub.clientId == client.id
    requires sub.id in s.subscriptions ==> s.subscriptions[sub.id].clientId == client.id
    ensures var s' := Commit(s, client, sub, entry, notices);
      Charged(s'.ledger, s'.subscriptions, c)
        == Charged(s.ledger, s.subscriptions, c)
           + (if c != client.id then 0 else if entry.kind.Subscription? then entry.amount else -entry.amount)
  {
    var s' := Commit(s, client, sub, entry, notices);
    ChargedFrame(s.ledger, s.subscriptions, s'.subscriptions, c);
    assert s'.ledger[..|s'.ledger| - 1] == s.ledger;
  }

  /** Money is conserved: for every client, the balance plus what its ledger
      entries have charged is the same before and after a subscription. */
  lemma SubscribeConservesMoney(s: Store, request: Option<SubscriptionRequest>, cancelled: bool, now: DateTime,
                                subscriptionId: Guid, transactionId: Guid, notifyError: Option<Error>, c: Guid)
    requires s.Valid() && subscriptionId !in s.subscriptions && c in s.clients
    ensures var s' := SubscribeStep(s, request, cancelled, now, subscriptionId, transactionId, notifyError).store;
      && c in s'.clients
      && s'.clients[c].balance + Charged(s'.ledger, s'.subscriptions, c)
         == s.clients[c].balance + Charged(s.ledger, s.subscriptions, c)
  {
    if !Admitted(s, request, cancelled) {
      SubscribeStepRejects(s, request, cancelled, now, subscriptionId, transactionId, notifyError);
    } else {
      SubscribeStepCharges(s, request, cancelled, now, subscriptionId, transactionId, notifyError);
      var q := request.value;
      ChargeConservesMoney(s, s.funds[q.fundId], q.amount, Mapper.ParseChannel(q.notificationChannel).value,
        now, subscriptionId, transactionId, notifyError, c);
    }
  }

  /** The same for the debit alone. */
  lemma ChargeConservesMoney(s: Store, fund: Fund, amount: Money, channel: Channels.NotificationChannel, now: DateTime,
                             subscriptionId: Guid, transactionId: Guid, notifyError: Option<Error>, c: Guid)
    requires s.Valid() && subscriptionId !in s.subscriptions && amount > 0 && c in s.clients
    ensures var s' := ChargeStep(s, fund, amount, channel, now, subscriptionId, transactionId, notifyError).store;
      && c in s'.clients
      && s'.clients[c].balance + Charged(s'.ledger, s'.subscriptions, c)
         == s.clients[c].balance + Charged(s.ledger, s.subscriptions, c)
  {
    var client := s.clients[DefaultClientId];
    if client.balance < amount {
      ChargeStepShort(s, fund, amount, channel, now, subscriptionId, transactionId, notifyError);
    } else {
      ChargeStepCommits(s, fund, amount, channel, now, subscriptionId, transactionId, notifyError);
      CommitCharged(s, client.(channel := channel, balance := client.balance - amount),
        Subscriptions.SubscriptionState(subscriptionId, DefaultClientId, fund.id, amount, now, None),
        Transaction(transactionId, subscriptionId, fund.id, amount, TransactionType.Subscription, now),
        s.notices + [Notice(DefaultClientId, fund.id, channel)], c);
    }
  }

  /** The same conservation for a cancellation: the refund is exactly what
      the cancellation entry gives back. */
  lemma CancelConservesMoney(s: Store, subscriptionId: Guid, cancelled: bool, now: DateTime, transactionId: Guid, c: Guid)
    requires s.Valid() && c in s.clients
    ensures var s' := CancelStep(s, subscriptionId, cancelled, now, transactionId).store;
      && c in s'.clients
      && s'.clients[c].balance + Charged(s'.ledger, s'.subscriptions, c)
         == s.clients[c].balance + Charged(s.ledger, s.subscriptions, c)
  {
    var s' := CancelStep(s, subscriptionId, cancelled, now, transactionId).store;
    if s' != s {
      var sub := s.subscriptions[subscriptionId];
      var client := s.clients[sub.clientId];
      CommitCharged(s, client.(balance := client.balance + sub.amount), sub.(cancelledAtUtc := Some(now)),
        Transaction(transactionId, subscriptionId, s.funds[sub.productId].id, sub.amount, TransactionType.Cancellation, now),
        s.notices, c);
    }
  }

  /** Whether records are ordered newest first. */
  predicate NewestFirst(s: seq<Mapper.TransactionDto>) {
    forall i, j | 0 <= i < j < |s| :: s[i].occurredAtUtc.ticks >= s[j].occurredAtUtc.ticks
  }

  /** Places a record before the first one that is not newer than it. */
  function InsertNewestFirst(d: Mapper.TransactionDto, s: seq<Mapper.TransactionDto>): seq<Mapper.TransactionDto> {
    if s == [] || s[0].occurredAtUtc.ticks <= d.occurredAtUtc.ticks then [d] + s
    else [s[0]] + InsertNewestFirst(d, s[1..])
  }

  /** `OrderByDescending(dto => dto.OccurredAtUtc)`, which is stable: records
      with the same time keep their order. */
  function SortNewestFirst(s: seq<Mapper.TransactionDto>): seq<Mapper.TransactionDto> {
    if s == [] then [] else InsertNewestFirst(s[0], SortNewestFirst(s[1..]))
  }

  lemma {:induction false} InsertNewestFirstCount(d: Mapper.TransactionDto, s: seq<Mapper.TransactionDto>)
    ensures multiset(InsertNewestFirst(d, s)) == multiset(s) + multiset{d}
  {
    if s != [] && s[0].occurredAtUtc.ticks > d.occurredAtUtc.ticks {
      InsertNewestFirstCount(d, s[1..]);
      assert s == [s[0]] + s[1..];
    }
  }

  /** Every record of the result is the inserted one or one of `s`. */
  lemma InsertNewestFirstFrom(d: Mapper.TransactionDto, s: seq<Mapper.TransactionDto>, x: Mapper.TransactionDto)
    requires x in InsertNewestFirst(d, s)
    ensures x == d || x in s
  {
    InsertNewestFirstCount(d, s);
    assert x in multiset(InsertNewestFirst(d, s));
  }

  lemma {:induction false} InsertNewestFirstSorted(d: Mapper.TransactionDto, s: seq<Mapper.TransactionDto>)
    requires NewestFirst(s)
    ensures NewestFirst(InsertNewestFirst(d, s))
  {
    if s != [] && s[0].occurredAtUtc.ticks > d.occurredAtUtc.ticks {
      var head, tail := s[0], s[1..];
      var rest := InsertNewestFirst(d, tail);
      InsertNewestFirstSorted(d, tail);
      var r := [head] + rest;
      assert InsertNewestFirst(d, s) == r;
      forall k | 0 <= k < |rest| ensures head.occurredAtUtc.ticks >= rest[k].occurredAtUtc.ticks {
        InsertNewestFirstFrom(d, tail, rest[k]);
        if rest[k] != d {
          var j :| 0 <= j < |tail| && tail[j] == rest[k];
          assert tail[j] == s[j + 1];
        }
      }
      forall i, j | 0 <= i < j < |r| ensures r[i].occurredAtUtc.ticks >= r[j].occurredAtUtc.ticks {
        if i == 0 { assert r[j] == rest[j - 1]; } else { assert r[i] == rest[i - 1] && r[j] == rest[j - 1]; }
      }
    }
  }

  /** The sort returns the same records, newest first. */
  lemma {:induction false} SortNewestFirstFacts(s: seq<Mapper.TransactionDto>)
    ensures NewestFirst(SortNewestFirst(s))
    ensures multiset(SortNewestFirst(s)) == multiset(s)
  {
    if s != [] {
      SortNewestFirstFacts(s[1..]);
      InsertNewestFirstCount(s[0], SortNewestFirst(s[1..]));
      InsertNewestFirstSorted(s[0], SortNewestFirst(s[1..]));
      assert s == [s[0]] + s[1..];
    }
  }

  function TransactionDtos(ledger: seq<Transaction>): (r: seq<Mapper.TransactionDto>)
    ensures |r| == |ledger|
    ensures forall i | 0 <= i < |ledger| :: r[i] == Mapper.TransactionToDto(ledger[i])
  {
    if ledger == [] then [] else [Mapper.TransactionToDto(ledger[0])] + TransactionDtos(ledger[1..])
  }

  /** `GetTransactionsAsync`: the records of the default client's ledger
      entries, newest first. */
  function TransactionsView(s: Store): seq<Mapper.TransactionDto> {
    SortNewestFirst(TransactionDtos(ClientTransactions(s.ledger, s.subscriptions, DefaultClientId)))
  }

  /** The view holds a record for exactly the ledger entries of the default
      client's subscriptions, and is ordered newest first. */
  lemma TransactionsViewFacts(s: Store)
    ensures NewestFirst(TransactionsView(s))
    ensures forall t :: Mapper.TransactionToDto(t) in TransactionsView(s) <==> t in s.ledger && BelongsTo(t, s.subscriptions, DefaultClientId)
  {
    var own := ClientTransactions(s.ledger, s.subscriptions, DefaultClientId);
    var dtos := TransactionDtos(own);
    SortNewestFirstFacts(dtos);
    forall t ensures Mapper.TransactionToDto(t) in TransactionsView(s) <==> t in own {
      calc <==> {
        Mapper.TransactionToDto(t) in TransactionsView(s);
        Mapper.TransactionToDto(t) in multiset(dtos);
        Mapper.TransactionToDto(t) in dtos;
        { TransactionDtoIn(own, t); }
        t in own;
      }
    }
  }

  lemma TransactionDtoIn(ledger: seq<Transaction>, t: Transaction)
    ensures Mapper.TransactionToDto(t) in TransactionDtos(ledger) <==> t in ledger
  {
    var dtos := TransactionDtos(ledger);
    if Mapper.TransactionToDto(t) in dtos {
      var i :| 0 <= i < |dtos| && dtos[i] == Mapper.TransactionToDto(t);
      Mapper.TransactionToDtoInjective(ledger[i], t);
    }
  }

  // ---------------------------------------------------------------------
  // Properties of the steps.

  /** A subscription that succeeds charges the default client exactly the
      requested amount, sets its channel, adds one active subscription for
      that amount, and appends exactly one `Subscription` entry with the same
      subscription, fund, amount and time. The ledger is only appended to. */
  lemma SubscribeEffect(s: Store, request: Option<SubscriptionRequest>, cancelled: bool, now: DateTime,
                        subscriptionId: Guid, transactionId: Guid, notifyError: Option<Error>)
    requires s.Valid() && subscriptionId !in s.subscriptions
    requires SubscribeStep(s, request, cancelled, now, subscriptionId, transactionId, notifyError).result.Ok?
    ensures var st := SubscribeStep(s, request, cancelled, now, subscriptionId, transactionId, notifyError);
      var q := request.value;
      var old_ := s.clients[DefaultClientId];
      && q.fundId in s.funds && q.amount >= s.funds[q.fundId].minimumAmount
      && Mapper.ParseChannel(q.notificationChannel).Ok?
      && st.store.clients == s.clients[DefaultClientId := old_.(channel := Mapper.ParseChannel(q.notificationChannel).value, balance := old_.balance - q.amount)]
      && st.store.subscriptions == s.subscriptions[subscriptionId := Subscriptions.SubscriptionState(subscriptionId, DefaultClientId, q.fundId, q.amount, now, None)]
      && st.store.ledger == s.ledger + [Transaction(transactionId, subscriptionId, q.fundId, q.amount, TransactionType.Subscription, now)]
      && st.store.funds == s.funds
  {
    SubscribeStepCharges(s, request, cancelled, now, subscriptionId, transactionId, notifyError);
    var q := request.value;
    var fund := s.funds[q.fundId];
    var channel := Mapper.ParseChannel(q.notificationChannel).value;
    if s.clients[DefaultClientId].balance < q.amount {
      ChargeStepShort(s, fund, q.amount, channel, now, subscriptionId, transactionId, notifyError);
    } else {
      ChargeStepCommits(s, fund, q.amount, channel, now, subscriptionId, transactionId, notifyError);
    }
  }

  /** Nothing is written when the subscription fails for any reason other
      than the notification; a failing notification throws after the same
      writes as a successful one. */
  lemma SubscribeFailsAtomically(s: Store, request: Option<SubscriptionRequest>, cancelled: bool, now: DateTime,
                                 subscriptionId: Guid, transactionId: Guid, e: Error)
    requires s.Valid() && subscriptionId !in s.subscriptions
    ensures var st := SubscribeStep(s, request, cancelled, now, subscriptionId, transactionId, None);
      st.result.Err? ==> st.store == s
    ensures var st := SubscribeStep(s, request, cancelled, now, subscriptionId, transactionId, Some(e));
      st.result.Err? && st.store == SubscribeStep(s, request, cancelled, now, subscriptionId, transactionId, None).store
  {
    if !Admitted(s, request, cancelled) {
      SubscribeStepRejects(s, request, cancelled, now, subscriptionId, transactionId, None);
      SubscribeStepRejects(s, request, cancelled, now, subscriptionId, transactionId, Some(e));
    } else {
      SubscribeStepCharges(s, request, cancelled, now, subscriptionId, transactionId, None);
      SubscribeStepCharges(s, request, cancelled, now, subscriptionId, transactionId, Some(e));
      var q := request.value;
      var fund := s.funds[q.fundId];
      var channel := Mapper.ParseChannel(q.notificationChannel).value;
      if s.clients[DefaultClientId].balance < q.amount {
        ChargeStepShort(s, fund, q.amount, channel, now, subscriptionId, transactionId, None);
        ChargeStepShort(s, fund, q.amount, channel, now, subscriptionId, transactionId, Some(e));
      } else {
        ChargeStepCommits(s, fund, q.amount, channel, now, subscriptionId, transactionId, None);
        ChargeStepCommits(s, fund, q.amount, channel, now, subscriptionId, transactionId, Some(e));
      }
    }
  }

  /** A cancellation that passes every check (token, subscription found and
      active, fund found, client found) refunds exactly the stored amount to
      the subscription's client and no one else, marks the subscription
      cancelled at `now` and appends one `Cancellation` entry for that
      amount; any other fails and writes nothing. It never notifies. */
  lemma CancelEffect(s: Store, subscriptionId: Guid, cancelled: bool, now: DateTime, transactionId: Guid)
    requires s.Valid()
    ensures var st := CancelStep(s, subscriptionId, cancelled, now, transactionId);
      var passes := !cancelled && subscriptionId in s.subscriptions && s.subscriptions[subscriptionId].IsActive()
        && s.subscriptions[subscriptionId].productId in s.funds && s.subscriptions[subscriptionId].clientId in s.clients;
      && st.store.notices == s.notices
      && (!passes ==> st.store == s && st.result.Err?)
      && (passes ==>
            var sub := s.subscriptions[subscriptionId];
            var client := s.clients[sub.clientId];
            var cancelledSub := sub.(cancelledAtUtc := Some(now));
            && st.store.subscriptions == s.subscriptions[subscriptionId := cancelledSub]
            && st.store.clients == s.clients[sub.clientId := client.(balance := client.balance + sub.amount)]
            && st.store.ledger == s.ledger + [Transaction(transactionId, subscriptionId, sub.productId, sub.amount, TransactionType.Cancellation, now)]
            && st.store.funds == s.funds
            && st.result == Ok(Mapper.SubscriptionToDto(cancelledSub)))
  {
  }

  /** Subscribing and then cancelling that subscription gives the default
      client back its balance, and leaves two entries in the ledger: the
      charge and the refund, for the same amount. */
  lemma {:induction false} SubscribeThenCancelRestoresBalance(s: Store, request: SubscriptionRequest, now: DateTime, later: DateTime,
                                                              subscriptionId: Guid, t1: Guid, t2: Guid)
    requires s.Valid() && subscriptionId !in s.subscriptions
    requires SubscribeStep(s, Some(request), false, now, subscriptionId, t1, None).result.Ok?
    ensures var s1 := SubscribeStep(s, Some(request), false, now, subscriptionId, t1, None).store;
      var st := CancelStep(s1, subscriptionId, false, later, t2);
      && st.result.Ok?
      && st.store.clients[DefaultClientId].balance == s.clients[DefaultClientId].balance
      && st.store.ledger == s.ledger + [
           Transaction(t1, subscriptionId, request.fundId, request.amount, TransactionType.Subscription, now),
           Transaction(t2, subscriptionId, request.fundId, request.amount, TransactionType.Cancellation, later)]
  {
    SubscribeEffect(s, Some(request), false, now, subscriptionId, t1, None);
    var s1 := SubscribeStep(s, Some(request), false, now, subscriptionId, t1, None).store;
    assert s1.subscriptions[subscriptionId].clientId == DefaultClientId;
    CancelEffect(s1, subscriptionId, false, later, t2);
  }

  // ---------------------------------------------------------------------
  // The service.

  class FundManagementService {
    var clients: map<Guid, ClientState>
    var funds: map<int, Fund>
    var subscriptions: map<Guid, SubscriptionState>
    var ledger: seq<Transaction>
    var notices: seq<Notice>

    function Snapshot(): Store
      reads this
    {
      Store(clients, funds, subscriptions, ledger, notices)
    }

    ghost predicate Valid()
      reads this
    {
      Snapshot().Valid()
    }

    constructor (clients: map<Guid, ClientState>, funds: map<int, Fund>)
      requires Store(clients, funds, map[], [], []).Valid()
      ensures Snapshot() == Store(clients, funds, map[], [], []) && Valid()
    {
      this.clients, this.funds := clients, funds;
      subscriptions, ledger, notices := map[], [], [];
    }

    /** `GetClientAsync`: the default client's balance and channel. */
    method GetClient(cancelled: bool) returns (r: Result<Mapper.ClientBalanceDto>)
      requires Valid()
      ensures r.Ok? <==> !cancelled
      ensures r.Ok? ==> r.value.id == DefaultClientId && r.value.balance == clients[DefaultClientId].balance
      ensures r.Ok? ==> r.value.notificationChannel == Channels.ChannelName(clients[DefaultClientId].channel)
      ensures r.Ok? ==> Mapper.ParseChannel(r.value.notificationChannel) == Ok(clients[DefaultClientId].channel)
    {
      if cancelled { return Err(Canceled); }
      return Ok(Mapper.ClientToDto(clients[DefaultClientId]));
    }

    /** `GetFundsAsync`: a record for every stored fund. */
    method GetFunds(cancelled: bool) returns (r: Result<set<Mapper.FundDto>>)
      ensures r.Ok? <==> !cancelled
      ensures r.Ok? ==> forall d :: d in r.value <==> exists id :: id in funds && Mapper.FundToDto(funds[id]) == d
    {
      if cancelled { return Err(Canceled); }
      return Ok(set id | id in funds :: Mapper.FundToDto(funds[id]));
    }

    /** `GetSubscriptionsAsync`: the records of the default client's
        subscriptions, and of no one else's. */
    method GetSubscriptions(cancelled: bool) returns (r: Result<set<Mapper.SubscriptionDto>>)
      ensures r.Ok? <==> !cancelled
      ensures r.Ok? ==> forall d :: d in r.value <==>
        exists id :: id in subscriptions && subscriptions[id].clientId == DefaultClientId && Mapper.SubscriptionToDto(subscriptions[id]) == d
    {
      if cancelled { return Err(Canceled); }
      return Ok(set id | id in subscriptions && subscriptions[id].clientId == DefaultClientId :: Mapper.SubscriptionToDto(subscriptions[id]));
    }

    /** `GetTransactionsAsync`: the records of the default client's ledger
        entries, newest first. */
    method GetTransactions(cancelled: bool) returns (r: Result<seq<Mapper.TransactionDto>>)
      ensures r.Ok? <==> !cancelled
      ensures r.Ok? ==> r.value == TransactionsView(Snapshot())
      ensures r.Ok? ==> NewestFirst(r.value)
      ensures r.Ok? ==> forall t :: Mapper.TransactionToDto(t) in r.value <==> t in ledger && BelongsTo(t, subscriptions, DefaultClientId)
    {
      if cancelled { return Err(Canceled); }
      TransactionsViewFacts(Snapshot());
      var own := ClientTransactions(ledger, subscriptions, DefaultClientId);
      return Ok(SortNewestFirst(TransactionDtos(own)));
    }

    /** `SubscribeAsync`, on the entities: the client takes the channel
        through `Client.UpdateNotificationChannel` and is debited through
        `Client.Debit`; the subscription is built by its constructor. */
    method Subscribe(request: Option<SubscriptionRequest>, cancelled: bool, now: DateTime,
                     subscriptionId: Guid, transactionId: Guid, notifyError: Option<Error>)
      returns (r: Result<Mapper.SubscriptionDto>)
      requires Valid() && subscriptionId !in subscriptions
      modifies this`clients, this`subscriptions, this`ledger, this`notices
      ensures Step(Snapshot(), r) == SubscribeStep(old(Snapshot()), request, cancelled, now, subscriptionId, transactionId, notifyError)
      ensures Valid()
    {
      if request.None? { return Err(ArgumentNull("request")); }
      if cancelled { return Err(Canceled); }
      var q := request.value;
      if q.fundId !in funds { return Err(Domain(FundNotFoundMessage(q.fundId))); }
      var fund := funds[q.fundId];
      if q.amount < fund.minimumAmount { return Err(Domain(MinimumAmountMessage(fund))); }
      var channel := Mapper.ParseChannel(q.notificationChannel);
      if channel.Err? { return Err(channel.error); }
      r := SubscribeDefaultClient(fund, q.amount, channel.value, now, subscriptionId, transactionId, notifyError);
    }

    /** The default client as `SubscribeAsync` loads it, through
        `Client.UpdateNotificationChannel` and `Client.Debit`, and saved
        only when the debit passes. */
    method ChargeDefaultClient(channel: Channels.NotificationChannel, amount: Money, fundName: string) returns (o: Outcome)
      requires Valid()
      modifies this`clients
      ensures o.Pass? <==> 0 < amount <= old(clients[DefaultClientId].balance)
      ensures clients == if o.Fail? then old(clients) else
        old(clients)[DefaultClientId := old(clients[DefaultClientId]).(channel := channel, balance := old(clients[DefaultClientId].balance) - amount)]
      ensures amount <= 0 ==> o == Fail(Domain(AmountNotPositive))
      ensures 0 < amount && old(clients[DefaultClientId].balance) < amount ==> o == Fail(Domain(Clients.InsufficientFundsMessage(Some(fundName))))
    {
      var client := new Clients.Client.FromState(clients[DefaultClientId]);
      client.UpdateNotificationChannel(channel);
      o := client.Debit(amount, Some(fundName));
      if o.Pass? {
        clients := clients[client.id := client.State()];
      }
    }

    /** The rest of `SubscribeAsync` once the fund, the amount and the
        channel have passed. */
    method SubscribeDefaultClient(fund: Fund, amount: Money, channel: Channels.NotificationChannel, now: DateTime,
                                  subscriptionId: Guid, transactionId: Guid, notifyError: Option<Error>)
      returns (r: Result<Mapper.SubscriptionDto>)
      requires Valid() && subscriptionId !in subscriptions && amount > 0
      modifies this`clients, this`subscriptions, this`ledger, this`notices
      ensures Step(Snapshot(), r) == ChargeStep(old(Snapshot()), fund, amount, channel, now, subscriptionId, transactionId, notifyError)
      ensures Valid()
    {
      ghost var s := Snapshot();
      var debited := ChargeDefaultClient(channel, amount, fund.name);
      if debited.Fail? {
        ChargeStepShort(s, fund, amount, channel, now, subscriptionId, transactionId, notifyError);
        r := Err(debited.error);
      } else {
        ChargeStepCommits(s, fund, amount, channel, now, subscriptionId, transactionId, notifyError);
        var created := Subscriptions.Subscription.New(subscriptionId, DefaultClientId, fund.id, amount, now);
        assert created.Ok?;
        var state := created.value.State();
        var entry := Transaction(transactionId, subscriptionId, fund.id, amount, TransactionType.Subscription, now);
        subscriptions := subscriptions[subscriptionId := state];
        ledger, notices := ledger + [entry], notices + [Notice(DefaultClientId, fund.id, channel)];
        r := if notifyError.Some? then Err(notifyError.value) else Ok(Mapper.SubscriptionToDto(state));
      }
    }

    /** `CancelSubscriptionAsync`, on the entities: `Subscription.Cancel`
        then `Client.Credit`, which cannot fail because every stored
        subscription has a positive amount; then the ledger entry. */
    method CancelSubscription(subscriptionId: Guid, cancelled: bool, now: DateTime, transactionId: Guid)
      returns (r: Result<Mapper.SubscriptionDto>)
      requires Valid()
      modifies this`clients, this`subscriptions, this`ledger
      ensures Step(Snapshot(), r) == CancelStep(old(Snapshot()), subscriptionId, cancelled, now, transactionId)
      ensures Valid()
    {
      if cancelled {
        r := Err(Canceled);
      } else if subscriptionId !in subscriptions {
        r := Err(Domain(PM.SubscriptionNotFoundMessage));
      } else {
        var subscription := new Subscriptions.Subscription.FromState(subscriptions[subscriptionId]);
        if !subscription.IsActive() {
          r := Err(Domain(PM.SubscriptionAlreadyCancelledMessage));
        } else if subscription.productId !in funds {
          r := Err(Domain(FundNotFoundMessage(subscription.productId)));
        } else if subscription.clientId !in clients {
          r := Err(Domain(PM.SubscriptionClientNotFoundMessage));
        } else {
          r := Refund(subscriptionId, now, transactionId);
        }
      }
    }

    /** The rest of `CancelSubscriptionAsync` once every check has passed,
        on the entities: `Subscription.Cancel`, then `Client.Credit`, which
        cannot fail because every stored subscription has a positive amount,
        then the ledger entry. */
    method Refund(subscriptionId: Guid, now: DateTime, transactionId: Guid) returns (r: Result<Mapper.SubscriptionDto>)
      requires Valid() && subscriptionId in subscriptions && subscriptions[subscriptionId].IsActive()
      requires subscriptions[subscriptionId].productId in funds && subscriptions[subscriptionId].clientId in clients
      modifies this`clients, this`subscriptions, this`ledger
      ensures Step(Snapshot(), r) == RefundStep(old(Snapshot()), subscriptionId, now, transactionId)
      ensures Valid()
    {
      var subscription := new Subscriptions.Subscription.FromState(subscriptions[subscriptionId]);
      var fund := funds[subscription.productId];
      var client := new Clients.Client.FromState(clients[subscription.clientId]);
      var o := subscription.Cancel(now);
      assert o.Pass?;
      subscriptions := subscriptions[subscriptionId := subscription.State()];
      o := client.Credit(subscription.amount);
      assert o.Pass?;
      clients := clients[subscription.clientId := client.State()];
      ledger := ledger + [Transaction(transactionId, subscription.id, fund.id, subscription.amount, TransactionType.Cancellation, now)];
      r := Ok(Mapper.SubscriptionToDto(subscription.State()));
    }
  }
}
