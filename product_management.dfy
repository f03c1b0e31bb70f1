/** `ProductManagementService`: the product catalogue's create, update and
    delete, and the subscription of a client to a product, always charged the
    product's minimum amount, with its cancellation and refund.

    The repositories are maps in the service; the clock, the fresh
    subscription id, the cancellation token and the outcome of the
    notification call are parameters. Each operation is a method on the
    service that materialises the entities, runs their methods and writes the
    results back, proved equal to a step function on the stores, and the
    round trips are lemmas about the step functions. */
module ProductManagement {
  import opened Common
  import opened Text
  import opened Channels
  import opened Products
  import Clients
  import Subscriptions
  import Mapper

  type ClientState = Clients.ClientState
  type SubscriptionState = Subscriptions.SubscriptionState

  /** A call made to the notification service, with the arguments that
      identify it. */
  datatype Notice =
    | SubscribedNotice(clientId: Guid, productId: int, channel: NotificationChannel, subscriptionId: Guid, amount: Money, at: DateTime)
    | CancelledNotice(clientId: Guid, productId: int, channel: NotificationChannel, subscriptionId: Guid, amount: Money, at: DateTime)

  /** The request the subscription reads: a product id and a client id. */
  datatype SubscriptionRequest = SubscriptionRequest(productId: int, clientId: Guid)

  datatype ProductCreateRequest = ProductCreateRequest(id: int, name: string, minimumAmount: Money, category: string)

  datatype ProductUpdateRequest = ProductUpdateRequest(name: string, minimumAmount: Money, category: string)

  /** The stores the service reads and writes, and the notifications it has
      sent. */
  datatype Store = Store(
    clients: map<Guid, ClientState>,
    products: map<int, Product>,
    subscriptions: map<Guid, SubscriptionState>,
    notices: seq<Notice>)
  {
    /** Every entry is stored under its own id; clients never have a negative
        balance, products are valid and subscriptions have a positive amount. */
    ghost predicate Valid() {
      && (forall id | id in clients :: clients[id].id == id && clients[id].balance >= 0)
      && (forall id | id in products :: products[id].id == id && products[id].Valid())
      && (forall id | id in subscriptions :: subscriptions[id].id == id && subscriptions[id].amount > 0)
    }
  }

  /** The stores after an operation, and what it returned or threw. */
  datatype Step<T> = Step(store: Store, result: Result<T>)

  function ProductNotFoundMessage(id: int): string {
    "No se encontró el producto con id " + IntText(id) + "."
  }

  function ClientNotFoundMessage(id: Guid): string {
    "No se encontró el cliente con id " + GuidText(id) + "."
  }

  function ProductExistsMessage(id: int): string {
    "Ya existe un producto con id " + IntText(id) + "."
  }

  function UnknownCategoryMessage(category: string): string {
    "Categoría de producto desconocida: " + category + "."
  }

  const SubscriptionNotFoundMessage: string := "No se encontró la suscripción solicitada."
  const SubscriptionAlreadyCancelledMessage: string := "La suscripción ya se encuentra cancelada."
  const SubscriptionClientNotFoundMessage: string := "No se encontró el cliente asociado a la suscripción."

  /** `ParseCategory`: the category that the text names, up to case and the
      white space around it; any other text is refused with a
      DomainException naming it. */
  function ParseCategory(category: string): (r: Result<ProductCategory>)
    ensures r.Ok? <==> exists c: ProductCategory :: NamesMember(category, CategoryName(c))
    ensures r.Ok? ==> NamesMember(category, CategoryName(r.value))
    ensures r.Err? ==> r.error == Domain(UnknownCategoryMessage(category))
  {
    var t := Trim(category);
    if EqualsIgnoreCase(t, "FPV") then
      assert NamesMember(category, CategoryName(FPV));
      Ok(FPV)
    else if EqualsIgnoreCase(t, "FIC") then
      assert NamesMember(category, CategoryName(FIC));
      Ok(FIC)
    else
      assert forall c: ProductCategory :: !NamesMember(category, CategoryName(c)) by {
        forall c: ProductCategory ensures !NamesMember(category, CategoryName(c)) {
          if c.FPV? { assert CategoryName(c) == "FPV"; } else { assert CategoryName(c) == "FIC"; }
        }
      }
      Err(Domain(UnknownCategoryMessage(category)))
  }

  /** Every spelling of a category's name, in any case and with any white
      space around it, parses to that category. */
  lemma {:induction false} ParseCategoryName(c: ProductCategory, spelling: string)
    requires NamesMember(spelling, CategoryName(c))
    ensures ParseCategory(spelling) == Ok(c)
  {
    var p := ToLowerInvariant("FPV");
    var f := ToLowerInvariant("FIC");
    assert p[1] != f[1];
  }

  // ---------------------------------------------------------------------
  // Step functions: what each operation does to the stores.

  /** `CreateProductAsync`: null request, cancelled token, existing id,
      unknown category, then the product's own checks, each with its
      exception; only a product that passes them all is added, with the
      requested id, name, minimum and category. */
  function CreateProductStep(s: Store, request: Option<ProductCreateRequest>, cancelled: bool): (st: Step<Product>)
    ensures st.result.Err? ==> st.store == s
    ensures st.result.Ok? <==>
      && request.Some? && !cancelled && request.value.id !in s.products
      && ParseCategory(request.value.category).Ok?
      && !IsBlank(request.value.name) && request.value.minimumAmount > 0
    ensures request.None? ==> st.result == Err(ArgumentNull("request"))
    ensures request.Some? && cancelled ==> st.result == Err(Canceled)
    ensures request.Some? && !cancelled ==>
      var q := request.value;
      && (q.id in s.products ==> st.result == Err(Domain(ProductExistsMessage(q.id))))
      && (q.id !in s.products && ParseCategory(q.category).Err? ==>
            st.result == Err(Domain(UnknownCategoryMessage(q.category))))
      && (q.id !in s.products && ParseCategory(q.category).Ok? && IsBlank(q.name) ==>
            st.result == Err(Domain(NameRequiredMessage)))
      && (q.id !in s.products && ParseCategory(q.category).Ok? && !IsBlank(q.name) && q.minimumAmount <= 0 ==>
            st.result == Err(Domain(MinimumNotPositiveMessage)))
    ensures st.result.Ok? ==>
      var q, p := request.value, st.result.value;
      && p.id == q.id && p.name == q.name && p.minimumAmount == q.minimumAmount
      && NamesMember(q.category, CategoryName(p.category))
      && st.store == s.(products := s.products[q.id := p])
    ensures s.Valid() ==> st.store.Valid()
  {
    if request.None? then Step(s, Err(ArgumentNull("request")))
    else if cancelled then Step(s, Err(Canceled))
    else
      var q := request.value;
      if q.id in s.products then Step(s, Err(Domain(ProductExistsMessage(q.id))))
      else match ParseCategory(q.category)
        case Err(e) => Step(s, Err(e))
        case Ok(category) =>
          match NewProduct(q.id, q.name, q.minimumAmount, category)
          case Err(e) => Step(s, Err(e))
          case Ok(p) => Step(s.(products := s.products[q.id := p]), Ok(p))
  }

  /** `UpdateProductAsync`: null request, cancelled token, missing id,
      unknown category, then the product's checks, each with its exception;
      the replacement keeps the stored id and takes the requested name,
      minimum and category. */
  function UpdateProductStep(s: Store, id: int, request: Option<ProductUpdateRequest>, cancelled: bool): (st: Step<Product>)
    ensures st.result.Err? ==> st.store == s
    ensures st.result.Ok? <==>
      && request.Some? && !cancelled && id in s.products
      && ParseCategory(request.value.category).Ok?
      && !IsBlank(request.value.name) && request.value.minimumAmount > 0
    ensures request.None? ==> st.result == Err(ArgumentNull("request"))
    ensures request.Some? && cancelled ==> st.result == Err(Canceled)
    ensures request.Some? && !cancelled ==>
      var q := request.value;
      && (id !in s.products ==> st.result == Err(Domain(ProductNotFoundMessage(id))))
      && (id in s.products && ParseCategory(q.category).Err? ==>
            st.result == Err(Domain(UnknownCategoryMessage(q.category))))
      && (id in s.products && ParseCategory(q.category).Ok? && IsBlank(q.name) ==>
            st.result == Err(Domain(NameRequiredMessage)))
      && (id in s.products && ParseCategory(q.category).Ok? && !IsBlank(q.name) && q.minimumAmount <= 0 ==>
            st.result == Err(Domain(MinimumNotPositiveMessage)))
    ensures st.result.Ok? ==>
      var q, p := request.value, st.result.value;
      && p.id == s.products[id].id && p.name == q.name && p.minimumAmount == q.minimumAmount
      && NamesMember(q.category, CategoryName(p.category))
      && st.store == s.(products := s.products[id := p])
    ensures s.Valid() ==> st.store.Valid()
  {
    if request.None? then Step(s, Err(ArgumentNull("request")))
    else if cancelled then Step(s, Err(Canceled))
    else if id !in s.products then Step(s, Err(Domain(ProductNotFoundMessage(id))))
    else
      var q := request.value;
      match ParseCategory(q.category)
      case Err(e) => Step(s, Err(e))
      case Ok(category) =>
        match NewProduct(s.products[id].id, q.name, q.minimumAmount, category)
        case Err(e) => Step(s, Err(e))
        case Ok(p) => Step(s.(products := s.products[id := p]), Ok(p))
  }

  /** `DeleteProductAsync`: cancelled token, missing id, else the product is
      removed and nothing else changes. */
  function DeleteProductStep(s: Store, id: int, cancelled: bool): (st: Step<()>)
    ensures st.result.Ok? <==> !cancelled && id in s.products
    ensures cancelled ==> st.result == Err(Canceled)
    ensures !cancelled && id !in s.products ==> st.result == Err(Domain(ProductNotFoundMessage(id)))
    ensures st.result.Err? ==> st.store == s
    ensures st.result.Ok? ==> st.store == s.(products := s.products - {id})
    ensures s.Valid() ==> st.store.Valid()
  {
    if cancelled then Step(s, Err(Canceled))
    else if id !in s.products then Step(s, Err(Domain(ProductNotFoundMessage(id))))
    else Step(s.(products := s.products - {id}), Ok(()))
  }

  /** `SubscribeAsync`. Null request and cancelled token come first, then the
      product lookup, then the client lookup; the amount is the product's
      minimum, and a debit the balance cannot cover aborts before anything is
      written. Otherwise the debited client and the new active subscription
      are saved and the notification is sent; a failing notification still
      throws, after the writes. */
  function SubscribeStep(s: Store, request: Option<SubscriptionRequest>, cancelled: bool, now: DateTime,
                         newId: Guid, notifyError: Option<Error>): (st: Step<Mapper.SubscriptionDto>)
    requires s.Valid()
    ensures st.store.Valid()
    ensures request.None? ==> st == Step(s, Err(ArgumentNull("request")))
    ensures request.Some? && cancelled ==> st == Step(s, Err(Canceled))
    ensures request.Some? && !cancelled ==>
      var q := request.value;
      && (q.productId !in s.products ==> st == Step(s, Err(Domain(ProductNotFoundMessage(q.productId)))))
      && (q.productId in s.products && q.clientId !in s.clients ==>
            st == Step(s, Err(Domain(ClientNotFoundMessage(q.clientId)))))
      && (q.productId in s.products && q.clientId in s.clients ==>
            st == ChargeStep(s, q.productId, q.clientId, now, newId, notifyError))
    ensures st.result.Ok? <==>
      && request.Some? && !cancelled && request.value.productId in s.products && request.value.clientId in s.clients
      && s.clients[request.value.clientId].balance >= s.products[request.value.productId].minimumAmount
      && notifyError.None?
  {
    if request.None? then Step(s, Err(ArgumentNull("request")))
    else if cancelled then Step(s, Err(Canceled))
    else
      var q := request.value;
      if q.productId !in s.products then Step(s, Err(Domain(ProductNotFoundMessage(q.productId))))
      else if q.clientId !in s.clients then Step(s, Err(Domain(ClientNotFoundMessage(q.clientId))))
      else
        ChargeStep(s, q.productId, q.clientId, now, newId, notifyError)
  }

  /** What `SubscribeAsync` does once the product and the client are found:
      the client is debited the product's minimum amount, naming the product
      when the balance is short; only a debit that succeeds writes anything:
      the client, the new active subscription, and the notification. */
  function ChargeStep(s: Store, productId: int, clientId: Guid, now: DateTime,
                      newId: Guid, notifyError: Option<Error>): (st: Step<Mapper.SubscriptionDto>)
    requires s.Valid() && productId in s.products && clientId in s.clients
    ensures st.store.Valid()
    ensures var product, client := s.products[productId], s.clients[clientId];
      client.balance < product.minimumAmount ==>
        st == Step(s, Err(Domain(Clients.InsufficientFundsMessage(Some(product.name)))))
    ensures var product, client := s.products[productId], s.clients[clientId];
      var sub := Subscriptions.SubscriptionState(newId, clientId, productId, product.minimumAmount, now, None);
      client.balance >= product.minimumAmount ==>
        && st.store.clients == s.clients[clientId := client.(balance := client.balance - product.minimumAmount)]
        && st.store.products == s.products
        && st.store.subscriptions == s.subscriptions[newId := sub]
        && st.store.notices == s.notices + [SubscribedNotice(clientId, productId, client.channel, newId, product.minimumAmount, now)]
        && (notifyError.None? ==> st.result == Ok(Mapper.SubscriptionToDto(sub)))
        && (notifyError.Some? ==> st.result == Err(notifyError.value))
  {
    var product, client := s.products[productId], s.clients[clientId];
    var amount := product.minimumAmount;
    if client.balance < amount then Step(s, Err(Domain(Clients.InsufficientFundsMessage(Some(product.name)))))
    else
      var sub := Subscriptions.SubscriptionState(newId, client.id, product.id, amount, now, None);
      var store := Store(
        s.clients[clientId := client.(balance := client.balance - amount)],
        s.products,
        s.subscriptions[newId := sub],
        s.notices + [SubscribedNotice(client.id, product.id, client.channel, newId, amount, now)]);
      Step(store, if notifyError.Some? then Err(notifyError.value) else Ok(Mapper.SubscriptionToDto(sub)))
  }

  /** `CancelSubscriptionAsync`. The cancelled token, a missing or already
      cancelled subscription, a missing product and a missing client all
      throw before anything is written. Otherwise the subscription is marked
      cancelled at `now`, the client is credited the stored amount, and the
      notification is sent. */
  function CancelStep(s: Store, subscriptionId: Guid, cancelled: bool, now: DateTime,
                      notifyError: Option<Error>): (st: Step<Mapper.SubscriptionDto>)
    requires s.Valid()
    ensures st.store.Valid()
    ensures cancelled ==> st == Step(s, Err(Canceled))
    ensures !cancelled && subscriptionId !in s.subscriptions ==> st == Step(s, Err(Domain(SubscriptionNotFoundMessage)))
    ensures !cancelled && subscriptionId in s.subscriptions ==>
      var sub := s.subscriptions[subscriptionId];
      && (!sub.IsActive() ==> st == Step(s, Err(Domain(SubscriptionAlreadyCancelledMessage))))
      && (sub.IsActive() && sub.productId !in s.products ==> st == Step(s, Err(Domain(ProductNotFoundMessage(sub.productId)))))
      && (sub.IsActive() && sub.productId in s.products && sub.clientId !in s.clients ==>
            st == Step(s, Err(Domain(SubscriptionClientNotFoundMessage))))
    ensures st.result.Ok? <==>
      && !cancelled && subscriptionId in s.subscriptions && s.subscriptions[subscriptionId].IsActive()
      && s.subscriptions[subscriptionId].productId in s.products && s.subscriptions[subscriptionId].clientId in s.clients
      && notifyError.None?
    ensures
      && !cancelled && subscriptionId in s.subscriptions && s.subscriptions[subscriptionId].IsActive()
      && s.subscriptions[subscriptionId].productId in s.products && s.subscriptions[subscriptionId].clientId in s.clients
      ==> st == RefundStep(s, subscriptionId, now, notifyError)
  {
    if cancelled then Step(s, Err(Canceled))
    else if subscriptionId !in s.subscriptions then Step(s, Err(Domain(SubscriptionNotFoundMessage)))
    else
      var sub := s.subscriptions[subscriptionId];
      if !sub.IsActive() then Step(s, Err(Domain(SubscriptionAlreadyCancelledMessage)))
      else if sub.productId !in s.products then Step(s, Err(Domain(ProductNotFoundMessage(sub.productId))))
      else if sub.clientId !in s.clients then Step(s, Err(Domain(SubscriptionClientNotFoundMessage)))
      else
        RefundStep(s, subscriptionId, now, notifyError)
  }

  /** What `CancelSubscriptionAsync` does once every check has passed: the
      subscription is marked cancelled at `now`, its client credited the
      stored amount, and the notification sent. */
  function RefundStep(s: Store, subscriptionId: Guid, now: DateTime, notifyError: Option<Error>): (st: Step<Mapper.SubscriptionDto>)
    requires s.Valid() && subscriptionId in s.subscriptions && s.subscriptions[subscriptionId].clientId in s.clients
    ensures st.store.Valid()
    ensures var sub := s.subscriptions[subscriptionId];
      var client := s.clients[sub.clientId];
      var cancelledSub := sub.(cancelledAtUtc := Some(now));
      && st.store.clients == s.clients[sub.clientId := client.(balance := client.balance + sub.amount)]
      && st.store.products == s.products
      && st.store.subscriptions == s.subscriptions[subscriptionId := cancelledSub]
      && st.store.notices == s.notices + [CancelledNotice(sub.clientId, sub.productId, client.channel, subscriptionId, sub.amount, now)]
      && (notifyError.None? ==> st.result == Ok(Mapper.SubscriptionToDto(cancelledSub)))
      && (notifyError.Some? ==> st.result == Err(notifyError.value))
  {
    var sub := s.subscriptions[subscriptionId];
    var client := s.clients[sub.clientId];
    var cancelledSub := sub.(cancelledAtUtc := Some(now));
    var store := Store(
      s.clients[sub.clientId := client.(balance := client.balance + sub.amount)],
      s.products,
      s.subscriptions[subscriptionId := cancelledSub],
      s.notices + [CancelledNotice(client.id, sub.productId, client.channel, subscriptionId, sub.amount, now)]);
    Step(store, if notifyError.Some? then Err(notifyError.value) else Ok(Mapper.SubscriptionToDto(cancelledSub)))
  }

  // ---------------------------------------------------------------------
  // Properties of the subscription steps.

  /** A subscription that succeeds charges exactly the product's minimum,
      and adds exactly one subscription: active, for that amount, at `now`.
      Products are untouched and exactly one notice is sent. */
  lemma SubscribeEffect(s: Store, request: Option<SubscriptionRequest>, cancelled: bool, now: DateTime,
                        newId: Guid, notifyError: Option<Error>)
    requires s.Valid() && newId !in s.subscriptions
    requires SubscribeStep(s, request, cancelled, now, newId, notifyError).result.Ok?
    ensures var st := SubscribeStep(s, request, cancelled, now, newId, notifyError);
      var q := request.value;
      && q.productId in s.products && q.clientId in s.clients
      && st.store.clients == s.clients[q.clientId := s.clients[q.clientId].(balance := s.clients[q.clientId].balance - s.products[q.productId].minimumAmount)]
      && st.store.clients[q.clientId].balance >= 0
      && st.store.subscriptions.Keys == s.subscriptions.Keys + {newId}
      && st.store.subscriptions[newId].IsActive()
      && st.store.subscriptions[newId].amount == s.products[q.productId].minimumAmount
      && st.store.subscriptions[newId].subscribedAtUtc == now
      && st.store.subscriptions[newId].clientId == q.clientId
      && st.store.subscriptions[newId].productId == q.productId
      && (forall id | id in s.subscriptions :: st.store.subscriptions[id] == s.subscriptions[id])
      && st.store.products == s.products
      && |st.store.notices| == |s.notices| + 1
  {
  }

  /** Nothing is written when the subscription fails for any reason other
      than the notification; a failing notification throws after the same
      writes as a successful one. */
  lemma SubscribeFailsAtomically(s: Store, request: Option<SubscriptionRequest>, cancelled: bool, now: DateTime,
                                 newId: Guid, e: Error)
    requires s.Valid()
    ensures var st := SubscribeStep(s, request, cancelled, now, newId, None);
      st.result.Err? ==> st.store == s
    ensures var st := SubscribeStep(s, request, cancelled, now, newId, Some(e));
      st.result.Err? && st.store == SubscribeStep(s, request, cancelled, now, newId, None).store
  {
  }

  /** A cancellation that passes every check (token, subscription found and
      active, product found, client found) refunds exactly the stored amount
      to the subscription's client and no one else, marks the subscription
      cancelled at `now`, and sends one notice; any other fails without
      writing anything. */
  lemma CancelEffect(s: Store, subscriptionId: Guid, cancelled: bool, now: DateTime, notifyError: Option<Error>)
    requires s.Valid()
    ensures var st := CancelStep(s, subscriptionId, cancelled, now, notifyError);
      var passes := !cancelled && subscriptionId in s.subscriptions && s.subscriptions[subscriptionId].IsActive()
        && s.subscriptions[subscriptionId].productId in s.products && s.subscriptions[subscriptionId].clientId in s.clients;
      && (!passes ==> st.store == s && st.result.Err?)
      && (passes ==>
            var sub := s.subscriptions[subscriptionId];
            var client := s.clients[sub.clientId];
            var cancelledSub := sub.(cancelledAtUtc := Some(now));
            && st.store.subscriptions == s.subscriptions[subscriptionId := cancelledSub]
            && st.store.clients == s.clients[sub.clientId := client.(balance := client.balance + sub.amount)]
            && st.store.notices == s.notices + [CancelledNotice(sub.clientId, sub.productId, client.channel, subscriptionId, sub.amount, now)]
            && st.store.products == s.products
            && (notifyError.None? ==> st.result == Ok(Mapper.SubscriptionToDto(cancelledSub)))
            && (notifyError.Some? ==> st.result == Err(notifyError.value)))
  {
  }

  /** A second cancellation of the same subscription always fails, and
      changes nothing: cancellation is terminal. */
  lemma CancelIsTerminal(s: Store, subscriptionId: Guid, now: DateTime, later: DateTime, notifyError: Option<Error>)
    requires s.Valid()
    requires CancelStep(s, subscriptionId, false, now, notifyError).store != s
    ensures var s1 := CancelStep(s, subscriptionId, false, now, notifyError).store;
      CancelStep(s1, subscriptionId, false, later, None) == Step(s1, Err(Domain(SubscriptionAlreadyCancelledMessage)))
  {
  }

  /** Subscribing and then cancelling that subscription gives the client
      back the balance it had, leaves the subscription cancelled, and leaves
      every other client and subscription as it was. */
  lemma {:induction false} SubscribeThenCancelRestoresBalance(s: Store, request: SubscriptionRequest, now: DateTime, later: DateTime,
                                                              newId: Guid)
    requires s.Valid() && newId !in s.subscriptions
    requires SubscribeStep(s, Some(request), false, now, newId, None).result.Ok?
    ensures var s1 := SubscribeStep(s, Some(request), false, now, newId, None).store;
      var s2 := CancelStep(s1, newId, false, later, None).store;
      && CancelStep(s1, newId, false, later, None).result.Ok?
      && s2.clients == s.clients
      && s2.subscriptions == s.subscriptions[newId := s1.subscriptions[newId].(cancelledAtUtc := Some(later))]
      && !s2.subscriptions[newId].IsActive()
      && s2.products == s.products
  {
    var s1 := SubscribeStep(s, Some(request), false, now, newId, None).store;
    SubscribeEffect(s, Some(request), false, now, newId, None);
    var c := s.clients[request.clientId];
    var amount := s.products[request.productId].minimumAmount;
    assert s1.subscriptions[newId].clientId == request.clientId;
    assert s1.clients[request.clientId].balance + amount == c.balance;
    assert s1.clients[request.clientId := s1.clients[request.clientId].(balance := c.balance)] == s.clients;
  }

  // ---------------------------------------------------------------------
  // The service.

  class ProductManagementService {
    var clients: map<Guid, ClientState>
    var products: map<int, Product>
    var subscriptions: map<Guid, SubscriptionState>
    var notices: seq<Notice>

    /** The stores, as one value. */
    function Snapshot(): Store
      reads this
    {
      Store(clients, products, subscriptions, notices)
    }

    ghost predicate Valid()
      reads this
    {
      Snapshot().Valid()
    }

    constructor (clients: map<Guid, ClientState>, products: map<int, Product>)
      requires Store(clients, products, map[], []).Valid()
      ensures Snapshot() == Store(clients, products, map[], []) && Valid()
    {
      this.clients, this.products := clients, products;
      subscriptions, notices := map[], [];
    }

    /** `GetClientAsync`: the balance and channel of the default client,
        which the store always holds. */
    method GetClient(cancelled: bool) returns (r: Result<Mapper.ClientBalanceDto>)
      requires DefaultClientId in clients
      ensures r.Ok? <==> !cancelled
      ensures r.Ok? ==> r.value.balance == clients[DefaultClientId].balance
      ensures r.Ok? ==> r.value.id == clients[DefaultClientId].id
      ensures r.Ok? ==> r.value.notificationChannel == ChannelName(clients[DefaultClientId].channel)
      ensures r.Ok? ==> Mapper.ParseChannel(r.value.notificationChannel) == Ok(clients[DefaultClientId].channel)
    {
      if cancelled { return Err(Canceled); }
      return Ok(Mapper.ClientToDto(clients[DefaultClientId]));
    }

    /** `GetProductsAsync`: every stored product. */
    method GetProducts(cancelled: bool) returns (r: Result<set<Product>>)
      ensures r.Ok? <==> !cancelled
      ensures r.Ok? ==> forall p :: p in r.value <==> exists id :: id in products && products[id] == p
    {
      if cancelled { return Err(Canceled); }
      return Ok(set id | id in products :: products[id]);
    }

    /** `GetSubscriptionsAsync`: every stored subscription, mapped. */
    method GetSubscriptions(cancelled: bool) returns (r: Result<set<Mapper.SubscriptionDto>>)
      ensures r.Ok? <==> !cancelled
      ensures r.Ok? ==> forall d :: d in r.value <==> exists id :: id in subscriptions && Mapper.SubscriptionToDto(subscriptions[id]) == d
    {
      if cancelled { return Err(Canceled); }
      return Ok(set id | id in subscriptions :: Mapper.SubscriptionToDto(subscriptions[id]));
    }

    /** `GetProductByIdAsync`: the stored product, or a DomainException when
        there is none. Reads only. */
    method GetProductById(id: int, cancelled: bool) returns (r: Result<Product>)
      ensures r.Ok? <==> !cancelled && id in products
      ensures r.Ok? ==> r.value == products[id]
      ensures !cancelled && id !in products ==> r == Err(Domain(ProductNotFoundMessage(id)))
    {
      if cancelled { return Err(Canceled); }
      if id !in products { return Err(Domain(ProductNotFoundMessage(id))); }
      return Ok(products[id]);
    }

    method CreateProduct(request: Option<ProductCreateRequest>, cancelled: bool) returns (r: Result<Product>)
      requires Valid()
      modifies this`products
      ensures Step(Snapshot(), r) == CreateProductStep(old(Snapshot()), request, cancelled)
      ensures Valid()
    {
      if request.None? { return Err(ArgumentNull("request")); }
      if cancelled { return Err(Canceled); }
      var q := request.value;
      if q.id in products { return Err(Domain(ProductExistsMessage(q.id))); }
      var category := ParseCategory(q.category);
      if category.Err? { return Err(category.error); }
      var product := NewProduct(q.id, q.name, q.minimumAmount, category.value);
      if product.Err? { return Err(product.error); }
      products := products[q.id := product.value];
      return Ok(product.value);
    }

    method UpdateProduct(id: int, request: Option<ProductUpdateRequest>, cancelled: bool) returns (r: Result<Product>)
      requires Valid()
      modifies this`products
      ensures Step(Snapshot(), r) == UpdateProductStep(old(Snapshot()), id, request, cancelled)
      ensures Valid()
    {
      if request.None? { return Err(ArgumentNull("request")); }
      if cancelled { return Err(Canceled); }
      if id !in products { return Err(Domain(ProductNotFoundMessage(id))); }
      var existing := products[id];
      var q := request.value;
      var category := ParseCategory(q.category);
      if category.Err? { return Err(category.error); }
      var updated := NewProduct(existing.id, q.name, q.minimumAmount, category.value);
      if updated.Err? { return Err(updated.error); }
      products := products[id := updated.value];
      return Ok(updated.value);
    }

    method DeleteProduct(id: int, cancelled: bool) returns (r: Result<()>)
      requires Valid()
      modifies this`products
      ensures Step(Snapshot(), r) == DeleteProductStep(old(Snapshot()), id, cancelled)
      ensures Valid()
    {
      if cancelled { return Err(Canceled); }
      if id !in products { return Err(Domain(ProductNotFoundMessage(id))); }
      products := products - {id};
      return Ok(());
    }

    /** `SubscribeAsync`, on the entities: the client is debited through
        `Client.Debit` and the subscription built through its constructor. */
    method Subscribe(request: Option<SubscriptionRequest>, cancelled: bool, now: DateTime,
                     newId: Guid, notifyError: Option<Error>) returns (r: Result<Mapper.SubscriptionDto>)
      requires Valid()
      modifies this`clients, this`subscriptions, this`notices
      ensures Step(Snapshot(), r) == SubscribeStep(old(Snapshot()), request, cancelled, now, newId, notifyError)
      ensures Valid()
    {
      if request.None? {
        r := Err(ArgumentNull("request"));
      } else if cancelled {
        r := Err(Canceled);
      } else if request.value.productId !in products {
        r := Err(Domain(ProductNotFoundMessage(request.value.productId)));
      } else if request.value.clientId !in clients {
        r := Err(Domain(ClientNotFoundMessage(request.value.clientId)));
      } else {
        r := Charge(request.value.productId, request.value.clientId, now, newId, notifyError);
      }
    }

    /** The rest of `SubscribeAsync` once the product and the client are
        found: `Client.Debit`, then the subscription's constructor. */
    method Charge(productId: int, clientId: Guid, now: DateTime, newId: Guid, notifyError: Option<Error>)
      returns (r: Result<Mapper.SubscriptionDto>)
      requires Valid() && productId in products && clientId in clients
      modifies this`clients, this`subscriptions, this`notices
      ensures Step(Snapshot(), r) == ChargeStep(old(Snapshot()), productId, clientId, now, newId, notifyError)
      ensures Valid()
    {
      var product := products[productId];
      var client := new Clients.Client.FromState(clients[clientId]);
      var amount := product.minimumAmount;
      var channel := client.channel;
      var debited := client.Debit(amount, Some(product.name));
      if debited.Fail? {
        r := Err(debited.error);
      } else {
        clients := clients[clientId := client.State()];
        var created := Subscriptions.Subscription.New(newId, client.id, product.id, amount, now);
        assert created.Ok?;
        var state := created.value.State();
        subscriptions := subscriptions[newId := state];
        notices := notices + [SubscribedNotice(client.id, product.id, channel, newId, amount, now)];
        r := if notifyError.Some? then Err(notifyError.value) else Ok(Mapper.SubscriptionToDto(state));
      }
    }

    /** `CancelSubscriptionAsync`, on the entities: the subscription is
        cancelled through `Subscription.Cancel` and the client credited
        through `Client.Credit`, which cannot fail because every stored
        subscription has a positive amount. */
    method CancelSubscription(subscriptionId: Guid, cancelled: bool, now: DateTime, notifyError: Option<Error>)
      returns (r: Result<Mapper.SubscriptionDto>)
      requires Valid()
      modifies this`clients, this`subscriptions, this`notices
      ensures Step(Snapshot(), r) == CancelStep(old(Snapshot()), subscriptionId, cancelled, now, notifyError)
      ensures Valid()
    {
      if cancelled {
        r := Err(Canceled);
      } else if subscriptionId !in subscriptions {
        r := Err(Domain(SubscriptionNotFoundMessage));
      } else {
        var subscription := new Subscriptions.Subscription.FromState(subscriptions[subscriptionId]);
        if !subscription.IsActive() {
          r := Err(Domain(SubscriptionAlreadyCancelledMessage));
        } else if subscription.productId !in products {
          r := Err(Domain(ProductNotFoundMessage(subscription.productId)));
        } else if subscription.clientId !in clients {
          r := Err(Domain(SubscriptionClientNotFoundMessage));
        } else {
          r := Refund(subscriptionId, now, notifyError);
        }
      }
    }

    /** The rest of `CancelSubscriptionAsync` once every check has passed:
        `Subscription.Cancel`, then `Client.Credit`, which cannot fail
        because every stored subscription has a positive amount. */
    method Refund(subscriptionId: Guid, now: DateTime, notifyError: Option<Error>) returns (r: Result<Mapper.SubscriptionDto>)
      requires Valid() && subscriptionId in subscriptions && subscriptions[subscriptionId].IsActive()
      requires subscriptions[subscriptionId].clientId in clients
      modifies this`clients, this`subscriptions, this`notices
      ensures Step(Snapshot(), r) == RefundStep(old(Snapshot()), subscriptionId, now, notifyError)
      ensures Valid()
    {
      var subscription := new Subscriptions.Subscription.FromState(subscriptions[subscriptionId]);
      var client := new Clients.Client.FromState(clients[subscription.clientId]);
      var o := subscription.Cancel(now);
      assert o.Pass?;
      subscriptions := subscriptions[subscriptionId := subscription.State()];
      o := client.Credit(subscription.amount);
      assert o.Pass?;
      clients := clients[subscription.clientId := client.State()];
      notices := notices + [CancelledNotice(client.id, subscription.productId, client.channel, subscription.id, subscription.amount, now)];
      r := if notifyError.Some? then Err(notifyError.value) else Ok(Mapper.SubscriptionToDto(subscription.State()));
    }
  }
}
