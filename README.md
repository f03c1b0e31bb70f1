# Funds, products and branches: a Dafny model

This project models the business core of two small .NET back ends for an
investment-fund client portal.

- **TechnicalTest** is the larger application. Its services are:
  - `ProductManagementService`: the product catalogue, plus subscribing to a
    product and cancelling it.
  - `FundManagementService`: subscribing to funds and cancelling, recorded
    in an append-only transaction ledger.
  - `ClientService`: client accounts.
  - `AuthService`: user registration and login.
  - `BankBranchService`, `AvailabilityService` and `ScheduleService`:
    bank branches, which products each branch offers, and appointments.

  The domain entities behind them are `Client`, `User`, `Subscription`,
  `BankBranch`, `Availability`, `Schedule`, `Product` and `Fund`.
- **BTGPactual.Fondos** is an earlier, smaller version of the funds domain.
  The model covers its `Client` and `Subscription` entities and its
  `DomainToDtoMapper`.

## How the source maps to the model

- **Values.** Money is a whole number of cents, because the columns are
  `numeric(18,2)`. A `Guid` is a natural number below 2^128, and
  `Guid.Empty` is 0. A `DateTime` is a tick count plus a kind. Each
  exception the code throws is a constructor of `Common.Error`:
  `DomainException`, `NotFoundException`, `ArgumentException`,
  `ArgumentNullException`, and the cancellation a token raises.
- **Entities.** An entity whose methods update its own fields is a Dafny
  `class`. Examples are `Client.Debit`, `Subscription.Cancel` and
  `Schedule.Update`. Each method states:
  - when it throws, and which exception;
  - which fields it assigns;
  - that it keeps the entity's invariant.

  Immutable entities (`Product`, `Fund`, `Transaction`) are datatypes. Each
  class also has a `State()` datatype of the values it persists.
- **Services.** Each service is a class whose fields are its repositories:
  maps from id to stored state, plus a sequence for the ledger and the
  notifications sent. Each `…Async` method is a method of the class. It
  materialises the entities, calls their methods in the order the C# does,
  and writes the results back. Its postcondition equates the new state and
  the result with a pure step function on the stores
  (`Step(Snapshot(), r) == XStep(old(Snapshot()), …)`). The properties of
  the service are proved as lemmas about those step functions:
  - round trips;
  - idempotence;
  - atomicity of failures;
  - conservation of money;
  - uniqueness of pairs and addresses;
  - ordering of the ledger view.
- **Parameters.** The clock, fresh ids, the cancellation token and the
  outcome of the notification call are parameters of the operations.
  The password hasher and the token issuer are parameters too.

## Model

| member | source | states |
|---|---|---|
| Guards.ValidateAmount | TechnicalTest.Domain/Entities/Client.cs:110-116 | passes exactly when the amount is positive, else the fixed DomainException |
| Guards.NormalizeRequiredText | TechnicalTest.Domain/Entities/Client.cs:118-126 | accepts exactly the non-blank values and returns them trimmed (non-empty, trimmed); a blank value throws naming the field |
| Guards.NormalizeRequiredTextIdempotent | TechnicalTest.Domain/Entities/BankBranch.cs:35-43 | a value the guard returned passes it again unchanged, under any field name |
| Text.TrimStart | TechnicalTest.Domain/Entities/Client.cs:125 | the result is no longer than the input and does not start with white space |
| Text.TrimStartDropsBlankPrefix | TechnicalTest.Domain/Entities/Client.cs:125 | what `TrimStart` keeps is a suffix of the input and everything it drops is white space |
| Text.TrimEnd | TechnicalTest.Domain/Entities/Client.cs:125 | the result is no longer than the input and does not end with white space |
| Text.TrimEndDropsBlankSuffix | TechnicalTest.Domain/Entities/Client.cs:125 | what `TrimEnd` keeps is a prefix of the input and everything it drops is white space |
| Text.Trim | TechnicalTest.Domain/Entities/Client.cs:125 | the result has no white space at either end and is no longer than the input |
| Text.TrimEmptyIffBlank | TechnicalTest.Domain/Entities/Client.cs:120-125 | trimming yields the empty string exactly when the input is blank (`IsNullOrWhiteSpace`) |
| Text.TrimOfTrimmed | TechnicalTest.Domain/Entities/BankBranch.cs:35-43 | a string already trimmed at both ends is its own trim |
| Text.TrimIdempotent | TechnicalTest.Domain/Entities/BankBranch.cs:35-43 | trimming twice is trimming once |
| Text.ToLowerInvariant | TechnicalTest.Domain/Entities/Client.cs:135 | lower-casing keeps the length |
| Text.ToLowerInvariantAt | TechnicalTest.Domain/Entities/Client.cs:135 | each character of the result is the lower case of the character at the same position |
| Text.ToLowerCharFacts | TechnicalTest.Domain/Entities/Client.cs:135-137 | lower-casing a character neither creates nor removes white space, '@' or '.', and is idempotent |
| Text.ToLowerKeepsTrimmed | TechnicalTest.Domain/Entities/Client.cs:135 | a trimmed string stays trimmed when lower-cased, and lower-casing twice is lower-casing once |
| Text.NormalizeEmail | TechnicalTest.Application/Services/AuthService.cs:46 | the normal address is trimmed, no longer than the input, and empty exactly when the input is blank |
| Text.NormalizeEmailIdempotent | TechnicalTest.Application/Services/AuthService.cs:46 | normalising an address twice is normalising it once |
| Channels.TryParseChannel | TechnicalTest.Application/Mappers/DomainToDtoMapper.cs:29 | finds a channel exactly when the text, with the white space around it dropped, equals some channel's name ignoring case, and the found channel is the one named |
| Channels.ParseChannelName | TechnicalTest.Application/Mappers/DomainToDtoMapper.cs:29 | any text that names a channel (its name in any case, with any white space around it) parses to that channel |
| Mapper.ParseChannel | TechnicalTest.Application/Mappers/DomainToDtoMapper.cs:28-31 | succeeds exactly on text naming a channel up to case and surrounding white space; otherwise the ArgumentException naming the input and parameter `channel` |
| Mapper.ParseChannelAcceptsNames | TechnicalTest.Application/Mappers/DomainToDtoMapper.cs:28-31 | every spelling of a channel's name, in any case and with any white space around it, parses to that channel |
| Text.NamesMemberPadded | TechnicalTest.Application/Mappers/DomainToDtoMapper.cs:28-31 | a member name in any case, with any white space before and after it, names that member; a trimmed text that names it equals the name ignoring case |
| Mapper.FundToDto | TechnicalTest.Application/Mappers/DomainToDtoMapper.cs:9-10 | the record carries the fund's id, name and minimum, and the category by name |
| Mapper.FundToDtoInjective | TechnicalTest.Application/Mappers/DomainToDtoMapper.cs:9-10 | two funds with equal records are equal: the record loses nothing |
| Mapper.SubscriptionToDto | TechnicalTest.Application/Mappers/DomainToDtoMapper.cs:12-20 | the record copies every field, and `IsActive` holds exactly when no cancellation time is set |
| Mapper.SubscriptionToDtoRoundTrip | TechnicalTest.Application/Mappers/DomainToDtoMapper.cs:12-20 | the stored subscription can be rebuilt from its record |
| Mapper.TransactionToDto | TechnicalTest.Application/Mappers/DomainToDtoMapper.cs:22-23 | the record copies every field, and the type by name |
| Mapper.TransactionToDtoInjective | TechnicalTest.Application/Mappers/DomainToDtoMapper.cs:22-23 | two ledger entries with equal records are equal |
| Mapper.ClientToDto | TechnicalTest.Application/Mappers/DomainToDtoMapper.cs:25-26 | the record has the client's id and balance, and exactly the channel's `ToString()` name, which parses back to the client's channel |
| FondosMapper.SubscriptionToDto | BTGPactual.Fondos.Application/Mappers/DomainToDtoMapper.cs:12-13 | the record has the subscription's fixed fields and is active exactly when not cancelled |
| FondosMapper.ClientToDto | BTGPactual.Fondos.Application/Mappers/DomainToDtoMapper.cs:18-19 | the record has the client's id and balance, and exactly the channel's `ToString()` name, which parses back to its channel |
| Products.NewProduct | TechnicalTest.Domain/Entities/Product.cs:13-29 | builds the product exactly when the name is not blank and the minimum is positive; the name check comes first, each with its own message |
| Funds.NewFund | TechnicalTest.Domain/Entities/Fund.cs:13-29 | builds the fund exactly when the name is not blank and the minimum is positive; the name check comes first, each with its own message |
| Catalogs.EntriesAreBuildable | TechnicalTest.Domain/Data/ProductCatalog.cs:9-16 | every line of both built-in catalogs passes the constructor's checks, so building them never throws |
| Catalogs.GetDefaultProducts | TechnicalTest.Domain/Data/ProductCatalog.cs:9-16 | five valid products with ids 1 to 5, distinct, with categories FIC for 3 and 4 and FPV otherwise |
| Catalogs.GetDefaultFunds | BTGPactual.Fondos.Domain/Data/FundCatalog.cs:8-15 | five valid funds with ids 1 to 5, distinct, with categories FIC for 3 and 4 and FPV otherwise |
| Catalogs.CatalogMinimums | BTGPactual.Fondos.Domain/Data/FundCatalog.cs:10-14 | the minimums are 75,000, 125,000, 50,000, 250,000 and 100,000, and both catalogs agree line by line on names and minimums |
| Clients.ValidateAndNormalizeEmail | TechnicalTest.Domain/Entities/Client.cs:128-143 | accepts exactly the non-blank addresses whose normal form contains '@' and is at least 5 UTF-16 code units long, and returns that normal form; each refusal has its message |
| Clients.AstralCharacterCountsTwice | TechnicalTest.Domain/Entities/Client.cs:137 | a four-character address with one character outside the Basic Multilingual Plane is five UTF-16 units long and is accepted unchanged |
| Clients.EmailNormalFormIsStable | TechnicalTest.Domain/Entities/Client.cs:128-143 | an accepted address, validated again, is accepted unchanged |
| Clients.KeepPhoneChars | TechnicalTest.Domain/Entities/Client.cs:153 | the result is no longer than the input and holds only '+' and decimal digits of any script, as `char.IsDigit` classifies them, so its UTF-16 length is its length |
| Clients.KeepPhoneCharsCounts | TechnicalTest.Domain/Entities/Client.cs:153 | every digit and '+' is kept as often as it occurs, and no other character is kept |
| Clients.KeepPhoneCharsAppend | TechnicalTest.Domain/Entities/Client.cs:153 | the filter distributes over concatenation, so the kept characters stay in order |
| Clients.KeepPhoneCharsOfPhoneChars | TechnicalTest.Domain/Entities/Client.cs:153 | a string of digits and '+' is kept whole |
| Clients.ValidateAndNormalizePhone | TechnicalTest.Domain/Entities/Client.cs:145-162 | accepts exactly the non-blank numbers keeping 7 to 15 decimal digits (of any script) or '+', and returns those; each refusal has its message |
| Clients.PhoneNormalFormIsStable | TechnicalTest.Domain/Entities/Client.cs:145-162 | an accepted number, validated again, is accepted unchanged |
| Clients.ConstructionError | TechnicalTest.Domain/Entities/Client.cs:22-40 | the public constructor refuses exactly an empty user, a personal field its guard refuses, or a negative balance; the empty user is reported first |
| Clients.Client.Blank | TechnicalTest.Domain/Entities/Client.cs:11-20 | the parameterless constructor leaves empty texts, a zero balance and the Email channel |
| Clients.Client.New | TechnicalTest.Domain/Entities/Client.cs:22-40 | throws exactly the constructor's first error; otherwise a valid client holding the id, owner, normalised personal data, balance and channel given |
| Clients.Client.Debit | TechnicalTest.Domain/Entities/Client.cs:54-68 | passes exactly when 0 < amount <= balance and then lowers the balance by the amount; otherwise the balance is unchanged and the error says which check failed, naming the product when given |
| Clients.Client.Credit | TechnicalTest.Domain/Entities/Client.cs:70-74 | passes exactly for a positive amount and then raises the balance by it; otherwise nothing changes |
| Clients.Client.UpdatePersonalInfo | TechnicalTest.Domain/Entities/Client.cs:76-83 | the five guards in order; each field is assigned in normal form once its guard passes, so a later refusal leaves the earlier fields assigned; nothing else changes |
| Clients.Client.UpdateNameAndCity | TechnicalTest.Domain/Entities/Client.cs:78-80 | the first three guards of `UpdatePersonalInfo`, assigning each trimmed field as it passes |
| Clients.Client.UpdateContact | TechnicalTest.Domain/Entities/Client.cs:81-82 | the e-mail and phone guards, assigning each normal form as it passes |
| Clients.Client.UpdateNotificationChannel | TechnicalTest.Domain/Entities/Client.cs:85-88 | sets the channel and nothing else |
| Clients.Client.AssignUser | TechnicalTest.Domain/Entities/Client.cs:90-98 | refuses exactly the empty Guid; otherwise sets the owner, and nothing else changes |
| Clients.Client.UpdateBalance | TechnicalTest.Domain/Entities/Client.cs:100-108 | refuses exactly a negative balance; otherwise sets it, and nothing else changes |
| FondosClients.Client.New | BTGPactual.Fondos.Domain/Entities/Client.cs:10-20 | refuses exactly a negative opening balance; otherwise a valid client with the given id, balance and channel |
| FondosClients.Client.Debit | BTGPactual.Fondos.Domain/Entities/Client.cs:26-40 | passes exactly when 0 < amount <= balance and lowers the balance by it; otherwise nothing changes and the message names the fund when given |
| FondosClients.Client.Credit | BTGPactual.Fondos.Domain/Entities/Client.cs:42-46 | passes exactly for a positive amount and raises the balance by it |
| FondosClients.Client.UpdateNotificationChannel | BTGPactual.Fondos.Domain/Entities/Client.cs:48-51 | sets the channel |
| Subscriptions.Subscription.New | TechnicalTest.Domain/Entities/Subscription.cs:11-23 | refuses exactly a non-positive amount; otherwise an active subscription holding the values given |
| Subscriptions.Subscription.Cancel | TechnicalTest.Domain/Entities/Subscription.cs:33-41 | passes exactly on an active subscription and records the time; a second cancel throws and keeps the first time; afterwards it is never active |
| FondosSubscriptions.Subscription.New | BTGPactual.Fondos.Domain/Entities/Subscription.cs:11-22 | refuses exactly a non-positive amount; otherwise an active subscription holding the values given |
| FondosSubscriptions.Subscription.Cancel | BTGPactual.Fondos.Domain/Entities/Subscription.cs:31-39 | passes exactly on an active subscription and records the time; afterwards it is never active |
| Users.ShapeToPattern | TechnicalTest.Domain/Entities/User.cs:8-9 | a string passing the position check splits into local part, '@', domain, '.', suffix as the regular expression demands |
| Users.PatternToShape | TechnicalTest.Domain/Entities/User.cs:8-9 | a string the regular expression matches passes the position check |
| Users.EmailShapeMatchesPattern | TechnicalTest.Domain/Entities/User.cs:8-9 | the position check accepts exactly the strings the regular expression matches |
| Users.LowerKeepsShape | TechnicalTest.Domain/Entities/User.cs:68-71 | lower-casing an address keeps it matching the pattern |
| Users.ValidEmailNormalForm | TechnicalTest.Domain/Entities/User.cs:68-71 | a valid address matches the pattern once trimmed, and its trimmed, lower-cased form is valid too |
| Users.TrimOptional | TechnicalTest.Domain/Entities/User.cs:63-66 | no name stays no name; a given name is trimmed |
| Users.User.New | TechnicalTest.Domain/Entities/User.cs:19-43 | refuses an invalid address first, then a blank hash or salt; otherwise a valid user with the normalised address, the hash, salt, trimmed name and time |
| Users.User.UpdatePassword | TechnicalTest.Domain/Entities/User.cs:52-61 | refuses exactly a blank hash or salt; otherwise replaces both, keeping the user valid |
| Users.User.UpdateFullName | TechnicalTest.Domain/Entities/User.cs:63-66 | the stored name is the trimmed argument, or none |
| BankBranches.UpdateError | TechnicalTest.Domain/Entities/BankBranch.cs:23-33 | no error exactly when name and city are both non-blank; a blank name is reported before a blank city |
| BankBranches.BankBranch.New | TechnicalTest.Domain/Entities/BankBranch.cs:13-17 | throws the first guard's error, else a valid branch with the trimmed name and city |
| BankBranches.BankBranch.Update | TechnicalTest.Domain/Entities/BankBranch.cs:23-27 | passes exactly when both are non-blank; the name is assigned once its guard passes even if the city then fails |
| Availabilities.UpdateError | TechnicalTest.Domain/Entities/Availability.cs:21-45 | no error exactly when both ids are positive; the branch is checked first |
| Availabilities.Availability.New | TechnicalTest.Domain/Entities/Availability.cs:11-15 | throws the first guard's error, else a record holding the two ids |
| Availabilities.Availability.Update | TechnicalTest.Domain/Entities/Availability.cs:21-25 | passes exactly when both ids are positive; a valid branch id is assigned even when the product id then fails |
| Schedules.AsUtc | TechnicalTest.Domain/Entities/Schedule.cs:58 | the same instant, marked UTC |
| Schedules.UpdateError | TechnicalTest.Domain/Entities/Schedule.cs:24-59 | no error exactly when the branch id is positive, the client is not empty and the date is not `default`, checked in that order |
| Schedules.Schedule.New | TechnicalTest.Domain/Entities/Schedule.cs:12-17 | throws the first guard's error, else a valid appointment holding the ids and the date marked UTC |
| Schedules.Schedule.Update | TechnicalTest.Domain/Entities/Schedule.cs:24-29 | passes exactly when all three guards pass; the fields whose guard passed before a failure stay assigned |
| ProductManagement.ParseCategory | TechnicalTest.Application/Services/ProductManagementService.cs:168-176 | succeeds exactly on text naming a category up to case and surrounding white space; otherwise the DomainException naming the input |
| ProductManagement.ParseCategoryName | TechnicalTest.Application/Services/ProductManagementService.cs:168-176 | every spelling of a category's name, in any case and with any white space around it, parses to that category |
| ProductManagement.CreateProductStep | TechnicalTest.Application/Services/ProductManagementService.cs:56-72 | null request, cancelled token, an existing id, an unknown category, a blank name and a non-positive minimum each throw their exception, in that order, and write nothing; otherwise the stored and returned product has the requested id, name, minimum and the category the text names, and only it is added |
| ProductManagement.UpdateProductStep | TechnicalTest.Application/Services/ProductManagementService.cs:74-87 | null request, cancelled token, a missing id, an unknown category, a blank name and a non-positive minimum each throw their exception, in that order, and write nothing; otherwise only that entry is replaced, keeping its id and taking the requested name, minimum and named category |
| ProductManagement.DeleteProductStep | TechnicalTest.Application/Services/ProductManagementService.cs:89-97 | a cancelled token throws, then a missing id throws the DomainException naming it, writing nothing; otherwise succeeds and removes only that product |
| ProductManagement.SubscribeStep | TechnicalTest.Application/Services/ProductManagementService.cs:106-130 | null request, cancelled token, a missing product (checked first) and a missing client each throw their exception and write nothing; it succeeds exactly when both exist, the balance covers the product's minimum and the notification does not throw; every store invariant is kept |
| ProductManagement.ChargeStep | TechnicalTest.Application/Services/ProductManagementService.cs:117-129 | a balance below the minimum throws the insufficient-funds message naming the product and writes nothing; a covered balance debits exactly the minimum from that client, adds the active subscription for it at `now`, appends one notice, and returns its record unless the notification throws; every store invariant is kept |
| ProductManagement.CancelStep | TechnicalTest.Application/Services/ProductManagementService.cs:132-161 | a cancelled token, a missing subscription, an already cancelled one, a missing product and a missing client each throw their exception, in that order, and write nothing; when all checks pass it is exactly the refund below; it succeeds exactly when all checks pass and the notification does not throw; every store invariant is kept |
| ProductManagement.RefundStep | TechnicalTest.Application/Services/ProductManagementService.cs:149-160 | the subscription is marked cancelled at `now`, its client (and no other) is credited exactly the stored amount, the products are kept and one cancellation notice is appended; the record of the cancelled subscription is returned unless the notification throws; every store invariant is kept |
| ProductManagement.SubscribeEffect | TechnicalTest.Application/Services/ProductManagementService.cs:117-127 | a successful subscription debits the client exactly the product's minimum, adds exactly one active subscription for that client, product, amount and time, keeps all other subscriptions and the products, and sends one notice |
| ProductManagement.SubscribeFailsAtomically | TechnicalTest.Application/Services/ProductManagementService.cs:106-130 | a failure before the notification writes nothing; a failing notification throws after the same writes as a success |
| ProductManagement.CancelEffect | TechnicalTest.Application/Services/ProductManagementService.cs:132-161 | a cancellation that fails any check writes nothing and throws; one that passes them all marks the subscription cancelled at `now`, credits exactly the stored amount to its client and changes no other client, appends one notice, keeps the products, and returns the cancelled record unless the notification throws |
| ProductManagement.CancelIsTerminal | TechnicalTest.Application/Services/ProductManagementService.cs:138-141 | after a cancellation, cancelling again throws "already cancelled" and changes nothing |
| ProductManagement.SubscribeThenCancelRestoresBalance | TechnicalTest.Application/Services/ProductManagementService.cs:106-161 | subscribing then cancelling gives every client back its balance and leaves only the new subscription, cancelled |
| ProductManagement.ProductManagementService.constructor | TechnicalTest.Application/Services/ProductManagementService.cs:20-32 | the service starts with the given clients and products, no subscriptions and no notices |
| ProductManagement.ProductManagementService.GetClient | TechnicalTest.Application/Services/ProductManagementService.cs:34-39 | the default client's id, balance and exactly its channel's name, which parses back to its channel |
| ProductManagement.ProductManagementService.GetProducts | TechnicalTest.Application/Services/ProductManagementService.cs:41-46 | exactly the stored products |
| ProductManagement.ProductManagementService.GetProductById | TechnicalTest.Application/Services/ProductManagementService.cs:48-54 | the stored product, or the DomainException naming the id |
| ProductManagement.ProductManagementService.GetSubscriptions | TechnicalTest.Application/Services/ProductManagementService.cs:99-104 | exactly the records of the stored subscriptions |
| ProductManagement.ProductManagementService.CreateProduct | TechnicalTest.Application/Services/ProductManagementService.cs:56-72 | new stores and result are those of `CreateProductStep`, and the invariant holds |
| ProductManagement.ProductManagementService.UpdateProduct | TechnicalTest.Application/Services/ProductManagementService.cs:74-87 | new stores and result are those of `UpdateProductStep` |
| ProductManagement.ProductManagementService.DeleteProduct | TechnicalTest.Application/Services/ProductManagementService.cs:89-97 | new stores and result are those of `DeleteProductStep` |
| ProductManagement.ProductManagementService.Subscribe | TechnicalTest.Application/Services/ProductManagementService.cs:106-130 | new stores and result are those of `SubscribeStep`, through `Client.Debit` and the subscription constructor |
| ProductManagement.ProductManagementService.Charge | TechnicalTest.Application/Services/ProductManagementService.cs:117-129 | new stores and result are those of `ChargeStep` |
| ProductManagement.ProductManagementService.CancelSubscription | TechnicalTest.Application/Services/ProductManagementService.cs:132-161 | new stores and result are those of `CancelStep`, through `Subscription.Cancel` and `Client.Credit` |
| ProductManagement.ProductManagementService.Refund | TechnicalTest.Application/Services/ProductManagementService.cs:149-160 | new stores and result are those of `RefundStep` |
| FundManagement.Commit | TechnicalTest.Application/Services/FundManagementService.cs:85-92 | the writes of a success keep every store invariant: the client and the subscription are saved under their ids, exactly one ledger entry is appended, and the funds are kept |
| FundManagement.SubscribeStep | TechnicalTest.Application/Services/FundManagementService.cs:67-97 | keeps every store invariant, including that every ledger entry belongs to a stored subscription |
| FundManagement.ChargeStep | TechnicalTest.Application/Services/FundManagementService.cs:80-96 | keeps every store invariant |
| FundManagement.SubscribeStepRejects | TechnicalTest.Application/Services/FundManagementService.cs:69-84 | a request refused before the debit (null, cancelled, unknown fund, below the minimum, unknown channel) throws and writes nothing |
| FundManagement.SubscribeStepCharges | TechnicalTest.Application/Services/FundManagementService.cs:75-84 | an admitted request goes on to the debit with the requested amount and the parsed channel |
| FundManagement.ChargeStepShort | TechnicalTest.Application/Services/FundManagementService.cs:84 | a balance below the amount throws the insufficient-funds message naming the fund and writes nothing |
| FundManagement.ChargeStepCommits | TechnicalTest.Application/Services/FundManagementService.cs:83-96 | a covered amount sets the channel, debits the client, stores the active subscription, appends one `Subscription` entry and one notice |
| FundManagement.CancelStep | TechnicalTest.Application/Services/FundManagementService.cs:99-128 | a cancelled token, a missing subscription, an already cancelled one, a missing fund and a missing client each throw their exception, in that order, and write nothing; it succeeds exactly when all checks pass, and is then the refund below; every store invariant is kept |
| FundManagement.RefundStep | TechnicalTest.Application/Services/FundManagementService.cs:116-127 | the subscription is marked cancelled at `now`, its client (and no other) is credited exactly the stored amount, one `Cancellation` entry for that amount is appended, funds and notices are kept, and the cancelled record is returned; every store invariant is kept |
| FundManagement.ClientTransactions | TechnicalTest.Infrastructure/Persistence/Repositories/TransactionRepository.cs:12-27 | exactly the ledger entries that belong to one of the client's subscriptions |
| FundManagement.ChargedFrame | TechnicalTest.Infrastructure/Persistence/Repositories/TransactionRepository.cs:14-21 | what a client's ledger entries charge depends only on which client each referenced subscription has |
| FundManagement.CommitCharged | TechnicalTest.Application/Services/FundManagementService.cs:91-92 | committing one entry changes its client's net charge by the entry's signed amount and no other client's |
| FundManagement.SubscribeConservesMoney | TechnicalTest.Application/Services/FundManagementService.cs:84-92 | for every client, balance plus net charge in the ledger is the same before and after a subscription |
| FundManagement.ChargeConservesMoney | TechnicalTest.Application/Services/FundManagementService.cs:84-92 | the same conservation for the debit step |
| FundManagement.CancelConservesMoney | TechnicalTest.Application/Services/FundManagementService.cs:121-125 | the same conservation for a cancellation: the refund equals what the entry gives back |
| FundManagement.InsertNewestFirstCount | TechnicalTest.Application/Services/FundManagementService.cs:64 | inserting adds exactly the record to the multiset |
| FundManagement.InsertNewestFirstFrom | TechnicalTest.Application/Services/FundManagementService.cs:64 | every record after insertion is the inserted one or was there before |
| FundManagement.InsertNewestFirstSorted | TechnicalTest.Application/Services/FundManagementService.cs:64 | inserting into a newest-first list keeps it newest first |
| FundManagement.SortNewestFirstFacts | TechnicalTest.Application/Services/FundManagementService.cs:64 | the sort is newest first and a permutation of its input |
| FundManagement.TransactionDtos | TechnicalTest.Application/Services/FundManagementService.cs:64 | one record per entry, position by position |
| FundManagement.TransactionsViewFacts | TechnicalTest.Application/Services/FundManagementService.cs:59-65 | the view is newest first and holds a record for exactly the default client's ledger entries |
| FundManagement.TransactionDtoIn | TechnicalTest.Application/Services/FundManagementService.cs:64 | an entry's record is among the records exactly when the entry is in the ledger |
| FundManagement.SubscribeEffect | TechnicalTest.Application/Services/FundManagementService.cs:80-96 | a success debits the default client exactly the requested amount, sets the channel, adds one active subscription and appends exactly one matching `Subscription` entry; the ledger is only appended to |
| FundManagement.SubscribeFailsAtomically | TechnicalTest.Application/Services/FundManagementService.cs:67-97 | a failure before the notification writes nothing; a failing notification throws after the same writes as a success |
| FundManagement.CancelEffect | TechnicalTest.Application/Services/FundManagementService.cs:99-128 | a cancellation that fails any check writes nothing and throws; one that passes them all credits exactly the stored amount to its client and no other, marks the subscription cancelled at `now`, appends one `Cancellation` entry and returns the cancelled record; it never notifies |
| FundManagement.SubscribeThenCancelRestoresBalance | TechnicalTest.Application/Services/FundManagementService.cs:67-128 | subscribing then cancelling restores the default client's balance and leaves the charge and the refund, same amount, in the ledger |
| FundManagement.FundManagementService.constructor | TechnicalTest.Application/Services/FundManagementService.cs:21-35 | the service starts with the given clients and funds, no subscriptions, an empty ledger and no notices |
| FundManagement.FundManagementService.GetClient | TechnicalTest.Application/Services/FundManagementService.cs:37-42 | the default client's id, balance and exactly its channel's name, which parses back to its channel |
| FundManagement.FundManagementService.GetFunds | TechnicalTest.Application/Services/FundManagementService.cs:44-49 | exactly the records of the stored funds |
| FundManagement.FundManagementService.GetSubscriptions | TechnicalTest.Application/Services/FundManagementService.cs:51-57 | exactly the records of the default client's subscriptions |
| FundManagement.FundManagementService.GetTransactions | TechnicalTest.Application/Services/FundManagementService.cs:59-65 | the default client's ledger records, newest first, and exactly those |
| FundManagement.FundManagementService.Subscribe | TechnicalTest.Application/Services/FundManagementService.cs:67-97 | new stores and result are those of `SubscribeStep` |
| FundManagement.FundManagementService.ChargeDefaultClient | TechnicalTest.Application/Services/FundManagementService.cs:80-85 | through `Client.Debit`: passes exactly when 0 < amount <= balance and then stores the client with the channel and the lowered balance; otherwise nothing is written |
| FundManagement.FundManagementService.SubscribeDefaultClient | TechnicalTest.Application/Services/FundManagementService.cs:80-96 | new stores and result are those of `ChargeStep` |
| FundManagement.FundManagementService.CancelSubscription | TechnicalTest.Application/Services/FundManagementService.cs:99-128 | new stores and result are those of `CancelStep` |
| FundManagement.FundManagementService.Refund | TechnicalTest.Application/Services/FundManagementService.cs:116-127 | new stores and result are those of `RefundStep` |
| ClientManagement.ToClientDtoRoundTrip | TechnicalTest.Application/Services/ClientService.cs:30 | the returned channel name parses back to the stored channel |
| ClientManagement.ChannelOrDefault | TechnicalTest.Application/Services/ClientService.cs:38 | no name or a blank name gives the default; any other name is parsed |
| ClientManagement.StoreKeepsValid | TechnicalTest.Application/Services/ClientService.cs:50 | storing an owned client with a non-negative balance under its id keeps the store valid |
| ClientManagement.GetByIdResult | TechnicalTest.Application/Services/ClientService.cs:25-31 | the stored client's record, or the NotFoundException |
| ClientManagement.CreateStep | TechnicalTest.Application/Services/ClientService.cs:33-52 | succeeds exactly when the channel parses and the constructor accepts; then only the new client is stored, with normalised data, the requested or initial balance, the creation time, and Email when no or a blank channel name is given, else the channel the name parses to; a failure writes nothing |
| ClientManagement.OptionalFieldsError | TechnicalTest.Application/Services/ClientService.cs:64-78 | no error exactly when a given owner is not empty, a given balance not negative and a non-blank channel parses; the owner is checked first |
| ClientManagement.UpdatedChannel | TechnicalTest.Application/Services/ClientService.cs:74-78 | no or a blank name keeps the channel; a parsed name gives the channel it names |
| ClientManagement.Updated | TechnicalTest.Application/Services/ClientService.cs:62-78 | the updated client has the normalised personal data, the owner and balance only where given, and the same id and creation time |
| ClientManagement.UpdateKeepsValid | TechnicalTest.Application/Services/ClientService.cs:62-80 | an accepted update keeps the store valid |
| ClientManagement.UpdateStep | TechnicalTest.Application/Services/ClientService.cs:54-82 | a missing id throws NotFound; success exactly when every guard passes, replacing only that client; a refused update writes nothing |
| ClientManagement.DeleteStep | TechnicalTest.Application/Services/ClientService.cs:84-91 | succeeds exactly when the id is stored, and removes only it |
| ClientManagement.UpdatedTwice | TechnicalTest.Application/Services/ClientService.cs:62-78 | applying the same update twice is applying it once |
| ClientManagement.AcceptedUpdate | TechnicalTest.Application/Services/ClientService.cs:54-82 | an accepted update of a stored client stores and returns the updated client |
| ClientManagement.UpdateIsIdempotent | TechnicalTest.Application/Services/ClientService.cs:54-82 | repeating an accepted update changes nothing more |
| ClientManagement.ResubmitIsNoOp | TechnicalTest.Domain/Entities/Client.cs:76-83 | the personal data an update stores passes every guard again and is left unchanged |
| ClientManagement.UpdatedDataIsStable | TechnicalTest.Application/Services/ClientService.cs:54-82 | sending back the stored data leaves the store as it is |
| ClientManagement.StableText | TechnicalTest.Domain/Entities/Client.cs:118-126 | a stored required text passes its guard again unchanged |
| ClientManagement.CreateThenGetThenDelete | TechnicalTest.Application/Services/ClientService.cs:25-91 | a created client reads back as returned, and deleting it restores the store |
| ClientManagement.Apply | TechnicalTest.Application/Services/ClientService.cs:62-78 | the mutator calls throw exactly the first guard error of the request, else leave the updated client |
| ClientManagement.UpdatedFromFields | TechnicalTest.Application/Services/ClientService.cs:62-78 | a client that took every field an accepted update sets, and kept the rest, is the updated client |
| ClientManagement.ApplyPersonalInfo | TechnicalTest.Application/Services/ClientService.cs:62 | the personal-data call throws the first guard error, else stores the five fields in normal form |
| ClientManagement.ApplyOptionalFields | TechnicalTest.Application/Services/ClientService.cs:64-78 | the owner, balance and channel calls throw the first error, else set exactly the fields given |
| ClientManagement.ClientService.constructor | TechnicalTest.Application/Services/ClientService.cs:14-16 | the service starts with the given valid store |
| ClientManagement.ClientService.Get | TechnicalTest.Application/Services/ClientService.cs:18-23 | exactly the records of the stored clients |
| ClientManagement.ClientService.GetById | TechnicalTest.Application/Services/ClientService.cs:25-31 | the result of `GetByIdResult` |
| ClientManagement.ClientService.Create | TechnicalTest.Application/Services/ClientService.cs:33-52 | new store and result are those of `CreateStep`, through the `Client` constructor |
| ClientManagement.ClientService.Update | TechnicalTest.Application/Services/ClientService.cs:54-82 | new store and result are those of `UpdateStep`, through the entity's mutators |
| ClientManagement.ClientService.Delete | TechnicalTest.Application/Services/ClientService.cs:84-91 | new store and result are those of `DeleteStep` |
| Authentication.EmailsAreUnique | TechnicalTest.Application/Services/AuthService.cs:47-52 | in a valid store no two users share an address |
| Authentication.FindByEmail | TechnicalTest.Application/Services/AuthService.cs:47 | finds a user exactly when one holds the address, and returns that stored user |
| Authentication.RegisterStep | TechnicalTest.Application/Services/AuthService.cs:30-62 | succeeds exactly when both fields are non-blank, the normalised address is free and valid and the hash and salt are not blank; each refusal has its message; success stores only the new user, issues its token, and writes nothing on failure |
| Authentication.AddUserStep | TechnicalTest.Application/Services/AuthService.cs:54-61 | the constructor's guards, then only the new user is stored and a token issued for it |
| Authentication.Registered | TechnicalTest.Application/Services/AuthService.cs:58 | adding a user with a new id and a new address keeps the store and its address index consistent |
| Authentication.LoginResult | TechnicalTest.Application/Services/AuthService.cs:64-88 | succeeds exactly when a stored user holds the normalised address and the password verifies, returning that user and its token; every other refusal is the same "invalid credentials" message |
| Authentication.GetProfileResult | TechnicalTest.Application/Services/AuthService.cs:90-98 | the stored user, or the DomainException |
| Authentication.RegisterThenLogin | TechnicalTest.Application/Services/AuthService.cs:30-88 | a registered user logs in with the same password under any spelling that normalises alike, and gets the response the registration returned |
| Authentication.RegisterTwiceIsRefused | TechnicalTest.Application/Services/AuthService.cs:46-52 | registering an address again, under any spelling that normalises alike, is refused as duplicate and stores nothing |
| Authentication.AuthService.constructor | TechnicalTest.Application/Services/AuthService.cs:18-28 | the service starts with the given valid store |
| Authentication.AuthService.Register | TechnicalTest.Application/Services/AuthService.cs:30-62 | new store and result are those of `RegisterStep` |
| Authentication.AuthService.AddUser | TechnicalTest.Application/Services/AuthService.cs:54-61 | new store and result are those of `AddUserStep`, through the `User` constructor |
| Authentication.AuthService.Login | TechnicalTest.Application/Services/AuthService.cs:64-88 | the result of `LoginResult`; nothing changes |
| Authentication.AuthService.GetProfile | TechnicalTest.Application/Services/AuthService.cs:90-98 | the result of `GetProfileResult` |
| BankBranchManagement.GetByIdResult | TechnicalTest.Application/Services/BankBranchService.cs:22-29 | the stored branch, or the NotFoundException |
| BankBranchManagement.CreateStep | TechnicalTest.Application/Services/BankBranchService.cs:31-40 | succeeds exactly when name and city are not blank; stores only the trimmed branch under the new id; a failure writes nothing; the store stays valid |
| BankBranchManagement.UpdateStep | TechnicalTest.Application/Services/BankBranchService.cs:42-54 | a missing id throws NotFound; success replaces only that branch with the trimmed values; a refusal writes nothing |
| BankBranchManagement.DeleteStep | TechnicalTest.Application/Services/BankBranchService.cs:56-63 | succeeds exactly when the id is stored, and removes only it |
| BankBranchManagement.UpdateWithStoredValuesIsNoOp | TechnicalTest.Application/Services/BankBranchService.cs:42-54 | updating a branch with its own values succeeds and changes nothing |
| BankBranchManagement.UpdateIsIdempotent | TechnicalTest.Application/Services/BankBranchService.cs:42-54 | updating twice with the same request leaves the store as updating once |
| BankBranchManagement.CreateThenGetThenDelete | TechnicalTest.Application/Services/BankBranchService.cs:22-63 | a created branch reads back as returned, and a deleted one is not found |
| BankBranchManagement.BankBranchService.constructor | TechnicalTest.Application/Services/BankBranchService.cs:11-13 | the service starts with the given valid store |
| BankBranchManagement.BankBranchService.Get | TechnicalTest.Application/Services/BankBranchService.cs:15-20 | exactly the stored branches |
| BankBranchManagement.BankBranchService.GetById | TechnicalTest.Application/Services/BankBranchService.cs:22-29 | the result of `GetByIdResult` |
| BankBranchManagement.BankBranchService.Create | TechnicalTest.Application/Services/BankBranchService.cs:31-40 | new store and result are those of `CreateStep`, through the entity's constructor |
| BankBranchManagement.BankBranchService.Update | TechnicalTest.Application/Services/BankBranchService.cs:42-54 | new store and result are those of `UpdateStep`, through the entity's `Update` |
| BankBranchManagement.BankBranchService.Delete | TechnicalTest.Application/Services/BankBranchService.cs:56-63 | new store and result are those of `DeleteStep` |
| AvailabilityManagement.RequestError | TechnicalTest.Application/Services/AvailabilityService.cs:43-118 | no error exactly when the branch and product exist, no other record holds the pair and the ids pass the entity's guards, checked in that order |
| AvailabilityManagement.GetByIdResult | TechnicalTest.Application/Services/AvailabilityService.cs:34-41 | the stored record, or the NotFoundException |
| AvailabilityManagement.CreateStep | TechnicalTest.Application/Services/AvailabilityService.cs:43-64 | succeeds exactly when the shared checks pass; stores only the new record under the new id; keeps at most one record per pair; a failure writes nothing |
| AvailabilityManagement.UpdateStep | TechnicalTest.Application/Services/AvailabilityService.cs:66-90 | a missing id throws NotFound first; success replaces only that record; pairs stay unique; a failure writes nothing |
| AvailabilityManagement.DeleteStep | TechnicalTest.Application/Services/AvailabilityService.cs:92-100 | succeeds exactly when the id is stored, and removes only it |
| AvailabilityManagement.CreateRejectsTakenPair | TechnicalTest.Application/Services/AvailabilityService.cs:43-64 | creating a record for a pair already held fails with the duplicate message and writes nothing |
| AvailabilityManagement.UpdateWithOwnPairIsNoOp | TechnicalTest.Application/Services/AvailabilityService.cs:66-90 | re-saving a record with its own pair succeeds and changes nothing |
| AvailabilityManagement.CreatedPairIsExclusive | TechnicalTest.Application/Services/AvailabilityService.cs:43-64 | after a create no other record holds the new pair |
| AvailabilityManagement.AvailabilityService.constructor | TechnicalTest.Application/Services/AvailabilityService.cs:17-25 | the service starts with the given valid stores |
| AvailabilityManagement.AvailabilityService.Get | TechnicalTest.Application/Services/AvailabilityService.cs:27-32 | exactly the stored records |
| AvailabilityManagement.AvailabilityService.GetById | TechnicalTest.Application/Services/AvailabilityService.cs:34-41 | the result of `GetByIdResult` |
| AvailabilityManagement.AvailabilityService.Create | TechnicalTest.Application/Services/AvailabilityService.cs:43-64 | new store and result are those of `CreateStep`, through the entity's constructor |
| AvailabilityManagement.AvailabilityService.Update | TechnicalTest.Application/Services/AvailabilityService.cs:66-90 | new store and result are those of `UpdateStep`, through the entity's `Update` |
| AvailabilityManagement.AvailabilityService.Delete | TechnicalTest.Application/Services/AvailabilityService.cs:92-100 | new store and result are those of `DeleteStep` |
| ScheduleManagement.RequestError | TechnicalTest.Application/Services/ScheduleService.cs:43-100 | no error exactly when the branch and client exist and the entity's guards pass, checked in that order |
| ScheduleManagement.GetByIdResult | TechnicalTest.Application/Services/ScheduleService.cs:34-41 | the stored appointment, or the NotFoundException |
| ScheduleManagement.CreateStep | TechnicalTest.Application/Services/ScheduleService.cs:43-55 | succeeds exactly when the shared checks pass; stores only the new appointment with the requested branch, client and instant; a failure writes nothing |
| ScheduleManagement.UpdateStep | TechnicalTest.Application/Services/ScheduleService.cs:57-72 | a missing id throws NotFound before other checks; success replaces all three fields at once with the date marked UTC; a failure writes nothing |
| ScheduleManagement.DeleteStep | TechnicalTest.Application/Services/ScheduleService.cs:74-82 | succeeds exactly when the id is stored, and removes only it |
| ScheduleManagement.UpdateWithStoredValuesIsNoOp | TechnicalTest.Application/Services/ScheduleService.cs:57-72 | updating an appointment with its own values succeeds and changes nothing |
| ScheduleManagement.CreateThenUpdateSameRequest | TechnicalTest.Application/Services/ScheduleService.cs:43-72 | a created appointment reads back as created, and the same request then updates it to itself |
| ScheduleManagement.ScheduleService.constructor | TechnicalTest.Application/Services/ScheduleService.cs:17-25 | the service starts with the given valid stores |
| ScheduleManagement.ScheduleService.Get | TechnicalTest.Application/Services/ScheduleService.cs:27-32 | exactly the stored appointments |
| ScheduleManagement.ScheduleService.GetById | TechnicalTest.Application/Services/ScheduleService.cs:34-41 | the result of `GetByIdResult` |
| ScheduleManagement.ScheduleService.Create | TechnicalTest.Application/Services/ScheduleService.cs:43-55 | new store and result are those of `CreateStep`, through the entity's constructor |
| ScheduleManagement.ScheduleService.Update | TechnicalTest.Application/Services/ScheduleService.cs:57-72 | new store and result are those of `UpdateStep`, through the entity's `Update` |
| ScheduleManagement.ScheduleService.Delete | TechnicalTest.Application/Services/ScheduleService.cs:74-82 | new store and result are those of `DeleteStep` |

## Left out

- Persistence, `async` and Entity Framework tracking. Each repository is a map, and a save is an assignment. Two consequences:
  - The repositories' `OrderBy` clauses (branches by name, availabilities by branch, clients by first name, appointments by date, subscriptions by subscription time) are not modelled; `GetAllAsync` results are sets.
  - A write that an operation makes before throwing is modelled where the C# saves it: the debit in a subscription whose notification fails is kept.
- Cancellation writes happen together in the model. `CancelSubscriptionAsync` saves the subscription before it credits the client. The model commits both as one step, so a failure between the two saves is not represented.
- The clock, `Guid.NewGuid`, the cancellation token and the notification services are parameters. The model records that a notification was attempted and whether it threw. It does not model what the notification delivered.
- The password hasher and `IJwtProvider.GenerateToken` are function parameters with no contract beyond being deterministic. `AuthResponse` holds the stored user where the source holds `user.ToDto()`, because the `UserDto` mapping is not part of this model.
- `GetDefaultAsync` (which creates the default client when it is missing) is not modelled. The fund and product stores hold the default client from the start, through `Valid` or a precondition.
- The `:C` currency format in the minimum-amount message is rendered as plain digits with two decimals, because the culture's currency formatting is not modelled.
- `ToLowerInvariant` and `char.IsWhiteSpace` cover ASCII, Latin-1 and the Unicode space separators. Other scripts' case mappings are not modelled. `char.IsDigit` is the Unicode 15 table of decimal digits in the Basic Multilingual Plane. A Dafny string holds Unicode scalar values; where the source compares `Length`, the model counts UTF-16 code units with `Text.Utf16Length`.
- `Enum.TryParse` also accepts numeric strings such as "0" and comma-separated flag lists. The model accepts only a single name, in any case, with any white space around it.
- Source inconsistencies the model resolves one way:
  - `ClientService` calls `ParseChannelOrDefault`, which is defined nowhere in the source. It is modelled as "no or blank name gives the default, else `ParseChannel`".
  - `ClientService.CreateAsync` passes arguments that do not line up with the `Client` constructor, and `UpdateAsync` calls a four-argument `UpdatePersonalInfo`. The model passes all five personal fields (including the phone) in the constructor's order.
  - `ToClientDto` is not in the source. It is modelled as the client's fields with the channel by name.
  - `FundManagementService` and the TechnicalTest mapper read `Subscription.FundId`, which the TechnicalTest `Subscription` does not have. The model reads `ProductId`, which holds the fund id the subscription was created with.
  - `FundCatalog` builds the BTGPactual.Fondos `Fund` entity, whose source is not part of this model. It is modelled with the TechnicalTest `Fund`, whose constructor has the same shape.
  - `SubscriptionRequestDto` has only `ProductId`, `Amount` and `NotificationChannel`, but `ProductManagementService.SubscribeAsync` reads `request.ClientId` and `FundManagementService.SubscribeAsync` reads `request.FundId`. The model gives each service the request it reads: a product id and a client id for products, and a fund id, an amount and a channel name for funds.
  - `NotifyAsync` takes different arguments in the two services. The model records the client, the fund or product, the channel and, for products, the subscription's id, amount and time.
- `ToDto` of `Availability`, `BankBranch` and `Schedule`, and `ProductDto`, are the identity on the stored values. The services return those values.
- Id generation for branches, availabilities and schedules comes from the database, so it is a parameter required not to be in use.
- `Authentication.Store.Valid` assumes that the e-mail column is unique and indexed, as the user table's configuration declares. A store that breaks this is outside the model.
- The unique index on an appointment's branch, client and date (TechnicalTest.Infrastructure/Persistence/Configurations/ScheduleConfiguration.cs:41-43) makes the database refuse a second appointment for the same three values. The service does not check it, and `ScheduleManagement.CreateStep` and `UpdateStep` accept the duplicate, because the database's exception is not modelled.
- Column length limits (`HasMaxLength` in the entity configurations) and the request records' validation attributes (`Required`, `Range`, `MaxLength`) are enforced by the database and by ASP.NET model binding before a service runs, and are not modelled.
- Controllers, `Program.cs` wiring, SNS and EventBridge publishing, and JWT validation are not part of this model.
