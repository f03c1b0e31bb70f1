/** `AvailabilityService`: which products each bank branch offers, with at
    most one record per (branch, product) pair.

    The repositories are a map from id to the stored availability and the
    sets of branch and product ids the other stores hold (only their
    existence is read); the id the store assigns to a new record and the
    cancellation token are parameters. */
module AvailabilityManagement {
  import opened Common
  import opened Availabilities
  import BankBranchManagement
  import PM = ProductManagement

  const AvailabilityNotFoundMessage: string := "No se encontró la disponibilidad solicitada."
  const DuplicatePairMessage: string := "Ya existe una disponibilidad para la sucursal y producto indicados."

  /** The create and the update request: a branch id and a product id. */
  datatype AvailabilityRequest = AvailabilityRequest(bankBranchId: int, productId: int)

  datatype Store = Store(availabilities: map<int, AvailabilityState>, branches: set<int>, products: set<int>)
  {
    /** Every record is filed under its own id and passed the entity's
        guards, and no two records share a (branch, product) pair. */
    ghost predicate Valid() {
      && (forall id | id in availabilities :: availabilities[id].id == id && availabilities[id].Valid())
      && UniquePairs(availabilities)
    }
  }

  /** At most one record per (branch, product) pair. */
  ghost predicate UniquePairs(availabilities: map<int, AvailabilityState>) {
    forall a, b | a in availabilities && b in availabilities && a != b ::
      availabilities[a].bankBranchId != availabilities[b].bankBranchId
      || availabilities[a].productId != availabilities[b].productId
  }

  /** Whether a record other than `self` holds the pair: the lookup
      `GetByBranchAndProductAsync` followed by the id comparison. With the
      pairs unique, the record it finds is the only holder; `CreateAsync`
      passes an id no record has, so any holder counts. */
  predicate TakenByOther(availabilities: map<int, AvailabilityState>, bankBranchId: int, productId: int, self: int) {
    exists id | id in availabilities && id != self ::
      availabilities[id].bankBranchId == bankBranchId && availabilities[id].productId == productId
  }

  /** The store after an operation, and what it returned or threw. */
  datatype Step<T> = Step(store: Store, result: Result<T>)

  /** The checks `CreateAsync` and `UpdateAsync` share, in order: the branch
      exists, the product exists, no other record holds the pair, and the
      entity accepts the ids. */
  function RequestError(s: Store, q: AvailabilityRequest, self: int): (e: Option<Error>)
    ensures e.None? <==>
      && q.bankBranchId in s.branches && q.productId in s.products
      && !TakenByOther(s.availabilities, q.bankBranchId, q.productId, self)
      && q.bankBranchId > 0 && q.productId > 0
    ensures q.bankBranchId !in s.branches ==> e == Some(Domain(BankBranchManagement.BranchIdNotFoundMessage(q.bankBranchId)))
    ensures q.bankBranchId in s.branches && q.productId !in s.products ==> e == Some(Domain(PM.ProductNotFoundMessage(q.productId)))
    ensures q.bankBranchId in s.branches && q.productId in s.products && TakenByOther(s.availabilities, q.bankBranchId, q.productId, self) ==>
      e == Some(Domain(DuplicatePairMessage))
  {
    if q.bankBranchId !in s.branches then Some(Domain(BankBranchManagement.BranchIdNotFoundMessage(q.bankBranchId)))
    else if q.productId !in s.products then Some(Domain(PM.ProductNotFoundMessage(q.productId)))
    else if TakenByOther(s.availabilities, q.bankBranchId, q.productId, self) then Some(Domain(DuplicatePairMessage))
    else UpdateError(q.bankBranchId, q.productId)
  }

  /** `GetByIdAsync`: the stored record, or a NotFoundException. */
  function GetByIdResult(s: Store, id: int, cancelled: bool): (r: Result<AvailabilityState>)
    ensures r.Ok? <==> !cancelled && id in s.availabilities
    ensures r.Ok? ==> r.value == s.availabilities[id]
    ensures !cancelled && id !in s.availabilities ==> r == Err(NotFound(AvailabilityNotFoundMessage))
  {
    if cancelled then Err(Canceled)
    else if id !in s.availabilities then Err(NotFound(AvailabilityNotFoundMessage))
    else Ok(s.availabilities[id])
  }

  /** `CreateAsync`: null request, cancelled token, then the shared checks;
      a record that passes them is added under the id the store assigns and
      nothing else changes. */
  function CreateStep(s: Store, request: Option<AvailabilityRequest>, cancelled: bool, newId: int): (st: Step<AvailabilityState>)
    requires s.Valid() && newId !in s.availabilities
    ensures st.store.Valid()
    ensures st.result.Err? ==> st.store == s
    ensures st.result.Ok? <==> request.Some? && !cancelled && RequestError(s, request.value, newId).None?
    ensures st.result.Ok? ==>
      && st.result.value == AvailabilityState(newId, request.value.bankBranchId, request.value.productId)
      && st.store == s.(availabilities := s.availabilities[newId := st.result.value])
  {
    if request.None? then Step(s, Err(ArgumentNull("request")))
    else if cancelled then Step(s, Err(Canceled))
    else
      var q := request.value;
      match RequestError(s, q, newId)
      case Some(e) => Step(s, Err(e))
      case None =>
        var a := AvailabilityState(newId, q.bankBranchId, q.productId);
        Step(s.(availabilities := s.availabilities[newId := a]), Ok(a))
  }

  /** `UpdateAsync`: null request, cancelled token, missing id (before any
      other check), then the shared checks, where the record's own pair does
      not count as taken; a record the entity refuses is never saved. */
  function UpdateStep(s: Store, id: int, request: Option<AvailabilityRequest>, cancelled: bool): (st: Step<AvailabilityState>)
    requires s.Valid()
    ensures st.store.Valid()
    ensures st.result.Err? ==> st.store == s
    ensures request.Some? && !cancelled && id !in s.availabilities ==> st.result == Err(NotFound(AvailabilityNotFoundMessage))
    ensures st.result.Ok? <==>
      request.Some? && !cancelled && id in s.availabilities && RequestError(s, request.value, id).None?
    ensures st.result.Ok? ==>
      && st.result.value == AvailabilityState(id, request.value.bankBranchId, request.value.productId)
      && st.store == s.(availabilities := s.availabilities[id := st.result.value])
  {
    if request.None? then Step(s, Err(ArgumentNull("request")))
    else if cancelled then Step(s, Err(Canceled))
    else if id !in s.availabilities then Step(s, Err(NotFound(AvailabilityNotFoundMessage)))
    else
      var q := request.value;
      match RequestError(s, q, id)
      case Some(e) => Step(s, Err(e))
      case None =>
        var a := AvailabilityState(s.availabilities[id].id, q.bankBranchId, q.productId);
        Step(s.(availabilities := s.availabilities[id := a]), Ok(a))
  }

  /** `DeleteAsync`: cancelled token, missing id, else the record is removed. */
  function DeleteStep(s: Store, id: int, cancelled: bool): (st: Step<()>)
    requires s.Valid()
    ensures st.store.Valid()
    ensures st.result.Ok? <==> !cancelled && id in s.availabilities
    ensures st.result.Err? ==> st.store == s
    ensures !cancelled && id !in s.availabilities ==> st.result == Err(NotFound(AvailabilityNotFoundMessage))
    ensures st.result.Ok? ==> st.store == s.(availabilities := s.availabilities - {id})
  {
    if cancelled then Step(s, Err(Canceled))
    else if id !in s.availabilities then Step(s, Err(NotFound(AvailabilityNotFoundMessage)))
    else Step(s.(availabilities := s.availabilities - {id}), Ok(()))
  }

  /** Creating a record for a pair some record already holds fails with the
      duplicate message and adds nothing. */
  lemma CreateRejectsTakenPair(s: Store, held: int, newId: int)
    requires s.Valid() && held in s.availabilities && newId !in s.availabilities
    requires s.availabilities[held].bankBranchId in s.branches && s.availabilities[held].productId in s.products
    ensures var a := s.availabilities[held];
      CreateStep(s, Some(AvailabilityRequest(a.bankBranchId, a.productId)), false, newId)
        == Step(s, Err(Domain(DuplicatePairMessage)))
  {
    var a := s.availabilities[held];
    assert TakenByOther(s.availabilities, a.bankBranchId, a.productId, newId);
  }

  /** Re-saving a record with its own pair is accepted and changes nothing. */
  lemma UpdateWithOwnPairIsNoOp(s: Store, id: int)
    requires s.Valid() && id in s.availabilities
    requires s.availabilities[id].bankBranchId in s.branches && s.availabilities[id].productId in s.products
    ensures var a := s.availabilities[id];
      UpdateStep(s, id, Some(AvailabilityRequest(a.bankBranchId, a.productId)), false) == Step(s, Ok(a))
  {
    var a := s.availabilities[id];
    assert !TakenByOther(s.availabilities, a.bankBranchId, a.productId, id);
    assert s.availabilities[id := a] == s.availabilities;
  }

  /** After a successful create the new record is the only holder of its
      pair: any later create for the pair is refused. */
  lemma CreatedPairIsExclusive(s: Store, request: Option<AvailabilityRequest>, newId: int, otherId: int)
    requires s.Valid() && newId !in s.availabilities && otherId != newId
    requires CreateStep(s, request, false, newId).result.Ok?
    ensures var s' := CreateStep(s, request, false, newId).store;
      otherId !in s'.availabilities ==>
        CreateStep(s', request, false, otherId) == Step(s', Err(Domain(DuplicatePairMessage)))
  {
    var s' := CreateStep(s, request, false, newId).store;
    var q := request.value;
    assert s'.availabilities[newId].bankBranchId == q.bankBranchId && s'.availabilities[newId].productId == q.productId;
    assert TakenByOther(s'.availabilities, q.bankBranchId, q.productId, otherId);
  }

  class AvailabilityService {
    var availabilities: map<int, AvailabilityState>
    var branches: set<int>
    var products: set<int>

    function Snapshot(): Store
      reads this
    {
      Store(availabilities, branches, products)
    }

    ghost predicate Valid()
      reads this
    {
      Snapshot().Valid()
    }

    constructor (availabilities: map<int, AvailabilityState>, branches: set<int>, products: set<int>)
      requires Store(availabilities, branches, products).Valid()
      ensures Snapshot() == Store(availabilities, branches, products) && Valid()
    {
      this.availabilities, this.branches, this.products := availabilities, branches, products;
    }

    /** `GetAsync`: every stored record. */
    method Get(cancelled: bool) returns (r: Result<set<AvailabilityState>>)
      ensures r.Ok? <==> !cancelled
      ensures r.Ok? ==> forall a :: a in r.value <==> exists id :: id in availabilities && availabilities[id] == a
    {
      if cancelled {
        r := Err(Canceled);
      } else {
        r := Ok(set id | id in availabilities :: availabilities[id]);
      }
    }

    /** `GetByIdAsync`. */
    method GetById(id: int, cancelled: bool) returns (r: Result<AvailabilityState>)
      ensures r == GetByIdResult(Snapshot(), id, cancelled)
    {
      if cancelled {
        r := Err(Canceled);
      } else if id !in availabilities {
        r := Err(NotFound(AvailabilityNotFoundMessage));
      } else {
        r := Ok(availabilities[id]);
      }
    }

    /** `CreateAsync`, through the entity's constructor. */
    method Create(request: Option<AvailabilityRequest>, cancelled: bool, newId: int) returns (r: Result<AvailabilityState>)
      requires Valid() && newId !in availabilities
      modifies this`availabilities
      ensures Step(Snapshot(), r) == CreateStep(old(Snapshot()), request, cancelled, newId)
      ensures Valid()
    {
      if request.None? {
        r := Err(ArgumentNull("request"));
      } else if cancelled {
        r := Err(Canceled);
      } else {
        var e := RequestError(Snapshot(), request.value, newId);
        if e.Some? {
          r := Err(e.value);
        } else {
          var created := Availability.New(request.value.bankBranchId, request.value.productId);
          assert created.Ok?;
          var availability := created.value;
          availability.id := newId;
          availabilities := availabilities[newId := availability.State()];
          r := Ok(availability.State());
        }
      }
    }

    /** `UpdateAsync`, through the entity's `Update` on the stored record. */
    method Update(id: int, request: Option<AvailabilityRequest>, cancelled: bool) returns (r: Result<AvailabilityState>)
      requires Valid()
      modifies this`availabilities
      ensures Step(Snapshot(), r) == UpdateStep(old(Snapshot()), id, request, cancelled)
      ensures Valid()
    {
      if request.None? {
        r := Err(ArgumentNull("request"));
      } else if cancelled {
        r := Err(Canceled);
      } else if id !in availabilities {
        r := Err(NotFound(AvailabilityNotFoundMessage));
      } else {
        var e := RequestError(Snapshot(), request.value, id);
        if e.Some? {
          r := Err(e.value);
        } else {
          var availability := new Availability.FromState(availabilities[id]);
          var o := availability.Update(request.value.bankBranchId, request.value.productId);
          assert o.Pass?;
          availabilities := availabilities[id := availability.State()];
          r := Ok(availability.State());
        }
      }
    }

    /** `DeleteAsync`. */
    method Delete(id: int, cancelled: bool) returns (r: Result<()>)
      requires Valid()
      modifies this`availabilities
      ensures Step(Snapshot(), r) == DeleteStep(old(Snapshot()), id, cancelled)
      ensures Valid()
    {
      if cancelled {
        r := Err(Canceled);
      } else if id !in availabilities {
        r := Err(NotFound(AvailabilityNotFoundMessage));
      } else {
        availabilities := availabilities - {id};
        r := Ok(());
      }
    }
  }
}
