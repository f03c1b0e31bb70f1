/** `BankBranchService`: list, read, create, update and delete bank
    branches.

    The repository is a map from id to the stored branch; the id the store
    assigns to a new branch and the cancellation token are parameters. Each
    operation is a method on the service, proved equal to a step function on
    the map, and the properties are lemmas about the step functions. */
module BankBranchManagement {
  import opened Common
  import opened Text
  import opened BankBranches

  const BranchNotFoundMessage: string := "No se encontró la sucursal solicitada."

  /** What the availability and schedule services throw when a request names
      a branch the store does not hold. */
  function BranchIdNotFoundMessage(id: int): string {
    "No se encontró la sucursal bancaria con id " + IntText(id) + "."
  }

  /** The create and the update request: a name and a city. */
  datatype BranchRequest = BranchRequest(name: string, city: string)

  /** Every stored branch is filed under its own id and passed the entity's
      guards. */
  ghost predicate ValidStore(branches: map<int, BankBranchState>) {
    forall id | id in branches :: branches[id].id == id && branches[id].Valid()
  }

  /** The store after an operation, and what it returned or threw. */
  datatype Step<T> = Step(branches: map<int, BankBranchState>, result: Result<T>)

  /** `GetByIdAsync`: the stored branch, or a NotFoundException. */
  function GetByIdResult(branches: map<int, BankBranchState>, id: int, cancelled: bool): (r: Result<BankBranchState>)
    ensures r.Ok? <==> !cancelled && id in branches
    ensures r.Ok? ==> r.value == branches[id]
    ensures !cancelled && id !in branches ==> r == Err(NotFound(BranchNotFoundMessage))
  {
    if cancelled then Err(Canceled)
    else if id !in branches then Err(NotFound(BranchNotFoundMessage))
    else Ok(branches[id])
  }

  /** `CreateAsync`: null request, cancelled token, then the entity's guards
      on the name and the city; a branch that passes is stored trimmed under
      the id the store assigns. */
  function CreateStep(branches: map<int, BankBranchState>, request: Option<BranchRequest>, cancelled: bool, newId: int)
    : (st: Step<BankBranchState>)
    requires newId !in branches
    ensures st.result.Err? ==> st.branches == branches
    ensures st.result.Ok? <==> request.Some? && !cancelled && !IsBlank(request.value.name) && !IsBlank(request.value.city)
    ensures st.result.Ok? ==>
      && st.result.value == BankBranchState(newId, Trim(request.value.name), Trim(request.value.city))
      && st.branches == branches[newId := st.result.value]
    ensures request.Some? && !cancelled && UpdateError(request.value.name, request.value.city).Some? ==>
      st.result == Err(UpdateError(request.value.name, request.value.city).value)
    ensures ValidStore(branches) ==> ValidStore(st.branches)
  {
    if request.None? then Step(branches, Err(ArgumentNull("request")))
    else if cancelled then Step(branches, Err(Canceled))
    else
      var q := request.value;
      match UpdateError(q.name, q.city)
      case Some(e) => Step(branches, Err(e))
      case None =>
        var b := BankBranchState(newId, Trim(q.name), Trim(q.city));
        TrimEmptyIffBlank(q.name);
        TrimEmptyIffBlank(q.city);
        Step(branches[newId := b], Ok(b))
  }

  /** `UpdateAsync`: null request, cancelled token, missing id, then the
      entity's guards; a branch the guards refuse is never saved, so the
      name the entity already took is not persisted. */
  function UpdateStep(branches: map<int, BankBranchState>, id: int, request: Option<BranchRequest>, cancelled: bool)
    : (st: Step<BankBranchState>)
    ensures st.result.Err? ==> st.branches == branches
    ensures st.result.Ok? <==>
      request.Some? && !cancelled && id in branches && !IsBlank(request.value.name) && !IsBlank(request.value.city)
    ensures request.Some? && !cancelled && id !in branches ==> st.result == Err(NotFound(BranchNotFoundMessage))
    ensures st.result.Ok? ==>
      && st.result.value == BankBranchState(branches[id].id, Trim(request.value.name), Trim(request.value.city))
      && st.branches == branches[id := st.result.value]
    ensures ValidStore(branches) ==> ValidStore(st.branches)
  {
    if request.None? then Step(branches, Err(ArgumentNull("request")))
    else if cancelled then Step(branches, Err(Canceled))
    else if id !in branches then Step(branches, Err(NotFound(BranchNotFoundMessage)))
    else
      var q := request.value;
      match UpdateError(q.name, q.city)
      case Some(e) => Step(branches, Err(e))
      case None =>
        var b := BankBranchState(branches[id].id, Trim(q.name), Trim(q.city));
        TrimEmptyIffBlank(q.name);
        TrimEmptyIffBlank(q.city);
        Step(branches[id := b], Ok(b))
  }

  /** `DeleteAsync`: cancelled token, missing id, else the branch is removed. */
  function DeleteStep(branches: map<int, BankBranchState>, id: int, cancelled: bool): (st: Step<()>)
    ensures st.result.Ok? <==> !cancelled && id in branches
    ensures st.result.Err? ==> st.branches == branches
    ensures !cancelled && id !in branches ==> st.result == Err(NotFound(BranchNotFoundMessage))
    ensures st.result.Ok? ==> st.branches == branches - {id}
    ensures ValidStore(branches) ==> ValidStore(st.branches)
  {
    if cancelled then Step(branches, Err(Canceled))
    else if id !in branches then Step(branches, Err(NotFound(BranchNotFoundMessage)))
    else Step(branches - {id}, Ok(()))
  }

  /** Updating a branch with the values it already holds changes nothing:
      the stored name and city are trimmed already. */
  lemma UpdateWithStoredValuesIsNoOp(branches: map<int, BankBranchState>, id: int)
    requires ValidStore(branches) && id in branches
    ensures var b := branches[id];
      UpdateStep(branches, id, Some(BranchRequest(b.name, b.city)), false) == Step(branches, Ok(b))
  {
    var b := branches[id];
    TrimOfTrimmed(b.name);
    TrimOfTrimmed(b.city);
    TrimEmptyIffBlank(b.name);
    TrimEmptyIffBlank(b.city);
    assert branches[id := b] == branches;
  }

  /** Updating twice with the same request leaves the store as updating once. */
  lemma UpdateIsIdempotent(branches: map<int, BankBranchState>, id: int, request: Option<BranchRequest>)
    ensures var once := UpdateStep(branches, id, request, false);
      UpdateStep(once.branches, id, request, false).branches == once.branches
  {
    var once := UpdateStep(branches, id, request, false);
    if once.result.Ok? {
      var b := once.result.value;
      assert once.branches[id := b] == once.branches;
    }
  }

  /** A created branch can be read back, and a deleted one cannot. */
  lemma CreateThenGetThenDelete(branches: map<int, BankBranchState>, request: Option<BranchRequest>, newId: int)
    requires newId !in branches
    ensures var created := CreateStep(branches, request, false, newId);
      && (created.result.Ok? ==> GetByIdResult(created.branches, newId, false) == created.result)
      && (created.result.Ok? ==> GetByIdResult(DeleteStep(created.branches, newId, false).branches, newId, false)
                                   == Err(NotFound(BranchNotFoundMessage)))
  {
  }

  class BankBranchService {
    var branches: map<int, BankBranchState>

    ghost predicate Valid()
      reads this
    {
      ValidStore(branches)
    }

    constructor (branches: map<int, BankBranchState>)
      requires ValidStore(branches)
      ensures this.branches == branches && Valid()
    {
      this.branches := branches;
    }

    /** `GetAsync`: every stored branch. */
    method Get(cancelled: bool) returns (r: Result<set<BankBranchState>>)
      ensures r.Ok? <==> !cancelled
      ensures r.Ok? ==> forall b :: b in r.value <==> exists id :: id in branches && branches[id] == b
    {
      if cancelled {
        r := Err(Canceled);
      } else {
        r := Ok(set id | id in branches :: branches[id]);
      }
    }

    /** `GetByIdAsync`. */
    method GetById(id: int, cancelled: bool) returns (r: Result<BankBranchState>)
      ensures r == GetByIdResult(branches, id, cancelled)
    {
      if cancelled {
        r := Err(Canceled);
      } else if id !in branches {
        r := Err(NotFound(BranchNotFoundMessage));
      } else {
        r := Ok(branches[id]);
      }
    }

    /** `CreateAsync`, through the entity's constructor. */
    method Create(request: Option<BranchRequest>, cancelled: bool, newId: int) returns (r: Result<BankBranchState>)
      requires Valid() && newId !in branches
      modifies this
      ensures Step(branches, r) == CreateStep(old(branches), request, cancelled, newId)
      ensures Valid()
    {
      if request.None? {
        r := Err(ArgumentNull("request"));
      } else if cancelled {
        r := Err(Canceled);
      } else {
        var created := BankBranch.New(request.value.name, request.value.city);
        if created.Err? {
          r := Err(created.error);
        } else {
          var branch := created.value;
          branch.id := newId;
          branches := branches[newId := branch.State()];
          r := Ok(branch.State());
        }
      }
    }

    /** `UpdateAsync`, through the entity's `Update` on the stored values. */
    method Update(id: int, request: Option<BranchRequest>, cancelled: bool) returns (r: Result<BankBranchState>)
      requires Valid()
      modifies this
      ensures Step(branches, r) == UpdateStep(old(branches), id, request, cancelled)
      ensures Valid()
    {
      if request.None? {
        r := Err(ArgumentNull("request"));
      } else if cancelled {
        r := Err(Canceled);
      } else if id !in branches {
        r := Err(NotFound(BranchNotFoundMessage));
      } else {
        var branch := new BankBranch.FromState(branches[id]);
        var o := branch.Update(request.value.name, request.value.city);
        if o.Fail? {
          r := Err(o.error);
        } else {
          branches := branches[id := branch.State()];
          r := Ok(branch.State());
        }
      }
    }

    /** `DeleteAsync`. */
    method Delete(id: int, cancelled: bool) returns (r: Result<()>)
      requires Valid()
      modifies this
      ensures Step(branches, r) == DeleteStep(old(branches), id, cancelled)
      ensures Valid()
    {
      if cancelled {
        r := Err(Canceled);
      } else if id !in branches {
        r := Err(NotFound(BranchNotFoundMessage));
      } else {
        branches := branches - {id};
        r := Ok(());
      }
    }
  }
}
