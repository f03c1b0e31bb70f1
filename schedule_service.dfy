/** `ScheduleService`: appointments of clients at bank branches.

    The repositories are a map from id to the stored appointment and the
    sets of branch and client ids the other stores hold (only their
    existence is read); the id the store assigns to a new appointment and
    the cancellation token are parameters. */
module ScheduleManagement {
  import opened Common
  import opened Schedules
  import BankBranchManagement
  import PM = ProductManagement

  const ScheduleNotFoundMessage: string := "No se encontró la cita solicitada."

  /** The create and the update request. */
  datatype ScheduleRequest = ScheduleRequest(bankBranchId: int, clientId: Guid, appointmentDate: DateTime)

  datatype Store = Store(schedules: map<int, ScheduleState>, branches: set<int>, clients: set<Guid>)
  {
    /** Every appointment is filed under its own id and passed the entity's
        guards. */
    ghost predicate Valid() {
      forall id | id in schedules :: schedules[id].id == id && schedules[id].Valid()
    }
  }

  /** The store after an operation, and what it returned or threw. */
  datatype Step<T> = Step(store: Store, result: Result<T>)

  /** The checks `CreateAsync` and `UpdateAsync` share, in order: the branch
      exists, the client exists, then the entity's three guards. */
  function RequestError(s: Store, q: ScheduleRequest): (e: Option<Error>)
    ensures e.None? <==>
      && q.bankBranchId in s.branches && q.clientId in s.clients
      && UpdateError(q.bankBranchId, q.clientId, q.appointmentDate).None?
    ensures q.bankBranchId !in s.branches ==> e == Some(Domain(BankBranchManagement.BranchIdNotFoundMessage(q.bankBranchId)))
    ensures q.bankBranchId in s.branches && q.clientId !in s.clients ==> e == Some(Domain(PM.ClientNotFoundMessage(q.clientId)))
  {
    if q.bankBranchId !in s.branches then Some(Domain(BankBranchManagement.BranchIdNotFoundMessage(q.bankBranchId)))
    else if q.clientId !in s.clients then Some(Domain(PM.ClientNotFoundMessage(q.clientId)))
    else UpdateError(q.bankBranchId, q.clientId, q.appointmentDate)
  }

  /** `GetByIdAsync`: the stored appointment, or a NotFoundException. */
  function GetByIdResult(s: Store, id: int, cancelled: bool): (r: Result<ScheduleState>)
    ensures r.Ok? <==> !cancelled && id in s.schedules
    ensures r.Ok? ==> r.value == s.schedules[id]
    ensures !cancelled && id !in s.schedules ==> r == Err(NotFound(ScheduleNotFoundMessage))
  {
    if cancelled then Err(Canceled)
    else if id !in s.schedules then Err(NotFound(ScheduleNotFoundMessage))
    else Ok(s.schedules[id])
  }

  /** `CreateAsync`: null request, cancelled token, then the shared checks;
      an appointment that passes them is added, with exactly the requested
      branch, client and instant, under the id the store assigns. */
  function CreateStep(s: Store, request: Option<ScheduleRequest>, cancelled: bool, newId: int): (st: Step<ScheduleState>)
    requires s.Valid() && newId !in s.schedules
    ensures st.store.Valid()
    ensures st.result.Err? ==> st.store == s
    ensures st.result.Ok? <==> request.Some? && !cancelled && RequestError(s, request.value).None?
    ensures st.result.Ok? ==>
      && st.store == s.(schedules := s.schedules[newId := st.result.value])
      && st.result.value.id == newId
      && st.result.value.bankBranchId == request.value.bankBranchId
      && st.result.value.clientId == request.value.clientId
      && st.result.value.appointmentDate.ticks == request.value.appointmentDate.ticks
  {
    if request.None? then Step(s, Err(ArgumentNull("request")))
    else if cancelled then Step(s, Err(Canceled))
    else
      var q := request.value;
      match RequestError(s, q)
      case Some(e) => Step(s, Err(e))
      case None =>
        var a := ScheduleState(newId, q.bankBranchId, q.clientId, AsUtc(q.appointmentDate));
        Step(s.(schedules := s.schedules[newId := a]), Ok(a))
  }

  /** `UpdateAsync`: null request, cancelled token, missing id (before the
      branch and client checks), then the shared checks; a successful update
      replaces all three fields of the stored appointment at once, and one
      the entity refuses is never saved. */
  function UpdateStep(s: Store, id: int, request: Option<ScheduleRequest>, cancelled: bool): (st: Step<ScheduleState>)
    requires s.Valid()
    ensures st.store.Valid()
    ensures st.result.Err? ==> st.store == s
    ensures request.Some? && !cancelled && id !in s.schedules ==> st.result == Err(NotFound(ScheduleNotFoundMessage))
    ensures st.result.Ok? <==> request.Some? && !cancelled && id in s.schedules && RequestError(s, request.value).None?
    ensures st.result.Ok? ==>
      && st.result.value == ScheduleState(id, request.value.bankBranchId, request.value.clientId, AsUtc(request.value.appointmentDate))
      && st.store == s.(schedules := s.schedules[id := st.result.value])
  {
    if request.None? then Step(s, Err(ArgumentNull("request")))
    else if cancelled then Step(s, Err(Canceled))
    else if id !in s.schedules then Step(s, Err(NotFound(ScheduleNotFoundMessage)))
    else
      var q := request.value;
      match RequestError(s, q)
      case Some(e) => Step(s, Err(e))
      case None =>
        var a := ScheduleState(s.schedules[id].id, q.bankBranchId, q.clientId, AsUtc(q.appointmentDate));
        Step(s.(schedules := s.schedules[id := a]), Ok(a))
  }

  /** `DeleteAsync`: cancelled token, missing id, else the appointment is
      removed. */
  function DeleteStep(s: Store, id: int, cancelled: bool): (st: Step<()>)
    requires s.Valid()
    ensures st.store.Valid()
    ensures st.result.Ok? <==> !cancelled && id in s.schedules
    ensures st.result.Err? ==> st.store == s
    ensures !cancelled && id !in s.schedules ==> st.result == Err(NotFound(ScheduleNotFoundMessage))
    ensures st.result.Ok? ==> st.store == s.(schedules := s.schedules - {id})
  {
    if cancelled then Step(s, Err(Canceled))
    else if id !in s.schedules then Step(s, Err(NotFound(ScheduleNotFoundMessage)))
    else Step(s.(schedules := s.schedules - {id}), Ok(()))
  }

  /** Updating an appointment with the values it already holds changes
      nothing: the stored date is already marked UTC. */
  lemma UpdateWithStoredValuesIsNoOp(s: Store, id: int)
    requires s.Valid() && id in s.schedules
    requires s.schedules[id].bankBranchId in s.branches && s.schedules[id].clientId in s.clients
    ensures var a := s.schedules[id];
      UpdateStep(s, id, Some(ScheduleRequest(a.bankBranchId, a.clientId, a.appointmentDate)), false) == Step(s, Ok(a))
  {
    var a := s.schedules[id];
    assert AsUtc(a.appointmentDate) == a.appointmentDate;
    assert s.schedules[id := a] == s.schedules;
  }

  /** A created appointment reads back as created, and the same request
      then updates it to the same values. */
  lemma CreateThenUpdateSameRequest(s: Store, request: Option<ScheduleRequest>, newId: int)
    requires s.Valid() && newId !in s.schedules
    requires CreateStep(s, request, false, newId).result.Ok?
    ensures var created := CreateStep(s, request, false, newId);
      && GetByIdResult(created.store, newId, false) == created.result
      && UpdateStep(created.store, newId, request, false) == created
  {
    var created := CreateStep(s, request, false, newId);
    assert created.store.schedules[newId := created.result.value] == created.store.schedules;
  }

  class ScheduleService {
    var schedules: map<int, ScheduleState>
    var branches: set<int>
    var clients: set<Guid>

    function Snapshot(): Store
      reads this
    {
      Store(schedules, branches, clients)
    }

    ghost predicate Valid()
      reads this
    {
      Snapshot().Valid()
    }

    constructor (schedules: map<int, ScheduleState>, branches: set<int>, clients: set<Guid>)
      requires Store(schedules, branches, clients).Valid()
      ensures Snapshot() == Store(schedules, branches, clients) && Valid()
    {
      this.schedules, this.branches, this.clients := schedules, branches, clients;
    }

    /** `GetAsync`: every stored appointment. */
    method Get(cancelled: bool) returns (r: Result<set<ScheduleState>>)
      ensures r.Ok? <==> !cancelled
      ensures r.Ok? ==> forall a :: a in r.value <==> exists id :: id in schedules && schedules[id] == a
    {
      if cancelled {
        r := Err(Canceled);
      } else {
        r := Ok(set id | id in schedules :: schedules[id]);
      }
    }

    /** `GetByIdAsync`. */
    method GetById(id: int, cancelled: bool) returns (r: Result<ScheduleState>)
      ensures r == GetByIdResult(Snapshot(), id, cancelled)
    {
      if cancelled {
        r := Err(Canceled);
      } else if id !in schedules {
        r := Err(NotFound(ScheduleNotFoundMessage));
      } else {
        r := Ok(schedules[id]);
      }
    }

    /** `CreateAsync`, through the entity's constructor. */
    method Create(request: Option<ScheduleRequest>, cancelled: bool, newId: int) returns (r: Result<ScheduleState>)
      requires Valid() && newId !in schedules
      modifies this`schedules
      ensures Step(Snapshot(), r) == CreateStep(old(Snapshot()), request, cancelled, newId)
      ensures Valid()
    {
      if request.None? {
        r := Err(ArgumentNull("request"));
      } else if cancelled {
        r := Err(Canceled);
      } else if request.value.bankBranchId !in branches {
        r := Err(Domain(BankBranchManagement.BranchIdNotFoundMessage(request.value.bankBranchId)));
      } else if request.value.clientId !in clients {
        r := Err(Domain(PM.ClientNotFoundMessage(request.value.clientId)));
      } else {
        var q := request.value;
        var created := Schedule.New(q.bankBranchId, q.clientId, q.appointmentDate);
        if created.Err? {
          r := Err(created.error);
        } else {
          var schedule := created.value;
          schedule.id := newId;
          schedules := schedules[newId := schedule.State()];
          r := Ok(schedule.State());
        }
      }
    }

    /** `UpdateAsync`, through the entity's `Update` on the stored
        appointment; the store is written only when it passes. */
    method Update(id: int, request: Option<ScheduleRequest>, cancelled: bool) returns (r: Result<ScheduleState>)
      requires Valid()
      modifies this`schedules
      ensures Step(Snapshot(), r) == UpdateStep(old(Snapshot()), id, request, cancelled)
      ensures Valid()
    {
      if request.None? {
        r := Err(ArgumentNull("request"));
      } else if cancelled {
        r := Err(Canceled);
      } else if id !in schedules {
        r := Err(NotFound(ScheduleNotFoundMessage));
      } else if request.value.bankBranchId !in branches {
        r := Err(Domain(BankBranchManagement.BranchIdNotFoundMessage(request.value.bankBranchId)));
      } else if request.value.clientId !in clients {
        r := Err(Domain(PM.ClientNotFoundMessage(request.value.clientId)));
      } else {
        var q := request.value;
        var schedule := new Schedule.FromState(schedules[id]);
        var o := schedule.Update(q.bankBranchId, q.clientId, q.appointmentDate);
        if o.Fail? {
          r := Err(o.error);
        } else {
          schedules := schedules[id := schedule.State()];
          r := Ok(schedule.State());
        }
      }
    }

    /** `DeleteAsync`. */
    method Delete(id: int, cancelled: bool) returns (r: Result<()>)
      requires Valid()
      modifies this`schedules
      ensures Step(Snapshot(), r) == DeleteStep(old(Snapshot()), id, cancelled)
      ensures Valid()
    {
      if cancelled {
        r := Err(Canceled);
      } else if id !in schedules {
        r := Err(NotFound(ScheduleNotFoundMessage));
      } else {
        schedules := schedules - {id};
        r := Ok(());
      }
    }
  }
}
