/** An appointment of a client at a bank branch. */
module Schedules {
  import opened Common

  const InvalidBranchMessage: string := "El identificador de la sucursal bancaria es inválido."
  const InvalidClientMessage: string := "El identificador del cliente es inválido."
  const DateRequiredMessage: string := "La fecha de la cita es obligatoria."

  /** `DateTime.SpecifyKind(d, DateTimeKind.Utc)`: the same instant, marked UTC. */
  function AsUtc(d: DateTime): (r: DateTime)
    ensures r.ticks == d.ticks && r.kind == Utc
  {
    DateTime(d.ticks, Utc)
  }

  /** The values a schedule persists. */
  datatype ScheduleState = ScheduleState(id: int, bankBranchId: int, clientId: Guid, appointmentDate: DateTime)
  {
    predicate Valid() {
      bankBranchId > 0 && clientId != EmptyGuid && !IsDefault(appointmentDate) && appointmentDate.kind == Utc
    }
  }

  /** The exception `Update` (and the constructor) throws, if any: branch,
      then client, then date. */
  function UpdateError(bankBranchId: int, clientId: Guid, appointmentDate: DateTime): (e: Option<Error>)
    ensures e.None? <==> bankBranchId > 0 && clientId != EmptyGuid && !IsDefault(appointmentDate)
    ensures bankBranchId <= 0 ==> e == Some(Domain(InvalidBranchMessage))
    ensures bankBranchId > 0 && clientId == EmptyGuid ==> e == Some(Domain(InvalidClientMessage))
    ensures bankBranchId > 0 && clientId != EmptyGuid && IsDefault(appointmentDate) ==> e == Some(Domain(DateRequiredMessage))
  {
    if bankBranchId <= 0 then Some(Domain(InvalidBranchMessage))
    else if clientId == EmptyGuid then Some(Domain(InvalidClientMessage))
    else if IsDefault(appointmentDate) then Some(Domain(DateRequiredMessage))
    else None
  }

  class Schedule {
    var id: int
    var bankBranchId: int
    var clientId: Guid
    var appointmentDate: DateTime

    function State(): ScheduleState
      reads this
    {
      ScheduleState(id, bankBranchId, clientId, appointmentDate)
    }

    /** A schedule read back from the store. */
    constructor FromState(s: ScheduleState)
      ensures State() == s
    {
      id, bankBranchId, clientId, appointmentDate := s.id, s.bankBranchId, s.clientId, s.appointmentDate;
    }

    /** The public constructor: the three guards in order, starting from the
        default field values; the id stays 0 until the store assigns one. */
    static method New(bankBranchId: int, clientId: Guid, appointmentDate: DateTime)
      returns (r: Result<Schedule>)
      ensures r.Err? <==> UpdateError(bankBranchId, clientId, appointmentDate).Some?
      ensures r.Err? ==> r.error == UpdateError(bankBranchId, clientId, appointmentDate).value
      ensures r.Ok? ==> fresh(r.value) && r.value.State() == ScheduleState(0, bankBranchId, clientId, AsUtc(appointmentDate))
      ensures r.Ok? ==> r.value.State().Valid()
    {
      var s := new Schedule.FromState(ScheduleState(0, 0, EmptyGuid, DefaultDateTime));
      var o := s.Update(bankBranchId, clientId, appointmentDate);
      if o.Fail? { return Err(o.error); }
      return Ok(s);
    }

    /** `Update`: branch, then client, then date, each checked and assigned
        in turn, so a failure keeps the fields already assigned; the date is
        stored as the same instant marked UTC. */
    method Update(bankBranchId: int, clientId: Guid, appointmentDate: DateTime) returns (o: Outcome)
      modifies this`bankBranchId, this`clientId, this`appointmentDate
      ensures o.Pass? <==> UpdateError(bankBranchId, clientId, appointmentDate).None?
      ensures o.Fail? ==> o.error == UpdateError(bankBranchId, clientId, appointmentDate).value
      ensures this.bankBranchId == if bankBranchId > 0 then bankBranchId else old(this.bankBranchId)
      ensures this.clientId == if bankBranchId > 0 && clientId != EmptyGuid then clientId else old(this.clientId)
      ensures this.appointmentDate == if o.Pass? then AsUtc(appointmentDate) else old(this.appointmentDate)
      ensures o.Pass? ==> State().Valid()
    {
      if bankBranchId <= 0 {
        return Fail(Domain(InvalidBranchMessage));
      }
      this.bankBranchId := bankBranchId;
      if clientId == EmptyGuid {
        return Fail(Domain(InvalidClientMessage));
      }
      this.clientId := clientId;
      if IsDefault(appointmentDate) {
        return Fail(Domain(DateRequiredMessage));
      }
      this.appointmentDate := AsUtc(appointmentDate);
      o := Pass;
    }
  }
}
