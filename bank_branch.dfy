/** A bank branch of TechnicalTest: a name and a city, both required and
    stored without surrounding white space. */
module BankBranches {
  import opened Common
  import opened Text
  import opened Guards

  /** The values a branch persists. */
  datatype BankBranchState = BankBranchState(id: int, name: string, city: string)
  {
    /** What the constructor guarantees and `Update` keeps. */
    predicate Valid() {
      name != [] && IsTrimmed(name) && city != [] && IsTrimmed(city)
    }
  }

  /** The exception `Update` (and the constructor) throws, if any: the name
      is checked before the city. */
  function UpdateError(name: string, city: string): (e: Option<Error>)
    ensures e.None? <==> !IsBlank(name) && !IsBlank(city)
    ensures IsBlank(name) ==> e == Some(Domain(RequiredFieldMessage("Name")))
    ensures !IsBlank(name) && IsBlank(city) ==> e == Some(Domain(RequiredFieldMessage("City")))
  {
    if IsBlank(name) then Some(Domain(RequiredFieldMessage("Name")))
    else if IsBlank(city) then Some(Domain(RequiredFieldMessage("City")))
    else None
  }

  class BankBranch {
    var id: int
    var name: string
    var city: string

    function State(): BankBranchState
      reads this
    {
      BankBranchState(id, name, city)
    }

    /** A branch read back from the store with the values it was saved with. */
    constructor FromState(s: BankBranchState)
      ensures State() == s
    {
      id, name, city := s.id, s.name, s.city;
    }

    /** The public constructor: the name, then the city, through the required
        text guard; the id stays 0 until the store assigns one. */
    static method New(name: string, city: string) returns (r: Result<BankBranch>)
      ensures r.Err? <==> UpdateError(name, city).Some?
      ensures r.Err? ==> r.error == UpdateError(name, city).value
      ensures r.Ok? ==> fresh(r.value) && r.value.State() == BankBranchState(0, Trim(name), Trim(city))
      ensures r.Ok? ==> r.value.State().Valid()
    {
      var b := new BankBranch.FromState(BankBranchState(0, "", ""));
      var o := b.Update(name, city);
      if o.Fail? { return Err(o.error); }
      return Ok(b);
    }

    /** `Update`: normalises the name and assigns it, then normalises the city
        and assigns it. A blank city therefore throws after the name has
        already changed; the id is never touched. */
    method Update(name: string, city: string) returns (o: Outcome)
      modifies this`name, this`city
      ensures o.Pass? <==> UpdateError(name, city).None?
      ensures o.Fail? ==> o.error == UpdateError(name, city).value
      ensures this.name == if !IsBlank(name) then Trim(name) else old(this.name)
      ensures this.city == if o.Pass? then Trim(city) else old(this.city)
      ensures o.Pass? ==> State().Valid()
    {
      var n := NormalizeRequiredText(name, "Name");
      if n.Err? { return Fail(n.error); }
      this.name := n.value;
      var c := NormalizeRequiredText(city, "City");
      if c.Err? { return Fail(c.error); }
      this.city := c.value;
      o := Pass;
    }
  }
}
