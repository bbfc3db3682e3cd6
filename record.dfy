/**
 * What the button handler reads from the form and what it stores in
 * `st.session_state.energy_data` (app.py, lines 182-216).
 */
module Record {
  import opened Wrappers
  import opened Estimator

  /** The choices of the "Type of Residence" radio. */
  datatype Residence = Flat | Tenement

  function ResidenceName(r: Residence): string
  {
    match r
    case Flat => "Flat"
    case Tenement => "Tenement"
  }

  /** The widget values the handler reads when the button is pressed. */
  datatype Form = Form(
    name: string, age: int, city: string, area: string,
    residence: Residence, facility: Tier,
    ac: bool, fridge: bool, washingMachine: bool)

  /** The `energy_data` dictionary written on a successful calculation. */
  datatype EnergyRecord = EnergyRecord(
    name: string, age: int, city: string, area: string,
    residenceType: Residence, facility: Tier,
    ac: bool, fridge: bool, washingMachine: bool,
    totalEnergy: real, timestamp: string)

  /** A dictionary value, as the display code reads it back. */
  datatype Value = Text(text: string) | Number(number: int) | Flag(flag: bool) | Kw(kw: real)

  /** The keys the handler writes, and no others. */
  const StoredKeys: set<string> :=
    {"name", "age", "city", "area", "residence_type", "facility",
     "ac", "fridge", "washing_machine", "total_energy", "timestamp"}

  /** `data[key]`: a missing key raises KeyError, modelled as None. */
  function Lookup(data: EnergyRecord, key: string): (v: Option<Value>)
    ensures v.Some? <==> key in StoredKeys
  {
    if key == "name" then Some(Text(data.name))
    else if key == "age" then Some(Number(data.age))
    else if key == "city" then Some(Text(data.city))
    else if key == "area" then Some(Text(data.area))
    else if key == "residence_type" then Some(Text(ResidenceName(data.residenceType)))
    else if key == "facility" then Some(Text(TierName(data.facility)))
    else if key == "ac" then Some(Flag(data.ac))
    else if key == "fridge" then Some(Flag(data.fridge))
    else if key == "washing_machine" then Some(Flag(data.washingMachine))
    else if key == "total_energy" then Some(Kw(data.totalEnergy))
    else if key == "timestamp" then Some(Text(data.timestamp))
    else None
  }

  /** Python truthiness of a stored value, as `if data['ac']` tests it. */
  function Truthy(v: Value): bool
  {
    match v
    case Text(s) => s != []
    case Number(n) => n != 0
    case Flag(b) => b
    case Kw(r) => r != 0.0
  }

  /** The submit gate: `name and city and area`, i.e. all three non-empty. */
  predicate Filled(f: Form)
  {
    f.name != [] && f.city != [] && f.area != []
  }

  function FormAppliances(f: Form): Appliances
  {
    Appliances(f.ac, f.fridge, f.washingMachine)
  }

  function RecordAppliances(data: EnergyRecord): Appliances
  {
    Appliances(data.ac, data.fridge, data.washingMachine)
  }

  /** The stored total is the estimate for the stored tier and flags. */
  predicate Consistent(data: EnergyRecord)
  {
    data.totalEnergy == DailyEnergy(data.facility, RecordAppliances(data))
  }

  /** The record holds the form's inputs verbatim. */
  predicate Carries(data: EnergyRecord, f: Form)
  {
    && data.name == f.name && data.age == f.age && data.city == f.city && data.area == f.area
    && data.residenceType == f.residence && data.facility == f.facility
    && data.ac == f.ac && data.fridge == f.fridge && data.washingMachine == f.washingMachine
  }

  /**
   * What one press of the button stores: nothing when a required field is
   * empty, else the inputs, the estimate and the timestamp `now`.
   */
  function Calculate(f: Form, now: string): (r: Option<EnergyRecord>)
    ensures r.Some? <==> Filled(f)
    ensures r.Some? ==> Carries(r.value, f) && r.value.timestamp == now
    ensures r.Some? ==> r.value.totalEnergy == DailyEnergy(f.facility, FormAppliances(f))
    ensures r.Some? ==> Consistent(r.value)
  {
    if Filled(f) then
      Some(EnergyRecord(f.name, f.age, f.city, f.area, f.residence, f.facility,
                        f.ac, f.fridge, f.washingMachine,
                        DailyEnergy(f.facility, FormAppliances(f)), now))
    else
      None
  }

  /** Name, age, city, area, residence type and the clock never affect the total. */
  lemma TotalIgnoresPersonalDetails(f1: Form, f2: Form, now1: string, now2: string)
    requires Filled(f1) && Filled(f2)
    requires f1.facility == f2.facility && FormAppliances(f1) == FormAppliances(f2)
    ensures Calculate(f1, now1).value.totalEnergy == Calculate(f2, now2).value.totalEnergy
  {
  }

  /** Every key the handler writes can be read back, with the value the form gave. */
  lemma StoredFlagsReadBack(f: Form, now: string)
    requires Filled(f)
    ensures Lookup(Calculate(f, now).value, "ac") == Some(Flag(f.ac))
    ensures Lookup(Calculate(f, now).value, "fridge") == Some(Flag(f.fridge))
    ensures Lookup(Calculate(f, now).value, "washing_machine") == Some(Flag(f.washingMachine))
    ensures Lookup(Calculate(f, now).value, "facility") == Some(Text(TierName(f.facility)))
  {
  }
}
