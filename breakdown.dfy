/**
 * The breakdowns the result pages re-derive from the stored record: the
 * metric row of the home page (app.py, lines 271-280) and the pie chart of
 * the analysis page (lines 297-312).
 */
module Breakdown {
  import opened Wrappers
  import opened Estimator
  import opened Record

  /** A KeyError raised by `data[key]`, carrying the missing key. */
  datatype KeyError = KeyError(key: string)

  /**
   * The base load the display re-derives from the stored facility label:
   * 2.4 for "1BHK", 3.6 for "2BHK", and 4.8 for anything else.
   */
  function DisplayBase(facility: Value): real
  {
    if facility == Text("1BHK") then 2.4
    else if facility == Text("2BHK") then 3.6
    else 4.8
  }

  /** The display's re-derivation agrees with the estimator on every tier. */
  lemma DisplayBaseAgrees(t: Tier)
    ensures DisplayBase(Text(TierName(t))) == BaseLoad(t)
  {
  }

  /** An appliance's share: `3 if data[key] else 0`. */
  function Share(flag: Value): (kw: real)
    ensures kw == 0.0 || kw == ApplianceLoad
    ensures kw == ApplianceLoad <==> Truthy(flag)
  {
    if Truthy(flag) then 3.0 else 0.0
  }

  /**
   * Reads `data[k]` for each key in order, as consecutive statements do:
   * the first key that is missing raises the KeyError.
   */
  function ReadAll(data: EnergyRecord, keys: seq<string>): (r: Result<seq<Value>, KeyError>)
    ensures r.Success? <==> forall k :: k in keys ==> k in StoredKeys
    ensures r.Success? ==> |r.value| == |keys|
    ensures r.Success? ==> forall i :: 0 <= i < |keys| ==> Lookup(data, keys[i]) == Some(r.value[i])
    ensures r.Failure? ==> exists i :: 0 <= i < |keys| && keys[i] == r.error.key && keys[i] !in StoredKeys
                                       && forall j :: 0 <= j < i ==> keys[j] in StoredKeys
  {
    if keys == [] then Success([])
    else
      match Lookup(data, keys[0])
      case None => Failure(KeyError(keys[0]))
      case Some(v) =>
        match ReadAll(data, keys[1..])
        case Failure(e) => Failure(e)
        case Success(vs) => Success([v] + vs)
  }

  /** The four metric cards: base, AC, fridge and washing machine. */
  datatype MetricCards = MetricCards(base: real, ac: real, fridge: real, washingMachine: real)

  function MetricsTotal(m: MetricCards): real
  {
    m.base + m.ac + m.fridge + m.washingMachine
  }

  /**
   * The home page's metric row, reading the facility, the AC and fridge
   * flags, and the washing machine flag under `wmKey`.
   */
  function MetricRow(data: EnergyRecord, wmKey: string): Result<MetricCards, KeyError>
  {
    match ReadAll(data, ["facility", "ac", "fridge", wmKey])
    case Failure(e) => Failure(e)
    case Success(v) => Success(MetricCards(DisplayBase(v[0]), Share(v[1]), Share(v[2]), Share(v[3])))
  }

  /**
   * The metric row as the home page computes it: it reads the washing
   * machine flag under the key "wm", which the handler never writes, so
   * the row fails with a KeyError for every stored record.
   */
  function MetricsAsWritten(data: EnergyRecord): (m: Result<MetricCards, KeyError>)
    ensures m == Failure(KeyError("wm"))
  {
    MetricRow(data, "wm")
  }

  /**
   * The metric row reading the key the handler does write,
   * "washing_machine": it always succeeds, shows the estimator's base and
   * 3 per checked appliance, and its cards add up to the stored total.
   */
  function Metrics(data: EnergyRecord): (m: Result<MetricCards, KeyError>)
    ensures m.Success?
    ensures m.value.base == BaseLoad(data.facility)
    ensures m.value.ac == (if data.ac then ApplianceLoad else 0.0)
    ensures m.value.fridge == (if data.fridge then ApplianceLoad else 0.0)
    ensures m.value.washingMachine == (if data.washingMachine then ApplianceLoad else 0.0)
    ensures Consistent(data) ==> MetricsTotal(m.value) == data.totalEnergy
  {
    DisplayBaseAgrees(data.facility);
    MetricRow(data, "washing_machine")
  }

  /** One slice of the pie: its name, value and colour. */
  datatype Slice = Slice(name: string, value: real, color: string)

  const BaseSlice: string := "Base Consumption"
  const AcSlice: string := "Air Conditioner"
  const FridgeSlice: string := "Refrigerator"
  const WashingMachineSlice: string := "Washing Machine"

  /** The slice an appliance contributes when its flag is set, else none. */
  function ApplianceSlice(on: bool, name: string, color: string): seq<Slice>
  {
    if on then [Slice(name, ApplianceLoad, color)] else []
  }

  /**
   * The pie: a base slice, then one slice of 3 for each checked appliance,
   * in the order AC, fridge, washing machine.
   */
  function PieSlices(data: EnergyRecord): (s: seq<Slice>)
    ensures |s| == 1 + CheckedCount(RecordAppliances(data))
    ensures s[0] == Slice(BaseSlice, BaseLoad(data.facility), "#667eea")
    ensures forall i :: 1 <= i < |s| ==> s[i].value == ApplianceLoad
    ensures (exists i :: 0 <= i < |s| && s[i].name == AcSlice) <==> data.ac
    ensures (exists i :: 0 <= i < |s| && s[i].name == FridgeSlice) <==> data.fridge
    ensures (exists i :: 0 <= i < |s| && s[i].name == WashingMachineSlice) <==> data.washingMachine
  {
    var s := [Slice(BaseSlice, BaseLoad(data.facility), "#667eea")]
      + ApplianceSlice(data.ac, AcSlice, "#ff6b6b")
      + ApplianceSlice(data.fridge, FridgeSlice, "#4ecdc4")
      + ApplianceSlice(data.washingMachine, WashingMachineSlice, "#45b7d1");
    assert data.ac ==> s[1].name == AcSlice;
    assert data.fridge ==> s[if data.ac then 2 else 1].name == FridgeSlice;
    assert data.washingMachine ==> s[|s| - 1].name == WashingMachineSlice;
    s
  }

  function Labels(s: seq<Slice>): (r: seq<string>)
    ensures |r| == |s| && forall i :: 0 <= i < |s| ==> r[i] == s[i].name
  {
    seq(|s|, i requires 0 <= i < |s| => s[i].name)
  }

  function Values(s: seq<Slice>): (r: seq<real>)
    ensures |r| == |s| && forall i :: 0 <= i < |s| ==> r[i] == s[i].value
  {
    seq(|s|, i requires 0 <= i < |s| => s[i].value)
  }

  function Colors(s: seq<Slice>): (r: seq<string>)
    ensures |r| == |s| && forall i :: 0 <= i < |s| ==> r[i] == s[i].color
  {
    seq(|s|, i requires 0 <= i < |s| => s[i].color)
  }

  /** What a pie chart adds up to. */
  function Sum(xs: seq<real>): real
  {
    if xs == [] then 0.0 else xs[0] + Sum(xs[1..])
  }

  lemma {:induction false} SumConcat(a: seq<real>, b: seq<real>)
    ensures Sum(a + b) == Sum(a) + Sum(b)
  {
    if a == [] {
      assert a + b == b;
    } else {
      assert (a + b)[1..] == a[1..] + b;
      SumConcat(a[1..], b);
    }
  }

  /** The slices add up to the estimate, and so to the stored total. */
  lemma PieAddsUpToTotal(data: EnergyRecord)
    ensures Sum(Values(PieSlices(data))) == DailyEnergy(data.facility, RecordAppliances(data))
    ensures Consistent(data) ==> Sum(Values(PieSlices(data))) == data.totalEnergy
  {
    var s := PieSlices(data);
    var v := Values(s);
    var n := CheckedCount(RecordAppliances(data));
    assert v == [v[0]] + v[1..];
    SumConcat([v[0]], v[1..]);
    AllThrees(v[1..]);
  }

  /** A run of appliance slices adds up to 3 per slice. */
  lemma {:induction false} AllThrees(v: seq<real>)
    requires forall i :: 0 <= i < |v| ==> v[i] == ApplianceLoad
    ensures Sum(v) == ApplianceLoad * |v| as real
  {
    if v != [] {
      AllThrees(v[1..]);
    }
  }

  /**
   * The analysis page's pie chart, built by appending to three parallel
   * lists; the flags are read from the record by key, the washing machine
   * under "washing_machine".
   */
  method PieChart(data: EnergyRecord) returns (labels: seq<string>, values: seq<real>, colors: seq<string>)
    ensures labels == Labels(PieSlices(data))
    ensures values == Values(PieSlices(data))
    ensures colors == Colors(PieSlices(data))
    ensures Consistent(data) ==> Sum(values) == data.totalEnergy
  {
    var facility := Lookup(data, "facility").value;
    DisplayBaseAgrees(data.facility);
    labels := [BaseSlice];
    values := [DisplayBase(facility)];
    colors := ["#667eea"];
    if Truthy(Lookup(data, "ac").value) {
      labels := labels + [AcSlice];
      values := values + [3.0];
      colors := colors + ["#ff6b6b"];
    }
    if Truthy(Lookup(data, "fridge").value) {
      labels := labels + [FridgeSlice];
      values := values + [3.0];
      colors := colors + ["#4ecdc4"];
    }
    if Truthy(Lookup(data, "washing_machine").value) {
      labels := labels + [WashingMachineSlice];
      values := values + [3.0];
      colors := colors + ["#45b7d1"];
    }
    PieAddsUpToTotal(data);
  }
}
