/**
 * The per-session state the page keeps between reruns (app.py, lines
 * 102-105 and 182-220), and the two result views that read it back
 * (lines 249-280 and 289-359).
 */
module Session {
  import opened Wrappers
  import opened Estimator
  import opened Record
  import opened Breakdown
  import opened Projection

  /** `energy_data`: the empty dictionary it starts as, or a stored record. */
  datatype EnergyData = NoData | Stored(record: EnergyRecord)

  /**
   * `st.session_state` of one browser session. Each field is None while
   * its key is absent from the session state.
   */
  class SessionState {
    var calculated: Option<bool>
    var energyData: Option<EnergyData>

    /** A record is stored exactly when `calculated` is true, and its total is the estimate. */
    ghost predicate Valid()
      reads this
    {
      && (calculated == Some(true) <==> energyData.Some? && energyData.value.Stored?)
      && (energyData.Some? && energyData.value.Stored? ==> Consistent(energyData.value.record))
    }

    /** Both keys are present. */
    predicate Initialized()
      reads this
    {
      calculated.Some? && energyData.Some?
    }

    /** A new session: neither key is present yet. */
    constructor ()
      ensures Valid()
      ensures calculated == None && energyData == None
    {
      calculated := None;
      energyData := None;
    }

    /** Each rerun's initialisation: a key gets its default only when it is absent. */
    method InitDefaults()
      requires Valid()
      modifies this
      ensures Valid() && Initialized()
      ensures calculated == if old(calculated).None? then Some(false) else old(calculated)
      ensures energyData == if old(energyData).None? then Some(NoData) else old(energyData)
    {
      if calculated.None? {
        calculated := Some(false);
      }
      if energyData.None? {
        energyData := Some(NoData);
      }
    }

    /**
     * A press of the calculate button: with name, city and area all
     * non-empty, the estimate is computed and the record stored;
     * otherwise only an error is shown and nothing changes.
     */
    method Submit(f: Form, now: string) returns (ok: bool)
      requires Valid()
      modifies this
      ensures Valid()
      ensures ok == Filled(f)
      ensures ok ==> calculated == Some(true) && energyData == Some(Stored(Calculate(f, now).value))
      ensures !ok ==> calculated == old(calculated) && energyData == old(energyData)
    {
      ok := f.name != [] && f.city != [] && f.area != [];
      if ok {
        var total := Estimate(f.facility, f.ac, f.fridge, f.washingMachine);
        calculated := Some(true);
        energyData := Some(Stored(EnergyRecord(
          f.name, f.age, f.city, f.area, f.residence, f.facility,
          f.ac, f.fridge, f.washingMachine, total, now)));
      }
    }

    /**
     * One run of the page script: the initialisation, then the handler if
     * the button was pressed. Once a calculation has happened it stays
     * recorded, and a run that does not store a record keeps the previous one.
     */
    method Rerun(f: Form, pressed: bool, now: string) returns (ok: bool)
      requires Valid()
      modifies this
      ensures Valid() && Initialized()
      ensures ok == (pressed && Filled(f))
      ensures ok ==> calculated == Some(true) && energyData == Some(Stored(Calculate(f, now).value))
      ensures old(calculated) == Some(true) ==> calculated == Some(true)
      ensures !ok ==> calculated == (if old(calculated).None? then Some(false) else old(calculated))
      ensures !ok ==> energyData == (if old(energyData).None? then Some(NoData) else old(energyData))
    {
      InitDefaults();
      ok := false;
      if pressed {
        ok := Submit(f, now);
      }
    }

    /**
     * The home page's results: shown only after a calculation, with the
     * stored total and the metric row. As written, the row reads the
     * washing machine flag under "wm" and fails with a KeyError; the cards
     * returned are the corrected row, which reads "washing_machine" and
     * adds up to the total.
     */
    method HomeResults() returns (shown: bool, total: real, cards: Result<MetricCards, KeyError>)
      requires Valid()
      ensures shown <==> calculated == Some(true)
      ensures shown ==> total == energyData.value.record.totalEnergy
      ensures shown ==> MetricsAsWritten(energyData.value.record) == Failure(KeyError("wm"))
      ensures shown ==> cards == Metrics(energyData.value.record)
      ensures shown ==> cards.Success? && MetricsTotal(cards.value) == total
      ensures shown ==> MinDaily <= total <= MaxDaily
    {
      shown := calculated == Some(true);
      total := 0.0;
      cards := Failure(KeyError(""));
      if shown {
        var data := energyData.value.record;
        total := data.totalEnergy;
        cards := Metrics(data);
      }
    }

    /**
     * The analysis page: shown only after a calculation, with the pie
     * chart of the stored record, whose slices add up to the stored total,
     * and the projection table of that total.
     */
    method AnalysisPage() returns (shown: bool, labels: seq<string>, values: seq<real>, table: CostTable)
      requires Valid()
      ensures shown <==> calculated == Some(true)
      ensures shown ==> labels == Labels(PieSlices(energyData.value.record))
      ensures shown ==> values == Values(PieSlices(energyData.value.record))
      ensures shown ==> Sum(values) == energyData.value.record.totalEnergy
      ensures shown ==> table == ProjectionTable(energyData.value.record.totalEnergy)
      ensures !shown ==> labels == [] && values == [] && table == CostTable([], [], [])
    {
      shown := calculated == Some(true);
      labels, values, table := [], [], CostTable([], [], []);
      if shown {
        var data := energyData.value.record;
        var colors;
        labels, values, colors := PieChart(data);
        table := ProjectionTable(data.totalEnergy);
      }
    }
  }

  /**
   * A client of the session: a first run without a press, a valid
   * submission, then an invalid one that keeps the record.
   */
  method SessionScenario()
  {
    var s := new SessionState();
    var form := Form("Asha", 30, "Pune", "Kothrud", Flat, TwoBHK, true, false, false);
    var ok := s.Rerun(form.(name := ""), true, "2024-01-01 09:55:00");
    assert !ok && s.calculated == Some(false) && s.energyData == Some(NoData);
    ok := s.Rerun(form, true, "2024-01-01 10:00:00");
    assert ok && s.calculated == Some(true);
    assert s.energyData.value.record.totalEnergy == 6.6;
    var kept := s.energyData;
    ok := s.Rerun(form.(city := ""), true, "2024-01-01 10:05:00");
    assert !ok && s.energyData == kept && s.calculated == Some(true);
  }
}
