/**
 * The ledger's in-memory state (`viagens` and `idCounter`) and the four
 * handlers that use it.
 */
module Store {
  import opened Wrappers
  import opened Trips
  import Reports
  import ReportLaws

  /** Rejection of a submission with a missing, empty or zero field. */
  datatype AddError = MissingFields

  class TripStore {
    /** `viagens`: every accepted trip, in insertion order. */
    var trips: seq<Trip>
    /** `idCounter`: the id the next accepted trip receives. */
    var nextId: nat

    /** Trip i carries id i + 1 and the counter is one past the last id. */
    ghost predicate Valid()
      reads this
    {
      Numbered(trips) && nextId == |trips| + 1
    }

    /** The ledger at process start: no trips, counter at 1. */
    constructor ()
      ensures Valid()
      ensures trips == [] && nextId == 1
    {
      trips := [];
      nextId := 1;
    }

    /** `POST /viagens`: reject unless all eight fields are truthy; otherwise
        store the trip under the current counter and advance the counter. */
    method Add(b: Body) returns (r: Result<Trip, AddError>)
      requires Valid()
      modifies this
      ensures Valid()
      ensures r.Success? <==> Complete(b)
      ensures r.Failure? ==> r.error == MissingFields && trips == old(trips) && nextId == old(nextId)
      ensures r.Success? ==> r.value == MakeTrip(old(nextId), b)
      ensures r.Success? ==> trips == old(trips) + [r.value] && nextId == old(nextId) + 1
    {
      if !Complete(b) {
        return Failure(MissingFields);
      }
      var trip := MakeTrip(nextId, b);
      nextId := nextId + 1;
      trips := trips + [trip];
      r := Success(trip);
    }

    /** `GET /viagens`: all trips in insertion order, each numbered by its position. */
    method List() returns (ts: seq<Trip>)
      requires Valid()
      ensures ts == trips
      ensures forall i :: 0 <= i < |ts| ==> ts[i].id == i + 1
    {
      ts := trips;
    }

    /** `GET /relatorio/dia`: the daily report over the current trips. */
    method Daily(date: Option<string>) returns (r: Result<Reports.Report, Reports.Error>)
      ensures r == Reports.DailyReport(trips, date)
    {
      r := Reports.DailyReport(trips, date);
    }

    /** `GET /relatorio/mes`: the monthly report over the current trips. */
    method Monthly(month: Option<int>, year: Option<int>) returns (r: Result<Reports.Report, Reports.Error>)
      ensures r == Reports.MonthlyReport(trips, month, year)
    {
      r := Reports.MonthlyReport(trips, month, year);
    }
  }

  /** A client run of the ledger: two trips on one day, then the day's report. */
  method DailyScenario() returns (report: Result<Reports.Report, Reports.Error>)
    ensures report == Success(Reports.Daily("2024-03-01", Reports.Totals(2, 150, 30, 450, 270)))
  {
    var store := new TripStore();
    var a := store.Add(Body(Some("Ana"), Some("ABC1D23"), Some("Recife"), Some("Natal"),
                            Some("2024-03-01"), Some(100), Some(20), Some(300)));
    var b := store.Add(Body(Some("Bruno"), Some("XYZ9K87"), Some("Natal"), Some("Recife"),
                            Some("2024-03-01"), Some(50), Some(10), Some(150)));
    assert a.value.id == 1 && b.value.id == 2;
    var rejected := store.Add(Body(Some("Caio"), Some("QWE4R56"), Some("Recife"), Some("Natal"),
                                   Some("2024-03-01"), Some(0), Some(20), Some(300)));
    assert rejected.Failure? && store.nextId == 3;
    ReportLaws.DailyScenario(a.value, b.value);
    report := store.Daily(Some("2024-03-01"));
  }
}
