/**
 * The demo dashboard (frontend/src/MockDashboard.tsx): the same sample
 * normalisation and window, fed by a local generator instead of a socket,
 * and a different selection policy that filters the window in place.
 */
module DemoDashboard {
  import opened Wrappers
  import opened Telemetry
  import opened History

  class MockDashboard {
    var currentData: Option<Sample>
    var historicalData: seq<Sample>
    var selectedSensor: string

    ghost predicate Valid()
      reads this
    {
      |historicalData| <= Capacity
    }

    constructor ()
      ensures Valid()
      ensures currentData == None && historicalData == [] && selectedSensor == All
    {
      currentData, historicalData, selectedSensor := None, [], All;
    }

    /**
     * `generateNewData`, with the generator's output and its parsed timestamp
     * as parameters: the normalised sample becomes current and is appended,
     * whatever sensor is selected.
     */
    method GenerateNewData(raw: Reading, clock: Clock)
      requires Valid()
      modifies this`currentData, this`historicalData
      ensures Valid()
      ensures currentData == Some(Normalize(raw, clock))
      ensures historicalData == AppendCapped(old(historicalData), Normalize(raw, clock))
      ensures selectedSensor == old(selectedSensor)
    {
      var s := Normalize(raw, clock);
      Record(s);
    }

    /** `setCurrentData(s)` and the keep-10 `setHistoricalData` updater, for an already normalised sample. */
    method Record(s: Sample)
      requires Valid()
      modifies this`currentData, this`historicalData
      ensures Valid()
      ensures currentData == Some(s)
      ensures historicalData == AppendCapped(old(historicalData), s)
    {
      currentData := Some(s);
      historicalData := AppendCapped(historicalData, s);
    }

    /**
     * `changeSensor`: the same selection again changes nothing; "all" only
     * changes the selection and keeps the window; a specific sensor narrows
     * the window to that sensor's entries, in their order. The current
     * sample is never touched.
     */
    method ChangeSensor(sensorId: string)
      requires Valid()
      modifies this
      ensures Valid()
      ensures sensorId == old(selectedSensor) ==> unchanged(this)
      ensures sensorId != old(selectedSensor) ==> selectedSensor == sensorId
      ensures sensorId != old(selectedSensor) && sensorId == All ==> historicalData == old(historicalData)
      ensures sensorId != old(selectedSensor) && sensorId != All ==>
        historicalData == FilterBySensor(old(historicalData), sensorId)
      ensures currentData == old(currentData)
    {
      if sensorId == selectedSensor {
        return;
      }
      selectedSensor := sensorId;
      if sensorId != All {
        historicalData := FilterBySensor(historicalData, sensorId);
      }
    }
  }

  /**
   * Narrowing the demo view to one sensor keeps only that sensor's samples,
   * as an order-preserving subsequence, and every one of them with the
   * multiplicity it had.
   */
  lemma NarrowingKeepsExactlyThatSensor(h: seq<Sample>, sensorId: string)
    ensures var r := FilterBySensor(h, sensorId);
      && IsSubsequence(r, h)
      && |r| <= |h|
      && (forall s :: s in r <==> s in h && s.sensorId == sensorId)
  {
    FilterIsSubsequence(h, sensorId);
    var r := FilterBySensor(h, sensorId);
    forall s
      ensures s in r <==> s in h && s.sensorId == sensorId
    {
      assert s in r <==> multiset(r)[s] > 0;
      assert s in h <==> multiset(h)[s] > 0;
    }
  }
}
