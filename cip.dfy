/**
 * The EtherNet/IP poller of backend/app/pollers/cip_poller.py.
 *
 * `LogixDriver` stands for the pycomm3 driver: it records the batch reads it
 * is asked for and hands back the results it is given. Unlike the Modbus
 * poller, nothing here catches exceptions: the first failing result ends the
 * batch, `poll_once` and `run`.
 */
module Cip {
  import opened Common
  import Influx

  /** A result's `value`, as `float()` sees it. */
  datatype TagValue = NoValue | Convertible(x: real) | Unconvertible

  /** One element of what `driver.read(*tags)` returns. */
  datatype ReadResult = ReadResult(tag: string, value: TagValue)

  /** What the clock and the store answer while one result is written. */
  datatype WriteProbe = WriteProbe(timestampNs: int, storeAccepts: bool)

  /** The exceptions that escape `poll_once` and `run`. */
  datatype CipError =
    | OpenFailed                    // `driver.open()` raised
    | ReadFailed                    // `driver.read(*tags)` raised
    | ConversionFailed(tag: string) // `float(r.value)` raised
    | SinkNotInitialized            // `InfluxClient._client` is None
    | StoreRejected                 // the library's write raised
    | SleepRejected                 // `time.sleep` refused a negative interval

  /** The records written by one batch, and the exception that ended it early, if any. */
  datatype CycleResult = CycleResult(written: seq<Influx.Delivery>, error: Option<CipError>)

  /**
   * One cycle of `run`: whether the batch read raises, the results it
   * returns otherwise, and the write probes.
   */
  datatype CycleInput = CycleInput(readRaises: bool, results: seq<ReadResult>, probes: seq<WriteProbe>)

  /** Cycles polled, records written, and the exception that ended `run`, if any, so far. */
  datatype RunState = RunState(polled: nat, written: seq<Influx.Delivery>, stop: Option<CipError>)

  /** How `run` ended. */
  datatype RunExit = Raised(error: CipError) | Interrupted

  /**
   * The loop body for one result: skip a None value, otherwise convert,
   * build the point under the tag's name and write it.
   */
  function ResultStep(bucket: string, ready: bool, r: ReadResult, p: WriteProbe): (step: Result<Option<Influx.Delivery>, CipError>)
    ensures step.Ok? <==> r.value.NoValue? || (r.value.Convertible? && ready && p.storeAccepts)
    ensures step.Ok? ==> (step.value.Some? <==> r.value.Convertible?)
    ensures step.Ok? && step.value.Some? ==>
      && step.value.value.bucket == bucket
      && step.value.value.record.measurement == r.tag
      && step.value.value.record.fields == map[r.tag := r.value.x]
      && step.value.value.record.time == p.timestampNs
    ensures r.value.Unconvertible? ==> step == Err(ConversionFailed(r.tag))
    ensures r.value.Convertible? && !ready ==> step == Err(SinkNotInitialized)
    ensures r.value.Convertible? && ready && !p.storeAccepts ==> step == Err(StoreRejected)
  {
    match r.value
    case NoValue => Ok(None)
    case Unconvertible => Err(ConversionFailed(r.tag))
    case Convertible(x) =>
      if !ready then Err(SinkNotInitialized)
      else if !p.storeAccepts then Err(StoreRejected)
      else Ok(Some(Influx.Delivery(bucket, Influx.MakePoint(r.tag, r.tag, x, p.timestampNs))))
  }

  /** One `poll_once` over the driver's results, stopping at the first exception. */
  function CipCycle(bucket: string, ready: bool, results: seq<ReadResult>, probes: seq<WriteProbe>): (c: CycleResult)
    requires |probes| == |results|
    ensures |c.written| <= |results|
  {
    if |results| == 0 then CycleResult([], None)
    else
      var n := |results| - 1;
      var prev := CipCycle(bucket, ready, results[..n], probes[..n]);
      if prev.error.Some? then prev
      else
        match ResultStep(bucket, ready, results[n], probes[n])
        case Err(e) => CycleResult(prev.written, Some(e))
        case Ok(None) => prev
        case Ok(Some(d)) => CycleResult(prev.written + [d], None)
  }

  lemma CipCycleSnoc(bucket: string, ready: bool, results: seq<ReadResult>, probes: seq<WriteProbe>, i: nat)
    requires |probes| == |results| && i < |results|
    ensures var prev := CipCycle(bucket, ready, results[..i], probes[..i]);
      CipCycle(bucket, ready, results[..i + 1], probes[..i + 1])
        == if prev.error.Some? then prev
           else match ResultStep(bucket, ready, results[i], probes[i])
             case Err(e) => CycleResult(prev.written, Some(e))
             case Ok(None) => prev
             case Ok(Some(d)) => CycleResult(prev.written + [d], None)
  {
    assert results[..i + 1][..i] == results[..i];
    assert probes[..i + 1][..i] == probes[..i];
  }

  /**
   * No per-result isolation: once a result has raised, the results after it
   * are neither converted nor written.
   */
  lemma {:induction false} ErrorEndsBatch(bucket: string, ready: bool, results: seq<ReadResult>, probes: seq<WriteProbe>, k: nat)
    requires |probes| == |results| && k <= |results|
    requires CipCycle(bucket, ready, results[..k], probes[..k]).error.Some?
    ensures CipCycle(bucket, ready, results, probes) == CipCycle(bucket, ready, results[..k], probes[..k])
  {
    if k == |results| {
      assert results[..k] == results && probes[..k] == probes;
    } else {
      var n := |results| - 1;
      assert results[..n][..k] == results[..k];
      assert probes[..n][..k] == probes[..k];
      ErrorEndsBatch(bucket, ready, results[..n], probes[..n], k);
    }
  }

  /**
   * Every record written goes to the bucket under a measurement equal to its
   * only field's name, and is the point built from some result's tag, its
   * converted value and that result's timestamp.
   */
  lemma {:induction false} WrittenUnderTagName(bucket: string, ready: bool, results: seq<ReadResult>, probes: seq<WriteProbe>)
    requires |probes| == |results|
    ensures forall d :: d in CipCycle(bucket, ready, results, probes).written ==>
      d.bucket == bucket && d.record.fields.Keys == {d.record.measurement}
    ensures forall d :: d in CipCycle(bucket, ready, results, probes).written ==>
      exists i :: (0 <= i < |results| && results[i].value.Convertible?
        && d == Influx.Delivery(bucket, Influx.MakePoint(results[i].tag, results[i].tag, results[i].value.x, probes[i].timestampNs)))
  {
    if |results| > 0 {
      var n := |results| - 1;
      var prev := CipCycle(bucket, ready, results[..n], probes[..n]);
      WrittenUnderTagName(bucket, ready, results[..n], probes[..n]);
      forall d | d in prev.written
        ensures exists i :: (0 <= i < |results| && results[i].value.Convertible?
          && d == Influx.Delivery(bucket, Influx.MakePoint(results[i].tag, results[i].tag, results[i].value.x, probes[i].timestampNs)))
      {
        var i :| 0 <= i < n && results[..n][i].value.Convertible?
          && d == Influx.Delivery(bucket, Influx.MakePoint(results[..n][i].tag, results[..n][i].tag, results[..n][i].value.x, probes[..n][i].timestampNs));
        assert results[..n][i] == results[i] && probes[..n][i] == probes[i];
      }
    }
  }

  /** With `_client` unset, a batch writes nothing, and completes only when every value is None. */
  lemma {:induction false} UnsetSinkWritesNothing(bucket: string, results: seq<ReadResult>, probes: seq<WriteProbe>)
    requires |probes| == |results|
    ensures CipCycle(bucket, false, results, probes).written == []
    ensures CipCycle(bucket, false, results, probes).error.None? <==> forall i :: 0 <= i < |results| ==> results[i].value.NoValue?
  {
    if |results| > 0 {
      var n := |results| - 1;
      UnsetSinkWritesNothing(bucket, results[..n], probes[..n]);
      if CipCycle(bucket, false, results[..n], probes[..n]).error.None? {
        forall i | 0 <= i < n
          ensures results[i].value.NoValue?
        {
          assert results[..n][i] == results[i];
        }
      } else {
        var i :| 0 <= i < n && !results[..n][i].value.NoValue?;
        assert results[..n][i] == results[i];
      }
    }
  }

  /** Reference definition: one record per non-None result, in result order. */
  function ExpectedWrites(bucket: string, results: seq<ReadResult>, probes: seq<WriteProbe>): (w: seq<Influx.Delivery>)
    requires |probes| == |results|
    ensures |w| <= |results|
    ensures forall i :: 0 <= i < |w| ==> w[i].bucket == bucket && w[i].record.fields.Keys == {w[i].record.measurement}
  {
    if |results| == 0 then []
    else
      (if results[0].value.Convertible?
       then [Influx.Delivery(bucket, Influx.MakePoint(results[0].tag, results[0].tag, results[0].value.x, probes[0].timestampNs))]
       else [])
      + ExpectedWrites(bucket, results[1..], probes[1..])
  }

  lemma {:induction false} ExpectedWritesSnoc(bucket: string, results: seq<ReadResult>, probes: seq<WriteProbe>, i: nat)
    requires |probes| == |results| && i < |results|
    ensures ExpectedWrites(bucket, results[..i + 1], probes[..i + 1])
         == ExpectedWrites(bucket, results[..i], probes[..i])
            + (if results[i].value.Convertible?
               then [Influx.Delivery(bucket, Influx.MakePoint(results[i].tag, results[i].tag, results[i].value.x, probes[i].timestampNs))]
               else [])
  {
    if i > 0 {
      assert results[..i + 1][1..] == results[1..][..i];
      assert probes[..i + 1][1..] == probes[1..][..i];
      assert results[..i][1..] == results[1..][..i - 1];
      assert probes[..i][1..] == probes[1..][..i - 1];
      ExpectedWritesSnoc(bucket, results[1..], probes[1..], i - 1);
    }
  }

  /**
   * When every value converts, the sink is initialised and the store takes
   * every record it is given, the batch completes and writes exactly one
   * record per non-None result, in order.
   */
  lemma {:induction false} CleanBatchWritesEveryValue(bucket: string, results: seq<ReadResult>, probes: seq<WriteProbe>)
    requires |probes| == |results|
    requires forall i :: 0 <= i < |results| ==>
      !results[i].value.Unconvertible? && (results[i].value.Convertible? ==> probes[i].storeAccepts)
    ensures CipCycle(bucket, true, results, probes) == CycleResult(ExpectedWrites(bucket, results, probes), None)
  {
    if |results| > 0 {
      var n := |results| - 1;
      CleanBatchWritesEveryValue(bucket, results[..n], probes[..n]);
      ExpectedWritesSnoc(bucket, results, probes, n);
      assert results[..n + 1] == results && probes[..n + 1] == probes;
    }
  }

  /**
   * A batch that fails at result `k` has written exactly the records of the
   * results before it, and raises that result's error.
   */
  lemma FailureAfterCleanPrefix(bucket: string, results: seq<ReadResult>, probes: seq<WriteProbe>, k: nat)
    requires |probes| == |results| && k < |results|
    requires forall i :: 0 <= i < k ==>
      !results[i].value.Unconvertible? && (results[i].value.Convertible? ==> probes[i].storeAccepts)
    requires results[k].value.Unconvertible? || (results[k].value.Convertible? && !probes[k].storeAccepts)
    ensures CipCycle(bucket, true, results, probes)
         == CycleResult(ExpectedWrites(bucket, results[..k], probes[..k]),
              Some(if results[k].value.Unconvertible? then ConversionFailed(results[k].tag) else StoreRejected))
  {
    forall i | 0 <= i < k
      ensures !results[..k][i].value.Unconvertible? && (results[..k][i].value.Convertible? ==> probes[..k][i].storeAccepts)
    {
      assert results[..k][i] == results[i] && probes[..k][i] == probes[i];
    }
    CleanBatchWritesEveryValue(bucket, results[..k], probes[..k]);
    CipCycleSnoc(bucket, true, results, probes, k);
    ErrorEndsBatch(bucket, true, results, probes, k + 1);
  }

  /**
   * One `poll_once`: a batch read that raises ends it before any result is
   * converted or written; otherwise the results are handled in order.
   */
  function CycleOf(bucket: string, ready: bool, input: CycleInput): (c: CycleResult)
    requires |input.probes| == |input.results|
    ensures |c.written| <= |input.results|
    ensures input.readRaises ==> c.written == [] && c.error == Some(ReadFailed)
  {
    if input.readRaises then CycleResult([], Some(ReadFailed))
    else CipCycle(bucket, ready, input.results, input.probes)
  }

  /** Cycle by cycle, what `run` has done after `n` cycles' worth of inputs. */
  function RunProgress(bucket: string, ready: bool, negativeSleep: bool, cycles: seq<CycleInput>, n: nat): (st: RunState)
    requires forall k :: 0 <= k < |cycles| ==> |cycles[k].probes| == |cycles[k].results|
    requires n <= |cycles|
    ensures st.polled <= n
    ensures st.stop.None? ==> st.polled == n
  {
    if n == 0 then RunState(0, [], None)
    else
      var prev := RunProgress(bucket, ready, negativeSleep, cycles, n - 1);
      if prev.stop.Some? then prev
      else
        var c := CycleOf(bucket, ready, cycles[n - 1]);
        RunState(prev.polled + 1, prev.written + c.written,
          if c.error.Some? then c.error else if negativeSleep then Some(SleepRejected) else None)
  }

  lemma RunProgressNext(bucket: string, ready: bool, negativeSleep: bool, cycles: seq<CycleInput>, n: nat)
    requires forall k :: 0 <= k < |cycles| ==> |cycles[k].probes| == |cycles[k].results|
    requires n < |cycles|
    requires RunProgress(bucket, ready, negativeSleep, cycles, n).stop.None?
    ensures var prev := RunProgress(bucket, ready, negativeSleep, cycles, n);
      var c := CycleOf(bucket, ready, cycles[n]);
      RunProgress(bucket, ready, negativeSleep, cycles, n + 1)
        == RunState(prev.polled + 1, prev.written + c.written,
             if c.error.Some? then c.error else if negativeSleep then Some(SleepRejected) else None)
  {
  }

  /** Once `run` has been stopped by an exception, later inputs change nothing. */
  lemma {:induction false} StopIsFinal(bucket: string, ready: bool, negativeSleep: bool, cycles: seq<CycleInput>, k: nat, n: nat)
    requires forall j :: 0 <= j < |cycles| ==> |cycles[j].probes| == |cycles[j].results|
    requires k <= n <= |cycles|
    requires RunProgress(bucket, ready, negativeSleep, cycles, k).stop.Some?
    ensures RunProgress(bucket, ready, negativeSleep, cycles, n) == RunProgress(bucket, ready, negativeSleep, cycles, k)
  {
    if n > k {
      StopIsFinal(bucket, ready, negativeSleep, cycles, k, n - 1);
    }
  }

  /**
   * A batch read that raises in cycle `k` ends `run` there: that cycle is
   * the last one polled and adds no record.
   */
  lemma ReadFailureEndsRun(bucket: string, ready: bool, negativeSleep: bool, cycles: seq<CycleInput>, k: nat, n: nat)
    requires forall j :: 0 <= j < |cycles| ==> |cycles[j].probes| == |cycles[j].results|
    requires k < n <= |cycles|
    requires RunProgress(bucket, ready, negativeSleep, cycles, k).stop.None? && cycles[k].readRaises
    ensures var st := RunProgress(bucket, ready, negativeSleep, cycles, n);
      && st.stop == Some(ReadFailed)
      && st.polled == k + 1
      && st.written == RunProgress(bucket, ready, negativeSleep, cycles, k).written
  {
    RunProgressNext(bucket, ready, negativeSleep, cycles, k);
    StopIsFinal(bucket, ready, negativeSleep, cycles, k + 1, n);
  }

  /** With a negative poll interval, `run` polls at most once before `time.sleep` raises. */
  lemma {:induction false} NegativeIntervalPollsOnce(bucket: string, ready: bool, cycles: seq<CycleInput>, n: nat)
    requires forall j :: 0 <= j < |cycles| ==> |cycles[j].probes| == |cycles[j].results|
    requires 0 < n <= |cycles|
    ensures RunProgress(bucket, ready, true, cycles, n).polled == 1
    ensures RunProgress(bucket, ready, true, cycles, n).stop.Some?
  {
    StopIsFinal(bucket, ready, true, cycles, 1, n);
  }

  /** The pycomm3 `LogixDriver`, as far as the poller uses it. */
  class LogixDriver {
    const host: string
    var isOpen: bool
    var openCalls: nat
    var batchReads: seq<seq<string>>

    constructor (host: string)
      ensures this.host == host && !isOpen && openCalls == 0 && batchReads == []
    {
      this.host := host;
      isOpen := false;
      openCalls := 0;
      batchReads := [];
    }

    /** `open()`: raises when the connection cannot be made. */
    method Open(transportUp: bool) returns (ok: bool)
      modifies this
      ensures ok == transportUp && isOpen == transportUp
      ensures openCalls == old(openCalls) + 1 && batchReads == old(batchReads)
    {
      isOpen := transportUp;
      openCalls := openCalls + 1;
      ok := transportUp;
    }

    /** `read(*tags)`: one request for the whole tag list, which may raise instead of answering. */
    method Read(tags: seq<string>, answer: seq<ReadResult>, raises: bool) returns (results: Option<seq<ReadResult>>)
      modifies this
      ensures results == if raises then None else Some(answer)
      ensures batchReads == old(batchReads) + [tags]
      ensures isOpen == old(isOpen) && openCalls == old(openCalls)
    {
      batchReads := batchReads + [tags];
      results := if raises then None else Some(answer);
    }
  }

  class CipPoller {
    const host: string
    const pollInterval: real
    const driver: LogixDriver

    constructor (host: string, pollInterval: real := 5.0)
      ensures this.host == host && this.pollInterval == pollInterval
      ensures fresh(driver) && driver.host == host
      ensures !driver.isOpen && driver.openCalls == 0 && driver.batchReads == []
    {
      this.host := host;
      this.pollInterval := pollInterval;
      driver := new LogixDriver(host);
    }

    /** `connect`: opens the driver; a failure propagates. */
    method Connect(transportUp: bool) returns (err: Option<CipError>)
      modifies driver
      ensures err == if transportUp then None else Some(OpenFailed)
      ensures driver.isOpen == transportUp && driver.openCalls == old(driver.openCalls) + 1
      ensures driver.batchReads == old(driver.batchReads)
    {
      var ok := driver.Open(transportUp);
      if !ok {
        return Some(OpenFailed);
      }
      err := None;
    }

    /**
     * One batch read of all tags, then one write per non-None result in
     * order; the first exception, from the read or from a result, ends the
     * batch and propagates.
     */
    method PollOnce(tags: seq<string>, bucket: string, input: CycleInput, sink: Influx.InfluxClient)
      returns (err: Option<CipError>)
      requires |input.probes| == |input.results|
      modifies driver, sink.client
      ensures driver.batchReads == old(driver.batchReads) + [tags]
      ensures driver.isOpen == old(driver.isOpen) && driver.openCalls == old(driver.openCalls)
      ensures err == CycleOf(bucket, sink.client != null, input).error
      ensures sink.client != null ==>
        sink.client.delivered == old(sink.client.delivered) + CycleOf(bucket, sink.client != null, input).written
    {
      ghost var ready := sink.client != null;
      var answered := driver.Read(tags, input.results, input.readRaises);
      if answered.None? {
        return Some(ReadFailed);
      }
      var results, probes := answered.value, input.probes;
      var i := 0;
      while i < |results|
        invariant 0 <= i <= |results|
        invariant driver.batchReads == old(driver.batchReads) + [tags]
        invariant driver.isOpen == old(driver.isOpen) && driver.openCalls == old(driver.openCalls)
        invariant CipCycle(bucket, ready, results[..i], probes[..i]).error.None?
        invariant sink.client != null ==>
          sink.client.delivered == old(sink.client.delivered) + CipCycle(bucket, ready, results[..i], probes[..i]).written
      {
        var r := results[i];
        CipCycleSnoc(bucket, ready, results, probes, i);
        match r.value {
          case NoValue =>
          case Unconvertible =>
            ErrorEndsBatch(bucket, ready, results, probes, i + 1);
            return Some(ConversionFailed(r.tag));
          case Convertible(x) =>
            var point := Influx.MakePoint(r.tag, r.tag, x, probes[i].timestampNs);
            if sink.client == null {
              ErrorEndsBatch(bucket, ready, results, probes, i + 1);
              return Some(SinkNotInitialized);
            }
            var ok := sink.client.Write(bucket, point, probes[i].storeAccepts);
            if !ok {
              ErrorEndsBatch(bucket, ready, results, probes, i + 1);
              return Some(StoreRejected);
            }
        }
        i := i + 1;
      }
      assert results[..|results|] == results && probes[..|probes|] == probes;
      err := None;
    }

    /**
     * `run`: connect once, then poll and sleep until an exception escapes or
     * the inputs run out. There is no `close` on any path.
     */
    method Run(tags: seq<string>, bucket: string, transportUp: bool, cycles: seq<CycleInput>,
               sink: Influx.InfluxClient) returns (exit: RunExit)
      requires forall k :: 0 <= k < |cycles| ==> |cycles[k].probes| == |cycles[k].results|
      modifies driver, sink.client
      ensures driver.isOpen == transportUp && driver.openCalls == old(driver.openCalls) + 1
      ensures !transportUp ==>
        && exit == Raised(OpenFailed)
        && driver.batchReads == old(driver.batchReads)
        && (sink.client != null ==> sink.client.delivered == old(sink.client.delivered))
      ensures transportUp ==>
        var st := RunProgress(bucket, sink.client != null, pollInterval < 0.0, cycles, |cycles|);
        && exit == (if st.stop.Some? then Raised(st.stop.value) else Interrupted)
        && driver.batchReads == old(driver.batchReads) + Repeat([tags], st.polled)
        && (sink.client != null ==> sink.client.delivered == old(sink.client.delivered) + st.written)
      ensures exit == Interrupted ==> driver.batchReads == old(driver.batchReads) + Repeat([tags], |cycles|)
    {
      var err := Connect(transportUp);
      if err.Some? {
        return Raised(err.value);
      }
      exit := PollForever(tags, bucket, cycles, sink);
    }

    /** The `while True` loop of `run`. */
    method PollForever(tags: seq<string>, bucket: string, cycles: seq<CycleInput>,
                       sink: Influx.InfluxClient) returns (exit: RunExit)
      requires forall k :: 0 <= k < |cycles| ==> |cycles[k].probes| == |cycles[k].results|
      modifies driver, sink.client
      ensures driver.isOpen == old(driver.isOpen) && driver.openCalls == old(driver.openCalls)
      ensures var st := RunProgress(bucket, sink.client != null, pollInterval < 0.0, cycles, |cycles|);
        && exit == (if st.stop.Some? then Raised(st.stop.value) else Interrupted)
        && driver.batchReads == old(driver.batchReads) + Repeat([tags], st.polled)
        && (sink.client != null ==> sink.client.delivered == old(sink.client.delivered) + st.written)
    {
      ghost var ready := sink.client != null;
      var negativeSleep := pollInterval < 0.0;
      var k := 0;
      while k < |cycles|
        invariant 0 <= k <= |cycles|
        invariant RunProgress(bucket, ready, negativeSleep, cycles, k).stop.None?
        invariant RunProgress(bucket, ready, negativeSleep, cycles, k).polled == k
        invariant driver.isOpen == old(driver.isOpen) && driver.openCalls == old(driver.openCalls)
        invariant driver.batchReads == old(driver.batchReads) + Repeat([tags], k)
        invariant sink.client != null ==>
          sink.client.delivered == old(sink.client.delivered) + RunProgress(bucket, ready, negativeSleep, cycles, k).written
      {
        var err := PollOnce(tags, bucket, cycles[k], sink);
        RunProgressNext(bucket, ready, negativeSleep, cycles, k);
        assert driver.batchReads == old(driver.batchReads) + Repeat([tags], k + 1);
        if err.Some? {
          StopIsFinal(bucket, ready, negativeSleep, cycles, k + 1, |cycles|);
          return Raised(err.value);
        }
        if negativeSleep {
          StopIsFinal(bucket, ready, negativeSleep, cycles, k + 1, |cycles|);
          return Raised(SleepRejected);
        }
        k := k + 1;
      }
      exit := Interrupted;
    }
  }
}
