/**
 * The Modbus TCP poller of backend/app/pollers/modbus_poller.py.
 *
 * `ModbusTcpClient` stands for the pymodbus client: it records the requests
 * the poller issues and hands back whatever reply it is given. Everything the
 * outside world answers while one tag is handled (the read reply, the clock,
 * whether the store accepts the record) is a `Probe`.
 */
module Modbus {
  import opened Common
  import Influx

  /** A holding register: an unsigned 16-bit word. */
  type Word = x: int | 0 <= x < 0x1_0000

  /**
   * One entry of the tag list: the keys the poller reads (`name`, `address`,
   * optional `mult` and `dec`) and the per-tag unit id the configuration also
   * stores, which the poller never reads.
   */
  datatype Tag = Tag(name: string, address: int, mult: Option<real>, dec: Option<int>, unitId: Option<int>)

  /** One `read_holding_registers(address, count=..., unit=...)` call. */
  datatype ReadRequest = ReadRequest(address: int, count: nat, unit: int)

  /** A read's answer: a response whose `isError()` holds, registers, or an exception from the call. */
  datatype Reply = ErrorResponse | Registers(words: seq<Word>) | Raised

  /** What the outside world answers while the poller handles one tag. */
  datatype Probe = Probe(reply: Reply, timestampNs: int, storeAccepts: bool)

  /** Everything passed to `write_point` apart from the tag's own data. */
  datatype CallSite = CallSite(host: string, protocol: string, bucket: string, passTags: bool)

  /** What happened to one tag in one `poll_once`. */
  datatype TagOutcome =
    | ReadRaised       // the read raised; caught by the handler
    | SkippedError     // `isError()`: logged, then `continue`
    | NoRegister       // `registers[0]` on an empty list raised; caught
    | WriteAttempted(call: Influx.WriteCall, result: Result<Influx.Delivery, Influx.SinkError>)

  /** How `run` ended. */
  datatype RunExit =
    | ConnectFailed    // `connect` raised ConnectionError; caught, then `close`
    | SleepFailed      // `time.sleep` refused a negative interval; caught, then `close`
    | Interrupted      // stopped from outside (not an `Exception`); `close` still runs

  /** Error raised by `connect`. */
  datatype ConnectError = ConnectionError(host: string)

  /** `10 ** d` for any integer `d`, as a real. */
  function Pow10(d: int): (r: real)
    ensures r > 0.0
    decreases if d < 0 then -d else d
  {
    if d == 0 then 1.0
    else if d > 0 then 10.0 * Pow10(d - 1)
    else Pow10(d + 1) / 10.0
  }

  lemma {:induction false} Pow10Reciprocal(k: nat)
    ensures Pow10(-(k as int)) * Pow10(k) == 1.0
  {
    if k > 0 {
      Pow10Reciprocal(k - 1);
      calc {
        Pow10(-(k as int)) * Pow10(k);
        (Pow10(-((k - 1) as int)) / 10.0) * (10.0 * Pow10(k - 1));
        Pow10(-((k - 1) as int)) * Pow10(k - 1);
      }
    }
  }

  function MultOf(tag: Tag): real { tag.mult.GetOr(1.0) }

  function DecOf(tag: Tag): int { tag.dec.GetOr(0) }

  /** `raw * tag.get('mult', 1) / (10 ** tag.get('dec', 0))`. */
  function Decode(raw: Word, tag: Tag): (v: real)
    ensures v * Pow10(DecOf(tag)) == raw as real * MultOf(tag)
  {
    raw as real * MultOf(tag) / Pow10(DecOf(tag))
  }

  /** A tag with neither `mult` nor `dec` reads the register unchanged. */
  lemma DecodeDefaultIsIdentity(raw: Word, tag: Tag)
    requires tag.mult.None? && tag.dec.None?
    ensures Decode(raw, tag) == raw as real
  {
  }

  /** A negative `dec` multiplies instead of dividing. */
  lemma DecodeNegativeShift(raw: Word, tag: Tag, k: nat)
    requires tag.dec == Some(-(k as int))
    ensures Decode(raw, tag) == raw as real * MultOf(tag) * Pow10(k)
  {
    Pow10Reciprocal(k);
    var v := Decode(raw, tag);
    calc {
      v;
      v * (Pow10(-(k as int)) * Pow10(k));
      (v * Pow10(-(k as int))) * Pow10(k);
      raw as real * MultOf(tag) * Pow10(k);
    }
  }

  /** Register value 235 with one decimal reads as 23.5. */
  lemma DecodeOneDecimal()
    ensures Decode(235, Tag("temp", 10, Some(1.0), Some(1), None)) == 23.5
  {
  }

  /** The requests `poll_once` issues: one per tag, in order, one register, the poller's unit. */
  function RequestsFor(tags: seq<Tag>, unit: int): (rs: seq<ReadRequest>)
    ensures |rs| == |tags|
    ensures forall i :: 0 <= i < |tags| ==> rs[i] == ReadRequest(tags[i].address, 1, unit)
  {
    if |tags| == 0 then []
    else RequestsFor(tags[..|tags| - 1], unit) + [ReadRequest(tags[|tags| - 1].address, 1, unit)]
  }

  /** A tag's own unit id never reaches the wire: every read uses the poller's unit. */
  lemma ReadsIgnoreTagUnit(tags: seq<Tag>, unit: int, i: nat, u: int)
    requires i < |tags| && tags[i].unitId == Some(u) && u != unit
    ensures RequestsFor(tags, unit)[i].unit == unit && unit != u
  {
  }

  /** The `write_point` call for one decoded tag. */
  function WriteCallFor(site: CallSite, tag: Tag, value: real, timestampNs: int): (call: Influx.WriteCall)
    ensures call.bucket == site.bucket && call.measurement == "modbus_data" && call.field == tag.name
    ensures call.value == value && call.timestampNs == timestampNs
    ensures call.tags.Some? <==> site.passTags
  {
    Influx.WriteCall(site.bucket, "modbus_data", tag.name, value, timestampNs,
      if site.passTags then Some(map["plc" := site.host, "protocol" := site.protocol]) else None)
  }

  /** A read that yields a value to write. */
  predicate GoodRead(p: Probe) {
    p.reply.Registers? && |p.reply.words| > 0
  }

  /** The body of the `for` loop for one tag; `ready` says whether `_client` is set. */
  function TagStep(site: CallSite, ready: bool, tag: Tag, p: Probe): (o: TagOutcome)
    ensures o.WriteAttempted? <==> GoodRead(p)
    ensures p.reply.Raised? ==> o == ReadRaised
    ensures p.reply.ErrorResponse? ==> o == SkippedError
    ensures o.WriteAttempted? ==>
      && o.call == WriteCallFor(site, tag, Decode(p.reply.words[0], tag), p.timestampNs)
      && o.result == Influx.WriteResult(o.call, ready, p.storeAccepts)
  {
    match p.reply
    case Raised => ReadRaised
    case ErrorResponse => SkippedError
    case Registers(words) =>
      if |words| == 0 then NoRegister
      else
        var call := WriteCallFor(site, tag, Decode(words[0], tag), p.timestampNs);
        WriteAttempted(call, Influx.WriteResult(call, ready, p.storeAccepts))
  }

  /** The outcomes of one `poll_once`, tag by tag, in list order. */
  function CycleOutcomes(site: CallSite, ready: bool, tags: seq<Tag>, probes: seq<Probe>): (out: seq<TagOutcome>)
    requires |probes| == |tags|
    ensures |out| == |tags|
  {
    if |tags| == 0 then []
    else
      var n := |tags| - 1;
      CycleOutcomes(site, ready, tags[..n], probes[..n]) + [TagStep(site, ready, tags[n], probes[n])]
  }

  /**
   * Each tag's outcome depends on that tag and its probe alone: whatever
   * happened to earlier tags was caught and does not reach later ones.
   */
  lemma {:induction false} OutcomeIsolated(site: CallSite, ready: bool, tags: seq<Tag>, probes: seq<Probe>, i: nat)
    requires |probes| == |tags| && i < |tags|
    ensures CycleOutcomes(site, ready, tags, probes)[i] == TagStep(site, ready, tags[i], probes[i])
  {
    var n := |tags| - 1;
    if i < n {
      OutcomeIsolated(site, ready, tags[..n], probes[..n], i);
    }
  }

  lemma CycleOutcomesCons(site: CallSite, ready: bool, tags: seq<Tag>, probes: seq<Probe>)
    requires |probes| == |tags| && |tags| > 0
    ensures Delivered(CycleOutcomes(site, ready, tags, probes))
         == StoredBy(TagStep(site, ready, tags[0], probes[0])) + Delivered(CycleOutcomes(site, ready, tags[1..], probes[1..]))
  {
    var out := CycleOutcomes(site, ready, tags, probes);
    var rest := CycleOutcomes(site, ready, tags[1..], probes[1..]);
    forall j | 0 <= j < |out|
      ensures out[j] == ([TagStep(site, ready, tags[0], probes[0])] + rest)[j]
    {
      OutcomeIsolated(site, ready, tags, probes, j);
      if j > 0 {
        OutcomeIsolated(site, ready, tags[1..], probes[1..], j - 1);
      }
    }
    assert out == [TagStep(site, ready, tags[0], probes[0])] + rest;
    assert out[1..] == rest;
  }

  lemma CycleOutcomesSnoc(site: CallSite, ready: bool, tags: seq<Tag>, probes: seq<Probe>, i: nat)
    requires |probes| == |tags| && i < |tags|
    ensures CycleOutcomes(site, ready, tags[..i + 1], probes[..i + 1])
         == CycleOutcomes(site, ready, tags[..i], probes[..i]) + [TagStep(site, ready, tags[i], probes[i])]
  {
    assert tags[..i + 1][..i] == tags[..i];
    assert probes[..i + 1][..i] == probes[..i];
  }

  lemma RequestsSnoc(tags: seq<Tag>, unit: int, i: nat)
    requires i < |tags|
    ensures RequestsFor(tags[..i + 1], unit) == RequestsFor(tags[..i], unit) + [ReadRequest(tags[i].address, 1, unit)]
  {
    assert tags[..i + 1][..i] == tags[..i];
  }

  /** A tag is written to only after a good read, and then exactly once, with the decoded value. */
  lemma AttemptExactlyOnGoodRead(site: CallSite, ready: bool, tags: seq<Tag>, probes: seq<Probe>, i: nat)
    requires |probes| == |tags| && i < |tags|
    ensures var o := CycleOutcomes(site, ready, tags, probes)[i];
      && (o.WriteAttempted? <==> GoodRead(probes[i]))
      && (probes[i].reply.ErrorResponse? ==> o == SkippedError)
      && (o.WriteAttempted? ==>
            o.call.measurement == "modbus_data" && o.call.field == tags[i].name
            && o.call.value == Decode(probes[i].reply.words[0], tags[i])
            && o.call.timestampNs == probes[i].timestampNs)
  {
    OutcomeIsolated(site, ready, tags, probes, i);
  }

  /** The records stored by a sequence of outcomes, in order. */
  function Delivered(out: seq<TagOutcome>): (d: seq<Influx.Delivery>)
    ensures |d| <= |out|
  {
    if |out| == 0 then []
    else StoredBy(out[0]) + Delivered(out[1..])
  }

  function StoredBy(o: TagOutcome): seq<Influx.Delivery> {
    if o.WriteAttempted? && o.result.Ok? then [o.result.value] else []
  }

  lemma {:induction false} DeliveredAppend(a: seq<TagOutcome>, b: seq<TagOutcome>)
    ensures Delivered(a + b) == Delivered(a) + Delivered(b)
  {
    if |a| == 0 {
      assert a + b == b;
    } else {
      assert (a + b)[1..] == a[1..] + b;
      DeliveredAppend(a[1..], b);
    }
  }

  lemma DeliveredSnoc(a: seq<TagOutcome>, o: TagOutcome)
    ensures Delivered(a + [o]) == Delivered(a) + StoredBy(o)
  {
    DeliveredAppend(a, [o]);
    assert Delivered([o]) == StoredBy(o) + Delivered([]);
  }

  /** Outcomes in which no write succeeded store nothing. */
  lemma {:induction false} DeliveredNothing(out: seq<TagOutcome>)
    requires forall i :: 0 <= i < |out| ==> !(out[i].WriteAttempted? && out[i].result.Ok?)
    ensures Delivered(out) == []
  {
    if |out| > 0 {
      DeliveredNothing(out[1..]);
    }
  }

  /**
   * The call as written passes `tags=`, which `write_point` does not accept:
   * every write attempt raises and no record is ever stored.
   */
  lemma AsWrittenDeliversNothing(site: CallSite, ready: bool, tags: seq<Tag>, probes: seq<Probe>)
    requires |probes| == |tags| && site.passTags
    ensures forall i :: 0 <= i < |tags| && CycleOutcomes(site, ready, tags, probes)[i].WriteAttempted? ==>
      CycleOutcomes(site, ready, tags, probes)[i].result == Err(Influx.UnexpectedKeyword)
    ensures Delivered(CycleOutcomes(site, ready, tags, probes)) == []
  {
    forall i | 0 <= i < |tags|
      ensures CycleOutcomes(site, ready, tags, probes)[i] == TagStep(site, ready, tags[i], probes[i])
    {
      OutcomeIsolated(site, ready, tags, probes, i);
    }
    DeliveredNothing(CycleOutcomes(site, ready, tags, probes));
  }

  /** Reference definition: the record stored for each good read the store accepts, in tag order. */
  function ExpectedDeliveries(bucket: string, tags: seq<Tag>, probes: seq<Probe>): (d: seq<Influx.Delivery>)
    requires |probes| == |tags|
    ensures |d| <= |tags|
    ensures forall i :: 0 <= i < |d| ==> d[i].bucket == bucket && d[i].record.measurement == "modbus_data"
  {
    if |tags| == 0 then []
    else
      (if GoodRead(probes[0]) && probes[0].storeAccepts
       then [Influx.Delivery(bucket, Influx.MakePoint("modbus_data", tags[0].name,
               Decode(probes[0].reply.words[0], tags[0]), probes[0].timestampNs))]
       else [])
      + ExpectedDeliveries(bucket, tags[1..], probes[1..])
  }

  /**
   * With the `tags=` keyword dropped, one `poll_once` stores exactly one
   * record per good read the store accepts, in tag order, and nothing while
   * the sink is not initialised.
   */
  lemma {:induction false} CorrectedDeliversGoodReads(site: CallSite, ready: bool, tags: seq<Tag>, probes: seq<Probe>)
    requires |probes| == |tags| && !site.passTags
    ensures Delivered(CycleOutcomes(site, ready, tags, probes))
         == if ready then ExpectedDeliveries(site.bucket, tags, probes) else []
  {
    if |tags| > 0 {
      CycleOutcomesCons(site, ready, tags, probes);
      CorrectedDeliversGoodReads(site, ready, tags[1..], probes[1..]);
    }
  }

  /**
   * A store failure on one tag does not keep the next one from being
   * written in the same cycle.
   */
  lemma StoreFailureSparesNextTag(site: CallSite, a: Tag, b: Tag, pa: Probe, pb: Probe)
    requires !site.passTags && GoodRead(pa) && GoodRead(pb) && !pa.storeAccepts && pb.storeAccepts
    ensures Delivered(CycleOutcomes(site, true, [a, b], [pa, pb]))
         == [Influx.Delivery(site.bucket, Influx.MakePoint("modbus_data", b.name, Decode(pb.reply.words[0], b), pb.timestampNs))]
  {
    CorrectedDeliversGoodReads(site, true, [a, b], [pa, pb]);
    assert [a, b][1..] == [b] && [pa, pb][1..] == [pb];
  }

  /** When every read but one is good and the store takes everything, all other tags are stored. */
  lemma {:induction false} OneFailedReadSparesTheRest(bucket: string, tags: seq<Tag>, probes: seq<Probe>, k: nat)
    requires |probes| == |tags| && k < |tags|
    requires !GoodRead(probes[k])
    requires forall i :: 0 <= i < |tags| && i != k ==> GoodRead(probes[i]) && probes[i].storeAccepts
    ensures |ExpectedDeliveries(bucket, tags, probes)| == |tags| - 1
  {
    if k == 0 {
      AllGoodAllStored(bucket, tags[1..], probes[1..]);
    } else {
      OneFailedReadSparesTheRest(bucket, tags[1..], probes[1..], k - 1);
    }
  }

  lemma {:induction false} AllGoodAllStored(bucket: string, tags: seq<Tag>, probes: seq<Probe>)
    requires |probes| == |tags|
    requires forall i :: 0 <= i < |tags| ==> GoodRead(probes[i]) && probes[i].storeAccepts
    ensures |ExpectedDeliveries(bucket, tags, probes)| == |tags|
  {
    if |tags| > 0 {
      AllGoodAllStored(bucket, tags[1..], probes[1..]);
    }
  }

  /** Records stored over the first `n` cycles, cycle after cycle. */
  function RunDelivered(site: CallSite, ready: bool, tags: seq<Tag>, cycles: seq<seq<Probe>>, n: nat): (d: seq<Influx.Delivery>)
    requires forall k :: 0 <= k < |cycles| ==> |cycles[k]| == |tags|
    requires n <= |cycles|
  {
    if n == 0 then []
    else RunDelivered(site, ready, tags, cycles, n - 1) + Delivered(CycleOutcomes(site, ready, tags, cycles[n - 1]))
  }

  /** Over `n` cycles, `run` stores at most one record per tag per cycle. */
  lemma {:induction false} RunDeliveredBound(site: CallSite, ready: bool, tags: seq<Tag>, cycles: seq<seq<Probe>>, n: nat)
    requires forall k :: 0 <= k < |cycles| ==> |cycles[k]| == |tags|
    requires n <= |cycles|
    ensures |RunDelivered(site, ready, tags, cycles, n)| <= n * |tags|
  {
    if n > 0 {
      RunDeliveredBound(site, ready, tags, cycles, n - 1);
      assert (n - 1) * |tags| + |tags| == n * |tags|;
    }
  }

  /** As written, a whole run stores nothing, however many cycles it polls. */
  lemma {:induction false} AsWrittenRunDeliversNothing(site: CallSite, ready: bool, tags: seq<Tag>, cycles: seq<seq<Probe>>, n: nat)
    requires forall k :: 0 <= k < |cycles| ==> |cycles[k]| == |tags|
    requires n <= |cycles| && site.passTags
    ensures RunDelivered(site, ready, tags, cycles, n) == []
  {
    if n > 0 {
      AsWrittenRunDeliversNothing(site, ready, tags, cycles, n - 1);
      assert Delivered(CycleOutcomes(site, ready, tags, cycles[n - 1])) == [] by {
        AsWrittenDeliversNothing(site, ready, tags, cycles[n - 1]);
      }
    }
  }

  /** How many cycles `run` polls before it stops, given `available` cycles of inputs. */
  function CyclesRun(connected: bool, pollInterval: real, available: nat): (n: nat)
    ensures n <= available
    ensures !connected ==> n == 0
    ensures pollInterval < 0.0 ==> n <= 1
    ensures connected && (pollInterval >= 0.0 || available == 0) ==> n == available
  {
    if !connected then 0
    else if pollInterval < 0.0 then (if available == 0 then 0 else 1)
    else available
  }

  /** The pymodbus `ModbusTcpClient`, as far as the poller uses it. */
  class ModbusTcpClient {
    const host: string
    var connected: bool
    var requests: seq<ReadRequest>
    var closeCalls: nat

    constructor (host: string)
      ensures this.host == host && !connected && requests == [] && closeCalls == 0
    {
      this.host := host;
      connected := false;
      requests := [];
      closeCalls := 0;
    }

    method Connect(transportUp: bool) returns (ok: bool)
      modifies this
      ensures ok == transportUp && connected == transportUp
      ensures requests == old(requests) && closeCalls == old(closeCalls)
    {
      connected := transportUp;
      ok := transportUp;
    }

    method ReadHoldingRegisters(address: int, count: nat, unit: int, reply: Reply) returns (rr: Reply)
      modifies this
      ensures rr == reply
      ensures requests == old(requests) + [ReadRequest(address, count, unit)]
      ensures connected == old(connected) && closeCalls == old(closeCalls)
    {
      requests := requests + [ReadRequest(address, count, unit)];
      rr := reply;
    }

    /** Closes the socket; reports whether it raised instead. */
    method Close(raises: bool) returns (ok: bool)
      modifies this
      ensures ok == !raises && closeCalls == old(closeCalls) + 1
      ensures connected == (old(connected) && raises)
      ensures requests == old(requests)
    {
      closeCalls := closeCalls + 1;
      ok := !raises;
      if ok {
        connected := false;
      }
    }
  }

  class ModbusPoller {
    const host: string
    const protocol: string
    const unit: int
    const pollInterval: real
    const client: ModbusTcpClient

    constructor (host: string, protocol: string, unit: int := 1, pollInterval: real := 5.0)
      ensures this.host == host && this.protocol == protocol
      ensures this.unit == unit && this.pollInterval == pollInterval
      ensures fresh(client) && client.host == host
      ensures !client.connected && client.requests == [] && client.closeCalls == 0
    {
      this.host := host;
      this.protocol := protocol;
      this.unit := unit;
      this.pollInterval := pollInterval;
      client := new ModbusTcpClient(host);
    }

    /** Raises ConnectionError exactly when the client could not connect. */
    method Connect(transportUp: bool) returns (err: Option<ConnectError>)
      modifies client
      ensures err == if transportUp then None else Some(ConnectionError(host))
      ensures client.connected == transportUp
      ensures client.requests == old(client.requests) && client.closeCalls == old(client.closeCalls)
    {
      var ok := client.Connect(transportUp);
      if !ok {
        return Some(ConnectionError(host));
      }
      err := None;
    }

    /**
     * One read per tag in list order, each isolated from the others; a good
     * read is decoded and written. Never raises.
     */
    method PollOnce(tags: seq<Tag>, bucket: string, probes: seq<Probe>, sink: Influx.InfluxClient, passTags: bool)
      requires |probes| == |tags|
      modifies client, sink.client
      ensures client.requests == old(client.requests) + RequestsFor(tags, unit)
      ensures client.connected == old(client.connected) && client.closeCalls == old(client.closeCalls)
      ensures sink.client != null ==>
        sink.client.delivered == old(sink.client.delivered)
          + Delivered(CycleOutcomes(CallSite(host, protocol, bucket, passTags), true, tags, probes))
    {
      var site := CallSite(host, protocol, bucket, passTags);
      ghost var ready := sink.client != null;
      var i := 0;
      while i < |tags|
        invariant 0 <= i <= |tags|
        invariant client.requests == old(client.requests) + RequestsFor(tags[..i], unit)
        invariant client.connected == old(client.connected) && client.closeCalls == old(client.closeCalls)
        invariant sink.client != null ==>
          sink.client.delivered == old(sink.client.delivered) + Delivered(CycleOutcomes(site, ready, tags[..i], probes[..i]))
      {
        PollTag(site, tags[i], probes[i], sink);
        RequestsSnoc(tags, unit, i);
        CycleOutcomesSnoc(site, ready, tags, probes, i);
        DeliveredSnoc(CycleOutcomes(site, ready, tags[..i], probes[..i]), TagStep(site, ready, tags[i], probes[i]));
        i := i + 1;
      }
      assert tags[..|tags|] == tags;
      assert probes[..|probes|] == probes;
    }

    /** The `try` block for one tag: read, skip on error, decode, write; anything raised is caught. */
    method PollTag(site: CallSite, tag: Tag, probe: Probe, sink: Influx.InfluxClient)
      modifies client, sink.client
      ensures client.requests == old(client.requests) + [ReadRequest(tag.address, 1, unit)]
      ensures client.connected == old(client.connected) && client.closeCalls == old(client.closeCalls)
      ensures sink.client != null ==>
        sink.client.delivered == old(sink.client.delivered) + StoredBy(TagStep(site, true, tag, probe))
    {
      var rr := client.ReadHoldingRegisters(tag.address, 1, unit, probe.reply);
      match rr {
        case Raised =>
        case ErrorResponse =>
        case Registers(words) =>
          if |words| > 0 {
            var value := Decode(words[0], tag);
            var call := WriteCallFor(site, tag, value, probe.timestampNs);
            var _ := sink.WritePoint(call, probe.storeAccepts);
          }
      }
    }

    /** Closes the client; an error from the library is logged, never raised. */
    method Close(raises: bool)
      modifies client
      ensures client.closeCalls == old(client.closeCalls) + 1
      ensures client.connected == (old(client.connected) && raises)
      ensures client.requests == old(client.requests)
    {
      var _ := client.Close(raises);
    }

    /**
     * Connect, then poll one cycle per element of `cycles`, sleeping in
     * between; `close` runs once on every way out.
     */
    method Run(tags: seq<Tag>, bucket: string, transportUp: bool, cycles: seq<seq<Probe>>,
               closeRaises: bool, sink: Influx.InfluxClient, passTags: bool) returns (exit: RunExit)
      requires forall k :: 0 <= k < |cycles| ==> |cycles[k]| == |tags|
      modifies client, sink.client
      ensures client.closeCalls == old(client.closeCalls) + 1
      ensures !closeRaises ==> !client.connected
      ensures exit == if !transportUp then ConnectFailed
                      else if pollInterval < 0.0 && |cycles| > 0 then SleepFailed
                      else Interrupted
      ensures var n := CyclesRun(transportUp, pollInterval, |cycles|);
        && client.requests == old(client.requests) + Repeat(RequestsFor(tags, unit), n)
        && (sink.client != null ==>
              sink.client.delivered == old(sink.client.delivered)
                + RunDelivered(CallSite(host, protocol, bucket, passTags), true, tags, cycles, n))
    {
      var err := Connect(transportUp);
      if err.Some? {
        exit := ConnectFailed;
      } else {
        exit := PollForever(tags, bucket, cycles, sink, passTags);
      }
      Close(closeRaises);
    }

    /** The `while True` loop of `run`: poll, then sleep, until something stops it. */
    method PollForever(tags: seq<Tag>, bucket: string, cycles: seq<seq<Probe>>,
                       sink: Influx.InfluxClient, passTags: bool) returns (exit: RunExit)
      requires forall k :: 0 <= k < |cycles| ==> |cycles[k]| == |tags|
      modifies client, sink.client
      ensures exit == if pollInterval < 0.0 && |cycles| > 0 then SleepFailed else Interrupted
      ensures client.closeCalls == old(client.closeCalls)
      ensures var n := CyclesRun(true, pollInterval, |cycles|);
        && client.requests == old(client.requests) + Repeat(RequestsFor(tags, unit), n)
        && (sink.client != null ==>
              sink.client.delivered == old(sink.client.delivered)
                + RunDelivered(CallSite(host, protocol, bucket, passTags), true, tags, cycles, n))
    {
      var site := CallSite(host, protocol, bucket, passTags);
      exit := Interrupted;
      var k := 0;
      while k < |cycles|
        invariant 0 <= k <= |cycles|
        invariant pollInterval < 0.0 ==> k == 0
        invariant client.requests == old(client.requests) + Repeat(RequestsFor(tags, unit), k)
        invariant client.closeCalls == old(client.closeCalls)
        invariant sink.client != null ==>
          sink.client.delivered == old(sink.client.delivered) + RunDelivered(site, true, tags, cycles, k)
        invariant exit == Interrupted
      {
        PollOnce(tags, bucket, cycles[k], sink, passTags);
        k := k + 1;
        if pollInterval < 0.0 {
          exit := SleepFailed;
          break;
        }
      }
    }
  }
}
