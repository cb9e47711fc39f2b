/**
 * The process-wide InfluxDB sink of backend/app/influx.py: the `InfluxClient`
 * class object with its `_client` attribute, `init`, and `write_point`.
 *
 * The influxdb_client library is represented by `DbClient`, which only
 * records the records its write API handed to the store; whether the store
 * accepts a record is a parameter of each write.
 */
module Influx {
  import opened Common

  /** A point as handed to the write API: measurement, field map and time. */
  datatype PointRecord = PointRecord(measurement: string, fields: map<string, real>, time: int)

  /** A record the store accepted, with the bucket it was written to. */
  datatype Delivery = Delivery(bucket: string, record: PointRecord)

  /**
   * One keyword call of `write_point`. `tags` is `Some` when the caller also
   * passes a `tags=` keyword, which the signature does not declare.
   */
  datatype WriteCall = WriteCall(
    bucket: string,
    measurement: string,
    field: string,
    value: real,
    timestampNs: int,
    tags: Option<map<string, string>>)

  /** Why a `write_point` call raised. */
  datatype SinkError =
    | UnexpectedKeyword   // TypeError: an argument the signature does not declare
    | NotInitialized      // AttributeError: `_client` is still None
    | StoreRejected       // the library's write raised

  /** The point record `write_point` builds: one field, keyed by `field`. */
  function MakePoint(measurement: string, field: string, value: real, timestampNs: int): (p: PointRecord)
    ensures p.measurement == measurement && p.time == timestampNs
    ensures p.fields.Keys == {field} && p.fields[field] == value
  {
    PointRecord(measurement, map[field := value], timestampNs)
  }

  /** A point built by `MakePoint` gives back every argument it was built from. */
  lemma MakePointInjective(m1: string, f1: string, v1: real, t1: int, m2: string, f2: string, v2: real, t2: int)
    ensures MakePoint(m1, f1, v1, t1) == MakePoint(m2, f2, v2, t2) <==> m1 == m2 && f1 == f2 && v1 == v2 && t1 == t2
  {
    if MakePoint(m1, f1, v1, t1) == MakePoint(m2, f2, v2, t2) {
      assert f1 in MakePoint(m2, f2, v2, t2).fields;
    }
  }

  /**
   * What one `write_point` call does, given whether `_client` is set and
   * whether the store accepts the record.
   */
  function WriteResult(call: WriteCall, initialized: bool, storeAccepts: bool): (r: Result<Delivery, SinkError>)
    ensures r.Ok? <==> call.tags.None? && initialized && storeAccepts
    ensures r.Ok? ==> r.value == Delivery(call.bucket, MakePoint(call.measurement, call.field, call.value, call.timestampNs))
    ensures call.tags.Some? ==> r == Err(UnexpectedKeyword)
    ensures call.tags.None? && !initialized ==> r == Err(NotInitialized)
    ensures call.tags.None? && initialized && !storeAccepts ==> r == Err(StoreRejected)
  {
    if call.tags.Some? then Err(UnexpectedKeyword)
    else if !initialized then Err(NotInitialized)
    else if !storeAccepts then Err(StoreRejected)
    else Ok(Delivery(call.bucket, MakePoint(call.measurement, call.field, call.value, call.timestampNs)))
  }

  /** An `InfluxDBClient` instance: its settings and what its write API delivered. */
  class DbClient {
    const url: string
    const token: string
    const org: string
    var delivered: seq<Delivery>

    constructor (url: string, token: string, org: string)
      ensures this.url == url && this.token == token && this.org == org
      ensures delivered == []
    {
      this.url := url;
      this.token := token;
      this.org := org;
      delivered := [];
    }

    /** `write_api().write(bucket=..., record=...)`: raises unless the store accepts. */
    method Write(bucket: string, record: PointRecord, storeAccepts: bool) returns (ok: bool)
      modifies this
      ensures ok == storeAccepts
      ensures delivered == if ok then old(delivered) + [Delivery(bucket, record)] else old(delivered)
    {
      ok := storeAccepts;
      if ok {
        delivered := delivered + [Delivery(bucket, record)];
      }
    }
  }

  /**
   * The `InfluxClient` class object. The program has exactly one; its
   * class attribute `_client` is the field `client`.
   */
  class InfluxClient {
    var client: DbClient?

    /** The class definition: `_client` starts out as None. */
    constructor ()
      ensures client == null
    {
      client := null;
    }

    /** `init`: replaces `_client` with a fresh client, whatever was there before. */
    method Init(url: string, token: string, org: string)
      modifies this
      ensures client != null && fresh(client)
      ensures client.url == url && client.token == token && client.org == org
      ensures client.delivered == []
    {
      client := new DbClient(url, token, org);
    }

    /**
     * `write_point`: a call with an undeclared keyword is refused before the
     * body runs; otherwise the body needs `_client` and then the store.
     */
    method WritePoint(call: WriteCall, storeAccepts: bool) returns (r: Result<Delivery, SinkError>)
      modifies client
      ensures r == WriteResult(call, client != null, storeAccepts)
      ensures client != null ==> client.delivered == old(client.delivered) + (if r.Ok? then [r.value] else [])
    {
      if call.tags.Some? {
        return Err(UnexpectedKeyword);
      }
      if client == null {
        return Err(NotInitialized);
      }
      var point := MakePoint(call.measurement, call.field, call.value, call.timestampNs);
      var ok := client.Write(call.bucket, point, storeAccepts);
      if ok {
        r := Ok(Delivery(call.bucket, point));
      } else {
        r := Err(StoreRejected);
      }
    }
  }
}
