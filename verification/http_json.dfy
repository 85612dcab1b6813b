/** The HTTP JSON poller: its configuration, the lazily opened client
    handle, the conversion of a query result into event records and the
    poll loop that turns a failed fetch into an empty batch. The HTTP
    request and the JMESPath query are outside the model: each tick receives
    the query result, or the failure, as input. */
module HttpJson {
  import opened Wrappers
  import opened Json
  import opened Utils

  /** What one fetch produced: the JMESPath search result over the
      response body, or an exception (transport error, HTTP error status,
      undecodable body). */
  datatype FetchOutcome = Fetched(searchResult: Value) | FetchFailed

  /** The HTTP client handle; only whether it is open is modelled. */
  class HttpClient {
    var open: bool

    constructor()
      ensures open
    {
      open := true;
    }

    /** `aclose()`. */
    method Close()
      modifies this
      ensures !open
    {
      open := false;
    }
  }

  function Max(a: int, b: int): (m: int)
    ensures m >= a && m >= b && (m == a || m == b)
  {
    if a >= b then a else b
  }

  /** `if self.id_path:` and `if self.updated_at_path:`: set and non-empty. */
  predicate IsSet(path: Option<string>)
  {
    path.Some? && path.value != ""
  }

  /** `items = result or []`, then anything but a list counts as no items. */
  function Items(searchResult: Value): (items: seq<Value>)
    ensures searchResult.JList? ==> items == searchResult.items
    ensures !searchResult.JList? ==> items == []
  {
    var r := Or(searchResult, JList([]));
    if r.JList? then r.items else []
  }

  class HttpJsonPoller {
    const name: string
    const intervalSeconds: int
    const idPath: Option<string>
    const updatedAtPath: Option<string>
    /** Output key to dotted path. */
    const fields: map<string, string>
    /** `_client`: `null` until the first fetch and after `close`. */
    var client: HttpClient?

    /** `HTTPJSONPoller.__init__`: the interval is clamped to at least one
        second and missing `fields` mean none. */
    constructor(name: string, intervalSeconds: int, idPath: Option<string>,
                updatedAtPath: Option<string>, fields: Option<map<string, string>>)
      ensures this.name == name
      ensures this.intervalSeconds == Max(1, intervalSeconds) && this.intervalSeconds >= 1
      ensures intervalSeconds >= 1 ==> this.intervalSeconds == intervalSeconds
      ensures this.idPath == idPath && this.updatedAtPath == updatedAtPath
      ensures this.fields == (if fields.Some? then fields.value else map[])
      ensures client == null
    {
      this.name := name;
      this.intervalSeconds := Max(1, intervalSeconds);
      this.idPath := idPath;
      this.updatedAtPath := updatedAtPath;
      this.fields := if fields.Some? then fields.value else map[];
      client := null;
    }

    /** `_get_client`: opens a client on first use and returns the same
        handle until it is closed. */
    method GetClient() returns (c: HttpClient)
      modifies this
      ensures client == c
      ensures old(client) != null ==> c == old(client)
      ensures old(client) == null ==> fresh(c) && c.open
    {
      if client == null {
        client := new HttpClient();
      }
      c := client;
    }

    /** `close`: closes the open client and forgets it; with no client it
        does nothing. */
    method Close()
      modifies this, client
      ensures client == null
      ensures old(client) != null ==> !old(client).open
      ensures old(client) == null ==> unchanged(this)
    {
      if client != null {
        client.Close();
        client := null;
      }
    }

    /** The event `_fetch` builds for one item. */
    function EventOf(item: Value): Record
    {
      var base := map k | k in fields :: Lookup(item, Some(fields[k]));
      var withId := if IsSet(idPath) then base["__id__" := JStr(Str(Lookup(item, idPath)))] else base;
      var withUpdated := if IsSet(updatedAtPath) then withId["__updated_at__" := Lookup(item, updatedAtPath)] else withId;
      withUpdated["__raw__" := item]
    }

    /** Every configured key, plus `__raw__`, plus `__id__` and
        `__updated_at__` exactly when their paths are set; `__id__` is the
        `str` of the value at the id path (`"None"` when it is missing). */
    lemma EventContents(item: Value)
      ensures var event := EventOf(item);
              && (forall k :: k in event <==>
                    || k in fields
                    || k == "__raw__"
                    || (k == "__id__" && IsSet(idPath))
                    || (k == "__updated_at__" && IsSet(updatedAtPath)))
              && event["__raw__"] == item
              && (IsSet(idPath) ==> event["__id__"] == JStr(Str(Lookup(item, idPath))))
              && (IsSet(updatedAtPath) ==> event["__updated_at__"] == Lookup(item, updatedAtPath))
              && (forall k :: k in fields && k !in {"__raw__", "__id__", "__updated_at__"} ==>
                    event[k] == Lookup(item, Some(fields[k])))
    {
    }

    /** The batch one successful fetch yields: one event per item, in order. */
    function Batch(searchResult: Value): (batch: seq<Record>)
      ensures |batch| == |Items(searchResult)|
      ensures forall i :: 0 <= i < |batch| ==> batch[i] == EventOf(Items(searchResult)[i])
    {
      var items := Items(searchResult);
      seq(|items|, i requires 0 <= i < |items| => EventOf(items[i]))
    }

    /** The record-building part of `_fetch`: one event per item, in
        order. */
    method BuildRecords(searchResult: Value) returns (out: seq<Record>)
      ensures out == Batch(searchResult)
    {
      var items := Items(searchResult);
      out := [];
      for n := 0 to |items|
        invariant |out| == n
        invariant forall i :: 0 <= i < n ==> out[i] == EventOf(items[i])
      {
        var event := BuildEvent(items[n]);
        out := out + [event];
      }
    }

    /** The body of the item loop: the configured fields, then `__id__`
        and `__updated_at__` when their paths are set, then `__raw__`. */
    method BuildEvent(item: Value) returns (event: Record)
      ensures event == EventOf(item)
    {
      hide Str, Lookup;
      event := ResolveFields(item);
      ghost var spec := map k | k in fields :: Lookup(item, Some(fields[k]));
      assert event == spec by {
        assert event.Keys == spec.Keys;
        forall k | k in event
          ensures event[k] == spec[k]
        {
        }
      }
      if IsSet(idPath) {
        var id := GetByPath(item, idPath);
        event := event["__id__" := JStr(Str(id))];
        spec := spec["__id__" := JStr(Str(Lookup(item, idPath)))];
      }
      assert event == spec;
      if IsSet(updatedAtPath) {
        var updated := GetByPath(item, updatedAtPath);
        event := event["__updated_at__" := updated];
        spec := spec["__updated_at__" := Lookup(item, updatedAtPath)];
      }
      assert event == spec;
      event := event["__raw__" := item];
      spec := spec["__raw__" := item];
      assert spec == EventOf(item);
    }

    /** The inner loop over `fields`: each output key gets the value at its
        path. */
    method ResolveFields(item: Value) returns (event: Record)
      ensures event.Keys == fields.Keys
      ensures forall k :: k in event ==> event[k] == Lookup(item, Some(fields[k]))
    {
      event := map[];
      var todo := fields.Keys;
      while todo != {}
        invariant todo <= fields.Keys
        invariant event.Keys == fields.Keys - todo
        invariant forall k :: k in event ==> event[k] == Lookup(item, Some(fields[k]))
        decreases |todo|
      {
        var k :| k in todo;
        var v := GetByPath(item, Some(fields[k]));
        event := event[k := v];
        todo := todo - {k};
      }
    }

    /** The batch a tick yields for a fetch outcome: a failure gives an
        empty batch instead of ending the loop. */
    function TickBatch(outcome: FetchOutcome): seq<Record>
    {
      match outcome
      case Fetched(r) => Batch(r)
      case FetchFailed => []
    }

    /** One iteration of `poll`: `_fetch` opens the client first, then
        either yields its events or, on an exception, an empty batch. */
    method Tick(outcome: FetchOutcome) returns (batch: seq<Record>)
      modifies this
      ensures batch == TickBatch(outcome)
      ensures client != null && (old(client) != null ==> client == old(client))
      ensures old(client) == null ==> fresh(client)
    {
      var _ := GetClient();
      match outcome
      case Fetched(r) =>
        batch := BuildRecords(r);
      case FetchFailed =>
        batch := [];
    }

    /** `poll` over a run of fetch outcomes, until the consumer stops: one
        batch per tick, and the client closed when the generator ends.
        `used` is the client the ticks fetched with: the one already open,
        or the one the first tick opened. */
    method Poll(outcomes: seq<FetchOutcome>) returns (batches: seq<seq<Record>>, ghost used: HttpClient?)
      modifies this, client
      ensures |batches| == |outcomes|
      ensures forall i :: 0 <= i < |outcomes| ==> batches[i] == TickBatch(outcomes[i])
      ensures old(client) != null ==> used == old(client)
      ensures old(client) == null && |outcomes| > 0 ==> used != null && fresh(used)
      ensures used != null ==> !used.open
      ensures client == null
    {
      batches := [];
      for n := 0 to |outcomes|
        invariant |batches| == n
        invariant forall i :: 0 <= i < n ==> batches[i] == TickBatch(outcomes[i])
        invariant old(client) != null ==> client == old(client)
        invariant old(client) == null && n > 0 ==> client != null && fresh(client)
        invariant old(client) == null && n == 0 ==> client == null
      {
        var batch := Tick(outcomes[n]);
        batches := batches + [batch];
      }
      used := client;
      Close();
    }
  }
}
