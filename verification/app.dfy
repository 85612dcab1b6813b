/** The lowest-price tracker: the per-poller options (`where`, `where_gte`,
    `pick`), the pre-filter and post-process steps, the choice of the lowest
    record, the tracking decision taken on each batch, and the worker loop
    that feeds polled batches through them. */
module App {
  import opened Wrappers
  import opened Json
  import opened FileState
  import opened HttpJson
  import opened Routing
  import opened Seqs

  /** The options of one poller, each section as `opt.get(name) or {}`. */
  datatype WorkerOptions = WorkerOptions(whereEq: map<string, Value>, whereGte: map<string, Value>, pick: map<string, Value>)

  // ---------------------------------------------------------------------
  // Pre-filter

  /** One stage of the pre-filter: field equality (`where`) or numeric
      thresholds (`where_gte`). */
  datatype Test = Equals(fields: map<string, Value>) | AtLeast(fields: map<string, Value>)

  /** `float(e.get(f) or 0) >= float(minVal)`, where either conversion
      raising excludes the record. */
  predicate MeetsThreshold(e: Record, f: string, minVal: Value)
  {
    var v := FloatOrZero(Get(e, f));
    var m := Float(minVal);
    v.Some? && m.Some? && v.value >= m.value
  }

  predicate Passes(e: Record, t: Test)
  {
    match t
    case Equals(fields) => forall f :: f in fields ==> PyEq(Get(e, f), fields[f])
    case AtLeast(fields) => forall f :: f in fields ==> MeetsThreshold(e, f, fields[f])
  }

  /** The records of `s` that pass `t`, in their original order. */
  function Filter(s: seq<Record>, t: Test): seq<Record>
  {
    if s == [] then []
    else Filter(s[..|s| - 1], t) + (if Passes(s[|s| - 1], t) then [s[|s| - 1]] else [])
  }

  /** The pre-filter: the `where` stage, then the `where_gte` stage. */
  function PreFiltered(events: seq<Record>, opt: WorkerOptions): seq<Record>
  {
    Filter(Filter(events, Equals(opt.whereEq)), AtLeast(opt.whereGte))
  }

  /** A record is kept iff it is in the input and passes both stages. */
  lemma {:induction false} FilterMembers(s: seq<Record>, t: Test)
    ensures |Filter(s, t)| <= |s|
    ensures forall e :: e in Filter(s, t) <==> e in s && Passes(e, t)
  {
    if s != [] {
      FilterMembers(s[..|s| - 1], t);
      assert s == s[..|s| - 1] + [s[|s| - 1]];
    }
  }

  /** Filtering commutes with concatenation, so the survivors keep the
      order they had in the input. */
  lemma {:induction false} FilterAppend(a: seq<Record>, b: seq<Record>, t: Test)
    ensures Filter(a + b, t) == Filter(a, t) + Filter(b, t)
  {
    if b == [] {
      assert a + b == a;
    } else {
      var b' := b[..|b| - 1];
      assert (a + b)[..|a + b| - 1] == a + b';
      assert (a + b)[|a + b| - 1] == b[|b| - 1];
      FilterAppend(a, b', t);
    }
  }

  /** A stage every record passes changes nothing; an empty section is such
      a stage. */
  lemma {:induction false} FilterKeepsAll(s: seq<Record>, t: Test)
    requires forall e :: e in s ==> Passes(e, t)
    ensures Filter(s, t) == s
  {
    if s != [] {
      var init, last := s[..|s| - 1], s[|s| - 1];
      assert s == init + [last];
      assert Passes(last, t);
      FilterKeepsAll(init, t);
    }
  }

  lemma PreFilterMembers(events: seq<Record>, opt: WorkerOptions)
    ensures |PreFiltered(events, opt)| <= |events|
    ensures forall e :: e in PreFiltered(events, opt) <==>
              e in events && Passes(e, Equals(opt.whereEq)) && Passes(e, AtLeast(opt.whereGte))
  {
    FilterMembers(events, Equals(opt.whereEq));
    FilterMembers(Filter(events, Equals(opt.whereEq)), AtLeast(opt.whereGte));
  }

  lemma PreFilterAppend(a: seq<Record>, b: seq<Record>, opt: WorkerOptions)
    ensures PreFiltered(a + b, opt) == PreFiltered(a, opt) + PreFiltered(b, opt)
  {
    FilterAppend(a, b, Equals(opt.whereEq));
    FilterAppend(Filter(a, Equals(opt.whereEq)), Filter(b, Equals(opt.whereEq)), AtLeast(opt.whereGte));
  }

  /** With neither `where` nor `where_gte`, the pre-filter is the identity. */
  lemma PreFilterIdentity(events: seq<Record>, opt: WorkerOptions)
    requires opt.whereEq == map[] && opt.whereGte == map[]
    ensures PreFiltered(events, opt) == events
  {
    FilterKeepsAll(events, Equals(opt.whereEq));
    FilterKeepsAll(events, AtLeast(opt.whereGte));
  }

  /** The inner loop of the `where_gte` stage: every threshold is checked,
      stopping at the first that fails or raises. */
  method PassesThresholds(e: Record, whereGte: map<string, Value>) returns (ok: bool)
    ensures ok <==> Passes(e, AtLeast(whereGte))
  {
    ok := true;
    var todo := whereGte.Keys;
    while todo != {}
      invariant todo <= whereGte.Keys
      invariant forall f :: f in whereGte && f !in todo ==> MeetsThreshold(e, f, whereGte[f])
      decreases |todo|
    {
      var f :| f in todo;
      var v := FloatOrZero(Get(e, f));
      var m := Float(whereGte[f]);
      if v.None? || m.None? || v.value < m.value {
        assert !MeetsThreshold(e, f, whereGte[f]);
        ok := false;
        break;
      }
      todo := todo - {f};
    }
  }

  /** `_apply_pre_filter`. */
  method PreFilter(events: seq<Record>, opt: WorkerOptions) returns (result: seq<Record>)
    ensures result == PreFiltered(events, opt)
  {
    result := events;
    if opt.whereEq != map[] {
      result := Filter(result, Equals(opt.whereEq));
    } else {
      FilterKeepsAll(events, Equals(opt.whereEq));
    }
    if opt.whereGte != map[] {
      var filtered: seq<Record> := [];
      for n := 0 to |result|
        invariant filtered == Filter(result[..n], AtLeast(opt.whereGte))
      {
        var ok := PassesThresholds(result[n], opt.whereGte);
        assert result[..n + 1][..n] == result[..n];
        if ok {
          filtered := filtered + [result[n]];
        }
      }
      assert result[..|result|] == result;
      result := filtered;
    } else {
      FilterKeepsAll(result, AtLeast(opt.whereGte));
    }
  }

  // ---------------------------------------------------------------------
  // The lowest record

  /** A list or mapping key: `dict.get` with it raises `TypeError`. */
  predicate Unhashable(key: Value)
  {
    key.JList? || key.JObj?
  }

  /** `r.get(key)` for a hashable key taken from the configuration: records
      have string keys only, so any other key finds nothing. With an
      unhashable key `get` raises; `PriceOf` and `Decide` carry that raise,
      and the other uses of `KeyGet` are reached only after them. */
  function KeyGet(r: Record, key: Value): (v: Value)
    ensures !key.JStr? ==> v == JNull
    ensures key.JStr? ==> v == Get(r, key.s)
  {
    if key.JStr? then Get(r, key.s) else JNull
  }

  /** `float(r.get(key) or 0)`, `None` where it raises: for an unhashable
      key, or for a value `float` rejects. */
  function PriceOf(r: Record, key: Value): (p: Option<real>)
    ensures Unhashable(key) ==> p.None?
    ensures !Unhashable(key) ==> p == FloatOrZero(KeyGet(r, key))
  {
    if Unhashable(key) then None else FloatOrZero(KeyGet(r, key))
  }

  predicate AllPriced(events: seq<Record>, key: Value)
  {
    forall i :: 0 <= i < |events| ==> PriceOf(events[i], key).Some?
  }

  /** The key `min` compares, record by record. */
  function Prices(events: seq<Record>, key: Value): (ps: seq<real>)
    requires AllPriced(events, key)
    ensures |ps| == |events|
    ensures forall i :: 0 <= i < |events| ==> ps[i] == PriceOf(events[i], key).value
  {
    seq(|events|, i requires 0 <= i < |events| => PriceOf(events[i], key).value)
  }

  /** Python's `min` over keys `ps`: the first index whose key is minimal. */
  function ArgMin(ps: seq<real>): (k: nat)
    requires |ps| > 0
    ensures k < |ps|
    ensures forall i :: 0 <= i < |ps| ==> ps[k] <= ps[i]
    ensures forall i :: 0 <= i < k ==> ps[k] < ps[i]
  {
    if |ps| == 1 then 0
    else
      var j := ArgMin(ps[..|ps| - 1]);
      if ps[|ps| - 1] < ps[j] then |ps| - 1 else j
  }

  /** The index `min(..., key=lambda x: float(x.get(key) or 0))` picks, or
      0 when one of the conversions raises and the code falls back to the
      first record. */
  function LowestIndex(events: seq<Record>, key: Value): (k: nat)
    requires |events| > 0
    ensures k < |events|
    ensures !AllPriced(events, key) ==> k == 0
  {
    if AllPriced(events, key) then ArgMin(Prices(events, key)) else 0
  }

  /** When every price converts, the lowest record is the first one with a
      minimal price: no record is cheaper, and every record before it is
      dearer. */
  lemma LowestIsFirstMinimum(events: seq<Record>, key: Value)
    requires |events| > 0 && AllPriced(events, key)
    ensures var k := LowestIndex(events, key);
            && (forall i :: 0 <= i < |events| ==> PriceOf(events[k], key).value <= PriceOf(events[i], key).value)
            && (forall i :: 0 <= i < k ==> PriceOf(events[k], key).value < PriceOf(events[i], key).value)
  {
    var ps := Prices(events, key);
    var k := ArgMin(ps);
    assert forall i :: 0 <= i < |events| ==> ps[i] == PriceOf(events[i], key).value;
  }

  /** `_apply_post_process`: with `pick.type == "lowest_by"`, a truthy key
      and some records, only the lowest record is kept. */
  function PostProcess(unseen: seq<Record>, opt: WorkerOptions): (r: seq<Record>)
    ensures |r| <= |unseen|
    ensures r != unseen ==> |r| == 1 && r[0] in unseen
    ensures var pick := opt.pick;
            PyEq(Get(pick, "type"), JStr("lowest_by")) && Truthy(Get(pick, "key")) && |unseen| > 0 ==>
              r == [unseen[LowestIndex(unseen, Get(pick, "key"))]]
    ensures !(PyEq(Get(opt.pick, "type"), JStr("lowest_by")) && Truthy(Get(opt.pick, "key"))) ==> r == unseen
  {
    var pick := opt.pick;
    if PyEq(Get(pick, "type"), JStr("lowest_by")) && Truthy(Get(pick, "key")) && |unseen| > 0 then
      [unseen[LowestIndex(unseen, Get(pick, "key"))]]
    else
      unseen
  }

  /** The record the post-process keeps is no dearer than any other. */
  lemma PostProcessKeepsCheapest(unseen: seq<Record>, opt: WorkerOptions)
    requires PyEq(Get(opt.pick, "type"), JStr("lowest_by")) && Truthy(Get(opt.pick, "key")) && |unseen| > 0
    requires AllPriced(unseen, Get(opt.pick, "key"))
    ensures var r := PostProcess(unseen, opt);
            var key := Get(opt.pick, "key");
            |r| == 1 && r[0] in unseen &&
            forall e :: e in unseen ==> PriceOf(r[0], key).value <= PriceOf(e, key).value
  {
  }

  // ---------------------------------------------------------------------
  // The tracking decision

  /** The texts of the three announcements: a new lowest order, the tracked
      order gone, and a cheaper order appearing. */
  datatype Templates = Templates(newLowest: string, removal: string, switch: string)

  /** The templates the tracker is written with. */
  const WlfiTemplates: Templates := Templates(
    "\U{1F6D2} WLFI \U{65B0}\U{6302}\U{51FA}\U{6700}\U{4F4E}\U{4EF7}: \U{5355}\U{4EF7}=${price} \U{6570}\U{91CF}=${total_amount} \U{603B}\U{91D1}\U{989D}=${value} \U{524D}\U{5F80}\U{FF1A}https://pro.whales.market/pre/Ethereum/WLFI?id={id} \U{8D2D}\U{4E70}",
    "\U{2705} \U{4E4B}\U{524D}\U{6700}\U{4F4E}\U{4EF7}\U{5DF2}\U{6210}\U{4EA4}\U{6216}\U{64A4}\U{5355}: \U{5355}\U{4EF7}=${price} \U{6570}\U{91CF}=${total_amount} \U{603B}\U{91D1}\U{989D}=${value}\n\U{27A1}\U{FE0F} \U{5F53}\U{524D}\U{6700}\U{65B0}\U{6700}\U{4F4E}\U{4EF7}: \U{5355}\U{4EF7}=${new_price} \U{6570}\U{91CF}=${new_total} \U{603B}\U{91D1}\U{989D}=${new_value}",
    "\U{1F6D2} \U{51FA}\U{73B0}\U{66F4}\U{4F4E}\U{4EF7}\U{65B0}\U{6302}\U{5355}: \U{5355}\U{4EF7}=${price} \U{6570}\U{91CF}=${total_amount} \U{603B}\U{91D1}\U{989D}=${value} \U{524D}\U{5F80}\U{FF1A}https://pro.whales.market/pre/Ethereum/WLFI?id={id} \U{8D2D}\U{4E70}")

  /** What one batch makes the tracker do: nothing, or route one payload and
      persist a new tracking record. */
  datatype Action = Quiet | Notify(payload: Record, track: Record)

  /** The order id of a record: `e.get("__id__") or e.get("id")`. */
  function IdOf(e: Record): Value
  {
    Or(Get(e, "__id__"), Get(e, "id"))
  }

  /** The tracking record persisted for the lowest record `l`. */
  function TrackOf(l: Record, key: Value): Record
  {
    map["id" := IdOf(l), "price" := KeyGet(l, key), "total_amount" := Get(l, "total_amount"), "value" := Get(l, "value")]
  }

  /** The tracking record holds the id, the compared price, the amount and
      the value of the lowest record, and nothing else. */
  lemma TrackOfFields(l: Record, key: Value)
    ensures var t := TrackOf(l, key);
            && t.Keys == {"id", "price", "total_amount", "value"}
            && t["id"] == IdOf(l) && t["price"] == KeyGet(l, key)
            && t["total_amount"] == Get(l, "total_amount") && t["value"] == Get(l, "value")
  {
  }

  /** `current_lowest` after its `id` and `__template__` are assigned. */
  function Stamped(l: Record, template: string): Record
  {
    l["id" := IdOf(l)]["__template__" := JStr(template)]
  }

  /** Stamping adds `id` and `__template__` and keeps every other field. */
  lemma StampedFields(l: Record, template: string)
    ensures var p := Stamped(l, template);
            && p.Keys == l.Keys + {"id", "__template__"}
            && p["id"] == IdOf(l) && p["__template__"] == JStr(template)
            && forall k :: k in l && k != "id" && k != "__template__" ==> p[k] == l[k]
  {
  }

  /** The payload announcing that the tracked order is gone. */
  function RemovalPayload(tracking: Record, l: Record, key: Value, tpl: Templates): Record
  {
    map["price" := Get(tracking, "price"), "total_amount" := Get(tracking, "total_amount"),
        "value" := Get(tracking, "value"), "new_price" := KeyGet(l, key),
        "new_total" := Get(l, "total_amount"), "new_value" := Get(l, "value"),
        "__template__" := JStr(tpl.removal)]
  }

  /** The removal payload pairs the old tracked figures with the new lowest
      record's figures, under the removal template. */
  lemma RemovalPayloadFields(tracking: Record, l: Record, key: Value, tpl: Templates)
    ensures var p := RemovalPayload(tracking, l, key, tpl);
            && p.Keys == {"price", "total_amount", "value", "new_price", "new_total", "new_value", "__template__"}
            && p["price"] == Get(tracking, "price") && p["total_amount"] == Get(tracking, "total_amount")
            && p["value"] == Get(tracking, "value") && p["new_price"] == KeyGet(l, key)
            && p["new_total"] == Get(l, "total_amount") && p["new_value"] == Get(l, "value")
            && p["__template__"] == JStr(tpl.removal)
  {
  }

  /** `not tracking`: no tracking file, or an empty object in it. */
  predicate Untracked(tracking: Option<Record>)
  {
    tracking.None? || tracking.value == map[]
  }

  /** Some record of the batch carries the tracked id. */
  predicate StillPresent(events: seq<Record>, trackingId: Value)
  {
    exists e :: e in events && PyEq(IdOf(e), trackingId)
  }

  /** The decision of one non-empty batch; `Err` where `float()` of the
      lowest price or of the tracked price raises. */
  function Decide(tracking: Option<Record>, events: seq<Record>, key: Value, tpl: Templates): Result<Action, string>
    requires |events| > 0
  {
    var l := events[LowestIndex(events, key)];
    if Untracked(tracking) then
      if Unhashable(key) then Err("get() raised") else Ok(Notify(Stamped(l, tpl.newLowest), TrackOf(l, key)))
    else
      var t := tracking.value;
      var lowestPrice := PriceOf(l, key);
      var trackedPrice := FloatOrZero(Get(t, "price"));
      if lowestPrice.None? || trackedPrice.None? then
        Err("float() raised")
      else if !StillPresent(events, Get(t, "id")) then
        Ok(Notify(RemovalPayload(t, l, key, tpl), TrackOf(l, key)))
      else if lowestPrice.value < trackedPrice.value then
        var stamped := Stamped(l, tpl.switch);
        Ok(Notify(stamped, TrackOf(stamped, key)))
      else
        Ok(Quiet)
  }

  /** Without tracking, the lowest record is announced with its id and the
      new-lowest template, and it becomes the tracked order; only an
      unhashable price key makes the batch fail. */
  lemma DecideUntracked(tracking: Option<Record>, events: seq<Record>, key: Value, tpl: Templates)
    requires |events| > 0 && Untracked(tracking)
    ensures var l := events[LowestIndex(events, key)];
            var d := Decide(tracking, events, key, tpl);
            && (d.Ok? <==> !Unhashable(key))
            && (d.Ok? ==>
                  && d.value.Notify?
                  && d.value.payload == Stamped(l, tpl.newLowest)
                  && d.value.track == TrackOf(l, key)
                  && d.value.payload["__template__"] == JStr(tpl.newLowest)
                  && d.value.payload["id"] == d.value.track["id"] == IdOf(l)
                  && d.value.track["price"] == KeyGet(l, key)
                  && d.value.track["total_amount"] == Get(l, "total_amount")
                  && d.value.track["value"] == Get(l, "value"))
  {
  }

  /** With tracking, the batch fails exactly when a price does not convert. */
  lemma DecideRaises(tracking: Option<Record>, events: seq<Record>, key: Value, tpl: Templates)
    requires |events| > 0 && !Untracked(tracking)
    ensures var l := events[LowestIndex(events, key)];
            Decide(tracking, events, key, tpl).Err? <==>
              PriceOf(l, key).None? || FloatOrZero(Get(tracking.value, "price")).None?
  {
  }

  /** When no record carries the tracked id, one removal payload with the
      old and the new prices is routed and the lowest record is tracked. */
  lemma DecideRemoval(tracking: Option<Record>, events: seq<Record>, key: Value, tpl: Templates)
    requires |events| > 0 && !Untracked(tracking)
    requires forall e :: e in events ==> !PyEq(IdOf(e), Get(tracking.value, "id"))
    requires Decide(tracking, events, key, tpl).Ok?
    ensures var l := events[LowestIndex(events, key)];
            var d := Decide(tracking, events, key, tpl);
            && d.value.Notify?
            && d.value.payload == RemovalPayload(tracking.value, l, key, tpl)
            && d.value.payload["price"] == Get(tracking.value, "price")
            && d.value.payload["total_amount"] == Get(tracking.value, "total_amount")
            && d.value.payload["value"] == Get(tracking.value, "value")
            && d.value.payload["new_price"] == KeyGet(l, key)
            && d.value.payload["new_total"] == Get(l, "total_amount")
            && d.value.payload["new_value"] == Get(l, "value")
            && d.value.payload["__template__"] == JStr(tpl.removal)
            && d.value.track == TrackOf(l, key)
  {
    hide Stamped, TrackOf, RemovalPayload, PriceOf, FloatOrZero, LowestIndex;
    RemovalPayloadFields(tracking.value, events[LowestIndex(events, key)], key, tpl);
  }

  /** While the tracked order is listed, the tracker switches iff the lowest
      price is strictly below the tracked price, and otherwise stays quiet. */
  lemma DecideSwitch(tracking: Option<Record>, events: seq<Record>, key: Value, tpl: Templates)
    requires |events| > 0 && !Untracked(tracking)
    requires StillPresent(events, Get(tracking.value, "id"))
    requires Decide(tracking, events, key, tpl).Ok?
    ensures var l := events[LowestIndex(events, key)];
            var d := Decide(tracking, events, key, tpl);
            && (d.value.Notify? <==> PriceOf(l, key).value < FloatOrZero(Get(tracking.value, "price")).value)
            && (d.value.Notify? ==>
                  && d.value.payload == Stamped(l, tpl.switch)
                  && d.value.track == TrackOf(Stamped(l, tpl.switch), key)
                  && d.value.payload["__template__"] == JStr(tpl.switch)
                  && d.value.track["id"] == d.value.payload["id"] == IdOf(l)
                  && d.value.track["price"] == KeyGet(d.value.payload, key)
                  && d.value.track["total_amount"] == Get(l, "total_amount")
                  && d.value.track["value"] == Get(l, "value"))
  {
    hide Stamped, TrackOf, RemovalPayload, LowestIndex, Float;
    var l := events[LowestIndex(events, key)];
    StampedFields(l, tpl.switch);
    TrackOfFields(Stamped(l, tpl.switch), key);
  }

  /** A new tracking record is never empty, so the next batch is treated as
      tracked. */
  lemma NotifyTracks(tracking: Option<Record>, events: seq<Record>, key: Value, tpl: Templates)
    requires |events| > 0
    requires Decide(tracking, events, key, tpl).Ok? && Decide(tracking, events, key, tpl).value.Notify?
    ensures !Untracked(Some(Decide(tracking, events, key, tpl).value.track))
    ensures Decide(tracking, events, key, tpl).value.track["id"] == IdOf(events[LowestIndex(events, key)])
  {
    hide PriceOf, FloatOrZero, StillPresent, RemovalPayload, KeyGet, TrackOf, Stamped;
    var l := events[LowestIndex(events, key)];
    TrackOfFields(l, key);
    StampedFields(l, tpl.switch);
    TrackOfFields(Stamped(l, tpl.switch), key);
  }

  /** Polling the same batch again after an announcement sends nothing: the
      tracked order is still listed and is still the lowest. */
  lemma RepeatBatchIsQuiet(tracking: Option<Record>, events: seq<Record>, key: Value, tpl: Templates)
    requires |events| > 0 && AllPriced(events, key)
    requires key != JStr("id") && key != JStr("__template__")
    requires Decide(tracking, events, key, tpl).Ok? && Decide(tracking, events, key, tpl).value.Notify?
    ensures Decide(Some(Decide(tracking, events, key, tpl).value.track), events, key, tpl) == Ok(Quiet)
  {
    hide RemovalPayload, TrackOf, Stamped, FloatOrZero, LowestIndex;
    var l := events[LowestIndex(events, key)];
    var t := Decide(tracking, events, key, tpl).value.track;
    NotifyTracks(tracking, events, key, tpl);
    TrackOfFields(l, key);
    StampedFields(l, tpl.switch);
    TrackOfFields(Stamped(l, tpl.switch), key);
    assert KeyGet(Stamped(l, tpl.switch), key) == KeyGet(l, key);
    assert t["price"] == KeyGet(l, key);
    PyEqReflexive(IdOf(l));
    assert StillPresent(events, Get(t, "id"));
  }

  // ---------------------------------------------------------------------
  // The worker

  /** `(opt.get("pick") or {}).get("key") or "price"`. */
  function PriceKey(opt: WorkerOptions): Value
  {
    Or(Get(opt.pick, "key"), JStr("price"))
  }

  /** What one polled batch does: an empty batch, raw or after the
      pre-filter, is skipped without touching the store. */
  function BatchEffect(tracking: Option<Record>, batch: seq<Record>, opt: WorkerOptions, tpl: Templates): Result<Action, string>
  {
    if batch == [] then Ok(Quiet)
    else
      var events := PreFiltered(batch, opt);
      if events == [] then Ok(Quiet) else Decide(tracking, events, PriceKey(opt), tpl)
  }

  /** The outcome of a run: the tracking record left behind, the payloads
      routed in order, and whether the run stopped on an exception. */
  datatype RunResult = RunResult(tracking: Option<Record>, payloads: seq<Record>, failed: bool)

  function Run(tracking: Option<Record>, batches: seq<seq<Record>>, opt: WorkerOptions, tpl: Templates): RunResult
    decreases |batches|
  {
    if batches == [] then RunResult(tracking, [], false)
    else
      match BatchEffect(tracking, batches[0], opt, tpl)
      case Err(_) => RunResult(tracking, [], true)
      case Ok(Quiet) => Run(tracking, batches[1..], opt, tpl)
      case Ok(Notify(p, t)) =>
        var rest := Run(Some(t), batches[1..], opt, tpl);
        RunResult(rest.tracking, [p] + rest.payloads, rest.failed)
  }

  /** The payloads one batch's effect routes. */
  function Announced(eff: Result<Action, string>): seq<Record>
  {
    if eff.Ok? && eff.value.Notify? then [eff.value.payload] else []
  }

  /** The tracking record left after one batch's effect. */
  function NextTracking(tracking: Option<Record>, eff: Result<Action, string>): Option<Record>
  {
    if eff.Ok? && eff.value.Notify? then Some(eff.value.track) else tracking
  }

  lemma PayloadSendsNil(notifiers: map<string, NotifierKind>, routes: seq<Route>, name: string)
    ensures PayloadSends(notifiers, routes, name, []) == []
  {
    ConcatMapNil((p: Record) => AllSends(notifiers, routes, name, [p]));
  }

  lemma RunDone(tracking: Option<Record>, opt: WorkerOptions, tpl: Templates)
    ensures Run(tracking, [], opt, tpl) == RunResult(tracking, [], false)
  {
  }

  /** `rest` preceded by payloads already routed. */
  function After(payloads: seq<Record>, rest: RunResult): RunResult
  {
    RunResult(rest.tracking, payloads + rest.payloads, rest.failed)
  }

  lemma AfterAfter(a: seq<Record>, b: seq<Record>, r: RunResult)
    ensures After(a, After(b, r)) == After(a + b, r)
  {
    assert a + (b + r.payloads) == (a + b) + r.payloads;
  }

  /** At most one payload per batch. */
  lemma {:induction false} RunPayloadsBound(tracking: Option<Record>, batches: seq<seq<Record>>, opt: WorkerOptions, tpl: Templates)
    ensures |Run(tracking, batches, opt, tpl).payloads| <= |batches|
    decreases |batches|
  {
    if batches != [] {
      match BatchEffect(tracking, batches[0], opt, tpl)
      case Err(_) =>
      case Ok(Quiet) => RunPayloadsBound(tracking, batches[1..], opt, tpl);
      case Ok(Notify(p, t)) => RunPayloadsBound(Some(t), batches[1..], opt, tpl);
    }
  }

  /** Batches that are empty, raw or after the pre-filter, leave everything
      as it was. */
  lemma {:induction false} EmptyBatchesAreQuiet(tracking: Option<Record>, batches: seq<seq<Record>>, opt: WorkerOptions, tpl: Templates)
    requires forall i :: 0 <= i < |batches| ==> PreFiltered(batches[i], opt) == []
    ensures Run(tracking, batches, opt, tpl) == RunResult(tracking, [], false)
    decreases |batches|
  {
    if batches != [] {
      EmptyBatchesAreQuiet(tracking, batches[1..], opt, tpl);
    }
  }

  /** The same batch polled twice in a row is announced at most once. */
  lemma RepeatedBatchAnnouncedOnce(tracking: Option<Record>, batch: seq<Record>, opt: WorkerOptions, tpl: Templates)
    requires AllPriced(PreFiltered(batch, opt), PriceKey(opt))
    requires PriceKey(opt) != JStr("id") && PriceKey(opt) != JStr("__template__")
    ensures |Run(tracking, [batch, batch], opt, tpl).payloads| <= 1
  {
    var bs := [batch, batch];
    assert bs[1..] == [batch];
    assert bs[1..][1..] == [];
    match BatchEffect(tracking, batch, opt, tpl)
    case Err(_) =>
    case Ok(Quiet) =>
      RunPayloadsBound(tracking, bs[1..], opt, tpl);
    case Ok(Notify(p, t)) =>
      var events := PreFiltered(batch, opt);
      assert batch != [] && events != [];
      RepeatBatchIsQuiet(tracking, events, PriceKey(opt), tpl);
      assert BatchEffect(Some(t), batch, opt, tpl) == Ok(Quiet);
      assert Run(Some(t), bs[1..], opt, tpl) == RunResult(Some(t), [], false);
  }

  /** The messages routed for payloads delivered one after another. */
  function PayloadSends(notifiers: map<string, NotifierKind>, routes: seq<Route>, name: string, payloads: seq<Record>): seq<Message>
  {
    ConcatMap((p: Record) => AllSends(notifiers, routes, name, [p]), payloads)
  }

  /** The batches a poller yields for a sequence of fetch outcomes. */
  function Batches(poller: HttpJsonPoller, outcomes: seq<FetchOutcome>): (bs: seq<seq<Record>>)
    ensures |bs| == |outcomes|
    ensures forall i :: 0 <= i < |outcomes| ==> bs[i] == poller.TickBatch(outcomes[i])
  {
    seq(|outcomes|, i requires 0 <= i < |outcomes| => poller.TickBatch(outcomes[i]))
  }

  /** The decision for one non-empty batch, carried out: the store is
      read once and written at most once, and at most one payload is
      routed. */
  method HandleBatch(name: string, store: FileStateStore, router: Router, outbox: Outbox,
                     routes: seq<Route>, events: seq<Record>, key: Value, tpl: Templates) returns (ok: bool)
    requires |events| > 0
    modifies store, outbox
    ensures var path := TrackingPath(store.rootDir, name);
            var d := Decide(old(ReadTracking(store.disk, path)), events, key, tpl);
            && (ok <==> d.Ok?)
            && (d.Ok? && d.value.Notify? ==>
                  && store.disk == WriteTracking(old(store.disk), path, Some(d.value.track))
                  && outbox.sent == old(outbox.sent) + AllSends(router.notifiers, routes, name, [d.value.payload]))
            && (!(d.Ok? && d.value.Notify?) ==> store.disk == old(store.disk) && outbox.sent == old(outbox.sent))
  {
    hide LowestIndex, PriceOf, FloatOrZero, Float, IdOf, PyEq, KeyGet, TrackOf, RemovalPayload, AllSends;
    hide ReadTracking, WriteTracking, TrackingPath;
    var lowest := events[LowestIndex(events, key)];
    var tracking := store.LoadTracking(name);
    if tracking.None? || tracking.value == map[] {
      if Unhashable(key) {
        return false;
      }
      store.SaveTracking(name, Some(TrackOf(lowest, key)));
      lowest := lowest["id" := IdOf(lowest)];
      lowest := lowest["__template__" := JStr(tpl.newLowest)];
      router.Deliverers(routes, name, [lowest], outbox);
      return true;
    }
    var t := tracking.value;
    var trackingId := Get(t, "id");
    var stillPresent := exists e :: e in events && PyEq(IdOf(e), trackingId);
    var lowestPrice := PriceOf(lowest, key);
    if lowestPrice.None? {
      return false;
    }
    var trackedPrice := FloatOrZero(Get(t, "price"));
    if trackedPrice.None? {
      return false;
    }
    if !stillPresent {
      var payload := RemovalPayload(t, lowest, key, tpl);
      router.Deliverers(routes, name, [payload], outbox);
      store.SaveTracking(name, Some(TrackOf(lowest, key)));
    } else if lowestPrice.value < trackedPrice.value {
      lowest := lowest["id" := IdOf(lowest)];
      lowest := lowest["__template__" := JStr(tpl.switch)];
      router.Deliverers(routes, name, [lowest], outbox);
      store.SaveTracking(name, Some(TrackOf(lowest, key)));
    }
    return true;
  }

  /** The body of the batch loop: an empty batch, raw or after the
      pre-filter, is skipped; any other batch is decided and carried out. */
  method ProcessBatch(name: string, store: FileStateStore, router: Router, outbox: Outbox,
                      routes: seq<Route>, opt: WorkerOptions, key: Value, batch: seq<Record>, tpl: Templates) returns (ok: bool)
    requires key == PriceKey(opt)
    modifies store, outbox
    ensures var path := TrackingPath(store.rootDir, name);
            var eff := BatchEffect(old(ReadTracking(store.disk, path)), batch, opt, tpl);
            && (ok <==> eff.Ok?)
            && (eff.Ok? && eff.value.Notify? ==>
                  && store.disk == WriteTracking(old(store.disk), path, Some(eff.value.track))
                  && outbox.sent == old(outbox.sent) + AllSends(router.notifiers, routes, name, [eff.value.payload]))
            && (!(eff.Ok? && eff.value.Notify?) ==> store.disk == old(store.disk) && outbox.sent == old(outbox.sent))
  {
    if batch == [] {
      return true;
    }
    var events := PreFilter(batch, opt);
    if events == [] {
      return true;
    }
    ok := HandleBatch(name, store, router, outbox, routes, events, key, tpl);
  }

  /** How `Run` advances over one batch. */
  lemma RunStep(tracking: Option<Record>, batches: seq<seq<Record>>, i: nat, opt: WorkerOptions, tpl: Templates)
    requires i < |batches|
    ensures var eff := BatchEffect(tracking, batches[i], opt, tpl);
            var rest := Run(tracking, batches[i..], opt, tpl);
            && (eff.Err? ==> rest == RunResult(tracking, [], true))
            && (eff.Ok? ==> rest == After(Announced(eff), Run(NextTracking(tracking, eff), batches[i + 1..], opt, tpl)))
  {
    hide Decide, Float;
    assert batches[i..][0] == batches[i];
    assert batches[i..][1..] == batches[i + 1..];
    var eff := BatchEffect(tracking, batches[i], opt, tpl);
    if eff.Ok? && eff.value.Quiet? {
      var r := Run(tracking, batches[i + 1..], opt, tpl);
      assert After([], r) == r;
    }
  }

  lemma PayloadSendsAppend(notifiers: map<string, NotifierKind>, routes: seq<Route>, name: string, a: seq<Record>, b: seq<Record>)
    ensures PayloadSends(notifiers, routes, name, a + b)
         == PayloadSends(notifiers, routes, name, a) + PayloadSends(notifiers, routes, name, b)
  {
    ConcatMapAppend((p: Record) => AllSends(notifiers, routes, name, [p]), a, b);
  }

  /** One turn of the worker loop on a polled batch: the batch is carried
      out, and `Run` advances past it with the payloads `added`. */
  method Advance(name: string, store: FileStateStore, router: Router, outbox: Outbox,
                 routes: seq<Route>, opt: WorkerOptions, key: Value, batch: seq<Record>,
                 ghost bs: seq<seq<Record>>, ghost i: nat, tpl: Templates) returns (ok: bool, ghost added: seq<Record>)
    requires i < |bs| && batch == bs[i] && key == PriceKey(opt)
    modifies store, outbox
    ensures var path := TrackingPath(store.rootDir, name);
            var before := Run(old(ReadTracking(store.disk, path)), bs[i..], opt, tpl);
            && (ok ==> before == After(added, Run(ReadTracking(store.disk, path), bs[i + 1..], opt, tpl)))
            && (!ok ==> before == RunResult(ReadTracking(store.disk, path), [], true) && added == [])
            && store.disk - {path} == old(store.disk) - {path}
            && outbox.sent == old(outbox.sent) + PayloadSends(router.notifiers, routes, name, added)
  {
    ghost var path := TrackingPath(store.rootDir, name);
    ghost var cur := ReadTracking(store.disk, path);
    ghost var disk0 := store.disk;
    ghost var eff := BatchEffect(cur, batch, opt, tpl);
    RunStep(cur, bs, i, opt, tpl);
    ok := ProcessBatch(name, store, router, outbox, routes, opt, key, batch, tpl);
    added := Announced(eff);
    if eff.Ok? && eff.value.Notify? {
      TrackingRoundTrip(disk0, path, Some(eff.value.track));
      WriteTrackingElsewhere(disk0, path, Some(eff.value.track));
      ConcatMapOne((p: Record) => AllSends(router.notifiers, routes, name, [p]), eff.value.payload);
    } else {
      ConcatMapNil((p: Record) => AllSends(router.notifiers, routes, name, [p]));
    }
  }

  /** One turn of the worker loop on a polled batch: the batch is carried
      out, and the account of the run so far, `total` with the payloads
      `done` already routed, moves past it. */
  method Turn(name: string, store: FileStateStore, router: Router, outbox: Outbox,
              routes: seq<Route>, opt: WorkerOptions, key: Value, batch: seq<Record>, tpl: Templates,
              ghost bs: seq<seq<Record>>, ghost i: nat, ghost total: RunResult,
              ghost done: seq<Record>, ghost sent0: seq<Message>)
    returns (ok: bool, ghost done': seq<Record>)
    requires i < |bs| && batch == bs[i] && key == PriceKey(opt)
    requires total == After(done, Run(ReadTracking(store.disk, TrackingPath(store.rootDir, name)), bs[i..], opt, tpl))
    requires outbox.sent == sent0 + PayloadSends(router.notifiers, routes, name, done)
    modifies store, outbox
    ensures var path := TrackingPath(store.rootDir, name);
            && (ok ==> total == After(done', Run(ReadTracking(store.disk, path), bs[i + 1..], opt, tpl)))
            && (!ok ==> total == RunResult(ReadTracking(store.disk, path), done', true))
            && store.disk - {path} == old(store.disk) - {path}
            && outbox.sent == sent0 + PayloadSends(router.notifiers, routes, name, done')
  {
    ghost var path := TrackingPath(store.rootDir, name);
    ghost var added;
    ok, added := Advance(name, store, router, outbox, routes, opt, key, batch, bs, i, tpl);
    if ok {
      AfterAfter(done, added, Run(ReadTracking(store.disk, path), bs[i + 1..], opt, tpl));
    }
    PayloadSendsAppend(router.notifiers, routes, name, done, added);
    AppendAssoc(sent0, PayloadSends(router.notifiers, routes, name, done), PayloadSends(router.notifiers, routes, name, added));
    done' := done + added;
  }

  /** The worker of one poller over the batches its poller yields for
      `outcomes`; in `once` mode it stops after the first batch, whatever it
      held. Leaving the loop closes the poller's client, as the poll
      generator's `finally` does. */
  method Worker(name: string, poller: HttpJsonPoller, store: FileStateStore, router: Router, outbox: Outbox,
                routes: seq<Route>, opt: WorkerOptions, tpl: Templates, once: bool, outcomes: seq<FetchOutcome>)
    returns (failed: bool, ghost used: HttpClient?)
    modifies poller, poller.client, store, outbox
    ensures var path := TrackingPath(store.rootDir, name);
            var processed := if once && |outcomes| > 0 then outcomes[..1] else outcomes;
            var run := Run(old(ReadTracking(store.disk, path)), Batches(poller, processed), opt, tpl);
            && failed == run.failed
            && ReadTracking(store.disk, path) == run.tracking
            && store.disk - {path} == old(store.disk) - {path}
            && outbox.sent == old(outbox.sent) + PayloadSends(router.notifiers, routes, name, run.payloads)
    ensures old(poller.client) != null ==> used == old(poller.client)
    ensures old(poller.client) == null && |outcomes| > 0 ==> used != null && fresh(used)
    ensures used != null ==> !used.open
    ensures poller.client == null
  {
    hide Run, PayloadSends, Batches, ReadTracking, TrackingPath;
    var key := Or(Get(opt.pick, "key"), JStr("price"));
    ghost var path := TrackingPath(store.rootDir, name);
    ghost var processed := if once && |outcomes| > 0 then outcomes[..1] else outcomes;
    ghost var bs := Batches(poller, processed);
    ghost var total := Run(ReadTracking(store.disk, path), bs, opt, tpl);
    assert total == Run(old(ReadTracking(store.disk, path)), Batches(poller, processed), opt, tpl);
    ghost var payloads: seq<Record> := [];
    PayloadSendsNil(router.notifiers, routes, name);
    failed := false;
    var i := 0;
    while i < |outcomes|
      invariant i <= |bs| && (once ==> i == 0)
      invariant total == After(payloads, Run(ReadTracking(store.disk, path), bs[i..], opt, tpl))
      invariant store.disk - {path} == old(store.disk) - {path}
      invariant outbox.sent == old(outbox.sent) + PayloadSends(router.notifiers, routes, name, payloads)
      invariant old(poller.client) != null ==> poller.client == old(poller.client)
      invariant old(poller.client) == null ==> poller.client == null || fresh(poller.client)
      invariant i > 0 ==> poller.client != null
      decreases |outcomes| - i
    {
      var batch := poller.Tick(outcomes[i]);
      var ok;
      ok, payloads := Turn(name, store, router, outbox, routes, opt, key, batch, tpl, bs, i, total, payloads, old(outbox.sent));
      if !ok {
        failed := true;
        break;
      }
      i := i + 1;
      if once {
        assert bs[i..] == [];
        RunDone(ReadTracking(store.disk, path), opt, tpl);
        break;
      }
    }
    if !failed {
      assert bs[i..] == [];
      RunDone(ReadTracking(store.disk, path), opt, tpl);
    }
    assert total == RunResult(ReadTracking(store.disk, path), payloads, failed);
    used := poller.client;
    poller.Close();
  }
}
