/** The metrics client: how the base URL is normalised, when a query
    response is accepted, and how the humidity samples and the two
    threshold series are merged into plant records.  HTTP, JSON decoding
    and the float parse stay outside: a response is an input value and the
    parse `int(float(s))` is a parameter that may fail. */
module Prometheus {
  import opened Wrappers

  // ---------------------------------------------------------------------
  // Client construction

  /** `s.rstrip('/')`: the longest prefix of `s` that does not end in '/',
      with only slashes cut off. */
  function StripTrailingSlashes(s: string): (r: string)
    ensures r <= s
    ensures r == [] || r[|r| - 1] != '/'
    ensures forall i :: |r| <= i < |s| ==> s[i] == '/'
  {
    if s != [] && s[|s| - 1] == '/' then StripTrailingSlashes(s[..|s| - 1]) else s
  }

  datatype Client = Client(baseUrl: string, apiUrl: string)

  /** The client constructor: the base URL without trailing slashes and the
      API root beneath it. */
  function NewClient(url: string): (c: Client)
    ensures c.baseUrl <= url && (c.baseUrl == [] || c.baseUrl[|c.baseUrl| - 1] != '/')
    ensures forall i :: |c.baseUrl| <= i < |url| ==> url[i] == '/'
    ensures |c.apiUrl| == |c.baseUrl| + 7
    ensures c.apiUrl[..|c.baseUrl|] == c.baseUrl && c.apiUrl[|c.baseUrl|..] == "/api/v1"
  {
    var base := StripTrailingSlashes(url);
    Client(base, base + "/api/v1")
  }

  /** Trailing slashes make no difference, and normalising twice changes
      nothing. */
  lemma NewClientNormalises(url: string)
    ensures NewClient(url + "/") == NewClient(url)
    ensures NewClient(NewClient(url).baseUrl) == NewClient(url)
  {
    assert (url + "/")[..|url|] == url;
  }

  // ---------------------------------------------------------------------
  // Responses

  /** The `value` key of a result element: absent, present but null, or a
      list whose entries are text or null. */
  datatype ValueField = Absent | Null | Entries(entries: seq<Option<string>>)

  /** One element of `data.result`: its label set (`metric`) and its
      `value` pair, whose second entry is the sample as text. */
  datatype Sample = Sample(labels: map<string, string>, value: ValueField)

  /** A decoded response: `status`, and `data.result` (empty when absent). */
  datatype QueryResponse = QueryResponse(status: Option<string>, result: seq<Sample>)

  /** What one HTTP request ends with. */
  datatype HttpOutcome = RequestFailed | Received(body: QueryResponse)

  /** `query`: the decoded body when the request went through and the status
      says success, None otherwise. */
  function Query(outcome: HttpOutcome): (r: Option<QueryResponse>)
    ensures r.Some? <==> outcome.Received? && outcome.body.status == Some("success")
    ensures r.Some? ==> r.value == outcome.body
  {
    match outcome
    case RequestFailed => None
    case Received(body) => if body.status == Some("success") then Some(body) else None
  }

  /** The `value` key holds null, so `item.get('value', [None, None])` is
      None and indexing it raises a TypeError. */
  predicate NullValue(item: Sample) {
    item.value.Null?
  }

  /** `item.get('value', [None, None])` when it is a list. */
  function ValueList(item: Sample): seq<Option<string>>
    requires !NullValue(item)
  {
    match item.value
    case Absent => [None, None]
    case Entries(entries) => entries
  }

  /** Python truthiness of an optional string. */
  predicate Truthy(o: Option<string>) {
    o.Some? && o.value != ""
  }

  function Label(item: Sample, key: string, default: string): string {
    if key in item.labels then item.labels[key] else default
  }

  /** The numeric parse applied to sample text; None is a ValueError. */
  type Parse = string -> Option<int>

  // ---------------------------------------------------------------------
  // Threshold maps

  predicate HasDeviceId(item: Sample) {
    "device_id" in item.labels && item.labels["device_id"] != ""
  }

  /** The threshold item carries a value that is entered into the map. */
  predicate Enters(item: Sample) {
    HasDeviceId(item) && !NullValue(item) && |ValueList(item)| >= 2 && Truthy(ValueList(item)[1])
  }

  /** The threshold item makes the loop raise: a device id with a null value,
      a value list too short to index, or a value the parse rejects.  Nothing
      in the threshold loops catches these. */
  predicate Raises(item: Sample, parse: Parse) {
    HasDeviceId(item)
    && (NullValue(item) || |ValueList(item)| < 2 || (Truthy(ValueList(item)[1]) && parse(ValueList(item)[1].value).None?))
  }

  /** One iteration of a threshold loop. */
  function ThresholdStep(m: map<string, int>, item: Sample, parse: Parse): Result<map<string, int>, Exception> {
    if !HasDeviceId(item) then Success(m)
    else if NullValue(item) then Failure(TypeError)
    else if |ValueList(item)| < 2 then Failure(IndexError)
    else if !Truthy(ValueList(item)[1]) then Success(m)
    else
      match parse(ValueList(item)[1].value)
      case None => Failure(ValueError)
      case Some(v) => Success(m[item.labels["device_id"] := v])
  }

  /** The map a threshold loop builds over `items`, or the exception it
      raises first. */
  function ThresholdMap(items: seq<Sample>, parse: Parse): (r: Result<map<string, int>, Exception>)
    ensures r.Failure? ==> r.error == TypeError || r.error == IndexError || r.error == ValueError
    decreases |items|
  {
    if items == [] then Success(map[])
    else
      match ThresholdMap(items[..|items| - 1], parse)
      case Failure(e) => Failure(e)
      case Success(m) => ThresholdStep(m, items[|items| - 1], parse)
  }

  /** Reference definition: the threshold of device `id` is the parsed value
      of the LAST item for `id` that enters, found by searching from the end. */
  function LastEntry(items: seq<Sample>, id: string, parse: Parse): Option<int>
    decreases |items|
  {
    if items == [] then None
    else
      var item := items[|items| - 1];
      if Enters(item) && item.labels["device_id"] == id then parse(ValueList(item)[1].value)
      else LastEntry(items[..|items| - 1], id, parse)
  }

  /** A threshold loop raises exactly when some item raises, and otherwise
      holds, for every device id, the value of its last entering item: a
      device is in the map only if an item with a truthy id and a truthy
      value names it, and later items overwrite earlier ones. */
  lemma {:induction false} ThresholdMapSpec(items: seq<Sample>, parse: Parse)
    ensures ThresholdMap(items, parse).Failure? <==> exists i :: 0 <= i < |items| && Raises(items[i], parse)
    ensures ThresholdMap(items, parse).Success? ==>
      forall id :: (id in ThresholdMap(items, parse).value <==> LastEntry(items, id, parse).Some?)
        && (id in ThresholdMap(items, parse).value ==> ThresholdMap(items, parse).value[id] == LastEntry(items, id, parse).value)
    decreases |items|
  {
    if items != [] {
      var prefix := items[..|items| - 1];
      var last := items[|items| - 1];
      ThresholdMapSpec(prefix, parse);
      assert forall i :: 0 <= i < |prefix| ==> prefix[i] == items[i];
      if ThresholdMap(prefix, parse).Failure? {
        var i :| 0 <= i < |prefix| && Raises(prefix[i], parse);
        assert Raises(items[i], parse);
      } else if Raises(last, parse) {
        assert Raises(items[|items| - 1], parse);
      } else {
        assert forall i :: 0 <= i < |items| ==> !Raises(items[i], parse) by {
          forall i | 0 <= i < |items| ensures !Raises(items[i], parse) {
            if i < |prefix| {
              assert items[i] == prefix[i];
            }
          }
        }
      }
    }
  }

  /** Once a threshold loop has raised, the rest of the items do not matter. */
  lemma {:induction false} ThresholdFailureSticks(items: seq<Sample>, n: nat, parse: Parse)
    requires n <= |items| && ThresholdMap(items[..n], parse).Failure?
    ensures ThresholdMap(items, parse) == ThresholdMap(items[..n], parse)
    decreases |items| - n
  {
    if n < |items| {
      assert items[..n + 1][..n] == items[..n];
      ThresholdFailureSticks(items, n + 1, parse);
    } else {
      assert items[..n] == items;
    }
  }

  /** A threshold loop of `get_plant_humidity`. */
  method BuildThresholds(items: seq<Sample>, parse: Parse) returns (r: Result<map<string, int>, Exception>)
    ensures r == ThresholdMap(items, parse)
  {
    var thresholds: map<string, int> := map[];
    for i := 0 to |items|
      invariant ThresholdMap(items[..i], parse) == Success(thresholds)
    {
      var item := items[i];
      assert items[..i + 1][..i] == items[..i];
      assert items[..i + 1][i] == item;
      if "device_id" in item.labels && item.labels["device_id"] != "" {
        if item.value.Null? {
          ThresholdFailureSticks(items, i + 1, parse);
          return Failure(TypeError);
        }
        var value := ValueList(item);
        if |value| < 2 {
          ThresholdFailureSticks(items, i + 1, parse);
          return Failure(IndexError);
        }
        if value[1].Some? && value[1].value != "" {
          var parsed := parse(value[1].value);
          if parsed.None? {
            ThresholdFailureSticks(items, i + 1, parse);
            return Failure(ValueError);
          }
          thresholds := thresholds[item.labels["device_id"] := parsed.value];
        }
      }
    }
    assert items[..|items|] == items;
    return Success(thresholds);
  }

  // ---------------------------------------------------------------------
  // Plant records

  /** A plant record.  `isOnline` and `secondsSinceUpdate` stand for the
      `is_online` and `time_since_update` keys; None is an absent key. */
  datatype Plant = Plant(
    deviceId: string,
    deviceName: string,
    humidity: int,
    thresholdMin: int,
    thresholdMax: int,
    instance: string,
    job: string,
    isOnline: Option<bool>,
    secondsSinceUpdate: Option<int>)

  const DefaultMin := 30
  const DefaultMax := 80

  function Lookup(m: map<string, int>, id: string, default: int): int {
    if id in m then m[id] else default
  }

  /** The record built from one humidity sample, or the exception its
      construction raises: a TypeError for a null value, an IndexError for a
      value list too short to index, a ValueError for sample text the parse
      rejects.  Every absent field takes its own default. */
  function PlantRecord(item: Sample, mins: map<string, int>, maxs: map<string, int>, parse: Parse)
    : (r: Result<Plant, Exception>)
    ensures r.Failure? <==>
      NullValue(item) || |ValueList(item)| < 2 || (Truthy(ValueList(item)[1]) && parse(ValueList(item)[1].value).None?)
    ensures r.Failure? ==> (r.error == TypeError <==> NullValue(item))
    ensures r.Success? ==>
      var p := r.value;
      && p.deviceId == Label(item, "device_id", "unknown")
      && p.deviceName == Label(item, "device_name", "Unknown")
      && p.humidity == (if Truthy(ValueList(item)[1]) then parse(ValueList(item)[1].value).value else 0)
      && p.thresholdMin == Lookup(mins, p.deviceId, DefaultMin)
      && p.thresholdMax == Lookup(maxs, p.deviceId, DefaultMax)
      && p.instance == Label(item, "instance", "")
      && p.job == Label(item, "job", "")
      && p.isOnline.None? && p.secondsSinceUpdate.None?
  {
    if NullValue(item) then Failure(TypeError)
    else if |ValueList(item)| < 2 then Failure(IndexError)
    else
      var value := ValueList(item);
      var humidity := if Truthy(value[1]) then parse(value[1].value) else Some(0);
      if humidity.None? then Failure(ValueError)
      else
        var id := Label(item, "device_id", "unknown");
        Success(Plant(
          id, Label(item, "device_name", "Unknown"), humidity.value,
          Lookup(mins, id, DefaultMin), Lookup(maxs, id, DefaultMax),
          Label(item, "instance", ""), Label(item, "job", ""), None, None))
  }

  /** Some sample's value is null: its record raises a TypeError, which the
      record loop does not catch. */
  predicate HasNullValue(items: seq<Sample>) {
    exists i :: 0 <= i < |items| && NullValue(items[i])
  }

  /** The records of the samples whose record is built, in sample order,
      skipping the others.  It is the loop's result when no value is null
      (HasNullValue), since a null value ends the loop with its TypeError. */
  function Plants(items: seq<Sample>, mins: map<string, int>, maxs: map<string, int>, parse: Parse): (ps: seq<Plant>)
    ensures |ps| <= |items|
    decreases |items|
  {
    if items == [] then []
    else
      var rest := Plants(items[..|items| - 1], mins, maxs, parse);
      match PlantRecord(items[|items| - 1], mins, maxs, parse)
      case Success(p) => rest + [p]
      case Failure(_) => rest
  }

  /** Order is preserved: the records of two consecutive runs of samples are
      the records of the first followed by those of the second. */
  lemma {:induction false} PlantsAppend(a: seq<Sample>, b: seq<Sample>, mins: map<string, int>, maxs: map<string, int>, parse: Parse)
    ensures Plants(a + b, mins, maxs, parse) == Plants(a, mins, maxs, parse) + Plants(b, mins, maxs, parse)
    decreases |b|
  {
    if b == [] {
      assert a + b == a;
    } else {
      var b' := b[..|b| - 1];
      assert (a + b)[..|a + b| - 1] == a + b';
      assert (a + b)[|a + b| - 1] == b[|b| - 1];
      PlantsAppend(a, b', mins, maxs, parse);
    }
  }

  /** When every sample parses, there is one record per sample, in the same
      position. */
  lemma {:induction false} PlantsAllParsed(items: seq<Sample>, mins: map<string, int>, maxs: map<string, int>, parse: Parse)
    requires forall i :: 0 <= i < |items| ==> PlantRecord(items[i], mins, maxs, parse).Success?
    ensures |Plants(items, mins, maxs, parse)| == |items|
    ensures forall i :: 0 <= i < |items| ==> Plants(items, mins, maxs, parse)[i] == PlantRecord(items[i], mins, maxs, parse).value
    decreases |items|
  {
    if items != [] {
      var prefix := items[..|items| - 1];
      assert forall i :: 0 <= i < |prefix| ==> prefix[i] == items[i];
      PlantsAllParsed(prefix, mins, maxs, parse);
    }
  }

  /** Every record is the record of some sample. */
  lemma {:induction false} PlantsFromSamples(items: seq<Sample>, mins: map<string, int>, maxs: map<string, int>, parse: Parse)
    ensures forall p :: p in Plants(items, mins, maxs, parse) ==>
      exists i :: 0 <= i < |items| && PlantRecord(items[i], mins, maxs, parse) == Success(p)
    decreases |items|
  {
    if items != [] {
      var prefix := items[..|items| - 1];
      PlantsFromSamples(prefix, mins, maxs, parse);
      forall p | p in Plants(items, mins, maxs, parse)
        ensures exists i :: 0 <= i < |items| && PlantRecord(items[i], mins, maxs, parse) == Success(p)
      {
        if p in Plants(prefix, mins, maxs, parse) {
          var i :| 0 <= i < |prefix| && PlantRecord(prefix[i], mins, maxs, parse) == Success(p);
          assert items[i] == prefix[i];
        } else {
          assert PlantRecord(items[|items| - 1], mins, maxs, parse) == Success(p);
        }
      }
    }
  }

  /** The threshold map of one threshold response: a failed query yields the
      empty map, so every device falls back to the default. */
  function ThresholdsOf(outcome: HttpOutcome, parse: Parse): Result<map<string, int>, Exception> {
    match Query(outcome)
    case None => Success(map[])
    case Some(body) => ThresholdMap(body.result, parse)
  }

  /** What `get_plant_humidity` returns, or the exception escaping from it. */
  function PlantHumidity(humidity: HttpOutcome, min: HttpOutcome, max: HttpOutcome, parse: Parse)
    : (r: Result<seq<Plant>, Exception>)
    ensures Query(humidity).None? ==> r == Success([])
    ensures r.Failure? ==> r.error == TypeError || r.error == IndexError || r.error == ValueError
  {
    match Query(humidity)
    case None => Success([])
    case Some(body) =>
      match ThresholdsOf(min, parse)
      case Failure(e) => Failure(e)
      case Success(mins) =>
        match ThresholdsOf(max, parse)
        case Failure(e) => Failure(e)
        case Success(maxs) =>
          if HasNullValue(body.result) then Failure(TypeError)
          else Success(Plants(body.result, mins, maxs, parse))
  }

  /** `get_plant_humidity`. */
  method GetPlantHumidity(humidity: HttpOutcome, min: HttpOutcome, max: HttpOutcome, parse: Parse)
    returns (r: Result<seq<Plant>, Exception>)
    ensures r == PlantHumidity(humidity, min, max, parse)
  {
    var humidityData := Query(humidity);
    if humidityData.None? {
      return Success([]);
    }
    var minData := Query(min);
    var maxData := Query(max);

    var mins: map<string, int> := map[];
    var maxs: map<string, int> := map[];
    if minData.Some? {
      var built := BuildThresholds(minData.value.result, parse);
      if built.Failure? {
        return Failure(built.error);
      }
      mins := built.value;
    }
    if maxData.Some? {
      var built := BuildThresholds(maxData.value.result, parse);
      if built.Failure? {
        return Failure(built.error);
      }
      maxs := built.value;
    }

    r := BuildPlants(humidityData.value.result, mins, maxs, parse);
  }

  /** The record loop of `get_plant_humidity`: the TypeError of a null value
      escapes, the other exceptions skip the sample. */
  method BuildPlants(result: seq<Sample>, mins: map<string, int>, maxs: map<string, int>, parse: Parse)
    returns (r: Result<seq<Plant>, Exception>)
    ensures r == if HasNullValue(result) then Failure(TypeError) else Success(Plants(result, mins, maxs, parse))
  {
    var plants: seq<Plant> := [];
    for i := 0 to |result|
      invariant !HasNullValue(result[..i])
      invariant plants == Plants(result[..i], mins, maxs, parse)
    {
      assert result[..i + 1][..i] == result[..i];
      assert result[..i + 1][i] == result[i];
      var item := result[i];
      if NullValue(item) {
        return Failure(TypeError);
      }
      assert forall j :: 0 <= j < i + 1 ==> result[..i + 1][j] == result[j];
      var value := ValueList(item);
      if |value| < 2 {
        continue;
      }
      var reading := 0;
      if value[1].Some? && value[1].value != "" {
        var parsed := parse(value[1].value);
        if parsed.None? {
          continue;
        }
        reading := parsed.value;
      }
      var id := Label(item, "device_id", "unknown");
      var plant := Plant(
        id, Label(item, "device_name", "Unknown"), reading,
        Lookup(mins, id, DefaultMin), Lookup(maxs, id, DefaultMax),
        Label(item, "instance", ""), Label(item, "job", ""), None, None);
      plants := plants + [plant];
    }
    assert result[..|result|] == result;
    return Success(plants);
  }

  /** A failed humidity query gives the empty list, whatever the threshold
      responses. */
  lemma NoHumidityNoPlants(humidity: HttpOutcome, min: HttpOutcome, max: HttpOutcome, parse: Parse)
    requires Query(humidity).None?
    ensures PlantHumidity(humidity, min, max, parse) == Success([])
  {
  }

  /** Each record's thresholds are looked up independently in the two maps,
      defaulting to 30 and 80, and no record carries an online status. */
  lemma {:induction false} PlantsFieldDefaults(items: seq<Sample>, mins: map<string, int>, maxs: map<string, int>, parse: Parse)
    ensures forall p :: p in Plants(items, mins, maxs, parse) ==>
      && p.thresholdMin == Lookup(mins, p.deviceId, DefaultMin)
      && p.thresholdMax == Lookup(maxs, p.deviceId, DefaultMax)
      && p.isOnline.None?
    decreases |items|
  {
    if items != [] {
      PlantsFieldDefaults(items[..|items| - 1], mins, maxs, parse);
    }
  }

  /** A failed threshold query leaves every plant at that threshold's default. */
  lemma FailedThresholdQueryDefaults(humidity: HttpOutcome, min: HttpOutcome, max: HttpOutcome, parse: Parse)
    requires PlantHumidity(humidity, min, max, parse).Success?
    ensures Query(min).None? ==> forall p :: p in PlantHumidity(humidity, min, max, parse).value ==> p.thresholdMin == DefaultMin
    ensures Query(max).None? ==> forall p :: p in PlantHumidity(humidity, min, max, parse).value ==> p.thresholdMax == DefaultMax
  {
    match Query(humidity)
    case None =>
    case Some(body) =>
      PlantsFieldDefaults(body.result, ThresholdsOf(min, parse).value, ThresholdsOf(max, parse).value, parse);
  }

  /** `get_plant_humidity` gives at most one record per humidity sample, and
      it raises only when a threshold loop raises or a sample's value is
      null; with both threshold loops through, the exception is that
      TypeError. */
  lemma PlantHumidityShape(humidity: HttpOutcome, min: HttpOutcome, max: HttpOutcome, parse: Parse)
    ensures PlantHumidity(humidity, min, max, parse).Success? && Query(humidity).Some? ==>
      |PlantHumidity(humidity, min, max, parse).value| <= |Query(humidity).value.result|
    ensures PlantHumidity(humidity, min, max, parse).Failure? <==>
      Query(humidity).Some? && (ThresholdsOf(min, parse).Failure? || ThresholdsOf(max, parse).Failure?
        || HasNullValue(Query(humidity).value.result))
    ensures (PlantHumidity(humidity, min, max, parse).Failure? && ThresholdsOf(min, parse).Success?
             && ThresholdsOf(max, parse).Success?) ==>
      PlantHumidity(humidity, min, max, parse).error == TypeError
  {
  }

  // ---------------------------------------------------------------------
  // Online status supplied from outside

  predicate HasStatus(p: Plant) {
    p.isOnline.Some? && p.secondsSinceUpdate.Some?
  }

  /** Records completed with an online flag and a staleness age per device,
      as a separate staleness signal would supply them. */
  function WithStatus(plants: seq<Plant>, online: string -> bool, age: string -> int): (r: seq<Plant>)
    ensures |r| == |plants|
    ensures forall i :: 0 <= i < |r| ==>
      HasStatus(r[i]) && r[i].(isOnline := None, secondsSinceUpdate := None) == plants[i].(isOnline := None, secondsSinceUpdate := None)
    ensures forall i :: 0 <= i < |r| ==>
      r[i].isOnline == Some(online(plants[i].deviceId)) && r[i].secondsSinceUpdate == Some(age(plants[i].deviceId))
    decreases |plants|
  {
    if plants == [] then []
    else
      var p := plants[0];
      [p.(isOnline := Some(online(p.deviceId)), secondsSinceUpdate := Some(age(p.deviceId)))]
        + WithStatus(plants[1..], online, age)
  }
}
