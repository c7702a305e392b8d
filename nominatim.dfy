/** The response mapping of NominatimGeolocator::locate: from the HTTP status and the decoded
    JSON body to the list of geolocator locations, or the exception `locate` raises. The
    HTTP request itself and the JSON decoding are inputs. */
module Nominatim {
  import opened Wrappers
  import opened PhpBuiltins

  // ---------------------------------------------------------------- decoded JSON

  /** A key of a PHP array: list positions and numeric object keys are integers. */
  datatype Key = IntKey(n: int) | StrKey(s: string)

  /** A value `json_decode($body, true)` gives: objects and lists both become PHP arrays,
      whose entries keep the order of the text. */
  datatype Json =
    | JNull
    | JBool(b: bool)
    | JInt(i: int)
    | JFloat(text: string)
    | JStr(s: string)
    | JArray(entries: seq<(Key, Json)>)

  /** `$v[$key]` as read: the value of the first entry with that key; null when there is
      none or `$v` is not an array. */
  function At(v: Json, key: Key): (r: Json)
    ensures r != JNull ==> v.JArray? && exists e :: e in v.entries && e.0 == key && e.1 == r
  {
    if !v.JArray? then JNull else FirstValue(v.entries, key)
  }

  function FirstValue(entries: seq<(Key, Json)>, key: Key): (r: Json)
    ensures r != JNull ==> exists e :: e in entries && e.0 == key && e.1 == r
  {
    if entries == [] then JNull
    else if entries[0].0 == key then entries[0].1
    else FirstValue(entries[1..], key)
  }

  /** `isset($v[$key])`: the entry exists and is not null. */
  predicate IsSet(v: Json, key: Key)
  {
    At(v, key) != JNull
  }

  /** `array_key_exists($key, $v)`: the entry exists, even with a null value. */
  predicate HasKey(v: Json, key: Key)
  {
    v.JArray? && exists e :: e in v.entries && e.0 == key
  }

  /** The entries a `foreach` visits: none when the value is not an array. */
  function Entries(v: Json): seq<(Key, Json)>
  {
    if v.JArray? then v.entries else []
  }

  /** `count($v)` as PHP 7 gives it: 0 for null, 1 for any other scalar. */
  function Count(v: Json): nat
  {
    match v
    case JNull => 0
    case JArray(entries) => |entries|
    case _ => 1
  }

  /** The text PHP's string conversion gives a value (an array converts to "Array"). */
  function Text(v: Json): string
  {
    match v
    case JNull => ""
    case JBool(b) => if b then "1" else ""
    case JInt(i) => IntText(i)
    case JFloat(text) => text
    case JStr(s) => s
    case JArray(_) => "Array"
  }

  // ---------------------------------------------------------------- locations

  /** A GeolocatorLocation as `locate` leaves it; a field never set stays null. */
  datatype Location = Location(
    id: Key, street: Json, code: Json, town: Json, country: Json,
    latitude: Json, longitude: Json, displayTitle: string)

  const NewLocation: Location := Location(IntKey(0), JNull, JNull, JNull, JNull, JNull, JNull, "")

  /** The four setters the dynamic `$geoLocation->$method(...)` loop calls. */
  datatype Field = Street | Code | Town | Country

  /** The loop's table of setters and the keys of a location entry they copy, in order. */
  const FieldKeys: seq<(Field, string)> :=
    [(Street, "street"), (Code, "postalCode"), (Town, "adminArea5"), (Country, "adminArea1")]

  function SetField(g: Location, f: Field, v: Json): Location
  {
    match f
    case Street => g.(street := v)
    case Code => g.(code := v)
    case Town => g.(town := v)
    case Country => g.(country := v)
  }

  /** The location after the first n setters of the table, each called only when its key
      is set in the entry. */
  function CopyFields(g: Location, src: Json, n: nat): Location
    requires n <= |FieldKeys|
  {
    if n == 0 then g
    else
      var g' := CopyFields(g, src, n - 1);
      var key := StrKey(FieldKeys[n - 1].1);
      if IsSet(src, key) then SetField(g', FieldKeys[n - 1].0, At(src, key)) else g'
  }

  /** The display title: street, town and country joined by ", ", with only commas
      trimmed from both ends. */
  function TitleOf(street: Json, town: Json, country: Json): (t: string)
    ensures t == [] || (t[0] != ',' && t[|t| - 1] != ',')
  {
    Trim(Text(street) + ", " + Text(town) + ", " + Text(country), ',')
  }

  /** The location built for the entry `src` under key `id` of a result's `locations`. */
  function LocationFor(id: Key, src: Json): Location
  {
    var copied := CopyFields(NewLocation, src, |FieldKeys|);
    var placed := if IsSet(src, StrKey("latLng")) then
                    var latLng := At(src, StrKey("latLng"));
                    copied.(latitude := At(latLng, StrKey("lat")), longitude := At(latLng, StrKey("lng")))
                  else copied;
    var identified := placed.(id := id);
    identified.(displayTitle := TitleOf(identified.street, identified.town, identified.country))
  }

  /** The copy loop over the whole table: each field reads its key, since a key that is
      not set reads as null anyway. */
  lemma CopyFieldsReadsKeys(src: Json)
    ensures CopyFields(NewLocation, src, |FieldKeys|) ==
              NewLocation.(street := At(src, StrKey("street")), code := At(src, StrKey("postalCode")),
                           town := At(src, StrKey("adminArea5")), country := At(src, StrKey("adminArea1")))
  {
    assert FieldKeys[0] == (Street, "street") && FieldKeys[1] == (Code, "postalCode");
    assert FieldKeys[2] == (Town, "adminArea5") && FieldKeys[3] == (Country, "adminArea1");
    assert CopyFields(NewLocation, src, 0) == NewLocation;
    var g1 := CopyFields(NewLocation, src, 1);
    var g2 := CopyFields(NewLocation, src, 2);
    var g3 := CopyFields(NewLocation, src, 3);
    assert g1 == NewLocation.(street := At(src, StrKey("street")));
    assert g2 == g1.(code := At(src, StrKey("postalCode")));
    assert g3 == g2.(town := At(src, StrKey("adminArea5")));
    assert CopyFields(NewLocation, src, 4) == g3.(country := At(src, StrKey("adminArea1")));
  }

  /** Each location copies street, code, town and country from the keys of its entry when
      they are set, the coordinates only when `latLng` is set, takes its key as id and its
      title from the copied fields. */
  lemma LocationForFields(id: Key, src: Json)
    ensures var g := LocationFor(id, src);
      g.id == id &&
      g.street == At(src, StrKey("street")) && g.code == At(src, StrKey("postalCode")) &&
      g.town == At(src, StrKey("adminArea5")) && g.country == At(src, StrKey("adminArea1")) &&
      g.latitude == (if IsSet(src, StrKey("latLng")) then At(At(src, StrKey("latLng")), StrKey("lat")) else JNull) &&
      g.longitude == (if IsSet(src, StrKey("latLng")) then At(At(src, StrKey("latLng")), StrKey("lng")) else JNull) &&
      g.displayTitle == TitleOf(g.street, g.town, g.country)
  {
    CopyFieldsReadsKeys(src);
  }

  /** The locations of the entries of one result's `locations`, in order. */
  function MapLocations(entries: seq<(Key, Json)>): (r: seq<Location>)
    ensures |r| == |entries|
    ensures forall j :: 0 <= j < |entries| ==> r[j] == LocationFor(entries[j].0, entries[j].1)
  {
    seq(|entries|, j requires 0 <= j < |entries| => LocationFor(entries[j].0, entries[j].1))
  }

  /** One more entry adds its location at the end. */
  lemma MapLocationsSnoc(entries: seq<(Key, Json)>, e: (Key, Json))
    ensures MapLocations(entries + [e]) == MapLocations(entries) + [LocationFor(e.0, e.1)]
  {
    var l := MapLocations(entries + [e]);
    var r := MapLocations(entries) + [LocationFor(e.0, e.1)];
    assert |l| == |r|;
    forall j | 0 <= j < |l|
      ensures l[j] == r[j]
    {
      assert (entries + [e])[j] == if j < |entries| then entries[j] else e;
    }
  }

  /** The entries of a result's `locations` (none when it has no such array). */
  function LocationEntries(result: Json): seq<(Key, Json)>
  {
    Entries(At(result, StrKey("locations")))
  }

  /** The number of location entries over a run of results. */
  function Total(results: seq<(Key, Json)>): nat
  {
    if results == [] then 0
    else Total(results[..|results| - 1]) + |LocationEntries(results[|results| - 1].1)|
  }

  /** The locations of a run of results, result by result. */
  function LocationsOf(results: seq<(Key, Json)>): (r: seq<Location>)
    ensures |r| == Total(results)
  {
    if results == [] then []
    else LocationsOf(results[..|results| - 1]) + MapLocations(LocationEntries(results[|results| - 1].1))
  }

  /** One more result adds its locations at the end. */
  lemma LocationsOfSnoc(a: seq<(Key, Json)>, x: (Key, Json))
    ensures LocationsOf(a + [x]) == LocationsOf(a) + MapLocations(LocationEntries(x.1))
  {
    assert (a + [x])[..|a|] == a;
  }

  /** The locations of two runs of results one after the other. */
  lemma {:induction false} LocationsOfAppend(a: seq<(Key, Json)>, b: seq<(Key, Json)>)
    ensures LocationsOf(a + b) == LocationsOf(a) + LocationsOf(b)
    decreases |b|
  {
    if b == [] {
      assert a + b == a;
    } else {
      var k := |b| - 1;
      var init := b[..k];
      assert b == init + [b[k]];
      assert a + b == (a + init) + [b[k]];
      LocationsOfSnoc(a + init, b[k]);
      LocationsOfSnoc(init, b[k]);
      LocationsOfAppend(a, init);
      ConcatAssociative(LocationsOf(a), LocationsOf(init), MapLocations(LocationEntries(b[k].1)));
    }
  }

  /** One output per location, in result order and then location order: location j of
      result r comes right after the locations of the results before r. */
  lemma LocationsOfAt(results: seq<(Key, Json)>, r: nat, j: nat)
    requires r < |results| && j < |LocationEntries(results[r].1)|
    ensures var entries := LocationEntries(results[r].1);
      var offset := Total(results[..r]);
      offset + j < Total(results) &&
      LocationsOf(results)[offset + j] == LocationFor(entries[j].0, entries[j].1)
  {
    var before := results[..r];
    var x := results[r];
    var rest := results[r + 1..];
    assert results == (before + [x]) + rest;
    LocationsOfAppend(before + [x], rest);
    LocationsOfSnoc(before, x);
    var m := MapLocations(LocationEntries(x.1));
    IndexInMiddle(LocationsOf(before), m, LocationsOf(rest), j);
  }

  /** An element of the middle part of a concatenation, by its offset. */
  lemma IndexInMiddle<T>(a: seq<T>, m: seq<T>, b: seq<T>, j: nat)
    requires j < |m|
    ensures |a| + j < |(a + m) + b| && ((a + m) + b)[|a| + j] == m[j]
  {
  }

  /** Ids restart for every result: when a result's `locations` is a JSON list, its
      locations get the ids 0, 1, ... whatever came before. */
  lemma IdsRestartPerResult(results: seq<(Key, Json)>, r: nat, j: nat)
    requires r < |results| && j < |LocationEntries(results[r].1)|
    requires forall m :: 0 <= m < |LocationEntries(results[r].1)| ==> LocationEntries(results[r].1)[m].0 == IntKey(m)
    ensures Total(results[..r]) + j < Total(results)
    ensures LocationsOf(results)[Total(results[..r]) + j].id == IntKey(j)
  {
    LocationsOfAt(results, r, j);
  }

  // ---------------------------------------------------------------- locate

  /** The exceptions `locate` raises: the HttpException for a status other than 200, the
      exception carrying `info.messages[0]`, the `\Error` the exception's constructor
      throws when that message is an array, and "No results found.". */
  datatype GeoError =
    | HttpError(status: int)
    | Upstream(message: Json)
    | MessageRejected(message: Json)
    | NoResults

  const NoResultsMessage: string := "No results found."

  function Info(body: Json): Json
  {
    At(body, StrKey("info"))
  }

  /** `$responseBody['info']['messages'][0]`, the upstream exception's message. */
  function Message(body: Json): Json
  {
    At(At(Info(body), StrKey("messages")), IntKey(0))
  }

  /** `0 === $responseBody['info']['statuscode']`: strictly the integer 0. */
  predicate UpstreamOk(body: Json)
  {
    At(Info(body), StrKey("statuscode")) == JInt(0)
  }

  /** The results guard: the key exists and its value counts more than zero. */
  predicate HasResults(body: Json)
  {
    HasKey(body, StrKey("results")) && 0 < Count(At(body, StrKey("results")))
  }

  /** What `locate` gives for a response: the checks in order, then the locations. */
  function ResponseFor(status: int, body: Json): (r: Result<seq<Location>, GeoError>)
    ensures status != 200 ==> r == Err(HttpError(status))
    ensures status == 200 && !UpstreamOk(body) && !Message(body).JArray? ==> r == Err(Upstream(Message(body)))
    ensures r.Err? && r.error.MessageRejected? <==> status == 200 && !UpstreamOk(body) && Message(body).JArray?
    ensures r.Err? && r.error.MessageRejected? ==> r.error.message == Message(body)
    ensures r == Err(NoResults) <==> status == 200 && UpstreamOk(body) && !HasResults(body)
    ensures r.Ok? <==> status == 200 && UpstreamOk(body) && HasResults(body)
    ensures r.Ok? ==> |r.value| == Total(Entries(At(body, StrKey("results"))))
  {
    if status != 200 then Err(HttpError(status))
    else if !UpstreamOk(body) then
      (if Message(body).JArray? then Err(MessageRejected(Message(body))) else Err(Upstream(Message(body))))
    else if !HasResults(body) then Err(NoResults)
    else Ok(LocationsOf(Entries(At(body, StrKey("results")))))
  }

  /** The GeolocatorResponse `locate` fills through `addLocation`. */
  class GeolocatorResponse {
    var locations: seq<Location>

    constructor()
      ensures locations == []
    {
      locations := [];
    }

    method AddLocation(location: Location)
      modifies this
      ensures locations == old(locations) + [location]
    {
      locations := locations + [location];
    }
  }

  /** The setters of one location: the copy loop, the coordinates, the id and the title. */
  method BuildLocation(id: Key, src: Json) returns (g: Location)
    ensures g == LocationFor(id, src)
  {
    g := NewLocation;
    var k := 0;
    while k < |FieldKeys|
      invariant k <= |FieldKeys|
      invariant g == CopyFields(NewLocation, src, k)
    {
      var key := StrKey(FieldKeys[k].1);
      if IsSet(src, key) {
        g := SetField(g, FieldKeys[k].0, At(src, key));
      }
      k := k + 1;
    }
    if IsSet(src, StrKey("latLng")) {
      g := g.(latitude := At(At(src, StrKey("latLng")), StrKey("lat")));
      g := g.(longitude := At(At(src, StrKey("latLng")), StrKey("lng")));
    }
    g := g.(id := id);
    g := g.(displayTitle := TitleOf(g.street, g.town, g.country));
  }

  /** The inner `foreach` of `locate`: one location per entry of a result's `locations`,
      appended in order. */
  method AddResultLocations(response: GeolocatorResponse, locations: seq<(Key, Json)>)
    modifies response
    ensures response.locations == old(response.locations) + MapLocations(locations)
  {
    var j := 0;
    while j < |locations|
      invariant j <= |locations|
      invariant response.locations == old(response.locations) + MapLocations(locations[..j])
    {
      var location := BuildLocation(locations[j].0, locations[j].1);
      response.AddLocation(location);
      assert locations[..j + 1] == locations[..j] + [locations[j]];
      MapLocationsSnoc(locations[..j], locations[j]);
      ConcatAssociative(old(response.locations), MapLocations(locations[..j]), [location]);
      j := j + 1;
    }
    assert locations[..j] == locations;
  }

  /** One step of the loop over the results: result i adds its locations after those before. */
  lemma LocationsOfStep(start: seq<Location>, results: seq<(Key, Json)>, i: nat)
    requires i < |results|
    ensures start + LocationsOf(results[..i + 1])
      == start + LocationsOf(results[..i]) + MapLocations(LocationEntries(results[i].1))
  {
    assert results[..i + 1] == results[..i] + [results[i]];
    LocationsOfSnoc(results[..i], results[i]);
    ConcatAssociative(start, LocationsOf(results[..i]), MapLocations(LocationEntries(results[i].1)));
  }

  /** The loop over the results, each adding its `locations` in order. */
  method AddAllLocations(response: GeolocatorResponse, results: seq<(Key, Json)>)
    modifies response
    ensures response.locations == old(response.locations) + LocationsOf(results)
  {
    var i := 0;
    while i < |results|
      invariant i <= |results|
      invariant response.locations == old(response.locations) + LocationsOf(results[..i])
    {
      var entries := LocationEntries(results[i].1);
      AddResultLocations(response, entries);
      LocationsOfStep(old(response.locations), results, i);
      i := i + 1;
    }
    assert results[..i] == results;
  }

  /** `locate` after the request: the status check, the upstream status check, the results
      check, then one location per entry of each result's `locations`. */
  method Locate(status: int, body: Json) returns (r: Result<GeolocatorResponse, GeoError>)
    ensures var spec := ResponseFor(status, body);
      (r.Ok? <==> spec.Ok?) && (r.Err? ==> r.error == spec.error) &&
      (r.Ok? ==> fresh(r.value) && r.value.locations == spec.value)
  {
    if status != 200 {
      return Err(HttpError(status));
    }
    var response := new GeolocatorResponse();
    if At(Info(body), StrKey("statuscode")) == JInt(0) {
      if HasKey(body, StrKey("results")) && 0 < Count(At(body, StrKey("results"))) {
        AddAllLocations(response, Entries(At(body, StrKey("results"))));
      } else {
        return Err(NoResults);
      }
    } else {
      var message := At(At(Info(body), StrKey("messages")), IntKey(0));
      if message.JArray? {
        return Err(MessageRejected(message));
      }
      return Err(Upstream(message));
    }
    return Ok(response);
  }

  /** An upstream status with an array as its first message: the constructor of the
      exception rejects the array, so `locate` ends with that `\Error`. */
  lemma ArrayMessageIsRejected()
    ensures var inner := JArray([(IntKey(0), JStr("x"))]);
      var info := JArray([(StrKey("statuscode"), JInt(1)), (StrKey("messages"), JArray([(IntKey(0), inner)]))]);
      ResponseFor(200, JArray([(StrKey("info"), info)])) == Err(MessageRejected(inner))
  {
  }

  /** The title keeps the spaces next to a trimmed comma: a location with only a country
      is titled with a leading space. */
  lemma TitleKeepsSpaces(country: string)
    requires country != [] && country[|country| - 1] != ','
    ensures TitleOf(JNull, JNull, JStr(country)) == " , " + country
  {
    var joined := Text(JNull) + ", " + Text(JNull) + ", " + Text(JStr(country));
    assert joined == ", , " + country;
    assert joined[0] == ',' && joined[1] == ' ' && joined[|joined| - 1] != ',';
    assert LeadCount(joined, ',') == 1;
    assert TailCount(joined, ',') == 0;
    assert joined[1..|joined|] == " , " + country;
  }
}
