/** The Google Maps client: geocoding, directions reduced to the first leg of the
    first route, and the nearby bus stop search with per-place filtering and a
    stable sort by distance.

    HTTP is not performed: `Api` gives, for each request the client would make,
    the reply it gets, either a failure (any `RequestException`, a timeout, an
    error status, or a body that is not JSON) or the decoded JSON body. */
module Maps {
  import opened Wrappers
  import opened PyJson

  const BaseUrl := "https://maps.googleapis.com/maps/api"
  const GeocodeEndpoint := BaseUrl + "/geocode/json"
  const DirectionsEndpoint := BaseUrl + "/directions/json"
  const NearbyEndpoint := BaseUrl + "/place/nearbysearch/json"
  const MaxRadius := 50000
  const DefaultRadius := 1000
  const DefaultMode := "transit"
  const LatPath := ["geometry", "location", "lat"]
  const LngPath := ["geometry", "location", "lng"]

  datatype Reply = RequestFailed | Body(data: Json)

  datatype GeocodeRequest = GeocodeRequest(endpoint: string, address: string, key: string)

  datatype DirectionsRequest = DirectionsRequest(
    endpoint: string, origin: string, destination: string, mode: string, key: string,
    transitMode: string, alternatives: string, units: string)

  datatype NearbyRequest = NearbyRequest(
    endpoint: string, location: string, radius: int, placeType: string, key: string)

  /** The three endpoints, as functions from the request to its reply. */
  datatype Api = Api(
    geocode: GeocodeRequest -> Reply,
    directions: DirectionsRequest -> Reply,
    nearby: NearbyRequest -> Reply)

  /** `round(geodesic((lat0, lng0), (lat1, lng1)).meters)`; None where geopy
      raises (coordinates that are not numbers or out of range). */
  type Meters = (Json, Json, Json, Json) -> Option<nat>

  // ---------------------------------------------------------------- geocode

  /** What `geocode` does: returns `results[0]`, returns None, or raises when the
      body is not a dict or `results[0]` fails. */
  datatype Geocoded = Located(result: Json) | NotLocated | GeocodeRaised

  function GeocodeOf(reply: Reply): (g: Geocoded)
    ensures g.Located? ==>
      && reply.Body? && reply.data.JObj?
      && GetOr(reply.data.fields, "status", JNull) == JStr("OK")
      && Truthy(GetOr(reply.data.fields, "results", JNull))
    ensures (reply.Body? && reply.data.JObj? && "results" in reply.data.fields
      && reply.data.fields["results"].JArr?) ==>
        var xs := reply.data.fields["results"].items;
        && (g.Located? <==> GetOr(reply.data.fields, "status", JNull) == JStr("OK") && xs != [])
        && (g.Located? ==> g.result == xs[0])
        && !g.GeocodeRaised?
    ensures reply.RequestFailed? ==> g == NotLocated
  {
    match reply
    case RequestFailed => NotLocated
    case Body(data) =>
      if !data.JObj? then GeocodeRaised
      else
        var f := data.fields;
        if GetOr(f, "status", JNull) != JStr("OK") || !Truthy(GetOr(f, "results", JNull)) then NotLocated
        else match First(f["results"])
          case Some(r) => Located(r)
          case None => GeocodeRaised
  }

  // ---------------------------------------------------------------- directions

  datatype Step = Step(instruction: Json, distance: Json, duration: Json, travelMode: Json)

  /** The dict `get_eta` returns. */
  datatype Eta = Eta(duration: Json, distance: Json, startAddress: Json, endAddress: Json,
                     steps: seq<Step>)

  function DirectionsRequestFor(key: string, origin: string, destination: string, mode: string)
    : DirectionsRequest
  {
    DirectionsRequest(DirectionsEndpoint, origin, destination, mode, key, "bus", "false", "metric")
  }

  /** `d.get(key, {}).get("text", default)`; None where the value is not a dict
      and `.get` raises. */
  function TextOf(d: map<string, Json>, key: string, default: Json): (r: Option<Json>)
    ensures key !in d ==> r == Some(default)
    ensures key in d && d[key].JObj? ==> r == Some(GetOr(d[key].fields, "text", default))
    ensures key in d && !d[key].JObj? ==> r.None?
  {
    var v := GetOr(d, key, JObj(map[]));
    if v.JObj? then Some(GetOr(v.fields, "text", default)) else None
  }

  /** One entry of `steps`; None where the code raises on this step. */
  function StepOf(step: Json): (r: Option<Step>)
    ensures r.Some? <==>
      && step.JObj?
      && ("distance" !in step.fields || step.fields["distance"].JObj?)
      && ("duration" !in step.fields || step.fields["duration"].JObj?)
    ensures r.Some? ==>
      var f := step.fields;
      && r.value.instruction == GetOr(f, "html_instructions", JStr(""))
      && Some(r.value.distance) == TextOf(f, "distance", JStr(""))
      && Some(r.value.duration) == TextOf(f, "duration", JStr(""))
      && r.value.travelMode == GetOr(f, "travel_mode", JStr(""))
  {
    if !step.JObj? then None
    else
      var f := step.fields;
      match (TextOf(f, "distance", JStr("")), TextOf(f, "duration", JStr("")))
      case (Some(distance), Some(duration)) =>
        Some(Step(GetOr(f, "html_instructions", JStr("")), distance, duration,
                  GetOr(f, "travel_mode", JStr(""))))
      case _ => None
  }

  function StepsOf(items: seq<Json>): (r: Option<seq<Step>>)
    ensures r.Some? ==> |r.value| == |items|
  {
    if items == [] then Some([])
    else match (StepOf(items[0]), StepsOf(items[1..]))
      case (Some(s), Some(rest)) => Some([s] + rest)
      case _ => None
  }

  /** Appending one step item extends the steps by its step, or fails with it. */
  lemma {:induction false} StepsOfAppend(items: seq<Json>, x: Json)
    ensures StepsOf(items + [x]) ==
      if StepsOf(items).Some? && StepOf(x).Some? then Some(StepsOf(items).value + [StepOf(x).value])
      else None
    decreases |items|
  {
    if items == [] {
      assert items + [x] == [x];
      assert [x][1..] == [];
      if StepOf(x).Some? {
        assert StepsOf([x]) == Some([StepOf(x).value] + []);
        assert [] + [StepOf(x).value] == [StepOf(x).value] + [];
      }
    } else {
      var e := items + [x];
      assert e[0] == items[0];
      assert e[1..] == items[1..] + [x];
      StepsOfAppend(items[1..], x);
      var rest := StepsOf(items[1..]);
      if StepOf(items[0]).Some? && rest.Some? && StepOf(x).Some? {
        var h, t := StepOf(items[0]).value, StepOf(x).value;
        assert StepsOf(e) == Some([h] + (rest.value + [t]));
        assert StepsOf(items) == Some([h] + rest.value);
        assert [h] + (rest.value + [t]) == ([h] + rest.value) + [t];
      }
    }
  }

  /** The steps are one per item, in order, and exist exactly when every item
      makes a step. */
  lemma {:induction false} StepsOfPointwise(items: seq<Json>)
    ensures StepsOf(items).Some? <==> forall i :: 0 <= i < |items| ==> StepOf(items[i]).Some?
    ensures StepsOf(items).Some? ==>
      |StepsOf(items).value| == |items|
      && forall i :: 0 <= i < |items| ==> StepsOf(items).value[i] == StepOf(items[i]).value
    decreases |items|
  {
    if items != [] {
      StepsOfPointwise(items[1..]);
      assert forall i :: 1 <= i < |items| ==> items[i] == items[1..][i - 1];
      if StepsOf(items).Some? {
        var rest := StepsOf(items[1..]).value;
        assert StepsOf(items).value == [StepOf(items[0]).value] + rest;
      }
    }
  }

  /** The ETA of one leg; None where the code raises on it. */
  function LegEta(leg: Json): (r: Option<Eta>)
    ensures r.Some? <==>
      && leg.JObj?
      && ("duration" !in leg.fields || leg.fields["duration"].JObj?)
      && ("distance" !in leg.fields || leg.fields["distance"].JObj?)
      && Elements(GetOr(leg.fields, "steps", JArr([]))).Some?
      && StepsOf(Elements(GetOr(leg.fields, "steps", JArr([]))).value).Some?
    ensures r.Some? ==>
      var f := leg.fields;
      && Some(r.value.duration) == TextOf(f, "duration", JStr("Unknown"))
      && Some(r.value.distance) == TextOf(f, "distance", JStr("Unknown"))
      && r.value.startAddress == GetOr(f, "start_address", JStr(""))
      && r.value.endAddress == GetOr(f, "end_address", JStr(""))
      && r.value.steps == StepsOf(Elements(GetOr(f, "steps", JArr([]))).value).value
      && ("steps" !in f ==> r.value.steps == [])
  {
    if !leg.JObj? then None
    else
      var f := leg.fields;
      match (TextOf(f, "duration", JStr("Unknown")), TextOf(f, "distance", JStr("Unknown")),
             Elements(GetOr(f, "steps", JArr([]))))
      case (Some(duration), Some(distance), Some(items)) =>
        (match StepsOf(items)
         case Some(steps) =>
           Some(Eta(duration, distance, GetOr(f, "start_address", JStr("")),
                    GetOr(f, "end_address", JStr("")), steps))
         case None => None)
      case _ => None
  }

  /** `get_eta` on the reply it gets: the first leg of the first route, or None. */
  function EtaOf(reply: Reply): (r: Option<Eta>)
    ensures r.Some? ==>
      && reply.Body? && reply.data.JObj?
      && GetOr(reply.data.fields, "status", JNull) == JStr("OK")
      && Truthy(GetOr(reply.data.fields, "routes", JNull))
  {
    match reply
    case RequestFailed => None
    case Body(data) =>
      if !data.JObj? then None
      else
        var f := data.fields;
        if GetOr(f, "status", JNull) != JStr("OK") || !Truthy(GetOr(f, "routes", JNull)) then None
        else match First(f["routes"])
          case None => None
          case Some(route) =>
            if !route.JObj? then None
            else
              var legs := GetOr(route.fields, "legs", JArr([]));
              if !Truthy(legs) then None
              else match First(legs)
                case None => None
                case Some(leg) => LegEta(leg)
  }

  /** Only the first leg of the first route counts: whatever other routes and
      legs say, the ETA is that leg's. */
  lemma EtaFromFirstLeg(fields: map<string, Json>, route: map<string, Json>, leg: Json,
                        otherRoutes: seq<Json>, otherLegs: seq<Json>)
    requires GetOr(fields, "status", JNull) == JStr("OK")
    requires "routes" in fields && fields["routes"] == JArr([JObj(route)] + otherRoutes)
    requires "legs" in route && route["legs"] == JArr([leg] + otherLegs)
    ensures EtaOf(Body(JObj(fields))) == LegEta(leg)
  {
    assert First(fields["routes"]) == Some(JObj(route));
    assert First(route["legs"]) == Some(leg);
  }

  /** The cases in which `get_eta` gives up. */
  lemma EtaRefusals(fields: map<string, Json>)
    ensures GetOr(fields, "status", JNull) != JStr("OK") ==> EtaOf(Body(JObj(fields))).None?
    ensures "routes" !in fields || fields["routes"] == JArr([]) ==> EtaOf(Body(JObj(fields))).None?
    ensures "routes" in fields && fields["routes"].JArr? && fields["routes"].items != []
      && fields["routes"].items[0].JObj? && "legs" !in fields["routes"].items[0].fields
      ==> EtaOf(Body(JObj(fields))).None?
    ensures "routes" in fields && fields["routes"].JArr? && fields["routes"].items != []
      && fields["routes"].items[0].JObj? && "legs" in fields["routes"].items[0].fields
      && fields["routes"].items[0].fields["legs"] == JArr([])
      ==> EtaOf(Body(JObj(fields))).None?
  {
  }

  // ---------------------------------------------------------------- nearby stops

  /** A stop dict; `rating` is there only when the place has one. */
  datatype Stop = Stop(name: Json, address: Json, distance: nat, location: string,
                       placeId: Json, rating: Option<Json>)

  /** One iteration of the places loop: a stop, a KeyError that skips the
      place, or an exception that ends the whole search. */
  datatype PlaceOutcome = Keep(stop: Stop) | Skip | Abort

  function PlaceOutcomeOf(place: Json, lat0: Json, lng0: Json, meters: Meters,
                          repr: Json -> string): (o: PlaceOutcome)
    ensures o.Keep? <==>
      && IndexPath(place, LatPath).Found? && IndexPath(place, LngPath).Found?
      && meters(lat0, lng0, IndexPath(place, LatPath).value, IndexPath(place, LngPath).value).Some?
    ensures o.Skip? <==>
      || IndexPath(place, LatPath).KeyMissing?
      || (IndexPath(place, LatPath).Found? && IndexPath(place, LngPath).KeyMissing?)
    ensures o.Keep? ==>
      var lat, lng := IndexPath(place, LatPath).value, IndexPath(place, LngPath).value;
      place.JObj? && o.stop == StopOf(place.fields, meters(lat0, lng0, lat, lng).value, lat, lng, repr)
  {
    match IndexPath(place, LatPath)
    case NotSubscriptable => Abort
    case KeyMissing => Skip
    case Found(lat) =>
      match IndexPath(place, LngPath)
      case NotSubscriptable => Abort
      case KeyMissing => Skip
      case Found(lng) =>
        match meters(lat0, lng0, lat, lng)
        case None => Abort
        case Some(d) => Keep(StopOf(place.fields, d, lat, lng, repr))
  }

  /** The stop dict built for a place with coordinates. */
  function StopOf(place: map<string, Json>, distance: nat, lat: Json, lng: Json,
                  repr: Json -> string): (s: Stop)
    ensures s.distance == distance
    ensures "name" in place ==> s.name == place["name"]
    ensures "name" !in place ==> s.name == JStr("Bus Stop")
    ensures "vicinity" in place ==> s.address == place["vicinity"]
    ensures "vicinity" !in place ==> s.address == JStr("")
    ensures "place_id" in place ==> s.placeId == place["place_id"]
    ensures "place_id" !in place ==> s.placeId == JStr("")
    ensures s.location == PyStr(lat, repr) + "," + PyStr(lng, repr)
    ensures s.rating.Some? <==> "rating" in place
    ensures s.rating.Some? ==> s.rating.value == place["rating"]
  {
    Stop(GetOr(place, "name", JStr("Bus Stop")), GetOr(place, "vicinity", JStr("")), distance,
         PyStr(lat, repr) + "," + PyStr(lng, repr), GetOr(place, "place_id", JStr("")),
         if "rating" in place then Some(place["rating"]) else None)
  }

  /** The stops the loop collects; None when some place ends the search. */
  function CollectStops(places: seq<Json>, lat0: Json, lng0: Json, meters: Meters,
                        repr: Json -> string): (r: Option<seq<Stop>>)
    ensures r.Some? ==> |r.value| <= |places|
  {
    if places == [] then Some([])
    else Gather(PlaceOutcomeOf(places[0], lat0, lng0, meters, repr),
                CollectStops(places[1..], lat0, lng0, meters, repr))
  }

  /** One place's outcome in front of the outcome of the places after it. */
  function Gather(o: PlaceOutcome, rest: Option<seq<Stop>>): Option<seq<Stop>> {
    match (o, rest)
    case (Abort, _) => None
    case (_, None) => None
    case (Skip, Some(r)) => Some(r)
    case (Keep(s), Some(r)) => Some([s] + r)
  }

  lemma GatherFails(o: PlaceOutcome, rest: Option<seq<Stop>>)
    ensures Gather(o, rest).None? <==> o.Abort? || rest.None?
  {
  }

  function Both(a: Option<seq<Stop>>, b: Option<seq<Stop>>): Option<seq<Stop>> {
    if a.Some? && b.Some? then Some(a.value + b.value) else None
  }

  lemma GatherBoth(o: PlaceOutcome, a: Option<seq<Stop>>, b: Option<seq<Stop>>)
    ensures Both(Gather(o, a), b) == Gather(o, Both(a, b))
  {
    if o.Keep? && a.Some? && b.Some? {
      assert [o.stop] + (a.value + b.value) == ([o.stop] + a.value) + b.value;
    }
  }

  /** Collecting over two runs of places is collecting over each. */
  lemma {:induction false} CollectConcat(a: seq<Json>, b: seq<Json>, lat0: Json, lng0: Json,
                                         meters: Meters, repr: Json -> string)
    ensures CollectStops(a + b, lat0, lng0, meters, repr) ==
      Both(CollectStops(a, lat0, lng0, meters, repr), CollectStops(b, lat0, lng0, meters, repr))
    decreases |a|
  {
    var rb := CollectStops(b, lat0, lng0, meters, repr);
    if a == [] {
      assert a + b == b;
      if rb.Some? {
        assert [] + rb.value == rb.value;
      }
    } else {
      assert (a + b)[0] == a[0];
      assert (a + b)[1..] == a[1..] + b;
      CollectConcat(a[1..], b, lat0, lng0, meters, repr);
      GatherBoth(PlaceOutcomeOf(a[0], lat0, lng0, meters, repr),
                 CollectStops(a[1..], lat0, lng0, meters, repr), rb);
    }
  }

  /** Collecting one place more. */
  lemma CollectOneMore(ps: seq<Json>, i: nat, lat0: Json, lng0: Json, meters: Meters,
                       repr: Json -> string)
    requires i < |ps|
    ensures CollectStops(ps[..i + 1], lat0, lng0, meters, repr) ==
      Both(CollectStops(ps[..i], lat0, lng0, meters, repr),
           Gather(PlaceOutcomeOf(ps[i], lat0, lng0, meters, repr), Some([])))
  {
    CollectConcat(ps[..i], [ps[i]], lat0, lng0, meters, repr);
    assert ps[..i + 1] == ps[..i] + [ps[i]];
    assert [ps[i]][1..] == [];
  }

  /** What one more place does to the stops collected so far. */
  lemma GatherOne(o: PlaceOutcome, stops: seq<Stop>)
    ensures Both(Some(stops), Gather(o, Some([]))) ==
      match o
      case Abort => None
      case Skip => Some(stops)
      case Keep(s) => Some(stops + [s])
  {
    assert stops + [] == stops;
    if o.Keep? {
      assert [o.stop] + [] == [o.stop];
    }
  }

  /** A place that raises anything but a KeyError ends the search with nothing. */
  lemma AbortEndsSearch(ps: seq<Json>, i: nat, lat0: Json, lng0: Json, meters: Meters,
                        repr: Json -> string)
    requires i < |ps| && PlaceOutcomeOf(ps[i], lat0, lng0, meters, repr).Abort?
    ensures CollectStops(ps, lat0, lng0, meters, repr) == None
  {
    CollectOneMore(ps, i, lat0, lng0, meters, repr);
    CollectConcat(ps[..i + 1], ps[i + 1..], lat0, lng0, meters, repr);
    assert ps == ps[..i + 1] + ps[i + 1..];
  }

  /** The search ends without stops exactly when one of its places raises
      something other than a KeyError. */
  lemma {:induction false} CollectAborts(places: seq<Json>, lat0: Json, lng0: Json,
                                         meters: Meters, repr: Json -> string)
    ensures CollectStops(places, lat0, lng0, meters, repr).None? <==>
      exists i :: 0 <= i < |places| && PlaceOutcomeOf(places[i], lat0, lng0, meters, repr).Abort?
    decreases |places|
  {
    if places != [] {
      CollectAborts(places[1..], lat0, lng0, meters, repr);
      var o := PlaceOutcomeOf(places[0], lat0, lng0, meters, repr);
      GatherFails(o, CollectStops(places[1..], lat0, lng0, meters, repr));
      if o.Abort? {
      } else {
        forall i | 0 <= i < |places[1..]|
          ensures places[1..][i] == places[i + 1]
        {
        }
        assert (exists i :: 0 <= i < |places| && PlaceOutcomeOf(places[i], lat0, lng0, meters, repr).Abort?)
          <==> (exists i :: 0 <= i < |places[1..]|
                  && PlaceOutcomeOf(places[1..][i], lat0, lng0, meters, repr).Abort?);
      }
    }
  }

  /** A skipped place leaves the other places' stops as they are. */
  lemma SkipIsIgnored(before: seq<Json>, place: Json, after: seq<Json>, lat0: Json, lng0: Json,
                      meters: Meters, repr: Json -> string)
    requires PlaceOutcomeOf(place, lat0, lng0, meters, repr) == Skip
    ensures CollectStops(before + [place] + after, lat0, lng0, meters, repr)
      == CollectStops(before + after, lat0, lng0, meters, repr)
  {
    CollectConcat(before, [place] + after, lat0, lng0, meters, repr);
    CollectConcat(before, after, lat0, lng0, meters, repr);
    assert before + [place] + after == before + ([place] + after);
    assert ([place] + after)[1..] == after;
  }

  /** Each place with coordinates gives exactly one stop, in place order. */
  lemma {:induction false} KeptPlacesGiveOneStopEach(places: seq<Json>, lat0: Json, lng0: Json,
                                                     meters: Meters, repr: Json -> string)
    requires forall i :: 0 <= i < |places| ==> PlaceOutcomeOf(places[i], lat0, lng0, meters, repr).Keep?
    ensures CollectStops(places, lat0, lng0, meters, repr).Some?
    ensures var ss := CollectStops(places, lat0, lng0, meters, repr).value;
      |ss| == |places|
      && forall i :: 0 <= i < |places| ==> ss[i] == PlaceOutcomeOf(places[i], lat0, lng0, meters, repr).stop
    decreases |places|
  {
    if places != [] {
      assert forall i :: 1 <= i < |places| ==> places[i] == places[1..][i - 1];
      KeptPlacesGiveOneStopEach(places[1..], lat0, lng0, meters, repr);
    }
  }

  // ---------------------------------------------------------------- sorting

  predicate SortedByDistance(s: seq<Stop>) {
    forall i, j :: 0 <= i < j < |s| ==> s[i].distance <= s[j].distance
  }

  /** Puts `x` before the first stop at least as far away. */
  function InsertStop(x: Stop, s: seq<Stop>): (r: seq<Stop>)
    ensures multiset(r) == multiset(s) + multiset{x}
    ensures |r| == |s| + 1
  {
    if s == [] || x.distance <= s[0].distance then [x] + s
    else
      assert s == [s[0]] + s[1..];
      [s[0]] + InsertStop(x, s[1..])
  }

  /** `sorted(stops, key=lambda x: x["distance"])`. */
  function SortByDistance(s: seq<Stop>): (r: seq<Stop>)
    ensures multiset(r) == multiset(s)
    ensures |r| == |s|
  {
    if s == [] then []
    else
      assert s == [s[0]] + s[1..];
      InsertStop(s[0], SortByDistance(s[1..]))
  }

  /** The stops at distance d, in order. */
  function AtDistance(s: seq<Stop>, d: nat): seq<Stop> {
    if s == [] then []
    else (if s[0].distance == d then [s[0]] else []) + AtDistance(s[1..], d)
  }

  lemma {:induction false} InsertKeepsSorted(x: Stop, s: seq<Stop>)
    requires SortedByDistance(s)
    ensures SortedByDistance(InsertStop(x, s))
    ensures InsertStop(x, s)[0] == x || InsertStop(x, s)[0] == s[0]
    decreases |s|
  {
    if s == [] || x.distance <= s[0].distance {
      SortedCons(x, s);
    } else {
      InsertKeepsSorted(x, s[1..]);
      var r := InsertStop(x, s[1..]);
      assert s[1..] != [] ==> s[1..][0] == s[1];
      SortedCons(s[0], r);
    }
  }

  /** A stop no farther than the first of a sorted list extends it. */
  lemma SortedCons(a: Stop, t: seq<Stop>)
    requires SortedByDistance(t) && (t == [] || a.distance <= t[0].distance)
    ensures SortedByDistance([a] + t)
  {
    var u := [a] + t;
    forall i, j | 0 <= i < j < |u| ensures u[i].distance <= u[j].distance {
      if i > 0 {
        assert u[i] == t[i - 1] && u[j] == t[j - 1];
      } else {
        assert u[j] == t[j - 1];
      }
    }
  }

  lemma {:induction false} InsertIsStable(x: Stop, s: seq<Stop>, d: nat)
    ensures AtDistance(InsertStop(x, s), d) ==
      (if x.distance == d then [x] else []) + AtDistance(s, d)
    decreases |s|
  {
    if s == [] || x.distance <= s[0].distance {
      assert ([x] + s)[1..] == s;
    } else {
      InsertIsStable(x, s[1..], d);
      assert ([s[0]] + InsertStop(x, s[1..]))[1..] == InsertStop(x, s[1..]);
      if x.distance == d {
        assert s[0].distance != d;
      }
    }
  }

  /** The sort is the stable one: its result is ordered by distance, holds the
      same stops, and keeps stops at equal distance in their original order. */
  lemma {:induction false} SortIsStable(s: seq<Stop>)
    ensures SortedByDistance(SortByDistance(s))
    ensures multiset(SortByDistance(s)) == multiset(s)
    ensures forall d: nat :: AtDistance(SortByDistance(s), d) == AtDistance(s, d)
    decreases |s|
  {
    if s != [] {
      SortIsStable(s[1..]);
      InsertKeepsSorted(s[0], SortByDistance(s[1..]));
      forall d: nat
        ensures AtDistance(SortByDistance(s), d) == AtDistance(s, d)
      {
        InsertIsStable(s[0], SortByDistance(s[1..]), d);
      }
    }
  }

  /** The first stop of a sorted list is a nearest one. */
  lemma FirstIsNearest(s: seq<Stop>)
    requires s != [] && SortedByDistance(s)
    ensures forall t :: t in s ==> s[0].distance <= t.distance
  {
  }

  // ---------------------------------------------------------------- the search

  /** The places request: the radius is capped at 50 km. */
  function NearbyRequestFor(key: string, lat: Json, lng: Json, radius: int,
                            repr: Json -> string): (q: NearbyRequest)
    ensures q.radius <= MaxRadius
    ensures radius <= MaxRadius ==> q.radius == radius
    ensures radius > MaxRadius ==> q.radius == MaxRadius
  {
    NearbyRequest(NearbyEndpoint, PyStr(lat, repr) + "," + PyStr(lng, repr),
                  if radius < MaxRadius then radius else MaxRadius, "bus_station", key)
  }

  /** The places step of the search, once the origin's coordinates are known. */
  function StopsNear(key: string, lat: Json, lng: Json, radius: int, api: Api, meters: Meters,
                     repr: Json -> string): (r: Option<seq<Stop>>)
    ensures r.Some? ==> r.value != [] && SortedByDistance(r.value)
    ensures var reply := api.nearby(NearbyRequestFor(key, lat, lng, radius, repr));
      || reply.RequestFailed?
      || !reply.data.JObj?
      || GetOr(reply.data.fields, "status", JNull) != JStr("OK")
      || "results" !in reply.data.fields
      ==> r.None?
  {
    match api.nearby(NearbyRequestFor(key, lat, lng, radius, repr))
    case RequestFailed => None
    case Body(data) =>
      if !data.JObj? || GetOr(data.fields, "status", JNull) != JStr("OK") then None
      else match Elements(GetOr(data.fields, "results", JArr([])))
        case None => None
        case Some(places) =>
          match CollectStops(places, lat, lng, meters, repr)
          case None => None
          case Some(stops) =>
            if stops == [] then None
            else
              SortIsStable(stops);
              Some(SortByDistance(stops))
  }

  /** `find_nearby_bus_stops`: geocode, then search around the coordinates. */
  function NearbyStops(key: string, location: string, radius: int, api: Api, meters: Meters,
                       repr: Json -> string): (r: Option<seq<Stop>>)
    ensures r.Some? ==> r.value != [] && SortedByDistance(r.value)
    ensures r.Some? ==> GeocodeOf(api.geocode(GeocodeRequest(GeocodeEndpoint, location, key))).Located?
  {
    match GeocodeOf(api.geocode(GeocodeRequest(GeocodeEndpoint, location, key)))
    case NotLocated => None
    case GeocodeRaised => None
    case Located(g) =>
      if !Truthy(g) then None
      else match (IndexPath(g, LatPath), IndexPath(g, LngPath))
        case (Found(lat), Found(lng)) => StopsNear(key, lat, lng, radius, api, meters, repr)
        case _ => None
  }

  /** A search that succeeds returns the stable sort of the stops its places
      gave, and only places that raise a non-KeyError exception can empty it. */
  lemma StopsNearIsSortedCollection(key: string, lat: Json, lng: Json, radius: int, api: Api,
                                    meters: Meters, repr: Json -> string,
                                    fields: map<string, Json>, places: seq<Json>)
    requires api.nearby(NearbyRequestFor(key, lat, lng, radius, repr)) == Body(JObj(fields))
    requires GetOr(fields, "status", JNull) == JStr("OK")
    requires "results" in fields && fields["results"] == JArr(places)
    ensures var r := StopsNear(key, lat, lng, radius, api, meters, repr);
      && (r.None? <==>
            (|| CollectStops(places, lat, lng, meters, repr) == Some([])
             || exists i :: 0 <= i < |places| && PlaceOutcomeOf(places[i], lat, lng, meters, repr).Abort?))
      && (r.Some? ==> r.value == SortByDistance(CollectStops(places, lat, lng, meters, repr).value))
  {
    CollectAborts(places, lat, lng, meters, repr);
  }

  // ---------------------------------------------------------------- the client

  class MapsClient {
    const apiKey: string

    /** `MapsClient(api_key)`: the key is `api_key` or else the configured one. */
    constructor (apiKey: Option<string>, configKey: string)
      ensures this.apiKey == OrElse(apiKey, configKey)
    {
      this.apiKey := OrElse(apiKey, configKey);
    }

    /** The geocode request carries the address and this client's key. */
    function Geocode(address: string, api: Api): (g: Geocoded)
      ensures var reply := api.geocode(GeocodeRequest(GeocodeEndpoint, address, apiKey));
        && (reply.RequestFailed? ==> g == NotLocated)
        && (g.Located? ==>
              reply.Body? && reply.data.JObj? && GetOr(reply.data.fields, "status", JNull) == JStr("OK"))
    {
      GeocodeOf(api.geocode(GeocodeRequest(GeocodeEndpoint, address, apiKey)))
    }

    /** `get_eta`: the checks on the reply, then a loop over the first leg's steps. */
    method GetEta(origin: string, destination: string, mode: string, api: Api)
      returns (r: Option<Eta>)
      ensures r == EtaOf(api.directions(DirectionsRequestFor(apiKey, origin, destination, mode)))
    {
      var reply := api.directions(DirectionsRequestFor(apiKey, origin, destination, mode));
      if !reply.Body? || !reply.data.JObj? {
        return None;
      }
      var data := reply.data.fields;
      if GetOr(data, "status", JNull) != JStr("OK") || !Truthy(GetOr(data, "routes", JNull)) {
        return None;
      }
      var route := First(data["routes"]);
      if route.None? || !route.value.JObj? {
        return None;
      }
      var legs := GetOr(route.value.fields, "legs", JArr([]));
      if !Truthy(legs) {
        return None;
      }
      var leg := First(legs);
      if leg.None? || !leg.value.JObj? {
        return None;
      }
      var f := leg.value.fields;
      var duration := TextOf(f, "duration", JStr("Unknown"));
      var distance := TextOf(f, "distance", JStr("Unknown"));
      var items := Elements(GetOr(f, "steps", JArr([])));
      if duration.None? || distance.None? || items.None? {
        return None;
      }
      var steps: seq<Step> := [];
      for i := 0 to |items.value|
        invariant StepsOf(items.value[..i]) == Some(steps)
      {
        var step := StepOf(items.value[i]);
        if step.None? {
          StepsOfPointwise(items.value);
          return None;
        }
        StepsOfAppend(items.value[..i], items.value[i]);
        assert items.value[..i + 1] == items.value[..i] + [items.value[i]];
        steps := steps + [step.value];
      }
      assert items.value[..|items.value|] == items.value;
      return Some(Eta(duration.value, distance.value, GetOr(f, "start_address", JStr("")),
                      GetOr(f, "end_address", JStr("")), steps));
    }

    /** `find_nearby_bus_stops`: geocoding, the places request, and a loop over
        the places that skips those without coordinates. */
    method FindNearbyBusStops(location: string, radius: int, api: Api, meters: Meters,
                              repr: Json -> string)
      returns (r: Option<seq<Stop>>)
      ensures r == NearbyStops(apiKey, location, radius, api, meters, repr)
    {
      var g := Geocode(location, api);
      if !g.Located? || !Truthy(g.result) {
        return None;
      }
      var lat := IndexPath(g.result, LatPath);
      var lng := IndexPath(g.result, LngPath);
      if !lat.Found? || !lng.Found? {
        return None;
      }
      var reply := api.nearby(NearbyRequestFor(apiKey, lat.value, lng.value, radius, repr));
      if !reply.Body? || !reply.data.JObj?
        || GetOr(reply.data.fields, "status", JNull) != JStr("OK") {
        return None;
      }
      var places := Elements(GetOr(reply.data.fields, "results", JArr([])));
      if places.None? {
        return None;
      }
      var stops := CollectPlaces(places.value, lat.value, lng.value, meters, repr);
      if stops.None? || stops.value == [] {
        return None;
      }
      return Some(SortByDistance(stops.value));
    }

    /** The `for place in data.get("results", [])` loop. */
    static method CollectPlaces(ps: seq<Json>, lat0: Json, lng0: Json, meters: Meters,
                                repr: Json -> string)
      returns (r: Option<seq<Stop>>)
      ensures r == CollectStops(ps, lat0, lng0, meters, repr)
    {
      var stops: seq<Stop> := [];
      for i := 0 to |ps|
        invariant CollectStops(ps[..i], lat0, lng0, meters, repr) == Some(stops)
      {
        var outcome := PlaceOutcomeOf(ps[i], lat0, lng0, meters, repr);
        CollectOneMore(ps, i, lat0, lng0, meters, repr);
        GatherOne(outcome, stops);
        if outcome.Abort? {
          AbortEndsSearch(ps, i, lat0, lng0, meters, repr);
          return None;
        } else if outcome.Keep? {
          stops := stops + [outcome.stop];
        }
      }
      assert ps[..|ps|] == ps;
      return Some(stops);
    }
  }
}
