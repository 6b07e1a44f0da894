/** Building a compose route for a location, and reading its template defaults back. */
module ComposeRoute {
  import opened Json
  import opened Text
  import opened UrlEncoded

  /** Coordinates are kept as the text `String(lat)` produces. */
  datatype Location = Location(
    name: string, address: string, lat: string, lng: string, place: Option<string>, placeId: Option<string>)

  datatype Defaults = Defaults(address: string, message: string, placeName: string, subject: string)

  const PATH := "/timecapsule"
  const QUESTION: Byte := 0x3f
  const HASH: Byte := 0x23

  function PlaceOf(location: Location): string {
    if location.place.Some? then location.place.value else location.name
  }

  function Params(location: Location): seq<Pair> {
    [("address", location.address), ("lat", location.lat), ("lng", location.lng), ("place", PlaceOf(location)),
     ("placeId", if location.placeId.Some? then location.placeId.value else "")]
  }

  /** `buildInssaComposeRouteForLocation`. */
  function BuildRoute(location: Location): seq<Byte> {
    Ascii(PATH) + [QUESTION] + Serialize(Params(location))
  }

  /** The query of a route: after the first `?`, up to a fragment. */
  function Query(route: seq<Byte>): seq<Byte> {
    var whole := route[..Find(route, HASH)];
    var i := Find(whole, QUESTION);
    if i < |whole| then whole[i + 1..] else []
  }

  /** `searchParams.get(name) ?? ""`. */
  function Get(pairs: seq<Pair>, name: string): string {
    if pairs == [] then "" else if pairs[0].0 == name then pairs[0].1 else Get(pairs[1..], name)
  }

  /** `getInssaComposeTemplateDefaults`. */
  function ReadDefaults(route: seq<Byte>): Defaults {
    var params := Parse(Query(route));
    var address := Trim(Get(params, "address"));
    var placeName := Trim(Get(params, "place"));
    DefaultsFrom(address, placeName)
  }

  const GREETING := "This place made me think of you: "

  function DefaultsFrom(address: string, placeName: string): Defaults {
    var subject := if placeName != "" then placeName else address;
    var spot :=
      if placeName != "" && address != "" && placeName != address then placeName + " (" + address + ")" else subject;
    Defaults(address, if spot != "" then GREETING + spot else "", placeName, subject)
  }

  lemma {:induction false} EscapeNeverHash(bytes: seq<Byte>)
    ensures HASH !in Escape(bytes)
  {
    if bytes != [] {
      HexIsNotHash(bytes[0]);
      EscapeNeverHash(bytes[1..]);
    }
  }

  lemma HexIsNotHash(b: Byte)
    ensures HASH !in EscapeByte(b)
  {
  }

  lemma {:induction false} SerializeNeverHash(pairs: seq<Pair>)
    ensures HASH !in Serialize(pairs)
  {
    if pairs != [] {
      EscapeNeverHash(Encode(pairs[0].0));
      EscapeNeverHash(Encode(pairs[0].1));
      SerializeNeverHash(pairs[1..]);
    }
  }

  lemma {:induction false} FindMissing(bytes: seq<Byte>, b: Byte)
    requires b !in bytes
    ensures Find(bytes, b) == |bytes|
  {
    if bytes != [] {
      FindMissing(bytes[1..], b);
    }
  }

  lemma PathIsPlain()
    ensures HASH !in Ascii(PATH) && QUESTION !in Ascii(PATH)
  {
    var path := PATH;
    forall i | 0 <= i < |path| ensures path[i] != '#' && path[i] != '?' {
    }
  }

  lemma QueryAfter(path: seq<Byte>, query: seq<Byte>)
    requires HASH !in path && QUESTION !in path && HASH !in query
    ensures Query(path + [QUESTION] + query) == query
  {
    var route := path + [QUESTION] + query;
    FindMissing(route, HASH);
    FindAfter(path, QUESTION, query);
    assert route[..|route|] == route && route[|path| + 1..] == query;
  }

  lemma QueryOfRoute(location: Location)
    ensures Query(BuildRoute(location)) == Serialize(Params(location))
  {
    hide Ascii, Serialize, Query;
    SerializeNeverHash(Params(location));
    PathIsPlain();
    QueryAfter(Ascii(PATH), Serialize(Params(location)));
  }

  /** For every location: the route reads back as its address and place, trimmed, and the subject follows from them. */
  lemma RouteRoundTrip(location: Location)
    ensures var d := ReadDefaults(BuildRoute(location));
            && d.address == Trim(location.address)
            && d.placeName == Trim(PlaceOf(location))
            && d.subject == (if d.placeName != "" then d.placeName else d.address)
            && (d.message == "" <==> Blank(location.address) && Blank(PlaceOf(location)))
            && (d.message != "" ==> d.message == GREETING + d.subject + Bracketed(d))
  {
    hide ReadDefaults, BuildRoute, Trim, Blank, PlaceOf;
    RouteReads(location);
    TrimBlank(location.address);
    TrimBlank(PlaceOf(location));
  }

  /** The address, when it adds something to the subject. */
  function Bracketed(d: Defaults): string {
    if d.placeName in {"", d.address} || d.address == "" then "" else " (" + d.address + ")"
  }

  lemma RouteReads(location: Location)
    ensures ReadDefaults(BuildRoute(location)) == DefaultsFrom(Trim(location.address), Trim(PlaceOf(location)))
  {
    QueryOfRoute(location);
    ParseSerialize(Params(location));
    hide DefaultsFrom, Query, BuildRoute, Parse, Trim;
    GetAddress(location);
    GetPlace(location);
  }

  lemma GetAddress(location: Location)
    ensures Get(Params(location), "address") == location.address
  {
    var p := Params(location);
    assert p[1..][0] == p[1] && p[1..][1..][0] == p[2] && p[1..][1..][1..][0] == p[3];
  }

  lemma GetPlace(location: Location)
    ensures Get(Params(location), "place") == PlaceOf(location)
  {
    var p := Params(location);
    assert p[1..] == [p[1], p[2], p[3], p[4]] && [p[1], p[2], p[3], p[4]][1..] == [p[2], p[3], p[4]];
    assert [p[2], p[3], p[4]][1..] == [p[3], p[4]];
    assert Get([p[3], p[4]], "place") == PlaceOf(location);
    assert Get([p[2], p[3], p[4]], "place") == PlaceOf(location);
    assert Get([p[1], p[2], p[3], p[4]], "place") == PlaceOf(location);
  }

  lemma TrimBlank(s: string)
    ensures Trim(s) == "" <==> Blank(s)
  {
    TrimStartBlank(s);
    TrimEndEmpty(TrimStart(s));
  }

  /** Locations that differ in what the route carries have different routes. */
  lemma RoutesDiffer(x: Location, y: Location)
    requires BuildRoute(x) == BuildRoute(y)
    ensures x.address == y.address && x.lat == y.lat && x.lng == y.lng && PlaceOf(x) == PlaceOf(y)
    ensures PlaceIdOf(x) == PlaceIdOf(y)
  {
    hide BuildRoute, Parse, Query;
    RouteKeepsAll(x);
    RouteKeepsAll(y);
  }

  /** The place id, or none. */
  function PlaceIdOf(location: Location): string {
    match location.placeId
    case None => ""
    case Some(id) => id
  }

  /** Every part of a location is read back from its route under its own name. */
  lemma RouteKeepsAll(location: Location)
    ensures var pairs := Parse(Query(BuildRoute(location)));
            && Get(pairs, "address") == location.address
            && Get(pairs, "lat") == location.lat && Get(pairs, "lng") == location.lng
            && Get(pairs, "place") == PlaceOf(location) && Get(pairs, "placeId") == PlaceIdOf(location)
  {
    hide BuildRoute, Parse, Query;
    QueryOfRoute(location);
    ParseSerialize(Params(location));
    GetFive("address", location.address, "lat", location.lat, "lng", location.lng, "place", PlaceOf(location),
            "placeId", PlaceIdOf(location));
    NamesDiffer();
  }

  lemma NamesDiffer()
    ensures "address" != "lat" && "address" != "lng" && "address" != "place" && "address" != "placeId"
    ensures "lat" != "lng" && "lat" != "place" && "lat" != "placeId" && "lng" != "place" && "lng" != "placeId"
    ensures "place" != "placeId"
  {
    assert "lat"[1] == 'a' && "lng"[1] == 'n';
    assert "address"[0] == 'a' && "lat"[0] == 'l' && "place"[0] == 'p' && "placeId"[0] == 'p' && "lng"[0] == 'l';
    assert |"place"| == 5 && |"placeId"| == 7;
  }

  lemma GetFive(a: string, u: string, b: string, v: string, c: string, w: string, d: string, x: string, e: string,
                y: string)
    ensures var pairs := [(a, u), (b, v), (c, w), (d, x), (e, y)];
            && Get(pairs, a) == u
            && (a != b ==> Get(pairs, b) == v)
            && (c !in {a, b} ==> Get(pairs, c) == w)
            && (d !in {a, b, c} ==> Get(pairs, d) == x)
            && (e !in {a, b, c, d} ==> Get(pairs, e) == y)
  {
    GetNext((e, y), [], e);
    GetNext((d, x), [(e, y)], d);
    GetNext((d, x), [(e, y)], e);
    forall n ensures Get([(c, w), (d, x), (e, y)], n) == if c == n then w else Get([(d, x), (e, y)], n) {
      GetNext((c, w), [(d, x), (e, y)], n);
    }
    forall n
      ensures Get([(b, v), (c, w), (d, x), (e, y)], n) == if b == n then v else Get([(c, w), (d, x), (e, y)], n)
    {
      GetNext((b, v), [(c, w), (d, x), (e, y)], n);
    }
    forall n
      ensures Get([(a, u), (b, v), (c, w), (d, x), (e, y)], n)
           == if a == n then u else Get([(b, v), (c, w), (d, x), (e, y)], n)
    {
      GetNext((a, u), [(b, v), (c, w), (d, x), (e, y)], n);
    }
    hide Get;
  }

  lemma GetNext(pair: Pair, rest: seq<Pair>, name: string)
    ensures Get([pair] + rest, name) == if pair.0 == name then pair.1 else Get(rest, name)
  {
    assert ([pair] + rest)[1..] == rest;
  }
}
