/**
 * The in-memory client store of the telemetry relay (app.py): the two
 * process-wide tables `clients` and `routes`, and what each request handler
 * does to them, as pure functions from the old tables to the new ones, the
 * HTTP response and the Socket.IO event that would be emitted.
 */
module Model {
  import opened Wrappers

  /** A client identifier: the `client_id` string a device sends. */
  type ClientId = string

  /** The ISO-8601 text of `datetime.utcnow()`, supplied by the caller. */
  type Timestamp = string

  /** A captured frame, as the base64 text the device streams. */
  type Image = string

  /** A coordinate as Python's `float` would hold it; rounding is not modelled. */
  type Coord = real

  /**
   * What the JSON body holds for `latitude` or `longitude`: the key is absent,
   * its value is something `float()` accepts, or something on which it raises
   * `TypeError` or `ValueError` (a JSON null, a non-numeric string, a list, ...).
   */
  datatype CoordField = Absent | Numeric(value: Coord) | Unparsable

  /** The JSON body of a POST to /report; a JSON `null` or other falsy body reads as all-absent. */
  datatype ReportBody = ReportBody(clientId: Option<string>, latitude: CoordField, longitude: CoordField)

  /**
   * One entry of `clients`: a dict that a report fills with latitude,
   * longitude and last_seen, and a stream frame with last_image. A key the
   * dict does not hold is `None`.
   */
  datatype Record = Record(
    latitude: Option<Coord>,
    longitude: Option<Coord>,
    lastSeen: Option<Timestamp>,
    lastImage: Option<Image>)

  /** The empty dict `{}` that `setdefault` inserts for an unseen client. */
  const EMPTY_RECORD := Record(None, None, None, None)

  /** One element of a route: `{"lat", "lon", "time"}`. */
  datatype Point = Point(lat: Coord, lon: Coord, time: Timestamp)

  /** The two tables. */
  datatype Store = Store(clients: map<ClientId, Record>, routes: map<ClientId, seq<Point>>)

  /** The tables at process start. */
  const EMPTY_STORE := Store(map[], map[])

  datatype ReportError = InvalidCoordinates | ClientIdRequired

  /** The HTTP answer of /report: `{"status": "ok"}` or a 400 with an error text. */
  datatype Response = Ok | BadRequest(error: ReportError)

  /** `socketio.emit` reaches every connected socket; `emit` inside a handler only the caller. */
  datatype Audience = Everyone | Requester

  datatype Event =
    | LocationUpdate(clientId: ClientId, latitude: Coord, longitude: Coord, lastSeen: Timestamp)
    | StreamFrameEvent(clientId: ClientId, image: Image)
    | ClientsSnapshot(clients: map<ClientId, Record>)

  datatype Emission = Emission(audience: Audience, event: Event)

  datatype ReportOutcome = ReportOutcome(response: Response, store: Store, emission: Option<Emission>)

  datatype FrameOutcome = FrameOutcome(store: Store, emission: Option<Emission>)

  function StatusCode(r: Response): int
  {
    if r.Ok? then 200 else 400
  }

  function ErrorText(e: ReportError): string
  {
    match e
    case InvalidCoordinates => "latitude/longitude invalid"
    case ClientIdRequired => "client_id required"
  }

  /** Python truthiness of an optional string: absent, null and "" are false. */
  predicate Truthy(s: Option<string>)
  {
    s.Some? && s.value != ""
  }

  /** `float(data.get(key, 0))`: an absent key defaults to 0. */
  function ParseCoord(f: CoordField): Option<Coord>
  {
    match f
    case Absent => Some(0.0)
    case Numeric(v) => Some(v)
    case Unparsable => None
  }

  /** The route stored for `id`, or the empty list `setdefault` would insert. */
  function RouteOf(s: Store, id: ClientId): seq<Point>
  {
    if id in s.routes then s.routes[id] else []
  }

  /** The record stored for `id`, or the empty dict `setdefault` would insert. */
  function RecordOf(s: Store, id: ClientId): Record
  {
    if id in s.clients then s.clients[id] else EMPTY_RECORD
  }

  /** A report body that /report accepts. */
  predicate Accepts(b: ReportBody)
  {
    !b.latitude.Unparsable? && !b.longitude.Unparsable? && Truthy(b.clientId)
  }

  /** The route point an accepted report appends. */
  function PointOf(b: ReportBody, ts: Timestamp): Point
    requires Accepts(b)
  {
    Point(ParseCoord(b.latitude).value, ParseCoord(b.longitude).value, ts)
  }

  /** The record an accepted report stores: location and time, nothing else. */
  function LocatedRecord(p: Point): Record
  {
    Record(Some(p.lat), Some(p.lon), Some(p.time), None)
  }

  /** The `location_update` payload is the stored record plus `client_id`. */
  predicate AnnouncesRecord(ev: Event, id: ClientId, r: Record)
  {
    && ev.LocationUpdate?
    && ev.clientId == id
    && r == Record(Some(ev.latitude), Some(ev.longitude), Some(ev.lastSeen), None)
  }

  /**
   * POST /report. Coordinates are parsed first (absent ones default to 0),
   * then a client id is required; on success the client's record is replaced
   * wholesale, one point is appended to its route and `location_update` is
   * broadcast. A rejected request changes nothing and emits nothing.
   */
  function Report(s: Store, b: ReportBody, ts: Timestamp): (o: ReportOutcome)
    // the coordinate check comes first, so it wins when both checks fail
    ensures (o.response == BadRequest(InvalidCoordinates)) <==> (b.latitude.Unparsable? || b.longitude.Unparsable?)
    ensures (o.response == BadRequest(ClientIdRequired)) <==>
            (!b.latitude.Unparsable? && !b.longitude.Unparsable? && !Truthy(b.clientId))
    ensures o.response.Ok? <==> Accepts(b)
    // the HTTP answer: 200 for an accepted report, otherwise 400 with the text of the failed check
    ensures StatusCode(o.response) == (if Accepts(b) then 200 else 400)
    ensures !o.response.Ok? ==>
              ErrorText(o.response.error)
                == (if b.latitude.Unparsable? || b.longitude.Unparsable? then "latitude/longitude invalid"
                    else "client_id required")
    ensures !o.response.Ok? ==> o.store == s && o.emission == None
    ensures o.response.Ok? ==>
      var id := b.clientId.value;
      && id in o.store.clients && id in o.store.routes
      // the previous record, including any last_image, is gone
      && o.store.clients[id] == Record(Some(PointOf(b, ts).lat), Some(PointOf(b, ts).lon), Some(ts), None)
      && (b.latitude.Absent? ==> o.store.clients[id].latitude == Some(0.0))
      && (b.longitude.Absent? ==> o.store.clients[id].longitude == Some(0.0))
      // exactly one point is appended, earlier points are kept in order
      && |o.store.routes[id]| == |RouteOf(s, id)| + 1
      && o.store.routes[id][..|RouteOf(s, id)|] == RouteOf(s, id)
      && o.store.routes[id][|RouteOf(s, id)|] == Point(o.store.clients[id].latitude.value, o.store.clients[id].longitude.value, ts)
      // no other client's entries change
      && o.store.clients.Keys == s.clients.Keys + {id}
      && o.store.routes.Keys == s.routes.Keys + {id}
      && (forall other :: other in s.clients && other != id ==> o.store.clients[other] == s.clients[other])
      && (forall other :: other in s.routes && other != id ==> o.store.routes[other] == s.routes[other])
      // the broadcast carries exactly what was stored
      && o.emission.Some?
      && o.emission.value.audience == Everyone
      && AnnouncesRecord(o.emission.value.event, id, o.store.clients[id])
    ensures Coherent(s) ==> Coherent(o.store)
  {
    var lat := ParseCoord(b.latitude);
    var lon := ParseCoord(b.longitude);
    if lat.None? || lon.None? then
      ReportOutcome(BadRequest(InvalidCoordinates), s, None)
    else if !Truthy(b.clientId) then
      ReportOutcome(BadRequest(ClientIdRequired), s, None)
    else
      var id := b.clientId.value;
      var p := Point(lat.value, lon.value, ts);
      var clients' := s.clients[id := Record(Some(p.lat), Some(p.lon), Some(ts), None)];
      var routes' := s.routes[id := RouteOf(s, id) + [p]];
      ReportOutcome(Ok, Store(clients', routes'),
                    Some(Emission(Everyone, LocationUpdate(id, p.lat, p.lon, ts))))
  }

  /**
   * The `stream_frame` socket event. Without a client id or an image it does
   * nothing; otherwise it sets `last_image` on the client's record (creating
   * an empty one first if needed) and relays the frame to everyone.
   */
  function StreamFrame(s: Store, clientId: Option<string>, image: Option<string>): (o: FrameOutcome)
    ensures o.store.routes == s.routes
    ensures !Truthy(clientId) || !Truthy(image) ==> o.store == s && o.emission == None
    ensures Truthy(clientId) && Truthy(image) ==>
      var id := clientId.value;
      && id in o.store.clients
      && o.store.clients[id].lastImage == image
      // every other field of an existing record survives; a new record has only the image
      && o.store.clients[id].latitude == (if id in s.clients then s.clients[id].latitude else None)
      && o.store.clients[id].longitude == (if id in s.clients then s.clients[id].longitude else None)
      && o.store.clients[id].lastSeen == (if id in s.clients then s.clients[id].lastSeen else None)
      && o.store.clients.Keys == s.clients.Keys + {id}
      && (forall other :: other in s.clients && other != id ==> o.store.clients[other] == s.clients[other])
      && o.emission == Some(Emission(Everyone, StreamFrameEvent(id, image.value)))
    ensures Coherent(s) ==> Coherent(o.store)
  {
    if !Truthy(clientId) || !Truthy(image) then
      FrameOutcome(s, None)
    else
      var id := clientId.value;
      var r := RecordOf(s, id).(lastImage := image);
      FrameOutcome(Store(s.clients[id := r], s.routes),
                   Some(Emission(Everyone, StreamFrameEvent(id, image.value))))
  }

  /**
   * The `register` socket event: an admin receives the current `clients`
   * table, anyone else nothing. The tables are never changed by it.
   */
  function Register(s: Store, role: Option<string>): (e: Option<Emission>)
    ensures e.Some? <==> role == Some("admin")
    ensures e.Some? ==> e.value == Emission(Requester, ClientsSnapshot(s.clients))
  {
    if role == Some("admin") then Some(Emission(Requester, ClientsSnapshot(s.clients))) else None
  }

  /**
   * How the two tables hang together: every routed client has a record and a
   * non-empty route whose last point is the record's location and time, and
   * a client without a route has only ever streamed frames.
   */
  predicate Coherent(s: Store)
  {
    && s.routes.Keys <= s.clients.Keys
    && (forall id :: id in s.routes ==>
          s.routes[id] != [] && AtPoint(s.clients[id], s.routes[id][|s.routes[id]| - 1]))
    && (forall id :: id in s.clients && id !in s.routes ==>
          s.clients[id].latitude == None && s.clients[id].longitude == None && s.clients[id].lastSeen == None)
  }

  /** The record's location and last_seen are those of the route point `p`. */
  predicate AtPoint(r: Record, p: Point)
  {
    r.latitude == Some(p.lat) && r.longitude == Some(p.lon) && r.lastSeen == Some(p.time)
  }

  /**
   * A frame followed by a report from the same client: the report's fresh
   * dict drops the `last_image` the frame had set.
   */
  lemma ReportDropsStreamedImage(s: Store, id: ClientId, image: Image, b: ReportBody, ts: Timestamp)
    requires id != "" && image != ""
    requires Accepts(b) && b.clientId == Some(id)
    ensures StreamFrame(s, Some(id), Some(image)).store.clients[id].lastImage == Some(image)
    ensures Report(StreamFrame(s, Some(id), Some(image)).store, b, ts).store.clients[id].lastImage == None
  {
  }

  /** A report followed by a frame: the location survives, the image is added. */
  lemma StreamFrameKeepsLocation(s: Store, b: ReportBody, ts: Timestamp, image: Image)
    requires Accepts(b) && image != ""
    ensures var s1 := Report(s, b, ts).store;
            var s2 := StreamFrame(s1, b.clientId, Some(image)).store;
            s2.clients[b.clientId.value] == s1.clients[b.clientId.value].(lastImage := Some(image))
  {
  }
}
