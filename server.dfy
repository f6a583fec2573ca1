/**
 * The server process of app.py: the `clients` and `routes` dicts are fields
 * that the handlers update in place, and each handler returns what Flask
 * would answer and what Socket.IO would emit. The handlers are specified by the
 * corresponding functions of `Model`; the two queries return the current field.
 */
module App {
  import opened Wrappers
  import opened Model

  class Server {
    var clients: map<ClientId, Record>
    var routes: map<ClientId, seq<Point>>

    function State(): Store
      reads this
    {
      Store(clients, routes)
    }

    ghost predicate Valid()
      reads this
    {
      Coherent(State())
    }

    /** Both tables start empty. */
    constructor ()
      ensures Valid()
      ensures clients == map[] && routes == map[]
    {
      clients := map[];
      routes := map[];
    }

    /** POST /report; `ts` stands for `datetime.utcnow().isoformat()`. */
    method Report(b: ReportBody, ts: Timestamp) returns (response: Response, emission: Option<Emission>)
      requires Valid()
      modifies this
      ensures Valid()
      ensures var o := Model.Report(old(State()), b, ts);
              State() == o.store && response == o.response && emission == o.emission
      ensures response.Ok? ==> |routes[b.clientId.value]| == |old(RouteOf(State(), b.clientId.value))| + 1
      ensures !response.Ok? ==> clients == old(clients) && routes == old(routes)
    {
      var lat := ParseCoord(b.latitude);
      if lat.None? {
        return BadRequest(InvalidCoordinates), None;
      }
      var lon := ParseCoord(b.longitude);
      if lon.None? {
        return BadRequest(InvalidCoordinates), None;
      }
      if !Truthy(b.clientId) {
        return BadRequest(ClientIdRequired), None;
      }
      var id := b.clientId.value;
      clients := clients[id := Record(Some(lat.value), Some(lon.value), Some(ts), None)];
      var route := if id in routes then routes[id] else [];
      routes := routes[id := route + [Point(lat.value, lon.value, ts)]];
      response := Ok;
      emission := Some(Emission(Everyone, LocationUpdate(id, lat.value, lon.value, ts)));
    }

    /** The `stream_frame` socket event. */
    method OnStreamFrame(clientId: Option<string>, image: Option<string>) returns (emission: Option<Emission>)
      requires Valid()
      modifies this`clients
      ensures Valid()
      ensures var o := Model.StreamFrame(old(State()), clientId, image);
              State() == o.store && emission == o.emission
    {
      if !Truthy(clientId) || !Truthy(image) {
        return None;
      }
      var id := clientId.value;
      var r := if id in clients then clients[id] else EMPTY_RECORD;
      clients := clients[id := r.(lastImage := image)];
      emission := Some(Emission(Everyone, StreamFrameEvent(id, image.value)));
    }

    /** The `register` socket event; it reads the tables and changes nothing. */
    method OnRegister(role: Option<string>) returns (emission: Option<Emission>)
      ensures emission == Model.Register(State(), role)
      ensures emission.Some? <==> role == Some("admin")
      ensures emission.Some? ==> emission.value == Emission(Requester, ClientsSnapshot(clients))
    {
      if role == Some("admin") {
        emission := Some(Emission(Requester, ClientsSnapshot(clients)));
      } else {
        emission := None;
      }
    }

    /** GET /clients: the whole `clients` table as it is now. */
    method GetClients() returns (snapshot: map<ClientId, Record>)
      ensures snapshot == clients
    {
      snapshot := clients;
    }

    /** GET /routes: the whole `routes` table as it is now. */
    method GetRoutes() returns (snapshot: map<ClientId, seq<Point>>)
      ensures snapshot == routes
    {
      snapshot := routes;
    }
  }
}
