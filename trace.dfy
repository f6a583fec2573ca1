/**
 * The tables live for the whole process and every request sees what the
 * earlier ones left. This module runs a sequence of handler invocations, in
 * the order the server applies them, and states what the tables and the
 * emitted events look like afterwards.
 */
module Trace {
  import opened Wrappers
  import opened Model

  /** One handler invocation. */
  datatype Request =
    | ReportRequest(body: ReportBody, ts: Timestamp)
    | FrameRequest(clientId: Option<string>, image: Option<string>)
    | RegisterRequest(role: Option<string>)

  /** The tables after one request. */
  function Apply(s: Store, r: Request): Store
  {
    match r
    case ReportRequest(b, ts) => Report(s, b, ts).store
    case FrameRequest(id, image) => StreamFrame(s, id, image).store
    case RegisterRequest(_) => s
  }

  /** The events one request emits (at most one). */
  function EmissionsOf(s: Store, r: Request): seq<Emission>
  {
    var e := match r
      case ReportRequest(b, ts) => Report(s, b, ts).emission
      case FrameRequest(id, image) => StreamFrame(s, id, image).emission
      case RegisterRequest(role) => Register(s, role);
    if e.Some? then [e.value] else []
  }

  /** The tables after a sequence of requests, the last one applied last. */
  function Run(s: Store, reqs: seq<Request>): Store
    decreases |reqs|
  {
    if reqs == [] then s else Apply(Run(s, reqs[..|reqs| - 1]), reqs[|reqs| - 1])
  }

  /** Every event the sequence emits, in order. */
  function Emitted(s: Store, reqs: seq<Request>): seq<Emission>
    decreases |reqs|
  {
    if reqs == [] then []
    else Emitted(s, reqs[..|reqs| - 1]) + EmissionsOf(Run(s, reqs[..|reqs| - 1]), reqs[|reqs| - 1])
  }

  /** The request changes the record of `id` (an accepted report or frame for it). */
  predicate Touches(r: Request, id: ClientId)
  {
    match r
    case ReportRequest(b, _) => Accepts(b) && b.clientId.value == id
    case FrameRequest(c, image) => Truthy(c) && Truthy(image) && c.value == id
    case RegisterRequest(_) => false
  }

  /** The points of the accepted reports for `id`, in request order. */
  function PointsFor(id: ClientId, reqs: seq<Request>): seq<Point>
    decreases |reqs|
  {
    if reqs == [] then []
    else
      var r := reqs[|reqs| - 1];
      PointsFor(id, reqs[..|reqs| - 1])
        + (if r.ReportRequest? && Accepts(r.body) && r.body.clientId.value == id then [PointOf(r.body, r.ts)] else [])
  }

  /** The `location_update` events about `id`, read back as route points. */
  function UpdatesFor(id: ClientId, es: seq<Emission>): seq<Point>
    decreases |es|
  {
    if es == [] then []
    else
      var ev := es[|es| - 1].event;
      UpdatesFor(id, es[..|es| - 1])
        + (if ev.LocationUpdate? && ev.clientId == id then [Point(ev.latitude, ev.longitude, ev.lastSeen)] else [])
  }

  lemma {:induction false} RunAppend(s: Store, a: seq<Request>, b: seq<Request>)
    ensures Run(s, a + b) == Run(Run(s, a), b)
    decreases |b|
  {
    if b == [] {
      assert a + b == a;
    } else {
      var b' := b[..|b| - 1];
      assert (a + b)[..|a + b| - 1] == a + b';
      assert (a + b)[|a + b| - 1] == b[|b| - 1];
      RunAppend(s, a, b');
    }
  }

  lemma {:induction false} UpdatesForAppend(id: ClientId, a: seq<Emission>, b: seq<Emission>)
    ensures UpdatesFor(id, a + b) == UpdatesFor(id, a) + UpdatesFor(id, b)
    decreases |b|
  {
    if b == [] {
      assert a + b == a;
    } else {
      var b' := b[..|b| - 1];
      assert (a + b)[..|a + b| - 1] == a + b';
      assert (a + b)[|a + b| - 1] == b[|b| - 1];
      UpdatesForAppend(id, a, b');
    }
  }

  /**
   * Routes are append-only: after any sequence of requests the route of `id`
   * is the old route followed by the points of the accepted reports for `id`,
   * in order, with nothing lost or duplicated.
   */
  lemma {:induction false} RouteAfterRun(s: Store, reqs: seq<Request>, id: ClientId)
    ensures RouteOf(Run(s, reqs), id) == RouteOf(s, id) + PointsFor(id, reqs)
    ensures |RouteOf(Run(s, reqs), id)| == |RouteOf(s, id)| + |PointsFor(id, reqs)|
    decreases |reqs|
  {
    if reqs != [] {
      var init := reqs[..|reqs| - 1];
      RouteAfterRun(s, init, id);
    }
  }

  /**
   * What is broadcast matches what is stored: the `location_update` events
   * about `id` are exactly the points appended to its route, in order.
   */
  lemma {:induction false} UpdatesMatchRoute(s: Store, reqs: seq<Request>, id: ClientId)
    ensures UpdatesFor(id, Emitted(s, reqs)) == PointsFor(id, reqs)
    decreases |reqs|
  {
    if reqs != [] {
      var init := reqs[..|reqs| - 1];
      var last := reqs[|reqs| - 1];
      var es := EmissionsOf(Run(s, init), last);
      UpdatesMatchRoute(s, init, id);
      UpdatesForAppend(id, Emitted(s, init), es);
      if es != [] {
        assert es[..0] == [];
      }
    }
  }

  /** Records and routes are created lazily and never deleted. */
  lemma {:induction false} NothingDeleted(s: Store, reqs: seq<Request>)
    ensures s.clients.Keys <= Run(s, reqs).clients.Keys
    ensures s.routes.Keys <= Run(s, reqs).routes.Keys
    decreases |reqs|
  {
    if reqs != [] {
      NothingDeleted(s, reqs[..|reqs| - 1]);
    }
  }

  /** Every reachable state keeps the two tables coherent. */
  lemma {:induction false} RunKeepsCoherent(s: Store, reqs: seq<Request>)
    requires Coherent(s)
    ensures Coherent(Run(s, reqs))
    decreases |reqs|
  {
    if reqs != [] {
      RunKeepsCoherent(s, reqs[..|reqs| - 1]);
    }
  }

  /** Requests that do not touch `id` leave its record and route as they were. */
  lemma {:induction false} UntouchedUnchanged(s: Store, reqs: seq<Request>, id: ClientId)
    requires forall i :: 0 <= i < |reqs| ==> !Touches(reqs[i], id)
    ensures (id in Run(s, reqs).clients) == (id in s.clients)
    ensures (id in Run(s, reqs).routes) == (id in s.routes)
    ensures RecordOf(Run(s, reqs), id) == RecordOf(s, id)
    ensures RouteOf(Run(s, reqs), id) == RouteOf(s, id)
    decreases |reqs|
  {
    if reqs != [] {
      var init := reqs[..|reqs| - 1];
      assert forall i :: 0 <= i < |init| ==> init[i] == reqs[i];
      UntouchedUnchanged(s, init, id);
      assert !Touches(reqs[|reqs| - 1], id);
    }
  }

  /**
   * Last writer wins: if the last request that touches `id` is an accepted
   * report, the record of `id` is exactly that report's location and time,
   * whatever came before, so an earlier `last_image` is gone.
   */
  lemma LastReportWins(s: Store, before: seq<Request>, b: ReportBody, ts: Timestamp, after: seq<Request>)
    requires Accepts(b)
    requires forall i :: 0 <= i < |after| ==> !Touches(after[i], b.clientId.value)
    ensures var t := Run(s, before + [ReportRequest(b, ts)] + after);
            b.clientId.value in t.clients && t.clients[b.clientId.value] == LocatedRecord(PointOf(b, ts))
  {
    var id := b.clientId.value;
    var mid := before + [ReportRequest(b, ts)];
    RunAppend(s, mid, after);
    assert mid[..|mid| - 1] == before;
    UntouchedUnchanged(Run(s, mid), after, id);
  }
}
