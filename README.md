# Client store of the telemetry relay

The relay (app.py) lets devices report their position over HTTP and stream
camera frames over Socket.IO, while admin consoles watch. All of its state is
two process-wide dicts: `clients`, holding the latest info per client id, and
`routes`, holding the list of `{lat, lon, time}` points per client id. This
project models those tables and the handlers that read and write them:

- `report` (POST /report) parses latitude and longitude, with an absent one
  defaulting to 0. It then requires a client id. On success it replaces the
  client's record with `{latitude, longitude, last_seen}`, appends one point to
  the client's route and broadcasts `location_update`.
- `stream_frame` ignores a frame without a client id or an image. Otherwise it
  sets `last_image` on the client's record, creating the record if needed, and
  broadcasts the frame.
- `register` sends the `clients` table to the caller when the role is
  `admin`, and does nothing otherwise.
- GET /clients and GET /routes return the tables.

Files:

- `wrappers.dfy`: `Option`.
- `model.dfy` (module `Model`): the value types, the tables as a `Store`
  value, each handler as a pure function from the old tables to the new
  tables, the response and the emitted event, and the invariant `Coherent`
  that ties the two tables together.
- `trace.dfy` (module `Trace`): runs a sequence of handler calls and proves
  what holds after any such sequence. Routes are append-only. Broadcast
  events match stored points. Records are never deleted. The last report
  wins.
- `server.dfy` (module `App`): class `Server` whose map fields `clients` and
  `routes` are updated in place by its methods. `Report`, `OnStreamFrame`
  and `OnRegister` are specified by the matching `Model` function.
  `GetClients` and `GetRoutes` return the current field.

Inputs are abstracted as follows:

- A coordinate field is `Absent`, `Numeric(v)` (anything Python's `float()`
  accepts) or `Unparsable`. `Unparsable` is a value on which `float()` raises
  `TypeError` or `ValueError`, such as a JSON null or a non-numeric string.
- `client_id`, `image` and `role` are `Option<string>`. Python truthiness is
  `Truthy`: `None` and `""` are false.
- The timestamp from `datetime.utcnow()` is a parameter.
- Each emit is a returned `Emission`. Its audience is `Everyone` for
  `socketio.emit` and `Requester` for `emit` inside a handler.

About the code itself:

- `float()` at app.py:26-27 also accepts `"nan"` and `"inf"`. The model's
  `real` coordinates cannot hold those values.
- The code has no rooms, no per-connection registry and no targeted
  notification. Every broadcast goes to every socket.
- The code has no consent or capture endpoint.

## Model

| member | source | states |
|---|---|---|
| `Model.Report` | app.py:21-52 | An unparsable latitude or longitude gives the coordinate error even when the client id is also missing. Otherwise a falsy client id gives the client-id error. A rejected report changes neither table and emits nothing. An absent coordinate is stored as 0. On success the record is exactly `{latitude, longitude, last_seen}`, so any earlier `last_image` is gone. The route grows by exactly one point, with earlier points kept in order. No other client's entries change. The broadcast `location_update` is the stored record plus `client_id`. For every coordinate `CoordField` can represent, the HTTP status is 200 exactly for an accepted report and 400 otherwise. The overflow case is under Left out. The error text is "latitude/longitude invalid" or "client_id required", matching the failed check. Coherence of the tables is preserved. |
| `Model.StreamFrame` | app.py:71-81 | A missing or empty id or image leaves everything unchanged and emits nothing. Otherwise `last_image` is set and the record's other fields are kept, or a new record holds only the image. No other client changes. Routes are never touched. The frame is broadcast to everyone. Coherence is preserved. |
| `Model.Register` | app.py:62-69 | An emission happens exactly when the role is `admin`. It goes to the requester only and carries the current `clients` table unchanged. |
| `Model.ReportDropsStreamedImage` | app.py:36-40 | After a frame, a successful report from the same client leaves the record without `last_image`, because line 36 assigns a fresh dict. |
| `Model.StreamFrameKeepsLocation` | app.py:79 | A frame after a report keeps the reported location and time and adds the image. |
| `Trace.RouteAfterRun` | app.py:42 | After any sequence of requests, the route of a client is its old route followed by the points of its accepted reports, in order. Its length grows by exactly the number of those reports. |
| `Trace.UpdatesMatchRoute` | app.py:42-50 | The `location_update` events about a client, in emission order, are exactly the points appended to its route. |
| `Trace.NothingDeleted` | app.py:10-11 | No request removes a key from either table. |
| `Trace.RunKeepsCoherent` | app.py:36-79 | Any sequence of requests keeps the tables coherent. Every routed client has a record whose location and time equal its route's last point. A client without a route has no location. |
| `Trace.UntouchedUnchanged` | app.py:21-81 | Requests that are not accepted reports or frames for a client leave that client's record and route as they were. They also keep whether the client is a key of `clients` and of `routes`. |
| `Trace.LastReportWins` | app.py:36-40 | If an accepted report is the last request to touch a client, its record is exactly that report's location and time, whatever came before. |
| `App.Server.constructor` | app.py:10-11 | Both tables start empty and coherent. |
| `App.Server.Report` | app.py:21-52 | Updates the fields in place to exactly `Model.Report` of the old tables, and returns that response and emission. On error both tables are unchanged. On success the route grows by one. |
| `App.Server.OnStreamFrame` | app.py:71-81 | Updates `clients` in place to exactly `Model.StreamFrame` of the old tables, and returns its emission. `routes` is outside its frame. |
| `App.Server.OnRegister` | app.py:62-69 | Changes nothing. Returns the `clients` snapshot to the requester exactly when the role is `admin`. |
| `App.Server.GetClients` | app.py:54-56 | Returns the current `clients` table. |
| `App.Server.GetRoutes` | app.py:58-60 | Returns the current `routes` table. |

## Left out

- `admin_send_notification` (app.py:83-86) forwards its payload verbatim to every socket. It has no logic beyond the broadcast, so it is not modelled.
- Flask routing, the HTML pages (`index`, `admin`) and JSON encoding: requests are method arguments and responses are return values.
- `request.get_json() or {}` (app.py:23): a JSON `null` or any other falsy JSON body (`[]`, `0`, `""`, `false`) becomes `{}`. It is therefore the body with every field absent. A missing or non-JSON body is handled by `get_json()` itself, and how depends on the Flask version. That case is not modelled. A truthy JSON body that is not an object raises in `data.get` (a 500). That case is not modelled either.
- `Model.Report`: the case where `float()` at app.py:26-27 raises `OverflowError` is not modelled. That happens for a JSON integer too large for a float. app.py:28 does not catch it, so the request fails with a 500 and nothing is stored or emitted. `CoordField` has no case for such a value, so the model's 400-or-200 status does not cover it.
- Floating point: coordinates are reals, and `float()` parsing is abstracted into `CoordField`. Rounding, NaN and infinities are not modelled.
- Client ids, images and roles that are JSON values other than strings (numbers, booleans, lists) are not modelled.
- The `print` logging in `register`, and its `client_id` argument, which only that print uses.
- Socket.IO delivery, connection lifecycle and concurrency of the server: requests are applied one at a time in arrival order.
- The clock (`datetime.utcnow()`) is a parameter. Process startup and the `PORT` variable are not modelled.
