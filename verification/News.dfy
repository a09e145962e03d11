/**
 Live headline requests across sessions. The client hands out request ids from the start again with
 every connection, so a stream that was opened in an earlier session may hold the number of another
 request of this one.
 */
module News {
  import opened Wrappers

  type Name = int

  /** What was sent to IBKR in a session: headline requests, other requests, and cancels. */
  datatype Message =
    | Request(session: nat, id: int, owner: Name)
    | Other(session: nat, id: int)
    | Cancel(session: nat, id: int, owner: Name)

  /** The session number, the socket, the next request id, what was sent, and the headline routes. */
  datatype Net = Net(session: nat, connected: bool, closed: bool, nextId: int, log: seq<Message>,
                     routes: map<int, Name>)

  /** The number held and the session it was sent in, whether errors are listened to, and the last one taken. */
  datatype Stream = Stream(reqId: Option<int>, openedIn: Option<nat>, listening: bool, error: Option<int>)

  const UNOPENED := Stream(None, None, false, None)

  // ----- the operations -----

  /** Sends a headline request, or raises without a connection. */
  function Open(net: Net, name: Name, stream: Stream): (Net, Stream) {
    if !net.connected then (net, stream)
    else
      var id := net.nextId;
      (net.(nextId := id + 1, routes := net.routes[id := name], log := net.log + [Request(net.session, id, name)]),
       Stream(Some(id), Some(net.session), true, None))
  }

  /** Removes a route, only if it still goes to the stream. */
  function Unrouted(routes: map<int, Name>, id: int, name: Name): map<int, Name> {
    if id in routes && routes[id] == name then routes - {id} else routes
  }

  /** Stops a stream: a request of an earlier session died with it and is not cancelled. */
  function Close(net: Net, name: Name, stream: Stream): (Net, Stream) {
    if stream.reqId.None? then (net, stream.(listening := false))
    else
      var id := stream.reqId.value;
      var quiet := net.(routes := Unrouted(net.routes, id, name));
      (if stream.openedIn == Some(net.session) && net.connected
       then quiet.(log := net.log + [Cancel(net.session, id, name)])
       else quiet,
       stream.(reqId := None, listening := false))
  }

  /** The error event: a fatal error for the number a listening stream holds is taken as its own. */
  function OnError(stream: Stream, id: int, code: int, fatal: bool): Stream {
    if stream.listening && stream.reqId == Some(id) && fatal then stream.(error := Some(code)) else stream
  }

  /** The stream a headline of request `id` is handed to. */
  function Routed(net: Net, id: int): Option<Name> {
    if id in net.routes then Some(net.routes[id]) else None
  }

  // ----- the world -----

  datatype World = World(net: Net, streams: map<Name, Stream>)

  datatype Step =
    | NewSession
    | SocketUp(firstId: int)
    | SocketDown
    | OtherRequest
    | Opens(name: Name)
    | Closes(name: Name)
    | Reopens(name: Name)
    | Errors(id: int, code: int, fatal: bool)

  const START := World(Net(0, false, true, 0, [], map[]), map[])

  function StreamOf(w: World, name: Name): Stream {
    if name in w.streams then w.streams[name] else UNOPENED
  }

  predicate Enabled(w: World, step: Step) {
    match step
    case NewSession => !w.net.connected
    case SocketUp(_) => !w.net.connected && !w.net.closed
    case SocketDown => w.net.connected
    case OtherRequest => w.net.connected
    case _ => true
  }

  function OpenIn(w: World, name: Name): World {
    var (net, stream) := Open(w.net, name, StreamOf(w, name));
    World(net, w.streams[name := stream])
  }

  function CloseIn(w: World, name: Name): World {
    var (net, stream) := Close(w.net, name, StreamOf(w, name));
    World(net, w.streams[name := stream])
  }

  /** Reopening closes first; without a connection the new request fails. */
  function Apply(w: World, step: Step): World {
    match step
    case NewSession => w.(net := w.net.(session := w.net.session + 1, closed := false))
    case SocketUp(firstId) => w.(net := w.net.(connected := true, nextId := firstId))
    case SocketDown => w.(net := w.net.(connected := false, closed := true))
    case OtherRequest =>
      w.(net := w.net.(nextId := w.net.nextId + 1, log := w.net.log + [Other(w.net.session, w.net.nextId)]))
    case Opens(name) => OpenIn(w, name)
    case Closes(name) => CloseIn(w, name)
    case Reopens(name) => OpenIn(CloseIn(w, name), name)
    case Errors(id, code, fatal) => w.(streams := map n | n in w.streams :: OnError(w.streams[n], id, code, fatal))
  }

  function After(steps: seq<Step>): World {
    if steps == [] then START else Apply(After(steps[..|steps| - 1]), steps[|steps| - 1])
  }

  ghost predicate IsRun(steps: seq<Step>) {
    forall k | 0 <= k < |steps| :: Enabled(After(steps[..k]), steps[k])
  }

  lemma RunShrinks(steps: seq<Step>)
    requires IsRun(steps) && steps != []
    ensures IsRun(steps[..|steps| - 1]) && Enabled(After(steps[..|steps| - 1]), steps[|steps| - 1])
  {
    var rest := steps[..|steps| - 1];
    forall k | 0 <= k < |rest| ensures Enabled(After(rest[..k]), rest[k]) {
      assert rest[..k] == steps[..k];
    }
  }

  // ----- what every step keeps -----

  /** A headline request of this session that was not cancelled, on a socket that is up. */
  ghost predicate Live(net: Net, id: int, name: Name) {
    && net.connected
    && Request(net.session, id, name) in net.log
    && forall owner :: Cancel(net.session, id, owner) !in net.log
  }

  /** Everything sent in a session has an id handed out in it, and no other. */
  ghost predicate IdsOnce(net: Net) {
    && (forall e | e in net.log :: e.session <= net.session)
    && (forall e | e in net.log && e.session == net.session :: net.connected ==> e.id < net.nextId)
    && (forall e, f | e in net.log && f in net.log && !e.Cancel? && !f.Cancel?
                      && e.session == f.session && e.id == f.id :: e == f)
    && (!net.connected && !net.closed ==> forall e | e in net.log :: e.session < net.session)
  }

  /** The stream's number was sent by it in the session it remembers, and it listens for errors. */
  ghost predicate Sent(log: seq<Message>, n: Name, stream: Stream)
    requires stream.reqId.Some?
  {
    stream.listening && stream.openedIn.Some? && Request(stream.openedIn.value, stream.reqId.value, n) in log
  }

  /** A stream that holds a number knows in which session it sent the request. */
  ghost predicate StreamsKnow(w: World) {
    && (forall n: Name | StreamOf(w, n).reqId.Some? :: Sent(w.net.log, n, StreamOf(w, n)))
    && (forall e | e in w.net.log && e.Request? && e.session == w.net.session ::
          StreamOf(w, e.owner).openedIn == Some(w.net.session))
  }

  /** Every cancel follows a request that its own stream sent in the same session. */
  ghost predicate CancelsOwn(log: seq<Message>) {
    forall k | 0 <= k < |log| && log[k].Cancel? ::
      exists j :: 0 <= j < k && log[j] == Request(log[k].session, log[k].id, log[k].owner)
  }

  ghost predicate LiveRouted(net: Net) {
    forall id, name | Live(net, id, name) :: Routed(net, id) == Some(name)
  }

  ghost predicate Inv(w: World) {
    IdsOnce(w.net) && StreamsKnow(w) && CancelsOwn(w.net.log) && LiveRouted(w.net)
  }

  lemma OpenKeepsInv(w: World, name: Name)
    requires Inv(w)
    ensures Inv(OpenIn(w, name))
  {
    var v := OpenIn(w, name);
    if !w.net.connected {
      assert v.net == w.net && forall n: Name :: StreamOf(v, n) == StreamOf(w, n);
      return;
    }
    var sent := Request(w.net.session, w.net.nextId, name);
    assert v.net.log == w.net.log + [sent];
    forall n: Name | StreamOf(v, n).reqId.Some?
      ensures Sent(v.net.log, n, StreamOf(v, n))
    {
      if n != name { assert StreamOf(w, n) == StreamOf(v, n); }
    }
    forall id, owner | Live(v.net, id, owner) ensures Routed(v.net, id) == Some(owner) {
      if id != w.net.nextId { assert Live(w.net, id, owner); }
    }
    LogGrowsOwn(w.net.log, sent);
  }

  lemma LogGrowsOwn(log: seq<Message>, sent: Message)
    requires CancelsOwn(log)
    requires sent.Cancel? ==> Request(sent.session, sent.id, sent.owner) in log
    ensures CancelsOwn(log + [sent])
  {
    var l := log + [sent];
    forall k | 0 <= k < |l| && l[k].Cancel?
      ensures exists j :: 0 <= j < k && l[j] == Request(l[k].session, l[k].id, l[k].owner)
    {
      if k < |log| {
        var j :| 0 <= j < k && log[j] == Request(log[k].session, log[k].id, log[k].owner);
        assert l[j] == log[j];
      } else {
        var j :| 0 <= j < |log| && log[j] == Request(sent.session, sent.id, sent.owner);
        assert l[j] == log[j];
      }
    }
  }

  lemma CloseKeepsIds(w: World, name: Name)
    requires Inv(w)
    ensures IdsOnce(CloseIn(w, name).net) && CancelsOwn(CloseIn(w, name).net.log)
  {
    var stream := StreamOf(w, name);
    if stream.reqId.Some? && stream.openedIn == Some(w.net.session) && w.net.connected {
      LogGrowsOwn(w.net.log, Cancel(w.net.session, stream.reqId.value, name));
    }
  }

  lemma CloseKeepsStreams(w: World, name: Name)
    requires Inv(w)
    ensures StreamsKnow(CloseIn(w, name))
  {
    var v := CloseIn(w, name);
    forall n: Name | StreamOf(v, n).reqId.Some? ensures Sent(v.net.log, n, StreamOf(v, n)) {
      assert n != name && StreamOf(w, n) == StreamOf(v, n);
    }
    assert StreamOf(v, name).openedIn == StreamOf(w, name).openedIn;
  }

  lemma CloseKeepsInv(w: World, name: Name)
    requires Inv(w)
    ensures Inv(CloseIn(w, name))
  {
    var v := CloseIn(w, name);
    CloseKeepsIds(w, name);
    CloseKeepsStreams(w, name);
    if StreamOf(w, name).reqId.Some? {
      forall other, owner | Live(v.net, other, owner) ensures Routed(v.net, other) == Some(owner) {
        LiveStaysRouted(w, name, other, owner);
      }
    }
  }

  lemma LiveStaysRouted(w: World, name: Name, id: int, owner: Name)
    requires Inv(w) && StreamOf(w, name).reqId.Some? && Live(CloseIn(w, name).net, id, owner)
    ensures Routed(CloseIn(w, name).net, id) == Some(owner)
  {
    var v, stream := CloseIn(w, name), StreamOf(w, name);
    assert Live(w.net, id, owner) by {
      forall other ensures Cancel(w.net.session, id, other) !in w.net.log {
        assert Cancel(w.net.session, id, other) !in v.net.log;
      }
    }
    if owner == name && stream.reqId.value == id { ClosingCancels(w, name); }
  }

  /** Closing a stream ends its live request. */
  lemma ClosingCancels(w: World, name: Name)
    requires Inv(w) && StreamOf(w, name).reqId.Some? && Live(w.net, StreamOf(w, name).reqId.value, name)
    ensures Cancel(w.net.session, StreamOf(w, name).reqId.value, name) in CloseIn(w, name).net.log
  {
    assert StreamOf(w, name).openedIn == Some(w.net.session);
  }

  lemma QuietStepKeepsInv(w: World, step: Step)
    requires Inv(w) && Enabled(w, step)
    requires step.NewSession? || step.SocketUp? || step.SocketDown?
    ensures Inv(Apply(w, step))
  {
    var v := Apply(w, step);
    assert forall n: Name :: StreamOf(v, n) == StreamOf(w, n);
    if step.SocketUp? {
      forall id, owner ensures !Live(v.net, id, owner) {
        assert Request(v.net.session, id, owner) !in v.net.log;
      }
    }
  }

  lemma OtherRequestKeepsInv(w: World)
    requires Inv(w) && w.net.connected
    ensures Inv(Apply(w, OtherRequest))
  {
    var v := Apply(w, OtherRequest);
    assert forall n: Name :: StreamOf(v, n) == StreamOf(w, n);
    LogGrowsOwn(w.net.log, Other(w.net.session, w.net.nextId));
    forall id, owner | Live(v.net, id, owner) ensures Routed(v.net, id) == Some(owner) {
      assert Live(w.net, id, owner) by {
        forall other ensures Cancel(w.net.session, id, other) !in w.net.log {
          assert Cancel(w.net.session, id, other) !in v.net.log;
        }
      }
    }
  }

  lemma ErrorsKeepInv(w: World, id: int, code: int, fatal: bool)
    requires Inv(w)
    ensures Inv(Apply(w, Errors(id, code, fatal)))
  {
    var v := Apply(w, Errors(id, code, fatal));
    assert v.net == w.net && forall n: Name :: StreamOf(v, n).(error := None) == StreamOf(w, n).(error := None);
  }

  lemma StepKeepsInv(w: World, step: Step)
    requires Inv(w) && Enabled(w, step)
    ensures Inv(Apply(w, step))
  {
    match step
    case OtherRequest => OtherRequestKeepsInv(w);
    case Opens(name) => OpenKeepsInv(w, name);
    case Closes(name) => CloseKeepsInv(w, name);
    case Reopens(name) =>
      CloseKeepsInv(w, name);
      OpenKeepsInv(CloseIn(w, name), name);
    case Errors(id, code, fatal) => ErrorsKeepInv(w, id, code, fatal);
    case _ => QuietStepKeepsInv(w, step);
  }

  lemma {:induction false} EveryRunKeepsInv(steps: seq<Step>)
    requires IsRun(steps)
    ensures Inv(After(steps))
  {
    if steps != [] {
      RunShrinks(steps);
      EveryRunKeepsInv(steps[..|steps| - 1]);
      StepKeepsInv(After(steps[..|steps| - 1]), steps[|steps| - 1]);
    }
  }

  /**
   Across any reconnects, opens, closes and reopens, a cancel follows a headline request that the same
   stream sent in the same session, and no other request of that session has its number.
   */
  lemma {:induction false} CancelsOnlyOwnRequests(steps: seq<Step>, k: nat)
    requires IsRun(steps) && k < |After(steps).net.log| && After(steps).net.log[k].Cancel?
    ensures var log := After(steps).net.log; var own := Request(log[k].session, log[k].id, log[k].owner);
      && (exists j :: 0 <= j < k && log[j] == own)
      && (forall e | e in log && !e.Cancel? && e.session == own.session && e.id == own.id :: e == own)
  {
    EveryRunKeepsInv(steps);
  }

  /** A headline of a live request reaches the stream that sent it, whatever stale streams hold its number. */
  lemma {:induction false} HeadlinesReachTheirStream(steps: seq<Step>, id: int, name: Name)
    requires IsRun(steps) && Live(After(steps).net, id, name)
    ensures Routed(After(steps).net, id) == Some(name)
  {
    EveryRunKeepsInv(steps);
  }

  /** A stream listens for errors exactly while it holds a number. */
  lemma {:induction false} ListensExactlyWhile(steps: seq<Step>, name: Name)
    ensures StreamOf(After(steps), name).listening <==> StreamOf(After(steps), name).reqId.Some?
  {
    if steps != [] { ListensExactlyWhile(steps[..|steps| - 1], name); }
  }

  /**
   A fatal error for a number is taken by exactly the streams that hold the number, and any other error by none.
   It is about a stream's own request exactly when the stream sent that request in the current session; a stale
   stream takes the error of another request.
   */
  lemma {:induction false} ErrorsAreOwnExactlyWhen(steps: seq<Step>, id: int, code: int, fatal: bool, name: Name)
    requires IsRun(steps)
    ensures IsRun(steps + [Errors(id, code, fatal)])
    ensures var stream, later := StreamOf(After(steps), name), StreamOf(After(steps + [Errors(id, code, fatal)]), name);
      later == if fatal && stream.reqId == Some(id) then stream.(error := Some(code)) else stream
    ensures var net, stream := After(steps).net, StreamOf(After(steps), name);
      stream.reqId == Some(id) ==> (Request(net.session, id, name) in net.log <==> stream.openedIn == Some(net.session))
  {
    EveryRunKeepsInv(steps);
    RunGrows(steps, Errors(id, code, fatal));
    ListensExactlyWhile(steps, name);
  }

  /** The requests sent in a session. */
  ghost function RequestsIn(log: seq<Message>, session: nat): nat {
    if log == [] then 0
    else
      var e := log[|log| - 1];
      RequestsIn(log[..|log| - 1], session) + if e.session == session && !e.Cancel? then 1 else 0
  }

  lemma {:induction false} OneMoreRequest(log: seq<Message>, e: Message, session: nat)
    ensures RequestsIn(log + [e], session)
         == RequestsIn(log, session) + if e.session == session && !e.Cancel? then 1 else 0
  {
    assert (log + [e])[..|log|] == log;
  }

  lemma {:induction false} NoRequestsYet(log: seq<Message>, session: nat)
    requires forall e | e in log :: e.session < session
    ensures RequestsIn(log, session) == 0
  {
    if log != [] {
      NoRequestsYet(log[..|log| - 1], session);
      assert log[|log| - 1] in log;
    }
  }

  /** The request ids of a session follow on from the first, one by one. */
  ghost predicate NumberedFrom(net: Net, firstId: int) {
    net.nextId == firstId + RequestsIn(net.log, net.session)
  }

  lemma CloseNumbers(w: World, name: Name, firstId: int)
    requires NumberedFrom(w.net, firstId)
    ensures NumberedFrom(CloseIn(w, name).net, firstId)
  {
    var stream := StreamOf(w, name);
    if stream.reqId.Some? { OneMoreRequest(w.net.log, Cancel(w.net.session, stream.reqId.value, name), w.net.session); }
  }

  lemma OpenNumbers(w: World, name: Name, firstId: int)
    requires NumberedFrom(w.net, firstId)
    ensures NumberedFrom(OpenIn(w, name).net, firstId)
  {
    OneMoreRequest(w.net.log, Request(w.net.session, w.net.nextId, name), w.net.session);
  }

  lemma StepNumbers(w: World, step: Step, firstId: int)
    requires NumberedFrom(w.net, firstId) && w.net.connected && Enabled(w, step)
    requires !step.SocketDown?
    ensures NumberedFrom(Apply(w, step).net, firstId) && Apply(w, step).net.connected
  {
    match step
    case OtherRequest => OneMoreRequest(w.net.log, Other(w.net.session, w.net.nextId), w.net.session);
    case Opens(name) => OpenNumbers(w, name, firstId);
    case Closes(name) => CloseNumbers(w, name, firstId);
    case Reopens(name) =>
      CloseNumbers(w, name, firstId);
      OpenNumbers(CloseIn(w, name), name, firstId);
    case _ =>
  }

  /** While a socket stays up the ids go on from the one IBKR gave, whatever else is sent, opened or closed. */
  lemma {:induction false} NumbersAreConsecutive(steps: seq<Step>, k: nat)
    requires IsRun(steps) && k < |steps| && steps[k].SocketUp?
    requires forall j | k < j < |steps| :: !steps[j].SocketDown?
    ensures After(steps).net.connected && NumberedFrom(After(steps).net, steps[k].firstId)
  {
    var last, rest := steps[|steps| - 1], steps[..|steps| - 1];
    RunShrinks(steps);
    if k < |rest| {
      NumbersAreConsecutive(rest, k);
      StepNumbers(After(rest), last, steps[k].firstId);
    } else {
      EveryRunKeepsInv(rest);
      NoRequestsYet(After(rest).net.log, After(rest).net.session);
    }
  }

  lemma {:induction false} RunGrows(steps: seq<Step>, step: Step)
    requires IsRun(steps) && Enabled(After(steps), step)
    ensures IsRun(steps + [step]) && After(steps + [step]) == Apply(After(steps), step)
  {
    var more := steps + [step];
    assert more[..|steps|] == steps;
    forall k | 0 <= k < |more| ensures Enabled(After(more[..k]), more[k]) {
      if k < |steps| { assert more[..k] == steps[..k]; }
    }
  }

  /** A new session whose ids start at 7. */
  lemma NewSessionAtSeven(before: seq<Step>) returns (up: seq<Step>)
    requires IsRun(before) && !After(before).net.connected
    ensures IsRun(up) && After(up).streams == After(before).streams
    ensures var net := After(before).net;
      After(up).net == net.(session := net.session + 1, closed := false, connected := true, nextId := 7)
  {
    RunGrows(before, NewSession);
    var begun := before + [NewSession];
    RunGrows(begun, SocketUp(7));
    up := begun + [SocketUp(7)];
  }

  /** A stream that opens first in such a session holds the number 7 for a live request. */
  lemma OpensSeven(before: seq<Step>, name: Name) returns (after: seq<Step>)
    requires IsRun(before) && !After(before).net.connected
    ensures IsRun(after) && Live(After(after).net, 7, name)
    ensures After(after).net.session == After(before).net.session + 1
    ensures StreamOf(After(after), name) == Stream(Some(7), Some(After(after).net.session), true, None)
    ensures forall other: Name | other != name :: StreamOf(After(after), other) == StreamOf(After(before), other)
  {
    var up := NewSessionAtSeven(before);
    EveryRunKeepsInv(before);
    RunGrows(up, Opens(name));
    after := up + [Opens(name)];
    assert forall owner :: Cancel(After(up).net.session, 7, owner) !in After(before).net.log;
  }

  /** Stream 0 is stale and took the error of the live request that stream 1 sent under the same number. */
  ghost predicate TookForeignError(w: World, code: int) {
    && Live(w.net, 7, 1) && StreamOf(w, 1).openedIn == Some(w.net.session)
    && StreamOf(w, 0).reqId == Some(7) && StreamOf(w, 0).openedIn != Some(w.net.session)
    && StreamOf(w, 0).error == Some(code)
  }

  /** Numbers are shared across sessions, and a stale stream does take the error of a live one's request. */
  lemma NumbersAreSharedAcrossSessions(code: int)
    ensures exists steps :: IsRun(steps) && TookForeignError(After(steps), code)
  {
    var first := OpensSeven([], 0);
    RunGrows(first, SocketDown);
    var down := first + [SocketDown];
    assert StreamOf(After(down), 0) == StreamOf(After(first), 0);
    var both := OpensSeven(down, 1);
    ErrorsAreOwnExactlyWhen(both, 7, code, true, 0);
    ErrorsAreOwnExactlyWhen(both, 7, code, true, 1);
    RunGrows(both, Errors(7, code, true));
    assert TookForeignError(After(both + [Errors(7, code, true)]), code);
  }

  // ----- the objects -----

  /** The API client of the current session. */
  class Client {
    var session: nat
    var connected: bool
    var closed: bool
    var nextId: int
    var log: seq<Message>

    constructor ()
      ensures session == 0 && !connected && closed && nextId == 0 && log == []
    {
      session, connected, closed, nextId, log := 0, false, true, 0, [];
    }

    method GetReqId() returns (id: int)
      requires connected
      modifies this`nextId
      ensures id == old(nextId) && nextId == id + 1
    {
      id := nextId;
      nextId := nextId + 1;
    }

    method Send(message: Message)
      requires connected
      modifies this`log
      ensures log == old(log) + [message]
    {
      log := log + [message];
    }
  }

  /** Routes headlines to streams by request id. */
  class TickNewsRouter {
    var routes: map<int, Name>

    constructor ()
      ensures routes == map[]
    {
      routes := map[];
    }

    method Add(id: int, name: Name)
      modifies this
      ensures routes == old(routes)[id := name]
    {
      routes := routes[id := name];
    }

    /** Only if it still goes to `name`, when given. */
    method Remove(id: int, name: Option<Name>)
      modifies this
      ensures name.Some? ==> routes == Unrouted(old(routes), id, name.value)
      ensures name.None? ==> routes == old(routes) - {id}
    {
      if name.None? || (id in routes && routes[id] == name.value) {
        routes := routes - {id};
      }
    }
  }

  ghost function NetOf(client: Client, router: TickNewsRouter): Net
    reads client, router
  {
    Net(client.session, client.connected, client.closed, client.nextId, client.log, router.routes)
  }

  /** One live headline request at IBKR. */
  class HeadlineStream {
    const name: Name
    const client: Client
    const router: TickNewsRouter
    var reqId: Option<int>
    var openedIn: Option<nat>
    var listening: bool
    var error: Option<int>

    ghost function View(): Stream
      reads this
    {
      Stream(reqId, openedIn, listening, error)
    }

    constructor (name: Name, client: Client, router: TickNewsRouter)
      ensures this.name == name && this.client == client && this.router == router && View() == UNOPENED
    {
      this.name, this.client, this.router := name, client, router;
      reqId, openedIn, listening, error := None, None, false, None;
    }

    /** Sends the request; without a connection the client refuses a number and nothing changes. */
    method OpenStream() returns (sent: bool)
      modifies this, client, router
      ensures sent == old(client.connected)
      ensures (NetOf(client, router), View()) == Open(old(NetOf(client, router)), name, old(View()))
    {
      if !client.connected {
        return false;
      }
      var id := client.GetReqId();
      reqId := Some(id);
      openedIn := Some(client.session);
      error := None;
      router.Add(id, name);
      listening := true;
      client.Send(Request(client.session, id, name));
      return true;
    }

    method CloseStream()
      modifies this, client, router
      ensures (NetOf(client, router), View()) == Close(old(NetOf(client, router)), name, old(View()))
      ensures client.connected == old(client.connected)
    {
      listening := false;
      var held := reqId;
      reqId := None;
      if held.None? {
        return;
      }
      router.Remove(held.value, Some(name));
      if openedIn != Some(client.session) {
        return;
      }
      if client.connected {
        client.Send(Cancel(client.session, held.value, name));
      }
    }

    /** Re-requests the stream; without a connection only the closing happens. */
    method ReopenStream() returns (sent: bool)
      modifies this, client, router
      ensures sent == old(client.connected)
      ensures var closed := Close(old(NetOf(client, router)), name, old(View()));
        (NetOf(client, router), View()) == Open(closed.0, name, closed.1)
    {
      CloseStream();
      sent := OpenStream();
    }

    /** The error event, while the stream listens. */
    method TakeError(id: int, code: int, fatal: bool)
      requires listening
      modifies this`error
      ensures View() == OnError(old(View()), id, code, fatal)
    {
      if reqId != Some(id) || !fatal {
        return;
      }
      error := Some(code);
    }
  }
}
