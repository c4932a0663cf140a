/** The two-party barrier server: any number of handler threads, one lock, connections
    parked until the other client arrives.

    Everything a handler does under the lock is one step; so is each operation on a
    socket.  The outcome of a socket operation is chosen by the environment. */
module BarrierModel {
  import opened Options

  type Conn = nat

  /** What the lock protects. */
  datatype Core = Core(
    arrivals: map<string, map<int, Conn>>, completed: seq<string>, errors: nat, active: set<Conn>)

  datatype Verdict = Rejected | Waits | Opens(first: Conn, second: Conn)

  /** The critical section of an arrival. */
  function Arrive(expected: set<string>, core: Core, name: string, client: int, conn: Conn): (Core, Verdict) {
    var present := if name in core.arrivals then core.arrivals[name] else map[];
    if name !in expected || name in core.completed || client in present then (core, Rejected)
    else
      var now := present[client := conn];
      if now.Keys == {0, 1} then
        (core.(arrivals := core.arrivals - {name}, completed := core.completed + [name]), Opens(now[0], now[1]))
      else
        (core.(arrivals := core.arrivals[name := now]), Waits)
  }

  /** A request as the handler receives it: unreadable (socket error, too large, not
      ASCII), or split into fields. */
  datatype Request = Unreadable | Fields(fields: seq<string>)

  /** The request names a barrier and one of the two clients. */
  predicate WellFormed(request: Request) {
    request.Fields? && |request.fields| == 2 && request.fields[1] in {"0", "1"}
  }

  function ClientOf(request: Request): int
    requires WellFormed(request)
  {
    if request.fields[1] == "0" then 0 else 1
  }

  /** Where a handler is.  `Failing` has raised and not yet recorded the error;
      `Releasing` holds the two connections that the critical section handed out, and sends
      to the one at `index` or, when `closing`, closes it. */
  datatype Phase =
    | Receiving
    | Arriving(name: string, client: int)
    | Failing
    | Releasing(name: string, first: Conn, second: Conn, index: nat, closing: bool, failed: bool)
    | Ending
    | Closing
    | Finished

  /** `spot` is set when the handler's connection was retained, to the barrier and the
      client it arrived as. */
  datatype Handler = Handler(phase: Phase, spot: Option<(string, int)>)

  /** `go`, `arrived`, `opener` and `skipped` are history: the GO lines delivered, the
      connection that arrived at each barrier as each client, the connection whose
      arrival completed a barrier, and the second peers that were never served because
      closing the first peer raised. */
  datatype State = State(
    core: Core, handlers: map<Conn, Handler>, closed: set<Conn>, go: multiset<Conn>,
    arrived: map<(string, int), Conn>, opener: map<string, Conn>, skipped: set<Conn>)

  datatype Event =
    | Accept(conn: Conn)
    | AcceptFails
    | Receive(conn: Conn, request: Request)
    | Enter(conn: Conn)
    | Send(conn: Conn, ok: bool)
    | ClosePeer(conn: Conn, ok: bool)
    | Record(conn: Conn)
    | End(conn: Conn)
    | CloseOwn(conn: Conn)

  const Initial := State(Core(map[], [], 0, {}), map[], {}, multiset{}, map[], map[], {})


  predicate Enabled(s: State, e: Event) {
    match e
    case Accept(c) => c !in s.handlers
    case AcceptFails => true
    case Receive(c, _) => c in s.handlers && s.handlers[c].phase.Receiving?
    case Enter(c) => c in s.handlers && s.handlers[c].phase.Arriving?
    case Send(c, _) => c in s.handlers && s.handlers[c].phase.Releasing? && !s.handlers[c].phase.closing
    case ClosePeer(c, _) => c in s.handlers && s.handlers[c].phase.Releasing? && s.handlers[c].phase.closing
    case Record(c) => c in s.handlers && s.handlers[c].phase.Failing?
    case End(c) => c in s.handlers && s.handlers[c].phase.Ending?
    case CloseOwn(c) => c in s.handlers && s.handlers[c].phase.Closing?
  }

  function To(s: State, conn: Conn, phase: Phase): State
    requires conn in s.handlers
  {
    s.(handlers := s.handlers[conn := s.handlers[conn].(phase := phase)])
  }

  /** The peer that a releasing handler is serving. */
  function Peer(phase: Phase): Conn
    requires phase.Releasing?
  {
    if phase.index == 0 then phase.first else phase.second
  }

  function Apply(expected: set<string>, s: State, e: Event): State
    requires Enabled(s, e)
  {
    match e
    case Accept(c) =>
      s.(core := s.core.(active := s.core.active + {c}), handlers := s.handlers[c := Handler(Receiving, None)])
    case AcceptFails => s.(core := s.core.(errors := s.core.errors + 1))
    case Receive(c, request) =>
      To(s, c, if WellFormed(request) then Arriving(request.fields[0], ClientOf(request)) else Failing)
    case Enter(c) =>
      var name, client := s.handlers[c].phase.name, s.handlers[c].phase.client;
      var (core, verdict) := Arrive(expected, s.core, name, client, c);
      if verdict.Rejected? then To(s, c, Failing).(core := core)
      else
        var spot := Some((name, client));
        var phase := if verdict.Waits? then Ending else Releasing(name, verdict.first, verdict.second, 0, false, false);
        s.(core := core,
           handlers := s.handlers[c := Handler(phase, spot)],
           arrived := s.arrived[(name, client) := c],
           opener := if verdict.Waits? then s.opener else s.opener[name := c])
    case Send(c, ok) =>
      var p := s.handlers[c].phase;
      To(s, c, p.(closing := true, failed := p.failed || !ok))
        .(go := if ok then s.go + multiset{Peer(p)} else s.go)
    case ClosePeer(c, ok) =>
      var p := s.handlers[c].phase;
      var next := if !ok then Failing
                  else if p.index == 0 then p.(index := 1, closing := false)
                  else if p.failed then Failing else Ending;
      To(s, c, next)
        .(closed := s.closed + {Peer(p)},
          skipped := if !ok && p.index == 0 then s.skipped + {Peer(p.(index := 1))} else s.skipped)
    case Record(c) => To(s, c, Ending).(core := s.core.(errors := s.core.errors + 1))
    case End(c) =>
      To(s, c, if s.handlers[c].spot.Some? then Finished else Closing)
        .(core := s.core.(active := s.core.active - {c}))
    case CloseOwn(c) => To(s, c, Finished).(closed := s.closed + {c})
  }

  /** A run, given by its events. */
  ghost predicate Run(expected: set<string>, events: seq<Event>, states: seq<State>) {
    && |states| == |events| + 1
    && states[0] == Initial
    && forall i :: 0 <= i < |events| ==> StepAt(expected, events, states, i)
  }

  ghost predicate StepAt(expected: set<string>, events: seq<Event>, states: seq<State>, i: int)
    requires 0 <= i < |events| && |states| == |events| + 1
  {
    Enabled(states[i], events[i]) && states[i + 1] == Apply(expected, states[i], events[i])
  }

  ghost predicate AllFinished(s: State) {
    forall c :: c in s.handlers ==> s.handlers[c].phase.Finished?
  }

  /** A connection parked in `arrivals`. */
  ghost predicate Parked(s: State, conn: Conn) {
    exists name, client :: name in s.core.arrivals && client in s.core.arrivals[name]
                           && s.core.arrivals[name][client] == conn
  }

  /** `assert_complete` returns instead of raising. */
  predicate AssertComplete(expected: set<string>, core: Core) {
    core.errors == 0 && (set n | n in core.completed) == expected && core.arrivals == map[]
  }
}
