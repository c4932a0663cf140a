/** The barrier server object: the fields its lock protects and the critical sections
    that its handler threads run on them. */
module BarrierServer {
  import opened Options
  import opened BarrierModel

  datatype Arrival = Accepted | Released(first: Conn, second: Conn) | Refused

  function Elements(names: seq<string>): set<string> {
    set n | n in names
  }

  /** Names are as many as different names exactly when none is repeated. */
  lemma {:induction false} DistinctByNumber(names: seq<string>)
    ensures |Elements(names)| <= |names|
    ensures |Elements(names)| == |names| <==> forall i, j :: 0 <= i < j < |names| ==> names[i] != names[j]
  {
    if names != [] {
      var init, last := names[..|names| - 1], names[|names| - 1];
      DistinctByNumber(init);
      assert names == init + [last];
      assert Elements(names) == Elements(init) + {last};
    }
  }

  class Server {
    const expected: seq<string>
    var arrivals: map<string, map<int, Conn>>
    var completed: seq<string>
    var errors: seq<string>
    var active: set<Conn>

    ghost function View(): Core
      reads this
    {
      Core(arrivals, completed, |errors|, active)
    }

    function ExpectedSet(): set<string> {
      Elements(expected)
    }

    /** Names the server can be created with: not empty, and as many as different ones. */
    static predicate Acceptable(names: seq<string>) {
      names != [] && |Elements(names)| == |names|
    }

    constructor (names: seq<string>)
      requires Acceptable(names)
      ensures expected == names && View() == Initial.core
    {
      expected := names;
      arrivals, completed, errors, active := map[], [], [], {};
    }

    /** Creation, or nothing where the source raises. */
    static method Create(names: seq<string>) returns (server: Option<Server>)
      ensures server.Some? <==> |names| > 0 && forall i, j :: 0 <= i < j < |names| ==> names[i] != names[j]
      ensures server.Some? ==> server.value.expected == names && server.value.View() == Initial.core
    {
      DistinctByNumber(names);
      if Acceptable(names) {
        var fresh_ := new Server(names);
        server := Some(fresh_);
      } else {
        server := None;
      }
    }

    /** A connection was accepted. */
    method Register(connection: Conn)
      modifies this
      ensures View() == old(View()).(active := old(active) + {connection}) && errors == old(errors)
    {
      active := active + {connection};
    }

    method RecordError(error: string)
      modifies this
      ensures View() == old(View()).(errors := old(|errors|) + 1) && errors == old(errors) + [error]
    {
      errors := errors + [error];
    }

    /** An arrival, under the lock.  A refused arrival changes nothing.  One that completes
        its barrier hands out this connection and the one parked as the other client, in
        the order of the clients. */
    method ArriveAt(name: string, client: int, connection: Conn) returns (result: Arrival)
      modifies this
      ensures errors == old(errors)
      ensures View() == Arrive(ExpectedSet(), old(View()), name, client, connection).0
      ensures Arrive(ExpectedSet(), old(View()), name, client, connection).1
              == match result
                 case Accepted => Waits
                 case Released(a, b) => Opens(a, b)
                 case Refused => Rejected
      ensures result.Released? ==>
                && (client == 0 || client == 1) && name in old(arrivals) && 1 - client in old(arrivals)[name]
                && var other := old(arrivals)[name][1 - client];
                   [result.first, result.second] == if client == 0 then [connection, other] else [other, connection]
    {
      if name !in expected || name in completed {
        return Refused;
      }
      var present := if name in arrivals then arrivals[name] else map[];
      if client in present {
        return Refused;
      }
      present := present[client := connection];
      arrivals := arrivals[name := present];
      if present.Keys == {0, 1} {
        arrivals := arrivals - {name};
        completed := completed + [name];
        assert arrivals == old(arrivals) - {name};
        assert client in present && 1 - client in present;
        return Released(present[0], present[1]);
      }
      return Accepted;
    }

    method Discard(connection: Conn)
      modifies this
      ensures View() == old(View()).(active := old(active) - {connection}) && errors == old(errors)
    {
      active := active - {connection};
    }

    /** `assert_complete`: does the snapshot show full coverage without errors? */
    method IsComplete() returns (ok: bool)
      ensures ok <==> AssertComplete(ExpectedSet(), View())
    {
      ok := errors == [] && (set n | n in completed) == ExpectedSet() && arrivals == map[];
    }
  }
}
