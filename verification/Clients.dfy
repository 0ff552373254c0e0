/**
 The client map of an IPC server: ipcs/ipcs.go, SendIpcToClient, and the hello handlers of the controller
 and the resource manager, which fill it.
 */
module Clients {
  import opened Options
  import opened Messages

  type Connection = nat

  datatype Event = Greeted(id: int, connection: Connection) | Written(id: int, failed: bool)

  class ClientMap {
    var clients: map<int, Connection>
    var closed: set<Connection>
    /** Everything that has happened to the map, oldest first. */
    ghost var history: seq<Event>

    ghost predicate Valid()
      reads this
    {
      forall id :: (id in clients <==> Current(history, id).Some?) &&
        (id in clients ==> Current(history, id) == Some(clients[id]))
    }

    constructor ()
      ensures Valid() && history == [] && clients == map[] && closed == {}
    {
      clients, closed, history := map[], {}, [];
    }

    /** failed: the write on the connection returns an error, if there is a connection to write on. */
    method SendIpcToClient(dest: int, failed: bool) returns (code: int)
      requires Valid()
      modifies this
      ensures Valid() && code == CL_OK && history == old(history) + [Written(dest, failed)]
      ensures closed == if dest in old(clients) && failed then old(closed) + {old(clients)[dest]} else old(closed)
      ensures clients == if failed then old(clients) - {dest} else old(clients)
    {
      if dest in clients {
        var to := clients[dest];
        if failed {
          closed := closed + {to};
          clients := clients - {dest};
        }
      }
      history := history + [Written(dest, failed)];
      assert history[..|history| - 1] == old(history);
      code := CL_OK;
    }

    /** Registers the sender - over an older connection of the same id, too - and answers it. */
    method MessageHelloHandler(id: int, connection: Connection, failed: bool)
      requires Valid()
      modifies this
      ensures Valid() && history == old(history) + [Greeted(id, connection), Written(id, failed)]
      ensures clients == if failed then old(clients) - {id} else old(clients)[id := connection]
      ensures closed == if failed then old(closed) + {connection} else old(closed)
    {
      if id in clients {
        clients := clients[id := connection];
      } else {
        clients := clients[id := connection];
      }
      history := history + [Greeted(id, connection)];
      assert history[..|history| - 1] == old(history);
      var code := SendIpcToClient(id, failed);
      assert clients == if failed then old(clients) - {id} else old(clients)[id := connection];
    }
  }

  ghost function Current(history: seq<Event>, id: int): Option<Connection> {
    if history == [] then None
    else
      var last := history[|history| - 1];
      if last.id != id then Current(history[..|history| - 1], id)
      else if last.Greeted? then Some(last.connection)
      else if last.failed then None
      else Current(history[..|history| - 1], id)
  }

  /** Event i is the id's latest hello, and no write to the id has failed since. */
  ghost predicate LatestHello(history: seq<Event>, i: int, id: int, connection: Connection) {
    0 <= i < |history| && history[i] == Greeted(id, connection) &&
    forall j :: i < j < |history| && history[j].id == id ==> history[j].Written? && !history[j].failed
  }

  /** An id is mapped to a connection exactly when its latest hello came over it and no later write failed. */
  lemma {:induction false} CurrentIsTheLatestHello(history: seq<Event>, id: int, connection: Connection)
    ensures Current(history, id) == Some(connection) <==> exists i :: LatestHello(history, i, id, connection)
  {
    if history != [] {
      var n := |history| - 1;
      var init := history[..n];
      CurrentIsTheLatestHello(init, id, connection);
      if history[n].id == id && (history[n].Greeted? || history[n].failed) {
        if history[n].Greeted? && history[n].connection == connection {
          assert LatestHello(history, n, id, connection);
        }
      } else {
        if i :| LatestHello(init, i, id, connection) {
          assert LatestHello(history, i, id, connection);
        }
        if i :| LatestHello(history, i, id, connection) {
          assert LatestHello(init, i, id, connection);
        }
      }
    }
  }
}
