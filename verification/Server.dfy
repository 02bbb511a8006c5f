/** The server object: its map of connections, updated in place. TcpServer has the same
    calls as steps of the loop. */
module Server {
  import opened Wrappers
  import opened Epoller
  import Connection
  import T = TcpConnection

  class TcpServer {
    const epoller: Epoller
    var nextConnfd: nat
    var connections: map<nat, T.TcpConnection>
    /** The `connectDestroyed` calls handed to the loop, in order. */
    var destroys: seq<T.TcpConnection>

    /** Every connection in the map has its own channel among the live ones, and a number
        given out before. */
    ghost predicate Valid(live: set<Channel>)
      reads this
    {
      && (forall id :: id in connections ==> id < nextConnfd)
      && (forall id :: id in connections ==>
            connections[id].channel in live && connections[id].channel.epoller == epoller)
      && (forall i, j :: i in connections && j in connections && i != j ==>
            connections[i].channel != connections[j].channel)
    }

    constructor (epoller: Epoller)
      ensures this.epoller == epoller && connections == map[] && destroys == []
      ensures Valid({})
    {
      this.epoller := epoller;
      nextConnfd, connections, destroys := 1, map[], [];
    }

    /** `newConnection`: a new object under the next number, established and told up, for a
        descriptor that no live channel has. */
    method NewConnection(sockfd: int, notify: bool, ghost live: set<Channel>) returns (conn: T.TcpConnection)
      requires Valid(live) && epoller.Agrees(live) && forall c :: c in live ==> c.fd != sockfd
      modifies this, epoller
      ensures fresh(conn) && fresh(conn.channel) && conn.channel.fd == sockfd && conn.notify == notify
      ensures Valid(live + {conn.channel}) && epoller.Agrees(live + {conn.channel})
      ensures connections == old(connections)[old(nextConnfd) := conn] && destroys == old(destroys)
      ensures old(nextConnfd) !in old(connections) && nextConnfd == old(nextConnfd) + 1
      ensures conn.Valid() && Next(conn.View()) == Connection.ConnectEstablished(Connection.NewConn())
    {
      conn := new T.TcpConnection(epoller, sockfd, notify);
      connections := connections[nextConnfd := conn];
      nextConnfd := nextConnfd + 1;
      conn.ConnectEstablished(live + {conn.channel});
    }

    /** `removeConnectionInLoop`: one entry goes, and `connectDestroyed` is deferred. */
    method RemoveConnectionInLoop(id: nat, ghost live: set<Channel>)
      requires Valid(live) && id in connections
      modifies this`connections, this`destroys
      ensures Valid(live) && connections == old(connections) - {id}
      ensures destroys == old(destroys) + [old(connections)[id]]
    {
      destroys := destroys + [connections[id]];
      connections := connections - {id};
    }
  }
}
