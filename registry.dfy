/** The local registry: the `servers` and `clients` tables of the SQLite file,
    as two sequences of rows in rowid order.  Only the statements the handlers
    issue are modelled; SQL itself is not. */
module Registry {
  import opened Wrappers

  /** A row of `servers` (column list of the CREATE TABLE statement). */
  datatype ServerRow = ServerRow(
    id: int, serverIp: string, sshUser: string, sshPassword: string,
    maskDomain: string, publicKey: string, proxyName: string)

  /** A row of `clients`. */
  datatype ClientRow = ClientRow(id: int, serverId: int, uuid: string, username: string)

  // ---------------------------------------------------------------- keys

  /** Primary keys are positive and no two rows share one. */
  predicate ServerKeys(rows: seq<ServerRow>)
    decreases |rows|
  {
    rows == [] ||
    (rows[0].id > 0 && (forall s :: s in rows[1..] ==> s.id != rows[0].id) && ServerKeys(rows[1..]))
  }

  predicate ClientKeys(rows: seq<ClientRow>)
    decreases |rows|
  {
    rows == [] ||
    (rows[0].id > 0 && (forall c :: c in rows[1..] ==> c.id != rows[0].id) && ClientKeys(rows[1..]))
  }

  lemma {:induction false} ServerKeysAppend(rows: seq<ServerRow>, row: ServerRow)
    requires ServerKeys(rows) && row.id > 0 && forall s :: s in rows ==> s.id < row.id
    ensures ServerKeys(rows + [row])
    decreases |rows|
  {
    if rows != [] {
      assert (rows + [row])[1..] == rows[1..] + [row];
      ServerKeysAppend(rows[1..], row);
    }
  }

  lemma {:induction false} ClientKeysAppend(rows: seq<ClientRow>, row: ClientRow)
    requires ClientKeys(rows) && row.id > 0 && forall c :: c in rows ==> c.id < row.id
    ensures ClientKeys(rows + [row])
    decreases |rows|
  {
    if rows != [] {
      assert (rows + [row])[1..] == rows[1..] + [row];
      ClientKeysAppend(rows[1..], row);
    }
  }

  /** The rowid SQLite gives the next INTEGER PRIMARY KEY: one more than the largest in use. */
  function NextId(ids: seq<int>): (id: int)
    ensures id > 0 && forall k :: k in ids ==> k < id
    decreases |ids|
  {
    if ids == [] then 1
    else
      var rest := NextId(ids[..|ids| - 1]);
      assert forall k :: k in ids ==> k in ids[..|ids| - 1] || k == ids[|ids| - 1];
      if ids[|ids| - 1] < rest then rest else ids[|ids| - 1] + 1
  }

  /** The key column of a table, in row order. */
  function KeyColumn<Row>(rows: seq<Row>, key: Row -> int): (ids: seq<int>)
    ensures |ids| == |rows| && forall i :: 0 <= i < |rows| ==> ids[i] == key(rows[i])
    ensures forall r :: r in rows ==> key(r) in ids
  {
    if rows == [] then []
    else
      assert forall r :: r in rows ==> r in rows[..|rows| - 1] || r == rows[|rows| - 1];
      KeyColumn(rows[..|rows| - 1], key) + [key(rows[|rows| - 1])]
  }

  function NextServerId(rows: seq<ServerRow>): (id: int)
    ensures id > 0 && forall r :: r in rows ==> r.id < id
  {
    NextId(KeyColumn(rows, (r: ServerRow) => r.id))
  }

  function NextClientId(rows: seq<ClientRow>): (id: int)
    ensures id > 0 && forall r :: r in rows ==> r.id < id
  {
    NextId(KeyColumn(rows, (r: ClientRow) => r.id))
  }

  // ---------------------------------------------------------------- DELETE

  /** `DELETE FROM servers WHERE id = ?`: the rows that survive, in order. */
  function ServersWithoutId(rows: seq<ServerRow>, id: int): (r: seq<ServerRow>)
    ensures forall s :: s in r <==> s in rows && s.id != id
    decreases |rows|
  {
    if rows == [] then []
    else
      var rest := ServersWithoutId(rows[1..], id);
      assert forall s :: s in rows <==> s == rows[0] || s in rows[1..];
      if rows[0].id == id then rest
      else
        [rows[0]] + rest
  }

  /** `DELETE FROM clients WHERE server_id = ?`. */
  function ClientsWithoutServer(rows: seq<ClientRow>, serverId: int): (r: seq<ClientRow>)
    ensures forall c :: c in r <==> c in rows && c.serverId != serverId
    decreases |rows|
  {
    if rows == [] then []
    else
      var rest := ClientsWithoutServer(rows[1..], serverId);
      assert forall c :: c in rows <==> c == rows[0] || c in rows[1..];
      if rows[0].serverId == serverId then rest
      else
        [rows[0]] + rest
  }

  /** `DELETE FROM clients WHERE id = ? AND server_id = ?`. */
  function ClientsWithout(rows: seq<ClientRow>, id: int, serverId: int): (r: seq<ClientRow>)
    ensures forall c :: c in r <==> c in rows && !(c.id == id && c.serverId == serverId)
    decreases |rows|
  {
    if rows == [] then []
    else
      var rest := ClientsWithout(rows[1..], id, serverId);
      assert forall c :: c in rows <==> c == rows[0] || c in rows[1..];
      if rows[0].id == id && rows[0].serverId == serverId then rest
      else
        [rows[0]] + rest
  }

  lemma {:induction false} ServersWithoutIdKeys(rows: seq<ServerRow>, id: int)
    requires ServerKeys(rows)
    ensures ServerKeys(ServersWithoutId(rows, id))
    decreases |rows|
  {
    if rows != [] {
      ServersWithoutIdKeys(rows[1..], id);
      var rest := ServersWithoutId(rows[1..], id);
      assert ServersWithoutId(rows, id) == rest || ServersWithoutId(rows, id) == [rows[0]] + rest;
    }
  }

  lemma {:induction false} ClientsWithoutServerKeys(rows: seq<ClientRow>, serverId: int)
    requires ClientKeys(rows)
    ensures ClientKeys(ClientsWithoutServer(rows, serverId))
    decreases |rows|
  {
    if rows != [] {
      ClientsWithoutServerKeys(rows[1..], serverId);
      var rest := ClientsWithoutServer(rows[1..], serverId);
      assert ClientsWithoutServer(rows, serverId) == rest || ClientsWithoutServer(rows, serverId) == [rows[0]] + rest;
    }
  }

  lemma {:induction false} ClientsWithoutKeys(rows: seq<ClientRow>, id: int, serverId: int)
    requires ClientKeys(rows)
    ensures ClientKeys(ClientsWithout(rows, id, serverId))
    decreases |rows|
  {
    if rows != [] {
      ClientsWithoutKeys(rows[1..], id, serverId);
      var rest := ClientsWithout(rows[1..], id, serverId);
      assert ClientsWithout(rows, id, serverId) == rest || ClientsWithout(rows, id, serverId) == [rows[0]] + rest;
    }
  }

  /** Deleting a server's rows a second time changes nothing. */
  lemma {:induction false} ServersWithoutIdTwice(rows: seq<ServerRow>, id: int)
    ensures ServersWithoutId(ServersWithoutId(rows, id), id) == ServersWithoutId(rows, id)
    decreases |rows|
  {
    if rows != [] {
      ServersWithoutIdTwice(rows[1..], id);
      var rest := ServersWithoutId(rows[1..], id);
      if rows[0].id != id {
        assert ([rows[0]] + rest)[1..] == rest;
      }
    }
  }

  lemma {:induction false} ClientsWithoutServerTwice(rows: seq<ClientRow>, serverId: int)
    ensures ClientsWithoutServer(ClientsWithoutServer(rows, serverId), serverId) == ClientsWithoutServer(rows, serverId)
    decreases |rows|
  {
    if rows != [] {
      ClientsWithoutServerTwice(rows[1..], serverId);
      var rest := ClientsWithoutServer(rows[1..], serverId);
      if rows[0].serverId != serverId {
        assert ([rows[0]] + rest)[1..] == rest;
      }
    }
  }

  /** With unique keys, deleting a client that exists removes exactly one row. */
  lemma {:induction false} ClientsWithoutRemovesOne(rows: seq<ClientRow>, id: int, serverId: int)
    requires ClientKeys(rows) && ClientByIds(rows, id, serverId).Some?
    ensures |ClientsWithout(rows, id, serverId)| == |rows| - 1
    decreases |rows|
  {
    if rows[0].id == id && rows[0].serverId == serverId {
      ClientsWithoutAbsent(rows[1..], id, serverId);
    } else {
      ClientsWithoutRemovesOne(rows[1..], id, serverId);
    }
  }

  /** Deleting a key that no row carries leaves the rows as they are. */
  lemma {:induction false} ClientsWithoutAbsent(rows: seq<ClientRow>, id: int, serverId: int)
    requires forall c :: c in rows ==> c.id != id
    ensures ClientsWithout(rows, id, serverId) == rows
    decreases |rows|
  {
    if rows != [] {
      ClientsWithoutAbsent(rows[1..], id, serverId);
      assert [rows[0]] + rows[1..] == rows;
    }
  }

  // ---------------------------------------------------------------- SELECT

  /** `SELECT ... FROM servers WHERE id = ?` then `fetchone()`. */
  function ServerById(rows: seq<ServerRow>, id: int): (r: Option<ServerRow>)
    ensures r.Some? ==> r.value in rows && r.value.id == id
    ensures r.None? ==> forall s :: s in rows ==> s.id != id
    decreases |rows|
  {
    if rows == [] then None
    else if rows[0].id == id then Some(rows[0])
    else
      assert forall s :: s in rows ==> s == rows[0] || s in rows[1..];
      ServerById(rows[1..], id)
  }

  /** `SELECT id FROM servers WHERE server_ip = ?` then `fetchone()`: the first such row. */
  function ServerByIp(rows: seq<ServerRow>, ip: string): (r: Option<ServerRow>)
    ensures r.Some? ==> r.value in rows && r.value.serverIp == ip
    ensures r.None? ==> forall s :: s in rows ==> s.serverIp != ip
    decreases |rows|
  {
    if rows == [] then None
    else if rows[0].serverIp == ip then Some(rows[0])
    else
      assert forall s :: s in rows ==> s == rows[0] || s in rows[1..];
      ServerByIp(rows[1..], ip)
  }

  /** `SELECT username FROM clients WHERE id = ? AND server_id = ?` then `fetchone()`. */
  function ClientByIds(rows: seq<ClientRow>, id: int, serverId: int): (r: Option<ClientRow>)
    ensures r.Some? ==> r.value in rows && r.value.id == id && r.value.serverId == serverId
    ensures r.None? ==> forall c :: c in rows ==> !(c.id == id && c.serverId == serverId)
    decreases |rows|
  {
    if rows == [] then None
    else if rows[0].id == id && rows[0].serverId == serverId then Some(rows[0])
    else
      assert forall c :: c in rows ==> c == rows[0] || c in rows[1..];
      ClientByIds(rows[1..], id, serverId)
  }

  /** The client with primary key `id`, whichever server it belongs to. */
  function ClientById(rows: seq<ClientRow>, id: int): (r: Option<ClientRow>)
    ensures r.Some? ==> r.value in rows && r.value.id == id
    ensures r.None? ==> forall c :: c in rows ==> c.id != id
    decreases |rows|
  {
    if rows == [] then None
    else if rows[0].id == id then Some(rows[0])
    else
      assert forall c :: c in rows ==> c == rows[0] || c in rows[1..];
      ClientById(rows[1..], id)
  }

  /** A row appended with a fresh key is found by that key. */
  lemma {:induction false} ServerByIdAppended(rows: seq<ServerRow>, row: ServerRow)
    requires forall s :: s in rows ==> s.id < row.id
    ensures ServerById(rows + [row], row.id) == Some(row)
    decreases |rows|
  {
    if rows != [] {
      assert (rows + [row])[1..] == rows[1..] + [row];
      ServerByIdAppended(rows[1..], row);
    }
  }

  lemma {:induction false} ClientByIdAppended(rows: seq<ClientRow>, row: ClientRow)
    requires forall c :: c in rows ==> c.id < row.id
    ensures ClientById(rows + [row], row.id) == Some(row)
    decreases |rows|
  {
    if rows != [] {
      assert (rows + [row])[1..] == rows[1..] + [row];
      ClientByIdAppended(rows[1..], row);
    }
  }

  /** With unique keys, a client is the one found by its key. */
  lemma {:induction false} ClientByIdUnique(rows: seq<ClientRow>, c: ClientRow)
    requires ClientKeys(rows) && c in rows
    ensures ClientById(rows, c.id) == Some(c)
    decreases |rows|
  {
    if rows[0] != c {
      ClientByIdUnique(rows[1..], c);
    }
  }

  /** The client rows of one server, in row order (`WHERE server_id = ?`). */
  function ClientsOf(rows: seq<ClientRow>, serverId: int): (r: seq<ClientRow>)
    ensures forall c :: c in r <==> c in rows && c.serverId == serverId
    ensures |r| <= |rows|
    decreases |rows|
  {
    if rows == [] then []
    else
      var rest := ClientsOf(rows[1..], serverId);
      assert forall c :: c in rows <==> c == rows[0] || c in rows[1..];
      if rows[0].serverId == serverId then [rows[0]] + rest else rest
  }

  /** `SELECT username FROM clients WHERE server_id = ?`: one name per
      client row of the server, in row order, duplicates kept. */
  function UsernamesOf(rows: seq<ClientRow>, serverId: int): (names: seq<string>)
    ensures forall u :: u in names <==> exists c :: c in rows && c.serverId == serverId && c.username == u
    decreases |rows|
  {
    if rows == [] then []
    else
      var rest := UsernamesOf(rows[1..], serverId);
      assert forall c :: c in rows <==> c == rows[0] || c in rows[1..];
      if rows[0].serverId == serverId then [rows[0].username] + rest else rest
  }

  /** The names come one per client row of the server, in the same order,
      duplicates kept. */
  lemma {:induction false} UsernamesOfEachClient(rows: seq<ClientRow>, serverId: int)
    ensures |UsernamesOf(rows, serverId)| == |ClientsOf(rows, serverId)|
    ensures forall i :: 0 <= i < |UsernamesOf(rows, serverId)| ==>
              UsernamesOf(rows, serverId)[i] == ClientsOf(rows, serverId)[i].username
    decreases |rows|
  {
    if rows != [] {
      UsernamesOfEachClient(rows[1..], serverId);
    }
  }

  // ---------------------------------------------------------------- the file

  /** The database file the handlers open with `sqlite3.connect`. */
  class Database {
    var servers: seq<ServerRow>
    var clients: seq<ClientRow>

    ghost predicate Valid()
      reads this
    {
      ServerKeys(servers) && ClientKeys(clients)
    }

    /** `init_db` on an empty file. */
    constructor ()
      ensures Valid() && servers == [] && clients == []
    {
      servers := [];
      clients := [];
    }

    /** `INSERT INTO servers (...) VALUES (...)`; the result is `cursor.lastrowid`. */
    method InsertServer(serverIp: string, sshUser: string, sshPassword: string,
                        maskDomain: string, publicKey: string, proxyName: string) returns (id: int)
      requires Valid()
      modifies this
      ensures Valid()
      ensures id == NextServerId(old(servers))
      ensures servers == old(servers) + [ServerRow(id, serverIp, sshUser, sshPassword, maskDomain, publicKey, proxyName)]
      ensures clients == old(clients)
    {
      id := NextServerId(servers);
      ServerKeysAppend(servers, ServerRow(id, serverIp, sshUser, sshPassword, maskDomain, publicKey, proxyName));
      servers := servers + [ServerRow(id, serverIp, sshUser, sshPassword, maskDomain, publicKey, proxyName)];
    }

    /** `INSERT INTO clients (server_id, uuid, username) VALUES (?, ?, ?)`. */
    method InsertClient(serverId: int, uuid: string, username: string) returns (id: int)
      requires Valid()
      modifies this
      ensures Valid()
      ensures id == NextClientId(old(clients))
      ensures clients == old(clients) + [ClientRow(id, serverId, uuid, username)]
      ensures servers == old(servers)
    {
      id := NextClientId(clients);
      ClientKeysAppend(clients, ClientRow(id, serverId, uuid, username));
      clients := clients + [ClientRow(id, serverId, uuid, username)];
    }

    /** `delete_server`'s two statements: the server's clients, then the server. */
    method DeleteServerRows(serverId: int)
      requires Valid()
      modifies this
      ensures Valid()
      ensures clients == ClientsWithoutServer(old(clients), serverId)
      ensures servers == ServersWithoutId(old(servers), serverId)
    {
      ClientsWithoutServerKeys(clients, serverId);
      ServersWithoutIdKeys(servers, serverId);
      clients := ClientsWithoutServer(clients, serverId);
      servers := ServersWithoutId(servers, serverId);
    }

    /** `DELETE FROM clients WHERE id = ? AND server_id = ?`. */
    method DeleteClient(id: int, serverId: int)
      requires Valid()
      modifies this
      ensures Valid()
      ensures clients == ClientsWithout(old(clients), id, serverId)
      ensures servers == old(servers)
    {
      ClientsWithoutKeys(clients, id, serverId);
      clients := ClientsWithout(clients, id, serverId);
    }
  }
}
