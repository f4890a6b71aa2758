/** backend/main.py: the HTTP handlers that read and change the registry,
    calling the remote host first where they must.  Each handler's reply is
    a `Result`: the JSON body on success, the `HTTPException` it raises
    otherwise.  FastAPI routing and the SQLite connection are not modelled. */
module MainApp {
  import opened Wrappers
  import opened Remote
  import opened Registry
  import opened ProxyCreator
  import opened ApiClientManager

  /** `HTTPException(status_code, detail)`. */
  datatype HttpError = HttpError(status: int, detail: string)

  /** The JSON bodies the handlers return. */
  datatype Reply =
    | Message(message: string)
    | Added(message: string, uuid: string)

  // ---------------------------------------------------------------- get_server_details

  /** The `id, proxy_name` row `get_server_details` returns. */
  datatype ServerSummary = ServerSummary(id: int, proxyName: string)

  /** `get_server_details`: the server's id and name, or 404 when no server
      has that id. */
  method GetServerDetails(db: Database, serverId: int) returns (r: Result<ServerSummary, HttpError>)
    ensures r.Err? <==> forall s :: s in db.servers ==> s.id != serverId
    ensures r.Err? ==> r.error == HttpError(404, "Server not found")
    ensures r.Ok? ==> r.value.id == serverId && exists s :: s in db.servers && s.id == serverId && s.proxyName == r.value.proxyName
  {
    var server := ServerById(db.servers, serverId);
    if server.None? {
      return Err(HttpError(404, "Server not found"));
    }
    r := Ok(ServerSummary(server.value.id, server.value.proxyName));
  }

  // ---------------------------------------------------------------- delete_server

  /** The command `delete_server` runs on the host when asked to clean up. */
  const CleanupCommand := "systemctl stop xray; rm -f /usr/local/etc/xray/config.json; rm -rf /var/log/xray"

  /** What the host answers during the cleanup. */
  datatype CleanupRemote = CleanupRemote(connect: Attempt, cleanup: CommandOutcome)

  /** The `try` block of the cleanup: connect to the server found, if any,
      run the cleanup command whatever its exit status, and close; a failed
      connection is only logged and leaves the session unclosed. */
  method CleanupHost(server: Option<ServerRow>, remote: CleanupRemote) returns (actions: seq<RemoteAction>)
    ensures server.None? ==> actions == []
    ensures server.Some? && remote.connect.Fails? ==> actions == [Connect(server.value.serverIp)]
    ensures server.Some? && remote.connect.Succeeds? ==>
              actions == [Connect(server.value.serverIp), Exec(CleanupCommand), Close]
  {
    actions := [];
    if server.Some? {
      actions := [Connect(server.value.serverIp)];
      if remote.connect.Succeeds? {
        actions := actions + [Exec(CleanupCommand)];
        actions := actions + [Close];
      }
    }
  }

  /** `delete_server`: an optional best-effort cleanup on the host, whose
      failure is only logged, then the server's clients and the server itself
      are deleted whatever happened remotely. */
  method DeleteServer(db: Database, serverId: int, cleanup: bool, remote: CleanupRemote)
    returns (r: Reply, actions: seq<RemoteAction>)
    requires db.Valid()
    modifies db
    ensures db.Valid()
    ensures r == Message("Server deleted successfully")
    ensures db.clients == ClientsWithoutServer(old(db.clients), serverId)
    ensures db.servers == ServersWithoutId(old(db.servers), serverId)
    ensures !cleanup ==> actions == []
    ensures cleanup ==>
              var server := ServerById(old(db.servers), serverId);
              && (server.None? ==> actions == [])
              && (server.Some? && remote.connect.Fails? ==> actions == [Connect(server.value.serverIp)])
              && (server.Some? && remote.connect.Succeeds? ==>
                    actions == [Connect(server.value.serverIp), Exec(CleanupCommand), Close])
  {
    actions := [];
    if cleanup {
      actions := CleanupHost(ServerById(db.servers, serverId), remote);
    }
    db.DeleteServerRows(serverId);
    r := Message("Server deleted successfully");
  }

  // ---------------------------------------------------------------- get_client_details

  /** The JOIN of `get_client_details`: the client with that id and the
      server it belongs to; no row when either is missing. */
  function ClientJoin(servers: seq<ServerRow>, clients: seq<ClientRow>, clientId: int): (j: Option<(ClientRow, ServerRow)>)
    ensures j.Some? ==> j.value.0 in clients && j.value.0.id == clientId
                        && j.value.1 in servers && j.value.1.id == j.value.0.serverId
  {
    match ClientById(clients, clientId)
    case None => None
    case Some(c) =>
      match ServerById(servers, c.serverId)
      case None => None
      case Some(s) => Some((c, s))
  }

  /** With unique keys, the join finds no row exactly when no client with
      that id has its server in the table. */
  lemma {:induction false} ClientJoinMissing(servers: seq<ServerRow>, clients: seq<ClientRow>, clientId: int)
    requires ClientKeys(clients)
    ensures ClientJoin(servers, clients, clientId).None? <==>
              forall c, s :: c in clients && s in servers && c.id == clientId ==> s.id != c.serverId
  {
    forall c | c in clients && c.id == clientId
      ensures ClientById(clients, clientId) == Some(c)
    {
      ClientByIdUnique(clients, c);
    }
  }

  /** The body `get_client_details` returns. */
  datatype ClientView = ClientView(uuid: string, vlessLink: string, qrCode: string)

  /** `get_client_details`: 404 when the join finds no row; otherwise the
      client's uuid, its share link (the same template the provisioning
      stream uses) and the QR image of the link (`encodeQr`). */
  method GetClientDetails(db: Database, clientId: int, encodeQr: string -> string)
    returns (r: Result<ClientView, HttpError>)
    ensures r.Err? <==> ClientJoin(db.servers, db.clients, clientId).None?
    ensures r.Err? ==> r.error == HttpError(404, "Client not found")
    ensures r.Ok? ==>
              var (c, s) := ClientJoin(db.servers, db.clients, clientId).value;
              && r.value.uuid == c.uuid
              && r.value.vlessLink == VlessLink(c.uuid, s.serverIp, s.maskDomain, s.publicKey, s.proxyName)
              && r.value.qrCode == encodeQr(r.value.vlessLink)
  {
    var data := ClientJoin(db.servers, db.clients, clientId);
    if data.None? {
      return Err(HttpError(404, "Client not found"));
    }
    var (c, s) := data.value;
    var link := VlessLink(c.uuid, s.serverIp, s.maskDomain, s.publicKey, s.proxyName);
    r := Ok(ClientView(c.uuid, link, encodeQr(link)));
  }

  /** The rows a successful provisioning run stores give back, through
      `get_client_details`, the very link the stream reported. */
  lemma {:induction false} ProvisionedClientLink(servers: seq<ServerRow>, clients: seq<ClientRow>,
                                                 req: ProxyRequest, uuid: string, publicKey: string)
    ensures var serverId := NextServerId(servers);
      var clientId := NextClientId(clients);
      var servers' := servers + [ServerRow(serverId, req.serverIp, req.sshUser, req.sshPassword,
                                           req.maskDomain, publicKey, req.proxyName)];
      var clients' := clients + [ClientRow(clientId, serverId, uuid, "user1")];
      ClientJoin(servers', clients', clientId).Some?
      && var (c, s) := ClientJoin(servers', clients', clientId).value;
         VlessLink(c.uuid, s.serverIp, s.maskDomain, s.publicKey, s.proxyName)
         == VlessLink(uuid, req.serverIp, req.maskDomain, publicKey, req.proxyName)
  {
    var serverId := NextServerId(servers);
    var server := ServerRow(serverId, req.serverIp, req.sshUser, req.sshPassword, req.maskDomain, publicKey, req.proxyName);
    var client := ClientRow(NextClientId(clients), serverId, uuid, "user1");
    ServerByIdAppended(servers, server);
    ClientByIdAppended(clients, client);
  }

  // ---------------------------------------------------------------- add_client

  /** `add_client`: 404 when the server is missing; otherwise add the user on
      the host and store the client row only when that succeeded; a remote
      failure becomes a 500 and stores nothing. */
  method AddClient(db: Database, serverId: int, username: string, uuid: string, remote: AddRemote)
    returns (r: Result<Reply, HttpError>, actions: seq<RemoteAction>)
    requires db.Valid()
    modifies db
    ensures db.Valid() && db.servers == old(db.servers)
    ensures ServerById(old(db.servers), serverId).None? ==>
              r == Err(HttpError(404, "Server not found")) && actions == [] && db.clients == old(db.clients)
    ensures ServerById(old(db.servers), serverId).Some? ==>
              var host := ServerById(old(db.servers), serverId).value.serverIp;
              && ClosedOnce(actions) && actions[0] == Connect(host)
              && (r.Ok? <==> remote.connect.Succeeds? && remote.upload.Succeeds? && remote.adu.exitStatus == 0)
    ensures r.Ok? ==>
              && r.value == Added("Client added successfully", uuid)
              && db.clients == old(db.clients) + [ClientRow(NextClientId(old(db.clients)), serverId, uuid, username)]
    ensures r.Err? ==> db.clients == old(db.clients)
    ensures ServerById(old(db.servers), serverId).Some? && r.Err? ==>
              r.error == HttpError(500, "Failed to add client: " + AddFailureMessage(remote))
  {
    var server := ServerById(db.servers, serverId);
    if server.None? {
      return Err(HttpError(404, "Server not found")), [];
    }
    var added;
    added, actions := AddUserViaApi(server.value.serverIp, username, uuid, remote);
    if added.Err? {
      return Err(HttpError(500, "Failed to add client: " + added.error)), actions;
    }
    var _ := db.InsertClient(serverId, added.value, username);
    r := Ok(Added("Client added successfully", added.value));
  }

  // ---------------------------------------------------------------- delete_client

  /** `delete_client`: 404 when no client has both ids or the server is
      missing; otherwise remove the user on the host and delete the row only
      when that succeeded; a remote failure becomes a 500 and deletes nothing. */
  method DeleteClient(db: Database, serverId: int, clientId: int, remote: RemoveRemote)
    returns (r: Result<Reply, HttpError>, actions: seq<RemoteAction>)
    requires db.Valid()
    modifies db
    ensures db.Valid() && db.servers == old(db.servers)
    ensures ClientByIds(old(db.clients), clientId, serverId).None? ==>
              r == Err(HttpError(404, "Client not found")) && actions == [] && db.clients == old(db.clients)
    ensures ClientByIds(old(db.clients), clientId, serverId).Some? && ServerById(old(db.servers), serverId).None? ==>
              r == Err(HttpError(404, "Server not found")) && actions == [] && db.clients == old(db.clients)
    ensures ClientByIds(old(db.clients), clientId, serverId).Some? && ServerById(old(db.servers), serverId).Some? ==>
              var host := ServerById(old(db.servers), serverId).value.serverIp;
              var username := ClientByIds(old(db.clients), clientId, serverId).value.username;
              && ClosedOnce(actions) && actions[0] == Connect(host)
              && (remote.connect.Succeeds? ==> actions == [Connect(host), Exec(RmuCommand(username)), Close])
              && (r.Ok? <==> remote.connect.Succeeds? && remote.rmu.exitStatus == 0)
    ensures r.Ok? ==>
              && r.value == Message("Client deleted successfully")
              && db.clients == ClientsWithout(old(db.clients), clientId, serverId)
              && |db.clients| == |old(db.clients)| - 1
    ensures r.Err? ==> db.clients == old(db.clients)
    ensures ClientByIds(old(db.clients), clientId, serverId).Some? && ServerById(old(db.servers), serverId).Some? && r.Err? ==>
              r.error == HttpError(500, "Failed to delete client: " + RemoveFailureMessage(remote))
  {
    var client := ClientByIds(db.clients, clientId, serverId);
    if client.None? {
      return Err(HttpError(404, "Client not found")), [];
    }
    var server := ServerById(db.servers, serverId);
    if server.None? {
      return Err(HttpError(404, "Server not found")), [];
    }
    var error;
    error, actions := RemoveUserViaApi(server.value.serverIp, client.value.username, remote);
    if error.Some? {
      return Err(HttpError(500, "Failed to delete client: " + error.value)), actions;
    }
    ClientsWithoutRemovesOne(db.clients, clientId, serverId);
    db.DeleteClient(clientId, serverId);
    r := Ok(Message("Client deleted successfully"));
  }

  // ---------------------------------------------------------------- the ssh_port column

  /** The columns of a `servers` row, as the table is created: there is no
      `ssh_port` among them. */
  const ServerColumns := ["id", "server_ip", "ssh_user", "ssh_password", "mask_domain", "public_key", "proxy_name"]

  /** The message `sqlite3.Row` raises with when asked for a column it lacks. */
  const NoSuchColumn := "No item with that key"

  /** `server[column]` on a `SELECT *` row of `servers`. */
  function ReadColumn(column: string): (r: Attempt)
    ensures r.Succeeds? <==> column in ServerColumns
    ensures r.Fails? ==> r.message == NoSuchColumn
  {
    if column in ServerColumns then Succeeds else Fails(NoSuchColumn)
  }

  /** `add_client` as written, up to the remote call: inside its `try` it
      reads `server["ssh_port"]` to pass it on, which raises, so a request
      for an existing server never reaches the host and always answers 500.
      `Ok(server)` would mean the remote call is reached. */
  function AddClientAsWritten(servers: seq<ServerRow>, serverId: int): (r: Result<ServerRow, HttpError>)
    ensures r.Err?
    ensures ServerById(servers, serverId).None? ==> r.error == HttpError(404, "Server not found")
    ensures ServerById(servers, serverId).Some? ==>
              r.error == HttpError(500, "Failed to add client: " + NoSuchColumn)
  {
    match ServerById(servers, serverId)
    case None => Err(HttpError(404, "Server not found"))
    case Some(server) =>
      match ReadColumn("ssh_port")
      case Fails(message) => Err(HttpError(500, "Failed to add client: " + message))
      case Succeeds => Ok(server)
  }

  /** `delete_client` as written, up to the remote call: after both lookups
      succeed it reads `server["ssh_port"]` inside its `try`, so the row is
      never removed and the request always answers 500. */
  function DeleteClientAsWritten(servers: seq<ServerRow>, clients: seq<ClientRow>, serverId: int, clientId: int)
    : (r: Result<(ClientRow, ServerRow), HttpError>)
    ensures r.Err?
    ensures ClientByIds(clients, clientId, serverId).None? ==> r.error == HttpError(404, "Client not found")
    ensures ClientByIds(clients, clientId, serverId).Some? && ServerById(servers, serverId).None? ==>
              r.error == HttpError(404, "Server not found")
    ensures ClientByIds(clients, clientId, serverId).Some? && ServerById(servers, serverId).Some? ==>
              r.error == HttpError(500, "Failed to delete client: " + NoSuchColumn)
  {
    match ClientByIds(clients, clientId, serverId)
    case None => Err(HttpError(404, "Client not found"))
    case Some(client) =>
      match ServerById(servers, serverId)
      case None => Err(HttpError(404, "Server not found"))
      case Some(server) =>
        match ReadColumn("ssh_port")
        case Fails(message) => Err(HttpError(500, "Failed to delete client: " + message))
        case Succeeds => Ok((client, server))
  }
}
