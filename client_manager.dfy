/** backend/client_manager.py: rewrite the client list of the Xray
    configuration on a host and restart the service.  The configuration is
    read over SFTP and decoded (`decode` stands for `json.load`), its first
    inbound's `settings.clients` entry is replaced, the document is written
    back and the service restarted; the session is closed on every path. */
module ClientManager {
  import opened Wrappers
  import opened Text
  import opened JsonValue
  import opened Remote

  const ConfigPath := "/usr/local/etc/xray/config.json"
  const RestartCommand := "systemctl restart xray"
  const Flow := "xtls-rprx-vision"

  /** One element of the `clients` argument: its `uuid` and `username` keys. */
  datatype ClientEntry = ClientEntry(uuid: string, username: string)

  /** The object the comprehension builds for one client. */
  function ClientObject(c: ClientEntry): Json {
    JObj(map["id" := JStr(c.uuid), "username" := JStr(c.username), "flow" := JStr(Flow)])
  }

  /** The comprehension over the clients, in their order. */
  function ClientObjects(clients: seq<ClientEntry>): (objects: seq<Json>)
    ensures |objects| == |clients|
    ensures forall i :: 0 <= i < |clients| ==> objects[i] == ClientObject(clients[i])
  {
    if clients == [] then [] else [ClientObject(clients[0])] + ClientObjects(clients[1..])
  }

  /** Entry `i` of the new list carries client `i`'s uuid as `id`, its
      username, and the vision flow. */
  lemma {:induction false} ClientObjectFields(clients: seq<ClientEntry>, i: nat)
    requires i < |clients|
    ensures var entry := Some(ClientObjects(clients)[i]);
      && At(entry, "id") == Some(JStr(clients[i].uuid))
      && At(entry, "username") == Some(JStr(clients[i].username))
      && At(entry, "flow") == Some(JStr("xtls-rprx-vision"))
  {
    var fields := map["id" := JStr(clients[i].uuid), "username" := JStr(clients[i].username), "flow" := JStr(Flow)];
    assert ClientObjects(clients)[i] == JObj(fields);
    assert fields["id"] == JStr(clients[i].uuid);
    assert fields["username"] == JStr(clients[i].username);
  }

  // ---------------------------------------------------------------- the assignment

  /** `config["inbounds"][0]["settings"]` can be indexed and assigned to: each
      step finds an object (or a non-empty list for `inbounds`); anything else
      raises a KeyError, IndexError or TypeError. */
  predicate HasClientSlot(config: Json) {
    && config.JObj? && "inbounds" in config.fields
    && config.fields["inbounds"].JArr? && |config.fields["inbounds"].items| > 0
    && config.fields["inbounds"].items[0].JObj? && "settings" in config.fields["inbounds"].items[0].fields
    && config.fields["inbounds"].items[0].fields["settings"].JObj?
  }

  /** The settings object of the first inbound. */
  function SlotSettings(config: Json): map<string, Json>
    requires HasClientSlot(config)
  {
    config.fields["inbounds"].items[0].fields["settings"].fields
  }

  /** `config["inbounds"][0]["settings"]["clients"] = list`: the updated
      document, or None where the statement raises. */
  function SetClients(config: Json, list: Json): (r: Option<Json>)
    ensures r.Some? <==> HasClientSlot(config)
    ensures r.Some? ==>
              At(At(AtIndex(At(r, "inbounds"), 0), "settings"), "clients") == Some(list)
  {
    if !HasClientSlot(config) then None
    else
      var inbounds := config.fields["inbounds"].items;
      var inbound := inbounds[0].fields;
      var settings := inbound["settings"].fields;
      Some(JObj(config.fields["inbounds" := JArr(inbounds[0 := JObj(inbound["settings" := JObj(settings["clients" := list])])])]))
  }

  /** Nothing but the client list changes: every other top-level key, every
      other inbound, every other key of the first inbound and every other
      setting is as it was. */
  lemma {:induction false} SetClientsKeepsRest(config: Json, list: Json)
    requires HasClientSlot(config)
    ensures var r := SetClients(config, list).value;
      && HasClientSlot(r)
      && r.fields.Keys == config.fields.Keys
      && (forall k :: k in config.fields && k != "inbounds" ==> r.fields[k] == config.fields[k])
      && |r.fields["inbounds"].items| == |config.fields["inbounds"].items|
      && (forall i :: 0 < i < |config.fields["inbounds"].items| ==>
            r.fields["inbounds"].items[i] == config.fields["inbounds"].items[i])
      && r.fields["inbounds"].items[0].fields.Keys == config.fields["inbounds"].items[0].fields.Keys
      && (forall k :: k in config.fields["inbounds"].items[0].fields && k != "settings" ==>
            r.fields["inbounds"].items[0].fields[k] == config.fields["inbounds"].items[0].fields[k])
      && SlotSettings(r).Keys == SlotSettings(config).Keys + {"clients"}
      && (forall k :: k in SlotSettings(config) && k != "clients" ==> SlotSettings(r)[k] == SlotSettings(config)[k])
  {
  }

  /** Writing the same list twice gives the document written once. */
  lemma {:induction false} SetClientsTwice(config: Json, list: Json)
    requires HasClientSlot(config)
    ensures SetClients(SetClients(config, list).value, list) == SetClients(config, list)
  {
    SetClientsKeepsRest(config, list);
    var r := SetClients(config, list).value;
    var inbounds := r.fields["inbounds"].items;
    var inbound := inbounds[0].fields;
    var settings := inbound["settings"].fields;
    assert settings["clients" := list] == settings;
    assert inbound["settings" := JObj(settings)] == inbound;
    assert inbounds[0 := JObj(inbound)] == inbounds;
    assert r.fields["inbounds" := JArr(inbounds)] == r.fields;
  }

  /** Putting the old list back restores the document. */
  lemma {:induction false} SetClientsUndo(config: Json, list: Json)
    requires HasClientSlot(config) && "clients" in SlotSettings(config)
    ensures SetClients(SetClients(config, list).value, SlotSettings(config)["clients"]) == Some(config)
  {
    var inbounds := config.fields["inbounds"].items;
    var inbound := inbounds[0].fields;
    var settings := inbound["settings"].fields;
    var previous := settings["clients"];
    var settings' := settings["clients" := list];
    var inbound' := inbound["settings" := JObj(settings')];
    var inbounds' := inbounds[0 := JObj(inbound')];
    var r := JObj(config.fields["inbounds" := JArr(inbounds')]);
    assert SetClients(config, list) == Some(r);
    assert r.fields["inbounds"].items == inbounds';
    assert inbounds'[0].fields == inbound';
    assert inbound'["settings"].fields == settings';
    assert settings'["clients" := previous] == settings;
    assert inbound'["settings" := JObj(settings)] == inbound;
    assert inbounds'[0 := JObj(inbound)] == inbounds;
    assert r.fields["inbounds" := JArr(inbounds)] == config.fields;
  }

  // ---------------------------------------------------------------- update_server_config

  /** What the host answers: the connection, the SFTP session, the text of
      the configuration file (or the error reading it), the write, and the
      restart command. */
  datatype ConfigRemote = ConfigRemote(
    connect: Attempt, sftp: Attempt, file: Result<string, string>, write: Attempt, restart: CommandOutcome)

  /** The exceptions `update_server_config` lets escape. */
  datatype Raised =
    | RemoteFailure(message: string)
    | UndecodableConfig
    | NoClientSlot
    | RestartFailed(message: string)

  /** The document written back, when the file was read and decoded and the
      assignment succeeded. */
  function UpdatedConfig(remote: ConfigRemote, decode: string -> Option<Json>, clients: seq<ClientEntry>): Option<Json> {
    if remote.file.Ok? && decode(remote.file.value).Some? then
      SetClients(decode(remote.file.value).value, JArr(ClientObjects(clients)))
    else None
  }

  /** The connection and the SFTP session both opened. */
  predicate Opened(remote: ConfigRemote) {
    remote.connect.Succeeds? && remote.sftp.Succeeds?
  }

  /** `update_server_config`: the error raised, if any, and the remote actions
      in order; the only document ever written is the read one with the new
      client list, and the restart's stderr ends its error message. */
  method UpdateServerConfig(serverIp: string, clients: seq<ClientEntry>, remote: ConfigRemote,
                            decode: string -> Option<Json>)
    returns (error: Option<Raised>, actions: seq<RemoteAction>)
    ensures ClosedOnce(actions) && actions[0] == Connect(serverIp)
    ensures error.None? <==>
              && remote.connect.Succeeds? && remote.sftp.Succeeds?
              && UpdatedConfig(remote, decode, clients).Some?
              && remote.write.Succeeds? && remote.restart.exitStatus == 0
    ensures forall i :: 0 <= i < |actions| && actions[i].Upload? ==>
              UpdatedConfig(remote, decode, clients).Some?
              && actions[i] == Upload(ConfigPath, UpdatedConfig(remote, decode, clients).value)
    ensures error.None? ==>
              actions == [Connect(serverIp), Download(ConfigPath),
                          Upload(ConfigPath, UpdatedConfig(remote, decode, clients).value),
                          Exec(RestartCommand), Close]
    ensures !Opened(remote) ==>
              && error == Some(RemoteFailure(if remote.connect.Fails? then remote.connect.message else remote.sftp.message))
              && actions == [Connect(serverIp), Close]
    ensures Opened(remote) && remote.file.Err? ==>
              error == Some(RemoteFailure(remote.file.error)) && actions == [Connect(serverIp), Download(ConfigPath), Close]
    ensures Opened(remote) && remote.file.Ok? && decode(remote.file.value).None? ==>
              error == Some(UndecodableConfig) && actions == [Connect(serverIp), Download(ConfigPath), Close]
    ensures Opened(remote) && remote.file.Ok? && decode(remote.file.value).Some? && UpdatedConfig(remote, decode, clients).None? ==>
              error == Some(NoClientSlot) && actions == [Connect(serverIp), Download(ConfigPath), Close]
    ensures Opened(remote) && UpdatedConfig(remote, decode, clients).Some? && remote.write.Fails? ==>
              && error == Some(RemoteFailure(remote.write.message))
              && actions == [Connect(serverIp), Download(ConfigPath),
                             Upload(ConfigPath, UpdatedConfig(remote, decode, clients).value), Close]
    ensures Opened(remote) && UpdatedConfig(remote, decode, clients).Some? && remote.write.Succeeds?
            && remote.restart.exitStatus != 0 ==>
              && error == Some(RestartFailed("Failed to restart Xray: " + remote.restart.stderr))
              && actions == [Connect(serverIp), Download(ConfigPath),
                             Upload(ConfigPath, UpdatedConfig(remote, decode, clients).value),
                             Exec(RestartCommand), Close]
    ensures Exec(RestartCommand) in actions ==>
              Opened(remote) && UpdatedConfig(remote, decode, clients).Some? && remote.write.Succeeds?
    ensures error.Some? && error.value.RestartFailed? ==>
              && remote.restart.exitStatus != 0
              && StartsWith(error.value.message, "Failed to restart Xray: ")
              && EndsWith(error.value.message, remote.restart.stderr)
  {
    actions := [Connect(serverIp)];
    error := None;
    if remote.connect.Fails? {
      error := Some(RemoteFailure(remote.connect.message));
    } else if remote.sftp.Fails? {
      error := Some(RemoteFailure(remote.sftp.message));
    } else {
      actions := actions + [Download(ConfigPath)];
      if remote.file.Err? {
        error := Some(RemoteFailure(remote.file.error));
      } else if decode(remote.file.value).None? {
        error := Some(UndecodableConfig);
      } else {
        var config := SetClients(decode(remote.file.value).value, JArr(ClientObjects(clients)));
        if config.None? {
          error := Some(NoClientSlot);
        } else {
          actions := actions + [Upload(ConfigPath, config.value)];
          if remote.write.Fails? {
            error := Some(RemoteFailure(remote.write.message));
          } else {
            actions := actions + [Exec(RestartCommand)];
            if remote.restart.exitStatus != 0 {
              var message := "Failed to restart Xray: " + remote.restart.stderr;
              assert message[..|"Failed to restart Xray: "|] == "Failed to restart Xray: ";
              assert message[|message| - |remote.restart.stderr|..] == remote.restart.stderr;
              error := Some(RestartFailed(message));
            }
          }
        }
      }
    }
    CloseOnce(actions);
    actions := actions + [Close];
  }
}
