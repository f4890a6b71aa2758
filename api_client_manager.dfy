/** backend/api_client_manager.py: adding, removing and looking up users of a
    running Xray server through its command-line API over SSH.  Each remote
    interaction is an input: whether the SSH connection and the SFTP write
    succeed, and what each `xray api` command returns. */
module ApiClientManager {
  import opened Wrappers
  import opened Text
  import opened JsonValue
  import opened Remote

  const ApiServer := "127.0.0.1:8081"
  const NotFound := "not found"

  // ---------------------------------------------------------------- documents and commands

  /** The document `adu` reads: one VLESS inbound, tagged `reality-in`, with
      the new user as its only client. */
  function UserConfig(uuid: string, username: string): Json {
    JObj(map["inbounds" := JArr([UserInbound(uuid, username)])])
  }

  function UserInbound(uuid: string, username: string): Json {
    JObj(map[
      "tag" := JStr("reality-in"),
      "protocol" := JStr("vless"),
      "listen" := JStr("0.0.0.0"),
      "port" := JInt(443),
      "settings" := JObj(map[
        "decryption" := JStr("none"),
        "clients" := JArr([JObj(map[
          "id" := JStr(uuid), "email" := JStr(username), "flow" := JStr("xtls-rprx-vision")])])])])
  }

  /** The inbound of the user document, and its only client. */
  lemma {:induction false} UserConfigShape(uuid: string, username: string)
    ensures var inbounds := At(Some(UserConfig(uuid, username)), "inbounds");
      var inbound := AtIndex(inbounds, 0);
      && inbounds.Some? && inbounds.value.JArr? && |inbounds.value.items| == 1
      && At(inbound, "tag") == Some(JStr("reality-in"))
      && At(inbound, "port") == Some(JInt(443))
      && At(At(inbound, "settings"), "decryption") == Some(JStr("none"))
      && At(At(inbound, "settings"), "clients") == Some(JArr([JObj(map[
           "id" := JStr(uuid), "email" := JStr(username), "flow" := JStr("xtls-rprx-vision")])]))
  {
    assert AtIndex(At(Some(UserConfig(uuid, username)), "inbounds"), 0) == Some(UserInbound(uuid, username));
  }

  /** Where the user document is written on the host. */
  function TempPath(uuid: string): string {
    "/tmp/user_" + uuid + ".json"
  }

  function AdduCommand(path: string): string {
    "/usr/local/bin/xray api adu --server=" + ApiServer + " " + path
  }

  function RmCommand(path: string): string {
    "rm " + path
  }

  function RmuCommand(username: string): string {
    "/usr/local/bin/xray api rmu --server=" + ApiServer + " -tag=reality-in " + username
  }

  function ListCommand(): string {
    "/usr/local/bin/xray api inbounduser --server=" + ApiServer + " -tag=reality-in"
  }

  function InfoCommand(username: string): string {
    ListCommand() + " -email=" + username
  }

  /** Distinct users get distinct temporary files. */
  lemma {:induction false} TempPathInjective(a: string, b: string)
    requires TempPath(a) == TempPath(b)
    ensures a == b
  {
    var n := |"/tmp/user_"|;
    assert a == TempPath(a)[n..n + |a|];
    assert b == TempPath(b)[n..n + |b|];
  }

  /** `adu` and the clean-up `rm` name exactly the file the document went to. */
  lemma {:induction false} CommandsNameTempPath(uuid: string)
    ensures EndsWith(AdduCommand(TempPath(uuid)), TempPath(uuid))
    ensures EndsWith(RmCommand(TempPath(uuid)), TempPath(uuid))
  {
    var p := TempPath(uuid);
    var a := AdduCommand(p);
    assert a[|a| - |p|..] == p;
    var r := RmCommand(p);
    assert r[|r| - |p|..] == p;
  }

  // ---------------------------------------------------------------- error messages

  function AdduFailure(outcome: CommandOutcome): string {
    "Xray API command failed (exit code " + IntToString(outcome.exitStatus) + "): " + outcome.stderr
  }

  /** The `adu` error gives the exit code back in decimal and ends with stderr. */
  lemma {:induction false} AdduFailureReports(outcome: CommandOutcome)
    ensures var msg := AdduFailure(outcome);
      var code := IntToString(outcome.exitStatus);
      var at := |"Xray API command failed (exit code "|;
      && at + |code| <= |msg| && ParseInt(msg[at..at + |code|]) == Some(outcome.exitStatus)
      && EndsWith(msg, outcome.stderr)
  {
    var msg := AdduFailure(outcome);
    var code := IntToString(outcome.exitStatus);
    var at := |"Xray API command failed (exit code "|;
    assert msg[at..at + |code|] == code;
    ParseIntRoundTrip(outcome.exitStatus);
    assert msg[|msg| - |outcome.stderr|..] == outcome.stderr;
  }

  function RemoveFailure(stderr: string): string {
    "Failed to remove user via API: " + stderr
  }

  function ListFailure(stderr: string): string {
    "Failed to list users via API: " + stderr
  }

  function InfoFailure(stderr: string): string {
    "Failed to get user info via API: " + stderr
  }

  // ---------------------------------------------------------------- add_user_via_api

  /** What the host answers to `add_user_via_api`. */
  datatype AddRemote = AddRemote(connect: Attempt, upload: Attempt, adu: CommandOutcome)

  /** The message `add_user_via_api` raises with when a step fails: that of
      the first step that failed. */
  function AddFailureMessage(remote: AddRemote): string {
    if remote.connect.Fails? then remote.connect.message
    else if remote.upload.Fails? then remote.upload.message
    else AdduFailure(remote.adu)
  }

  /** `add_user_via_api`: connect, write the user document to its temporary
      file, run `adu` on it, remove the file whether `adu` succeeded or not,
      and close the session on every path.  The new id is a parameter. */
  method AddUserViaApi(serverIp: string, username: string, uuid: string, remote: AddRemote)
    returns (r: Result<string, string>, actions: seq<RemoteAction>)
    ensures ClosedOnce(actions) && actions[0] == Connect(serverIp)
    ensures r.Ok? <==> remote.connect.Succeeds? && remote.upload.Succeeds? && remote.adu.exitStatus == 0
    ensures r.Ok? ==> r.value == uuid
    ensures r.Err? ==> r.error == AddFailureMessage(remote)
    ensures remote.connect.Fails? ==> r == Err(remote.connect.message) && actions == [Connect(serverIp), Close]
    ensures remote.connect.Succeeds? && remote.upload.Fails? ==>
      r == Err(remote.upload.message)
      && actions == [Connect(serverIp), Upload(TempPath(uuid), UserConfig(uuid, username)), Close]
    ensures remote.connect.Succeeds? && remote.upload.Succeeds? ==>
      (remote.adu.exitStatus != 0 ==> r == Err(AdduFailure(remote.adu)))
      && actions == [Connect(serverIp), Upload(TempPath(uuid), UserConfig(uuid, username)),
                     Exec(AdduCommand(TempPath(uuid))), Exec(RmCommand(TempPath(uuid))), Close]
    ensures forall i :: 0 <= i < |actions| && actions[i] == Exec(AdduCommand(TempPath(uuid))) ==>
      i + 1 < |actions| && actions[i + 1] == Exec(RmCommand(TempPath(uuid)))
  {
    assert AdduCommand(TempPath(uuid))[0] == '/' && RmCommand(TempPath(uuid))[0] == 'r';
    actions := [Connect(serverIp)];
    if remote.connect.Fails? {
      r := Err(remote.connect.message);
    } else {
      var path := TempPath(uuid);
      actions := actions + [Upload(path, UserConfig(uuid, username))];
      if remote.upload.Fails? {
        r := Err(remote.upload.message);
      } else {
        actions := actions + [Exec(AdduCommand(path))];
        if remote.adu.exitStatus != 0 {
          r := Err(AdduFailure(remote.adu));
        } else {
          r := Ok(uuid);
        }
        actions := actions + [Exec(RmCommand(path))];
      }
    }
    actions := actions + [Close];
  }

  // ---------------------------------------------------------------- remove_user_via_api

  /** What the host answers to `remove_user_via_api`. */
  datatype RemoveRemote = RemoveRemote(connect: Attempt, rmu: CommandOutcome)

  /** The message `remove_user_via_api` raises with when a step fails. */
  function RemoveFailureMessage(remote: RemoveRemote): string {
    if remote.connect.Fails? then remote.connect.message else RemoveFailure(remote.rmu.stderr)
  }

  /** `remove_user_via_api`: connect, run `rmu` for the user, raise with stderr
      on a nonzero exit; the session is closed on every path.  `error` is the
      message of the exception raised, if any. */
  method RemoveUserViaApi(serverIp: string, username: string, remote: RemoveRemote)
    returns (error: Option<string>, actions: seq<RemoteAction>)
    ensures ClosedOnce(actions) && actions[0] == Connect(serverIp)
    ensures error.None? <==> remote.connect.Succeeds? && remote.rmu.exitStatus == 0
    ensures error.Some? ==> error.value == RemoveFailureMessage(remote)
    ensures remote.connect.Fails? ==> error == Some(remote.connect.message) && actions == [Connect(serverIp), Close]
    ensures remote.connect.Succeeds? ==>
      actions == [Connect(serverIp), Exec(RmuCommand(username)), Close]
      && (remote.rmu.exitStatus != 0 ==> error == Some(RemoveFailure(remote.rmu.stderr)))
  {
    actions := [Connect(serverIp)];
    error := None;
    if remote.connect.Fails? {
      error := Some(remote.connect.message);
    } else {
      actions := actions + [Exec(RmuCommand(username))];
      if remote.rmu.exitStatus != 0 {
        error := Some(RemoveFailure(remote.rmu.stderr));
      }
    }
    actions := actions + [Close];
  }

  // ---------------------------------------------------------------- list_users_via_api

  /** The users `list_users_via_api` returns for the stripped stdout of a
      successful `inbounduser`: the list itself, the `users` entry of an
      object, or an empty list for empty output, undecodable output and any
      other document.  `decode` is `json.loads`; None is a JSONDecodeError. */
  function UsersOf(output: string, decode: string -> Option<Json>): (users: Json)
    ensures Strip(output) == [] ==> users == JArr([])
    ensures Strip(output) != [] && decode(Strip(output)).None? ==> users == JArr([])
    ensures Strip(output) != [] && decode(Strip(output)).Some? ==>
      var d := decode(Strip(output)).value;
      && (d.JArr? ==> users == d)
      && (d.JObj? && "users" in d.fields ==> users == d.fields["users"])
      && (!d.JArr? && !(d.JObj? && "users" in d.fields) ==> users == JArr([]))
  {
    var text := Strip(output);
    if text == [] then JArr([])
    else
      match decode(text)
      case None => JArr([])
      case Some(d) =>
        if d.JArr? then d
        else if d.JObj? && "users" in d.fields then d.fields["users"]
        else JArr([])
  }

  /** What the host answers to `list_users_via_api`. */
  datatype ListRemote = ListRemote(connect: Attempt, list: CommandOutcome)

  /** `list_users_via_api`: the users, or the message of the exception raised. */
  method ListUsersViaApi(serverIp: string, remote: ListRemote, decode: string -> Option<Json>)
    returns (r: Result<Json, string>, actions: seq<RemoteAction>)
    ensures ClosedOnce(actions) && actions[0] == Connect(serverIp)
    ensures remote.connect.Fails? ==> r == Err(remote.connect.message) && actions == [Connect(serverIp), Close]
    ensures remote.connect.Succeeds? ==>
      && actions == [Connect(serverIp), Exec(ListCommand()), Close]
      && (remote.list.exitStatus != 0 ==> r == Err(ListFailure(remote.list.stderr)))
      && (remote.list.exitStatus == 0 ==> r == Ok(UsersOf(remote.list.stdout, decode)))
  {
    actions := [Connect(serverIp)];
    if remote.connect.Fails? {
      r := Err(remote.connect.message);
    } else {
      actions := actions + [Exec(ListCommand())];
      if remote.list.exitStatus != 0 {
        r := Err(ListFailure(remote.list.stderr));
      } else {
        r := Ok(UsersOf(remote.list.stdout, decode));
      }
    }
    actions := actions + [Close];
  }

  // ---------------------------------------------------------------- get_user_info_via_api

  /** The outcome of `inbounduser -email=<user>`: the decoded user document
      (JNull is Python's None), or the message of the exception raised.  A
      failure whose stderr says "not found", in any letter case, is None. */
  function UserInfoOf(outcome: CommandOutcome, decode: string -> Option<Json>): (r: Result<Json, string>)
    ensures outcome.exitStatus != 0 ==>
      (Contains(Lower(outcome.stderr), NotFound) ==> r == Ok(JNull))
      && (!Contains(Lower(outcome.stderr), NotFound) ==> r == Err(InfoFailure(outcome.stderr)))
    ensures outcome.exitStatus == 0 ==>
      var text := Strip(outcome.stdout);
      && (text == [] || decode(text).None? ==> r == Ok(JNull))
      && (text != [] && decode(text).Some? ==> r == Ok(decode(text).value))
  {
    if outcome.exitStatus != 0 then
      if Contains(Lower(outcome.stderr), NotFound) then Ok(JNull) else Err(InfoFailure(outcome.stderr))
    else
      var text := Strip(outcome.stdout);
      if text == [] then Ok(JNull)
      else
        match decode(text)
        case None => Ok(JNull)
        case Some(d) => Ok(d)
  }

  /** A failed query whose stderr carries "not found" in any letter case,
      anywhere in the text, gives None whatever stdout holds. */
  lemma {:induction false} NotFoundInAnyCase(exitStatus: int, stdout: string, before: string, found: string,
                                             after: string, decode: string -> Option<Json>)
    requires exitStatus != 0 && Lower(found) == NotFound
    ensures UserInfoOf(CommandOutcome(exitStatus, stdout, before + found + after), decode) == Ok(JNull)
  {
    LowerAppend(before + found, after);
    LowerAppend(before, found);
    ContainsMiddle(Lower(before), NotFound, Lower(after));
  }

  /** What the host answers to `get_user_info_via_api`. */
  datatype InfoRemote = InfoRemote(connect: Attempt, info: CommandOutcome)

  /** `get_user_info_via_api`: connect, ask for the user, close on every path. */
  method GetUserInfoViaApi(serverIp: string, username: string, remote: InfoRemote, decode: string -> Option<Json>)
    returns (r: Result<Json, string>, actions: seq<RemoteAction>)
    ensures ClosedOnce(actions) && actions[0] == Connect(serverIp)
    ensures remote.connect.Fails? ==> r == Err(remote.connect.message) && actions == [Connect(serverIp), Close]
    ensures remote.connect.Succeeds? ==>
      r == UserInfoOf(remote.info, decode) && actions == [Connect(serverIp), Exec(InfoCommand(username)), Close]
  {
    actions := [Connect(serverIp)];
    if remote.connect.Fails? {
      r := Err(remote.connect.message);
    } else {
      actions := actions + [Exec(InfoCommand(username))];
      r := UserInfoOf(remote.info, decode);
    }
    actions := actions + [Close];
  }
}
