/** backend/traffic_parser.py: per-user traffic figures read from the Xray
    statistics API over SSH.  Every user of a server has two counters, uplink
    and downlink; each is read with one `xray api stats` command, whose outcome
    is an input (`stats` answers each command line). */
module TrafficParser {
  import opened Wrappers
  import opened Text
  import opened JsonValue
  import opened Remote
  import opened Registry

  const XrayBin := "/usr/local/bin/xray"
  const ApiServer := "127.0.0.1:8081"

  const Uplink := "uplink"
  const Downlink := "downlink"

  /** The two directions, in the order the loops visit them. */
  function Direction(d: nat): string {
    if d == 0 then Uplink else Downlink
  }

  /** The statistics counter of one user and direction. */
  function CounterName(username: string, direction: string): string {
    "user>>>" + username + ">>>traffic>>>" + direction
  }

  lemma {:induction false} CounterNameShape(username: string, direction: string)
    ensures StartsWith(CounterName(username, direction), "user>>>" + username + ">>>")
    ensures EndsWith(CounterName(username, direction), ">>>traffic>>>" + direction)
  {
    var name := CounterName(username, direction);
    var head := "user>>>" + username + ">>>";
    assert name == head + "traffic>>>" + direction;
    assert name[..|head|] == head;
    assert name == "user>>>" + username + (">>>traffic>>>" + direction);
    assert name[|name| - |">>>traffic>>>" + direction|..] == ">>>traffic>>>" + direction;
  }

  function ResetFlag(reset: bool): string {
    if reset then "-reset=true" else "-reset=false"
  }

  /** `_run_stat`'s command line; the name is single-quoted for the shell. */
  function StatCommand(name: string, reset: bool): string {
    XrayBin + " api stats --server=" + ApiServer + " -name '" + name + "' " + ResetFlag(reset)
  }

  /** A query reads the counter without clearing it; a reset clears it. */
  lemma {:induction false} StatCommandFlag(name: string, reset: bool)
    ensures EndsWith(StatCommand(name, reset), if reset then "-reset=true" else "-reset=false")
    ensures Contains(StatCommand(name, reset), "'" + name + "'")
  {
    var c := StatCommand(name, reset);
    var flag := ResetFlag(reset);
    assert c[|c| - |flag|..] == flag;
    var head := XrayBin + " api stats --server=" + ApiServer + " -name ";
    assert c == head + ("'" + name + "'") + (" " + flag);
    ContainsMiddle(head, "'" + name + "'", " " + flag);
  }

  // ---------------------------------------------------------------- _run_stat

  /** What `_run_stat` gives back: an integer, or a TypeError, which the
      function does not catch. */
  datatype Stat = Counted(value: int) | TypeError

  /** Python's `doc[key]` for a string key. */
  datatype Lookup = Found(v: Json) | KeyError | NotSubscriptable

  function Subscript(doc: Json, key: string): (r: Lookup)
    ensures r.Found? <==> doc.JObj? && key in doc.fields
    ensures r == NotSubscriptable <==> !doc.JObj?
    ensures r.Found? ==> r.v == doc.fields[key]
  {
    match doc
    case JObj(fields) => if key in fields then Found(fields[key]) else KeyError
    case _ => NotSubscriptable
  }

  /** Python's `int(v)` on a decoded JSON value: integers and booleans
      convert, a string is parsed (ValueError when it is not an integer),
      anything else is a TypeError. */
  function IntOf(v: Json): (r: Option<Stat>)
    ensures v.JInt? ==> r == Some(Counted(v.i))
    ensures v.JStr? ==> (r.None? <==> ParseInt(v.s).None?)
    ensures v.JStr? && ParseInt(v.s).Some? ==> r == Some(Counted(ParseInt(v.s).value))
    ensures v.JBool? ==> r == Some(Counted(if v.b then 1 else 0))
    ensures v.JNull? || v.JArr? || v.JObj? ==> r == Some(TypeError)
  {
    match v
    case JInt(i) => Some(Counted(i))
    case JBool(b) => Some(Counted(if b then 1 else 0))
    case JStr(s) => (match ParseInt(s) case None => None case Some(n) => Some(Counted(n)))
    case _ => Some(TypeError)
  }

  /** `int(data["stat"]["value"])` for a decoded document, with 0 for a
      missing key or a value `int` refuses; indexing something that is not
      an object raises a TypeError. */
  function StatOf(data: Json): (r: Stat)
    ensures !data.JObj? ==> r == TypeError
    ensures data.JObj? && "stat" !in data.fields ==> r == Counted(0)
    ensures data.JObj? && "stat" in data.fields && !data.fields["stat"].JObj? ==> r == TypeError
    ensures data.JObj? && "stat" in data.fields && data.fields["stat"].JObj? ==>
              var stat := data.fields["stat"].fields;
              && ("value" !in stat ==> r == Counted(0))
              && ("value" in stat && IntOf(stat["value"]).None? ==> r == Counted(0))
              && ("value" in stat && IntOf(stat["value"]).Some? ==> r == IntOf(stat["value"]).value)
  {
    match Subscript(data, "stat")
    case KeyError => Counted(0)
    case NotSubscriptable => TypeError
    case Found(stat) =>
      match Subscript(stat, "value")
      case KeyError => Counted(0)
      case NotSubscriptable => TypeError
      case Found(v) => match IntOf(v) case None => Counted(0) case Some(n) => n
  }

  /** `_run_stat`: 0 when the command fails; otherwise the figure of the
      decoded stdout, with 0 for undecodable output (`decode` is
      `json.loads`; None is a JSONDecodeError). */
  function RunStat(outcome: CommandOutcome, decode: string -> Option<Json>): (r: Stat)
    ensures outcome.exitStatus != 0 ==> r == Counted(0)
    ensures outcome.exitStatus == 0 && decode(Strip(outcome.stdout)).None? ==> r == Counted(0)
    ensures outcome.exitStatus == 0 && decode(Strip(outcome.stdout)).Some? ==>
              r == StatOf(decode(Strip(outcome.stdout)).value)
  {
    if outcome.exitStatus != 0 then Counted(0)
    else
      match decode(Strip(outcome.stdout))
      case None => Counted(0)
      case Some(data) => StatOf(data)
  }

  /** The document Xray prints for a counter. */
  function StatDocument(name: string, value: Json): Json {
    JObj(map["stat" := JObj(map["name" := JStr(name), "value" := value])])
  }

  /** The counter document's value is read back, whether it is printed as a
      number or as a decimal string. */
  lemma {:induction false} StatOfDocument(name: string, n: int, asText: bool)
    ensures StatOf(StatDocument(name, if asText then JStr(IntToString(n)) else JInt(n))) == Counted(n)
  {
    var v := if asText then JStr(IntToString(n)) else JInt(n);
    var stat := JObj(map["name" := JStr(name), "value" := v]);
    assert Subscript(StatDocument(name, v), "stat") == Found(stat);
    assert Subscript(stat, "value") == Found(v);
    if asText {
      ParseIntRoundTrip(n);
    }
    assert IntOf(v) == Some(Counted(n));
  }

  /** A successful read of `{"stat": {"name": ..., "value": n}}` gives `n`. */
  lemma {:induction false} RunStatReadsValue(name: string, n: int, stdout: string, stderr: string,
                                             decode: string -> Option<Json>, asText: bool)
    requires decode(Strip(stdout)) == Some(StatDocument(name, if asText then JStr(IntToString(n)) else JInt(n)))
    ensures RunStat(CommandOutcome(0, stdout, stderr), decode) == Counted(n)
  {
    StatOfDocument(name, n, asText);
  }

  // ---------------------------------------------------------------- the counters, in order

  /** What the host answers while the counters are read. */
  datatype TrafficRemote = TrafficRemote(connect: Attempt, stats: string -> CommandOutcome)

  /** The command `_run_stat` issues for one user's counter; direction 0 is
      the uplink, 1 the downlink. */
  function Command(reset: bool): (string, nat) -> string {
    (username: string, d: nat) => StatCommand(CounterName(username, Direction(d)), reset)
  }

  /** `_run_stat` on one user's counter, as the loops call it. */
  function Reader(remote: TrafficRemote, decode: string -> Option<Json>, reset: bool): (string, nat) -> Stat {
    (username: string, d: nat) => RunStat(remote.stats(StatCommand(CounterName(username, Direction(d)), reset)), decode)
  }

  /** The running totals per user; a user's entry starts at zero the first
      time one of its counters is added (the `defaultdict`). */
  datatype Usage = Usage(up: int, down: int)

  function AddStat(traffic: map<string, Usage>, username: string, d: nat, value: int): map<string, Usage>
  {
    var cur := if username in traffic then traffic[username] else Usage(0, 0);
    traffic[username := if d == 0 then Usage(cur.up + value, cur.down) else Usage(cur.up, cur.down + value)]
  }

  /** The totals after the first `n` users (uplink, then downlink), or None
      once one of their counters raised. */
  function Tally(names: seq<string>, read: (string, nat) -> Stat, n: nat): Option<map<string, Usage>>
    requires n <= |names|
  {
    if n == 0 then Some(map[])
    else
      var w := names[n - 1];
      match Tally(names, read, n - 1)
      case None => None
      case Some(traffic) =>
        match read(w, 0)
        case TypeError => None
        case Counted(up) =>
          match read(w, 1)
          case TypeError => None
          case Counted(down) => Some(AddStat(AddStat(traffic, w, 0, up), w, 1, down))
  }

  /** The commands issued for the first `n` users, two per user. */
  function Issued(names: seq<string>, command: (string, nat) -> string, n: nat): (cmds: seq<RemoteAction>)
    requires n <= |names|
    ensures |cmds| == 2 * n
    ensures forall j :: 0 <= j < |cmds| ==> cmds[j].Exec?
  {
    if n == 0 then []
    else Issued(names, command, n - 1) + [Exec(command(names[n - 1], 0)), Exec(command(names[n - 1], 1))]
  }

  lemma {:induction false} TallyStaysNone(names: seq<string>, read: (string, nat) -> Stat, k: nat, n: nat)
    requires k <= n <= |names| && Tally(names, read, k).None?
    ensures Tally(names, read, n).None?
    decreases n - k
  {
    if k < n {
      TallyStaysNone(names, read, k + 1, n);
    }
  }

  /** How often `u` occurs among the first `n` names. */
  function Occurrences(names: seq<string>, n: nat, u: string): nat
    requires n <= |names|
  {
    if n == 0 then 0 else Occurrences(names, n - 1, u) + (if names[n - 1] == u then 1 else 0)
  }

  lemma OneMore(k: int, x: int)
    ensures (k + 1) * x == k * x + x
  {
  }

  lemma {:induction false} OccurrencesZero(names: seq<string>, n: nat, u: string)
    requires n <= |names|
    ensures Occurrences(names, n, u) == 0 <==> u !in names[..n]
  {
    if n > 0 {
      OccurrencesZero(names, n - 1, u);
      assert names[..n] == names[..n - 1] + [names[n - 1]];
    }
  }

  /** After the first `n` users, `u` has an entry exactly when it is one of
      them, and then its totals are its uplink and downlink values, once per
      occurrence. */
  lemma {:induction false} TallyCounts(names: seq<string>, read: (string, nat) -> Stat, n: nat, u: string)
    requires n <= |names| && Tally(names, read, n).Some?
    ensures var traffic := Tally(names, read, n).value;
      && (u in traffic <==> u in names[..n])
      && (u in traffic ==>
            && read(u, 0).Counted? && read(u, 1).Counted?
            && traffic[u] == Usage(Occurrences(names, n, u) * read(u, 0).value,
                                   Occurrences(names, n, u) * read(u, 1).value))
  {
    if n > 0 {
      var w := names[n - 1];
      var t := Tally(names, read, n - 1).value;
      var up, down := read(w, 0).value, read(w, 1).value;
      var traffic := AddStat(AddStat(t, w, 0, up), w, 1, down);
      assert Tally(names, read, n).value == traffic;
      TallyCounts(names, read, n - 1, u);
      assert names[..n] == names[..n - 1] + [w];
      var k := Occurrences(names, n - 1, u);
      if w == u {
        var cur := if u in t then t[u] else Usage(0, 0);
        OccurrencesZero(names, n - 1, u);
        assert cur == Usage(k * up, k * down);
        assert traffic[u] == Usage(k * up + up, k * down + down);
        OneMore(k, up);
        OneMore(k, down);
        assert Occurrences(names, n, u) == k + 1;
      } else if u in traffic {
        assert traffic[u] == t[u] && Occurrences(names, n, u) == k;
      }
    }
  }

  /** The whole table: the keys are exactly the server's users, and each
      user's totals are its counter values once per occurrence of the user. */
  lemma {:induction false} TallyTable(names: seq<string>, read: (string, nat) -> Stat)
    requires Tally(names, read, |names|).Some?
    ensures var traffic := Tally(names, read, |names|).value;
      forall u :: && (u in traffic <==> u in names)
                  && (u in traffic ==>
                        && read(u, 0).Counted? && read(u, 1).Counted?
                        && traffic[u] == Usage(Occurrences(names, |names|, u) * read(u, 0).value,
                                               Occurrences(names, |names|, u) * read(u, 1).value))
  {
    assert names[..|names|] == names;
    forall u {
      TallyCounts(names, read, |names|, u);
    }
  }

  // ---------------------------------------------------------------- the registry

  /** `_get_usernames_for_server`: the usernames of the clients of the first
      server with that address, or none when there is no such server. */
  function UsernamesForServer(servers: seq<ServerRow>, clients: seq<ClientRow>, serverIp: string): (names: seq<string>)
    ensures ServerByIp(servers, serverIp).Some? ==> names == UsernamesOf(clients, ServerByIp(servers, serverIp).value.id)
    ensures (forall s :: s in servers ==> s.serverIp != serverIp) ==> names == []
    ensures forall u :: u in names ==>
      exists c, s :: c in clients && s in servers && s.serverIp == serverIp && c.serverId == s.id && c.username == u
  {
    match ServerByIp(servers, serverIp)
    case None => []
    case Some(server) => UsernamesOf(clients, server.id)
  }

  // ---------------------------------------------------------------- the two entry points

  /** What leaves `get_traffic_usage` or `reset_traffic_usage` as an exception. */
  datatype Raised = ConnectError(message: string) | CounterTypeError

  /** The inner loop: read one user's uplink, then downlink counter, adding
      each to the totals, and stop at a TypeError; `dir` is the counter that
      raised. */
  method ReadUser(w: string, read: (string, nat) -> Stat, command: (string, nat) -> string,
                  traffic0: map<string, Usage>, actions0: seq<RemoteAction>)
    returns (ok: bool, traffic: map<string, Usage>, actions: seq<RemoteAction>, dir: nat)
    ensures ok <==> read(w, 0).Counted? && read(w, 1).Counted?
    ensures ok ==>
              && traffic == AddStat(AddStat(traffic0, w, 0, read(w, 0).value), w, 1, read(w, 1).value)
              && actions == actions0 + [Exec(command(w, 0)), Exec(command(w, 1))]
    ensures !ok ==>
              && dir < 2 && (dir == 1 ==> read(w, 0).Counted?) && read(w, dir).TypeError?
              && actions == actions0 + [Exec(command(w, 0))] + (if dir == 1 then [Exec(command(w, 1))] else [])
  {
    traffic, actions, dir := traffic0, actions0, 0;
    for d := 0 to 2
      invariant d == 0 ==> traffic == traffic0 && actions == actions0
      invariant d == 1 ==> read(w, 0).Counted? && traffic == AddStat(traffic0, w, 0, read(w, 0).value)
                           && actions == actions0 + [Exec(command(w, 0))]
      invariant d == 2 ==> read(w, 0).Counted? && read(w, 1).Counted?
                           && traffic == AddStat(AddStat(traffic0, w, 0, read(w, 0).value), w, 1, read(w, 1).value)
                           && actions == actions0 + [Exec(command(w, 0)), Exec(command(w, 1))]
    {
      actions := actions + [Exec(command(w, d))];
      var value := read(w, d);
      if value.TypeError? {
        return false, traffic, actions, d;
      }
      traffic := AddStat(traffic, w, d, value.value);
    }
    ok := true;
  }

  /** The nested loops shared by both entry points: read both counters of
      every user in order, stop at the first TypeError, and keep the totals.
      On a TypeError, `user` and `dir` say which counter raised. */
  method ReadCounters(names: seq<string>, read: (string, nat) -> Stat, command: (string, nat) -> string,
                      actions0: seq<RemoteAction>)
    returns (r: Result<map<string, Usage>, Raised>, actions: seq<RemoteAction>, user: nat, dir: nat)
    ensures r.Ok? <==> Tally(names, read, |names|).Some?
    ensures r.Ok? ==> Some(r.value) == Tally(names, read, |names|) && actions == actions0 + Issued(names, command, |names|)
    ensures r.Err? ==>
              && r.error == CounterTypeError && user < |names| && dir < 2
              && Tally(names, read, user).Some?
              && (dir == 1 ==> read(names[user], 0).Counted?)
              && read(names[user], dir).TypeError?
              && actions == actions0 + Issued(names, command, user) + [Exec(command(names[user], 0))]
                            + (if dir == 1 then [Exec(command(names[user], 1))] else [])
  {
    actions, user, dir := actions0, 0, 0;
    var traffic: map<string, Usage> := map[];
    for i := 0 to |names|
      invariant Tally(names, read, i) == Some(traffic)
      invariant actions == actions0 + Issued(names, command, i)
    {
      var ok;
      ok, traffic, actions, dir := ReadUser(names[i], read, command, traffic, actions);
      if !ok {
        TallyStaysNone(names, read, i + 1, |names|);
        return Err(CounterTypeError), actions, i, dir;
      }
    }
    r := Ok(traffic);
  }

  /** The `try`/`finally` both entry points share: connect, read every
      counter, and close the session on every path. */
  method ReadSession(names: seq<string>, serverIp: string, connect: Attempt,
                     read: (string, nat) -> Stat, command: (string, nat) -> string)
    returns (r: Result<map<string, Usage>, Raised>, actions: seq<RemoteAction>)
    ensures ClosedOnce(actions) && actions[0] == Connect(serverIp)
    ensures connect.Fails? ==> r == Err(ConnectError(connect.message)) && actions == [Connect(serverIp), Close]
    ensures connect.Succeeds? ==>
              && (r.Ok? <==> Tally(names, read, |names|).Some?)
              && (r.Ok? ==> Some(r.value) == Tally(names, read, |names|)
                            && actions == [Connect(serverIp)] + Issued(names, command, |names|) + [Close])
              && (r.Err? ==> r.error == CounterTypeError)
  {
    actions := [Connect(serverIp)];
    if connect.Fails? {
      r := Err(ConnectError(connect.message));
    } else {
      var user, dir;
      r, actions, user, dir := ReadCounters(names, read, command, actions);
      assert actions[0] == Connect(serverIp);
    }
    CloseOnce(actions);
    actions := actions + [Close];
  }

  /** `get_traffic_usage`: no users, no connection and an empty table;
      otherwise connect, read both counters of every user without resetting
      them, add them up per user, and close the session on every path. */
  method GetTrafficUsage(db: Database, serverIp: string, remote: TrafficRemote, decode: string -> Option<Json>)
    returns (r: Result<map<string, Usage>, Raised>, actions: seq<RemoteAction>)
    ensures var names := UsernamesForServer(db.servers, db.clients, serverIp);
      && (names == [] ==> r == Ok(map[]) && actions == [])
      && (names != [] ==> ClosedOnce(actions) && actions[0] == Connect(serverIp))
      && (names != [] && remote.connect.Fails? ==>
            r == Err(ConnectError(remote.connect.message)) && actions == [Connect(serverIp), Close])
      && (names != [] && remote.connect.Succeeds? ==>
            && (r.Ok? <==> Tally(names, Reader(remote, decode, false), |names|).Some?)
            && (r.Ok? ==> Some(r.value) == Tally(names, Reader(remote, decode, false), |names|)
                          && actions == [Connect(serverIp)] + Issued(names, Command(false), |names|) + [Close])
            && (r.Err? ==> r.error == CounterTypeError))
  {
    var names := UsernamesForServer(db.servers, db.clients, serverIp);
    if names == [] {
      return Ok(map[]), [];
    }
    r, actions := ReadSession(names, serverIp, remote.connect, Reader(remote, decode, false), Command(false));
  }

  /** `reset_traffic_usage`: False without users; otherwise connect, read
      every counter of every user with `-reset=true`, and report True. */
  method ResetTrafficUsage(db: Database, serverIp: string, remote: TrafficRemote, decode: string -> Option<Json>)
    returns (r: Result<bool, Raised>, actions: seq<RemoteAction>)
    ensures var names := UsernamesForServer(db.servers, db.clients, serverIp);
      && (names == [] ==> r == Ok(false) && actions == [])
      && (names != [] ==> ClosedOnce(actions) && actions[0] == Connect(serverIp))
      && (names != [] && remote.connect.Fails? ==>
            r == Err(ConnectError(remote.connect.message)) && actions == [Connect(serverIp), Close])
      && (names != [] && remote.connect.Succeeds? ==>
            && (r.Ok? <==> Tally(names, Reader(remote, decode, true), |names|).Some?)
            && (r.Ok? ==> r.value && actions == [Connect(serverIp)] + Issued(names, Command(true), |names|) + [Close])
            && (r.Err? ==> r.error == CounterTypeError))
  {
    var names := UsernamesForServer(db.servers, db.clients, serverIp);
    if names == [] {
      return Ok(false), [];
    }
    var counted;
    counted, actions := ReadSession(names, serverIp, remote.connect, Reader(remote, decode, true), Command(true));
    r := if counted.Ok? then Ok(true) else Err(counted.error);
  }

  /** User `i`'s two commands come at positions `2i` and `2i + 1`. */
  lemma {:induction false} IssuedAt(names: seq<string>, command: (string, nat) -> string, n: nat, i: nat)
    requires i < n <= |names|
    ensures Issued(names, command, n)[2 * i] == Exec(command(names[i], 0))
    ensures Issued(names, command, n)[2 * i + 1] == Exec(command(names[i], 1))
    decreases n
  {
    if i < n - 1 {
      IssuedAt(names, command, n - 1, i);
    }
  }

  /** Every command a reset issues clears its counter, and every command a
      query issues leaves it alone. */
  lemma {:induction false} IssuedFlags(names: seq<string>, reset: bool, n: nat, i: nat)
    requires i < n <= |names|
    ensures Issued(names, Command(reset), n)[2 * i] == Exec(StatCommand(CounterName(names[i], Uplink), reset))
    ensures Issued(names, Command(reset), n)[2 * i + 1] == Exec(StatCommand(CounterName(names[i], Downlink), reset))
    ensures EndsWith(Issued(names, Command(reset), n)[2 * i].command, if reset then "-reset=true" else "-reset=false")
    ensures EndsWith(Issued(names, Command(reset), n)[2 * i + 1].command, if reset then "-reset=true" else "-reset=false")
  {
    IssuedAt(names, Command(reset), n, i);
    StatCommandFlag(CounterName(names[i], Uplink), reset);
    StatCommandFlag(CounterName(names[i], Downlink), reset);
  }
}
