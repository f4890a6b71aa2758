/** backend/proxy_creator.py: the provisioning stream.  `create_proxy_stream`
    connects to the host, installs Xray, generates a key pair, uploads a fixed
    configuration, restarts the service, has the endpoint probed, records the
    server in the registry and hands back a connection link, emitting a
    progress token before and after every step and exactly one final token. */
module ProxyCreator {
  import opened Wrappers
  import opened Text
  import opened JsonValue
  import opened Remote
  import opened Registry

  // ---------------------------------------------------------------- constants

  const CurlCommand := "command -v curl >/dev/null 2>&1 || (apt-get update && apt-get install -y curl)"
  const InstallCommand := "bash -c \"$(curl -L https://github.com/XTLS/Xray-install/raw/main/install-release.sh)\" @ install"
  const KeygenCommand := "/usr/local/bin/xray x25519"
  const ConfigPath := "/usr/local/etc/xray/config.json"
  const RestartCommand := "systemctl restart xray"
  const StatusCommand := "systemctl status xray"

  const PrivateMarker := "Private key:"
  const PublicMarker := "Public key:"

  const KeysMissing := "Failed to generate keys"
  const VerificationFailed := "Proxy verification failed. The server may not be reachable or is misconfigured."

  /** The progress steps, in the order the stream reports them. */
  const Steps: seq<string> := ["connect", "install", "keys", "config", "verify", "done"]

  // ---------------------------------------------------------------- execute_command

  /** `execute_command`: the command's stdout when it exits with 0; otherwise
      the message of the exception it raises. */
  function ExecuteCommand(command: string, outcome: CommandOutcome): (r: Result<string, string>)
    ensures r.Ok? <==> outcome.exitStatus == 0
    ensures r.Ok? ==> r.value == outcome.stdout
  {
    if outcome.exitStatus != 0 then
      var quoted := "'" + command + "'";
      var status := " " + IntToString(outcome.exitStatus) + ": ";
      Err("Command " + quoted + " failed with exit status" + status + outcome.stderr)
    else
      Ok(outcome.stdout)
  }

  /** The exception names the command, its exit status and what it wrote to stderr. */
  lemma {:induction false} ExecuteCommandReports(command: string, outcome: CommandOutcome)
    requires outcome.exitStatus != 0
    ensures var msg := ExecuteCommand(command, outcome).error;
      Contains(msg, "'" + command + "'")
      && Contains(msg, " " + IntToString(outcome.exitStatus) + ": ")
      && EndsWith(msg, outcome.stderr)
  {
    var quoted := "'" + command + "'";
    var status := " " + IntToString(outcome.exitStatus) + ": ";
    var front := "Command " + quoted + " failed with exit status";
    var msg := ExecuteCommand(command, outcome).error;
    assert msg == front + status + outcome.stderr;
    ContainsMiddle("Command ", quoted, " failed with exit status");
    ContainsBefore(front, status, quoted);
    ContainsBefore(front + status, outcome.stderr, quoted);
    ContainsMiddle(front, status, outcome.stderr);
    assert msg[|msg| - |outcome.stderr|..] == outcome.stderr;
  }

  // ---------------------------------------------------------------- key extraction

  datatype KeyPair = KeyPair(privateKey: string, publicKey: string)

  /** The key a marked line carries: `line.split(marker)[1].strip()`. */
  function KeyOfLine(line: string, marker: string): string
    requires marker == PrivateMarker || marker == PublicMarker
    requires Contains(line, marker)
  {
    Strip(SplitSecond(line, marker))
  }

  /** One pass of the scanning loop's body: a line may set either key, or both. */
  function ScanLine(keys: KeyPair, line: string): KeyPair {
    var afterPrivate :=
      if Contains(line, PrivateMarker) then keys.(privateKey := KeyOfLine(line, PrivateMarker)) else keys;
    if Contains(line, PublicMarker) then afterPrivate.(publicKey := KeyOfLine(line, PublicMarker))
    else afterPrivate
  }

  /** The keys after the loop has seen `lines`, starting from two empty strings. */
  function ScanLines(lines: seq<string>): KeyPair
    decreases |lines|
  {
    if lines == [] then KeyPair("", "")
    else ScanLine(ScanLines(lines[..|lines| - 1]), lines[|lines| - 1])
  }

  /** The key pair read from the output of `xray x25519`. */
  function KeysOf(output: string): KeyPair {
    ScanLines(SplitLines(output))
  }

  lemma {:induction false} ScanStep(lines: seq<string>, i: nat)
    requires i < |lines|
    ensures ScanLines(lines[..i + 1]) == ScanLine(ScanLines(lines[..i]), lines[i])
  {
    assert lines[..i + 1][..i] == lines[..i];
  }

  /** The scanning loop over `private_key_output.splitlines()`. */
  method ExtractKeys(output: string) returns (keys: KeyPair)
    ensures keys == KeysOf(output)
  {
    var lines := SplitLines(output);
    var privateKey, publicKey := "", "";
    for i := 0 to |lines|
      invariant KeyPair(privateKey, publicKey) == ScanLines(lines[..i])
    {
      var line := lines[i];
      if Contains(line, PrivateMarker) {
        privateKey := Strip(SplitSecond(line, PrivateMarker));
      }
      if Contains(line, PublicMarker) {
        publicKey := Strip(SplitSecond(line, PublicMarker));
      }
      ScanStep(lines, i);
    }
    assert lines[..|lines|] == lines;
    keys := KeyPair(privateKey, publicKey);
  }

  function Marker(isPrivate: bool): string {
    if isPrivate then PrivateMarker else PublicMarker
  }

  function Pick(keys: KeyPair, isPrivate: bool): string {
    if isPrivate then keys.privateKey else keys.publicKey
  }

  /** One line changes a key only if it carries that key's marker. */
  lemma {:induction false} ScanLinePick(keys: KeyPair, line: string, isPrivate: bool)
    ensures Pick(ScanLine(keys, line), isPrivate) ==
      if Contains(line, Marker(isPrivate)) then KeyOfLine(line, Marker(isPrivate)) else Pick(keys, isPrivate)
  {
  }

  /** The last line carrying a marker decides that key; earlier ones are overwritten
      and lines without it do not matter. */
  lemma {:induction false} LastMarkedLineWins(lines: seq<string>, j: nat, isPrivate: bool)
    requires j < |lines| && Contains(lines[j], Marker(isPrivate))
    requires forall k :: j < k < |lines| ==> !Contains(lines[k], Marker(isPrivate))
    ensures Pick(ScanLines(lines), isPrivate) == KeyOfLine(lines[j], Marker(isPrivate))
    decreases |lines|
  {
    var n := |lines| - 1;
    var front := lines[..n];
    assert ScanLines(lines) == ScanLine(ScanLines(front), lines[n]);
    ScanLinePick(ScanLines(front), lines[n], isPrivate);
    if j < n {
      assert front[j] == lines[j];
      assert forall k :: j < k < |front| ==> front[k] == lines[k];
      LastMarkedLineWins(front, j, isPrivate);
      assert !Contains(lines[n], Marker(isPrivate));
      assert Pick(ScanLines(lines), isPrivate) == Pick(ScanLines(front), isPrivate);
    } else {
      assert j == n;
      assert Pick(ScanLines(lines), isPrivate) == KeyOfLine(lines[n], Marker(isPrivate));
    }
  }

  /** Without a marked line the key stays empty. */
  lemma {:induction false} UnmarkedLinesLeaveKeyEmpty(lines: seq<string>, isPrivate: bool)
    requires forall k :: 0 <= k < |lines| ==> !Contains(lines[k], Marker(isPrivate))
    ensures Pick(ScanLines(lines), isPrivate) == ""
    decreases |lines|
  {
    if lines != [] {
      var n := |lines| - 1;
      var front := lines[..n];
      assert forall k :: 0 <= k < |front| ==> front[k] == lines[k];
      ScanLinePick(ScanLines(front), lines[n], isPrivate);
      UnmarkedLinesLeaveKeyEmpty(front, isPrivate);
      assert !Contains(lines[n], Marker(isPrivate));
      assert Pick(ScanLines(lines), isPrivate) == Pick(ScanLines(front), isPrivate);
    }
  }

  /** The private-key line and the public-key line may come in either order. */
  lemma {:induction false} KeyLinesInEitherOrder(p: string, q: string)
    requires p != [] && q != [] && NoLineBreak(p) && NoLineBreak(q)
    requires Contains(p, PrivateMarker) && !Contains(p, PublicMarker)
    requires Contains(q, PublicMarker) && !Contains(q, PrivateMarker)
    ensures KeysOf(p + "\n" + q) == KeyPair(KeyOfLine(p, PrivateMarker), KeyOfLine(q, PublicMarker))
    ensures KeysOf(q + "\n" + p) == KeysOf(p + "\n" + q)
  {
    var empty := KeyPair("", "");
    SplitLinesTwo(p, q);
    SplitLinesTwo(q, p);
    assert [p, q][..1] == [p] && [q, p][..1] == [q];
    assert ScanLines([p]) == ScanLine(empty, p) && ScanLines([q]) == ScanLine(empty, q);
    assert ScanLine(empty, p) == KeyPair(KeyOfLine(p, PrivateMarker), "");
    assert ScanLine(empty, q) == KeyPair("", KeyOfLine(q, PublicMarker));
  }

  // ---------------------------------------------------------------- configuration

  /** The document written to `ConfigPath`. */
  function BuildConfig(uuid: string, maskDomain: string, privateKey: string): Json {
    JObj(map[
      "log" := JObj(map["loglevel" := JStr("info")]),
      "inbounds" := JArr([InboundObject(uuid, maskDomain, privateKey)]),
      "outbounds" := JArr([
        JObj(map["protocol" := JStr("freedom"), "tag" := JStr("direct")]),
        JObj(map["protocol" := JStr("blackhole"), "tag" := JStr("block")])]),
      "routing" := JObj(map[
        "rules" := JArr([JObj(map[
          "type" := JStr("field"), "protocol" := JStr("bittorrent"), "outboundTag" := JStr("block")])]),
        "domainStrategy" := JStr("IPIfNonMatch")])])
  }

  /** The one inbound of the configuration. */
  function InboundObject(uuid: string, maskDomain: string, privateKey: string): Json {
    JObj(map[
      "listen" := JStr("0.0.0.0"),
      "port" := JInt(443),
      "protocol" := JStr("vless"),
      "tag" := JStr("reality-in"),
      "settings" := JObj(map[
        "clients" := JArr([JObj(map[
          "id" := JStr(uuid), "email" := JStr("user1"), "flow" := JStr("xtls-rprx-vision")])]),
        "decryption" := JStr("none")]),
      "streamSettings" := JObj(map[
        "network" := JStr("tcp"),
        "security" := JStr("reality"),
        "realitySettings" := RealityObject(maskDomain, privateKey)]),
      "sniffing" := JObj(map[
        "enabled" := JBool(true),
        "destOverride" := JArr([JStr("http"), JStr("tls"), JStr("quic")])])])
  }

  /** The REALITY block of the inbound's stream settings. */
  function RealityObject(maskDomain: string, privateKey: string): Json {
    JObj(map[
      "show" := JBool(false),
      "dest" := JStr(maskDomain + ":443"),
      "xver" := JInt(0),
      "serverNames" := JArr([JStr(maskDomain)]),
      "privateKey" := JStr(privateKey),
      "minClientVer" := JStr(""),
      "maxClientVer" := JStr(""),
      "maxTimeDiff" := JInt(0),
      "shortIds" := JArr([JStr("")])])
  }

  function Inbound(doc: Json, i: nat): Option<Json> {
    AtIndex(At(Some(doc), "inbounds"), i)
  }

  function RealitySettings(doc: Json): Option<Json> {
    At(At(Inbound(doc, 0), "streamSettings"), "realitySettings")
  }

  /** `n` is the length of the array under `key`. */
  predicate ArrayOfLength(doc: Option<Json>, key: string, n: nat) {
    var a := At(doc, key);
    a.Some? && a.value.JArr? && |a.value.items| == n
  }

  /** Every routing rule sends its traffic to an outbound the document declares. */
  predicate RoutesResolve(doc: Json) {
    var rules := At(At(Some(doc), "routing"), "rules");
    var outbounds := At(Some(doc), "outbounds");
    rules.Some? && rules.value.JArr? && outbounds.Some? && outbounds.value.JArr?
    && forall i :: 0 <= i < |rules.value.items| ==>
         exists j :: 0 <= j < |outbounds.value.items|
           && At(AtIndex(outbounds, j), "tag") == At(AtIndex(rules, i), "outboundTag")
           && At(AtIndex(outbounds, j), "tag").Some?
  }

  lemma {:induction false} InboundFields(uuid: string, maskDomain: string, privateKey: string)
    ensures var inbound := Some(InboundObject(uuid, maskDomain, privateKey));
      && At(inbound, "listen") == Some(JStr("0.0.0.0"))
      && At(inbound, "port") == Some(JInt(443))
      && At(inbound, "protocol") == Some(JStr("vless"))
      && At(inbound, "tag") == Some(JStr("reality-in"))
      && At(At(inbound, "settings"), "clients") == Some(JArr([JObj(map[
           "id" := JStr(uuid), "email" := JStr("user1"), "flow" := JStr("xtls-rprx-vision")])]))
  {
  }

  /** The configuration has one inbound: VLESS on 0.0.0.0:443 tagged `reality-in`,
      with the generated id as its only client. */
  lemma {:induction false} ConfigInbound(uuid: string, maskDomain: string, privateKey: string)
    ensures var doc := BuildConfig(uuid, maskDomain, privateKey);
      && ArrayOfLength(Some(doc), "inbounds", 1)
      && At(Inbound(doc, 0), "listen") == Some(JStr("0.0.0.0"))
      && At(Inbound(doc, 0), "port") == Some(JInt(443))
      && At(Inbound(doc, 0), "protocol") == Some(JStr("vless"))
      && At(Inbound(doc, 0), "tag") == Some(JStr("reality-in"))
      && At(At(Inbound(doc, 0), "settings"), "clients") == Some(JArr([JObj(map[
           "id" := JStr(uuid), "email" := JStr("user1"), "flow" := JStr("xtls-rprx-vision")])]))
  {
    var doc := BuildConfig(uuid, maskDomain, privateKey);
    assert Inbound(doc, 0) == Some(InboundObject(uuid, maskDomain, privateKey));
    InboundFields(uuid, maskDomain, privateKey);
  }

  lemma {:induction false} RealityFields(maskDomain: string, privateKey: string)
    ensures var reality := Some(RealityObject(maskDomain, privateKey));
      && At(reality, "dest") == Some(JStr(maskDomain + ":443"))
      && At(reality, "serverNames") == Some(JArr([JStr(maskDomain)]))
      && At(reality, "privateKey") == Some(JStr(privateKey))
      && At(reality, "shortIds") == Some(JArr([JStr("")]))
      && At(reality, "show") == Some(JBool(false))
  {
  }

  /** The REALITY settings borrow the mask domain and carry the extracted private key. */
  lemma {:induction false} ConfigReality(uuid: string, maskDomain: string, privateKey: string)
    ensures var reality := RealitySettings(BuildConfig(uuid, maskDomain, privateKey));
      && At(reality, "dest") == Some(JStr(maskDomain + ":443"))
      && At(reality, "serverNames") == Some(JArr([JStr(maskDomain)]))
      && At(reality, "privateKey") == Some(JStr(privateKey))
      && At(reality, "shortIds") == Some(JArr([JStr("")]))
      && At(reality, "show") == Some(JBool(false))
  {
    var doc := BuildConfig(uuid, maskDomain, privateKey);
    var inbound := InboundObject(uuid, maskDomain, privateKey);
    assert Inbound(doc, 0) == Some(inbound);
    assert RealitySettings(doc) == Some(RealityObject(maskDomain, privateKey));
    RealityFields(maskDomain, privateKey);
  }

  /** Two outbounds, `direct` and `block`, and one rule sending bittorrent to `block`. */
  lemma {:induction false} ConfigRouting(uuid: string, maskDomain: string, privateKey: string)
    ensures var doc := BuildConfig(uuid, maskDomain, privateKey);
      var rules := At(At(Some(doc), "routing"), "rules");
      && ArrayOfLength(Some(doc), "outbounds", 2)
      && At(AtIndex(At(Some(doc), "outbounds"), 0), "tag") == Some(JStr("direct"))
      && At(AtIndex(At(Some(doc), "outbounds"), 1), "tag") == Some(JStr("block"))
      && ArrayOfLength(At(Some(doc), "routing"), "rules", 1)
      && At(AtIndex(rules, 0), "protocol") == Some(JStr("bittorrent"))
      && At(AtIndex(rules, 0), "outboundTag") == Some(JStr("block"))
  {
  }

  lemma {:induction false} ConfigRoutesResolve(uuid: string, maskDomain: string, privateKey: string)
    ensures RoutesResolve(BuildConfig(uuid, maskDomain, privateKey))
  {
    var doc := BuildConfig(uuid, maskDomain, privateKey);
    var rules := At(At(Some(doc), "routing"), "rules");
    var outbounds := At(Some(doc), "outbounds");
    assert |rules.value.items| == 1;
    assert At(AtIndex(outbounds, 1), "tag") == At(AtIndex(rules, 0), "outboundTag") == Some(JStr("block"));
  }

  // ---------------------------------------------------------------- link

  /** The query string of the share link, split where the lemmas below need it. */
  function LinkQuery(maskDomain: string, publicKey: string): string {
    "encryption=none&type=tcp" + "&sni=" + maskDomain + "&" + "fp=chrome" + "&security=reality&"
    + "alpn=h2&flow=xtls-rprx-vision" + "&pbk=" + publicKey + "&" + "packetEncoding=xudp"
  }

  lemma {:induction false} QueryHasSni(maskDomain: string, publicKey: string)
    ensures Contains(LinkQuery(maskDomain, publicKey), "&sni=" + maskDomain + "&")
  {
    var sub := "&sni=" + maskDomain + "&";
    var q := "encryption=none&type=tcp" + "&sni=" + maskDomain + "&";
    ContainsInner("encryption=none&type=tcp", "&sni=", maskDomain, "&");
    ContainsBefore(q, "fp=chrome", sub);
    q := q + "fp=chrome";
    ContainsBefore(q, "&security=reality&", sub);
    q := q + "&security=reality&";
    ContainsBefore(q, "alpn=h2&flow=xtls-rprx-vision", sub);
    q := q + "alpn=h2&flow=xtls-rprx-vision";
    ContainsBefore(q, "&pbk=", sub);
    q := q + "&pbk=";
    ContainsBefore(q, publicKey, sub);
    q := q + publicKey;
    ContainsBefore(q, "&", sub);
    q := q + "&";
    ContainsBefore(q, "packetEncoding=xudp", sub);
  }

  lemma {:induction false} QueryHasSecurity(maskDomain: string, publicKey: string)
    ensures Contains(LinkQuery(maskDomain, publicKey), "&security=reality&")
  {
    var sub := "&security=reality&";
    var q := "encryption=none&type=tcp" + "&sni=" + maskDomain + "&" + "fp=chrome";
    ContainsMiddle(q, sub, "");
    assert q + sub + "" == q + sub;
    q := q + sub;
    ContainsBefore(q, "alpn=h2&flow=xtls-rprx-vision", sub);
    q := q + "alpn=h2&flow=xtls-rprx-vision";
    ContainsBefore(q, "&pbk=", sub);
    q := q + "&pbk=";
    ContainsBefore(q, publicKey, sub);
    q := q + publicKey;
    ContainsBefore(q, "&", sub);
    q := q + "&";
    ContainsBefore(q, "packetEncoding=xudp", sub);
  }

  lemma {:induction false} QueryHasPbk(maskDomain: string, publicKey: string)
    ensures Contains(LinkQuery(maskDomain, publicKey), "&pbk=" + publicKey + "&")
  {
    var sub := "&pbk=" + publicKey + "&";
    var q := "encryption=none&type=tcp" + "&sni=" + maskDomain + "&" + "fp=chrome" + "&security=reality&"
             + "alpn=h2&flow=xtls-rprx-vision";
    ContainsInner(q, "&pbk=", publicKey, "&");
    ContainsBefore(q + "&pbk=" + publicKey + "&", "packetEncoding=xudp", sub);
  }

  /** The `vless://` share link; `get_client_details` in main.py builds the same text. */
  function VlessLink(uuid: string, serverIp: string, maskDomain: string, publicKey: string, proxyName: string): string {
    "vless://" + uuid + "@" + serverIp + ":443/?" + LinkQuery(maskDomain, publicKey) + ("#" + proxyName)
  }

  /** The link names the client and the server, carries the mask domain as SNI,
      REALITY security and the public key, and ends with the proxy name. */
  lemma {:induction false} VlessLinkShape(uuid: string, serverIp: string, maskDomain: string, publicKey: string, proxyName: string)
    ensures var link := VlessLink(uuid, serverIp, maskDomain, publicKey, proxyName);
      && StartsWith(link, "vless://" + uuid + "@" + serverIp + ":443/?")
      && Contains(link, "&sni=" + maskDomain + "&")
      && Contains(link, "&security=reality&")
      && Contains(link, "&pbk=" + publicKey + "&")
      && EndsWith(link, "#" + proxyName)
  {
    var head := "vless://" + uuid + "@" + serverIp + ":443/?";
    var query := LinkQuery(maskDomain, publicKey);
    var link := head + query + ("#" + proxyName);
    assert VlessLink(uuid, serverIp, maskDomain, publicKey, proxyName) == link;
    QueryHasSni(maskDomain, publicKey);
    QueryHasSecurity(maskDomain, publicKey);
    QueryHasPbk(maskDomain, publicKey);
    ContainsWithin(head, query, "#" + proxyName, "&sni=" + maskDomain + "&");
    ContainsWithin(head, query, "#" + proxyName, "&security=reality&");
    ContainsWithin(head, query, "#" + proxyName, "&pbk=" + publicKey + "&");
    assert link[..|head|] == head;
    assert link[|link| - |"#" + proxyName|..] == "#" + proxyName;
  }

  /** What a client reads as the user id: the text between `vless://` and the first `@`. */
  function LinkUser(link: string): Option<string> {
    if !StartsWith(link, "vless://") then None
    else
      var rest := link[8..];
      var i := FindChar(rest, '@');
      if i == |rest| then None else Some(rest[..i])
  }

  /** What a client shows as the proxy's name: the fragment, after the first `#`. */
  function LinkName(link: string): Option<string> {
    var i := FindChar(link, '#');
    if i == |link| then None else Some(link[i + 1..])
  }

  /** Any link that starts with `vless://<user>@` names that user. */
  lemma {:induction false} LinkUserOfPrefix(link: string, user: string)
    requires '@' !in user && StartsWith(link, "vless://" + user + "@")
    ensures LinkUser(link) == Some(user)
  {
    var head := "vless://" + user + "@";
    assert link[..|head|] == head;
    assert link[..8] == head[..8] == "vless://";
    var rest := link[8..];
    assert rest[..|user|] == head[8..8 + |user|] == user;
    assert rest[|user|] == head[8 + |user|] == '@';
    FindCharAt(rest, '@', |user|);
  }

  /** The link gives back the client id it was built from. */
  lemma {:induction false} LinkUserRoundTrip(uuid: string, serverIp: string, maskDomain: string, publicKey: string, proxyName: string)
    requires '@' !in uuid
    ensures LinkUser(VlessLink(uuid, serverIp, maskDomain, publicKey, proxyName)) == Some(uuid)
  {
    var link := VlessLink(uuid, serverIp, maskDomain, publicKey, proxyName);
    VlessLinkShape(uuid, serverIp, maskDomain, publicKey, proxyName);
    StartsWithShorter(link, "vless://" + uuid + "@" + serverIp, ":443/?");
    StartsWithShorter(link, "vless://" + uuid + "@", serverIp);
    LinkUserOfPrefix(link, uuid);
  }

  lemma {:induction false} QueryHasNoHash(maskDomain: string, publicKey: string)
    requires '#' !in maskDomain && '#' !in publicKey
    ensures '#' !in LinkQuery(maskDomain, publicKey)
  {
  }

  /** The link gives back the proxy name it was built from, as its fragment. */
  lemma {:induction false} LinkNameRoundTrip(uuid: string, serverIp: string, maskDomain: string, publicKey: string, proxyName: string)
    requires '#' !in uuid && '#' !in serverIp && '#' !in maskDomain && '#' !in publicKey
    ensures LinkName(VlessLink(uuid, serverIp, maskDomain, publicKey, proxyName)) == Some(proxyName)
  {
    var link := VlessLink(uuid, serverIp, maskDomain, publicKey, proxyName);
    var body := "vless://" + uuid + "@" + serverIp + ":443/?" + LinkQuery(maskDomain, publicKey);
    QueryHasNoHash(maskDomain, publicKey);
    assert '#' !in body;
    assert link[..|body|] == body && link[|body|] == '#';
    FindCharAt(link, '#', |body|);
    assert link[|body| + 1..] == proxyName;
  }

  // ---------------------------------------------------------------- tokens

  /** One line of the event stream. */
  datatype Token = Status(step: string, state: string) | Error(message: string) | Result(payload: string)

  /** The text the stream yields for a token. */
  function Render(t: Token): string {
    match t
    case Status(step, state) => "status:" + step + ":" + state
    case Error(message) => "error:" + message
    case Result(payload) => "result:" + payload
  }

  /** An `error:` or `result:` line ends the stream. */
  predicate IsTerminal(line: string) {
    StartsWith(line, "error:") || StartsWith(line, "result:")
  }

  /** Only the error and result tokens render as terminal lines, and status
      tokens render with the `status:` prefix. */
  lemma {:induction false} RenderTerminal(t: Token)
    ensures IsTerminal(Render(t)) <==> !t.Status?
    ensures t.Status? ==> StartsWith(Render(t), "status:")
  {
    var line := Render(t);
    match t
    case Status(step, state) =>
      assert line[..7] == "status:";
      assert line[0] == 's';
    case Error(message) =>
      assert line[..6] == "error:";
    case Result(payload) =>
      assert line[..7] == "result:";
  }

  /** The `inprogress`/`done` pair of each of the first `k` steps, in order. */
  function CompletedSteps(k: nat): (tokens: seq<Token>)
    requires k <= |Steps|
    ensures |tokens| == 2 * k
  {
    if k == 0 then [] else CompletedSteps(k - 1) + [Status(Steps[k - 1], "inprogress")] + [Status(Steps[k - 1], "done")]
  }

  /** Step `i` contributes its `inprogress` token and then its `done` token. */
  lemma {:induction false} CompletedStepsAt(k: nat, i: nat)
    requires i < k <= |Steps|
    ensures CompletedSteps(k)[2 * i] == Status(Steps[i], "inprogress")
    ensures CompletedSteps(k)[2 * i + 1] == Status(Steps[i], "done")
  {
    if i < k - 1 {
      CompletedStepsAt(k - 1, i);
      assert CompletedSteps(k)[..2 * (k - 1)] == CompletedSteps(k - 1);
    }
  }

  /** The step that raised and the message of its exception. */
  datatype Failure = Failure(step: nat, message: string)

  /** The whole stream: the steps that completed, then either the failing
      step's `inprogress` token and one `error:` token, or the `result:` token. */
  function StreamTokens(failure: Option<Failure>, resultPayload: string): seq<Token>
    requires failure.Some? ==> failure.value.step < |Steps|
  {
    match failure
    case None => CompletedSteps(|Steps|) + [Result(resultPayload)]
    case Some(f) => CompletedSteps(f.step) + [Status(Steps[f.step], "inprogress")] + [Error(f.message)]
  }

  /** Every stream is a run of status tokens closed by one error or result token. */
  lemma {:induction false} StreamShape(failure: Option<Failure>, resultPayload: string)
    requires failure.Some? ==> failure.value.step < |Steps|
    ensures var t := StreamTokens(failure, resultPayload);
      |t| > 0 && !t[|t| - 1].Status? && forall i :: 0 <= i < |t| - 1 ==> t[i].Status?
  {
    var t := StreamTokens(failure, resultPayload);
    var k := if failure.None? then |Steps| else failure.value.step;
    var done := CompletedSteps(k);
    forall i | 0 <= i < |t| - 1 ensures t[i].Status? {
      if i < |done| {
        assert t[i] == done[i];
        CompletedStepsAt(k, i / 2);
      }
    }
  }

  /** Every stream ends with exactly one terminal line, preceded only by status lines. */
  lemma {:induction false} OneTerminalToken(failure: Option<Failure>, resultPayload: string)
    requires failure.Some? ==> failure.value.step < |Steps|
    ensures var t := StreamTokens(failure, resultPayload);
      |t| > 0 && IsTerminal(Render(t[|t| - 1]))
      && forall i :: 0 <= i < |t| - 1 ==> StartsWith(Render(t[i]), "status:") && !IsTerminal(Render(t[i]))
  {
    var t := StreamTokens(failure, resultPayload);
    StreamShape(failure, resultPayload);
    forall i | 0 <= i < |t| ensures IsTerminal(Render(t[i])) <==> !t[i].Status?
      ensures t[i].Status? ==> StartsWith(Render(t[i]), "status:") {
      RenderTerminal(t[i]);
    }
  }

  /** On success the status tokens are exactly these twelve. */
  lemma {:induction false} SuccessfulStatusTokens()
    ensures CompletedSteps(|Steps|) == [
      Status("connect", "inprogress"), Status("connect", "done"),
      Status("install", "inprogress"), Status("install", "done"),
      Status("keys", "inprogress"), Status("keys", "done"),
      Status("config", "inprogress"), Status("config", "done"),
      Status("verify", "inprogress"), Status("verify", "done"),
      Status("done", "inprogress"), Status("done", "done")]
  {
    var t := CompletedSteps(|Steps|);
    CompletedStepsAt(6, 0);
    CompletedStepsAt(6, 1);
    CompletedStepsAt(6, 2);
    CompletedStepsAt(6, 3);
    CompletedStepsAt(6, 4);
    CompletedStepsAt(6, 5);
  }

  // ---------------------------------------------------------------- the run

  /** The arguments `create_proxy_stream` takes. */
  datatype ProxyRequest = ProxyRequest(
    serverIp: string, sshUser: string, sshPassword: string, maskDomain: string, proxyName: string)

  /** What the outside world answers, in the order the stream asks. */
  datatype ProvisionRemote = ProvisionRemote(
    connect: Attempt,         // paramiko connect
    curl: CommandOutcome,     // curl check and install
    install: CommandOutcome,  // Xray install script
    keygen: CommandOutcome,   // xray x25519
    upload: Attempt,          // SFTP write of the configuration
    restart: CommandOutcome,  // systemctl restart xray
    status: CommandOutcome,   // systemctl status xray
    verified: bool)           // verify_proxy(server_ip, mask_domain)

  /** How a run ends and what it did on the outside. */
  datatype Run = Run(failure: Option<Failure>, actions: seq<RemoteAction>, keys: KeyPair)

  /** Where the `try` block stops: the step that raised, if any, and the remote
      actions performed up to that point. */
  datatype Halt = Halt(failure: Option<Failure>, performed: seq<RemoteAction>)

  /** What one step of the stream does on the remote side, and the message of
      the exception it raises, if any. */
  datatype StepOutcome = StepOutcome(error: Option<string>, performed: seq<RemoteAction>)

  /** Step `connect`: open the SSH session. */
  function ConnectStep(req: ProxyRequest, remote: ProvisionRemote): (o: StepOutcome)
    ensures o.performed == [Connect(req.serverIp)]
    ensures o.error.None? <==> remote.connect.Succeeds?
  {
    StepOutcome(if remote.connect.Fails? then Some(remote.connect.message) else None, [Connect(req.serverIp)])
  }

  /** Step `install`: the curl check, then the Xray install script; the script
      runs only when the check succeeded. */
  function InstallStep(remote: ProvisionRemote): (o: StepOutcome)
    ensures o.error.None? <==> remote.curl.exitStatus == 0 && remote.install.exitStatus == 0
    ensures o.performed == if remote.curl.exitStatus != 0 then [Exec(CurlCommand)]
                           else [Exec(CurlCommand), Exec(InstallCommand)]
  {
    if remote.curl.exitStatus != 0 then
      StepOutcome(Some(ExecuteCommand(CurlCommand, remote.curl).error), [Exec(CurlCommand)])
    else if remote.install.exitStatus != 0 then
      StepOutcome(Some(ExecuteCommand(InstallCommand, remote.install).error), [Exec(CurlCommand), Exec(InstallCommand)])
    else StepOutcome(None, [Exec(CurlCommand), Exec(InstallCommand)])
  }

  /** Step `keys`: `xray x25519`, then the check that the scan found both keys. */
  function KeysStep(remote: ProvisionRemote, keys: KeyPair): (o: StepOutcome)
    ensures o.performed == [Exec(KeygenCommand)]
    ensures o.error.None? <==> remote.keygen.exitStatus == 0 && keys.privateKey != "" && keys.publicKey != ""
    ensures remote.keygen.exitStatus == 0 && o.error.Some? ==> o.error == Some(KeysMissing)
  {
    if remote.keygen.exitStatus != 0 then
      StepOutcome(Some(ExecuteCommand(KeygenCommand, remote.keygen).error), [Exec(KeygenCommand)])
    else if keys.privateKey == "" || keys.publicKey == "" then
      StepOutcome(Some(KeysMissing), [Exec(KeygenCommand)])
    else StepOutcome(None, [Exec(KeygenCommand)])
  }

  /** Step `config`: upload the configuration, restart Xray, ask for its status;
      each action runs only when the one before it succeeded. */
  function ConfigStep(req: ProxyRequest, remote: ProvisionRemote, uuid: string, keys: KeyPair): (o: StepOutcome)
    ensures o.error.None? <==>
      remote.upload.Succeeds? && remote.restart.exitStatus == 0 && remote.status.exitStatus == 0
    ensures 0 < |o.performed| <= 3 && o.performed[0] == Upload(ConfigPath, BuildConfig(uuid, req.maskDomain, keys.privateKey))
    ensures forall i :: 1 <= i < |o.performed| ==> o.performed[i].Exec?
  {
    var upload := Upload(ConfigPath, BuildConfig(uuid, req.maskDomain, keys.privateKey));
    if remote.upload.Fails? then StepOutcome(Some(remote.upload.message), [upload])
    else if remote.restart.exitStatus != 0 then
      StepOutcome(Some(ExecuteCommand(RestartCommand, remote.restart).error), [upload, Exec(RestartCommand)])
    else if remote.status.exitStatus != 0 then
      StepOutcome(Some(ExecuteCommand(StatusCommand, remote.status).error),
                  [upload, Exec(RestartCommand), Exec(StatusCommand)])
    else StepOutcome(None, [upload, Exec(RestartCommand), Exec(StatusCommand)])
  }

  /** Step `verify`: probe the proxy from outside. */
  function VerifyStep(req: ProxyRequest, remote: ProvisionRemote): (o: StepOutcome)
    ensures o.performed == [Probe(req.serverIp, req.maskDomain)]
    ensures o.error.None? <==> remote.verified
  {
    StepOutcome(if remote.verified then None else Some(VerificationFailed), [Probe(req.serverIp, req.maskDomain)])
  }

  /** The `try` block of `create_proxy_stream`, given the keys the scan found:
      the steps in order, up to the first one that raises. */
  function Attempted(req: ProxyRequest, remote: ProvisionRemote, uuid: string, keys: KeyPair): (h: Halt)
    ensures h.failure.Some? ==> h.failure.value.step < |Steps| - 1
    ensures |h.performed| > 0 && h.performed[0] == Connect(req.serverIp) && Close !in h.performed
  {
    var c := ConnectStep(req, remote);
    if c.error.Some? then Halt(Some(Failure(0, c.error.value)), c.performed)
    else
      var i := InstallStep(remote);
      var installed := c.performed + i.performed;
      if i.error.Some? then Halt(Some(Failure(1, i.error.value)), installed)
      else
        var g := KeysStep(remote, keys);
        var generated := installed + g.performed;
        if g.error.Some? then Halt(Some(Failure(2, g.error.value)), generated)
        else
          var f := ConfigStep(req, remote, uuid, keys);
          var configured := generated + f.performed;
          if f.error.Some? then Halt(Some(Failure(3, f.error.value)), configured)
          else
            var v := VerifyStep(req, remote);
            var verified := configured + v.performed;
            if v.error.Some? then Halt(Some(Failure(4, v.error.value)), verified)
            else Halt(None, verified)
  }

  /** `create_proxy_stream` as decisions: the keys the scan finds, the first
      step to raise, and the remote actions, ending with the `finally` close. */
  function Provision(req: ProxyRequest, remote: ProvisionRemote, uuid: string): (run: Run)
    ensures run.failure.Some? ==> run.failure.value.step < |Steps| - 1
    ensures run.keys == KeysOf(remote.keygen.stdout)
  {
    var keys := KeysOf(remote.keygen.stdout);
    var h := Attempted(req, remote, uuid, keys);
    Run(h.failure, h.performed + [Close], keys)
  }

  /** The `try` block step by step: where it stops and what it has done by
      then, in the order the stream performs it. */
  lemma {:induction false} AttemptedSteps(req: ProxyRequest, remote: ProvisionRemote, uuid: string, keys: KeyPair)
    ensures var h := Attempted(req, remote, uuid, keys);
      var connected := [Connect(req.serverIp)];
      var installed := connected + InstallStep(remote).performed;
      var generated := installed + KeysStep(remote, keys).performed;
      var configured := generated + ConfigStep(req, remote, uuid, keys).performed;
      var probed := configured + [Probe(req.serverIp, req.maskDomain)];
      && (remote.connect.Fails? ==> h == Halt(Some(Failure(0, remote.connect.message)), connected))
      && (remote.connect.Succeeds? && InstallStep(remote).error.Some? ==>
            h == Halt(Some(Failure(1, InstallStep(remote).error.value)), installed))
      && (remote.connect.Succeeds? && InstallStep(remote).error.None? && KeysStep(remote, keys).error.Some? ==>
            h == Halt(Some(Failure(2, KeysStep(remote, keys).error.value)), generated))
      && (remote.connect.Succeeds? && InstallStep(remote).error.None? && KeysStep(remote, keys).error.None?
          && ConfigStep(req, remote, uuid, keys).error.Some? ==>
            h == Halt(Some(Failure(3, ConfigStep(req, remote, uuid, keys).error.value)), configured))
      && (remote.connect.Succeeds? && InstallStep(remote).error.None? && KeysStep(remote, keys).error.None?
          && ConfigStep(req, remote, uuid, keys).error.None? ==>
            h == Halt(if remote.verified then None else Some(Failure(4, VerificationFailed)), probed))
  {
  }

  /** Every run opens the session first and closes it exactly once, last. */
  lemma {:induction false} ProvisionClosesOnce(req: ProxyRequest, remote: ProvisionRemote, uuid: string)
    ensures var run := Provision(req, remote, uuid);
      ClosedOnce(run.actions) && run.actions[0] == Connect(req.serverIp)
  {
    var performed := Attempted(req, remote, uuid, KeysOf(remote.keygen.stdout)).performed;
    assert forall i :: 0 <= i < |performed| ==> performed[i] in performed;
  }

  /** A run succeeds exactly when every remote step succeeds and both keys were
      found; it then performs every step once, in order. */
  lemma {:induction false} ProvisionSucceeds(req: ProxyRequest, remote: ProvisionRemote, uuid: string)
    ensures var run := Provision(req, remote, uuid);
      (run.failure.None? <==>
        remote.connect.Succeeds? && remote.curl.exitStatus == 0 && remote.install.exitStatus == 0
        && remote.keygen.exitStatus == 0 && run.keys.privateKey != "" && run.keys.publicKey != ""
        && remote.upload.Succeeds? && remote.restart.exitStatus == 0 && remote.status.exitStatus == 0
        && remote.verified)
      && (run.failure.None? ==>
        run.actions == [Connect(req.serverIp), Exec(CurlCommand), Exec(InstallCommand), Exec(KeygenCommand),
                        Upload(ConfigPath, BuildConfig(uuid, req.maskDomain, run.keys.privateKey)),
                        Exec(RestartCommand), Exec(StatusCommand), Probe(req.serverIp, req.maskDomain), Close])
  {
    AttemptedSteps(req, remote, uuid, KeysOf(remote.keygen.stdout));
  }

  /** A configuration is uploaded only after the key pair was generated and
      both keys were found, and it carries the private key. */
  lemma {:induction false} UploadNeedsKeys(req: ProxyRequest, remote: ProvisionRemote, uuid: string, i: nat)
    requires var run := Provision(req, remote, uuid); i < |run.actions| && run.actions[i].Upload?
    ensures var run := Provision(req, remote, uuid);
      remote.keygen.exitStatus == 0 && run.keys.privateKey != "" && run.keys.publicKey != ""
      && run.actions[i] == Upload(ConfigPath, BuildConfig(uuid, req.maskDomain, run.keys.privateKey))
  {
    AttemptedSteps(req, remote, uuid, KeysOf(remote.keygen.stdout));
  }

  /** Key output without both keys ends the run at the keys step, before any
      upload, restart or probe. */
  lemma {:induction false} MissingKeysStopTheRun(req: ProxyRequest, remote: ProvisionRemote, uuid: string)
    requires remote.connect.Succeeds? && remote.curl.exitStatus == 0 && remote.install.exitStatus == 0
    requires remote.keygen.exitStatus == 0
    requires KeysOf(remote.keygen.stdout).privateKey == "" || KeysOf(remote.keygen.stdout).publicKey == ""
    ensures var run := Provision(req, remote, uuid);
      run.failure == Some(Failure(2, KeysMissing))
      && NoUploadTo(run.actions, ConfigPath)
      && Exec(RestartCommand) !in run.actions
      && forall i :: 0 <= i < |run.actions| ==> !run.actions[i].Probe?
  {
    AttemptedSteps(req, remote, uuid, KeysOf(remote.keygen.stdout));
  }

  /** The payload of the `result:` token: `json.dumps` of the link and the QR image. */
  function ResultPayload(link: string, encodeQr: string -> string, dumps: Json -> string): string {
    dumps(JObj(map["vless_link" := JStr(link), "qr_code" := JStr(encodeQr(link))]))
  }

  /** The install step as the stream runs it. */
  method Install(remote: ProvisionRemote) returns (error: Option<string>, performed: seq<RemoteAction>)
    ensures StepOutcome(error, performed) == InstallStep(remote)
  {
    performed := [Exec(CurlCommand)];
    var r := ExecuteCommand(CurlCommand, remote.curl);
    if r.Err? {
      return Some(r.error), performed;
    }
    performed := performed + [Exec(InstallCommand)];
    r := ExecuteCommand(InstallCommand, remote.install);
    if r.Err? {
      return Some(r.error), performed;
    }
    error := None;
  }

  /** The keys step as the stream runs it; `keys` is what the scan found. */
  method GenerateKeys(remote: ProvisionRemote) returns (error: Option<string>, performed: seq<RemoteAction>, keys: KeyPair)
    ensures StepOutcome(error, performed) == KeysStep(remote, KeysOf(remote.keygen.stdout))
    ensures error.None? ==> keys == KeysOf(remote.keygen.stdout)
  {
    performed := [Exec(KeygenCommand)];
    var r := ExecuteCommand(KeygenCommand, remote.keygen);
    if r.Err? {
      return Some(r.error), performed, KeyPair("", "");
    }
    keys := ExtractKeys(r.value);
    if keys.privateKey == "" || keys.publicKey == "" {
      return Some(KeysMissing), performed, keys;
    }
    error := None;
  }

  /** The config step as the stream runs it. */
  method Configure(req: ProxyRequest, remote: ProvisionRemote, uuid: string, keys: KeyPair)
    returns (error: Option<string>, performed: seq<RemoteAction>)
    ensures StepOutcome(error, performed) == ConfigStep(req, remote, uuid, keys)
  {
    var config := BuildConfig(uuid, req.maskDomain, keys.privateKey);
    performed := [Upload(ConfigPath, config)];
    if remote.upload.Fails? {
      return Some(remote.upload.message), performed;
    }
    performed := performed + [Exec(RestartCommand)];
    var r := ExecuteCommand(RestartCommand, remote.restart);
    if r.Err? {
      return Some(r.error), performed;
    }
    performed := performed + [Exec(StatusCommand)];
    r := ExecuteCommand(StatusCommand, remote.status);
    if r.Err? {
      return Some(r.error), performed;
    }
    error := None;
  }

  /** `yield "status:<step>:inprogress"` for step `k`. */
  method YieldInProgress(tokens: seq<Token>, k: nat) returns (next: seq<Token>)
    requires k < |Steps| && tokens == CompletedSteps(k)
    ensures next == CompletedSteps(k) + [Status(Steps[k], "inprogress")]
  {
    next := tokens + [Status(Steps[k], "inprogress")];
  }

  /** `yield "status:<step>:done"` for step `k`, once it is in progress. */
  method YieldDone(tokens: seq<Token>, k: nat) returns (next: seq<Token>)
    requires k < |Steps| && tokens == CompletedSteps(k) + [Status(Steps[k], "inprogress")]
    ensures next == CompletedSteps(k + 1)
  {
    next := tokens + [Status(Steps[k], "done")];
  }

  /** The `try` block of `create_proxy_stream` up to the stored rows: the
      tokens yielded so far, the remote actions, the keys found and the
      exception raised, if any. */
  method TryProvision(db: Database, req: ProxyRequest, remote: ProvisionRemote, uuid: string)
    returns (tokens: seq<Token>, performed: seq<RemoteAction>, keys: KeyPair, failure: Option<Failure>)
    requires db.Valid()
    modifies db
    ensures db.Valid()
    ensures Halt(failure, performed) == Attempted(req, remote, uuid, KeysOf(remote.keygen.stdout))
    ensures failure.Some? ==>
      && failure.value.step < |Steps| - 1
      && tokens == CompletedSteps(failure.value.step) + [Status(Steps[failure.value.step], "inprogress")]
      && db.servers == old(db.servers) && db.clients == old(db.clients)
    ensures failure.None? ==>
      && keys == KeysOf(remote.keygen.stdout)
      && tokens == CompletedSteps(|Steps|)
      && var serverId := NextServerId(old(db.servers));
         db.servers == old(db.servers) + [ServerRow(serverId, req.serverIp, req.sshUser, req.sshPassword,
                                                    req.maskDomain, keys.publicKey, req.proxyName)]
         && db.clients == old(db.clients) + [ClientRow(NextClientId(old(db.clients)), serverId, uuid, "user1")]
  {
    ghost var found := KeysOf(remote.keygen.stdout);
    AttemptedSteps(req, remote, uuid, found);
    keys := KeyPair("", "");
    tokens := [];
    tokens := YieldInProgress(tokens, 0);
    performed := [Connect(req.serverIp)];
    if remote.connect.Fails? {
      return tokens, performed, keys, Some(Failure(0, remote.connect.message));
    }
    tokens := YieldDone(tokens, 0);

    tokens := YieldInProgress(tokens, 1);
    var error, did := Install(remote);
    performed := performed + did;
    if error.Some? {
      return tokens, performed, keys, Some(Failure(1, error.value));
    }
    tokens := YieldDone(tokens, 1);

    tokens := YieldInProgress(tokens, 2);
    error, did, keys := GenerateKeys(remote);
    performed := performed + did;
    if error.Some? {
      return tokens, performed, keys, Some(Failure(2, error.value));
    }
    tokens := YieldDone(tokens, 2);

    tokens := YieldInProgress(tokens, 3);
    error, did := Configure(req, remote, uuid, keys);
    performed := performed + did;
    if error.Some? {
      return tokens, performed, keys, Some(Failure(3, error.value));
    }
    tokens := YieldDone(tokens, 3);

    tokens := YieldInProgress(tokens, 4);
    performed := performed + [Probe(req.serverIp, req.maskDomain)];
    if !remote.verified {
      return tokens, performed, keys, Some(Failure(4, VerificationFailed));
    }
    tokens := YieldDone(tokens, 4);

    tokens := YieldInProgress(tokens, 5);
    var serverId := db.InsertServer(req.serverIp, req.sshUser, req.sshPassword, req.maskDomain, keys.publicKey, req.proxyName);
    var _ := db.InsertClient(serverId, uuid, "user1");
    tokens := YieldDone(tokens, 5);
    failure := None;
  }

  /** `create_proxy_stream`: the `try` block, the `except` that yields the
      error line, and the `finally` that closes the session.  The uuid, the QR
      encoder and `json.dumps` are parameters. */
  method CreateProxyStream(db: Database, req: ProxyRequest, remote: ProvisionRemote, uuid: string,
                           encodeQr: string -> string, dumps: Json -> string)
    returns (tokens: seq<Token>, actions: seq<RemoteAction>)
    requires db.Valid()
    modifies db
    ensures db.Valid()
    ensures var run := Provision(req, remote, uuid);
      && actions == run.actions
      && tokens == StreamTokens(run.failure,
           ResultPayload(VlessLink(uuid, req.serverIp, req.maskDomain, run.keys.publicKey, req.proxyName), encodeQr, dumps))
      && (run.failure.Some? ==> db.servers == old(db.servers) && db.clients == old(db.clients))
      && (run.failure.None? ==>
            var serverId := NextServerId(old(db.servers));
            db.servers == old(db.servers) + [ServerRow(serverId, req.serverIp, req.sshUser, req.sshPassword,
                                                       req.maskDomain, run.keys.publicKey, req.proxyName)]
            && db.clients == old(db.clients) + [ClientRow(NextClientId(old(db.clients)), serverId, uuid, "user1")])
  {
    var keys, failure;
    tokens, actions, keys, failure := TryProvision(db, req, remote, uuid);
    if failure.None? {
      var link := VlessLink(uuid, req.serverIp, req.maskDomain, keys.publicKey, req.proxyName);
      tokens := tokens + [Result(ResultPayload(link, encodeQr, dumps))];
    } else {
      tokens := tokens + [Error(failure.value.message)];
    }
    actions := actions + [Close];
  }
}
