# vless-daddy provisioning core, modelled in Dafny

vless-daddy provisions VLESS/Reality proxies (Xray) on remote hosts over SSH,
keeps a small registry of servers and their clients, and shows provisioning
progress in a web page. This project models the decision and data-shaping
layer of that system. Every remote interaction is an oracle passed in as a
value: a command outcome (exit status, stdout, stderr), an attempt that
succeeds or fails with a message (SSH connect, SFTP open or write), and a
boolean for the proxy probe. The JSON decoder, the QR encoder, `json.dumps`
and the uuid are parameters as well.

One module per source file:

| module | file | what it holds |
|---|---|---|
| `Wrappers` | `wrappers.dfy` | `Option`, `Result`, `Attempt` |
| `JsonValue` | `json.dfy` | decoded JSON values and Python-style lookups |
| `Remote` | `remote.dfy` | command outcomes and the log of remote actions (connect, exec, upload, probe, close) |
| `Text` | `text.dfy` | the string built-ins the source relies on: `str.strip`, `splitlines`, `split`, JS `split`/`trim`, `in`, `lower`, `int()`/`str()` |
| `Registry` | `registry.dfy` | the `servers` and `clients` tables as a `Database` class with two row sequences, plus the queries the handlers run |
| `ProxyCreator` | `proxy_creator.dfy` | `execute_command`, key extraction, the Xray configuration document, the `vless://` link, the status/result/error token stream and `create_proxy_stream` |
| `MainApp` | `main_app.dfy` | the HTTP handlers `get_server_details`, `delete_server`, `get_client_details`, `add_client`, `delete_client` |
| `TrafficParser` | `traffic_parser.dfy` | `_run_stat`, `_get_usernames_for_server`, `get_traffic_usage`, `reset_traffic_usage` |
| `ClientManager` | `client_manager.dfy` | `update_server_config` |
| `ApiClientManager` | `api_client_manager.dfy` | the four user-management calls through the Xray API |
| `CreateView` | `create_view.dfy` | the stream consumer in the Create page (`startProxyCreation`) and its step timeline |

The imperative parts of the source are modelled as methods, and each method
is proved equal to a specification function. Examples are the key-scanning
loop, the provisioning generator, the nested traffic loops, the handlers
that change the registry, and the page's read loop. The properties are then
proved about those functions. The registry is a class whose methods append
or filter its row sequences.

## Model

| member | source | states |
|---|---|---|
| `Text.Strip` | backend/proxy_creator.py:47 | the result is the input with leading and trailing Python white space cut off, and neither of its ends is white space |
| `Text.StripKeepsTrimmed` | backend/traffic_parser.py:31 | stripping a string that has no white space at either end gives the string back |
| `Text.IndexOf` | backend/proxy_creator.py:46-49 | the result is the first position where the pattern occurs, or None exactly when it occurs nowhere |
| `Text.SplitLines` | backend/proxy_creator.py:45 | no line holds a line break, and only the empty text has no lines |
| `Text.SplitLinesTwo` | backend/proxy_creator.py:45 | two non-empty, break-free lines joined by a newline split back into exactly those two lines |
| `Text.SplitLinesOnNewlines` | backend/proxy_creator.py:45 | on text whose only line breaks are newlines, the lines are exactly the pieces between newlines, less the empty piece after a final newline, so they join back to the text |
| `Text.SplitOn` | frontend/src/components/Create.js:56 | there is at least one part, no part holds the separator, and joining the parts with the separator gives the input back |
| `Text.SplitOnJoined` | frontend/src/components/Create.js:56 | a separator-free head followed by the separator splits into that head and then the split of the rest |
| `Text.LowerAppend` | backend/api_client_manager.py:177 | lower-casing a concatenation is concatenating the lower-cased parts |
| `Text.LowerIdempotent` | backend/api_client_manager.py:177 | lower-casing twice gives the same text as lower-casing once |
| `Text.ParseIntRoundTrip` | backend/traffic_parser.py:35 | parsing the decimal text of any integer gives that integer back |
| `Remote.CloseOnce` | backend/proxy_creator.py:153-154 | appending a close to a log with no close leaves a log closed exactly once, at its end |
| `Registry.NextId` | backend/database.py:10 | the next INTEGER PRIMARY KEY is positive and larger than every key in use |
| `Registry.NextServerId` | backend/database.py:10 | the id given to a new server is positive and larger than every id already in the table |
| `Registry.NextClientId` | backend/database.py:23 | the id given to a new client is positive and larger than every id already in the table |
| `Registry.ServerKeysAppend` | backend/database.py:10 | appending a server row with a fresh larger id keeps server ids unique |
| `Registry.ClientKeysAppend` | backend/database.py:23 | appending a client row with a fresh larger id keeps client ids unique |
| `Registry.ServersWithoutId` | backend/main.py:109 | a server row survives the delete exactly when it was present and its id differs |
| `Registry.ClientsWithoutServer` | backend/main.py:108 | a client row survives the delete exactly when it was present and belongs to another server |
| `Registry.ClientsWithout` | backend/main.py:254-256 | a client row survives the delete exactly when it was present and does not match both the client id and the server id |
| `Registry.ServersWithoutIdKeys` | backend/main.py:109 | deleting server rows keeps server ids unique |
| `Registry.ClientsWithoutServerKeys` | backend/main.py:108 | deleting a server's clients keeps client ids unique |
| `Registry.ClientsWithoutKeys` | backend/main.py:254-256 | deleting one client keeps client ids unique |
| `Registry.ServersWithoutIdTwice` | backend/main.py:109 | deleting the same server id a second time changes nothing |
| `Registry.ClientsWithoutServerTwice` | backend/main.py:108 | deleting the same server's clients a second time changes nothing |
| `Registry.ClientsWithoutRemovesOne` | backend/main.py:254-256 | with unique client ids, deleting a client that matches both ids removes exactly one row |
| `Registry.ClientsWithoutAbsent` | backend/main.py:254-256 | deleting a client id no row has leaves the table as it was |
| `Registry.ServerById` | backend/main.py:61-65 | the row found is in the table and has that id, and no row is found only when no row has that id |
| `Registry.ServerByIp` | backend/traffic_parser.py:46-47 | the row found is in the table and has that address, and no row is found only when no row has that address |
| `Registry.ClientByIds` | backend/main.py:225-229 | the row found matches both the client id and the server id, and no row is found only when none matches both |
| `Registry.ClientById` | backend/main.py:149-158 | the row found is in the table and has that id, and no row is found only when no row has that id |
| `Registry.ServerByIdAppended` | backend/proxy_creator.py:128-132 | a server row appended with a fresh larger id is the row found under that id |
| `Registry.ClientByIdAppended` | backend/proxy_creator.py:133-136 | a client row appended with a fresh larger id is the row found under that id |
| `Registry.ClientByIdUnique` | backend/database.py:23 | with unique client ids, looking up the id of any row finds that very row |
| `Registry.UsernamesOf` | backend/traffic_parser.py:52-53 | a name is listed exactly when some client of that server has it |
| `Registry.ClientsOf` | backend/traffic_parser.py:52-53 | a row is selected exactly when it is a row of the table with that server id |
| `Registry.UsernamesOfEachClient` | backend/traffic_parser.py:52-53 | the query returns one name per client row of the server, in row order, duplicates kept |
| `Registry.Database.constructor` | backend/database.py:4-32 | both tables start empty and ids are unique |
| `Registry.Database.InsertServer` | backend/proxy_creator.py:128-132 | the new row, with the next id, is appended to the servers and the clients are untouched |
| `Registry.Database.InsertClient` | backend/main.py:201-204 | the new row, with the next id, is appended to the clients and the servers are untouched |
| `Registry.Database.DeleteServerRows` | backend/main.py:107-110 | the server's clients and the server's row are removed, and ids stay unique |
| `Registry.Database.DeleteClient` | backend/main.py:254-257 | only the row matching both ids is removed, and the servers are untouched |
| `ProxyCreator.ExecuteCommand` | backend/proxy_creator.py:12-20 | the command yields stdout exactly when its exit status is 0, and raises otherwise |
| `ProxyCreator.ExecuteCommandReports` | backend/proxy_creator.py:15-19 | on a non-zero exit the error names the quoted command and the exit status, and ends with stderr |
| `ProxyCreator.ScanStep` | backend/proxy_creator.py:45-49 | scanning one more line applies that line's update to the keys scanned so far |
| `ProxyCreator.ExtractKeys` | backend/proxy_creator.py:43-49 | the loop over the output's lines ends with the keys of the line-by-line scan |
| `ProxyCreator.ScanLinePick` | backend/proxy_creator.py:46-49 | a line carrying a key's marker sets that key to the stripped text after the marker, and any other line leaves it |
| `ProxyCreator.LastMarkedLineWins` | backend/proxy_creator.py:45-49 | each key comes from the last line carrying its marker, so later lines overwrite earlier ones |
| `ProxyCreator.UnmarkedLinesLeaveKeyEmpty` | backend/proxy_creator.py:43-49 | a key whose marker no line carries stays empty |
| `ProxyCreator.KeyLinesInEitherOrder` | backend/proxy_creator.py:45-49 | a private-key line and a public-key line give the same keys in either order |
| `ProxyCreator.InboundFields` | backend/proxy_creator.py:59-87 | the inbound listens on 0.0.0.0:443 as `vless`, is tagged `reality-in`, and has one client with the uuid, `user1` and `xtls-rprx-vision` |
| `ProxyCreator.ConfigInbound` | backend/proxy_creator.py:56-87 | the configuration has exactly one inbound, and it is the one above |
| `ProxyCreator.RealityFields` | backend/proxy_creator.py:73-84 | the Reality settings: `dest` is the mask domain plus `:443`, `serverNames` is only the mask domain, plus the private key, `shortIds` `[""]` and `show` false |
| `ProxyCreator.ConfigReality` | backend/proxy_creator.py:56-87 | the configuration's first inbound carries exactly those Reality settings |
| `ProxyCreator.ConfigRouting` | backend/proxy_creator.py:89-104 | there are two outbounds, `direct` then `block`, and one routing rule sending `bittorrent` to `block` |
| `ProxyCreator.ConfigRoutesResolve` | backend/proxy_creator.py:89-104 | every routing rule's outbound tag names one of the outbounds |
| `ProxyCreator.VlessLinkShape` | backend/proxy_creator.py:141 | the link starts with `vless://<uuid>@<ip>:443/?`, carries `&sni=<mask>&`, `&security=reality&` and `&pbk=<public key>&`, and ends with `#<proxy name>` |
| `ProxyCreator.LinkUserRoundTrip` | backend/proxy_creator.py:141 | the user part read back from a link is the uuid it was built from |
| `ProxyCreator.LinkNameRoundTrip` | backend/proxy_creator.py:141 | the fragment read back from a link is the proxy name it was built from |
| `ProxyCreator.RenderTerminal` | backend/proxy_creator.py:28-152 | a token's line is terminal (`result:` or `error:`) exactly when the token is not a status, and status lines start with `status:` |
| `ProxyCreator.CompletedStepsAt` | backend/proxy_creator.py:28-139 | after k finished steps, each step i before k appears as `inprogress` then `done` at positions 2i and 2i+1 |
| `ProxyCreator.SuccessfulStatusTokens` | backend/proxy_creator.py:28-139 | a full run's status tokens are connect, install, keys, config, verify and done, each `inprogress` then `done`, in that order |
| `ProxyCreator.StreamShape` | backend/proxy_creator.py:27-152 | every stream ends with one non-status token, and every earlier token is a status |
| `ProxyCreator.OneTerminalToken` | backend/proxy_creator.py:27-152 | exactly one terminal line is emitted per run, and it is the last one |
| `ProxyCreator.InstallStep` | backend/proxy_creator.py:33-36 | the install step runs the curl check and then the installer only if the check passed, and it succeeds exactly when both exit 0 |
| `ProxyCreator.KeysStep` | backend/proxy_creator.py:41-52 | the keys step runs `xray x25519` and succeeds exactly when it exits 0 and both keys are non-empty; when it exits 0 with a key missing the error is "Failed to generate keys" |
| `ProxyCreator.ConfigStep` | backend/proxy_creator.py:106-114 | the config step first uploads the built document to the config path and then only runs commands, and it succeeds exactly when the upload, the restart and the status check succeed |
| `ProxyCreator.Attempted` | backend/proxy_creator.py:27-139 | a failure names a step before `done`, and the actions start with the connect and contain no close |
| `ProxyCreator.Provision` | backend/proxy_creator.py:23-154 | a failure names a step before `done`, and the keys are those scanned from the key generator's output |
| `ProxyCreator.AttemptedSteps` | backend/proxy_creator.py:27-123 | the run stops at the first failing step with that step's message, having performed exactly the actions of the steps up to it |
| `ProxyCreator.ProvisionClosesOnce` | backend/proxy_creator.py:151-154 | on every path the session is opened first and closed exactly once, as the last action |
| `ProxyCreator.ProvisionSucceeds` | backend/proxy_creator.py:27-139 | the run succeeds exactly when every remote step succeeds, both keys are non-empty and the probe passes, and then the actions are the full sequence |
| `ProxyCreator.UploadNeedsKeys` | backend/proxy_creator.py:51-52 | any upload comes after a key generation that yielded both keys, and it is the document built with that private key |
| `ProxyCreator.MissingKeysStopTheRun` | backend/proxy_creator.py:51-52 | a missing key ends the run at the keys step with "Failed to generate keys", with no upload, no restart and no probe |
| `ProxyCreator.Install` | backend/proxy_creator.py:32-37 | the method performs exactly the install step |
| `ProxyCreator.GenerateKeys` | backend/proxy_creator.py:39-53 | the method performs exactly the keys step, and on success returns the scanned keys |
| `ProxyCreator.Configure` | backend/proxy_creator.py:55-115 | the method performs exactly the config step |
| `ProxyCreator.YieldDone` | backend/proxy_creator.py:30-139 | step k's `done` token completes k+1 steps |
| `ProxyCreator.TryProvision` | backend/proxy_creator.py:27-139 | the `try` block stops at the first failure, and the registry is changed only after verification, by one server row and one client row |
| `ProxyCreator.CreateProxyStream` | backend/proxy_creator.py:23-154 | the emitted tokens are the run's status tokens followed by one `result:` (with the link and QR payload) or one `error:` line, the session is closed, and the registry changes exactly when the run succeeds |
| `ApiClientManager.UserConfigShape` | backend/api_client_manager.py:26-45 | the user document has one inbound, `reality-in` on port 443 with decryption `none`, holding one client with the uuid, the username as email, and `xtls-rprx-vision` |
| `ApiClientManager.TempPathInjective` | backend/api_client_manager.py:48 | distinct uuids get distinct temporary paths |
| `ApiClientManager.CommandsNameTempPath` | backend/api_client_manager.py:48-74 | both the `adu` command and the `rm` command end with exactly the temporary path |
| `ApiClientManager.AdduFailureReports` | backend/api_client_manager.py:66-68 | the `adu` error carries the exit code, which reads back as that number, and ends with stderr |
| `ApiClientManager.AddUserViaApi` | backend/api_client_manager.py:7-80 | the uuid is returned exactly when connect, upload and `adu` succeed, `rm` of the temporary file follows every `adu`, a failure raises the message of the first failing step, and the session is closed exactly once |
| `ApiClientManager.RemoveUserViaApi` | backend/api_client_manager.py:83-106 | `rmu` is run once connected, a non-zero exit raises with stderr, the message raised is that of the first failing step, and the session is closed |
| `ApiClientManager.UsersOf` | backend/api_client_manager.py:132-149 | empty output gives `[]`, a list is returned as is, a dict with `users` gives that entry, and any other JSON or invalid JSON gives `[]` |
| `ApiClientManager.ListUsersViaApi` | backend/api_client_manager.py:109-152 | a non-zero exit raises with stderr, otherwise the classified output is returned, and the session is closed |
| `ApiClientManager.UserInfoOf` | backend/api_client_manager.py:174-191 | a failure whose stderr mentions "not found" in any case gives None, any other failure raises, and output gives its parsed JSON or None when empty or invalid |
| `ApiClientManager.NotFoundInAnyCase` | backend/api_client_manager.py:174-179 | a failed query whose stderr contains "not found" in any letter case, with any text around it, gives None whatever stdout holds |
| `ApiClientManager.GetUserInfoViaApi` | backend/api_client_manager.py:155-194 | once connected the query is run and classified as above, and the session is closed |
| `ClientManager.ClientObjects` | backend/client_manager.py:20-27 | the new list has the input's length and order, one object per client |
| `ClientManager.ClientObjectFields` | backend/client_manager.py:21-25 | entry i has `id` = the client's uuid, `username` = its username, and flow `xtls-rprx-vision` |
| `ClientManager.SetClients` | backend/client_manager.py:20 | the assignment succeeds exactly when the document has `inbounds[0].settings`, and afterwards the clients slot holds the new list |
| `ClientManager.SetClientsKeepsRest` | backend/client_manager.py:16-32 | no other key of the document, of the first inbound or of its settings, and no other inbound, changes |
| `ClientManager.SetClientsTwice` | backend/client_manager.py:20-27 | assigning the same list twice gives the same document as assigning it once |
| `ClientManager.SetClientsUndo` | backend/client_manager.py:20-27 | assigning the old list back restores the original document |
| `ClientManager.UpdateServerConfig` | backend/client_manager.py:7-43 | success exactly when every remote step succeeds and the slot exists; each failure raises its own error (the connect, SFTP, read or write message, an undecodable file, a missing slot, or the restart's stderr) and stops there with the exact actions so far; the service is restarted only after the new document was written; the only document ever written is the read one with the new list; the session is closed exactly once |
| `TrafficParser.CounterNameShape` | backend/traffic_parser.py:73 | a counter name is `user>>>` + username + `>>>` ... `>>>traffic>>>` + direction |
| `TrafficParser.StatCommandFlag` | backend/traffic_parser.py:17-19 | a stats query ends with `-reset=true` or `-reset=false` as asked, and names the counter in single quotes |
| `TrafficParser.Subscript` | backend/traffic_parser.py:35 | indexing finds a value exactly when the document is an object with the key, and it raises a TypeError exactly when the document is not an object, and the value found is the one stored under the key |
| `TrafficParser.IntOf` | backend/traffic_parser.py:35 | a JSON integer converts to itself, a boolean to 1 or 0, a string exactly when it parses as an integer and then to that integer, and null, arrays and objects are a TypeError |
| `TrafficParser.StatOf` | backend/traffic_parser.py:34-38 | a non-object document is a TypeError, a missing `stat` gives 0, a non-object `stat` is a TypeError, a missing `value` or one `int` refuses gives 0, and otherwise the result is `int` of the value |
| `TrafficParser.RunStat` | backend/traffic_parser.py:12-38 | a non-zero exit gives 0, so does output that does not decode, and decoded output gives the counter of that document |
| `TrafficParser.StatOfDocument` | backend/traffic_parser.py:29-35 | Xray's counter document gives back its value, whether as a number or as text |
| `TrafficParser.RunStatReadsValue` | backend/traffic_parser.py:30-35 | a successful query whose output decodes to a counter document returns that counter's value |
| `TrafficParser.Issued` | backend/traffic_parser.py:71-74 | two commands are issued per user |
| `TrafficParser.IssuedAt` | backend/traffic_parser.py:71-74 | user i's uplink query is command 2i and its downlink query command 2i+1 |
| `TrafficParser.IssuedFlags` | backend/traffic_parser.py:72-74 | those queries name the user's uplink and downlink counters, with `-reset=false` when reading and `-reset=true` when resetting |
| `TrafficParser.TallyStaysNone` | backend/traffic_parser.py:71-78 | once a read has raised, the tally stays failed |
| `TrafficParser.OccurrencesZero` | backend/traffic_parser.py:71 | a name occurs zero times exactly when it is not in the list |
| `TrafficParser.TallyCounts` | backend/traffic_parser.py:63-78 | after n users, the keys are exactly those users, and each holds its occurrence count times its uplink and downlink readings |
| `TrafficParser.TallyTable` | backend/traffic_parser.py:63-80 | the finished table's keys are exactly the server's usernames, `up`/`down` sum the uplink/downlink readings, and a repeated name accumulates |
| `TrafficParser.UsernamesForServer` | backend/traffic_parser.py:41-55 | an address with no server gives `[]`; otherwise the names are those of the clients of the first server at that address, and every name returned is a client of a server at that address |
| `TrafficParser.ReadUser` | backend/traffic_parser.py:72-78 | the inner loop adds the user's two readings, or stops at the first reading that raises, having issued the commands up to it |
| `TrafficParser.ReadCounters` | backend/traffic_parser.py:71-80 | the nested loops return the tally exactly when no reading raised, and otherwise stop at the first raising reading, having issued the commands up to it |
| `TrafficParser.ReadSession` | backend/traffic_parser.py:68-82 | a failed connect raises, otherwise the counters are read, and the session is closed exactly once |
| `TrafficParser.GetTrafficUsage` | backend/traffic_parser.py:58-82 | no usernames give `{}` without connecting, and otherwise the session's tally of `-reset=false` reads is returned |
| `TrafficParser.ResetTrafficUsage` | backend/traffic_parser.py:85-103 | no usernames give False without connecting, and otherwise every counter is queried with `-reset=true` and True is returned |
| `MainApp.GetServerDetails` | backend/main.py:56-69 | 404 exactly when no server has the id, and otherwise that server's id and name |
| `MainApp.CleanupHost` | backend/main.py:78-105 | with no server there is no remote action, a failed connect stops after the connect, and otherwise the cleanup command runs and the session closes, whatever the exit status |
| `MainApp.DeleteServer` | backend/main.py:72-112 | the server's clients and row are deleted and success is reported whatever the cleanup did, and the remote actions are those of the cleanup when one was asked for |
| `MainApp.ClientJoin` | backend/main.py:149-158 | a joined row pairs the client with that id with the server it belongs to |
| `MainApp.ClientJoinMissing` | backend/main.py:158-162 | with unique client ids, the join is empty exactly when no client with that id has its server in the table |
| `MainApp.GetClientDetails` | backend/main.py:144-173 | 404 exactly when the join is empty, and otherwise the uuid, the link built by the provisioning template and its QR image |
| `MainApp.ProvisionedClientLink` | backend/main.py:164 | the rows a successful provisioning stores give back, through the join, the very link the stream reported |
| `MainApp.AddClient` | backend/main.py:176-215 | a missing server gives 404 and no change, the client row is stored with the new uuid exactly when the remote add succeeds, and a remote failure gives 500 "Failed to add client: " followed by the message the remote add raised, and no change |
| `MainApp.DeleteClient` | backend/main.py:218-266 | no matching client or no server gives 404 and no change, the one row matching both ids is deleted exactly when the remote removal succeeds, and a remote failure gives 500 "Failed to delete client: " followed by the message the remote removal raised, and no change |
| `MainApp.AddClientAsWritten` | backend/main.py:183-198 | as written, every request fails: 404 for a missing server, otherwise 500 "Failed to add client: No item with that key" before the host is contacted |
| `MainApp.DeleteClientAsWritten` | backend/main.py:225-251 | as written, every request fails: the two 404s, otherwise 500 "Failed to delete client: No item with that key" before the host is contacted |
| `CreateView.NonBlank` | frontend/src/components/Create.js:56 | the kept lines are lines of the chunk that are not blank after a JS `trim` |
| `CreateView.Lines` | frontend/src/components/Create.js:56 | no line the loop sees is blank or holds a newline |
| `CreateView.FirstInProgress` | frontend/src/components/Create.js:76 | the index found is the first entry whose state is `inprogress`, or the end when none is |
| `CreateView.HandleLine` | frontend/src/components/Create.js:59-82 | the method dispatches one line exactly as the specification step does |
| `CreateView.HandleChunk` | frontend/src/components/Create.js:55-83 | the `for` loop over a chunk's lines agrees with consuming those lines one by one, and it stops at the first one that returns |
| `CreateView.StartProxyCreation` | frontend/src/components/Create.js:33-88 | the read loop agrees with consuming the chunks in order until a line returns, and the `finally` clears the progress flag unless the rendered result is truthy |
| `CreateView.StatusLineSetsOnlyItsKey` | frontend/src/components/Create.js:59-61 | a `status:` line sets its step's state and leaves every other key and every other field unchanged |
| `CreateView.StatusRoundTrip` | frontend/src/components/Create.js:60 | for a step and state free of `:`, the producer's status line parses back to exactly that step and state |
| `CreateView.ResultLine` | frontend/src/components/Create.js:62-64 | a `result:` line stores the parsed remainder and clears the progress flag, and text that does not parse throws |
| `CreateView.ErrorLine` | frontend/src/components/Create.js:65-81 | every `error:` line returns: `exists` restarts when confirmed and is "Operation cancelled by user." otherwise, and any other message is stored and its step marked failed |
| `CreateView.MarkFailedMarksFirst` | frontend/src/components/Create.js:76-79 | the first step rendered as `inprogress` is marked `error` |
| `CreateView.OtherLineIgnored` | frontend/src/components/Create.js:58-82 | a line with any other prefix changes nothing |
| `CreateView.BlankLineIgnored` | frontend/src/components/Create.js:56 | a blank line would change nothing even if it were dispatched |
| `CreateView.BlankLinesChangeNothing` | frontend/src/components/Create.js:56 | filtering blank lines out does not change what the loop computes |
| `CreateView.ErrorEndsProcessing` | frontend/src/components/Create.js:81 | lines after an `error:` line are never examined, and the loop stops there |
| `CreateView.ConsumeChunksAppend` | frontend/src/components/Create.js:51-84 | reading more chunks continues from where the earlier ones stopped, unless they already returned |
| `CreateView.DisplayStatus` | frontend/src/components/Create.js:133 | a step shows its recorded state when it is non-empty, and `pending` when it has none or it is empty |
| `CreateView.Timeline` | frontend/src/components/Create.js:132-133 | one entry per configured step, in order: entry i shows step i's recorded state when it is non-empty, and `pending` otherwise |
| `CreateView.CompletedAt` | frontend/src/components/Create.js:59-61 | after k steps are read, those steps show `done` and every other key keeps its earlier state |
| `CreateView.RenderedAppend` | backend/proxy_creator.py:28-152 | rendering two token lists one after the other gives the concatenation of their lines |
| `CreateView.TokenChunk` | frontend/src/components/Create.js:55-61 | a token's line read as its own chunk is dispatched exactly once, as that line |
| `CreateView.StatusTokenRead` | frontend/src/components/Create.js:59-61 | reading the producer's status token for step i records that state for step i and nothing else |
| `CreateView.TokensAppend` | frontend/src/components/Create.js:51-84 | reading the tokens of two parts of a stream continues from where the first part stopped |
| `CreateView.StepTokensRead` | frontend/src/components/Create.js:59-61 | reading a step's `inprogress` then `done` leaves that step `done` |
| `CreateView.CompletedStepsRead` | frontend/src/components/Create.js:59-61 | reading k completed steps marks exactly those steps `done` |
| `CreateView.SuccessfulStreamRead` | frontend/src/components/Create.js:51-84 | the page reading a successful provisioning stream ends with all six steps `done`, the parsed result and no error |
| `CreateView.FailingTokensRead` | frontend/src/components/Create.js:65-81 | a step's `inprogress` followed by an error stores the message and returns |
| `CreateView.FailedStreamRead` | frontend/src/components/Create.js:51-84 | the page reading a failed stream ends with the earlier steps `done`, the failing step `inprogress`, the first step the rendered snapshot shows `inprogress` marked `error`, and the error message, having returned |
| `CreateView.TimelineAfter` | frontend/src/components/Create.js:4-12 | after k steps are read, the timeline shows `pending` for `cleanup`, `done` for the first k producer steps and `pending` for the rest |

## Findings

| source | as written | input that shows it | evidently intended | confidence | as-written member | corrected member |
|---|---|---|---|---|---|---|
| backend/main.py:192-198 | `add_client` reads `server["ssh_port"]` inside its `try`, but the `servers` table (backend/database.py:9-17) has no such column, so `sqlite3.Row` raises "No item with that key" | any request for a server id present in the table | pass the server's SSH port (22 by default, as in the provisioning request) and add the user on the host | high; not executed | `MainApp.AddClientAsWritten` | `MainApp.AddClient` |
| backend/main.py:245-251 | `delete_client` reads `server["ssh_port"]` the same way, so once both lookups succeed it always answers 500 and never removes the row | any client id and server id that match a row, with the server present | remove the user on the host and then delete the row | high; not executed | `MainApp.DeleteClientAsWritten` | `MainApp.DeleteClient` |

The rest of the model uses the corrected handlers. They contact the host without
reading a port, because the remote calls are oracles here and the port plays no
part in their outcome.

## Left out

- SSH transport: paramiko connect, `exec_command`, SFTP and channel reads are oracle values. Timeouts, partial reads and byte decoding are not modelled.
- `backend/proxy_verifier.py` is not part of this model. `verify_proxy` is a boolean in the host's answers.
- QR encoding, PNG and base64 are one opaque `string -> string` parameter.
- `json.dumps` is an opaque parameter. `json.loads`, `json.load` and `JSON.parse` are one opaque decoder `string -> Option<Json>`. JSON floats are not modelled.
- `uuid.uuid4()` is a parameter of the operations that draw one.
- SQLite, FastAPI routing, `StreamingResponse`, templates and uvicorn are not modelled. The tables are row sequences. Row ids follow SQLite's rule for `INTEGER PRIMARY KEY`: one more than the largest id, or 1.
- `print` logging is not modelled. That includes the cleanup failure messages in `delete_server` and the counter messages in `_run_stat`.
- `backend/main.py:115-128` (`api_create_proxy`) passes seven arguments to `create_proxy_stream`, which takes five (backend/proxy_creator.py:23). The call raises before any token is produced. `ProxyCreator.CreateProxyStream` models the five-parameter generator as written.
- `ProxyCreator.CreateProxyStream`: the client insert names a column `email` (backend/proxy_creator.py:134), but the table has `username` (backend/database.py:26). The model stores the row as if the column were `username`. It does not model the insert failing and the uncommitted server row being lost.
- `get_server_traffic` and `get_debug_traffic` (backend/main.py:269-312) are not modelled. They select an `ssh_port` column the table lacks, and they pass four arguments to `get_traffic_usage`, which takes three.
- `get_servers`, `get_clients` and the React catch-all route (backend/main.py:45-53, 131-141, 316-318) are plain listings outside the modelled core.
- `Text.ParseInt` models Python `int()` on text as optional white space, an optional sign and ASCII digits. Underscores and non-ASCII digits are not accepted.
- `Text.Lower` only lower-cases ASCII letters, where Python lower-cases all of Unicode.
- `TrafficParser.Reader`: reading a counter is a function of the command, so the same counter read twice gives the same answer.
- `TrafficParser.IntOf` does not accept JSON floats, which Python's `int()` would truncate.
- `TrafficParser.RunStat` returns either a count or an uncaught `TypeError`. The text of Python's exceptions is not modelled.
- `ClientManager.UpdateServerConfig`: a `KeyError` from a client entry without `uuid` or `username` cannot happen, because `ClientEntry` always has both. The SFTP session's own open and close are not logged as actions.
- `CreateView.StartProxyCreation`: the nested `startProxyCreation(true)` run after a confirmed `error:exists` is reported as the `Restarted` stop, not run. Nothing in the modelled backend emits `exists`.
- `CreateView.StartProxyCreation`: the POST request and its payload are not modelled, and nor is React's rendering. The stale reads of `statuses` and `result` (Create.js:76 and 86) are modelled as snapshot values in `Browser`.
- `CreateView.SuccessfulStreamRead` and `CreateView.FailedStreamRead` assume each token arrives as its own chunk. The generator yields tokens without newlines, and the page splits chunks on newlines, so tokens that the transport merges into one chunk are read as one line. In that case the page itself goes wrong: "status:connect:donestatus:install:inprogress" records `donestatus` for `connect`. The model does not cover merged or split chunks.
- `CreateView.MarkFailedMarksFirst`: JavaScript's `Object.keys` order is taken to be the order in which the step keys were first set.
