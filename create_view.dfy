/** frontend/src/components/Create.js: the page that consumes the provisioning
    stream.  Each chunk read from the response is split at '\n', lines that
    trim to nothing are dropped, and every remaining line is dispatched on its
    prefix: `status:` records a step's state, `result:` stores the decoded
    result, `error:` reports the failure (or asks whether to overwrite) and
    ends processing.  The React state the page keeps is the `View` value; the
    browser's answers (the JSON parser, the confirmation dialog, the state the
    handler's closure was rendered with) are the `Browser` parameter. */
module CreateView {
  import opened Wrappers
  import opened Text
  import opened JsonValue
  import ProxyCreator

  /** The step keys of `stepsConfig`, in display order. */
  const StepKeys: seq<string> := ["cleanup", "connect", "install", "keys", "config", "verify", "done"]

  const Cancelled := "Operation cancelled by user."

  /** The page's state: `statuses` (a step whose entry is `None` was assigned
      `undefined`), `result`, `error` and `inProgress`. */
  datatype View = View(
    statuses: map<string, Option<string>>, result: Option<Json>, error: Option<string>, inProgress: bool)

  /** What `startProxyCreation` sets before it sends the request. */
  const Initial := View(map[], None, None, true)

  /** What the browser answers: `JSON.parse` (None where it throws), the
      answer to `window.confirm`, and the `statuses` and `result` the
      handler's closure captured when the page was rendered (entries in
      insertion order). */
  datatype Browser = Browser(
    decode: string -> Option<Json>,
    confirm: bool,
    renderedStatuses: seq<(string, Option<string>)>,
    renderedResult: Option<Json>)

  /** Why processing ended before the stream did: an `error:` line returned, a
      confirmed overwrite restarted the whole flow with `overwrite = true`, or
      `JSON.parse` threw on a `result:` line. */
  datatype Stop = Returned | Restarted | Threw

  /** The state after some lines, and whether processing has ended. */
  datatype Progress = Progress(view: View, stop: Option<Stop>)

  // ---------------------------------------------------------------- lines

  /** `line.trim() === ''`. */
  predicate Blank(line: string) {
    forall k :: 0 <= k < |line| ==> IsJsSpace(line[k])
  }

  /** `parts.filter(line => line.trim() !== '')`. */
  function NonBlank(parts: seq<string>): (lines: seq<string>)
    ensures |lines| <= |parts|
    ensures forall k :: 0 <= k < |lines| ==> !Blank(lines[k]) && lines[k] in parts
    decreases |parts|
  {
    if parts == [] then []
    else if Blank(parts[0]) then NonBlank(parts[1..])
    else [parts[0]] + NonBlank(parts[1..])
  }

  /** The lines of one chunk. */
  function Lines(chunk: string): (lines: seq<string>)
    ensures forall k :: 0 <= k < |lines| ==> !Blank(lines[k]) && '\n' !in lines[k]
  {
    NonBlank(SplitOn(chunk, '\n'))
  }

  // ---------------------------------------------------------------- dispatch

  /** `const [step, state] = line.substring(7).split(':')`: the first two
      fields, the second `undefined` when there is no ':'. */
  function StatusEntry(line: string): (string, Option<string>)
    requires StartsWith(line, "status:")
  {
    var parts := SplitOn(line[7..], ':');
    (parts[0], if |parts| > 1 then Some(parts[1]) else None)
  }

  /** `Object.keys(statuses).find(k => statuses[k] === 'inprogress')`, as an
      index into the entries: `|entries|` when no entry is in progress. */
  function FirstInProgress(entries: seq<(string, Option<string>)>): (i: nat)
    ensures i <= |entries|
    ensures forall k :: 0 <= k < i ==> entries[k].1 != Some("inprogress")
    ensures i < |entries| ==> entries[i].1 == Some("inprogress")
    decreases |entries|
  {
    if entries == [] || entries[0].1 == Some("inprogress") then 0
    else 1 + FirstInProgress(entries[1..])
  }

  /** The statuses after a non-`exists` error: the step the rendered statuses
      show in progress is marked `error`, unless there is none or its key is
      the empty string (which `if (currentStep)` treats as false). */
  function MarkFailed(statuses: map<string, Option<string>>, rendered: seq<(string, Option<string>)>)
    : (marked: map<string, Option<string>>)
  {
    var i := FirstInProgress(rendered);
    if i < |rendered| && rendered[i].0 != "" then statuses[rendered[i].0 := Some("error")] else statuses
  }

  /** JavaScript truthiness of the stored result (`null` when there is none). */
  predicate Truthy(result: Option<Json>) {
    match result
    case None => false
    case Some(JNull) => false
    case Some(JBool(b)) => b
    case Some(JInt(n)) => n != 0
    case Some(JStr(s)) => s != ""
    case Some(_) => true
  }

  /** The body of `for (const line of lines)` for one line. */
  function Step(v: View, line: string, browser: Browser): Progress {
    if StartsWith(line, "status:") then
      var entry := StatusEntry(line);
      Progress(v.(statuses := v.statuses[entry.0 := entry.1]), None)
    else if StartsWith(line, "result:") then
      match browser.decode(line[7..])
      case None => Progress(v, Some(Threw))
      case Some(result) => Progress(v.(result := Some(result), inProgress := false), None)
    else if StartsWith(line, "error:") then
      var message := line[6..];
      if message == "exists" then
        if browser.confirm then Progress(v, Some(Restarted))
        else Progress(v.(error := Some(Cancelled), inProgress := false), Some(Returned))
      else
        Progress(v.(error := Some(message), statuses := MarkFailed(v.statuses, browser.renderedStatuses)), Some(Returned))
    else Progress(v, None)
  }

  /** The lines of one chunk, in order, until one of them ends processing. */
  function ConsumeLines(v: View, lines: seq<string>, browser: Browser): Progress
    decreases |lines|
  {
    if lines == [] then Progress(v, None)
    else
      var p := Step(v, lines[0], browser);
      if p.stop.Some? then p else ConsumeLines(p.view, lines[1..], browser)
  }

  /** The chunks, in order, until a line ends processing. */
  function ConsumeChunks(v: View, chunks: seq<string>, browser: Browser): Progress
    decreases |chunks|
  {
    if chunks == [] then Progress(v, None)
    else
      var p := ConsumeLines(v, Lines(chunks[0]), browser);
      if p.stop.Some? then p else ConsumeChunks(p.view, chunks[1..], browser)
  }

  /** The `finally` block: `inProgress` is cleared unless the rendered result is truthy. */
  function Finally(v: View, browser: Browser): View {
    if Truthy(browser.renderedResult) then v else v.(inProgress := false)
  }

  /** One pass of `for (const line of lines)`: dispatches the line on its prefix. */
  method HandleLine(v: View, line: string, browser: Browser) returns (view: View, stop: Option<Stop>)
    ensures Progress(view, stop) == Step(v, line, browser)
  {
    view, stop := v, None;
    if StartsWith(line, "status:") {
      var entry := StatusEntry(line);
      view := view.(statuses := view.statuses[entry.0 := entry.1]);
    } else if StartsWith(line, "result:") {
      var result := browser.decode(line[7..]);
      if result.None? {
        stop := Some(Threw);
      } else {
        view := view.(result := result, inProgress := false);
      }
    } else if StartsWith(line, "error:") {
      var message := line[6..];
      if message == "exists" {
        if browser.confirm {
          stop := Some(Restarted);
        } else {
          view := view.(error := Some(Cancelled), inProgress := false);
          stop := Some(Returned);
        }
      } else {
        view := view.(error := Some(message), statuses := MarkFailed(view.statuses, browser.renderedStatuses));
        stop := Some(Returned);
      }
    }
  }

  /** The lines of one chunk, handled in order until one ends processing. */
  method HandleChunk(v: View, chunk: string, browser: Browser) returns (view: View, stop: Option<Stop>)
    ensures Progress(view, stop) == ConsumeLines(v, Lines(chunk), browser)
  {
    var lines := Lines(chunk);
    view, stop := v, None;
    var j := 0;
    while j < |lines| && stop.None?
      invariant 0 <= j <= |lines|
      invariant stop.None? ==> ConsumeLines(v, lines, browser) == ConsumeLines(view, lines[j..], browser)
      invariant stop.Some? ==> ConsumeLines(v, lines, browser) == Progress(view, stop)
    {
      assert lines[j..][1..] == lines[j + 1..];
      view, stop := HandleLine(view, lines[j], browser);
      j := j + 1;
    }
  }

  /** `startProxyCreation`: reads the chunks of the response in order and
      handles every line, stopping at the first line that ends processing;
      the final state is the fold of `Step` over those lines, passed through
      the `finally` block. */
  method StartProxyCreation(chunks: seq<string>, browser: Browser) returns (view: View, stop: Option<Stop>)
    ensures var p := ConsumeChunks(Initial, chunks, browser);
      stop == p.stop && view == Finally(p.view, browser)
  {
    view := Initial;
    stop := None;
    var i := 0;
    while i < |chunks| && stop.None?
      invariant 0 <= i <= |chunks|
      invariant stop.None? ==> ConsumeChunks(Initial, chunks, browser) == ConsumeChunks(view, chunks[i..], browser)
      invariant stop.Some? ==> ConsumeChunks(Initial, chunks, browser) == Progress(view, stop)
    {
      assert chunks[i..][1..] == chunks[i + 1..];
      view, stop := HandleChunk(view, chunks[i], browser);
      i := i + 1;
    }
    view := Finally(view, browser);
  }

  /** `statuses[step.key] || 'pending'`: what the timeline shows for a step. */
  function DisplayStatus(statuses: map<string, Option<string>>, key: string): (shown: string)
    ensures shown == "pending" || (key in statuses && statuses[key] == Some(shown))
    ensures key !in statuses || statuses[key] == None || statuses[key] == Some("") ==> shown == "pending"
    ensures key in statuses && statuses[key].Some? && statuses[key].value != "" ==> shown == statuses[key].value
  {
    if key in statuses && statuses[key].Some? && statuses[key].value != "" then statuses[key].value else "pending"
  }

  /** The timeline: what each step of `stepsConfig` shows, in order. */
  function Timeline(statuses: map<string, Option<string>>): (shown: seq<string>)
    ensures |shown| == |StepKeys|
    ensures forall i :: 0 <= i < |StepKeys| ==>
              var key := StepKeys[i];
              && (key in statuses && statuses[key].Some? && statuses[key].value != "" ==> shown[i] == statuses[key].value)
              && (key !in statuses || statuses[key] == None || statuses[key] == Some("") ==> shown[i] == "pending")
  {
    seq(|StepKeys|, i requires 0 <= i < |StepKeys| => DisplayStatus(statuses, StepKeys[i]))
  }

  // ---------------------------------------------------------------- one line

  /** A `status:` line records the state under its step key and changes
      nothing else. */
  lemma {:induction false} StatusLineSetsOnlyItsKey(v: View, line: string, browser: Browser)
    requires StartsWith(line, "status:")
    ensures var p := Step(v, line, browser); var (key, state) := StatusEntry(line);
      && p.stop == None
      && key in p.view.statuses && p.view.statuses[key] == state
      && (forall k :: k != key ==> (k in p.view.statuses <==> k in v.statuses))
      && (forall k :: k != key && k in v.statuses ==> p.view.statuses[k] == v.statuses[k])
      && p.view.result == v.result && p.view.error == v.error && p.view.inProgress == v.inProgress
  {
  }

  /** The line the backend yields for a step and a state that contain no ':'
      is read back as exactly that step and state. */
  lemma {:induction false} StatusRoundTrip(step: string, state: string)
    requires ':' !in step && ':' !in state
    ensures var line := ProxyCreator.Render(ProxyCreator.Status(step, state));
      StartsWith(line, "status:") && StatusEntry(line) == (step, Some(state))
  {
    var line := ProxyCreator.Render(ProxyCreator.Status(step, state));
    assert line[..7] == "status:";
    assert line[7..] == step + [':'] + state;
    SplitOnJoined(step, state, ':');
    SplitOnSingle(state, ':');
  }

  /** A `result:` line stores the decoded result and clears `inProgress`;
      when `JSON.parse` throws, processing ends with the state unchanged. */
  lemma {:induction false} ResultLine(v: View, line: string, browser: Browser)
    requires StartsWith(line, "result:")
    ensures var p := Step(v, line, browser);
      match browser.decode(line[7..])
      case Some(result) => p == Progress(View(v.statuses, Some(result), v.error, false), None)
      case None => p == Progress(v, Some(Threw))
  {
    assert line[0] == 'r';
    assert !StartsWith(line, "status:");
  }

  /** An `error:` line always ends processing.  `error:exists` asks the user:
      a confirmation restarts the flow, a refusal records the cancellation;
      any other text becomes the error shown. */
  lemma {:induction false} ErrorLine(v: View, line: string, browser: Browser)
    requires StartsWith(line, "error:")
    ensures var p := Step(v, line, browser);
      && p.stop.Some?
      && (line[6..] == "exists" && browser.confirm ==> p == Progress(v, Some(Restarted)))
      && (line[6..] == "exists" && !browser.confirm ==>
            p.stop == Some(Returned) && p.view.error == Some("Operation cancelled by user.") && !p.view.inProgress
            && p.view.statuses == v.statuses)
      && (line[6..] != "exists" ==>
            p.stop == Some(Returned) && p.view.error == Some(line[6..]) && p.view.inProgress == v.inProgress
            && p.view.statuses == MarkFailed(v.statuses, browser.renderedStatuses))
  {
    assert line[0] == 'e';
    assert !StartsWith(line, "status:") && !StartsWith(line, "result:");
  }

  /** A non-`exists` error marks the step the rendered statuses show in
      progress, when there is one with a non-empty key, and nothing else. */
  lemma {:induction false} MarkFailedMarksFirst(statuses: map<string, Option<string>>, rendered: seq<(string, Option<string>)>,
                                                i: nat)
    requires i < |rendered| && rendered[i].1 == Some("inprogress") && rendered[i].0 != ""
    requires forall k :: 0 <= k < i ==> rendered[k].1 != Some("inprogress")
    ensures MarkFailed(statuses, rendered) == statuses[rendered[i].0 := Some("error")]
  {
  }

  /** Lines with any other prefix are ignored. */
  lemma {:induction false} OtherLineIgnored(v: View, line: string, browser: Browser)
    requires !StartsWith(line, "status:") && !StartsWith(line, "result:") && !StartsWith(line, "error:")
    ensures Step(v, line, browser) == Progress(v, None)
  {
  }

  /** A line that starts with a visible character is not blank. */
  lemma {:induction false} PrefixedNotBlank(line: string, prefix: string)
    requires prefix != [] && !IsJsSpace(prefix[0])
    ensures StartsWith(line, prefix) ==> !Blank(line)
  {
    if StartsWith(line, prefix) {
      assert line[0] == prefix[0];
    }
  }

  /** A blank line has none of the three prefixes, so it would be ignored. */
  lemma {:induction false} BlankLineIgnored(v: View, line: string, browser: Browser)
    requires Blank(line)
    ensures Step(v, line, browser) == Progress(v, None)
  {
    PrefixedNotBlank(line, "status:");
    PrefixedNotBlank(line, "result:");
    PrefixedNotBlank(line, "error:");
  }

  // ---------------------------------------------------------------- many lines

  /** Dropping the blank lines does not change what a chunk does. */
  lemma {:induction false} BlankLinesChangeNothing(v: View, parts: seq<string>, browser: Browser)
    ensures ConsumeLines(v, NonBlank(parts), browser) == ConsumeLines(v, parts, browser)
    decreases |parts|
  {
    if parts != [] {
      if Blank(parts[0]) {
        BlankLineIgnored(v, parts[0], browser);
        BlankLinesChangeNothing(v, parts[1..], browser);
      } else {
        var p := Step(v, parts[0], browser);
        if p.stop.None? {
          BlankLinesChangeNothing(p.view, parts[1..], browser);
        }
        assert ([parts[0]] + NonBlank(parts[1..]))[1..] == NonBlank(parts[1..]);
      }
    }
  }

  /** Processing ends at an `error:` line: the lines after it are never examined. */
  lemma {:induction false} ErrorEndsProcessing(v: View, lines: seq<string>, i: nat, browser: Browser)
    requires i < |lines| && StartsWith(lines[i], "error:")
    ensures ConsumeLines(v, lines, browser) == ConsumeLines(v, lines[..i + 1], browser)
    ensures ConsumeLines(v, lines, browser).stop.Some?
    decreases i
  {
    var p := Step(v, lines[0], browser);
    assert lines[..i + 1][0] == lines[0];
    if i == 0 {
      ErrorLine(v, lines[0], browser);
    } else if p.stop.None? {
      assert lines[..i + 1][1..] == lines[1..][..i];
      ErrorEndsProcessing(p.view, lines[1..], i - 1, browser);
    }
  }

  /** Reading `a` and then `b` is reading `a + b`; once a line has ended
      processing, the chunks after it change nothing. */
  lemma {:induction false} ConsumeChunksAppend(v: View, a: seq<string>, b: seq<string>, browser: Browser)
    ensures ConsumeChunks(v, a + b, browser) ==
      var p := ConsumeChunks(v, a, browser);
      if p.stop.Some? then p else ConsumeChunks(p.view, b, browser)
    decreases |a|
  {
    if a == [] {
      assert a + b == b;
    } else {
      assert (a + b)[0] == a[0] && (a + b)[1..] == a[1..] + b;
      var p := ConsumeLines(v, Lines(a[0]), browser);
      if p.stop.None? {
        ConsumeChunksAppend(p.view, a[1..], b, browser);
      }
    }
  }

  // ---------------------------------------------------------------- the stream end to end

  /** The backend's tokens, each arriving as its own chunk. */
  function Rendered(tokens: seq<ProxyCreator.Token>): seq<string> {
    seq(|tokens|, i requires 0 <= i < |tokens| => ProxyCreator.Render(tokens[i]))
  }

  /** The statuses after the first `k` steps completed, over `statuses`. */
  function Completed(statuses: map<string, Option<string>>, k: nat): map<string, Option<string>>
    requires k <= |ProxyCreator.Steps|
  {
    if k == 0 then statuses else Completed(statuses, k - 1)[ProxyCreator.Steps[k - 1] := Some("done")]
  }

  /** After `k` completed steps, those steps are `done` and every other key is as it was. */
  lemma {:induction false} CompletedAt(statuses: map<string, Option<string>>, k: nat, key: string)
    requires k <= |ProxyCreator.Steps|
    ensures key in ProxyCreator.Steps[..k] ==> key in Completed(statuses, k) && Completed(statuses, k)[key] == Some("done")
    ensures key !in ProxyCreator.Steps[..k] ==>
      && (key in Completed(statuses, k) <==> key in statuses)
      && (key in statuses ==> Completed(statuses, k)[key] == statuses[key])
  {
    if k > 0 {
      CompletedAt(statuses, k - 1, key);
      assert ProxyCreator.Steps[..k] == ProxyCreator.Steps[..k - 1] + [ProxyCreator.Steps[k - 1]];
    }
  }

  /** The step names contain neither ':' nor a line break. */
  lemma StepNamesPlain()
    ensures forall i :: 0 <= i < |ProxyCreator.Steps| ==> ':' !in ProxyCreator.Steps[i] && '\n' !in ProxyCreator.Steps[i]
  {
    assert ProxyCreator.Steps == ["connect", "install", "keys", "config", "verify", "done"];
  }

  /** The states the backend reports contain neither ':' nor a line break. */
  lemma StateNamesPlain()
    ensures ':' !in "inprogress" && '\n' !in "inprogress" && ':' !in "done" && '\n' !in "done"
  {
  }

  lemma {:induction false} RenderedAppend(a: seq<ProxyCreator.Token>, b: seq<ProxyCreator.Token>)
    ensures Rendered(a + b) == Rendered(a) + Rendered(b)
  {
  }

  /** A token with no line break in it is one line of its own chunk, read by `Step`. */
  lemma {:induction false} TokenChunk(v: View, t: ProxyCreator.Token, browser: Browser)
    requires '\n' !in ProxyCreator.Render(t)
    ensures Lines(ProxyCreator.Render(t)) == [ProxyCreator.Render(t)]
    ensures ConsumeChunks(v, Rendered([t]), browser) == Step(v, ProxyCreator.Render(t), browser)
  {
    assert Rendered([t]) == [ProxyCreator.Render(t)];
    var line := ProxyCreator.Render(t);
    SplitOnSingle(line, '\n');
    ProxyCreator.RenderTerminal(t);
    PrefixedNotBlank(line, "status:");
    PrefixedNotBlank(line, "result:");
    PrefixedNotBlank(line, "error:");
    assert NonBlank([line]) == [line] + NonBlank([line][1..]);
    var p := Step(v, line, browser);
    assert [line][1..] == [];
    assert ConsumeLines(v, [line], browser) == if p.stop.Some? then p else ConsumeLines(p.view, [], browser);
    assert ConsumeChunks(v, [line], browser) == if p.stop.Some? then p else ConsumeChunks(p.view, [], browser);
  }

  lemma {:induction false} Overwrite<K, V>(m: map<K, V>, key: K, first: V, second: V)
    ensures m[key := first][key := second] == m[key := second]
  {
  }

  /** The status token of a step read from `v`. */
  lemma {:induction false} StatusTokenRead(v: View, i: nat, state: string, browser: Browser)
    requires i < |ProxyCreator.Steps| && ':' !in state && '\n' !in state
    ensures ConsumeChunks(v, Rendered([ProxyCreator.Status(ProxyCreator.Steps[i], state)]), browser)
      == Progress(v.(statuses := v.statuses[ProxyCreator.Steps[i] := Some(state)]), None)
  {
    var t := ProxyCreator.Status(ProxyCreator.Steps[i], state);
    StepNamesPlain();
    StatusRoundTrip(ProxyCreator.Steps[i], state);
    assert ProxyCreator.Render(t) == "status:" + ProxyCreator.Steps[i] + ":" + state;
    TokenChunk(v, t, browser);
  }

  /** Reading tokens `a` and then `b` is reading `a + b`. */
  lemma {:induction false} TokensAppend(v: View, a: seq<ProxyCreator.Token>, b: seq<ProxyCreator.Token>, browser: Browser)
    ensures ConsumeChunks(v, Rendered(a + b), browser) ==
      var p := ConsumeChunks(v, Rendered(a), browser);
      if p.stop.Some? then p else ConsumeChunks(p.view, Rendered(b), browser)
  {
    RenderedAppend(a, b);
    ConsumeChunksAppend(v, Rendered(a), Rendered(b), browser);
  }

  /** A step's `inprogress` token followed by its `done` token leaves it `done`. */
  lemma {:induction false} StepTokensRead(v: View, i: nat, browser: Browser)
    requires i < |ProxyCreator.Steps|
    ensures var step := ProxyCreator.Steps[i];
      ConsumeChunks(v, Rendered([ProxyCreator.Status(step, "inprogress"), ProxyCreator.Status(step, "done")]), browser)
      == Progress(v.(statuses := v.statuses[step := Some("done")]), None)
  {
    var step := ProxyCreator.Steps[i];
    var started := ProxyCreator.Status(step, "inprogress");
    var finished := ProxyCreator.Status(step, "done");
    StateNamesPlain();
    assert [started, finished] == [started] + [finished];
    TokensAppend(v, [started], [finished], browser);
    StatusTokenRead(v, i, "inprogress", browser);
    var v1 := v.(statuses := v.statuses[step := Some("inprogress")]);
    StatusTokenRead(v1, i, "done", browser);
    Overwrite(v.statuses, step, Some("inprogress"), Some("done"));
  }

  /** The tokens of `k` completed steps leave each of them `done` and end nothing. */
  lemma {:induction false} CompletedStepsRead(v: View, k: nat, browser: Browser)
    requires k <= |ProxyCreator.Steps|
    ensures ConsumeChunks(v, Rendered(ProxyCreator.CompletedSteps(k)), browser)
      == Progress(v.(statuses := Completed(v.statuses, k)), None)
  {
    if k == 0 {
      assert Rendered(ProxyCreator.CompletedSteps(0)) == [];
    } else {
      var step := ProxyCreator.Steps[k - 1];
      var pair := [ProxyCreator.Status(step, "inprogress"), ProxyCreator.Status(step, "done")];
      var before := ProxyCreator.CompletedSteps(k - 1);
      assert ProxyCreator.CompletedSteps(k) == before + pair;
      TokensAppend(v, before, pair, browser);
      CompletedStepsRead(v, k - 1, browser);
      StepTokensRead(v.(statuses := Completed(v.statuses, k - 1)), k - 1, browser);
    }
  }

  /** A run that succeeds leaves every step `done`, the decoded result stored,
      no error and `inProgress` cleared, and processing reaches the end of the stream. */
  lemma {:induction false} SuccessfulStreamRead(payload: string, browser: Browser)
    requires '\n' !in payload && browser.decode(payload).Some?
    ensures ConsumeChunks(Initial, Rendered(ProxyCreator.StreamTokens(None, payload)), browser)
      == Progress(View(Completed(map[], |ProxyCreator.Steps|), browser.decode(payload), None, false), None)
  {
    var done := ProxyCreator.CompletedSteps(|ProxyCreator.Steps|);
    var last := ProxyCreator.Result(payload);
    TokensAppend(Initial, done, [last], browser);
    CompletedStepsRead(Initial, |ProxyCreator.Steps|, browser);
    var line := ProxyCreator.Render(last);
    assert line == "result:" + payload;
    assert line[..7] == "result:" && line[7..] == payload;
    TokenChunk(Initial.(statuses := Completed(map[], |ProxyCreator.Steps|)), last, browser);
    ResultLine(Initial.(statuses := Completed(map[], |ProxyCreator.Steps|)), line, browser);
  }

  /** The failing step's `inprogress` token followed by the `error:` token
      marks the step in progress, records the message and returns. */
  lemma {:induction false} FailingTokensRead(v: View, i: nat, message: string, browser: Browser)
    requires i < |ProxyCreator.Steps| && '\n' !in message && message != "exists"
    ensures var step := ProxyCreator.Steps[i];
      ConsumeChunks(v, Rendered([ProxyCreator.Status(step, "inprogress"), ProxyCreator.Error(message)]), browser)
      == Progress(v.(error := Some(message),
                     statuses := MarkFailed(v.statuses[step := Some("inprogress")], browser.renderedStatuses)),
                  Some(Returned))
  {
    var step := ProxyCreator.Steps[i];
    var started := ProxyCreator.Status(step, "inprogress");
    var last := ProxyCreator.Error(message);
    StateNamesPlain();
    assert [started, last] == [started] + [last];
    TokensAppend(v, [started], [last], browser);
    StatusTokenRead(v, i, "inprogress", browser);
    var v1 := v.(statuses := v.statuses[step := Some("inprogress")]);
    var line := ProxyCreator.Render(last);
    assert line == "error:" + message;
    assert line[..6] == "error:" && line[6..] == message;
    TokenChunk(v1, last, browser);
    ErrorLine(v1, line, browser);
  }

  /** A run that fails at a step leaves the earlier steps `done` and the
      failing one `inprogress` (then marked as the rendered statuses dictate),
      shows the exception text as the error, and returns. */
  lemma {:induction false} FailedStreamRead(failure: ProxyCreator.Failure, payload: string, browser: Browser)
    requires failure.step < |ProxyCreator.Steps| && '\n' !in failure.message && failure.message != "exists"
    ensures ConsumeChunks(Initial, Rendered(ProxyCreator.StreamTokens(Some(failure), payload)), browser)
      == Progress(View(MarkFailed(Completed(map[], failure.step)[ProxyCreator.Steps[failure.step] := Some("inprogress")],
                                  browser.renderedStatuses),
                       None, Some(failure.message), true),
                  Some(Returned))
  {
    var k := failure.step;
    var before := ProxyCreator.CompletedSteps(k);
    var tail := [ProxyCreator.Status(ProxyCreator.Steps[k], "inprogress"), ProxyCreator.Error(failure.message)];
    assert ProxyCreator.StreamTokens(Some(failure), payload) == before + tail;
    TokensAppend(Initial, before, tail, browser);
    CompletedStepsRead(Initial, k, browser);
    FailingTokensRead(Initial.(statuses := Completed(map[], k)), k, failure.message, browser);
  }

  /** While the run is in progress with `k` steps completed, the timeline
      shows the cleanup step (which the backend never reports) pending, the
      completed steps done and the rest pending. */
  lemma {:induction false} TimelineAfter(k: nat)
    requires k <= |ProxyCreator.Steps|
    ensures Timeline(Completed(map[], k)) ==
      ["pending"] + seq(|ProxyCreator.Steps|, i requires 0 <= i < |ProxyCreator.Steps| => if i < k then "done" else "pending")
  {
    var statuses := Completed(map[], k);
    var expected := ["pending"] + seq(|ProxyCreator.Steps|, i requires 0 <= i < |ProxyCreator.Steps| => if i < k then "done" else "pending");
    assert StepKeys == ["cleanup"] + ProxyCreator.Steps;
    forall i | 0 <= i < |StepKeys| ensures Timeline(statuses)[i] == expected[i] {
      CompletedAt(map[], k, StepKeys[i]);
      if i == 0 {
        assert "cleanup" !in ProxyCreator.Steps[..k];
      } else if i - 1 < k {
        assert StepKeys[i] == ProxyCreator.Steps[..k][i - 1];
      } else {
        assert StepKeys[i] !in ProxyCreator.Steps[..k];
      }
    }
  }
}
