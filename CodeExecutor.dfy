/**
 * The frontend executor: `executeCode` dispatches on the language, and `executeJavaScript`
 * shows the process output as a running concatenation of chunk-wise stripped chunks. The
 * container (file write, spawn, output stream) and the fetch of the compile endpoint are
 * parameters.
 */
module CodeExecutor {
  import opened JsValues
  import StringUtils

  datatype Language = JavaScript | TypeScript

  /**
   * What writing the code to index.js and running `node index.js` does: the process streams its
   * output in chunks, or one of the awaited container calls throws before any output.
   */
  datatype ProcessRun = Streamed(chunks: seq<string>) | Failed(message: string)

  /** The process run for the code handed over (a string, or whatever `data.jsCode` held). */
  type Container = JsValue -> ProcessRun

  /** The fetch of the compile endpoint: its JSON's `jsCode` field, or a throw (network, JSON). */
  datatype CompileFetch = Fetched(jsCode: JsValue) | FetchFailed

  /** The output after the given chunks: each chunk stripped on its own, then concatenated. */
  function StripChunks(chunks: seq<string>): (r: string)
    ensures |chunks| == 1 ==> r == StringUtils.StripAnsiCodes(chunks[0])
  {
    if chunks == [] then ""
    else StripChunks(chunks[..|chunks| - 1]) + StringUtils.StripAnsiCodes(chunks[|chunks| - 1])
  }

  /** The concatenation of the chunks, what the process wrote. */
  function Concat(chunks: seq<string>): string {
    if chunks == [] then "" else Concat(chunks[..|chunks| - 1]) + chunks[|chunks| - 1]
  }

  /** The values shown one after the other while the chunks arrive: one per chunk. */
  function Displays(chunks: seq<string>): (d: seq<string>)
    ensures |d| == |chunks|
    ensures forall k :: 0 <= k < |chunks| ==> d[k] == StripChunks(chunks[..k + 1])
  {
    if chunks == [] then []
    else
      var init := chunks[..|chunks| - 1];
      assert forall j :: 0 <= j <= |init| ==> init[..j] == chunks[..j];
      assert chunks[..|chunks|] == chunks;
      Displays(init) + [StripChunks(chunks)]
  }

  /** What a run shows: the running outputs, or the single error line. */
  function RunDisplays(run: ProcessRun): seq<string> {
    match run
    case Streamed(chunks) => Displays(chunks)
    case Failed(message) => ["Execution Error: " + message]
  }

  /** One more chunk appends that chunk, stripped on its own. */
  lemma StripChunksSnoc(a: seq<string>, c: string)
    ensures StripChunks(a + [c]) == StripChunks(a) + StringUtils.StripAnsiCodes(c)
  {
    assert (a + [c])[..|a|] == a;
  }

  /** Stripping chunk-wise distributes over splitting the chunk sequence. */
  lemma {:induction false} StripChunksAppend(a: seq<string>, b: seq<string>)
    ensures StripChunks(a + b) == StripChunks(a) + StripChunks(b)
    decreases |b|
  {
    if b == [] {
      assert a + b == a;
    } else {
      var b', last := b[..|b| - 1], b[|b| - 1];
      var x := StringUtils.StripAnsiCodes(last);
      assert StripChunks(a + b) == StripChunks(a + b') + x by {
        assert a + b == (a + b') + [last];
        StripChunksSnoc(a + b', last);
      }
      assert StripChunks(b) == StripChunks(b') + x by {
        assert b == b' + [last];
        StripChunksSnoc(b', last);
      }
      StripChunksAppend(a, b');
    }
  }

  /** The shown output is a subsequence of what the process wrote: chunk-wise stripping only deletes. */
  lemma {:induction false} StripChunksSubsequence(chunks: seq<string>)
    ensures StringUtils.IsSubsequence(StripChunks(chunks), Concat(chunks))
    decreases |chunks|
  {
    if chunks == [] {
    } else {
      var init, last := chunks[..|chunks| - 1], chunks[|chunks| - 1];
      StripChunksSubsequence(init);
      StringUtils.StripIsSubsequence(last);
      StringUtils.SubsequenceConcat(StripChunks(init), Concat(init), StringUtils.StripAnsiCodes(last), last);
    }
  }

  /** Each shown value extends the one before: the output only grows at the end. */
  lemma DisplaysGrow(chunks: seq<string>, k: nat)
    requires k + 1 < |chunks|
    ensures var d := Displays(chunks); d[k + 1] == d[k] + StringUtils.StripAnsiCodes(chunks[k + 1])
  {
    assert chunks[..k + 2][..k + 1] == chunks[..k + 1];
  }

  /** One more chunk adds one shown value: the previous output extended by the stripped chunk. */
  lemma DisplaysSnoc(chunks: seq<string>, i: nat)
    requires i < |chunks|
    ensures StripChunks(chunks[..i + 1]) == StripChunks(chunks[..i]) + StringUtils.StripAnsiCodes(chunks[i])
    ensures Displays(chunks[..i + 1]) == Displays(chunks[..i]) + [StripChunks(chunks[..i + 1])]
  {
    assert chunks[..i + 1][..i] == chunks[..i];
  }

  /** The two halves of `ESC[31m`, each stripped on its own, are kept. */
  lemma HalvesKept()
    ensures StringUtils.StripAnsiCodes([StringUtils.Esc] + "[3") == [StringUtils.Esc] + "[3"
    ensures StringUtils.StripAnsiCodes("1m") == "1m"
  {
    var c1 := [StringUtils.Esc] + "[3";
    StringUtils.NoEscUnchanged("1m");
    assert StringUtils.DigitRun(c1[2..]) == 1 by {
      assert c1[2..] == "3";
      assert c1[2..][1..] == "";
    }
    assert StringUtils.MatchLength(c1) == 0;
    StringUtils.NoEscUnchanged(c1[1..]);
  }

  /** `ESC[31m` as a whole is removed. */
  lemma WholeRemoved()
    ensures StringUtils.StripAnsiCodes([StringUtils.Esc] + "[31m") == ""
  {
    var whole := [StringUtils.Esc] + "[31m";
    var t := whole[2..];
    assert t == ['3', '1', 'm'];
    assert StringUtils.IsDigit(t[0]) && StringUtils.IsDigit(t[1]) && !StringUtils.IsDigit(t[2]);
    assert StringUtils.DigitRun(t) == 2;
    assert StringUtils.MatchLength(whole) == 5;
    assert whole[5..] == [];
  }

  /** Chunk-wise stripping is not stripping of the whole: a code split across two chunks survives. */
  lemma ChunkwiseDiffersFromWhole()
    ensures var chunks := [[StringUtils.Esc] + "[3", "1m"];
      StripChunks(chunks) == Concat(chunks) && StringUtils.StripAnsiCodes(Concat(chunks)) == ""
  {
    var c1 := [StringUtils.Esc] + "[3";
    var c2 := "1m";
    var chunks := [c1, c2];
    assert chunks[..1] == [c1];
    var none: seq<string> := [];
    assert [c1][..0] == none;
    HalvesKept();
    WholeRemoved();
    assert StripChunks([c1]) == c1;
    assert StripChunks(chunks) == c1 + c2;
    assert Concat([c1]) == c1;
    assert Concat(chunks) == c1 + c2;
    assert c1 + c2 == [StringUtils.Esc] + "[31m";
  }

  /** The console output as the UI keeps it: the current value and every value it was set to. */
  class ConsoleView {
    var output: string
    var history: seq<string>

    constructor ()
      ensures output == "" && history == []
    {
      output := "";
      history := [];
    }

    /** `setConsoleOutput(text)`. */
    method Set(text: string)
      modifies this
      ensures output == text && history == old(history) + [text]
    {
      output := text;
      history := history + [text];
    }
  }

  /** The stream's write callback over all chunks: `output += stripAnsiCodes(data)`, then shown. */
  method StreamOutput(chunks: seq<string>, view: ConsoleView)
    modifies view
    ensures view.history == old(view.history) + Displays(chunks)
    ensures view.output == if chunks == [] then old(view.output) else StripChunks(chunks)
  {
    var output := "";
    var i := 0;
    while i < |chunks|
      invariant 0 <= i <= |chunks|
      invariant output == StripChunks(chunks[..i])
      invariant view.history == old(view.history) + Displays(chunks[..i])
      invariant view.output == if i == 0 then old(view.output) else output
    {
      DisplaysSnoc(chunks, i);
      output := output + StringUtils.StripAnsiCodes(chunks[i]);
      view.Set(output);
      i := i + 1;
    }
    assert chunks[..|chunks|] == chunks;
  }

  /** `executeJavaScript(code, setConsoleOutput)`. */
  method ExecuteJavaScript(code: JsValue, view: ConsoleView, container: Container)
    modifies view
    ensures view.history == old(view.history) + RunDisplays(container(code))
    ensures view.output == if RunDisplays(container(code)) == [] then old(view.output)
      else RunDisplays(container(code))[|RunDisplays(container(code))| - 1]
  {
    match container(code) {
      case Failed(message) =>
        view.Set("Execution Error: " + message);
      case Streamed(chunks) =>
        StreamOutput(chunks, view);
    }
  }

  /** The code `executeCode` hands to the container: the source for JavaScript, the compile response's `jsCode` otherwise. */
  function CodeToRun(language: Language, code: string, containerReady: bool, compile: string -> CompileFetch): (r: Option<JsValue>)
    ensures !containerReady ==> r.None?
    ensures containerReady && language == JavaScript ==> r == Some(Str(code))
    ensures containerReady && language == TypeScript ==> (r.Some? <==> compile(code).Fetched?)
    ensures containerReady && language == TypeScript && compile(code).Fetched? ==> r == Some(compile(code).jsCode)
  {
    if !containerReady then None
    else if language == JavaScript then Some(Str(code))
    else match compile(code)
      case Fetched(jsCode) => Some(jsCode)
      case FetchFailed => None
  }

  /** Every value `executeCode` shows, in order: first '', then the container's output or the error line. */
  function Shown(language: Language, code: string, containerReady: bool, compile: string -> CompileFetch,
                 container: Container): (d: seq<string>)
    ensures |d| >= 1 && d[0] == ""
    ensures !containerReady ==> d == ["", "WebContainer not initialized"]
    ensures containerReady && language == JavaScript ==> d == [""] + RunDisplays(container(Str(code)))
    ensures containerReady && language == TypeScript && compile(code).Fetched? ==>
      d == [""] + RunDisplays(container(compile(code).jsCode))
    ensures containerReady && language == TypeScript && compile(code).FetchFailed? ==> d == [""]
  {
    [""] +
      if !containerReady then ["WebContainer not initialized"]
      else match CodeToRun(language, code, containerReady, compile)
        case Some(js) => RunDisplays(container(js))
        case None => []
  }

  /** Clearing the output and then showing `d` shows `[""] + d`, and ends on the last of `d`, or on '' when `d` is empty. */
  lemma ClearThenShow(h: seq<string>, d: seq<string>)
    ensures h + [""] + d == h + ([""] + d)
    ensures ([""] + d)[|d|] == if d == [] then "" else d[|d| - 1]
  {
  }

  /**
   * The console text `executeCode` leaves: the not-initialized line without a container, '' after a
   * failed fetch or a run without output, the error line after a failed run, and otherwise every chunk
   * stripped and concatenated.
   */
  lemma FinalOutput(language: Language, code: string, containerReady: bool, compile: string -> CompileFetch,
                    container: Container)
    ensures var d := Shown(language, code, containerReady, compile, container);
      var js := CodeToRun(language, code, containerReady, compile);
      && (!containerReady ==> d[|d| - 1] == "WebContainer not initialized")
      && (containerReady && js.None? ==> d[|d| - 1] == "")
      && (js.Some? && container(js.value).Failed? ==> d[|d| - 1] == "Execution Error: " + container(js.value).message)
      && (js.Some? && container(js.value).Streamed? ==>
            d[|d| - 1] == StripChunks(container(js.value).chunks))
  {
    var d := Shown(language, code, containerReady, compile, container);
    var js := CodeToRun(language, code, containerReady, compile);
    if js.Some? {
      var r := RunDisplays(container(js.value));
      ClearThenShow([], r);
      if container(js.value).Streamed? && r != [] {
        var chunks := container(js.value).chunks;
        assert chunks[..|chunks|] == chunks;
      }
    }
  }

  /** `executeCode(language, code, setConsoleOutput)`; `ran` is the code handed to the container, `fetched` whether the compile endpoint was called. */
  method ExecuteCode(language: Language, code: string, view: ConsoleView, containerReady: bool,
                     compile: string -> CompileFetch, container: Container)
    returns (ran: Option<JsValue>, fetched: bool)
    modifies view
    ensures fetched <==> containerReady && language == TypeScript
    ensures ran == CodeToRun(language, code, containerReady, compile)
    ensures view.history == old(view.history) + Shown(language, code, containerReady, compile, container)
    ensures var d := Shown(language, code, containerReady, compile, container); view.output == d[|d| - 1]
  {
    view.Set("");
    ghost var before := old(view.history);
    ran, fetched := None, false;
    if !containerReady {
      view.Set("WebContainer not initialized");
      return;
    }
    if language == JavaScript {
      ran := Some(Str(code));
      ExecuteJavaScript(Str(code), view, container);
      ClearThenShow(before, RunDisplays(container(Str(code))));
    } else {
      fetched := true;
      var response := compile(code);
      if response.FetchFailed? {
        // the rejection propagates out of executeCode; the output stays ''
        return;
      }
      ran := Some(response.jsCode);
      ExecuteJavaScript(response.jsCode, view, container);
      ClearThenShow(before, RunDisplays(container(response.jsCode)));
    }
  }
}
