/**
 * The sandboxed execution endpoint: a console shim that records formatted lines in a private
 * buffer, and the handler's 405 / 400 / run / 200 / 500 decision tree. The isolate itself
 * (memory cap, timeout, compilation, JSON transport) is a parameter that completes with a result
 * and the buffer's final contents, or throws.
 */
module ExecuteCode {
  import opened JsValues
  import opened Http

  /** The isolate's memory limit in megabytes, fixed for every request. */
  const MemoryLimit: nat := 128
  /** The script's timeout in milliseconds, fixed for every request. */
  const Timeout: nat := 1000

  // ----- The console shim -----

  datatype ConsoleMethod = Log | Error | Warn | Info

  /** The tag each method puts in front of its line. */
  function Tag(m: ConsoleMethod): (r: string)
    ensures r == "" <==> m == Log
    ensures m != Log ==> |r| >= 2 && r[|r| - 2..] == ": "
  {
    match m
    case Log => ""
    case Error => "Error: "
    case Warn => "Warning: "
    case Info => "Info: "
  }

  /** Different methods put different tags in front of their lines. */
  lemma TagsDiffer(m1: ConsoleMethod, m2: ConsoleMethod)
    requires m1 != m2
    ensures Tag(m1) != Tag(m2)
  {
  }

  /** The total length of the arguments. */
  function TotalLength(args: seq<string>): nat {
    if args == [] then 0 else |args[0]| + TotalLength(args[1..])
  }

  /** `args.join(' ')`, the arguments already converted with `String`. */
  function Join(args: seq<string>): (r: string)
    ensures |r| == TotalLength(args) + (if args == [] then 0 else |args| - 1)
    ensures args != [] ==> r[..|args[0]|] == args[0]
  {
    if args == [] then ""
    else if |args| == 1 then args[0]
    else args[0] + " " + Join(args[1..])
  }

  /** Joining one more argument adds a single space and that argument at the end. */
  lemma {:induction false} JoinSnoc(args: seq<string>, x: string)
    requires args != []
    ensures Join(args + [x]) == Join(args) + " " + x
    decreases |args|
  {
    assert (args + [x])[0] == args[0];
    if |args| == 1 {
      assert (args + [x])[1..] == [x];
    } else {
      assert (args + [x])[1..] == args[1..] + [x];
      JoinSnoc(args[1..], x);
    }
  }

  /** The line one console call records. */
  function Entry(m: ConsoleMethod, args: seq<string>): (r: string)
    ensures |r| == |Tag(m)| + |Join(args)|
    ensures r[..|Tag(m)|] == Tag(m) && r[|Tag(m)|..] == Join(args)
  {
    Tag(m) + Join(args)
  }

  /** `console` as injected into the isolate: each method pushes one formatted line onto `__logs`. */
  class ConsoleShim {
    /** `__logs`. */
    var logs: seq<string>

    constructor ()
      ensures logs == []
    {
      logs := [];
    }

    method Log(args: seq<string>)
      modifies this
      ensures logs == old(logs) + [Join(args)]
    {
      logs := logs + [Join(args)];
    }

    method Error(args: seq<string>)
      modifies this
      ensures logs == old(logs) + ["Error: " + Join(args)]
    {
      logs := logs + ["Error: " + Join(args)];
    }

    method Warn(args: seq<string>)
      modifies this
      ensures logs == old(logs) + ["Warning: " + Join(args)]
    {
      logs := logs + ["Warning: " + Join(args)];
    }

    method Info(args: seq<string>)
      modifies this
      ensures logs == old(logs) + ["Info: " + Join(args)]
    {
      logs := logs + ["Info: " + Join(args)];
    }

    /** A call of `console[m](...args)`: one entry appended, earlier entries untouched. */
    method Call(m: ConsoleMethod, args: seq<string>)
      modifies this
      ensures logs == old(logs) + [Entry(m, args)]
    {
      match m {
        case Log => Log(args);
        case Error => Error(args);
        case Warn => Warn(args);
        case Info => Info(args);
      }
    }
  }

  /** One console call issued by the sandboxed code. */
  datatype ConsoleCall = ConsoleCall(m: ConsoleMethod, args: seq<string>)

  /** The buffer after the given calls, starting from an empty one. */
  function Replay(calls: seq<ConsoleCall>): (logs: seq<string>)
    ensures |logs| == |calls|
    ensures forall i :: 0 <= i < |calls| ==> logs[i] == Entry(calls[i].m, calls[i].args)
  {
    if calls == [] then []
    else
      var last := calls[|calls| - 1];
      Replay(calls[..|calls| - 1]) + [Entry(last.m, last.args)]
  }

  /** Buffer order is call order: later calls only append, earlier entries never change. */
  lemma ReplayAppend(a: seq<ConsoleCall>, b: seq<ConsoleCall>)
    ensures Replay(a + b) == Replay(a) + Replay(b)
  {
    assert forall i :: 0 <= i < |a| ==> (a + b)[i] == a[i];
    assert forall i :: |a| <= i < |a + b| ==> (a + b)[i] == b[i - |a|];
  }

  /** One more call adds exactly its entry to the replayed buffer. */
  lemma ReplaySnoc(calls: seq<ConsoleCall>, i: nat)
    requires i < |calls|
    ensures Replay(calls[..i + 1]) == Replay(calls[..i]) + [Entry(calls[i].m, calls[i].args)]
  {
    assert calls[..i + 1][..i] == calls[..i];
  }

  /** Sandboxed code issuing the given console calls one after the other on the shim: the buffer grows by their replay. */
  method RunCalls(shim: ConsoleShim, calls: seq<ConsoleCall>)
    modifies shim
    ensures shim.logs == old(shim.logs) + Replay(calls)
  {
    var i := 0;
    while i < |calls|
      invariant 0 <= i <= |calls|
      invariant shim.logs == old(shim.logs) + Replay(calls[..i])
    {
      ReplaySnoc(calls, i);
      shim.Call(calls[i].m, calls[i].args);
      i := i + 1;
    }
    assert calls[..|calls|] == calls;
  }

  // ----- The handler -----

  /** What running the wrapped script in a fresh isolate does. */
  datatype IsolateOutcome = Completed(result: JsValue, logs: seq<string>) | Threw(message: string)

  /** The isolate run on (code, memory limit, timeout). */
  type Isolate = (JsValue, nat, nat) -> IsolateOutcome

  /**
   * What the handler does: send one reply, or reject when `const { code } = req.body` throws
   * (the body is undefined or null), which happens outside the try block.
   */
  datatype Handled = Responded(reply: Reply) | Rejected

  /** The handler for a request with HTTP method `verb` and parsed body `body`. */
  function Handle(verb: string, body: JsValue, run: Isolate): (h: Handled)
    ensures h.Rejected? <==> verb == "POST" && (body.Undefined? || body.Null?)
    ensures verb != "POST" ==> h == Responded(Reply(405, Json(ErrorObject("Only POST method is allowed"))))
    ensures h.Responded? && h.reply.status == 400 <==>
      verb == "POST" && Prop(body, "code").Some? && !Truthy(Prop(body, "code").value)
    ensures h.Responded? && h.reply.status == 400 ==> h.reply.body == Json(ErrorObject("Code is required"))
    ensures h.Responded? && h.reply.status == 200 ==> run(Prop(body, "code").value, MemoryLimit, Timeout).Completed?
  {
    if verb != "POST" then
      Responded(Reply(405, Json(ErrorObject("Only POST method is allowed"))))
    else
      match Prop(body, "code")
      case None => Rejected
      case Some(code) =>
        if !Truthy(code) then
          Responded(Reply(400, Json(ErrorObject("Code is required"))))
        else
          match run(code, MemoryLimit, Timeout)
          case Completed(result, logs) =>
            Responded(Reply(200, Json(Obj(map["result" := result, "console" := StrArray(logs)]))))
          case Threw(message) =>
            Responded(Reply(500, Json(Obj(map["error" := Str(message), "console" := StrArray([])]))))
  }

  /** A request that is not a POST with truthy code never reaches the isolate. */
  lemma NoIsolateWithoutCode(verb: string, body: JsValue, run1: Isolate, run2: Isolate)
    requires verb != "POST" || Prop(body, "code").None? || !Truthy(Prop(body, "code").value)
    ensures Handle(verb, body, run1) == Handle(verb, body, run2)
  {
  }

  /** The limits are constants: the reply depends on the isolate only through its run with 128 MB and 1000 ms. */
  lemma LimitsAreFixed(verb: string, body: JsValue, run1: Isolate, run2: Isolate)
    requires Prop(body, "code").Some?
    requires run1(Prop(body, "code").value, 128, 1000) == run2(Prop(body, "code").value, 128, 1000)
    ensures Handle(verb, body, run1) == Handle(verb, body, run2)
  {
  }

  /** A completed run answers 200 with the result and the buffer; a throw answers 500 and drops every log line. */
  lemma RunReply(body: JsValue, run: Isolate)
    requires Prop(body, "code").Some? && Truthy(Prop(body, "code").value)
    ensures var out := run(Prop(body, "code").value, MemoryLimit, Timeout);
      Handle("POST", body, run) ==
        if out.Completed? then Responded(Reply(200, Json(Obj(map["result" := out.result, "console" := StrArray(out.logs)]))))
        else Responded(Reply(500, Json(Obj(map["error" := Str(out.message), "console" := Arr([])]))))
  {
  }

  // ----- The sandboxed code as a trace of console calls -----

  /** How sandboxed code ends after its console calls: with a value, or by throwing. */
  datatype Ending = Returns(value: JsValue) | Throws(message: string)

  /** The isolate's outcome for code that issues `calls` and then ends: the buffer is the replay of the calls. */
  function TraceOutcome(calls: seq<ConsoleCall>, ending: Ending): (out: IsolateOutcome)
    ensures out.Completed? ==> |out.logs| == |calls|
  {
    match ending
    case Returns(v) => Completed(v, Replay(calls))
    case Throws(message) => Threw(message)
  }

  /**
   * End to end for traced code: on success the `console` field lists one line per call, in call
   * order, each tagged by its method; on a throw it is empty whatever was logged before.
   */
  lemma TracedRequest(body: JsValue, calls: seq<ConsoleCall>, ending: Ending)
    requires Prop(body, "code").Some? && Truthy(Prop(body, "code").value)
    ensures var h := Handle("POST", body, (c, mem, t) => TraceOutcome(calls, ending));
      && h.Responded?
      && h.reply.body.Json?
      && h.reply.body.value.Obj?
      && "console" in h.reply.body.value.fields
      && var console := h.reply.body.value.fields["console"];
      && console.Arr?
      && (ending.Returns? ==>
            && h.reply.status == 200
            && |console.elems| == |calls|
            && forall i :: 0 <= i < |calls| ==> console.elems[i] == Str(Tag(calls[i].m) + Join(calls[i].args)))
      && (ending.Throws? ==> h.reply.status == 500 && console.elems == [])
  {
  }

  /** A `console.warn('careful')` followed by a throw of 'boom' answers 500 with message 'boom' and no log lines. */
  lemma WarnThenThrow(body: JsValue)
    requires Prop(body, "code").Some? && Truthy(Prop(body, "code").value)
    ensures Handle("POST", body, (c, mem, t) => TraceOutcome([ConsoleCall(Warn, ["careful"])], Throws("boom")))
      == Responded(Reply(500, Json(Obj(map["error" := Str("boom"), "console" := Arr([])]))))
  {
  }

  /** `console.log()` with no arguments records the empty string; `console.error('a', 'b')` records "Error: a b". */
  lemma EntryExamples()
    ensures Entry(Log, []) == ""
    ensures Entry(Error, ["a", "b"]) == "Error: a b"
  {
  }
}
