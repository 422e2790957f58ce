/**
 * The outcome of one `ssh.exec` call as the migrator's promise wrappers
 * settle it.  The exec callback either reports a channel error or hands over
 * a stream; stdout chunks are accumulated in arrival order, stderr chunks are
 * only logged, and the `close` event decides the outcome from the exit code.
 *
 * Three wrappers exist in the sources:
 *  - the database dumps of the v3 client, which reject on a channel error and
 *    resolve `null` on a zero exit code;
 *  - the value getters of the proxy installer, which leave the promise
 *    pending on a channel error and resolve with the trimmed output;
 *  - the proxy's `start`, which behaves like a getter but resolves `null`.
 */
module RemoteExec {
  import opened JsString

  /** One `data` event, either of the stream itself (stdout) or of its `stderr`. */
  datatype Chunk = Stdout(data: string) | Stderr(data: string)

  /** The arguments of the `close` event; a process killed by a signal has no code. */
  datatype Close = Close(code: Option<int>, signal: Option<string>)

  /**
   * What the exec callback receives: an error, or a stream that delivers its
   * chunks in order and then closes (or never closes).
   */
  datatype Exec = ChannelError(error: string) | Stream(chunks: seq<Chunk>, close: Option<Close>)

  /** Which of the three copies of the handler is attached. */
  datatype Handler = DumpHandler | ValueHandler | StartHandler

  /** Why a promise rejected. */
  datatype Reason =
    | ChannelFailed(error: string)  // the exec error itself (dump handler only)
    | DumpFailed(code: Option<int>) // an `Error` whose message names the exit code
    | ExitCode(code: Option<int>)   // the bare exit code

  /** How the promise settles; `Pending` when it never does. */
  datatype Outcome = Resolved(value: Option<string>) | Rejected(reason: Reason) | Pending

  /** The text accumulated from the stdout chunks, in arrival order. */
  function Output(cs: seq<Chunk>): string
  {
    if cs == [] then ""
    else Output(cs[..|cs| - 1]) + if cs[|cs| - 1].Stdout? then cs[|cs| - 1].data else ""
  }

  /** The outcome the handler `h` settles on for the exec result `e`. */
  function Classify(h: Handler, e: Exec): Outcome
  {
    match e
    case ChannelError(err) =>
      if h == DumpHandler then Rejected(ChannelFailed(err)) else Pending
    case Stream(cs, close) =>
      if close.None? then Pending
      else if close.value.code == Some(0) then
        (if h == ValueHandler then Resolved(Some(Trim(Output(cs)))) else Resolved(None))
      else if h == DumpHandler then Rejected(DumpFailed(close.value.code))
      else Rejected(ExitCode(close.value.code))
  }

  /**
   * The event-driven handler as a loop: every stdout chunk is appended to the
   * accumulator, every stderr chunk is only logged, and `close` settles.
   */
  method Run(h: Handler, e: Exec) returns (o: Outcome)
    ensures o == Classify(h, e)
  {
    if e.ChannelError? {
      if h == DumpHandler {
        o := Rejected(ChannelFailed(e.error));
      } else {
        o := Pending;
      }
      return;
    }
    var output := "";
    var i := 0;
    while i < |e.chunks|
      invariant 0 <= i <= |e.chunks|
      invariant output == Output(e.chunks[..i])
    {
      var chunk := e.chunks[i];
      if chunk.Stdout? {
        output := output + chunk.data;
      }
      assert e.chunks[..i + 1][..i] == e.chunks[..i];
      i := i + 1;
    }
    assert e.chunks[..i] == e.chunks;
    if e.close.None? {
      o := Pending;
    } else if e.close.value.code == Some(0) {
      if h == ValueHandler {
        o := Resolved(Some(Trim(output)));
      } else {
        o := Resolved(None);
      }
    } else if h == DumpHandler {
      o := Rejected(DumpFailed(e.close.value.code));
    } else {
      o := Rejected(ExitCode(e.close.value.code));
    }
  }

  // ---------------------------------------------------------------------------
  // The accumulated output
  // ---------------------------------------------------------------------------

  /** The output of chunks delivered one run after another is the concatenation of their outputs. */
  lemma {:induction false} OutputAppend(a: seq<Chunk>, b: seq<Chunk>)
    ensures Output(a + b) == Output(a) + Output(b)
    decreases |b|
  {
    if b == [] {
      assert a + b == a;
    } else {
      var init := b[..|b| - 1];
      assert (a + b)[..|a + b| - 1] == a + init;
      assert (a + b)[|a + b| - 1] == b[|b| - 1];
      OutputAppend(a, init);
    }
  }

  /** The chunks the stream itself emits, stderr chunks dropped. */
  function StdoutOnly(cs: seq<Chunk>): (r: seq<Chunk>)
    ensures forall i :: 0 <= i < |r| ==> r[i].Stdout?
  {
    if cs == [] then []
    else StdoutOnly(cs[..|cs| - 1]) + if cs[|cs| - 1].Stdout? then [cs[|cs| - 1]] else []
  }

  /** The output is made of the stdout chunks alone, each taken whole and in order. */
  lemma {:induction false} OutputOfStdout(cs: seq<Chunk>)
    ensures Output(cs) == Output(StdoutOnly(cs))
    ensures Output(cs) == Concat(StdoutOnly(cs))
  {
    if cs != [] {
      var init, last := cs[..|cs| - 1], cs[|cs| - 1];
      OutputOfStdout(init);
      var tail := if last.Stdout? then [last] else [];
      OutputAppend(StdoutOnly(init), tail);
      ConcatAppend(StdoutOnly(init), tail);
      assert tail == [] || [last][..0] == [];
    }
  }

  /** The texts of the chunks glued together. */
  function Concat(cs: seq<Chunk>): string
  {
    if cs == [] then "" else cs[0].data + Concat(cs[1..])
  }

  lemma {:induction false} ConcatAppend(a: seq<Chunk>, b: seq<Chunk>)
    ensures Concat(a + b) == Concat(a) + Concat(b)
  {
    if a == [] {
      assert a + b == b;
    } else {
      assert (a + b)[1..] == a[1..] + b;
      ConcatAppend(a[1..], b);
    }
  }

  // ---------------------------------------------------------------------------
  // The outcome
  // ---------------------------------------------------------------------------

  /** A promise resolves exactly when the stream closes with exit code 0. */
  lemma ResolvesIffExitZero(h: Handler, e: Exec)
    ensures Classify(h, e).Resolved? <==> e.Stream? && e.close.Some? && e.close.value.code == Some(0)
    ensures Classify(h, e).Resolved? && h != ValueHandler ==> Classify(h, e).value == None
    ensures Classify(h, e).Resolved? && h == ValueHandler ==> Classify(h, e).value == Some(Trim(Output(e.chunks)))
  {
  }

  /**
   * Any other exit code, or none at all, rejects with that code whatever the
   * stream printed: the dump handler wraps it in an error, the others pass it bare.
   */
  lemma RejectsWithCode(h: Handler, cs: seq<Chunk>, others: seq<Chunk>, c: Close)
    requires c.code != Some(0)
    ensures Classify(h, Stream(cs, Some(c))) == Classify(h, Stream(others, Some(c)))
    ensures Classify(h, Stream(cs, Some(c))) == Rejected(if h == DumpHandler then DumpFailed(c.code) else ExitCode(c.code))
  {
  }

  /**
   * A channel error rejects with that error in the dump handler and leaves the
   * other handlers' promise pending for ever; a stream that never closes never
   * settles either.
   */
  lemma ChannelErrorOutcome(h: Handler, err: string, cs: seq<Chunk>)
    ensures Classify(h, ChannelError(err)) == (if h == DumpHandler then Rejected(ChannelFailed(err)) else Pending)
    ensures Classify(h, Stream(cs, None)) == Pending
    ensures Classify(h, ChannelError(err)).Rejected? <==> h == DumpHandler
  {
  }

  /** A stderr chunk arriving at any point changes neither the output nor the outcome. */
  lemma StderrIgnored(h: Handler, cs: seq<Chunk>, i: nat, s: string, close: Option<Close>)
    requires i <= |cs|
    ensures Output(cs[..i] + [Stderr(s)] + cs[i..]) == Output(cs)
    ensures Classify(h, Stream(cs[..i] + [Stderr(s)] + cs[i..], close)) == Classify(h, Stream(cs, close))
  {
    StderrAddsNothing(cs[..i], cs[i..], s);
    assert cs[..i] + cs[i..] == cs;
    ChunkingIrrelevant(h, cs[..i] + [Stderr(s)] + cs[i..], cs, close);
  }

  lemma StderrAddsNothing(a: seq<Chunk>, b: seq<Chunk>, s: string)
    ensures Output(a + [Stderr(s)] + b) == Output(a + b)
  {
    OutputAppend(a + [Stderr(s)], b);
    assert Output(a + [Stderr(s)]) == Output(a) by {
      assert (a + [Stderr(s)])[..|a|] == a;
    }
    OutputAppend(a, b);
  }

  /** A value getter's result never starts or ends with white space, and trimming it again changes nothing. */
  lemma ValueIsTrimmed(e: Exec)
    requires Classify(ValueHandler, e).Resolved?
    ensures var v := Classify(ValueHandler, e).value;
            && v.Some?
            && (v.value == [] || (!IsSpace(v.value[0]) && !IsSpace(v.value[|v.value| - 1])))
            && Trim(v.value) == v.value
  {
    TrimIdempotent(Output(e.chunks));
  }

  /** Chunks split differently but carrying the same stdout text settle the same way. */
  lemma ChunkingIrrelevant(h: Handler, a: seq<Chunk>, b: seq<Chunk>, close: Option<Close>)
    requires Output(a) == Output(b)
    ensures Classify(h, Stream(a, close)) == Classify(h, Stream(b, close))
  {
  }
}
