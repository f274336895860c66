/**
 * The streaming response decoder of `handleSend`: every chunk read from the
 * response body is split on line feeds on its own, every non-empty line is
 * parsed, and the display text of each parsed line is written into the
 * model's entry, replacing its text the first time and appending after that.
 *
 * `StepLine`, `StepLines` and `StepChunks` say what the loop does, one line
 * at a time; `Fragments` and `Diagnostics` describe the same outcome without
 * any state; `DecodeMeaning` proves the two agree. `StreamSession` is the
 * loop itself, proved against `StepChunks`.
 */
module Decoder {
  import opened Wrappers
  import opened JsString
  import opened Records
  import opened Messages

  /** What the client writes to the console. */
  datatype Diagnostic =
    | BadLine(line: string)         // a stream line that did not parse
    | BackendError(error: string)   // a record carrying `error`
    | SendFailed(message: string)   // the request or the stream failed

  /** The decoder's state: the entry's text, the `firstChunk` flag and the console. */
  datatype State = State(text: string, firstChunk: bool, log: seq<Diagnostic>)

  /** The state in which `handleSend` starts reading: the placeholder text and `firstChunk` set. */
  function Start(text: string): State {
    State(text, true, [])
  }

  /** The console output a parsed record causes. */
  function Reported(r: Json): seq<Diagnostic>
    requires r.Record?
  {
    if SourceOf(r) == FromError then [BackendError(r.error.value)] else []
  }

  /** One line of a chunk. */
  function StepLine(parse: string -> Json, st: State, line: string): State {
    if line == "" then st
    else
      var r := parse(line);
      if !r.Record? then st.(log := st.log + [BadLine(line)])
      else
        var c := Content(r);
        State(if st.firstChunk then c else st.text + c, false, st.log + Reported(r))
  }

  /** The lines of a chunk, in order. */
  function StepLines(parse: string -> Json, st: State, lines: seq<string>): State
    decreases |lines|
  {
    if lines == [] then st else StepLines(parse, StepLine(parse, st, lines[0]), lines[1..])
  }

  /** The chunks of the stream, in order, each split on line feeds by itself. */
  function StepChunks(parse: string -> Json, st: State, chunks: seq<string>): State
    decreases |chunks|
  {
    if chunks == [] then st else StepChunks(parse, StepLines(parse, st, Split(chunks[0], "\n")), chunks[1..])
  }

  /** A transport failure writes `Erro: <message>` over the entry and logs it. */
  function Failed(st: State, message: string): State {
    st.(text := "Erro: " + message, log := st.log + [SendFailed(message)])
  }

  // ---- the same outcome, described without state ----

  /** All lines of the stream: each chunk's pieces, chunk after chunk. */
  function Lines(chunks: seq<string>): seq<string>
    decreases |chunks|
  {
    if chunks == [] then [] else Split(chunks[0], "\n") + Lines(chunks[1..])
  }

  /** The display text of one line, if it parsed. */
  function LineFragments(parse: string -> Json, line: string): seq<string> {
    var r := parse(line);
    if line != "" && r.Record? then [Content(r)] else []
  }

  /** The console output of one line. */
  function LineDiagnostics(parse: string -> Json, line: string): seq<Diagnostic> {
    var r := parse(line);
    if line == "" then [] else if r.Record? then Reported(r) else [BadLine(line)]
  }

  /** The display text of every line that parsed, in line order (possibly empty strings). */
  function Fragments(parse: string -> Json, lines: seq<string>): seq<string>
    decreases |lines|
  {
    if lines == [] then [] else LineFragments(parse, lines[0]) + Fragments(parse, lines[1..])
  }

  /** What the console receives for the lines, in line order. */
  function Diagnostics(parse: string -> Json, lines: seq<string>): seq<Diagnostic>
    decreases |lines|
  {
    if lines == [] then [] else LineDiagnostics(parse, lines[0]) + Diagnostics(parse, lines[1..])
  }

  function Concat(ss: seq<string>): string
    decreases |ss|
  {
    if ss == [] then "" else ss[0] + Concat(ss[1..])
  }

  /** The state after the given fragments and diagnostics, from `st`. */
  function Expected(st: State, fragments: seq<string>, diagnostics: seq<Diagnostic>): State {
    State(
      if fragments == [] then st.text
      else if st.firstChunk then Concat(fragments)
      else st.text + Concat(fragments),
      st.firstChunk && fragments == [],
      st.log + diagnostics)
  }

  // ---- lemmas ----

  lemma {:induction false} ConcatAppend(a: seq<string>, b: seq<string>)
    ensures Concat(a + b) == Concat(a) + Concat(b)
    decreases |a|
  {
    if a != [] {
      assert (a + b)[0] == a[0];
      assert (a + b)[1..] == a[1..] + b;
      ConcatAppend(a[1..], b);
    } else {
      assert a + b == b;
    }
  }

  /** One line followed by the reference outcome of the rest is the reference outcome of both. */
  lemma ExpectedStep(parse: string -> Json, st: State, line: string, f: seq<string>, d: seq<Diagnostic>)
    ensures Expected(StepLine(parse, st, line), f, d) ==
      Expected(st, LineFragments(parse, line) + f, LineDiagnostics(parse, line) + d)
  {
    if line != "" && parse(line).Record? {
      ExpectedStepParsed(parse, st, line, f, d);
    } else {
      assert LineFragments(parse, line) + f == f;
    }
  }

  lemma ExpectedStepParsed(parse: string -> Json, st: State, line: string, f: seq<string>, d: seq<Diagnostic>)
    requires line != "" && parse(line).Record?
    ensures Expected(StepLine(parse, st, line), f, d) ==
      Expected(st, LineFragments(parse, line) + f, LineDiagnostics(parse, line) + d)
  {
    var r := parse(line);
    var c := Content(r);
    assert LineFragments(parse, line) == [c];
    assert LineDiagnostics(parse, line) == Reported(r);
    var next := State(if st.firstChunk then c else st.text + c, false, st.log + Reported(r));
    assert StepLine(parse, st, line) == next;
    ConcatAppend([c], f);
    assert Concat([c]) == c by { assert [c][1..] == []; }
    assert Concat([c] + f) == c + Concat(f);
    assert next.log + d == st.log + (Reported(r) + d);
    assert st.text + c + Concat(f) == st.text + (c + Concat(f));
  }

  /**
   * The loop over lines computes the reference outcome: the text is the
   * concatenation of the fragments (replacing the old text while
   * `firstChunk` is set, appended to it otherwise), `firstChunk` stays
   * set only if nothing parsed, and each line adds its own diagnostics.
   */
  lemma {:induction false} StepLinesMeaning(parse: string -> Json, st: State, lines: seq<string>)
    ensures StepLines(parse, st, lines) ==
      Expected(st, Fragments(parse, lines), Diagnostics(parse, lines))
    decreases |lines|
  {
    if lines != [] {
      var rest := lines[1..];
      StepLinesMeaning(parse, StepLine(parse, st, lines[0]), rest);
      ExpectedStep(parse, st, lines[0], Fragments(parse, rest), Diagnostics(parse, rest));
    }
  }

  lemma {:induction false} StepLinesAppend(parse: string -> Json, st: State, a: seq<string>, b: seq<string>)
    ensures StepLines(parse, st, a + b) == StepLines(parse, StepLines(parse, st, a), b)
    decreases |a|
  {
    if a != [] {
      assert (a + b)[0] == a[0];
      assert (a + b)[1..] == a[1..] + b;
      StepLinesAppend(parse, StepLine(parse, st, a[0]), a[1..], b);
    } else {
      assert a + b == b;
    }
  }

  /** Processing the chunks one by one is processing all their lines in order. */
  lemma {:induction false} StepChunksLines(parse: string -> Json, st: State, chunks: seq<string>)
    ensures StepChunks(parse, st, chunks) == StepLines(parse, st, Lines(chunks))
    decreases |chunks|
  {
    if chunks != [] {
      var first := Split(chunks[0], "\n");
      StepChunksLines(parse, StepLines(parse, st, first), chunks[1..]);
      StepLinesAppend(parse, st, first, Lines(chunks[1..]));
    }
  }

  /**
   * The decoder's end state from a fresh start. If at least one line parsed,
   * the entry holds exactly the concatenated display texts of the parsed
   * lines in order and the placeholder is gone; otherwise the placeholder is
   * unchanged and `firstChunk` is still set. The console receives one entry
   * per malformed line and per error record, in line order.
   */
  lemma DecodeMeaning(parse: string -> Json, placeholder: string, chunks: seq<string>)
    ensures var st := StepChunks(parse, Start(placeholder), chunks);
      var frags := Fragments(parse, Lines(chunks));
      st.text == (if frags == [] then placeholder else Concat(frags)) &&
      st.firstChunk == (frags == []) &&
      st.log == Diagnostics(parse, Lines(chunks))
  {
    StepChunksLines(parse, Start(placeholder), chunks);
    StepLinesMeaning(parse, Start(placeholder), Lines(chunks));
  }

  /**
   * The effect of one line. Empty lines do nothing. A malformed line only
   * adds one diagnostic. A parsed line clears `firstChunk` and either sets
   * the text to its content (first parsed line, even when the content is
   * empty) or appends it; it adds a diagnostic exactly when the content
   * came from `error`.
   */
  lemma LineEffect(parse: string -> Json, st: State, line: string)
    ensures line == "" ==> StepLine(parse, st, line) == st
    ensures line != "" && !parse(line).Record? ==>
      StepLine(parse, st, line) == State(st.text, st.firstChunk, st.log + [BadLine(line)])
    ensures line != "" && parse(line).Record? ==>
      var next := StepLine(parse, st, line);
      !next.firstChunk &&
      next.text == (if st.firstChunk then "" else st.text) + Content(parse(line)) &&
      next.log == st.log +
        (if SourceOf(parse(line)) == FromError then [BackendError(parse(line).error.value)] else [])
  {
  }

  /**
   * A record whose content comes from `error` shows the error prefix
   * followed by the error text and logs the error once.
   */
  lemma ErrorRecordEffect(parse: string -> Json, st: State, line: string)
    requires line != "" && parse(line).Record? && SourceOf(parse(line)) == FromError
    ensures var next := StepLine(parse, st, line);
      next.text == (if st.firstChunk then "" else st.text) + ErrorPrefix + parse(line).error.value &&
      next.log == st.log + [BackendError(parse(line).error.value)]
  {
  }

  lemma StepLinesSingle(parse: string -> Json, st: State, line: string)
    ensures StepLines(parse, st, [line]) == StepLine(parse, st, line)
  {
    assert [line][1..] == [];
  }

  /**
   * Chunks are split independently, with no carry-over: a line cut in two
   * by a chunk boundary is parsed as two separate lines.
   */
  lemma NoCarryOver(parse: string -> Json, st: State, a: string, b: string)
    requires '\n' !in a && '\n' !in b
    ensures StepChunks(parse, st, [a, b]) == StepLine(parse, StepLine(parse, st, a), b)
    ensures StepChunks(parse, st, [a + b]) == StepLine(parse, st, a + b)
  {
    ContainsChar(a, '\n');
    ContainsChar(b, '\n');
    ContainsChar(a + b, '\n');
    SplitSingle(a, "\n");
    SplitSingle(b, "\n");
    SplitSingle(a + b, "\n");
    assert [a, b][1..] == [b];
    StepLinesSingle(parse, st, a);
    StepLinesSingle(parse, StepLine(parse, st, a), b);
    StepLinesSingle(parse, st, a + b);
    var mid := StepLine(parse, st, a);
    assert StepChunks(parse, st, [a, b]) == StepChunks(parse, mid, [b]);
    assert StepChunks(parse, mid, [b]) == StepChunks(parse, StepLine(parse, mid, b), []);
  }

  lemma SplitThreeLines(a: string, m: string, b: string)
    requires '\n' !in a && '\n' !in m && '\n' !in b
    ensures Split(a + "\n" + m + "\n" + b + "\n", "\n") == [a, m, b, ""]
  {
    var t3 := b + "\n" + "";
    var t2 := m + "\n" + t3;
    var t1 := a + "\n" + t2;
    assert t1 == a + "\n" + m + "\n" + b + "\n";
    assert Split(t3, "\n") == [b, ""] by {
      assert Split("", "\n") == [""] by { assert !MatchAt("", "\n", 0); }
      SplitAtChar(b, '\n', "");
    }
    assert Split(t2, "\n") == [m, b, ""] by {
      SplitAtChar(m, '\n', t3);
      assert [m] + [b, ""] == [m, b, ""];
    }
    assert Split(t1, "\n") == [a, m, b, ""] by {
      SplitAtChar(a, '\n', t2);
      assert [a] + [m, b, ""] == [a, m, b, ""];
    }
  }

  /**
   * A malformed line between two response lines in one chunk: the entry ends
   * up with both responses in order and the console with one diagnostic.
   */
  lemma MalformedLineBetweenGoodLines(parse: string -> Json, a: string, m: string, b: string, x: string, y: string)
    requires '\n' !in a && '\n' !in m && '\n' !in b
    requires a != "" && m != "" && b != "" && x != "" && y != ""
    requires parse(a) == Record(Some(x), None, None)
    requires parse(m) == Malformed
    requires parse(b) == Record(Some(y), None, None)
    ensures var st := StepChunks(parse, Start(""), [a + "\n" + m + "\n" + b + "\n"]);
      st.text == x + y && st.log == [BadLine(m)]
  {
    var chunk := a + "\n" + m + "\n" + b + "\n";
    SplitThreeLines(a, m, b);
    var s1 := StepLine(parse, Start(""), a);
    assert s1 == State(x, false, []);
    var s2 := StepLine(parse, s1, m);
    assert s2 == State(x, false, [BadLine(m)]);
    var s3 := StepLine(parse, s2, b);
    assert s3 == State(x + y, false, [BadLine(m)]);
    StepLinesAppend(parse, Start(""), [a, m, b], [""]);
    StepLinesAppend(parse, Start(""), [a, m], [b]);
    StepLinesAppend(parse, Start(""), [a], [m]);
    StepLinesSingle(parse, Start(""), a);
    StepLinesSingle(parse, s1, m);
    StepLinesSingle(parse, s2, b);
    StepLinesSingle(parse, s3, "");
    assert [a, m, b] + [""] == [a, m, b, ""];
    assert [a, m] + [b] == [a, m, b];
    assert [a] + [m] == [a, m];
    assert StepChunks(parse, Start(""), [chunk]) == StepLines(parse, Start(""), [a, m, b, ""]);
  }

  /**
   * The read loop of `handleSend` over one response, writing into `entry`.
   * The JSON parser is the `parse` oracle.
   */
  class StreamSession {
    const entry: Entry
    const parse: string -> Json
    var firstChunk: bool
    var log: seq<Diagnostic>

    function Current(): State
      reads this, entry
    {
      State(entry.text, firstChunk, log)
    }

    constructor (entry: Entry, parse: string -> Json)
      ensures this.entry == entry && this.parse == parse
      ensures Current() == Start(entry.text)
    {
      this.entry := entry;
      this.parse := parse;
      firstChunk := true;
      log := [];
    }

    /** The body of the `forEach` over a chunk's lines. */
    method ProcessLine(line: string)
      modifies this, entry
      ensures Current() == StepLine(parse, old(Current()), line)
    {
      if line != "" {
        var parsed := parse(line);
        if parsed.Record? {
          var content := Content(parsed);
          if SourceOf(parsed) == FromError {
            log := log + [BackendError(parsed.error.value)];
          }
          if firstChunk {
            entry.text := content;
            firstChunk := false;
          } else {
            entry.Append(content);
          }
        } else {
          log := log + [BadLine(line)];
        }
      }
    }

    /** `chunk.split('\n').forEach(...)`. */
    method ProcessChunk(chunk: string)
      modifies this, entry
      ensures Current() == StepLines(parse, old(Current()), Split(chunk, "\n"))
    {
      var lines := Split(chunk, "\n");
      var i := 0;
      while i < |lines|
        invariant 0 <= i <= |lines|
        invariant Current() == StepLines(parse, old(Current()), lines[..i])
      {
        StepLinesAppend(parse, old(Current()), lines[..i], [lines[i]]);
        assert lines[..i + 1] == lines[..i] + [lines[i]];
        ProcessLine(lines[i]);
        i := i + 1;
      }
      assert lines[..i] == lines;
    }

    /** The `while (true)` loop: `chunks` are the values read before `done`. */
    method ReadStream(chunks: seq<string>)
      modifies this, entry
      ensures Current() == StepChunks(parse, old(Current()), chunks)
    {
      var i := 0;
      while i < |chunks|
        invariant 0 <= i <= |chunks|
        invariant Current() == StepChunks(parse, old(Current()), chunks[..i])
      {
        StepChunksAppend(parse, old(Current()), chunks[..i], chunks[i]);
        assert chunks[..i + 1] == chunks[..i] + [chunks[i]];
        ProcessChunk(chunks[i]);
        i := i + 1;
      }
      assert chunks[..i] == chunks;
    }

    /** The `catch` of `handleSend`: the failure text replaces whatever was streamed. */
    method Fail(message: string)
      modifies this, entry
      ensures Current() == Failed(old(Current()), message)
      ensures entry.text == "Erro: " + message && firstChunk == old(firstChunk)
    {
      log := log + [SendFailed(message)];
      entry.text := "Erro: " + message;
    }
  }

  lemma {:induction false} StepChunksAppend(parse: string -> Json, st: State, chunks: seq<string>, c: string)
    ensures StepChunks(parse, st, chunks + [c]) ==
      StepLines(parse, StepChunks(parse, st, chunks), Split(c, "\n"))
    decreases |chunks|
  {
    if chunks == [] {
      assert [c][1..] == [];
    } else {
      assert (chunks + [c])[1..] == chunks[1..] + [c];
      StepChunksAppend(parse, StepLines(parse, st, Split(chunks[0], "\n")), chunks[1..], c);
    }
  }
}
