/**
 * Rendering a new transcript message (`addMessage` without an element):
 * the text is cut at triple backticks into alternating plain-text and
 * code segments. Appending to an existing element (`addMessage` with an
 * element) is `Entry.Append`.
 */
module Messages {
  import opened JsString

  datatype Sender = User | Model

  datatype Kind = Code | Text

  /** One child of a message bubble: a `<span>` (Text) or a `<pre><code>` (Code). */
  datatype Segment = Segment(kind: Kind, body: string)

  /** A rendered message bubble. */
  datatype Message = Message(sender: Sender, segments: seq<Segment>)

  const Fence: string := "```"

  /** A code part loses one leading line feed, if it has one. */
  function DropLeadingNewline(part: string): string {
    if |part| > 0 && part[0] == '\n' then part[1..] else part
  }

  /** Even-indexed parts are plain text, odd-indexed parts are code. */
  function Classify(parts: seq<string>): (segs: seq<Segment>)
    ensures |segs| == |parts|
  {
    seq(|parts|, i requires 0 <= i < |parts| =>
      if i % 2 == 1 then Segment(Code, DropLeadingNewline(parts[i])) else Segment(Text, parts[i]))
  }

  /** The segments `addMessage` builds for `text`. */
  function Segments(text: string): seq<Segment> {
    if Contains(text, Fence) then Classify(Split(text, Fence)) else [Segment(Text, text)]
  }

  /**
   * The `includes` test is only a shortcut: a text without a fence splits
   * into itself, which the loop would render as the same single span.
   */
  lemma SegmentsAreClassifiedSplit(text: string)
    ensures Segments(text) == Classify(Split(text, Fence))
  {
    SplitSingle(text, Fence);
  }

  /** Kinds alternate from Text; text parts stay verbatim; code parts lose at most one leading line feed. */
  lemma ClassifyShape(parts: seq<string>)
    ensures var segs := Classify(parts);
      forall i :: 0 <= i < |segs| ==>
        (segs[i].kind == Text <==> i % 2 == 0) &&
        (segs[i].kind == Text ==> segs[i].body == parts[i]) &&
        (segs[i].kind == Code ==>
          if |parts[i]| > 0 && parts[i][0] == '\n' then parts[i] == "\n" + segs[i].body
          else segs[i].body == parts[i])
  {
    var segs := Classify(parts);
    forall i | 0 <= i < |segs| && i % 2 == 1 && |parts[i]| > 0 && parts[i][0] == '\n'
      ensures parts[i] == "\n" + segs[i].body
    {
      assert parts[i] == [parts[i][0]] + parts[i][1..];
    }
  }

  /**
   * Shape of a rendering: one segment per fence-separated part, kinds
   * alternating Text, Code, Text, ..., text kept verbatim and code missing
   * at most its first line feed.
   */
  lemma SegmentsShape(text: string)
    ensures var parts := Split(text, Fence);
      var segs := Segments(text);
      |segs| == |parts| &&
      (Contains(text, Fence) <==> |segs| >= 2) &&
      forall i :: 0 <= i < |segs| ==>
        (segs[i].kind == Text <==> i % 2 == 0) &&
        (segs[i].kind == Text ==> segs[i].body == parts[i]) &&
        (segs[i].kind == Code ==>
          if |parts[i]| > 0 && parts[i][0] == '\n' then parts[i] == "\n" + segs[i].body
          else segs[i].body == parts[i])
  {
    SegmentsAreClassifiedSplit(text);
    SplitSingle(text, Fence);
    ClassifyShape(Split(text, Fence));
  }

  /** Text without a fence is one plain segment equal to the text. */
  lemma SegmentsWithoutFence(text: string)
    requires !Contains(text, Fence)
    ensures Segments(text) == [Segment(Text, text)]
  {
  }

  /** No segment body contains a fence. */
  lemma SegmentsFenceFree(text: string)
    ensures forall i :: 0 <= i < |Segments(text)| ==> !Contains(Segments(text)[i].body, Fence)
  {
    SegmentsAreClassifiedSplit(text);
    var parts := Split(text, Fence);
    SplitPiecesFree(text, Fence);
    forall i | 0 <= i < |parts| && i % 2 == 1 ensures !Contains(DropLeadingNewline(parts[i]), Fence) {
      var p := parts[i];
      if |p| > 0 && p[0] == '\n' {
        forall j | 0 <= j <= |p| - 1 && MatchAt(p[1..], Fence, j) ensures false {
          assert p[1..][j..j + |Fence|] == p[j + 1..j + 1 + |Fence|];
          assert MatchAt(p, Fence, j + 1);
        }
      }
    }
  }

  function Bodies(segs: seq<Segment>): (bodies: seq<string>)
    ensures |bodies| == |segs|
  {
    seq(|segs|, i requires 0 <= i < |segs| => segs[i].body)
  }

  /**
   * When no code part starts with a line feed, putting the fences back
   * between the segment bodies restores the message text.
   */
  lemma SegmentsRoundTrip(text: string)
    requires forall i :: 0 <= i < |Split(text, Fence)| && i % 2 == 1 ==>
      !(|Split(text, Fence)[i]| > 0 && Split(text, Fence)[i][0] == '\n')
    ensures Join(Bodies(Segments(text)), Fence) == text
  {
    SegmentsAreClassifiedSplit(text);
    var parts := Split(text, Fence);
    assert Bodies(Segments(text)) == parts;
    JoinSplit(text, Fence);
  }

  /** The text node of a message bubble, which the stream writes into. */
  class Entry {
    var text: string

    constructor (text: string)
      ensures this.text == text
    {
      this.text := text;
    }

    /** `element.textContent += text`. */
    method Append(s: string)
      modifies this
      ensures text == old(text) + s
    {
      text := text + s;
    }
  }
}
