// `Scripts/markdown.swift`: turns an Xcode playground into markdown. Lines
// between a comment-opening line and a comment-closing line become prose, and
// everything after a closing line goes into a fenced `swift` code block
// (CommonMark, section 4.5). The script reads standard input line by line and
// prints as it goes; here the input is a sequence of lines and the printed
// lines are the output.
module Markdown {
  datatype TextBlock = Unknown | Code | Comment

  const OPEN_COMMENT := "/*"
  const CLOSE_COMMENT := "*/"
  const SWIFT_FENCE := "```swift"
  const FENCE := "```"

  predicate HasPrefix(s: string, prefix: string)
  {
    |prefix| <= |s| && s[..|prefix|] == prefix
  }

  predicate HasSuffix(s: string, suffix: string)
  {
    |suffix| <= |s| && s[|s| - |suffix|..] == suffix
  }

  /** `Character.isWhitespace`: the Unicode `White_Space` property. */
  predicate IsWhitespace(c: char)
  {
    || '\t' <= c <= '\r'
    || c == ' ' || c == '\U{0085}' || c == '\U{00A0}' || c == '\U{1680}'
    || '\U{2000}' <= c <= '\U{200A}'
    || c == '\U{2028}' || c == '\U{2029}' || c == '\U{202F}' || c == '\U{205F}' || c == '\U{3000}'
  }

  /** `line.drop(while: \.isWhitespace)`. */
  function DropLeadingWhitespace(line: string): (r: string)
    ensures |r| <= |line| && r == line[|line| - |r|..]
    ensures forall i :: 0 <= i < |line| - |r| ==> IsWhitespace(line[i])
    ensures r == [] || !IsWhitespace(r[0])
  {
    if line != [] && IsWhitespace(line[0]) then DropLeadingWhitespace(line[1..]) else line
  }

  /** A line that switches the state: it opens or closes a comment. */
  predicate IsMarker(line: string)
  {
    HasPrefix(line, OPEN_COMMENT) || HasSuffix(line, CLOSE_COMMENT)
  }

  /** The state a marker line switches to; an opening test wins over a closing one. */
  function MarkerState(line: string): TextBlock
    requires IsMarker(line)
  {
    if HasPrefix(line, OPEN_COMMENT) then Comment else Code
  }

  /** One turn of the loop: the next state and the lines printed. */
  function StepLine(block: TextBlock, line: string): (r: (TextBlock, seq<string>))
    ensures HasPrefix(line, OPEN_COMMENT) ==> r.0 == Comment && r.1 == (if block == Code then [FENCE] else [])
    ensures !HasPrefix(line, OPEN_COMMENT) && HasSuffix(line, CLOSE_COMMENT) ==> r == (Code, [SWIFT_FENCE])
    ensures !IsMarker(line) && block == Comment ==> r == (Comment, [DropLeadingWhitespace(line)])
    ensures !IsMarker(line) && block != Comment ==> r == (block, [line])
    ensures IsMarker(line) ==> r.0 == MarkerState(line) && |r.1| <= 1
    ensures !IsMarker(line) ==> r.0 == block && |r.1| == 1
  {
    if HasPrefix(line, OPEN_COMMENT) then (Comment, if block == Code then [FENCE] else [])
    else if HasSuffix(line, CLOSE_COMMENT) then (Code, [SWIFT_FENCE])
    else if block == Comment then (Comment, [DropLeadingWhitespace(line)])
    else (block, [line])
  }

  /** The state after `lines`, and what the loop has printed for them. */
  function Transcript(lines: seq<string>): (TextBlock, seq<string>)
  {
    if lines == [] then (Unknown, [])
    else
      var prev := Transcript(lines[..|lines| - 1]);
      var next := StepLine(prev.0, lines[|lines| - 1]);
      (next.0, prev.1 + next.1)
  }

  /** The whole script's output: the loop's, then a closing fence if a code block is open. */
  function Converted(lines: seq<string>): seq<string>
  {
    var t := Transcript(lines);
    t.1 + (if t.0 == Code then [FENCE] else [])
  }

  /** The script itself. */
  method Convert(lines: seq<string>) returns (output: seq<string>)
    ensures output == Converted(lines)
  {
    var block := Unknown;
    output := [];
    var i := 0;
    while i < |lines|
      invariant 0 <= i <= |lines|
      invariant (block, output) == Transcript(lines[..i])
    {
      var line := lines[i];
      assert lines[..i + 1][..i] == lines[..i] && lines[..i + 1][i] == line;
      ghost var step := StepLine(block, line);
      ghost var before := output;
      if HasPrefix(line, OPEN_COMMENT) {
        if block == Code {
          output := output + [FENCE];
        }
        block := Comment;
      } else if HasSuffix(line, CLOSE_COMMENT) {
        output := output + [SWIFT_FENCE];
        block := Code;
      } else if block == Comment {
        output := output + [DropLeadingWhitespace(line)];
      } else {
        output := output + [line];
      }
      assert block == step.0 && output == before + step.1;
      i := i + 1;
    }
    assert lines[..i] == lines;
    if block == Code {
      output := output + [FENCE];
    }
  }

  /** The index of the last marker line, or -1 when there is none. */
  function LastMarker(lines: seq<string>): (j: int)
    ensures -1 <= j < |lines|
    ensures j >= 0 ==> IsMarker(lines[j])
    ensures forall k :: j < k < |lines| ==> !IsMarker(lines[k])
  {
    if lines == [] then -1
    else if IsMarker(lines[|lines| - 1]) then |lines| - 1
    else
      var j := LastMarker(lines[..|lines| - 1]);
      assert forall k :: j < k < |lines| - 1 ==> lines[..|lines| - 1][k] == lines[k];
      j
  }

  /** The state after any input is set by its last marker line alone: `Comment` after
      an opening line, `Code` after a closing one, `Unknown` when there is none. */
  lemma {:induction false} StateFollowsLastMarker(lines: seq<string>)
    ensures var j := LastMarker(lines);
      Transcript(lines).0 == if j < 0 then Unknown else MarkerState(lines[j])
  {
    if lines != [] {
      var init := lines[..|lines| - 1];
      StateFollowsLastMarker(init);
      var j := LastMarker(init);
      if !IsMarker(lines[|lines| - 1]) && j >= 0 {
        assert init[j] == lines[j];
      }
    }
  }

  function CountNonMarkers(lines: seq<string>): (n: nat)
    ensures n <= |lines|
  {
    if lines == [] then 0
    else CountNonMarkers(lines[..|lines| - 1]) + (if IsMarker(lines[|lines| - 1]) then 0 else 1)
  }

  /** Every ordinary line prints exactly one line and every marker line at most one. */
  lemma {:induction false} TranscriptLength(lines: seq<string>)
    ensures CountNonMarkers(lines) <= |Transcript(lines).1| <= |lines|
  {
    if lines != [] {
      TranscriptLength(lines[..|lines| - 1]);
    }
  }

  /** The output ends with a closing fence added after the loop exactly when the last
      marker line closed a comment, which leaves a code block open. */
  lemma ClosingFence(lines: seq<string>)
    ensures var j := LastMarker(lines);
      Converted(lines) == Transcript(lines).1 + (if j >= 0 && MarkerState(lines[j]) == Code then [FENCE] else [])
  {
    StateFollowsLastMarker(lines);
  }

  /** Input without marker lines is copied unchanged and gets no fence. */
  lemma {:induction false} PlainInputUnchanged(lines: seq<string>)
    requires forall j :: 0 <= j < |lines| ==> !IsMarker(lines[j])
    ensures Transcript(lines) == (Unknown, lines)
    ensures Converted(lines) == lines
  {
    if lines != [] {
      var init := lines[..|lines| - 1];
      var last := lines[|lines| - 1];
      assert !IsMarker(last);
      assert forall j :: 0 <= j < |init| ==> init[j] == lines[j];
      PlainInputUnchanged(init);
      assert StepLine(Unknown, last) == (Unknown, [last]);
      assert init + [last] == lines;
    }
  }
}
