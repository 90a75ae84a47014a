/** What the command-line tools write to the terminal: colours applied with
    chalk, and the messages of the logger. A colour is an opaque wrapper
    around the text: the escape sequence chalk opens with, the text, and the
    sequence that resets the foreground colour. */
module Terminal {
  import opened Text

  datatype Color = Blue | Yellow | Red | Green | Gray

  /** The escape sequence chalk opens a foreground colour with. */
  function OpenCode(c: Color): string {
    match c
    case Blue => "\U{001B}[34m"
    case Yellow => "\U{001B}[33m"
    case Red => "\U{001B}[31m"
    case Green => "\U{001B}[32m"
    case Gray => "\U{001B}[90m"
  }

  /** The escape sequence that resets the foreground colour. */
  const CloseCode: string := "\U{001B}[39m"

  /** `chalk.<color>(s)`. */
  function Paint(c: Color, s: string): string {
    OpenCode(c) + s + CloseCode
  }

  /** Painting adds no newline and never yields a blank string, so a painted
      prefix keeps a line a single non-blank line. */
  lemma PaintShape(c: Color, s: string)
    ensures '\n' !in s ==> '\n' !in Paint(c, s)
    ensures !IsBlank(Paint(c, s))
  {
    assert Paint(c, s)[0] == '\U{001B}';
    if '\n' !in s {
      var p := Paint(c, s);
      forall i | 0 <= i < |p| ensures p[i] != '\n' {
        if i < |OpenCode(c)| {
          assert p[i] == OpenCode(c)[i];
        } else if i < |OpenCode(c)| + |s| {
          assert p[i] == s[i - |OpenCode(c)|];
        } else {
          assert p[i] == CloseCode[i - |OpenCode(c)| - |s|];
        }
      }
    }
  }

  /** A line of a child's output as it is echoed: tagged unless blank. */
  function TagLine(tag: string, line: string): string {
    if Trim(line) != "" then tag + line else line
  }

  function TagEach(tag: string, lines: seq<string>): (r: seq<string>)
    ensures |r| == |lines|
    ensures forall i | 0 <= i < |lines| :: r[i] == TagLine(tag, lines[i])
  {
    seq(|lines|, i requires 0 <= i < |lines| => TagLine(tag, lines[i]))
  }

  /** `message.split("\n").map(line => line.trim() ? tag + line : line).join("\n")`. */
  function TagLines(tag: string, message: string): string {
    Join(TagEach(tag, Split(message)))
  }

  /** Tagging keeps the line structure: the same number of newlines, a
      blank line passes through unchanged, every other line gains the tag. */
  lemma TagLinesKeepsLines(tag: string, message: string)
    requires '\n' !in tag
    ensures CountChar(TagLines(tag, message), '\n') == CountChar(message, '\n')
    ensures |Split(TagLines(tag, message))| == |Split(message)|
    ensures forall i | 0 <= i < |Split(message)| ::
      Split(TagLines(tag, message))[i] ==
        (if IsBlank(Split(message)[i]) then Split(message)[i] else tag + Split(message)[i])
  {
    var lines := Split(message);
    var tagged := TagEach(tag, lines);
    SplitShape(message);
    forall i | 0 <= i < |tagged| ensures '\n' !in tagged[i] {
      if Trim(lines[i]) != "" {
        forall j | 0 <= j < |tagged[i]| ensures tagged[i][j] != '\n' {
          if j < |tag| {
            assert tagged[i][j] == tag[j];
          } else {
            assert tagged[i][j] == lines[i][j - |tag|];
          }
        }
      }
    }
    SplitJoin(tagged);
    SplitShape(TagLines(tag, message));
    forall i | 0 <= i < |lines| ensures tagged[i] == (if IsBlank(lines[i]) then lines[i] else tag + lines[i]) {
      TrimEmptyIffBlank(lines[i]);
    }
  }

  /** One call of the logger: `info` prints in the given colour (blue by
      default), `warning` in yellow and `error` in red, each on its own line. */
  datatype LogEntry = LogInfo(message: string, color: Color) | LogWarning(message: string) | LogError(message: string)
}
