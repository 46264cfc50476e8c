/** How the add-on turns the text of a Python traceback into error messages for the
    user: every non-empty line contributes one message, its third comma-separated
    field when it has one and the whole line otherwise, after a header line. */
module Report {

  datatype Level = INFO | ERROR

  /** One call of the operator's `report`. */
  datatype Message = Message(level: Level, text: string)

  function Commas(s: string): nat {
    if s == [] then 0 else (if s[0] == ',' then 1 else 0) + Commas(s[1..])
  }

  /** Python's `s.split(',')`: the comma-free fields between the commas, empty ones
      included, so there is always one field more than there are commas. */
  function Split(s: string): (fields: seq<string>)
    ensures |fields| == Commas(s) + 1
    ensures forall j :: 0 <= j < |fields| ==> ',' !in fields[j]
  {
    if s == [] then [""]
    else
      var rest := Split(s[1..]);
      if s[0] == ',' then [""] + rest
      else [[s[0]] + rest[0]] + rest[1..]
  }

  /** Python's `','.join(fields)`. */
  function Join(fields: seq<string>): string
    requires |fields| >= 1
  {
    if |fields| == 1 then fields[0] else fields[0] + "," + Join(fields[1..])
  }

  /** Splitting loses nothing: joining the fields gives the line back. */
  lemma {:induction false} JoinSplit(s: string)
    ensures Join(Split(s)) == s
  {
    if s != [] {
      var rest := Split(s[1..]);
      JoinSplit(s[1..]);
      if s[0] == ',' {
        assert Split(s) == [""] + rest;
        assert Split(s)[1..] == rest;
      } else {
        assert Split(s) == [[s[0]] + rest[0]] + rest[1..];
        if |rest| > 1 {
          assert Split(s)[1..] == rest[1..];
          assert Join(rest) == rest[0] + "," + Join(rest[1..]);
        }
      }
    }
  }

  /** A comma-free string followed by a comma splits into itself and the fields of the rest. */
  lemma {:induction false} SplitAfterField(a: string, t: string)
    requires ',' !in a
    ensures Split(a + "," + t) == [a] + Split(t)
    ensures Split(a) == [a]
  {
    if a != [] {
      SplitAfterField(a[1..], t);
      assert (a + "," + t)[1..] == a[1..] + "," + t;
      assert [a[0]] + a[1..] == a;
    } else {
      assert a + "," + t == [','] + t;
    }
  }

  /** Joining comma-free fields and splitting again gives the same fields. */
  lemma {:induction false} SplitJoin(fields: seq<string>)
    requires |fields| >= 1
    requires forall j :: 0 <= j < |fields| ==> ',' !in fields[j]
    ensures Split(Join(fields)) == fields
  {
    if |fields| == 1 {
      SplitAfterField(fields[0], "");
    } else {
      SplitJoin(fields[1..]);
      SplitAfterField(fields[0], Join(fields[1..]));
      assert [fields[0]] + fields[1..] == fields;
    }
  }

  /** Python's slice `xs[n:]`, which is empty when xs has n elements or fewer. */
  function SliceFrom<T>(xs: seq<T>, n: nat): (r: seq<T>)
    ensures |r| == if n <= |xs| then |xs| - n else 0
    ensures forall j :: 0 <= j < |r| ==> r[j] == xs[n + j]
  {
    if n <= |xs| then xs[n..] else []
  }

  /** What one non-empty traceback line contributes: `line.split(',')[2:]`, its first
      element when that slice is not empty, the whole line when it is. */
  function Extracted(line: string): string {
    var msg := SliceFrom(Split(line), 2);
    if |msg| > 0 then msg[0] else line
  }

  /** A joined line of three fields or more, up to its third field. */
  lemma JoinTwoFields(f: seq<string>)
    requires |f| >= 3
    ensures Join(f) == (f[0] + ",") + ((f[1] + ",") + Join(f[2..]))
  {
    assert f[1..][0] == f[1] && f[1..][1..] == f[2..];
  }

  /** The rest of a joined line after its first field. */
  lemma JoinFirstField(f: seq<string>)
    requires |f| >= 1
    ensures Join(f) == f[0] + (if |f| > 1 then "," + Join(f[1..]) else "")
  {
  }

  /** A line with fewer than two commas is kept whole. */
  lemma ExtractedWhole(line: string)
    requires Commas(line) < 2
    ensures Extracted(line) == line
  {
  }

  /** What follows the third of the fields: nothing, or a comma and the rest. */
  function AfterThird(f: seq<string>): string
    requires |f| >= 3
  {
    if |f| > 3 then "," + Join(f[3..]) else ""
  }

  lemma JoinAroundThird(f: seq<string>)
    requires |f| >= 3
    ensures Join(f) == (f[0] + ",") + ((f[1] + ",") + (f[2] + AfterThird(f)))
  {
    JoinTwoFields(f);
    JoinFirstField(f[2..]);
    assert f[2..][0] == f[2] && f[2..][1..] == f[3..];
  }

  /** A line with two commas or more yields the text between its second comma and its
      third comma (or the end of the line): the line is its first two fields, which
      hold no comma, each followed by a comma, then the extracted text, then nothing or
      a comma and the rest. */
  lemma ExtractedThirdField(line: string)
    requires Commas(line) >= 2
    ensures var f := Split(line);
            && ',' !in f[0] && ',' !in f[1] && ',' !in Extracted(line)
            && line == (f[0] + ",") + ((f[1] + ",") + (Extracted(line) + AfterThird(f)))
            && (AfterThird(f) == "" || AfterThird(f)[0] == ',')
  {
    var f := Split(line);
    JoinSplit(line);
    JoinAroundThird(f);
    assert Extracted(line) == f[2];
  }

  /** Three comma-free fields joined by commas yield the third. */
  lemma ExtractedOfThree(a: string, b: string, c: string)
    requires ',' !in a && ',' !in b && ',' !in c
    ensures Extracted(a + "," + (b + "," + c)) == c
  {
    SplitAfterField(a, b + "," + c);
    SplitAfterField(b, c);
    SplitAfterField(c, "");
  }

  /** A frame line of a Python traceback, `  File "<file>", line <n>, in <function>`,
      yields its ` in <function>` part, provided the file name, the line number and
      the function name hold no comma (a comma in the file name shifts the fields). */
  lemma TracebackFrameLine(file: string, lineno: string, name: string)
    requires ',' !in file && ',' !in lineno && ',' !in name
    ensures Extracted("  File \"" + file + "\", line " + lineno + ", in " + name) == " in " + name
  {
    var a, b, c := "  File \"" + file + "\"", " line " + lineno, " in " + name;
    assert "  File \"" + file + "\", line " + lineno + ", in " + name == a + "," + (b + "," + c);
    ExtractedOfThree(a, b, c);
  }

  /** The non-empty lines, in order (`if len(line):`). */
  function NonEmpty(lines: seq<string>): (r: seq<string>)
    ensures |r| <= |lines|
    ensures forall j :: 0 <= j < |r| ==> r[j] != ""
  {
    if lines == [] then []
    else NonEmpty(lines[..|lines| - 1]) + (if lines[|lines| - 1] != "" then [lines[|lines| - 1]] else [])
  }

  /** Nothing but the empty lines is dropped: every non-empty line is kept as often as
      it occurs, and no empty line is kept. */
  lemma {:induction false} NonEmptyKeepsLines(lines: seq<string>)
    ensures forall l :: l != "" ==> multiset(NonEmpty(lines))[l] == multiset(lines)[l]
    ensures multiset(NonEmpty(lines))[""] == 0
  {
    if lines != [] {
      var init, last := lines[..|lines| - 1], lines[|lines| - 1];
      NonEmptyKeepsLines(init);
      assert lines == init + [last];
    }
  }

  /** The `lines` list that the loop builds: one extracted message per non-empty line, in order. */
  function Collected(lines: seq<string>): (r: seq<string>)
    ensures |r| == |NonEmpty(lines)|
    ensures forall j :: 0 <= j < |r| ==> r[j] == Extracted(NonEmpty(lines)[j])
  {
    if lines == [] then []
    else
      var last := lines[|lines| - 1];
      Collected(lines[..|lines| - 1]) + (if |last| > 0 then [Extracted(last)] else [])
  }

  /** `'Error%s from %s:'`, plural exactly when more than one message follows. */
  function Header(collected: seq<string>, errorFrom: string): string {
    "Error" + (if |collected| > 1 then "s" else "") + " from " + errorFrom + ":"
  }

  function ErrorMessages(texts: seq<string>): (r: seq<Message>)
    ensures |r| == |texts|
  {
    seq(|texts|, k requires 0 <= k < |texts| => Message(ERROR, texts[k]))
  }

  /** One more text, one more ERROR message at the end. */
  lemma ErrorMessagesStep(texts: seq<string>, j: nat)
    requires j < |texts|
    ensures ErrorMessages(texts[..j + 1]) == ErrorMessages(texts[..j]) + [Message(ERROR, texts[j])]
  {
  }

  /** What report_exception reports about a traceback: a header, then one ERROR
      message per collected line. */
  function Reported(formattedLines: seq<string>, errorFrom: string): seq<Message> {
    var lines := Collected(formattedLines);
    [Message(ERROR, Header(lines, errorFrom))] + ErrorMessages(lines)
  }

  /** Every message is an error; there is one per non-empty line after the header,
      each carrying what that line yields; the header is plural exactly when more
      than one message follows it. */
  lemma ReportedShape(formattedLines: seq<string>, errorFrom: string)
    ensures var messages := Reported(formattedLines, errorFrom);
            && |messages| == 1 + |NonEmpty(formattedLines)|
            && (forall j :: 0 <= j < |messages| ==> messages[j].level == ERROR)
            && (forall j :: 0 < j < |messages| ==> messages[j].text == Extracted(NonEmpty(formattedLines)[j - 1]))
            && messages[0].text == "Error" + (if |messages| > 2 then "s" else "") + " from " + errorFrom + ":"
  {
    var lines := Collected(formattedLines);
    var messages := Reported(formattedLines, errorFrom);
    assert forall j :: 0 < j < |messages| ==> messages[j] == ErrorMessages(lines)[j - 1];
  }

  /** The first loop of report_exception: the `lines` list it builds. */
  method CollectLines(formattedLines: seq<string>) returns (lines: seq<string>)
    ensures lines == Collected(formattedLines)
  {
    lines := [];
    var i := 0;
    while i < |formattedLines|
      invariant 0 <= i <= |formattedLines|
      invariant lines == Collected(formattedLines[..i])
    {
      var line := formattedLines[i];
      assert formattedLines[..i + 1][..i] == formattedLines[..i];
      if |line| > 0 {
        var msg := SliceFrom(Split(line), 2);
        if |msg| > 0 {
          lines := lines + [msg[0]];
        } else {
          lines := lines + [line];
        }
      }
      i := i + 1;
    }
    assert formattedLines[..i] == formattedLines;
  }

  /** report_exception on the lines of a traceback: the messages it reports, in order. */
  method ReportException(formattedLines: seq<string>, errorFrom: string) returns (messages: seq<Message>)
    ensures messages == Reported(formattedLines, errorFrom)
  {
    var lines := CollectLines(formattedLines);
    messages := [Message(ERROR, Header(lines, errorFrom))];
    var j := 0;
    while j < |lines|
      invariant 0 <= j <= |lines|
      invariant messages == [Message(ERROR, Header(lines, errorFrom))] + ErrorMessages(lines[..j])
    {
      ErrorMessagesStep(lines, j);
      messages := messages + [Message(ERROR, lines[j])];
      j := j + 1;
    }
    assert lines[..j] == lines;
  }
}
