/**
 * The email notifier's message: a one-line subject naming the application,
 * the exception's class and its message, and a body that adds the time of
 * reporting and the backtrace, one frame per line.
 *
 * Beside the two formatters this module defines their inverses: `Lines`
 * splits a text at its line breaks, and `ParseSubject` recovers the three
 * fields of a subject. The subject and the backtrace join have round-trip
 * lemmas; `BodyLines` gives the body's line structure.
 */
module EmailFormat {
  import opened Wrappers

  const Newline: char := '\n'

  /** Ruby's `Array#join(sep)`: the elements with `sep` between neighbours. */
  function Join(lines: seq<string>, sep: string): string
  {
    if |lines| == 0 then ""
    else if |lines| == 1 then lines[0]
    else lines[0] + sep + Join(lines[1..], sep)
  }

  /** What follows the application name in a subject. */
  const ExceptionTag: string := "] Exception: "

  /** The `<Type> (<message>)` part of a subject and of the body's title line. */
  function Cause(typeName: string, message: string): string
  {
    typeName + " (" + message + ")"
  }

  /** `[<app>] Exception: <Type> (<message>)` */
  function Subject(app: string, typeName: string, message: string): string
  {
    "[" + app + ExceptionTag + Cause(typeName, message)
  }

  /**
   * `<app> reported an exception at <timestamp>`, a blank line,
   * `<Type> (<message>):`, the backtrace joined by line breaks, and a
   * final blank line.
   */
  function Body(app: string, timestamp: string, typeName: string, message: string,
                backtrace: seq<string>): string
  {
    app + " reported an exception at " + timestamp + "\n\n"
    + Cause(typeName, message) + ":\n"
    + Join(backtrace, "\n") + "\n\n"
  }

  // ---------------------------------------------------------------------
  // The inverse of joining by line breaks

  predicate IsLine(s: string)
  {
    Newline !in s
  }

  predicate AllLines(lines: seq<string>)
  {
    forall i :: 0 <= i < |lines| ==> IsLine(lines[i])
  }

  /** The pieces of `s` between its line breaks; a text with k breaks has k + 1 pieces. */
  function Lines(s: string): (r: seq<string>)
    ensures |r| >= 1
    ensures AllLines(r)
    decreases |s|
  {
    if s == [] then [""]
    else
      var rest := Lines(s[1..]);
      if s[0] == Newline then [""] + rest
      else [[s[0]] + rest[0]] + rest[1..]
  }

  /** Joining the lines of any text by line breaks gives back the text. */
  lemma {:induction false} JoinLines(s: string)
    ensures Join(Lines(s), "\n") == s
    decreases |s|
  {
    if s != [] {
      JoinLines(s[1..]);
      if s[0] == Newline {
        JoinLinesAtBreak(s);
      } else {
        JoinLinesAtChar(s);
      }
    }
  }

  lemma JoinLinesAtBreak(s: string)
    requires s != [] && s[0] == Newline
    requires Join(Lines(s[1..]), "\n") == s[1..]
    ensures Join(Lines(s), "\n") == s
  {
    var rest := Lines(s[1..]);
    var lines := [""] + rest;
    assert Lines(s) == lines;
    assert lines[1..] == rest;
    calc {
      Join(lines, "\n");
      lines[0] + "\n" + Join(rest, "\n");
      "" + "\n" + s[1..];
      { assert s == [s[0]] + s[1..]; }
      s;
    }
  }

  lemma JoinLinesAtChar(s: string)
    requires s != [] && s[0] != Newline
    requires Join(Lines(s[1..]), "\n") == s[1..]
    ensures Join(Lines(s), "\n") == s
  {
    var rest := Lines(s[1..]);
    var first := [s[0]] + rest[0];
    var lines := [first] + rest[1..];
    assert Lines(s) == lines;
    if |rest| == 1 {
      assert Join(rest, "\n") == rest[0];
      assert s == [s[0]] + s[1..];
    } else {
      assert lines[1..] == rest[1..];
      calc {
        Join(lines, "\n");
        first + "\n" + Join(rest[1..], "\n");
        { PrependRegroup([s[0]], rest[0], Join(rest[1..], "\n")); }
        [s[0]] + (rest[0] + "\n" + Join(rest[1..], "\n"));
        [s[0]] + Join(rest, "\n");
        { assert s == [s[0]] + s[1..]; }
        s;
      }
    }
  }

  /** A text without line breaks is a single line. */
  lemma {:induction false} LinesOfLine(a: string)
    requires IsLine(a)
    ensures Lines(a) == [a]
    decreases |a|
  {
    if a != [] {
      assert IsLine(a[1..]) by { assert forall k :: 0 <= k < |a[1..]| ==> a[1..][k] == a[k + 1]; }
      LinesOfLine(a[1..]);
      assert a == [a[0]] + a[1..];
    }
  }

  /** A line followed by a break contributes exactly that line. */
  lemma {:induction false} LinesCons(a: string, b: string)
    requires IsLine(a)
    ensures Lines(a + "\n" + b) == [a] + Lines(b)
    decreases |a|
  {
    var s := a + "\n" + b;
    if a == [] {
      assert s == "\n" + b;
      assert s[1..] == b;
    } else {
      assert IsLine(a[1..]) by { assert forall k :: 0 <= k < |a[1..]| ==> a[1..][k] == a[k + 1]; }
      assert s[1..] == a[1..] + "\n" + b;
      LinesCons(a[1..], b);
      assert s[0] == a[0];
      assert a == [a[0]] + a[1..];
    }
  }

  lemma PrependRegroup(a: string, b: string, c: string)
    ensures a + b + "\n" + c == a + (b + "\n" + c)
  {
  }

  lemma Regroup(a: string, b: string, c: string)
    ensures a + "\n" + b + "\n" + c == a + "\n" + (b + "\n" + c)
  {
  }

  /** Splitting a joined list of lines, followed by a break and more text. */
  lemma {:induction false} LinesOfJoinThen(lines: seq<string>, rest: string)
    requires |lines| >= 1 && AllLines(lines)
    ensures Lines(Join(lines, "\n") + "\n" + rest) == lines + Lines(rest)
    decreases |lines|
  {
    AllLinesSplit(lines);
    if |lines| == 1 {
      LinesCons(lines[0], rest);
    } else {
      var tail := lines[1..];
      LinesOfJoinThen(tail, rest);
      var jt := Join(tail, "\n") + "\n" + rest;
      var whole := Join(lines, "\n") + "\n" + rest;
      assert whole == lines[0] + "\n" + jt by {
        assert Join(lines, "\n") == lines[0] + "\n" + Join(tail, "\n");
        Regroup(lines[0], Join(tail, "\n"), rest);
      }
      LinesCons(lines[0], jt);
      assert Lines(whole) == [lines[0]] + (tail + Lines(rest));
      assert [lines[0]] + (tail + Lines(rest)) == ([lines[0]] + tail) + Lines(rest);
      assert lines == [lines[0]] + tail;
    }
  }

  lemma AllLinesSplit(lines: seq<string>)
    requires |lines| >= 1 && AllLines(lines)
    ensures IsLine(lines[0]) && AllLines(lines[1..])
  {
    assert forall k :: 0 <= k < |lines[1..]| ==> lines[1..][k] == lines[k + 1];
  }

  /** Splitting lines joined by breaks gives back the lines (there must be one at least:
      Ruby joins `[]` and `[""]` to the same empty text). */
  lemma {:induction false} LinesOfJoin(lines: seq<string>)
    requires |lines| >= 1 && AllLines(lines)
    ensures Lines(Join(lines, "\n")) == lines
    decreases |lines|
  {
    if |lines| == 1 {
      LinesOfLine(lines[0]);
    } else {
      var tail := lines[1..];
      AllLinesSplit(lines);
      LinesOfJoin(tail);
      LinesCons(lines[0], Join(tail, "\n"));
      assert lines == [lines[0]] + tail;
    }
  }

  /**
   * The body read line by line: the header line, a blank line, the
   * `<Type> (<message>):` line, the backtrace frames (one empty line when
   * there are none), and two empty pieces for the closing blank line.
   */
  lemma BodyLines(app: string, timestamp: string, typeName: string, message: string,
                  backtrace: seq<string>)
    requires IsLine(app) && IsLine(timestamp) && IsLine(typeName) && IsLine(message)
    requires AllLines(backtrace)
    ensures Lines(Body(app, timestamp, typeName, message, backtrace))
         == [app + " reported an exception at " + timestamp, "", Cause(typeName, message) + ":"]
            + (if backtrace == [] then [""] else backtrace)
            + ["", ""]
  {
    var header := app + " reported an exception at " + timestamp;
    var title := Cause(typeName, message) + ":";
    var tail := Join(backtrace, "\n") + "\n" + "\n";
    BodyShape(app, timestamp, typeName, message, backtrace);
    LinesOfThreeLines(header, title, tail);
    LinesOfBacktraceTail(backtrace);
  }

  /** The body as three lines followed by the joined backtrace and the closing break. */
  lemma BodyShape(app: string, timestamp: string, typeName: string, message: string,
                  backtrace: seq<string>)
    ensures Body(app, timestamp, typeName, message, backtrace)
         == (app + " reported an exception at " + timestamp) + "\n"
            + ("" + "\n" + ((Cause(typeName, message) + ":") + "\n"
            + (Join(backtrace, "\n") + "\n" + "\n")))
  {
    var header := app + " reported an exception at " + timestamp;
    var joined := Join(backtrace, "\n");
    TitleRegroup(header + "\n\n", Cause(typeName, message), joined + "\n\n");
    BodyRegroup(header, Cause(typeName, message) + ":", joined);
  }

  lemma LinesOfThreeLines(header: string, title: string, tail: string)
    requires IsLine(header) && IsLine(title)
    ensures Lines(header + "\n" + ("" + "\n" + (title + "\n" + tail))) == [header, "", title] + Lines(tail)
  {
    LinesCons(header, "" + "\n" + (title + "\n" + tail));
    LinesCons("", title + "\n" + tail);
    LinesCons(title, tail);
  }

  /** The joined backtrace and the closing blank line, read line by line. */
  lemma LinesOfBacktraceTail(backtrace: seq<string>)
    requires AllLines(backtrace)
    ensures Lines(Join(backtrace, "\n") + "\n" + "\n")
         == (if backtrace == [] then [""] else backtrace) + ["", ""]
  {
    assert Lines("\n") == ["", ""] by {
      assert "\n" == "" + "\n" + "";
      LinesCons("", "");
    }
    if backtrace == [] {
      assert Join(backtrace, "\n") + "\n" + "\n" == "" + "\n" + "\n";
      LinesCons("", "\n");
    } else {
      LinesOfJoinThen(backtrace, "\n");
    }
  }

  // Regroupings of concatenations that the solver does not find unaided.

  lemma TitleRegroup(prefix: string, cause: string, suffix: string)
    ensures prefix + cause + ":\n" + suffix == prefix + (cause + ":") + "\n" + suffix
  {
  }

  lemma BodyRegroup(header: string, title: string, joined: string)
    ensures header + "\n\n" + title + "\n" + (joined + "\n\n")
         == header + "\n" + ("" + "\n" + (title + "\n" + (joined + "\n" + "\n")))
  {
  }

  // ---------------------------------------------------------------------
  // The inverse of the subject

  /** The first position of `c` in `s`, if any. */
  function IndexOf(s: string, c: char): (r: Option<nat>)
    ensures r.Some? ==> r.value < |s| && s[r.value] == c && c !in s[..r.value]
    ensures r.None? ==> c !in s
  {
    if s == [] then None
    else if s[0] == c then Some(0)
    else
      match IndexOf(s[1..], c)
      case None => None
      case Some(i) =>
        assert s[..i + 1] == [s[0]] + s[1..][..i];
        Some(i + 1)
  }

  datatype SubjectFields = SubjectFields(app: string, typeName: string, message: string)

  /** Reads a subject back into its application name, exception class and message. */
  function ParseSubject(s: string): Option<SubjectFields>
  {
    if |s| == 0 || s[0] != '[' then None else ParseBracketed(s[1..])
  }

  /** The subject after its opening `[`: the application name runs to the first `]`. */
  function ParseBracketed(t: string): Option<SubjectFields>
  {
    match IndexOf(t, ']')
    case None => None
    case Some(i) => ParseTagged(t[..i], t[i..])
  }

  /** The subject after the application name: the tag, then the cause. */
  function ParseTagged(app: string, rest: string): Option<SubjectFields>
  {
    if |rest| < |ExceptionTag| || rest[..|ExceptionTag|] != ExceptionTag then None
    else
      match ParseCause(rest[|ExceptionTag|..])
      case None => None
      case Some(cause) => Some(SubjectFields(app, cause.0, cause.1))
  }

  /** Reads `<Type> (<message>)` back: the class name runs to the first space. */
  function ParseCause(tail: string): Option<(string, string)>
  {
    match IndexOf(tail, ' ')
    case None => None
    case Some(j) => ParseParenthesized(tail[..j], tail[j..])
  }

  /** After the class name: ` (`, the message, and a closing `)`. */
  function ParseParenthesized(typeName: string, after: string): Option<(string, string)>
  {
    if |after| < 3 || after[..2] != " (" || after[|after| - 1] != ')' then None
    else Some((typeName, after[2..|after| - 1]))
  }

  lemma {:induction false} IndexOfFirst(a: string, c: char, b: string)
    requires c !in a
    ensures IndexOf(a + [c] + b, c) == Some(|a|)
    decreases |a|
  {
    if a != [] {
      assert (a + [c] + b)[1..] == a[1..] + [c] + b;
      assert c !in a[1..] by { assert forall k :: 0 <= k < |a[1..]| ==> a[1..][k] == a[k + 1]; }
      IndexOfFirst(a[1..], c, b);
    }
  }

  lemma ParseCauseRoundTrip(typeName: string, message: string)
    requires ' ' !in typeName
    ensures ParseCause(Cause(typeName, message)) == Some((typeName, message))
  {
    var after := " (" + message + ")";
    var tail := Cause(typeName, message);
    assert tail == typeName + [' '] + ("(" + message + ")");
    IndexOfFirst(typeName, ' ', "(" + message + ")");
    assert tail[|typeName|..] == after;
    assert tail[..|typeName|] == typeName;
    assert after[..2] == " (";
    assert after[2..|after| - 1] == message;
  }

  lemma ParseTaggedRoundTrip(app: string, typeName: string, message: string)
    requires ' ' !in typeName
    ensures ParseTagged(app, ExceptionTag + Cause(typeName, message))
         == Some(SubjectFields(app, typeName, message))
  {
    var rest := ExceptionTag + Cause(typeName, message);
    assert rest[..|ExceptionTag|] == ExceptionTag;
    assert rest[|ExceptionTag|..] == Cause(typeName, message);
    ParseCauseRoundTrip(typeName, message);
  }

  lemma ParseBracketedRoundTrip(app: string, typeName: string, message: string)
    requires ']' !in app && ' ' !in typeName
    ensures ParseBracketed(app + (ExceptionTag + Cause(typeName, message)))
         == Some(SubjectFields(app, typeName, message))
  {
    var after := " Exception: " + Cause(typeName, message);
    var t := app + (ExceptionTag + Cause(typeName, message));
    assert t == app + [']'] + after;
    IndexOfFirst(app, ']', after);
    assert t[..|app|] == app;
    assert t[|app|..] == ExceptionTag + Cause(typeName, message);
    ParseTaggedRoundTrip(app, typeName, message);
  }

  /** A subject regrouped to the right, as the parser reads it. */
  lemma SubjectRegroup(app: string, typeName: string, message: string)
    ensures Subject(app, typeName, message) == "[" + (app + (ExceptionTag + Cause(typeName, message)))
  {
  }

  /**
   * A subject parses back to the fields it was made from, provided the
   * application name holds no `]` and the class name no space (Ruby class
   * names never do); the message is unrestricted.
   */
  lemma SubjectRoundTrip(app: string, typeName: string, message: string)
    requires ']' !in app && ' ' !in typeName
    ensures ParseSubject(Subject(app, typeName, message)) == Some(SubjectFields(app, typeName, message))
  {
    var s := Subject(app, typeName, message);
    SubjectRegroup(app, typeName, message);
    assert s[1..] == app + (ExceptionTag + Cause(typeName, message));
    ParseBracketedRoundTrip(app, typeName, message);
  }

  lemma ParseParenthesizedSound(typeName: string, after: string)
    requires ParseParenthesized(typeName, after).Some?
    ensures after == " (" + ParseParenthesized(typeName, after).value.1 + ")"
  {
    var message := after[2..|after| - 1];
    assert after == after[..2] + message + after[|after| - 1..];
  }

  lemma ParseCauseSound(tail: string)
    requires ParseCause(tail).Some?
    ensures var c := ParseCause(tail).value;
      ' ' !in c.0 && tail == Cause(c.0, c.1)
  {
    var j := IndexOf(tail, ' ').value;
    var typeName, after := tail[..j], tail[j..];
    var message := ParseParenthesized(typeName, after).value.1;
    ParseParenthesizedSound(typeName, after);
    calc {
      tail;
      typeName + after;
      typeName + (" (" + message + ")");
      { Regroup3(typeName, " (", message, ")", ""); }
      Cause(typeName, message);
    }
  }

  lemma ParseTaggedSound(app: string, rest: string)
    requires ParseTagged(app, rest).Some?
    ensures var f := ParseTagged(app, rest).value;
      f.app == app && ' ' !in f.typeName && rest == ExceptionTag + Cause(f.typeName, f.message)
  {
    var tail := rest[|ExceptionTag|..];
    ParseCauseSound(tail);
    assert rest == rest[..|ExceptionTag|] + tail;
  }

  lemma ParseBracketedSound(t: string)
    requires ParseBracketed(t).Some?
    ensures var f := ParseBracketed(t).value;
      ']' !in f.app && ' ' !in f.typeName && t == f.app + (ExceptionTag + Cause(f.typeName, f.message))
  {
    var i := IndexOf(t, ']').value;
    ParseTaggedSound(t[..i], t[i..]);
    assert t == t[..i] + t[i..];
  }

  /** Whatever parses as a subject is the subject of the fields it parses to. */
  lemma ParseSubjectSound(s: string)
    requires ParseSubject(s).Some?
    ensures var f := ParseSubject(s).value;
      ']' !in f.app && ' ' !in f.typeName && Subject(f.app, f.typeName, f.message) == s
  {
    var t := s[1..];
    assert ParseSubject(s) == ParseBracketed(t);
    var f := ParseBracketed(t).value;
    ParseBracketedSound(t);
    calc {
      Subject(f.app, f.typeName, f.message);
      { SubjectRegroup(f.app, f.typeName, f.message); }
      "[" + (f.app + (ExceptionTag + Cause(f.typeName, f.message)));
      "[" + t;
      { assert s == [s[0]] + s[1..]; }
      s;
    }
  }

  /** The subject the email notifier produces for the reporter's test
      exception, of class `ExceptionClass`, with any message. */
  lemma TestSubject(app: string, message: string)
    ensures Subject(app, "ExceptionClass", message)
         == "[" + app + "] Exception: ExceptionClass (" + message + ")"
  {
    SubjectTemplate();
    Regroup3("[" + app, "] Exception: ", "ExceptionClass", " (", message + ")");
  }

  /** The body the email notifier produces for the reporter's test exception,
      with any message and the two-frame backtrace. */
  lemma TestBody(app: string, timestamp: string, message: string)
    ensures Body(app, timestamp, "ExceptionClass", message, ["1: foo", "2: bar"])
         == app + " reported an exception at " + timestamp
            + "\n\nExceptionClass (" + message + "):\n" + "1: foo\n2: bar" + "\n\n"
  {
    assert Join(["1: foo", "2: bar"], "\n") == "1: foo\n2: bar" by {
      assert Join(["1: foo", "2: bar"], "\n") == "1: foo" + "\n" + "2: bar";
    }
    BodyTemplate();
    Regroup3(app + " reported an exception at " + timestamp, "\n\n", "ExceptionClass", " (",
             message + "):\n" + "1: foo\n2: bar" + "\n\n");
  }

  lemma Regroup3(p: string, a: string, b: string, c: string, rest: string)
    ensures p + a + b + c + rest == p + (a + b + c) + rest
  {
  }

  lemma SubjectTemplate()
    ensures "] Exception: " + "ExceptionClass" + " (" == "] Exception: ExceptionClass ("
  {
  }

  lemma BodyTemplate()
    ensures "\n\n" + "ExceptionClass" + " (" == "\n\nExceptionClass ("
  {
  }
}
