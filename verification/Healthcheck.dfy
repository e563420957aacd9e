/** The healthcheck sidecar: how it reads the output of `manila-manage service list`, and
    how it answers. */
module Healthcheck {
  import opened Options

  datatype Record = Record(binary: string, host: string, status: string, state: string)

  const UP := ":-)"
  const DOWN := "XXX"
  const ENABLED := "enabled"
  const DISABLED := "disabled"
  const HEADER := "Binary"
  const SHARE := "manila-share"
  const SCHEDULER := "manila-scheduler"

  // ---------------------------------------------------------------- Python's split

  /** str.isspace for one character. */
  predicate IsSpace(c: char) {
    var n := c as int;
    || 0x09 <= n <= 0x0d || 0x1c <= n <= 0x20 || n == 0x85 || n == 0xa0 || n == 0x1680
    || 0x2000 <= n <= 0x200a || n == 0x2028 || n == 0x2029 || n == 0x202f || n == 0x205f || n == 0x3000
  }

  predicate Blank(s: string) { forall i | 0 <= i < |s| :: IsSpace(s[i]) }

  predicate Word(s: string) { s != "" && forall i | 0 <= i < |s| :: !IsSpace(s[i]) }

  /** s.split('\n') */
  function SplitLines(s: string): (lines: seq<string>)
    ensures lines != []
  {
    if s == "" then [""]
    else
      var rest := SplitLines(s[1..]);
      if s[0] == '\n' then [""] + rest else [[s[0]] + rest[0]] + rest[1..]
  }

  /** The length of the word s starts with. */
  function WordEnd(s: string): (n: nat)
    ensures n <= |s| && (forall i | 0 <= i < n :: !IsSpace(s[i])) && (n < |s| ==> IsSpace(s[n]))
  {
    if s == "" || IsSpace(s[0]) then 0 else 1 + WordEnd(s[1..])
  }

  /** s.split() */
  function Tokens(s: string): seq<string>
    decreases |s|
  {
    if s == "" then []
    else if IsSpace(s[0]) then Tokens(s[1..])
    else [s[..WordEnd(s)]] + Tokens(s[WordEnd(s)..])
  }

  // ---------------------------------------------------------------- the parser

  predicate Allowed(binary: string) { binary == SHARE || binary == SCHEDULER }

  function GetStatus(tokens: seq<string>): string { if ENABLED in tokens then ENABLED else DISABLED }

  function GetState(tokens: seq<string>): string { if UP in tokens then UP else DOWN }

  /** The records of one line: at most one. */
  function ParseLine(line: string): seq<Record> {
    var tokens := Tokens(line);
    if |tokens| <= 1 || HEADER in tokens || !Allowed(tokens[0]) then []
    else [Record(tokens[0], tokens[1], GetStatus(tokens), GetState(tokens))]
  }

  function ParseLines(lines: seq<string>): seq<Record> {
    if lines == [] then [] else ParseLine(lines[0]) + ParseLines(lines[1..])
  }

  function Parse(text: string): seq<Record> { ParseLines(SplitLines(text)) }

  lemma {:induction false} ParseLinesAppend(a: seq<string>, b: seq<string>)
    ensures ParseLines(a + b) == ParseLines(a) + ParseLines(b)
  {
    if a == [] {
      assert a + b == b;
    } else {
      assert (a + b)[0] == a[0] && (a + b)[1..] == a[1..] + b;
      ParseLinesAppend(a[1..], b);
      var first := ParseLine(a[0]);
      assert first + (ParseLines(a[1..]) + ParseLines(b)) == (first + ParseLines(a[1..])) + ParseLines(b);
    }
  }

  lemma {:induction false} SplitLinesAppend(x: string, y: string)
    ensures SplitLines(x + "\n" + y) == SplitLines(x) + SplitLines(y)
  {
    if x == "" {
      assert x + "\n" + y == "\n" + y;
      assert ("\n" + y)[1..] == y;
    } else {
      assert (x + "\n" + y)[1..] == x[1..] + "\n" + y;
      SplitLinesAppend(x[1..], y);
    }
  }

  /** Parsing is a homomorphism: a text is its lines, whatever they are. */
  lemma ParseHomomorphism(x: string, y: string)
    ensures Parse(x + "\n" + y) == Parse(x) + Parse(y)
  {
    SplitLinesAppend(x, y);
    ParseLinesAppend(SplitLines(x), SplitLines(y));
  }

  // ---------------------------------------------------------------- rendered tables

  /** One row of the service table.  A date may be several words. */
  datatype Row = Row(binary: string, host: string, zone: string, enabled: bool, up: bool, date: seq<string>)

  function Status(r: Row): string { if r.enabled then ENABLED else DISABLED }

  function StateOf(r: Row): string { if r.up then UP else DOWN }

  function RowTokens(r: Row): seq<string> { [r.binary, r.host, r.zone, Status(r), StateOf(r)] + r.date }

  predicate Words(tokens: seq<string>) { forall i | 0 <= i < |tokens| :: Word(tokens[i]) }

  /** Blanks before, between and after the words of a line. */
  predicate Pads(pads: seq<string>, n: nat) {
    && |pads| == n + 1
    && (forall i | 0 <= i <= n :: Blank(pads[i]) && '\n' !in pads[i])
    && (forall i | 0 < i < n :: pads[i] != "")
  }

  function Line(tokens: seq<string>, pads: seq<string>): string
    requires |pads| == |tokens| + 1
  {
    if tokens == [] then pads[0] else pads[0] + (tokens[0] + Line(tokens[1..], pads[1..]))
  }

  function JoinLines(lines: seq<string>): string {
    if lines == [] then "" else if |lines| == 1 then lines[0] else lines[0] + "\n" + JoinLines(lines[1..])
  }

  /** The record a row stands for. */
  function RecordOf(r: Row): Record { Record(r.binary, r.host, Status(r), StateOf(r)) }

  /** The tokens that the parser could mistake for a status, a state or the header. */
  predicate Clean(r: Row) {
    && HEADER !in RowTokens(r)
    && (!r.enabled ==> ENABLED !in RowTokens(r))
    && (!r.up ==> UP !in RowTokens(r))
  }

  lemma {:induction false} TokensSkip(pad: string, s: string)
    requires Blank(pad)
    ensures Tokens(pad + s) == Tokens(s)
    decreases |pad|
  {
    if pad == "" {
      assert pad + s == s;
    } else {
      assert (pad + s)[0] == pad[0] && (pad + s)[1..] == pad[1..] + s;
      TokensSkip(pad[1..], s);
    }
  }

  lemma {:induction false} WordEndIs(w: string, rest: string)
    requires (forall i | 0 <= i < |w| :: !IsSpace(w[i])) && (rest == "" || IsSpace(rest[0]))
    ensures WordEnd(w + rest) == |w|
    decreases |w|
  {
    if w == "" {
      assert w + rest == rest;
    } else {
      assert (w + rest)[0] == w[0] && (w + rest)[1..] == w[1..] + rest;
      WordEndIs(w[1..], rest);
    }
  }

  lemma TokensWord(w: string, rest: string)
    requires Word(w) && (rest == "" || IsSpace(rest[0]))
    ensures Tokens(w + rest) == [w] + Tokens(rest)
  {
    WordEndIs(w, rest);
    assert (w + rest)[0] == w[0];
    assert (w + rest)[..|w|] == w && (w + rest)[|w|..] == rest;
  }

  lemma {:induction false} TokensOfLine(tokens: seq<string>, pads: seq<string>)
    requires Words(tokens) && Pads(pads, |tokens|)
    ensures Tokens(Line(tokens, pads)) == tokens
    decreases |tokens|
  {
    if tokens == [] {
      TokensSkip(pads[0], "");
      assert pads[0] + "" == pads[0];
    } else {
      var rest := Line(tokens[1..], pads[1..]);
      TokensOfLine(tokens[1..], pads[1..]);
      assert rest == "" || IsSpace(rest[0]) by {
        assert Blank(pads[1]);
        if |tokens| == 1 { assert rest == pads[1]; } else { assert pads[1] != "" && rest[0] == pads[1][0]; }
      }
      TokensSkip(pads[0], tokens[0] + rest);
      TokensWord(tokens[0], rest);
    }
  }

  lemma {:induction false} LineIsOneLine(tokens: seq<string>, pads: seq<string>)
    requires Words(tokens) && Pads(pads, |tokens|)
    ensures '\n' !in Line(tokens, pads)
    decreases |tokens|
  {
    if tokens != [] {
      LineIsOneLine(tokens[1..], pads[1..]);
      assert '\n' !in tokens[0] by { assert Word(tokens[0]); }
    }
  }

  lemma {:induction false} SplitOneLine(line: string)
    requires '\n' !in line
    ensures SplitLines(line) == [line]
  {
    if line != "" {
      assert line[0] != '\n';
      SplitOneLine(line[1..]);
      assert [line[0]] + line[1..] == line;
    }
  }

  lemma {:induction false} SplitJoined(lines: seq<string>)
    requires lines != [] && forall i | 0 <= i < |lines| :: '\n' !in lines[i]
    ensures SplitLines(JoinLines(lines)) == lines
    decreases |lines|
  {
    SplitOneLine(lines[0]);
    if |lines| > 1 {
      SplitLinesAppend(lines[0], JoinLines(lines[1..]));
      SplitJoined(lines[1..]);
    }
  }

  /** SplitLines loses nothing and leaves no newline: with SplitJoined, it is str.split. */
  lemma {:induction false} JoinSplit(s: string)
    ensures JoinLines(SplitLines(s)) == s
    ensures forall i | 0 <= i < |SplitLines(s)| :: '\n' !in SplitLines(s)[i]
  {
    if s != "" {
      var rest := SplitLines(s[1..]);
      JoinSplit(s[1..]);
      if s[0] == '\n' {
        assert JoinLines([""] + rest) == "" + "\n" + JoinLines(rest) by { assert ([""] + rest)[1..] == rest; }
        assert s == "\n" + s[1..];
      } else {
        var lines := [[s[0]] + rest[0]] + rest[1..];
        assert lines[1..] == rest[1..];
        assert JoinLines(lines) == [s[0]] + JoinLines(rest);
        assert s == [s[0]] + s[1..];
      }
    }
  }

  /** A row is read back as its record exactly if it is clean; otherwise it is dropped or
      read with a wrong status or state. */
  lemma RowRoundTrip(r: Row, pads: seq<string>)
    requires Words(RowTokens(r)) && Pads(pads, |RowTokens(r)|) && Allowed(r.binary)
    ensures ParseLine(Line(RowTokens(r), pads)) == [RecordOf(r)] <==> Clean(r)
  {
    TokensOfLine(RowTokens(r), pads);
    assert RowTokens(r)[0] == r.binary && RowTokens(r)[1] == r.host;
    assert RowTokens(r)[3] == Status(r) && RowTokens(r)[4] == StateOf(r);
  }

  lemma OtherRow(r: Row, pads: seq<string>)
    requires Words(RowTokens(r)) && Pads(pads, |RowTokens(r)|) && !Allowed(r.binary)
    ensures ParseLine(Line(RowTokens(r), pads)) == []
  {
    TokensOfLine(RowTokens(r), pads);
    assert RowTokens(r)[0] == r.binary;
  }

  /** A disabled service in a zone called "enabled" is read as enabled. */
  lemma MisreadRow()
    ensures var r := Row(SHARE, "h@b", ENABLED, false, true, ["-"]);
            !Clean(r) && forall pads | Pads(pads, |RowTokens(r)|) ::
              ParseLine(Line(RowTokens(r), pads)) == [Record(SHARE, "h@b", ENABLED, UP)]
  {
    var r := Row(SHARE, "h@b", ENABLED, false, true, ["-"]);
    assert RowTokens(r) == [SHARE, "h@b", ENABLED, DISABLED, UP, "-"];
    forall pads | Pads(pads, |RowTokens(r)|)
      ensures ParseLine(Line(RowTokens(r), pads)) == [Record(SHARE, "h@b", ENABLED, UP)]
    {
      TokensOfLine(RowTokens(r), pads);
      assert RowTokens(r)[2] == ENABLED && RowTokens(r)[4] == UP;
    }
  }

  /** The lines of a table: the header, then the rows, each padded anyhow. */
  ghost predicate Renders(lines: seq<string>, rows: seq<Row>) {
    && |lines| == |rows| + 1
    && (exists tokens, pads ::
          Words(tokens) && HEADER in tokens && Pads(pads, |tokens|) && lines[0] == Line(tokens, pads))
    && (forall i | 0 <= i < |rows| :: RowLine(lines[i + 1], rows[i]))
  }

  ghost predicate RowLine(line: string, r: Row) {
    Words(RowTokens(r)) && exists pads :: Pads(pads, |RowTokens(r)|) && line == Line(RowTokens(r), pads)
  }

  /** The records of the services this sidecar knows, in the order of their rows. */
  function Records(rows: seq<Row>): seq<Record> {
    if rows == [] then []
    else (if Allowed(rows[0].binary) then [RecordOf(rows[0])] else []) + Records(rows[1..])
  }

  predicate Readable(rows: seq<Row>) {
    forall i | 0 <= i < |rows| :: Allowed(rows[i].binary) ==> Clean(rows[i])
  }

  lemma {:induction false} RowsRoundTrip(lines: seq<string>, rows: seq<Row>)
    requires |lines| == |rows| && (forall i | 0 <= i < |rows| :: RowLine(lines[i], rows[i])) && Readable(rows)
    ensures ParseLines(lines) == Records(rows)
    ensures forall i | 0 <= i < |lines| :: '\n' !in lines[i]
  {
    if rows != [] {
      assert RowLine(lines[0], rows[0]);
      var pads :| Pads(pads, |RowTokens(rows[0])|) && lines[0] == Line(RowTokens(rows[0]), pads);
      LineIsOneLine(RowTokens(rows[0]), pads);
      if Allowed(rows[0].binary) { RowRoundTrip(rows[0], pads); } else { OtherRow(rows[0], pads); }
      forall i | 0 <= i < |rows| - 1 ensures RowLine(lines[1..][i], rows[1..][i]) {
        assert RowLine(lines[i + 1], rows[i + 1]);
      }
      RowsRoundTrip(lines[1..], rows[1..]);
    }
  }

  /** Parsing a rendered table returns exactly its records, in order. */
  lemma TableRoundTrip(lines: seq<string>, rows: seq<Row>)
    requires Renders(lines, rows) && Readable(rows)
    ensures Parse(JoinLines(lines)) == Records(rows)
    ensures Parse(JoinLines(lines) + "\n") == Records(rows)
  {
    var tokens, pads :| Words(tokens) && HEADER in tokens && Pads(pads, |tokens|) && lines[0] == Line(tokens, pads);
    TokensOfLine(tokens, pads);
    LineIsOneLine(tokens, pads);
    assert ParseLine(lines[0]) == [];
    RowsRoundTrip(lines[1..], rows);
    SplitJoined(lines);
    ParseHomomorphism(JoinLines(lines), "");
    assert JoinLines(lines) + "\n" + "" == JoinLines(lines) + "\n";
  }

  // ---------------------------------------------------------------- plain text

  /** Printable ASCII other than the blank. */
  predicate Graphic(s: string) { s != "" && forall i | 0 <= i < |s| :: '!' <= s[i] <= '~' }

  predicate Spaces(s: string) { forall i | 0 <= i < |s| :: s[i] == ' ' }

  lemma Separators()
    ensures IsSpace(' ') && IsSpace('\t') && IsSpace('\r') && IsSpace('\n')
    ensures forall c | '!' <= c <= '~' :: !IsSpace(c)
  {
  }

  /** Blanks separate words, and nothing printable does: any number of blanks around a line,
      at least one between its words. */
  lemma SpacedTokens(tokens: seq<string>, pads: seq<string>)
    requires (forall i | 0 <= i < |tokens| :: Graphic(tokens[i])) && |pads| == |tokens| + 1
    requires forall i | 0 <= i <= |tokens| :: Spaces(pads[i])
    requires forall i | 0 < i < |tokens| :: pads[i] != ""
    ensures Tokens(Line(tokens, pads)) == tokens
  {
    SpacedPads(tokens, pads);
    TokensOfLine(tokens, pads);
  }

  lemma SpacedPads(tokens: seq<string>, pads: seq<string>)
    requires (forall i | 0 <= i < |tokens| :: Graphic(tokens[i])) && |pads| == |tokens| + 1
    requires forall i | 0 <= i <= |tokens| :: Spaces(pads[i])
    requires forall i | 0 < i < |tokens| :: pads[i] != ""
    ensures Words(tokens) && Pads(pads, |tokens|)
  {
    Separators();
    forall i | 0 <= i < |tokens| ensures Word(tokens[i]) { assert Graphic(tokens[i]); }
    forall i | 0 <= i <= |tokens| ensures Blank(pads[i]) && '\n' !in pads[i] { assert Spaces(pads[i]); }
  }

  /** A row of printable words between blanks is read back exactly if it is clean. */
  lemma SpacedRow(r: Row, pads: seq<string>)
    requires (forall i | 0 <= i < |RowTokens(r)| :: Graphic(RowTokens(r)[i])) && |pads| == |RowTokens(r)| + 1
    requires forall i | 0 <= i <= |RowTokens(r)| :: Spaces(pads[i])
    requires forall i | 0 < i < |RowTokens(r)| :: pads[i] != ""
    requires Allowed(r.binary)
    ensures ParseLine(Line(RowTokens(r), pads)) == [RecordOf(r)] <==> Clean(r)
  {
    SpacedPads(RowTokens(r), pads);
    RowRoundTrip(r, pads);
  }

  /** Any line of printable words between blanks: a record of its first two words if there are
      two, if the first is a service this sidecar knows, and if it is no header; its status and
      state are told by one word each, wherever that stands. */
  lemma LineRecord(tokens: seq<string>, pads: seq<string>)
    requires (forall i | 0 <= i < |tokens| :: Graphic(tokens[i])) && |pads| == |tokens| + 1
    requires forall i | 0 <= i <= |tokens| :: Spaces(pads[i])
    requires forall i | 0 < i < |tokens| :: pads[i] != ""
    ensures ParseLine(Line(tokens, pads)) != [] <==>
              && |tokens| >= 2 && (tokens[0] == "manila-share" || tokens[0] == "manila-scheduler")
              && forall i | 0 <= i < |tokens| :: tokens[i] != "Binary"
    ensures ParseLine(Line(tokens, pads)) != [] ==>
              var r := ParseLine(Line(tokens, pads))[0];
              && ParseLine(Line(tokens, pads)) == [r] && r.binary == tokens[0] && r.host == tokens[1]
              && (r.status == "enabled" || r.status == "disabled") && (r.state == ":-)" || r.state == "XXX")
              && (r.status == "enabled" <==> exists i :: 0 <= i < |tokens| && tokens[i] == "enabled")
              && (r.state == ":-)" <==> exists i :: 0 <= i < |tokens| && tokens[i] == ":-)")
  {
    SpacedTokens(tokens, pads);
  }

  /** The line of words with one blank between them. */
  function Spaced(tokens: seq<string>): string {
    if tokens == [] then "" else if |tokens| == 1 then tokens[0] else tokens[0] + " " + Spaced(tokens[1..])
  }

  lemma SpacedStep(w: string, rest: string)
    requires Graphic(w)
    ensures Tokens(w + " " + rest) == [w] + Tokens(rest) && '\n' !in w
  {
    Separators();
    assert w + " " + rest == w + (" " + rest);
    hide IsSpace, Tokens, WordEnd;
    TokensWord(w, " " + rest);
    TokensSkip(" ", rest);
  }

  lemma {:induction false} SpacedSplits(tokens: seq<string>)
    requires forall i | 0 <= i < |tokens| :: Graphic(tokens[i])
    ensures Tokens(Spaced(tokens)) == tokens && '\n' !in Spaced(tokens)
    decreases |tokens|
  {
    hide IsSpace, WordEnd;
    if |tokens| == 1 {
      GraphicToken(tokens[0]);
    } else if tokens != [] {
      hide Tokens, Graphic;
      SpacedSplits(tokens[1..]);
      SpacedStep(tokens[0], Spaced(tokens[1..]));
    }
  }

  lemma GraphicToken(w: string)
    requires Graphic(w)
    ensures Tokens(w) == [w] && '\n' !in w
  {
    Separators();
    assert Word(w) && w + "" == w;
    TokensWord(w, "");
  }

  lemma SpacedLine(tokens: seq<string>)
    requires forall i | 0 <= i < |tokens| :: Graphic(tokens[i])
    ensures Tokens(Spaced(tokens)) == tokens && SplitLines(Spaced(tokens)) == [Spaced(tokens)]
  {
    SpacedSplits(tokens);
    SplitOneLine(Spaced(tokens));
  }

  lemma SpacedSix(a: string, b: string, c: string, d: string, e: string, f: string)
    ensures Spaced([a, b, c, d, e, f]) == a + " " + (b + " " + (c + " " + (d + " " + (e + " " + f))))
  {
    assert [a, b, c, d, e, f][1..] == [b, c, d, e, f] && [b, c, d, e, f][1..] == [c, d, e, f];
    assert [c, d, e, f][1..] == [d, e, f] && [d, e, f][1..] == [e, f] && [e, f][1..] == [f];
    assert Spaced([f]) == f && Spaced([e, f]) == e + " " + f;
    assert Spaced([d, e, f]) == d + " " + (e + " " + f);
    assert Spaced([c, d, e, f]) == c + " " + (d + " " + (e + " " + f));
    assert Spaced([b, c, d, e, f]) == b + " " + (c + " " + (d + " " + (e + " " + f)));
  }

  lemma HeaderEnd()
    ensures "Zone" + " " + ("Status" + " " + ("State" + " " + "At")) == "Zone Status State At"
  {
    hide *;
    assert "State" + " " + "At" == "State At";
    assert "Status" + " " + "State At" == "Status State At";
  }

  lemma HeaderText()
    ensures Spaced(["Binary", "Host", "Zone", "Status", "State", "At"]) == "Binary Host Zone Status State At"
  {
    SpacedSix("Binary", "Host", "Zone", "Status", "State", "At");
    hide *;
    HeaderEnd();
    assert "Host" + " " + "Zone Status State At" == "Host Zone Status State At";
    assert "Binary" + " " + "Host Zone Status State At" == "Binary Host Zone Status State At";
  }

  lemma HeaderExample()
    ensures ParseLine("Binary Host Zone Status State At") == []
    ensures SplitLines("Binary Host Zone Status State At") == ["Binary Host Zone Status State At"]
  {
    var words := ["Binary", "Host", "Zone", "Status", "State", "At"];
    hide Tokens, WordEnd, SplitLines, Spaced, IsSpace;
    HeaderText();
    SpacedLine(words);
    assert "Binary" == words[0];
  }

  lemma ShareText()
    ensures Spaced(["manila-share", "h@b", "z", "enabled", ":-)", "now"]) == "manila-share h@b z enabled :-) now"
  {
    SpacedSix("manila-share", "h@b", "z", "enabled", ":-)", "now");
    hide *;
    assert ":-)" + " " + "now" == ":-) now";
    assert "enabled" + " " + ":-) now" == "enabled :-) now";
    assert "z" + " " + "enabled :-) now" == "z enabled :-) now";
    assert "h@b" + " " + "z enabled :-) now" == "h@b z enabled :-) now";
    assert "manila-share" + " " + "h@b z enabled :-) now" == "manila-share h@b z enabled :-) now";
  }

  lemma ShareExample()
    ensures ParseLine("manila-share h@b z enabled :-) now") == [Record("manila-share", "h@b", "enabled", ":-)")]
    ensures SplitLines("manila-share h@b z enabled :-) now") == ["manila-share h@b z enabled :-) now"]
  {
    var words := ["manila-share", "h@b", "z", "enabled", ":-)", "now"];
    hide Tokens, WordEnd, SplitLines, Spaced, IsSpace;
    ShareText();
    SpacedLine(words);
    assert words[3] == "enabled" && words[4] == ":-)";
  }

  lemma SchedulerText()
    ensures Spaced(["manila-scheduler", "h", "z", "disabled", "XXX", "-"]) == "manila-scheduler h z disabled XXX -"
  {
    SpacedSix("manila-scheduler", "h", "z", "disabled", "XXX", "-");
    hide *;
    assert "XXX" + " " + "-" == "XXX -";
    assert "disabled" + " " + "XXX -" == "disabled XXX -";
    assert "z" + " " + "disabled XXX -" == "z disabled XXX -";
    assert "h" + " " + "z disabled XXX -" == "h z disabled XXX -";
    assert "manila-scheduler" + " " + "h z disabled XXX -" == "manila-scheduler h z disabled XXX -";
  }

  lemma SchedulerExample()
    ensures ParseLine("manila-scheduler h z disabled XXX -") == [Record("manila-scheduler", "h", "disabled", "XXX")]
    ensures SplitLines("manila-scheduler h z disabled XXX -") == ["manila-scheduler h z disabled XXX -"]
  {
    var words := ["manila-scheduler", "h", "z", "disabled", "XXX", "-"];
    hide Tokens, WordEnd, SplitLines, Spaced, IsSpace;
    SchedulerText();
    SpacedLine(words);
  }

  lemma DataText()
    ensures Spaced(["manila-data", "h", "z", "enabled", ":-)", "now"]) == "manila-data h z enabled :-) now"
  {
    SpacedSix("manila-data", "h", "z", "enabled", ":-)", "now");
    hide *;
    assert ":-)" + " " + "now" == ":-) now";
    assert "enabled" + " " + ":-) now" == "enabled :-) now";
    assert "z" + " " + "enabled :-) now" == "z enabled :-) now";
    assert "h" + " " + "z enabled :-) now" == "h z enabled :-) now";
    assert "manila-data" + " " + "h z enabled :-) now" == "manila-data h z enabled :-) now";
  }

  lemma DataExample()
    ensures ParseLine("manila-data h z enabled :-) now") == []
    ensures SplitLines("manila-data h z enabled :-) now") == ["manila-data h z enabled :-) now"]
  {
    var words := ["manila-data", "h", "z", "enabled", ":-)", "now"];
    hide Tokens, WordEnd, SplitLines, Spaced, IsSpace;
    DataText();
    SpacedLine(words);
  }

  lemma ParseNext(line: string, rest: string)
    requires SplitLines(line) == [line]
    ensures Parse(line + "\n" + rest) == ParseLine(line) + Parse(rest)
  {
    ParseHomomorphism(line, rest);
    assert ParseLines([line]) == ParseLine(line);
  }

  /** One table as the command prints it, and the records read from it. */
  lemma TableExample()
    ensures Parse("Binary Host Zone Status State At" + "\n" + (
                  "manila-share h@b z enabled :-) now" + "\n" + (
                  "manila-data h z enabled :-) now" + "\n" + (
                  "manila-scheduler h z disabled XXX -" + "\n" + "")))) ==
            [Record("manila-share", "h@b", "enabled", ":-)"), Record("manila-scheduler", "h", "disabled", "XXX")]
  {
    HeaderExample();
    ShareExample();
    DataExample();
    SchedulerExample();
    hide *;
    var l1, l2, l3, l4 :=
      "Binary Host Zone Status State At", "manila-share h@b z enabled :-) now",
      "manila-data h z enabled :-) now", "manila-scheduler h z disabled XXX -";
    ParseNext(l4, "");
    ParseNext(l3, l4 + "\n" + "");
    ParseNext(l2, l3 + "\n" + (l4 + "\n" + ""));
    ParseNext(l1, l2 + "\n" + (l3 + "\n" + (l4 + "\n" + "")));
    EmptyExample();
  }

  lemma EmptyExample()
    ensures Parse("") == []
  {
    assert Tokens("") == [];
    assert ParseLines([""]) == ParseLine("") + ParseLines([]);
  }

  // ---------------------------------------------------------------- the verdict

  /** What a service is looked up by; the scheduler's filter names a state too. */
  datatype Filter = Filter(binary: string, host: string, status: string, state: Option<string>)

  datatype Check = Ok | NotFound | NotUp

  predicate Fits(r: Record, f: Filter) {
    && r.binary == f.binary && r.host == f.host && r.status == f.status
    && (f.state.Some? ==> r.state == f.state.value)
  }

  /** check_service */
  function CheckService(services: seq<Record>, f: Filter): Check {
    if forall r | r in services :: !Fits(r, f) then NotFound
    else if forall r | r in services && Fits(r, f) :: r.state == UP then Ok
    else NotUp
  }

  predicate AllOk(services: seq<Record>, filters: seq<Filter>) {
    forall f | f in filters :: CheckService(services, f) == Ok
  }

  /** What the command gave: an exception, bytes that are not UTF-8, or text. */
  datatype Output = Failed(error: string) | Undecodable | Text(text: string)

  datatype Reason = Database(error: string) | NoSuchService(f: Filter) | ServiceNotUp

  /** 200 with its page, 500 with its message, or an exception and no response at all. */
  datatype Response = Healthy | Unhealthy(reason: Reason) | Unanswered

  /** Filter i is the first one whose check fails: for want of a service that fits it, or
      because one that fits is not up. */
  predicate FirstFailure(services: seq<Record>, filters: seq<Filter>, i: nat, reason: Reason) {
    && i < |filters| && AllOk(services, filters[..i])
    && (reason == NoSuchService(filters[i]) <==> forall r | r in services :: !Fits(r, filters[i]))
    && (reason == Reason.ServiceNotUp <==> exists r :: r in services && Fits(r, filters[i]) && r.state != UP)
    && !reason.Database?
  }

  function BackendFilter(host: string, backend: string): Filter {
    Filter(SHARE, host + "@" + backend, ENABLED, None)
  }

  function SchedulerFilter(host: string): Filter { Filter(SCHEDULER, host, ENABLED, Some(UP)) }

  class HeartbeatServer {
    var servicesFilters: seq<Filter>

    /** initialize_class, for the share service or the scheduler. */
    constructor (share: bool, host: string, backends: seq<string>)
      ensures share ==> |servicesFilters| == |backends| &&
                        forall i | 0 <= i < |backends| :: servicesFilters[i] == BackendFilter(host, backends[i])
      ensures !share ==> servicesFilters == [SchedulerFilter(host)]
    {
      var filters := [];
      if share {
        for i := 0 to |backends|
          invariant |filters| == i && forall j | 0 <= j < i :: filters[j] == BackendFilter(host, backends[j])
        {
          filters := filters + [Filter(SHARE, host + "@" + backends[i], ENABLED, None)];
        }
      } else {
        filters := [Filter(SCHEDULER, host, ENABLED, Some(UP))];
      }
      servicesFilters := filters;
    }

    /** The response: an error of the command is reported, one of the decoding is not caught,
        and of several failing filters the first one is reported. */
    method DoGet(output: Output) returns (r: Response)
      ensures r.Healthy? <==> output.Text? && AllOk(Parse(output.text), servicesFilters)
      ensures r.Unanswered? <==> output.Undecodable?
      ensures output.Failed? ==> r == Unhealthy(Database(output.error))
      ensures output.Text? && r.Unhealthy? ==>
                exists i :: 0 <= i < |servicesFilters| &&
                  FirstFailure(Parse(output.text), servicesFilters, i, r.reason)
    {
      match output {
        case Failed(error) => r := Unhealthy(Database(error));
        case Undecodable => r := Unanswered;
        case Text(text) =>
          var services := ParseServiceListOutput(text);
          r := CheckAll(services);
      }
    }

    /** The loop over the filters. */
    method CheckAll(services: seq<Record>) returns (r: Response)
      ensures !r.Unanswered? && (r.Healthy? <==> AllOk(services, servicesFilters))
      ensures r.Unhealthy? ==>
                exists i :: 0 <= i < |servicesFilters| && FirstFailure(services, servicesFilters, i, r.reason)
    {
      for i := 0 to |servicesFilters|
        invariant AllOk(services, servicesFilters[..i])
      {
        assert servicesFilters[i] in servicesFilters;
        match CheckService(services, servicesFilters[i]) {
          case Ok =>
            assert servicesFilters[..i + 1] == servicesFilters[..i] + [servicesFilters[i]];
          case NotFound =>
            r := Unhealthy(NoSuchService(servicesFilters[i]));
            assert FirstFailure(services, servicesFilters, i, r.reason);
            return;
          case NotUp =>
            r := Unhealthy(Reason.ServiceNotUp);
            assert FirstFailure(services, servicesFilters, i, r.reason);
            return;
        }
      }
      assert servicesFilters[..|servicesFilters|] == servicesFilters;
      r := Healthy;
    }
  }

  method ParseServiceListOutput(text: string) returns (services: seq<Record>)
    ensures services == Parse(text)
  {
    var lines := SplitLines(text);
    services := [];
    for i := 0 to |lines|
      invariant services == ParseLines(lines[..i])
    {
      assert lines[..i + 1] == lines[..i] + [lines[i]];
      ParseLinesAppend(lines[..i], [lines[i]]);
      assert ParseLines([lines[i]]) == ParseLine(lines[i]);
      var tokens := Tokens(lines[i]);
      if |tokens| <= 1 { continue; }
      if HEADER in tokens { continue; }
      if Allowed(tokens[0]) {
        services := services + [Record(tokens[0], tokens[1], GetStatus(tokens), GetState(tokens))];
      }
    }
    assert lines[..|lines|] == lines;
  }

  // ---------------------------------------------------------------- the verdict on a table

  /** Some enabled row of the table is for this service on this host, and all of them are up. */
  predicate ServiceUp(rows: seq<Row>, binary: string, host: string) {
    && (exists row :: row in rows && row.binary == binary && row.host == host && row.enabled)
    && (forall row | row in rows && row.binary == binary && row.host == host && row.enabled :: row.up)
  }

  predicate SomeUp(rows: seq<Row>, binary: string, host: string) {
    exists row :: row in rows && row.binary == binary && row.host == host && row.enabled && row.up
  }

  predicate FitsRow(r: Row, f: Filter) { Allowed(r.binary) && Fits(RecordOf(r), f) }

  lemma {:induction false} RecordsHold(rows: seq<Row>, r: Record)
    ensures r in Records(rows) <==> exists row :: row in rows && Allowed(row.binary) && RecordOf(row) == r
  {
    if rows != [] {
      RecordsHold(rows[1..], r);
      assert rows == [rows[0]] + rows[1..];
    }
  }

  lemma RecordsFit(rows: seq<Row>, f: Filter)
    ensures CheckService(Records(rows), f) == Ok <==>
              (exists row :: row in rows && FitsRow(row, f)) && (forall row | row in rows && FitsRow(row, f) :: row.up)
  {
    forall r ensures r in Records(rows) <==> exists row :: row in rows && Allowed(row.binary) && RecordOf(row) == r {
      RecordsHold(rows, r);
    }
    forall row | row in rows && FitsRow(row, f) ensures RecordOf(row) in Records(rows) {}
  }

  lemma BackendVerdict(rows: seq<Row>, host: string, backend: string)
    ensures CheckService(Records(rows), BackendFilter(host, backend)) == Ok <==>
              ServiceUp(rows, SHARE, host + "@" + backend)
  {
    var f := BackendFilter(host, backend);
    RecordsFit(rows, f);
    assert forall row | row in rows ::
      FitsRow(row, f) <==> row.binary == SHARE && row.host == host + "@" + backend && row.enabled;
  }

  lemma SchedulerVerdict(rows: seq<Row>, host: string)
    ensures CheckService(Records(rows), SchedulerFilter(host)) == Ok <==> SomeUp(rows, SCHEDULER, host)
  {
    var f := SchedulerFilter(host);
    RecordsFit(rows, f);
    assert forall row | row in rows ::
      FitsRow(row, f) <==> row.binary == SCHEDULER && row.host == host && row.enabled && row.up;
  }

  /** The share sidecar, on any rendered table: 200 exactly if every enabled backend has an
      enabled row and all its enabled rows are up, whatever other rows there are. */
  method ShareHealth(host: string, backends: seq<string>, lines: seq<string>, ghost rows: seq<Row>)
    returns (r: Response)
    requires Renders(lines, rows) && Readable(rows)
    ensures r.Healthy? <==> forall i | 0 <= i < |backends| :: ServiceUp(rows, SHARE, host + "@" + backends[i])
    ensures r.Healthy? || r.Unhealthy?
  {
    TableRoundTrip(lines, rows);
    var srv := new HeartbeatServer(true, host, backends);
    r := srv.DoGet(Text(JoinLines(lines) + "\n"));
    assert forall i | 0 <= i < |backends| :: BackendFilter(host, backends[i]) in srv.servicesFilters;
    assert forall f | f in srv.servicesFilters ::
      exists i :: 0 <= i < |backends| && f == BackendFilter(host, backends[i]);
    forall i | 0 <= i < |backends|
      ensures CheckService(Records(rows), BackendFilter(host, backends[i])) == Ok <==>
                ServiceUp(rows, SHARE, host + "@" + backends[i])
    {
      BackendVerdict(rows, host, backends[i]);
    }
  }

  /** The scheduler's: 200 exactly if some enabled row on its host is up. */
  method SchedulerHealth(host: string, lines: seq<string>, ghost rows: seq<Row>) returns (r: Response)
    requires Renders(lines, rows) && Readable(rows)
    ensures r.Healthy? <==> SomeUp(rows, SCHEDULER, host)
    ensures r.Healthy? || r.Unhealthy?
  {
    TableRoundTrip(lines, rows);
    var srv := new HeartbeatServer(false, host, []);
    r := srv.DoGet(Text(JoinLines(lines) + "\n"));
    SchedulerVerdict(rows, host);
    assert srv.servicesFilters[0] == SchedulerFilter(host);
  }
}
