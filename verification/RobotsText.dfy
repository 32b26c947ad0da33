/** Robots files. */
module RobotsText {
  // Reading robots.txt text into groups (packages/governor/src/robots-parse.ts,
  // `parseRobotsTxt`), and what cutting the text off can and cannot do to it.

  import opened Prelude
  import opened Text
  import opened RobotsMatch

  datatype Record = Record(field: string, value: string)
  datatype RobotsFile = RobotsFile(groups: seq<Group>, otherRecords: seq<Record>)

  /** `text.split` on a carriage return, a line feed, or the two together. */
  function Lines(text: string): (lines: seq<string>)
    ensures |lines| >= 1
  {
    if text == [] then [[]]
    else if text[0] == '\r' && |text| > 1 && text[1] == '\n' then [[]] + Lines(text[2..])
    else if text[0] == '\r' || text[0] == '\n' then [[]] + Lines(text[1..])
    else
      var rest := Lines(text[1..]);
      [[text[0]] + rest[0]] + rest[1..]
  }

  function StripComment(line: string): string {
    var hash := IndexOf(line, '#');
    if hash == -1 then line else line[..hash]
  }

  /** What one line says: a field and its value, or nothing. */
  function ReadLine(rawLine: string): Option<Record> {
    var line := Trim(StripComment(rawLine));
    var colon := IndexOf(line, ':');
    if colon == -1 then None
    else Some(Record(Lower(Trim(line[..colon])), Trim(line[colon + 1..])))
  }

  /** The parser between two lines; `current` in the code is always the last group. */
  datatype Parser = Parser(groups: seq<Group>, otherRecords: seq<Record>, lastWasAgent: bool)

  const START := Parser([], [], false)

  predicate IsAgentField(field: string) { field == "user-agent" || field == "useragent" }

  predicate IsRuleField(field: string) { field == "allow" || field == "disallow" }

  function KindOf(field: string): Kind { if field == "allow" then Allow else Disallow }

  /** A user-agent line right after a rule, or before any group, opens a new group. */
  function OnAgent(p: Parser, agent: string): Parser {
    var groups := if p.groups == [] || !p.lastWasAgent then p.groups + [Group([], [])] else p.groups;
    var last := groups[|groups| - 1];
    Parser(groups[|groups| - 1 := last.(agents := last.agents + [agent])], p.otherRecords, true)
  }

  /** A rule before any group is ignored. */
  function OnRule(p: Parser, rule: Rule): Parser {
    if p.groups == [] then p
    else
      var last := p.groups[|p.groups| - 1];
      Parser(p.groups[|p.groups| - 1 := last.(rules := last.rules + [rule])], p.otherRecords, false)
  }

  function OnRecord(p: Parser, r: Record): Parser {
    if IsAgentField(r.field) then OnAgent(p, Lower(r.value))
    else if IsRuleField(r.field) then OnRule(p, Rule(KindOf(r.field), r.value))
    else p.(otherRecords := p.otherRecords + [r])
  }

  function Step(p: Parser, rawLine: string): Parser {
    var read := ReadLine(rawLine);
    if read == None then p else OnRecord(p, read.value)
  }

  /** One step for each of the first `n` lines, in order. */
  function Folded<S>(step: (S, string) -> S, start: S, lines: seq<string>, n: nat): S
    requires n <= |lines|
  {
    if n == 0 then start else step(Folded(step, start, lines, n - 1), lines[n - 1])
  }

  function ParseLines(lines: seq<string>, n: nat): Parser
    requires n <= |lines|
  {
    Folded(Step, START, lines, n)
  }

  function FileOf(p: Parser): RobotsFile { RobotsFile(p.groups, p.otherRecords) }

  /** The lines that are read: all of them, or all but the last when the text was cut off. */
  function LinesRead(text: string, truncated: bool): nat {
    if truncated then |Lines(text)| - 1 else |Lines(text)|
  }

  function Parsed(text: string, truncated: bool): RobotsFile {
    FileOf(ParseLines(Lines(text), LinesRead(text, truncated)))
  }

  /** The loop of the code, with `current` and `lastWasAgent` carried from line to line. */
  method ParseRobotsTxt(text: string, truncated: bool) returns (file: RobotsFile)
    ensures file == Parsed(text, truncated)
  {
    var lines := Lines(text);
    if truncated && |lines| > 0 {
      lines := lines[..|lines| - 1];
    }
    SameLinesParseAlike(lines, Lines(text), |lines|);
    var p := TakeLines(lines);
    file := FileOf(p);
  }

  method TakeLines(lines: seq<string>) returns (p: Parser)
    ensures p == ParseLines(lines, |lines|)
  {
    p := START;
    for i := 0 to |lines|
      invariant p == ParseLines(lines, i)
    {
      p := TakeLine(p, lines[i]);
    }
  }

  /** One turn of the loop: the early `continue`s of the code are the early returns here. */
  method TakeLine(p: Parser, rawLine: string) returns (next: Parser)
    ensures next == Step(p, rawLine)
  {
    var line := Trim(StripComment(rawLine));
    if |line| == 0 {
      return p;
    }
    var colon := IndexOf(line, ':');
    if colon == -1 {
      return p;
    }
    var field := Lower(Trim(line[..colon]));
    var value := Trim(line[colon + 1..]);
    if IsAgentField(field) {
      return OnAgent(p, Lower(value));
    }
    if IsRuleField(field) {
      return OnRule(p, Rule(KindOf(field), value));
    }
    return p.(otherRecords := p.otherRecords + [Record(field, value)]);
  }

  // ---------------------------------------------------------------------------
  // Truncation never invents anything.
  // ---------------------------------------------------------------------------

  /** `f` is `g` cut short: the same groups, of which the last may lack agents or rules still to come. */
  ghost predicate CutOf(f: RobotsFile, g: RobotsFile) {
    && |f.groups| <= |g.groups|
    && f.otherRecords <= g.otherRecords
    && (forall i :: 0 <= i < |f.groups| - 1 ==> f.groups[i] == g.groups[i])
    && (f.groups != [] ==>
          var last := |f.groups| - 1;
          f.groups[last].agents <= g.groups[last].agents && f.groups[last].rules <= g.groups[last].rules)
  }

  lemma CutOfStep(f: RobotsFile, p: Parser, rawLine: string)
    requires CutOf(f, FileOf(p))
    ensures CutOf(f, FileOf(Step(p, rawLine)))
  {
    var read := ReadLine(rawLine);
    if read.Some? {
      CutOfAgent(f, p, Lower(read.value.value));
      CutOfRule(f, p, Rule(KindOf(read.value.field), read.value.value));
    }
  }

  lemma CutOfAgent(f: RobotsFile, p: Parser, agent: string)
    requires CutOf(f, FileOf(p))
    ensures CutOf(f, FileOf(OnAgent(p, agent)))
  {
  }

  lemma CutOfRule(f: RobotsFile, p: Parser, rule: Rule)
    requires CutOf(f, FileOf(p))
    ensures CutOf(f, FileOf(OnRule(p, rule)))
  {
  }

  /** What every step keeps is kept by more lines. */
  lemma {:induction false} MoreLinesKeep<S(!new)>(step: (S, string) -> S, start: S, lines: seq<string>, m: nat, n: nat, holds: S -> bool)
    requires m <= n <= |lines| && holds(Folded(step, start, lines, m))
    requires forall p: S, line: string :: holds(p) ==> holds(step(p, line))
    ensures holds(Folded(step, start, lines, n))
    decreases n
  {
    if m < n {
      MoreLinesKeep(step, start, lines, m, n - 1, holds);
    }
  }

  lemma {:induction false} MoreLinesExtend(lines: seq<string>, m: nat, n: nat)
    requires m <= n <= |lines|
    ensures CutOf(FileOf(ParseLines(lines, m)), FileOf(ParseLines(lines, n)))
  {
    LaterIsLonger(FileOf(ParseLines(lines, m)), lines, m, n);
  }

  lemma {:induction false} LaterIsLonger(f: RobotsFile, lines: seq<string>, m: nat, n: nat)
    requires m <= n <= |lines| && f == FileOf(ParseLines(lines, m))
    ensures CutOf(f, FileOf(ParseLines(lines, n)))
  {
    var holds := p => CutOf(f, FileOf(p));
    WholeIsCut(f);
    forall p: Parser, line: string | holds(p) ensures holds(Step(p, line)) {
      CutOfStep(f, p, line);
    }
    MoreLinesKeep(Step, START, lines, m, n, holds);
  }

  lemma WholeIsCut(f: RobotsFile)
    ensures CutOf(f, f)
  {
  }

  lemma {:induction false} SameLinesFoldAlike<S>(step: (S, string) -> S, start: S, a: seq<string>, b: seq<string>, n: nat)
    requires n <= |a| && n <= |b| && forall i :: 0 <= i < n ==> a[i] == b[i]
    ensures Folded(step, start, a, n) == Folded(step, start, b, n)
  {
    if n > 0 {
      SameLinesFoldAlike(step, start, a, b, n - 1);
    }
  }

  lemma SameLinesParseAlike(a: seq<string>, b: seq<string>, n: nat)
    requires n <= |a| && n <= |b| && forall i :: 0 <= i < n ==> a[i] == b[i]
    ensures ParseLines(a, n) == ParseLines(b, n)
  {
    SameLinesFoldAlike(Step, START, a, b, n);
  }

  /** All but the last line of a cut text are lines of the whole text, in the same places. */
  ghost predicate LinesCut(cut: seq<string>, lines: seq<string>) {
    |cut| <= |lines| && forall i :: 0 <= i < |cut| - 1 ==> cut[i] == lines[i]
  }

  lemma {:induction false} OneCharMore(c: char, cut: string, text: string)
    requires cut <= text && LinesCut(Lines(cut), Lines(text)) && !(c == '\r' && text != [] && text[0] == '\n')
    ensures LinesCut(Lines([c] + cut), Lines([c] + text))
  {
    assert ([c] + cut)[1..] == cut && ([c] + text)[1..] == text;
  }

  lemma {:induction false} OneBreakMore(cut: string, text: string)
    requires LinesCut(Lines(cut), Lines(text))
    ensures LinesCut(Lines(['\r', '\n'] + cut), Lines(['\r', '\n'] + text))
  {
    assert (['\r', '\n'] + cut)[2..] == cut && (['\r', '\n'] + text)[2..] == text;
  }

  lemma {:induction false} CutLinesAreLines(text: string, k: nat)
    requires k <= |text|
    ensures LinesCut(Lines(text[..k]), Lines(text))
    decreases |text|
  {
    if k == 0 {
      assert Lines(text[..0]) == [[]];
    } else if text[0] == '\r' && |text| > 1 && text[1] == '\n' {
      if k == 1 {
        assert Lines(text[..1]) == [[], []];
      } else {
        var rest := text[2..];
        CutLinesAreLines(rest, k - 2);
        OneBreakMore(rest[..k - 2], rest);
        assert text[..k] == ['\r', '\n'] + rest[..k - 2] && text == ['\r', '\n'] + rest;
      }
    } else {
      var rest := text[1..];
      CutLinesAreLines(rest, k - 1);
      OneCharMore(text[0], rest[..k - 1], rest);
      assert text[..k] == [text[0]] + rest[..k - 1] && text == [text[0]] + rest;
    }
  }

  /** TRUNCATION: wherever the text is cut, what is read from it is a cut of what the whole text says. */
  lemma TruncatedParseIsCut(text: string, k: nat, truncated: bool)
    requires k <= |text|
    ensures CutOf(Parsed(text[..k], true), Parsed(text, truncated))
  {
    CutLinesAreLines(text, k);
    var n := LinesRead(text[..k], true);
    SameLinesParseAlike(Lines(text[..k]), Lines(text), n);
    MoreLinesExtend(Lines(text), n, LinesRead(text, truncated));
  }
}
