/** Robots files as they may be written. */
module RobotsSpelling {
  // Every spelling of a robots.txt the standard allows reads back as the groups it was
  // written for (packages/governor/src/robots-parse.ts, `parseRobotsTxt`). What is written
  // is said by the writer's data alone; nothing here is stated through the parser's parts.

  import opened Prelude
  import opened Text
  import opened RobotsMatch
  import opened RobotsText

  // ---------------------------------------------------------------------------
  // What may be written.
  // ---------------------------------------------------------------------------

  datatype Meaning = Nothing | Agent(agent: string) | Says(rule: Rule) | Other(record: Record)

  /**
   One line as it was written. A line that means something is a name and a value with a
   colon between them, white space around both, and perhaps a comment; `words` of a line
   that means nothing hold no colon.
   */
  datatype Line = Line(meaning: Meaning, words: string, lead: string, name: string, gap: string,
                       pad: string, value: string, trail: string, comment: string, ending: string)

  function TextOf(l: Line): string {
    if l.meaning.Nothing? then l.words + l.comment
    else (l.lead + ((l.name + (l.gap + ([':'] + (l.pad + l.value)))) + l.trail)) + l.comment
  }

  function Write(lines: seq<Line>): string {
    if lines == [] then [] else TextOf(lines[0]) + (lines[0].ending + Write(lines[1..]))
  }

  /** The same text but for the case of its ASCII letters, `plain` having none in upper case. */
  ghost predicate IsLowerOf(plain: string, written: string) {
    && |plain| == |written|
    && forall i :: 0 <= i < |plain| ==>
         && !('A' <= plain[i] <= 'Z')
         && (plain[i] == written[i] || ('A' <= written[i] <= 'Z' && plain[i] as int == written[i] as int + 32))
  }

  ghost predicate OneLine(s: string) { forall i :: 0 <= i < |s| ==> s[i] != '\r' && s[i] != '\n' }

  ghost predicate IsComment(s: string) { (s == [] || s[0] == '#') && OneLine(s) }

  ghost predicate Free(s: string, c: char) { forall i :: 0 <= i < |s| ==> s[i] != c }

  ghost predicate SpaceInLine(s: string) { Blank(s) && OneLine(s) }

  /** What a name and a value mean. */
  ghost predicate Means(m: Meaning, name: string, value: string) {
    match m
    case Nothing => true
    case Agent(agent) => (IsLowerOf("user-agent", name) || IsLowerOf("useragent", name)) && IsLowerOf(agent, value)
    case Says(rule) => IsLowerOf(if rule.kind.Allow? then "allow" else "disallow", name) && rule.pattern == value
    case Other(record) =>
      && IsLowerOf(record.field, name) && record.value == value
      && record.field != "user-agent" && record.field != "useragent"
      && record.field != "allow" && record.field != "disallow"
  }

  ghost predicate WellWritten(l: Line) {
    && IsComment(l.comment)
    && (l.ending == "\n" || l.ending == "\r" || l.ending == "\r\n")
    && (l.meaning.Nothing? ==> Free(l.words, '#') && Free(l.words, ':') && OneLine(l.words))
    && (!l.meaning.Nothing? ==>
          && SpaceInLine(l.lead) && SpaceInLine(l.gap) && SpaceInLine(l.pad) && SpaceInLine(l.trail)
          && (l.name == [] ==> l.gap == []) && (l.value == [] ==> l.trail == [])
          && Tight(l.name) && OneLine(l.name) && Free(l.name, '#') && Free(l.name, ':')
          && Tight(l.value) && OneLine(l.value) && Free(l.value, '#')
          && Means(l.meaning, l.name, l.value))
  }

  ghost predicate AllWellWritten(lines: seq<Line>) { forall i :: 0 <= i < |lines| ==> WellWritten(lines[i]) }

  // ---------------------------------------------------------------------------
  // One line.
  // ---------------------------------------------------------------------------

  lemma {:induction false} LowerOf(plain: string, written: string)
    requires IsLowerOf(plain, written)
    ensures Lower(written) == plain
  {
  }

  lemma CutAt<T>(a: seq<T>, c: T, b: seq<T>)
    ensures var s := a + ([c] + b); s[..|a|] == a && s[|a|] == c && s[|a| + 1..] == b
  {
  }

  lemma {:induction false} FirstAt(a: string, c: char, b: string)
    requires Free(a, c)
    ensures IndexOf(a + ([c] + b), c) == |a|
  {
    CutAt(a, c, b);
    FirstIndex(a + ([c] + b), c, |a|);
  }

  lemma {:induction false} NoneAt(a: string, c: char)
    requires Free(a, c)
    ensures IndexOf(a, c) == -1
  {
  }

  lemma {:induction false} CommentGoes(core: string, comment: string)
    requires Free(core, '#') && IsComment(comment)
    ensures StripComment(core + comment) == core
  {
    if comment == [] {
      assert core + comment == core;
      NoneAt(core, '#');
    } else {
      assert core + comment == core + (['#'] + comment[1..]);
      FirstAt(core, '#', comment[1..]);
      assert (core + comment)[..|core|] == core;
    }
  }

  lemma {:induction false} IdleLine(words: string, comment: string)
    requires Free(words, '#') && Free(words, ':') && IsComment(comment)
    ensures ReadLine(words + comment) == None
  {
    CommentGoes(words, comment);
    var a, b := TrimSays(words);
    var line := Trim(words);
    forall i | 0 <= i < |line| ensures line[i] != ':' {
      assert words[|a| + i] == line[i];
    }
    NoneAt(line, ':');
  }

  /** The middle of a line: from the name's first character to the value's last. */
  function Middle(name: string, gap: string, pad: string, value: string): string {
    name + (gap + ([':'] + (pad + value)))
  }

  lemma {:induction false} HalvesRead(head: string, rest: string, name: string, gap: string, pad: string, value: string)
    requires Blank(gap) && Blank(pad) && Tight(name) && Tight(value) && head == name + gap && rest == pad + value
    ensures Trim(head) == name && Trim(rest) == value
  {
    TrimKeeps([], name, gap);
    assert [] + (name + gap) == head;
    TrimKeeps(pad, value, []);
    assert pad + (value + []) == rest;
  }

  lemma {:induction false} MiddleReads(name: string, gap: string, pad: string, value: string)
    requires Blank(gap) && Blank(pad) && Tight(name) && Tight(value) && Free(name, ':')
    ensures var m := Middle(name, gap, pad, value); var k := IndexOf(m, ':');
            k >= 0 && Trim(m[..k]) == name && Trim(m[k + 1..]) == value
  {
    var head, rest := name + gap, pad + value;
    assert Free(head, ':');
    assert Middle(name, gap, pad, value) == head + ([':'] + rest);
    FirstAt(head, ':', rest);
    CutAt(head, ':', rest);
    HalvesRead(head, rest, name, gap, pad, value);
  }

  lemma {:induction false} MiddleIsTight(lead: string, name: string, gap: string, pad: string, value: string, trail: string)
    requires Blank(lead) && Blank(gap) && Blank(pad) && Blank(trail) && Tight(name) && Tight(value)
    requires name == [] ==> gap == []
    requires value == [] ==> trail == []
    ensures Trim(lead + (Middle(name, gap, pad, value) + trail)) ==
            if value == [] then Middle(name, gap, [], []) else Middle(name, gap, pad, value)
  {
    if value == [] {
      var m := Middle(name, gap, [], []);
      assert Middle(name, gap, pad, value) + trail == m + pad;
      TrimKeeps(lead, m, pad);
    } else {
      TrimKeeps(lead, Middle(name, gap, pad, value), trail);
    }
  }

  lemma {:induction false} CoreIsFree(lead: string, m: string, trail: string)
    requires Blank(lead) && Blank(trail) && Free(m, '#')
    ensures Free(lead + (m + trail), '#')
  {
  }

  lemma {:induction false} MiddleIsFree(name: string, gap: string, pad: string, value: string)
    requires Blank(gap) && Blank(pad) && Free(name, '#') && Free(value, '#')
    ensures Free(Middle(name, gap, pad, value), '#')
  {
  }

  /** A written line reads as its name, in lower case, and its value. */
  lemma {:induction false} WrittenLineReads(l: Line, plain: string)
    requires WellWritten(l) && !l.meaning.Nothing? && IsLowerOf(plain, l.name)
    ensures ReadLine(TextOf(l)) == Some(Record(plain, l.value))
  {
    var m := Middle(l.name, l.gap, l.pad, l.value);
    MiddleIsFree(l.name, l.gap, l.pad, l.value);
    CoreIsFree(l.lead, m, l.trail);
    CommentGoes(l.lead + (m + l.trail), l.comment);
    MiddleIsTight(l.lead, l.name, l.gap, l.pad, l.value, l.trail);
    MiddleReads(l.name, l.gap, l.pad, l.value);
    MiddleReads(l.name, l.gap, [], []);
    LowerOf(plain, l.name);
  }

  // ---------------------------------------------------------------------------
  // Line after line.
  // ---------------------------------------------------------------------------

  function Fold(p: Parser, lines: seq<string>): Parser
    decreases |lines|
  {
    if lines == [] then p else Fold(Step(p, lines[0]), lines[1..])
  }

  lemma {:induction false} FoldIsParse(lines: seq<string>, k: nat, n: nat)
    requires k <= n <= |lines|
    ensures Fold(ParseLines(lines, k), lines[k..n]) == ParseLines(lines, n)
    decreases n - k
  {
    if k < n {
      assert lines[k..n][0] == lines[k] && lines[k..n][1..] == lines[k + 1..n];
      FoldIsParse(lines, k + 1, n);
    } else {
      assert lines[k..n] == [];
    }
  }

  function Kept(lines: seq<string>, truncated: bool): seq<string>
    requires lines != []
  {
    if truncated then lines[..|lines| - 1] else lines
  }

  /** The lines of a text that are read, from a parser on. */
  function Run(p: Parser, text: string, truncated: bool): Parser { Fold(p, Kept(Lines(text), truncated)) }

  lemma {:induction false} ParsedIsRun(text: string, truncated: bool)
    ensures Parsed(text, truncated) == FileOf(Run(START, text, truncated))
  {
    FoldIsParse(Lines(text), 0, LinesRead(text, truncated));
    assert Lines(text)[0..LinesRead(text, truncated)] == Kept(Lines(text), truncated);
  }

  predicate IsEnding(e: string) { e == "\n" || e == "\r" || e == "\r\n" }

  lemma {:induction false} LineThenBreak(line: string, tail: string)
    requires OneLine(line) && tail != [] && (tail[0] == '\r' || tail[0] == '\n')
    ensures Lines(line + tail) == [line] + Lines(tail)[1..]
    decreases |line|
  {
    if line == [] {
      assert line + tail == tail;
      assert Lines(tail)[0] == [];
    } else {
      assert (line + tail)[0] == line[0] && (line + tail)[1..] == line[1..] + tail;
      LineThenBreak(line[1..], tail);
      assert [line[0]] + line[1..] == line;
    }
  }

  lemma {:induction false} LinesOfBreak(ending: string, rest: string)
    requires IsEnding(ending)
    ensures ending == "\r" && rest != [] && rest[0] == '\n' ==>
            Lines(ending + rest) == [[]] + Lines(rest[1..]) && Lines(rest) == [[]] + Lines(rest[1..])
    ensures !(ending == "\r" && rest != [] && rest[0] == '\n') ==> Lines(ending + rest) == [[]] + Lines(rest)
  {
    var all := ending + rest;
    if ending == "\r\n" {
      assert all[2..] == rest;
    } else {
      assert all[1..] == rest;
      if ending == "\r" && rest != [] && rest[0] == '\n' {
        assert all[2..] == rest[1..];
      }
    }
  }

  lemma {:induction false} LastLine(line: string)
    requires OneLine(line)
    ensures Lines(line) == [line]
  {
    if line != [] {
      LastLine(line[1..]);
      assert [line[0]] + line[1..] == line;
    }
  }

  lemma {:induction false} FoldOfFirst(p: Parser, line: string, more: seq<string>, truncated: bool)
    requires more != []
    ensures Fold(p, Kept([line] + more, truncated)) == Fold(Step(p, line), Kept(more, truncated))
  {
    assert Kept([line] + more, truncated) == [line] + Kept(more, truncated);
  }

  lemma EmptyLineSaysNothing(p: Parser)
    ensures Step(p, []) == p
  {
    assert ReadLine([]) == None;
  }

  /** Reading a line and its ending, of whatever kind, is one step; what follows does not matter. */
  lemma {:induction false} RunLine(p: Parser, line: string, ending: string, rest: string, truncated: bool)
    requires OneLine(line) && IsEnding(ending)
    ensures Run(p, line + (ending + rest), truncated) == Run(Step(p, line), rest, truncated)
  {
    LineThenBreak(line, ending + rest);
    LinesOfBreak(ending, rest);
    if ending == "\r" && rest != [] && rest[0] == '\n' {
      FoldOfFirst(p, line, Lines(rest[1..]), truncated);
      FoldOfFirst(Step(p, line), [], Lines(rest[1..]), truncated);
      EmptyLineSaysNothing(Step(p, line));
    } else {
      FoldOfFirst(p, line, Lines(rest), truncated);
    }
  }

  lemma {:induction false} RunLast(p: Parser, line: string, truncated: bool)
    requires OneLine(line)
    ensures Run(p, line, truncated) == if truncated then p else Step(p, line)
  {
    LastLine(line);
    if truncated {
      assert Kept([line], true) == [];
    } else {
      assert Fold(p, [line]) == Fold(Step(p, line), []);
    }
  }

  // ---------------------------------------------------------------------------
  // Lines that were written.
  // ---------------------------------------------------------------------------

  function Take(p: Parser, m: Meaning): Parser {
    match m
    case Nothing => p
    case Agent(agent) => OnAgent(p, agent)
    case Says(rule) => OnRule(p, rule)
    case Other(record) => p.(otherRecords := p.otherRecords + [record])
  }

  function TakeAll(p: Parser, lines: seq<Line>): Parser
    decreases |lines|
  {
    if lines == [] then p else TakeAll(Take(p, lines[0].meaning), lines[1..])
  }

  lemma {:induction false} AgentTakes(p: Parser, l: Line)
    requires WellWritten(l) && l.meaning.Agent?
    ensures Step(p, TextOf(l)) == OnAgent(p, l.meaning.agent)
  {
    WrittenLineReads(l, if IsLowerOf("user-agent", l.name) then "user-agent" else "useragent");
    LowerOf(l.meaning.agent, l.value);
  }

  function RuleField(kind: Kind): string { if kind.Allow? then "allow" else "disallow" }

  lemma RuleFieldsAct(kind: Kind)
    ensures !IsAgentField(RuleField(kind)) && IsRuleField(RuleField(kind)) && KindOf(RuleField(kind)) == kind
  {
  }

  lemma {:induction false} RuleTakes(p: Parser, l: Line)
    requires WellWritten(l) && l.meaning.Says?
    ensures Step(p, TextOf(l)) == OnRule(p, l.meaning.rule)
  {
    var field := RuleField(l.meaning.rule.kind);
    RuleFieldsAct(l.meaning.rule.kind);
    WrittenLineReads(l, field);
  }

  lemma {:induction false} OtherTakes(p: Parser, l: Line)
    requires WellWritten(l) && l.meaning.Other?
    ensures Step(p, TextOf(l)) == p.(otherRecords := p.otherRecords + [l.meaning.record])
  {
    WrittenLineReads(l, l.meaning.record.field);
  }

  lemma {:induction false} StepTakes(p: Parser, l: Line)
    requires WellWritten(l)
    ensures Step(p, TextOf(l)) == Take(p, l.meaning)
  {
    match l.meaning
    case Nothing => IdleLine(l.words, l.comment);
    case Agent(_) => AgentTakes(p, l);
    case Says(_) => RuleTakes(p, l);
    case Other(_) => OtherTakes(p, l);
  }

  lemma OneLineJoins(a: string, b: string)
    requires OneLine(a) && OneLine(b)
    ensures OneLine(a + b)
  {
  }

  lemma TextIsOneLine(l: Line)
    requires WellWritten(l)
    ensures OneLine(TextOf(l))
  {
    if l.meaning.Nothing? {
      OneLineJoins(l.words, l.comment);
    } else {
      OneLineJoins(l.pad, l.value);
      OneLineJoins([':'], l.pad + l.value);
      OneLineJoins(l.gap, [':'] + (l.pad + l.value));
      OneLineJoins(l.name, l.gap + ([':'] + (l.pad + l.value)));
      OneLineJoins(Middle(l.name, l.gap, l.pad, l.value), l.trail);
      OneLineJoins(l.lead, Middle(l.name, l.gap, l.pad, l.value) + l.trail);
      OneLineJoins(l.lead + (Middle(l.name, l.gap, l.pad, l.value) + l.trail), l.comment);
    }
  }

  lemma {:induction false} RunWritten(p: Parser, lines: seq<Line>, rest: string, truncated: bool)
    requires AllWellWritten(lines)
    ensures Run(p, Write(lines) + rest, truncated) == Run(TakeAll(p, lines), rest, truncated)
    decreases |lines|
  {
    if lines == [] {
      assert Write(lines) + rest == rest;
    } else {
      var l, more := lines[0], lines[1..];
      TextIsOneLine(l);
      StepTakes(p, l);
      assert Write(lines) + rest == TextOf(l) + (l.ending + (Write(more) + rest));
      RunLine(p, TextOf(l), l.ending, Write(more) + rest, truncated);
      RunWritten(Take(p, l.meaning), more, rest, truncated);
    }
  }

  // ---------------------------------------------------------------------------
  // Groups that were written.
  // ---------------------------------------------------------------------------

  /** One group: agent lines, and then rule lines; what means nothing or something else may stand between any two. */
  datatype Block = Block(agents: seq<Line>, rules: seq<Line>)

  function AgentsOf(lines: seq<Line>): seq<string> {
    if lines == [] then []
    else (if lines[0].meaning.Agent? then [lines[0].meaning.agent] else []) + AgentsOf(lines[1..])
  }

  function RulesOf(lines: seq<Line>): seq<Rule> {
    if lines == [] then []
    else (if lines[0].meaning.Says? then [lines[0].meaning.rule] else []) + RulesOf(lines[1..])
  }

  function OthersOf(lines: seq<Line>): seq<Record> {
    if lines == [] then []
    else (if lines[0].meaning.Other? then [lines[0].meaning.record] else []) + OthersOf(lines[1..])
  }

  function LinesOf(blocks: seq<Block>): seq<Line> {
    if blocks == [] then [] else blocks[0].agents + (blocks[0].rules + LinesOf(blocks[1..]))
  }

  function GroupsOf(blocks: seq<Block>): seq<Group> {
    if blocks == [] then []
    else [Group(AgentsOf(blocks[0].agents), RulesOf(blocks[0].rules))] + GroupsOf(blocks[1..])
  }

  ghost predicate NoAgent(lines: seq<Line>) { forall i :: 0 <= i < |lines| ==> !lines[i].meaning.Agent? }

  ghost predicate NoRule(lines: seq<Line>) { forall i :: 0 <= i < |lines| ==> !lines[i].meaning.Says? }

  ghost predicate IsBlock(b: Block) {
    && AllWellWritten(b.agents) && b.agents != [] && b.agents[0].meaning.Agent? && NoRule(b.agents)
    && AllWellWritten(b.rules) && (b.rules != [] ==> b.rules[0].meaning.Says?) && NoAgent(b.rules)
  }

  /** Only the last group may have no rules: agent lines with no rule between them are one group. */
  ghost predicate AreBlocks(blocks: seq<Block>) {
    && (forall i :: 0 <= i < |blocks| ==> IsBlock(blocks[i]))
    && (forall i :: 0 <= i < |blocks| - 1 ==> blocks[i].rules != [])
  }

  lemma {:induction false} TakeAllJoins(p: Parser, a: seq<Line>, b: seq<Line>)
    ensures TakeAll(p, a + b) == TakeAll(TakeAll(p, a), b)
    decreases |a|
  {
    if a == [] {
      assert a + b == b;
    } else {
      assert (a + b)[1..] == a[1..] + b;
      TakeAllJoins(Take(p, a[0].meaning), a[1..], b);
    }
  }

  lemma {:induction false} OthersJoin(a: seq<Line>, b: seq<Line>)
    ensures OthersOf(a + b) == OthersOf(a) + OthersOf(b)
  {
    if a == [] {
      assert a + b == b;
    } else {
      assert (a + b)[1..] == a[1..] + b;
      OthersJoin(a[1..], b);
    }
  }

  lemma Join3<T>(a: seq<T>, b: seq<T>, c: seq<T>)
    ensures (a + b) + c == a + (b + c)
  {
  }

  /** Before the first agent nothing is kept but the other records. */
  lemma {:induction false} PreambleIsIgnored(p: Parser, lines: seq<Line>)
    requires NoAgent(lines) && p.groups == []
    ensures TakeAll(p, lines) == p.(otherRecords := p.otherRecords + OthersOf(lines))
    decreases |lines|
  {
    if lines == [] {
      assert p.otherRecords + [] == p.otherRecords;
    } else {
      var q := Take(p, lines[0].meaning);
      PreambleIsIgnored(q, lines[1..]);
      if lines[0].meaning.Other? {
        Join3(p.otherRecords, [lines[0].meaning.record], OthersOf(lines[1..]));
      }
    }
  }

  function Open(groups: seq<Group>, agents: seq<string>, rules: seq<Rule>, others: seq<Record>, last: bool): Parser {
    Parser(groups + [Group(agents, rules)], others, last)
  }

  lemma OneMoreAgent(groups: seq<Group>, agents: seq<string>, others: seq<Record>, agent: string)
    ensures OnAgent(Open(groups, agents, [], others, true), agent) == Open(groups, agents + [agent], [], others, true)
  {
  }

  lemma FirstAgent(groups: seq<Group>, others: seq<Record>, last: bool, agent: string)
    requires groups == [] || !last
    ensures OnAgent(Parser(groups, others, last), agent) == Open(groups, [agent], [], others, true)
  {
    assert [] + [agent] == [agent];
  }

  lemma OneMoreRule(groups: seq<Group>, g: Group, others: seq<Record>, last: bool, rule: Rule)
    ensures OnRule(Open(groups, g.agents, g.rules, others, last), rule) ==
            Open(groups, g.agents, g.rules + [rule], others, false)
  {
  }

  lemma {:induction false} AgentsGather(groups: seq<Group>, agents: seq<string>, others: seq<Record>, lines: seq<Line>)
    requires NoRule(lines)
    ensures TakeAll(Open(groups, agents, [], others, true), lines) ==
            Open(groups, agents + AgentsOf(lines), [], others + OthersOf(lines), true)
    decreases |lines|
  {
    if lines == [] {
      assert agents + [] == agents && others + [] == others;
    } else {
      var m, more := lines[0].meaning, lines[1..];
      assert [] + AgentsOf(more) == AgentsOf(more) && [] + OthersOf(more) == OthersOf(more);
      if m.Agent? {
        OneMoreAgent(groups, agents, others, m.agent);
        AgentsGather(groups, agents + [m.agent], others, more);
        Join3(agents, [m.agent], AgentsOf(more));
      } else if m.Other? {
        AgentsGather(groups, agents, others + [m.record], more);
        Join3(others, [m.record], OthersOf(more));
      } else {
        AgentsGather(groups, agents, others, more);
      }
    }
  }

  lemma {:induction false} RulesGather(groups: seq<Group>, g: Group, others: seq<Record>, last: bool, lines: seq<Line>)
    requires NoAgent(lines)
    ensures TakeAll(Open(groups, g.agents, g.rules, others, last), lines) ==
            Open(groups, g.agents, g.rules + RulesOf(lines), others + OthersOf(lines), last && RulesOf(lines) == [])
    decreases |lines|
  {
    if lines == [] {
      assert g.rules + [] == g.rules && others + [] == others;
    } else {
      var m, more := lines[0].meaning, lines[1..];
      assert [] + RulesOf(more) == RulesOf(more) && [] + OthersOf(more) == OthersOf(more);
      if m.Says? {
        OneMoreRule(groups, g, others, last, m.rule);
        RulesGather(groups, g.(rules := g.rules + [m.rule]), others, false, more);
        Join3(g.rules, [m.rule], RulesOf(more));
      } else if m.Other? {
        RulesGather(groups, g, others + [m.record], last, more);
        Join3(others, [m.record], OthersOf(more));
      } else {
        RulesGather(groups, g, others, last, more);
      }
    }
  }

  lemma {:induction false} BlockGathers(groups: seq<Group>, others: seq<Record>, last: bool, b: Block)
    requires IsBlock(b) && (groups == [] || !last)
    ensures TakeAll(Parser(groups, others, last), b.agents + b.rules) ==
            Parser(groups + [Group(AgentsOf(b.agents), RulesOf(b.rules))], others + OthersOf(b.agents + b.rules), RulesOf(b.rules) == [])
  {
    var p, first, more := Parser(groups, others, last), b.agents[0].meaning.agent, b.agents[1..];
    var agents, said := AgentsOf(b.agents), others + OthersOf(more);
    TakeAllJoins(p, b.agents, b.rules);
    FirstAgent(groups, others, last, first);
    AgentsGather(groups, [first], others, more);
    RulesGather(groups, Group(agents, []), said, true, b.rules);
    OthersJoin(b.agents, b.rules);
    Join3(others, OthersOf(more), OthersOf(b.rules));
    assert [] + RulesOf(b.rules) == RulesOf(b.rules) && [] + OthersOf(more) == OthersOf(more);
  }

  lemma {:induction false} BlocksGather(groups: seq<Group>, others: seq<Record>, last: bool, blocks: seq<Block>)
    requires AreBlocks(blocks) && (groups == [] || !last)
    ensures FileOf(TakeAll(Parser(groups, others, last), LinesOf(blocks))) ==
            RobotsFile(groups + GroupsOf(blocks), others + OthersOf(LinesOf(blocks)))
    decreases |blocks|
  {
    if blocks == [] {
      assert groups + [] == groups && others + [] == others;
    } else {
      var b, more := blocks[0], blocks[1..];
      var g := Group(AgentsOf(b.agents), RulesOf(b.rules));
      var lines := b.agents + b.rules;
      Join3(b.agents, b.rules, LinesOf(more));
      BlockGathers(groups, others, last, b);
      TakeAllJoins(Parser(groups, others, last), lines, LinesOf(more));
      OthersJoin(lines, LinesOf(more));
      Join3(others, OthersOf(lines), OthersOf(LinesOf(more)));
      Join3(groups, [g], GroupsOf(more));
      if more == [] {
        assert groups + [g] + [] == groups + [g] && LinesOf(more) == [];
      } else {
        BlocksGather(groups + [g], others + OthersOf(lines), false, more);
      }
    }
  }

  lemma {:induction false} AllLinesAreWritten(blocks: seq<Block>)
    requires AreBlocks(blocks)
    ensures AllWellWritten(LinesOf(blocks))
  {
    if blocks != [] {
      AllLinesAreWritten(blocks[1..]);
    }
  }

  /** The same lines, the last one without its ending. */
  function Unended(lines: seq<Line>): string
    requires lines != []
  {
    Write(lines[..|lines| - 1]) + TextOf(lines[|lines| - 1])
  }

  lemma {:induction false} UnendedReadsAlike(lines: seq<Line>)
    requires AllWellWritten(lines) && lines != []
    ensures Parsed(Unended(lines), false) == FileOf(TakeAll(START, lines))
  {
    var init, last := lines[..|lines| - 1], lines[|lines| - 1];
    assert lines == init + [last];
    TextIsOneLine(last);
    StepTakes(TakeAll(START, init), last);
    TakeAllJoins(START, init, [last]);
    RunWritten(START, init, TextOf(last), false);
    RunLast(TakeAll(START, init), TextOf(last), false);
    ParsedIsRun(Unended(lines), false);
    assert TakeAll(TakeAll(START, init), [last]) == TakeAll(Take(TakeAll(START, init), last.meaning), []);
  }

  lemma {:induction false} CutReadsAlike(lines: seq<Line>, cut: string)
    requires AllWellWritten(lines) && OneLine(cut)
    ensures Parsed(Write(lines) + cut, true) == FileOf(TakeAll(START, lines))
  {
    RunWritten(START, lines, cut, true);
    RunLast(TakeAll(START, lines), cut, true);
    ParsedIsRun(Write(lines) + cut, true);
  }

  lemma {:induction false} EndedReadsAlike(lines: seq<Line>)
    requires AllWellWritten(lines)
    ensures Parsed(Write(lines), false) == FileOf(TakeAll(START, lines))
  {
    RunWritten(START, lines, [], false);
    assert Write(lines) + [] == Write(lines);
    RunLast(TakeAll(START, lines), [], false);
    EmptyLineSaysNothing(TakeAll(START, lines));
    ParsedIsRun(Write(lines), false);
  }

  /**
   ROUND TRIP: however a file of groups is spelt, and whether or not its last line is ended,
   it reads back as exactly those groups and, in order, the records that are neither agents
   nor rules. Of a text that was cut off the last line is dropped, and nothing else.
   */
  lemma {:induction false} WrittenFileReadsBack(preamble: seq<Line>, blocks: seq<Block>, cut: string)
    requires AllWellWritten(preamble) && NoAgent(preamble) && AreBlocks(blocks) && OneLine(cut)
    ensures var lines := preamble + LinesOf(blocks); var file := RobotsFile(GroupsOf(blocks), OthersOf(lines));
            && Parsed(Write(lines), false) == file
            && Parsed(Write(lines) + cut, true) == file
            && (lines != [] ==> Parsed(Unended(lines), false) == file)
  {
    var lines := preamble + LinesOf(blocks);
    AllLinesAreWritten(blocks);
    TakeAllJoins(START, preamble, LinesOf(blocks));
    PreambleIsIgnored(START, preamble);
    BlocksGather([], [] + OthersOf(preamble), false, blocks);
    OthersJoin(preamble, LinesOf(blocks));
    assert [] + OthersOf(preamble) == OthersOf(preamble) && [] + GroupsOf(blocks) == GroupsOf(blocks);
    EndedReadsAlike(lines);
    CutReadsAlike(lines, cut);
    if lines != [] {
      UnendedReadsAlike(lines);
    }
  }

  // ---------------------------------------------------------------------------
  // Every text is written in one of these ways.
  // ---------------------------------------------------------------------------

  lemma {:induction false} LowerIsLower(s: string)
    ensures IsLowerOf(Lower(s), s)
  {
  }

  function MeaningOf(plain: string, value: string): Meaning {
    if plain == "user-agent" || plain == "useragent" then Agent(Lower(value))
    else if plain == "allow" then Says(Rule(Allow, value))
    else if plain == "disallow" then Says(Rule(Disallow, value))
    else Other(Record(plain, value))
  }

  lemma {:induction false} MeaningIsMeant(name: string, value: string)
    ensures var m := MeaningOf(Lower(name), value); !m.Nothing? && Means(m, name, value)
  {
    LowerIsLower(name);
    LowerIsLower(value);
  }

  lemma OneLineParts(s: string, i: nat)
    requires OneLine(s) && i <= |s|
    ensures OneLine(s[..i]) && OneLine(s[i..])
  {
  }

  lemma {:induction false} Parts(s: string) returns (a: string, b: string)
    requires OneLine(s)
    ensures SpaceInLine(a) && SpaceInLine(b) && Tight(Trim(s)) && OneLine(Trim(s)) && s == a + (Trim(s) + b)
    ensures forall c :: Free(s, c) ==> Free(Trim(s), c)
  {
    a, b := TrimSays(s);
    assert forall i :: 0 <= i < |a| ==> a[i] == s[i];
    assert forall i :: 0 <= i < |Trim(s)| ==> Trim(s)[i] == s[|a| + i];
    assert forall i :: 0 <= i < |b| ==> b[i] == s[|a| + |Trim(s)| + i];
  }

  /** All the white space before the word, if there is none. */
  lemma {:induction false} AroundWord(s: string) returns (a: string, b: string)
    requires OneLine(s)
    ensures SpaceInLine(a) && SpaceInLine(b) && Tight(Trim(s)) && OneLine(Trim(s)) && s == a + (Trim(s) + b)
    ensures forall c :: Free(s, c) ==> Free(Trim(s), c)
    ensures Trim(s) == [] ==> b == []
  {
    a, b := Parts(s);
    if Trim(s) == [] {
      assert a + ([] + b) == (a + b) + ([] + []);
      a, b := a + b, [];
    }
  }

  lemma Rejoined(lead: string, name: string, gap: string, pad: string, value: string, trail: string)
    ensures (lead + (name + gap)) + ([':'] + (pad + (value + trail))) == lead + (Middle(name, gap, pad, value) + trail)
  {
  }

  /** A line with a colon before any comment. */
  lemma {:induction false} SaysSomething(head: string, rest: string, comment: string) returns (l: Line)
    requires OneLine(head) && Free(head, '#') && Free(head, ':') && OneLine(rest) && Free(rest, '#') && IsComment(comment)
    ensures WellWritten(l) && TextOf(l) == (head + ([':'] + rest)) + comment
  {
    var lead, gap := AroundWord(head);
    var pad, trail := AroundWord(rest);
    var name, value := Trim(head), Trim(rest);
    MeaningIsMeant(name, value);
    Rejoined(lead, name, gap, pad, value, trail);
    l := Line(MeaningOf(Lower(name), value), [], lead, name, gap, pad, value, trail, comment, "\n");
  }

  lemma {:induction false} AtFirst(s: string, c: char) returns (a: string, b: string)
    requires c in s
    ensures Free(a, c) && s == a + ([c] + b)
    ensures OneLine(s) ==> OneLine(a) && OneLine(b)
    ensures forall d :: Free(s, d) ==> Free(a, d) && Free(b, d)
  {
    var k := IndexOf(s, c);
    a, b := s[..k], s[k + 1..];
    assert forall i :: 0 <= i < |a| ==> a[i] == s[i];
    assert forall i :: 0 <= i < |b| ==> b[i] == s[k + 1 + i];
  }

  lemma {:induction false} CoreIsWritten(core: string, comment: string) returns (l: Line)
    requires OneLine(core) && Free(core, '#') && IsComment(comment)
    ensures WellWritten(l) && TextOf(l) == core + comment
  {
    if ':' in core {
      var head, rest := AtFirst(core, ':');
      l := SaysSomething(head, rest, comment);
    } else {
      l := Line(Nothing, core, [], [], [], [], [], [], comment, "\n");
    }
  }

  lemma {:induction false} LineIsWritten(raw: string) returns (l: Line)
    requires OneLine(raw)
    ensures WellWritten(l) && TextOf(l) == raw
  {
    if '#' in raw {
      var core, rest := AtFirst(raw, '#');
      l := CoreIsWritten(core, ['#'] + rest);
    } else {
      l := CoreIsWritten(raw, []);
      assert raw + [] == raw;
    }
  }

  lemma {:induction false} FirstBreak(text: string) returns (line: string, ending: string, rest: string)
    requires !OneLine(text)
    ensures OneLine(line) && IsEnding(ending) && text == line + (ending + rest)
  {
    if text[0] == '\n' || text[0] == '\r' {
      line, ending, rest := [], [text[0]], text[1..];
      assert ending == "\n" || ending == "\r";
    } else {
      assert text == [text[0]] + text[1..];
      var more;
      more, ending, rest := FirstBreak(text[1..]);
      line := [text[0]] + more;
    }
  }

  lemma {:induction false} UnendedOfMore(l: Line, more: seq<Line>)
    requires more != []
    ensures Unended([l] + more) == TextOf(l) + (l.ending + Unended(more))
  {
    var init := more[..|more| - 1];
    assert ([l] + more)[..|more|] == [l] + init;
    assert Write([l] + init) == TextOf(l) + (l.ending + Write(init));
  }

  lemma {:induction false} UnendedOfOne(l: Line)
    ensures Unended([l]) == TextOf(l)
  {
    assert [l][..0] == [];
  }

  lemma WellWrittenJoin(a: seq<Line>, b: seq<Line>)
    ensures AllWellWritten(a + b) <==> AllWellWritten(a) && AllWellWritten(b)
  {
    if AllWellWritten(a + b) {
      forall i | 0 <= i < |a| ensures WellWritten(a[i]) {
        assert (a + b)[i] == a[i];
      }
      forall i | 0 <= i < |b| ensures WellWritten(b[i]) {
        assert (a + b)[|a| + i] == b[i];
      }
    }
  }

  lemma {:induction false} EndedIsWritten(l: Line, ending: string)
    requires WellWritten(l) && IsEnding(ending)
    ensures WellWritten(l.(ending := ending)) && TextOf(l.(ending := ending)) == TextOf(l)
  {
  }

  lemma {:induction false} TextIsWritten(text: string) returns (lines: seq<Line>)
    ensures lines != [] && AllWellWritten(lines) && text == Unended(lines)
    decreases |text|
  {
    if OneLine(text) {
      var l := LineIsWritten(text);
      lines := [l];
      UnendedOfOne(l);
    } else {
      var line, ending, rest := FirstBreak(text);
      var l := LineIsWritten(line);
      var more := TextIsWritten(rest);
      EndedIsWritten(l, ending);
      l := l.(ending := ending);
      lines := [l] + more;
      UnendedOfMore(l, more);
      WellWrittenJoin([l], more);
    }
  }

  /** The lines before the first rule, and the rest. */
  lemma UpToRule(lines: seq<Line>) returns (a: seq<Line>, b: seq<Line>)
    ensures lines == a + b && NoRule(a) && (b != [] ==> b[0].meaning.Says?)
  {
    if lines == [] || lines[0].meaning.Says? {
      a, b := [], lines;
    } else {
      a, b := UpToRule(lines[1..]);
      a := [lines[0]] + a;
    }
  }

  lemma {:induction false} OneMoreBlock(b: Block, blocks: seq<Block>)
    requires IsBlock(b) && AreBlocks(blocks) && (b.rules != [] || blocks == [])
    ensures AreBlocks([b] + blocks) && LinesOf([b] + blocks) == b.agents + (b.rules + LinesOf(blocks))
  {
  }

  lemma {:induction false} NewBlock(l: Line, a: seq<Line>, b: seq<Line>)
    requires WellWritten(l) && l.meaning.Agent? && AllWellWritten(a + b) && NoRule(a) && NoAgent(a + b)
    requires b != [] ==> b[0].meaning.Says?
    ensures IsBlock(Block([l] + a, b))
  {
    WellWrittenJoin(a, b);
    WellWrittenJoin([l], a);
    assert forall i :: 0 <= i < |b| ==> (a + b)[|a| + i] == b[i];
  }

  lemma {:induction false} LongerBlock(l: Line, a: seq<Line>, next: Block)
    requires WellWritten(l) && l.meaning.Agent? && AllWellWritten(a) && NoRule(a) && IsBlock(next)
    ensures IsBlock(Block([l] + (a + next.agents), next.rules))
  {
    WellWrittenJoin(a, next.agents);
    WellWrittenJoin([l], a + next.agents);
  }

  lemma FirstBlock(blocks: seq<Block>)
    requires AreBlocks(blocks) && blocks != []
    ensures IsBlock(blocks[0]) && AreBlocks(blocks[1..]) && (blocks[0].rules != [] || blocks[1..] == [])
  {
  }

  lemma {:induction false} AgentStarts(l: Line, preamble: seq<Line>, blocks: seq<Block>) returns (more: seq<Block>)
    requires WellWritten(l) && l.meaning.Agent? && AllWellWritten(preamble) && NoAgent(preamble) && AreBlocks(blocks)
    ensures AreBlocks(more) && LinesOf(more) == [l] + (preamble + LinesOf(blocks))
  {
    var a, b := UpToRule(preamble);
    if b != [] || blocks == [] {
      NewBlock(l, a, b);
      OneMoreBlock(Block([l] + a, b), blocks);
      more := [Block([l] + a, b)] + blocks;
      Join3([l], a, b + LinesOf(blocks));
      Join3(a, b, LinesOf(blocks));
    } else {
      var next, rest := blocks[0], blocks[1..];
      var longer := Block([l] + (a + next.agents), next.rules);
      FirstBlock(blocks);
      assert a + [] == a;
      LongerBlock(l, a, next);
      OneMoreBlock(longer, rest);
      more := [longer] + rest;
      Join3([l], a + next.agents, next.rules + LinesOf(rest));
      Join3(a, next.agents, next.rules + LinesOf(rest));
    }
  }

  lemma FirstLine(lines: seq<Line>)
    requires AllWellWritten(lines) && lines != []
    ensures WellWritten(lines[0]) && AllWellWritten(lines[1..]) && lines == [lines[0]] + lines[1..]
  {
  }

  lemma {:induction false} LinesAreBlocks(lines: seq<Line>) returns (preamble: seq<Line>, blocks: seq<Block>)
    requires AllWellWritten(lines)
    ensures AllWellWritten(preamble) && NoAgent(preamble) && AreBlocks(blocks) && lines == preamble + LinesOf(blocks)
  {
    preamble, blocks := [], [];
    if lines != [] {
      FirstLine(lines);
      preamble, blocks := LinesAreBlocks(lines[1..]);
      if lines[0].meaning.Agent? {
        blocks := AgentStarts(lines[0], preamble, blocks);
        preamble := [];
      } else {
        WellWrittenJoin([lines[0]], preamble);
        Join3([lines[0]], preamble, LinesOf(blocks));
        preamble := [lines[0]] + preamble;
      }
    }
  }

  /** COMPLETE: every text is one of those above, so they say of every text what is read from it. */
  lemma {:induction false} EveryTextIsWritten(text: string) returns (preamble: seq<Line>, blocks: seq<Block>)
    ensures AllWellWritten(preamble) && NoAgent(preamble) && AreBlocks(blocks)
    ensures var lines := preamble + LinesOf(blocks);
            && lines != [] && text == Unended(lines)
            && Parsed(text, false) == RobotsFile(GroupsOf(blocks), OthersOf(lines))
  {
    var lines := TextIsWritten(text);
    preamble, blocks := LinesAreBlocks(lines);
    WrittenFileReadsBack(preamble, blocks, []);
  }
}
