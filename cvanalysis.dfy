/**
 * The CV analysis page: a four-node pipeline over a log seeded with the CV
 * text and the job-requirements text. The first two nodes analyse each text,
 * the third asks for a two-line numeric comparison and parses it for a bar
 * chart, the fourth writes a model CV.
 *
 * Every language-model call is the parameter `llm`, applied to a `Prompt`
 * that records what the calling node interpolated into its fixed wording.
 */
module CvAnalysis {
  import opened Wrappers
  import opened Strings
  import opened Conversation

  /** The pipeline's nodes, with the START and END markers. */
  datatype Node = Start | AnaliseCvNode | AnaliseRequirementsNode | SkillsNode | ModelCvNode | End

  /** What each call to the language model is asked about. */
  datatype Prompt =
    | CvPrompt(cv: string)
    | RequirementsPrompt(requirements: string)
    | SkillsPrompt(requirementsAnalysis: string, cvAnalysis: string)
    | ModelCvPrompt(information: string, cv: string)

  /** The scores for Experience, Technical Skills and Languages, for the candidate and for the job. */
  datatype Comparison = Comparison(you: seq<int>, requirements: seq<int>)

  /**
   * Why `skills_node` raises: a token of line `line` that `int` rejects, a
   * missing line, or a line whose number of values does not match the three
   * chart categories.
   */
  datatype ParseError = NotAnInteger(line: nat, token: string) | MissingLine(line: nat) | WrongCount(line: nat, count: nat)

  /** What the page displays: a markdown reply, or the horizontal bar chart of a comparison. */
  datatype Output = Markdown(text: string) | BarChart(comparison: Comparison)

  /** The chart's categories, one per value of a line. */
  const Categories: seq<string> := ["Experience", "Technical Skills", "Languages"]

  // ---------------------------------------------------------------- the comparison parser

  /** Every token is text `int` accepts. */
  predicate AllIntegers(tokens: seq<string>)
  {
    forall i :: 0 <= i < |tokens| ==> ParseInt(tokens[i]).Some?
  }

  /** The value of each token, position by position. */
  function Values(tokens: seq<string>): (vs: seq<int>)
    requires AllIntegers(tokens)
    ensures |vs| == |tokens|
  {
    seq(|tokens|, i requires 0 <= i < |tokens| => ParseInt(tokens[i]).value)
  }

  /** `list(map(int, tokens))`: the values of all tokens, or the first token `int` rejects. */
  function ParseTokens(tokens: seq<string>): (r: Result<seq<int>, string>)
    ensures r.Ok? <==> AllIntegers(tokens)
    ensures r.Ok? ==> r.value == Values(tokens)
    ensures r.Err? ==> r.error in tokens && ParseInt(r.error).None?
  {
    if tokens == [] then Ok([])
    else match ParseInt(tokens[0])
      case None => Err(tokens[0])
      case Some(v) =>
        var rest := ParseTokens(tokens[1..]);
        assert forall i :: 1 <= i < |tokens| ==> tokens[i] == tokens[1..][i - 1];
        match rest
        case Err(t) => Err(t)
        case Ok(vs) => Ok([v] + vs)
  }

  /** `map(int, tokens)` raises on the first token `int` rejects: every token before the reported one is an integer. */
  lemma {:induction false} ParseTokensFailsFirst(tokens: seq<string>)
    ensures ParseTokens(tokens).Err? ==>
      exists i :: 0 <= i < |tokens| && ParseTokens(tokens).error == tokens[i] && ParseInt(tokens[i]).None? && AllIntegers(tokens[..i])
    decreases |tokens|
  {
    if tokens != [] && ParseTokens(tokens).Err? {
      if ParseInt(tokens[0]).None? {
        assert AllIntegers(tokens[..0]);
      } else {
        ParseTokensFailsFirst(tokens[1..]);
        var j :| 0 <= j < |tokens| - 1 && ParseTokens(tokens[1..]).error == tokens[1..][j]
          && ParseInt(tokens[1..][j]).None? && AllIntegers(tokens[1..][..j]);
        assert tokens[..j + 1] == [tokens[0]] + tokens[1..][..j];
        assert AllIntegers(tokens[..j + 1]);
        assert ParseTokens(tokens).error == tokens[j + 1];
      }
    }
  }

  /** One line of the reply: its comma-separated tokens, each read by `int`. */
  function ParseRow(line: string): (r: Result<seq<int>, string>)
    ensures r.Ok? <==> AllIntegers(Split(line, ','))
    ensures r.Ok? ==> r.value == Values(Split(line, ','))
  {
    ParseTokens(Split(line, ','))
  }

  /** The first two lines' values, in line order. */
  datatype Rows = Rows(first: seq<int>, second: seq<int>)

  /**
   * The reads of `skills_node`, in the order Python performs them: line 0's
   * tokens, then the presence of line 1, then line 1's tokens; the chart then
   * needs exactly one value per category on each line. Lines after the
   * second are never read.
   */
  function ReadRows(lines: seq<string>): (r: Result<Rows, ParseError>)
    ensures r.Ok? ==> |lines| >= 2 && |r.value.first| == |Categories| && |r.value.second| == |Categories|
    ensures lines == [] ==> r == Err(MissingLine(0))
  {
    if lines == [] then Err(MissingLine(0))
    else match ParseRow(lines[0])
      case Err(t) => Err(NotAnInteger(0, t))
      case Ok(first) =>
        if |lines| < 2 then Err(MissingLine(1))
        else match ParseRow(lines[1])
          case Err(t) => Err(NotAnInteger(1, t))
          case Ok(second) =>
            if |first| != |Categories| then Err(WrongCount(0, |first|))
            else if |second| != |Categories| then Err(WrongCount(1, |second|))
            else Ok(Rows(first, second))
  }

  /** The lines of a reply: `reply.strip().split("\n")`. */
  function Lines(reply: string): (lines: seq<string>)
    ensures |lines| >= 1
  {
    Split(Strip(reply), '\n')
  }

  /** As written, line 0 becomes the 'You' series and line 1 the 'Requirements' series. */
  function ParseComparisonAsWritten(reply: string): (r: Result<Comparison, ParseError>)
    ensures r.Ok? ==> |r.value.you| == |Categories| && |r.value.requirements| == |Categories|
  {
    match ReadRows(Lines(reply))
    case Err(e) => Err(e)
    case Ok(rows) => Ok(Comparison(rows.first, rows.second))
  }

  /** The skills prompt asks for the requirements line first and the CV line second; the chart labels them so. */
  function ParseComparison(reply: string): (r: Result<Comparison, ParseError>)
    ensures r.Ok? ==> |r.value.you| == |Categories| && |r.value.requirements| == |Categories|
  {
    match ReadRows(Lines(reply))
    case Err(e) => Err(e)
    case Ok(rows) => Ok(Comparison(rows.second, rows.first))
  }

  /** `str` of each value. */
  function Shows(xs: seq<int>): (ts: seq<string>)
    ensures |ts| == |xs| && forall i :: 0 <= i < |xs| ==> ts[i] == ShowInt(xs[i])
  {
    seq(|xs|, i requires 0 <= i < |xs| => ShowInt(xs[i]))
  }

  /** One line in the requested format: the values, comma-separated. */
  function Row(xs: seq<int>): string
  {
    Join(Shows(xs), ',')
  }

  /** The reply the skills prompt asks for: the requirements line, then the CV line. */
  function RequestedReply(c: Comparison): string
  {
    Join([Row(c.requirements), Row(c.you)], '\n')
  }

  /** A rendered value holds only digits and minus signs. */
  lemma ShowsAvoid(xs: seq<int>, c: char)
    requires c != '-' && !IsDigit(c)
    ensures forall i :: 0 <= i < |xs| ==> c !in Shows(xs)[i]
  {
    var ts := Shows(xs);
    forall i | 0 <= i < |ts|
      ensures c !in ts[i]
    {
      assert ts[i] == ShowInt(xs[i]);
    }
  }

  /** `int` reads every rendered value back. */
  lemma ShowsRead(xs: seq<int>)
    ensures AllIntegers(Shows(xs)) && Values(Shows(xs)) == xs
  {
    var ts := Shows(xs);
    forall i | 0 <= i < |ts|
      ensures ParseInt(ts[i]) == Some(xs[i])
    {
      ParseShowInt(xs[i]);
    }
    assert AllIntegers(ts);
    assert Values(ts) == xs;
  }

  /** A rendered row holds only digits, minus signs and commas. */
  lemma RowAvoids(xs: seq<int>, c: char)
    requires c != ',' && c != '-' && !IsDigit(c)
    ensures c !in Row(xs)
  {
    ShowsAvoid(xs, c);
    JoinAvoids(Shows(xs), ',', c);
  }

  /** `int` reads back every value of a rendered row. */
  lemma ParseRowShows(xs: seq<int>)
    requires xs != []
    ensures ParseRow(Row(xs)) == Ok(xs)
  {
    ShowsAvoid(xs, ',');
    SplitJoin(Shows(xs), ',');
    ShowsRead(xs);
  }

  /** A rendered row of at least one value is non-empty and has no whitespace at either end. */
  lemma RowTrimmed(xs: seq<int>)
    requires xs != []
    ensures Row(xs) != [] && Trimmed(Row(xs), IsSpace)
  {
    var ts := Shows(xs);
    assert ts[0] == ShowInt(xs[0]) && ts[|ts| - 1] == ShowInt(xs[|xs| - 1]);
    JoinFirst(ts, ',');
    JoinLast(ts, ',');
  }

  /** The requested reply splits into exactly its two rendered rows. */
  lemma RequestedLines(c: Comparison)
    requires c.you != [] && c.requirements != []
    ensures Lines(RequestedReply(c)) == [Row(c.requirements), Row(c.you)]
  {
    var rows := [Row(c.requirements), Row(c.you)];
    RowAvoids(c.requirements, '\n');
    RowAvoids(c.you, '\n');
    RowTrimmed(c.requirements);
    RowTrimmed(c.you);
    JoinFirst(rows, '\n');
    JoinLast(rows, '\n');
    StripTrimmed(RequestedReply(c));
    SplitJoin(rows, '\n');
  }

  /** A reply in the requested format parses back to the comparison it renders, when each line has one value per category. */
  lemma ParseRequestedReply(c: Comparison)
    requires |c.you| == |Categories| && |c.requirements| == |Categories|
    ensures ParseComparison(RequestedReply(c)) == Ok(c)
  {
    RequestedLines(c);
    ParseRowShows(c.requirements);
    ParseRowShows(c.you);
  }

  /** The as-written reader charts the two lines under each other's labels; its errors are the same. */
  lemma AsWrittenSwaps(reply: string)
    ensures var r := ParseComparison(reply);
      ParseComparisonAsWritten(reply) == if r.Ok? then Ok(Comparison(r.value.requirements, r.value.you)) else r
  {
  }

  /**
   * As written, the requested reply's rows come out swapped: whenever the
   * candidate's scores differ from the requirements, the chart shows each
   * under the other's label.
   */
  lemma AsWrittenSwapsRows(c: Comparison)
    requires |c.you| == |Categories| && |c.requirements| == |Categories|
    ensures ParseComparisonAsWritten(RequestedReply(c)) == Ok(Comparison(c.requirements, c.you))
    ensures c.you != c.requirements ==> ParseComparisonAsWritten(RequestedReply(c)) != Ok(c)
  {
    ParseRequestedReply(c);
    AsWrittenSwaps(RequestedReply(c));
  }

  /** The requirements row of the prompt's own example, rendered. */
  lemma ExampleRequirementsRow()
    ensures Row([1, 2, 5]) == "1,2,5"
  {
    assert ShowInt(1) == "1" && ShowInt(2) == "2" && ShowInt(5) == "5";
    assert Shows([1, 2, 5]) == ["1", "2", "5"];
    assert ["1", "2", "5"][1..] == ["2", "5"] && ["2", "5"][1..] == ["5"];
    assert Join(["2", "5"], ',') == "2,5";
  }

  /** The CV row of the prompt's own example, rendered. */
  lemma ExampleCvRow()
    ensures Row([4, 6, 3]) == "4,6,3"
  {
    assert ShowInt(4) == "4" && ShowInt(6) == "6" && ShowInt(3) == "3";
    assert Shows([4, 6, 3]) == ["4", "6", "3"];
    assert ["4", "6", "3"][1..] == ["6", "3"] && ["6", "3"][1..] == ["3"];
    assert Join(["6", "3"], ',') == "6,3";
  }

  /** The reply the prompt's own example asks for: requirements 1, 2, 5 on the first line, CV 4, 6, 3 on the second. */
  lemma ExampleReply()
    ensures RequestedReply(Comparison([4, 6, 3], [1, 2, 5])) == "1,2,5\n4,6,3"
  {
    ExampleRequirementsRow();
    ExampleCvRow();
    var rows := ["1,2,5", "4,6,3"];
    assert rows[1..] == ["4,6,3"];
    assert Join(rows, '\n') == "1,2,5" + "\n" + "4,6,3";
    assert "1,2,5" + "\n" + "4,6,3" == "1,2,5\n4,6,3";
  }

  /** On that reply, as written, the chart shows the candidate scoring 1, 2, 5 against requirements of 4, 6, 3. */
  lemma AsWrittenExample()
    ensures ParseComparisonAsWritten("1,2,5\n4,6,3") == Ok(Comparison([1, 2, 5], [4, 6, 3]))
    ensures ParseComparison("1,2,5\n4,6,3") == Ok(Comparison([4, 6, 3], [1, 2, 5]))
  {
    ExampleReply();
    AsWrittenSwapsRows(Comparison([4, 6, 3], [1, 2, 5]));
    ParseRequestedReply(Comparison([4, 6, 3], [1, 2, 5]));
  }

  /** Lines after the second never change the outcome. */
  lemma ExtraLinesIgnored(lines: seq<string>)
    requires |lines| >= 2
    ensures ReadRows(lines) == ReadRows(lines[..2])
  {
    assert lines[..2][0] == lines[0] && lines[..2][1] == lines[1];
  }

  /** A reply of one line fails: on a bad token of that line, otherwise for want of the second line. */
  lemma OneLineFails(reply: string)
    requires '\n' !in Strip(reply)
    ensures var r := ParseComparison(reply);
      r.Err? && (r.error.NotAnInteger? || r.error == MissingLine(1))
  {
  }

  /**
   * Exactly when a reply parses: it has at least two lines, every comma-separated
   * token of the first two is an integer, and each of them has one value per
   * category; the requirements are then the first line's values and the
   * candidate's scores the second's.
   */
  lemma ParseComparisonExactly(reply: string)
    ensures var lines := Lines(reply);
      ParseComparison(reply).Ok? <==>
        |lines| >= 2
        && AllIntegers(Split(lines[0], ',')) && |Split(lines[0], ',')| == |Categories|
        && AllIntegers(Split(lines[1], ',')) && |Split(lines[1], ',')| == |Categories|
    ensures var lines := Lines(reply);
      ParseComparison(reply).Ok? ==>
        ParseComparison(reply).value == Comparison(Values(Split(lines[1], ',')), Values(Split(lines[0], ',')))
  {
  }

  // ---------------------------------------------------------------- the pipeline

  /**
   * How `skills_node` reads its reply. The graph is stated for any reader;
   * `app` runs it with `ParseComparisonAsWritten`, as the page does.
   */
  type Parser = string -> Result<Comparison, ParseError>

  /** Position of a node in the pipeline's order; every edge lowers it by one. */
  function Rank(n: Node): nat
  {
    match n
    case Start => 5
    case AnaliseCvNode => 4
    case AnaliseRequirementsNode => 3
    case SkillsNode => 2
    case ModelCvNode => 1
    case End => 0
  }

  /** The pipeline's edges: a single chain, with no conditional edge (the successor does not depend on the state). */
  function Successor(n: Node): (next: Node)
    requires n != End
    ensures Rank(next) + 1 == Rank(n)
  {
    match n
    case Start => AnaliseCvNode
    case AnaliseCvNode => AnaliseRequirementsNode
    case AnaliseRequirementsNode => SkillsNode
    case SkillsNode => ModelCvNode
    case ModelCvNode => End
  }

  /** The prompt a node sends, the log after it, what it displays, and the error it raises, if any. */
  datatype StepResult = StepResult(prompt: Prompt, log: seq<Message>, shown: seq<Output>, failure: Option<ParseError>)

  /**
   * One node's effect. The analyses read `[-2]` and append their reply; the
   * skills node reads `[-1]` and `[-2]`, parses its reply and appends it
   * only when the parse succeeds; the model CV reads `[-2]` and `[0]` and
   * appends nothing.
   */
  function Step(n: Node, g: seq<Message>, llm: Prompt -> string, parse: Parser): (r: StepResult)
    requires n != Start && n != End && |g| >= 2
    ensures r.failure.None? ==> |r.log| == |g| + (if n == ModelCvNode then 0 else 1)
    ensures |r.log| >= |g| && r.log[..|g|] == g
    ensures r.failure.Some? ==> n == SkillsNode && r.log == g && r.shown == []
  {
    match n
    case AnaliseCvNode =>
      var p := CvPrompt(g[|g| - 2].content);
      StepResult(p, g + [Message(Assistant, llm(p))], [Markdown(llm(p))], None)
    case AnaliseRequirementsNode =>
      var p := RequirementsPrompt(g[|g| - 2].content);
      StepResult(p, g + [Message(Assistant, llm(p))], [Markdown(llm(p))], None)
    case SkillsNode =>
      var p := SkillsPrompt(g[|g| - 1].content, g[|g| - 2].content);
      var reply := llm(p);
      (match parse(reply)
       case Err(e) => StepResult(p, g, [], Some(e))
       case Ok(c) => StepResult(p, g + [Message(Assistant, reply)], [BarChart(c)], None))
    case ModelCvNode =>
      var p := ModelCvPrompt(g[|g| - 2].content, g[0].content);
      StepResult(p, g, [Markdown(llm(p))], None)
  }

  /** The nodes run, the prompts sent, the final log, what was displayed, and the error that ended the run, if any. */
  datatype Trace = Trace(path: seq<Node>, prompts: seq<Prompt>, log: seq<Message>, shown: seq<Output>, failure: Option<ParseError>)

  /** `graph.invoke` from node `n` on: run the node; stop on an error or at END, otherwise follow the edge. */
  function Walk(n: Node, g: seq<Message>, llm: Prompt -> string, parse: Parser): (t: Trace)
    requires n != Start && |g| >= 2
    ensures |t.prompts| == |t.path| <= Rank(n)
    decreases Rank(n)
  {
    if n == End then Trace([], [], g, [], None)
    else
      var r := Step(n, g, llm, parse);
      if r.failure.Some? then Trace([n], [r.prompt], r.log, r.shown, r.failure)
      else
        var rest := Walk(Successor(n), r.log, llm, parse);
        Trace([n] + rest.path, [r.prompt] + rest.prompts, rest.log, r.shown + rest.shown, rest.failure)
  }

  /** The log `app` seeds the graph with: the CV text, then the requirements text. */
  function Seed(cvText: string, requirementsText: string): seq<Message>
  {
    [Message(System, cvText), Message(System, requirementsText)]
  }

  /** One run of the pipeline on the two uploaded texts. */
  function Pipeline(cvText: string, requirementsText: string, llm: Prompt -> string, parse: Parser): Trace
  {
    Walk(Successor(Start), Seed(cvText, requirementsText), llm, parse)
  }

  /** The pipeline from the skills node on, written out: parse the comparison; on success chart it and write the model CV. */
  function SkillsOnward(g: seq<Message>, llm: Prompt -> string, parse: Parser): Trace
    requires |g| >= 2
  {
    var p := SkillsPrompt(g[|g| - 1].content, g[|g| - 2].content);
    var reply := llm(p);
    match parse(reply)
    case Err(e) => Trace([SkillsNode], [p], g, [], Some(e))
    case Ok(c) =>
      var q := ModelCvPrompt(g[|g| - 1].content, g[0].content);
      Trace([SkillsNode, ModelCvNode], [p, q], g + [Message(Assistant, reply)], [BarChart(c), Markdown(llm(q))], None)
  }

  /**
   * The whole pipeline written out as straight-line code: analyse the CV,
   * analyse the requirements, then the skills node onward on the log
   * [cv, requirements, CV analysis, requirements analysis].
   */
  function Script(cvText: string, requirementsText: string, llm: Prompt -> string, parse: Parser): Trace
  {
    var cvAnalysis := llm(CvPrompt(cvText));
    var requirementsAnalysis := llm(RequirementsPrompt(requirementsText));
    var rest := SkillsOnward(Seed(cvText, requirementsText) + [Message(Assistant, cvAnalysis), Message(Assistant, requirementsAnalysis)], llm, parse);
    Trace([AnaliseCvNode, AnaliseRequirementsNode] + rest.path, [CvPrompt(cvText), RequirementsPrompt(requirementsText)] + rest.prompts,
      rest.log, [Markdown(cvAnalysis), Markdown(requirementsAnalysis)] + rest.shown, rest.failure)
  }

  /** The model CV node, run last: it reads `[-2]` and `[0]`, displays the reply and leaves the log alone. */
  lemma WalkFromModelCv(g: seq<Message>, llm: Prompt -> string, parse: Parser)
    requires |g| >= 2
    ensures var q := ModelCvPrompt(g[|g| - 2].content, g[0].content);
      Walk(ModelCvNode, g, llm, parse) == Trace([ModelCvNode], [q], g, [Markdown(llm(q))], None)
  {
    var q := ModelCvPrompt(g[|g| - 2].content, g[0].content);
    assert Step(ModelCvNode, g, llm, parse) == StepResult(q, g, [Markdown(llm(q))], None);
    assert Walk(End, g, llm, parse) == Trace([], [], g, [], None);
  }

  /** The skills node's step: on a failed parse it stops with the log unchanged; otherwise it appends the reply. */
  lemma SkillsStep(g: seq<Message>, llm: Prompt -> string, parse: Parser)
    requires |g| >= 2
    ensures var p := SkillsPrompt(g[|g| - 1].content, g[|g| - 2].content);
      var r := Step(SkillsNode, g, llm, parse);
      && r.prompt == p
      && (parse(llm(p)).Err? ==> r == StepResult(p, g, [], Some(parse(llm(p)).error)))
      && (parse(llm(p)).Ok? ==> r == StepResult(p, g + [Message(Assistant, llm(p))], [BarChart(parse(llm(p)).value)], None))
  {
  }

  /** From the skills node on, when the comparison parses: chart it, then the model CV node. */
  lemma WalkFromSkillsCharts(g: seq<Message>, llm: Prompt -> string, parse: Parser)
    requires |g| >= 2
    ensures parse(llm(SkillsPrompt(g[|g| - 1].content, g[|g| - 2].content))).Ok? ==>
      Walk(SkillsNode, g, llm, parse) == SkillsOnward(g, llm, parse)
  {
    var p := SkillsPrompt(g[|g| - 1].content, g[|g| - 2].content);
    var reply := llm(p);
    if parse(reply).Ok? {
      var g1 := g + [Message(Assistant, reply)];
      var q := ModelCvPrompt(g[|g| - 1].content, g[0].content);
      assert Step(SkillsNode, g, llm, parse) == StepResult(p, g1, [BarChart(parse(reply).value)], None);
      assert g1[|g1| - 2] == g[|g| - 1] && g1[0] == g[0];
      WalkFromModelCv(g1, llm, parse);
      assert Walk(ModelCvNode, g1, llm, parse) == Trace([ModelCvNode], [q], g1, [Markdown(llm(q))], None);
    }
  }

  /** From the skills node on, the graph does what `SkillsOnward` writes out. */
  lemma WalkFromSkills(g: seq<Message>, llm: Prompt -> string, parse: Parser)
    requires |g| >= 2
    ensures Walk(SkillsNode, g, llm, parse) == SkillsOnward(g, llm, parse)
  {
    WalkFromSkillsCharts(g, llm, parse);
    SkillsStep(g, llm, parse);
  }

  /** The analysis nodes: each reads `[-2]`, displays its reply and appends it; then the skills node onward. */
  lemma WalkFromAnalyses(cvText: string, requirementsText: string, llm: Prompt -> string, parse: Parser)
    ensures Walk(AnaliseCvNode, Seed(cvText, requirementsText), llm, parse) == Script(cvText, requirementsText, llm, parse)
  {
    var g0 := Seed(cvText, requirementsText);
    var cvAnalysis := llm(CvPrompt(cvText));
    var g1 := g0 + [Message(Assistant, cvAnalysis)];
    assert Step(AnaliseCvNode, g0, llm, parse) == StepResult(CvPrompt(cvText), g1, [Markdown(cvAnalysis)], None);
    var requirementsAnalysis := llm(RequirementsPrompt(requirementsText));
    var g2 := g1 + [Message(Assistant, requirementsAnalysis)];
    assert Step(AnaliseRequirementsNode, g1, llm, parse) == StepResult(RequirementsPrompt(requirementsText), g2, [Markdown(requirementsAnalysis)], None);
    assert g2 == g0 + [Message(Assistant, cvAnalysis), Message(Assistant, requirementsAnalysis)];
    WalkFromSkills(g2, llm, parse);
  }

  /** A run of the pipeline is the straight-line script. */
  lemma PipelineIsScript(cvText: string, requirementsText: string, llm: Prompt -> string, parse: Parser)
    ensures Pipeline(cvText, requirementsText, llm, parse) == Script(cvText, requirementsText, llm, parse)
  {
    WalkFromAnalyses(cvText, requirementsText, llm, parse);
  }

  /**
   * What a run does, both ways it can end. Each node reads the entry it is
   * meant to: the CV text, the requirements text, the requirements analysis
   * with the CV analysis, then the requirements analysis with the CV text.
   * The log ends at length 5 after a successful parse (the model CV appends
   * nothing) and at length 4 when the skills node raises.
   */
  lemma PipelineOutcome(cvText: string, requirementsText: string, llm: Prompt -> string, parse: Parser)
    ensures var cvAnalysis := llm(CvPrompt(cvText));
      var requirementsAnalysis := llm(RequirementsPrompt(requirementsText));
      var skills := SkillsPrompt(requirementsAnalysis, cvAnalysis);
      var t := Pipeline(cvText, requirementsText, llm, parse);
      && t.log[..4] == Seed(cvText, requirementsText) + [Message(Assistant, cvAnalysis), Message(Assistant, requirementsAnalysis)]
      && t.prompts[..3] == [CvPrompt(cvText), RequirementsPrompt(requirementsText), skills]
      && match parse(llm(skills))
         case Ok(c) =>
           && t.path == [AnaliseCvNode, AnaliseRequirementsNode, SkillsNode, ModelCvNode]
           && |t.log| == 5 && t.log[4] == Message(Assistant, llm(skills))
           && t.prompts[3] == ModelCvPrompt(requirementsAnalysis, cvText)
           && t.shown == [Markdown(cvAnalysis), Markdown(requirementsAnalysis), BarChart(c), Markdown(llm(t.prompts[3]))]
           && t.failure.None?
         case Err(e) =>
           && t.path == [AnaliseCvNode, AnaliseRequirementsNode, SkillsNode]
           && |t.log| == 4
           && t.shown == [Markdown(cvAnalysis), Markdown(requirementsAnalysis)]
           && t.failure == Some(e)
  {
    PipelineIsScript(cvText, requirementsText, llm, parse);
  }

  /**
   * What the page, as written, charts when the model answers the skills
   * prompt in the requested format: the requirements under 'You' and the
   * candidate's scores under 'Requirements'; with the corrected reader the
   * same reply is charted as it was meant.
   */
  lemma PageChartsSwapped(cvText: string, requirementsText: string, llm: Prompt -> string, c: Comparison)
    requires |c.you| == |Categories| && |c.requirements| == |Categories|
    ensures var skills := SkillsPrompt(llm(RequirementsPrompt(requirementsText)), llm(CvPrompt(cvText)));
      llm(skills) == RequestedReply(c) ==>
        var asWritten := Pipeline(cvText, requirementsText, llm, ParseComparisonAsWritten).shown;
        var corrected := Pipeline(cvText, requirementsText, llm, ParseComparison).shown;
        && |asWritten| == 4 && asWritten[2] == BarChart(Comparison(c.requirements, c.you))
        && |corrected| == 4 && corrected[2] == BarChart(c)
  {
    AsWrittenSwapsRows(c);
    ParseRequestedReply(c);
    PipelineCharts(cvText, requirementsText, llm, ParseComparisonAsWritten);
    PipelineCharts(cvText, requirementsText, llm, ParseComparison);
  }

  /** When the skills reply parses, the run shows four outputs and the third is the chart of what the reader returned. */
  lemma PipelineCharts(cvText: string, requirementsText: string, llm: Prompt -> string, parse: Parser)
    ensures var skills := SkillsPrompt(llm(RequirementsPrompt(requirementsText)), llm(CvPrompt(cvText)));
      var t := Pipeline(cvText, requirementsText, llm, parse);
      parse(llm(skills)).Ok? ==> |t.shown| == 4 && t.shown[2] == BarChart(parse(llm(skills)).value)
  {
    PipelineOutcome(cvText, requirementsText, llm, parse);
  }

  // ---------------------------------------------------------------- the imperative nodes

  /** `analise_cv_node`: analyses the text at `[-2]`, displays and appends the reply. */
  method AnaliseCv(st: GraphState<Message>, llm: Prompt -> string, parse: Parser) returns (shown: seq<Output>, failure: Option<ParseError>)
    requires |st.entries| >= 2
    modifies st
    ensures var r := Step(AnaliseCvNode, old(st.entries), llm, parse);
      st.entries == r.log && shown == r.shown && failure == r.failure
  {
    var cvText := st.entries[|st.entries| - 2].content;
    var reply := llm(CvPrompt(cvText));
    shown := [Markdown(reply)];
    st.Append(Message(Assistant, reply));
    failure := None;
  }

  /** `analise_requirements_node`: analyses the text at `[-2]`, displays and appends the reply. */
  method AnaliseRequirements(st: GraphState<Message>, llm: Prompt -> string, parse: Parser) returns (shown: seq<Output>, failure: Option<ParseError>)
    requires |st.entries| >= 2
    modifies st
    ensures var r := Step(AnaliseRequirementsNode, old(st.entries), llm, parse);
      st.entries == r.log && shown == r.shown && failure == r.failure
  {
    var requirementsText := st.entries[|st.entries| - 2].content;
    var reply := llm(RequirementsPrompt(requirementsText));
    shown := [Markdown(reply)];
    st.Append(Message(Assistant, reply));
    failure := None;
  }

  /** `skills_node`: asks for the comparison, parses it, charts it and appends the reply; a parse error raises before anything is appended. */
  method Skills(st: GraphState<Message>, llm: Prompt -> string, parse: Parser) returns (shown: seq<Output>, failure: Option<ParseError>)
    requires |st.entries| >= 2
    modifies st
    ensures var r := Step(SkillsNode, old(st.entries), llm, parse);
      st.entries == r.log && shown == r.shown && failure == r.failure
  {
    var requirementsAnalysis := st.entries[|st.entries| - 1].content;
    var cvAnalysis := st.entries[|st.entries| - 2].content;
    var reply := llm(SkillsPrompt(requirementsAnalysis, cvAnalysis));
    var parsed := parse(reply);
    if parsed.Err? {
      shown, failure := [], Some(parsed.error);
    } else {
      shown, failure := [BarChart(parsed.value)], None;
      st.Append(Message(Assistant, reply));
    }
  }

  /** `model_cv_node`: writes a model CV from `[-2]` and the CV text at `[0]`, displays it, appends nothing. */
  method ModelCv(st: GraphState<Message>, llm: Prompt -> string, parse: Parser) returns (shown: seq<Output>, failure: Option<ParseError>)
    requires |st.entries| >= 2
    ensures var r := Step(ModelCvNode, st.entries, llm, parse);
      st.entries == r.log && shown == r.shown && failure == r.failure
  {
    var information := st.entries[|st.entries| - 2].content;
    var cvText := st.entries[0].content;
    var reply := llm(ModelCvPrompt(information, cvText));
    shown, failure := [Markdown(reply)], None;
  }

  /** Runs the node `n`: the imperative counterpart of `Step`. */
  method RunNode(n: Node, st: GraphState<Message>, llm: Prompt -> string, parse: Parser) returns (shown: seq<Output>, failure: Option<ParseError>)
    requires n != Start && n != End && |st.entries| >= 2
    modifies st
    ensures var r := Step(n, old(st.entries), llm, parse);
      st.entries == r.log && shown == r.shown && failure == r.failure
  {
    match n {
      case AnaliseCvNode => shown, failure := AnaliseCv(st, llm, parse);
      case AnaliseRequirementsNode => shown, failure := AnaliseRequirements(st, llm, parse);
      case SkillsNode => shown, failure := Skills(st, llm, parse);
      case ModelCvNode => shown, failure := ModelCv(st, llm, parse);
    }
  }

  /** One turn of the invocation loop: what has been done, plus the walk from where the loop now stands, is the run it started. */
  lemma WalkAdvance(n: Node, g: seq<Message>, llm: Prompt -> string, parse: Parser, done: seq<Node>, seen: seq<Output>)
    requires n != Start && n != End && |g| >= 2
    ensures var r := Step(n, g, llm, parse);
      var t := Walk(n, g, llm, parse);
      if r.failure.Some? then
        && done + t.path == done + [n] && seen + t.shown == seen + r.shown && t.log == r.log && t.failure == r.failure
      else
        var rest := Walk(Successor(n), r.log, llm, parse);
        && done + t.path == (done + [n]) + rest.path && seen + t.shown == (seen + r.shown) + rest.shown
        && t.log == rest.log && t.failure == rest.failure
  {
    var r := Step(n, g, llm, parse);
    var t := Walk(n, g, llm, parse);
    if r.failure.None? {
      var rest := Walk(Successor(n), r.log, llm, parse);
      assert t == Trace([n] + rest.path, [r.prompt] + rest.prompts, rest.log, r.shown + rest.shown, rest.failure);
      assert done + t.path == (done + [n]) + rest.path;
      assert seen + t.shown == (seen + r.shown) + rest.shown;
    } else {
      assert t == Trace([n], [r.prompt], r.log, r.shown, r.failure);
    }
  }

  /** `graph.invoke`: runs nodes from START along the chain until END or until a node raises, as `Walk` describes. */
  method Invoke(st: GraphState<Message>, llm: Prompt -> string, parse: Parser) returns (path: seq<Node>, shown: seq<Output>, failure: Option<ParseError>)
    requires |st.entries| >= 2
    modifies st
    ensures var t := Walk(Successor(Start), old(st.entries), llm, parse);
      path == t.path && shown == t.shown && failure == t.failure && st.entries == t.log
  {
    ghost var whole := Walk(AnaliseCvNode, st.entries, llm, parse);
    var cur := Successor(Start);
    path, shown, failure := [], [], None;
    while cur != End && failure.None?
      invariant cur != Start && |st.entries| >= 2
      invariant failure.None? ==> var rest := Walk(cur, st.entries, llm, parse);
        && path + rest.path == whole.path && shown + rest.shown == whole.shown
        && rest.log == whole.log && rest.failure == whole.failure
      invariant failure.Some? ==>
        path == whole.path && shown == whole.shown && st.entries == whole.log && failure == whole.failure
      decreases Rank(cur)
    {
      WalkAdvance(cur, st.entries, llm, parse, path, shown);
      var more, raised := RunNode(cur, st, llm, parse);
      path, shown, failure := path + [cur], shown + more, raised;
      cur := Successor(cur);
    }
  }

  /** `app`: seeds a fresh graph-local log with the two texts and invokes the pipeline, whose skills node labels line 0 'You'. */
  method App(cvText: string, requirementsText: string, llm: Prompt -> string) returns (path: seq<Node>, shown: seq<Output>, failure: Option<ParseError>)
    ensures var t := Pipeline(cvText, requirementsText, llm, ParseComparisonAsWritten);
      path == t.path && shown == t.shown && failure == t.failure
  {
    var st := new GraphState([Message(System, cvText)]);
    st.Append(Message(System, requirementsText));
    assert st.entries == Seed(cvText, requirementsText);
    path, shown, failure := Invoke(st, llm, ParseComparisonAsWritten);
  }

  /** What one render of the page leads to. */
  datatype PageOutcome = Idle | UploadMissing | Analysed(path: seq<Node>, shown: seq<Output>, failure: Option<ParseError>)

  /** `show`, after the two uploads: the pipeline starts only when "Analyze" is pressed and both texts are non-empty. */
  method Show(pressed: bool, cvText: string, requirementsText: string, llm: Prompt -> string) returns (o: PageOutcome)
    ensures o.Idle? <==> !pressed
    ensures o.UploadMissing? <==> pressed && (cvText == "" || requirementsText == "")
    ensures o.Analysed? <==> pressed && cvText != "" && requirementsText != ""
    ensures o.Analysed? ==> var t := Pipeline(cvText, requirementsText, llm, ParseComparisonAsWritten);
      o.path == t.path && o.shown == t.shown && o.failure == t.failure
  {
    if !pressed {
      o := Idle;
    } else if cvText == "" || requirementsText == "" {
      o := UploadMissing;
    } else {
      var path, shown, failure := App(cvText, requirementsText, llm);
      o := Analysed(path, shown, failure);
    }
  }
}
