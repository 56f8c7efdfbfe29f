/**
 * The mock technical interview: the rating graph run once per candidate
 * answer (rate, then model answer or congratulation, then weak-areas check)
 * and the turn logic that feeds it from the session log.
 *
 * Every language-model call is the parameter `llm`, applied to a `Prompt`
 * that records what the calling node interpolated into its fixed wording;
 * the wording itself, and the selected technologies and job level that every
 * prompt but the greeting mentions, are folded into `llm`.
 */
module Interview {
  import opened Wrappers
  import opened Strings
  import opened Conversation

  /** The graph's nodes, with the START and END markers. */
  datatype Node = Start | RatingNode | ModelAnswerNode | CongratulationNode | CheckingNode | End

  /** Content of a graph-local entry: text, or the whole session record that `get_last_message` returned. */
  datatype Content = Text(text: string) | Record(message: Message)

  datatype Entry = Entry(role: Role, content: Content)

  /** What each call to the language model is asked about. */
  datatype Prompt =
    | GreetingPrompt
    | QuestionPrompt(conclusions: Message)
    | RatingPrompt(question: Content, answer: Content)
    | ModelAnswerPrompt(question: Content)
    | CongratulationPrompt(answer: Content)
    | AnalysisPrompt(recent: seq<Message>)

  /** The lowest rating that counts as a good answer. */
  const PassingScore: int := 7

  /** The fixed question-writing instruction that `checking_node` appends to the graph-local list (its wording is not modelled). */
  const NewQuestionPrompt: string := "ask one interview question"

  // ---------------------------------------------------------------- the router

  /**
   * `rating_mode`: a reply that `int` reads as a number below 7 routes to the
   * model answer, 7 or more to the congratulation, and anything `int` rejects
   * to the model answer.
   */
  function RatingMode(reply: string): (next: Node)
    ensures next == ModelAnswerNode || next == CongratulationNode
  {
    match ParseInt(reply)
    case Some(score) => if score < PassingScore then ModelAnswerNode else CongratulationNode
    case None => ModelAnswerNode
  }

  /** The router congratulates exactly when the reply is an integer of at least 7. */
  lemma RatingModeCongratulates(reply: string)
    ensures RatingMode(reply) == CongratulationNode <==>
      ParseInt(reply).Some? && ParseInt(reply).value >= PassingScore
    ensures ParseInt(reply).None? ==> RatingMode(reply) == ModelAnswerNode
  {
  }

  /** A reply holding the rendering of a score, with any whitespace around it, routes on that score. */
  lemma RatingOfScore(w1: string, score: int, w2: string)
    requires AllSpace(w1, IsIntSpace) && AllSpace(w2, IsIntSpace)
    ensures RatingMode(w1 + ShowInt(score) + w2) ==
      if score < PassingScore then ModelAnswerNode else CongratulationNode
  {
    ParsePaddedInt(w1, score, w2);
  }

  /** A rating of "5" routes to the model answer. */
  lemma RatingExampleLow()
    ensures RatingMode("5") == ModelAnswerNode
  {
    ParseShowInt(5);
    assert ShowInt(5) == "5";
  }

  /** A rating of "8" routes to the congratulation. */
  lemma RatingExampleHigh()
    ensures RatingMode("8") == CongratulationNode
  {
    ParseShowInt(8);
    assert ShowInt(8) == "8";
  }

  /** A rating in words, "seven", is no integer and routes to the model answer. */
  lemma RatingExampleWord()
    ensures RatingMode("seven") == ModelAnswerNode
  {
    assert TrimStart("seven", IsIntSpace) == "seven";
    assert TrimEnd("seven", IsIntSpace) == "seven";
    assert !IsDigit('s');
  }

  /** A rating of "8" behind an information separator is no integer to `int`, though `strip()` would drop the separator. */
  lemma RatingExampleSeparator()
    ensures RatingMode("\U{1C}8") == ModelAnswerNode
  {
    IntRejectsSeparator();
  }

  // ---------------------------------------------------------------- the graph

  /** Position of a node in the graph's order; every edge lowers it. */
  function Rank(n: Node): nat
  {
    match n
    case Start => 4
    case RatingNode => 3
    case ModelAnswerNode => 2
    case CongratulationNode => 2
    case CheckingNode => 1
    case End => 0
  }

  /**
   * The graph's edges: START to rating, the conditional edge out of rating
   * (which reads the rating reply, the last graph-local entry), both branches
   * to the check, and the check to END. `int` of a record raises a TypeError
   * that nothing catches, so the rating entry must be text.
   */
  function Successor(n: Node, g: seq<Entry>): (next: Node)
    requires n == RatingNode ==> g != [] && g[|g| - 1].content.Text?
    ensures n != End ==> Rank(next) < Rank(n)
    ensures n == RatingNode <==> next == ModelAnswerNode || next == CongratulationNode
  {
    match n
    case Start => RatingNode
    case RatingNode => RatingMode(g[|g| - 1].content.text)
    case ModelAnswerNode => CheckingNode
    case CongratulationNode => CheckingNode
    case CheckingNode => End
    case End => End
  }

  /**
   * How many entries of the graph-local list a node may read back: `[-2]` and
   * `[-1]` for the rating, `[-3]` for the model answer, and `[-3]` or `[-2]`
   * for the congratulation (see `Variant`).
   */
  function Reach(n: Node): nat
  {
    match n
    case RatingNode => 2
    case ModelAnswerNode => 3
    case CongratulationNode => 3
    case _ => 0
  }

  /** A node the graph can run on `g`: not START, and every positional read stays in range. */
  predicate Ready(n: Node, g: seq<Entry>)
  {
    n != Start && |g| >= Reach(n)
  }

  /**
   * Which entry `congratulation_node` reads. As written it reads `[-3]`,
   * which at that point is the question; its docstring and prompt evaluate
   * the candidate's answer, which sits at `[-2]` once the rating is appended.
   * The page runs `AsWritten`; `Corrected` is the evidently intended read.
   */
  datatype Variant = AsWritten | Corrected

  /** The entry the congratulation's prompt carries: `[-3]` as written, `[-2]` corrected. */
  function CongratulationSubject(v: Variant, g: seq<Entry>): (c: Content)
    requires |g| >= 3
    ensures c == g[|g| - (if v == AsWritten then 3 else 2)].content
  {
    match v
    case AsWritten => g[|g| - 3].content
    case Corrected => g[|g| - 2].content
  }

  /** The prompt a node sends, the graph-local list after it, and the session log after it. */
  datatype StepResult = StepResult(prompt: Prompt, graph: seq<Entry>, session: seq<Message>)

  /**
   * One node's effect. Each node appends one entry to the graph-local list;
   * each but the model answer also appends one message to the session log.
   * The check appends the fixed question instruction to the graph-local list
   * and its analysis to the session log.
   */
  function Step(n: Node, g: seq<Entry>, s: seq<Message>, v: Variant, llm: Prompt -> string): (r: StepResult)
    requires n != End && Ready(n, g)
    ensures |r.graph| == |g| + 1 && r.graph[..|g|] == g && r.graph[|g|].content.Text?
    ensures |r.session| >= |s| && r.session[..|s|] == s
    ensures |r.session| == |s| + (if n == ModelAnswerNode then 0 else 1)
    ensures Ready(Successor(n, r.graph), r.graph)
  {
    match n
    case RatingNode =>
      var p := RatingPrompt(g[|g| - 2].content, g[|g| - 1].content);
      var reply := llm(p);
      StepResult(p, g + [Entry(Assistant, Text(reply))], s + [Message(Assistant, reply)])
    case ModelAnswerNode =>
      var p := ModelAnswerPrompt(g[|g| - 3].content);
      StepResult(p, g + [Entry(Assistant, Text(llm(p)))], s)
    case CongratulationNode =>
      var p := CongratulationPrompt(CongratulationSubject(v, g));
      var reply := llm(p);
      StepResult(p, g + [Entry(Assistant, Text(reply))], s + [Message(Assistant, reply)])
    case CheckingNode =>
      var p := AnalysisPrompt(RecentWindow(s));
      StepResult(p, g + [Entry(Assistant, Text(NewQuestionPrompt))], s + [Message(Assistant, llm(p))])
  }

  /** The nodes run, the prompts sent, and both lists at the end of a graph invocation. */
  datatype Trace = Trace(path: seq<Node>, prompts: seq<Prompt>, graph: seq<Entry>, session: seq<Message>)

  /** `graph1.invoke` from node `n` on: run the node, follow its edge, stop at END. */
  function Walk(n: Node, g: seq<Entry>, s: seq<Message>, v: Variant, llm: Prompt -> string): (t: Trace)
    requires Ready(n, g)
    ensures |t.prompts| == |t.path| <= Rank(n)
    ensures |t.graph| == |g| + |t.path|
    ensures |t.session| >= |s|
    decreases Rank(n)
  {
    if n == End then Trace([], [], g, s)
    else
      var r := Step(n, g, s, v, llm);
      var next := Successor(n, r.graph);
      var rest := Walk(next, r.graph, r.session, v, llm);
      Trace([n] + rest.path, [r.prompt] + rest.prompts, rest.graph, rest.session)
  }

  /** `Walk` from a node other than END runs that node's step, then walks on from its successor, which is ready to run. */
  lemma WalkUnfold(n: Node, g: seq<Entry>, s: seq<Message>, v: Variant, llm: Prompt -> string)
    requires n != End && Ready(n, g)
    ensures var r := Step(n, g, s, v, llm);
      var next := Successor(n, r.graph);
      var rest := Walk(next, r.graph, r.session, v, llm);
      Ready(next, r.graph) && Rank(next) < Rank(n) &&
      Walk(n, g, s, v, llm) == Trace([n] + rest.path, [r.prompt] + rest.prompts, rest.graph, rest.session)
  {
  }

  /** One turn of the invocation loop: after running `n`, the nodes done so far plus the walk from the successor are the same run as before. */
  lemma WalkAdvance(n: Node, g: seq<Entry>, s: seq<Message>, v: Variant, llm: Prompt -> string, done: seq<Node>)
    requires n != End && Ready(n, g)
    ensures var r := Step(n, g, s, v, llm);
      var next := Successor(n, r.graph);
      var rest := Walk(next, r.graph, r.session, v, llm);
      var t := Walk(n, g, s, v, llm);
      && Ready(next, r.graph) && Rank(next) < Rank(n)
      && done + t.path == (done + [n]) + rest.path && t.graph == rest.graph && t.session == rest.session
  {
    WalkUnfold(n, g, s, v, llm);
  }

  /** The check, run last: one prompt over the recent session window, then END. */
  lemma WalkFromCheck(g: seq<Entry>, s: seq<Message>, v: Variant, llm: Prompt -> string)
    ensures var p := AnalysisPrompt(RecentWindow(s));
      Walk(CheckingNode, g, s, v, llm) ==
        Trace([CheckingNode], [p], g + [Entry(Assistant, Text(NewQuestionPrompt))], s + [Message(Assistant, llm(p))])
  {
    WalkUnfold(CheckingNode, g, s, v, llm);
  }

  /** The second node's prompt: the question for the model answer; for the congratulation, the question as written and the answer corrected. */
  function BranchPrompt(branch: Node, v: Variant, question: Content, answer: Content): Prompt
  {
    if branch == CongratulationNode then CongratulationPrompt(if v == AsWritten then question else answer)
    else ModelAnswerPrompt(question)
  }

  /**
   * The second half of a rating round, written out: on [.., question, answer]
   * with the rating appended, the branch's prompt reads the question (model
   * answer, and the congratulation as written) or the answer (the corrected
   * congratulation); only the congratulation writes to the session log; then
   * the check analyses the recent window.
   */
  function BranchRound(branch: Node, g: seq<Entry>, rating: string, s: seq<Message>, v: Variant, llm: Prompt -> string): Trace
    requires |g| >= 2
  {
    var p := BranchPrompt(branch, v, g[|g| - 2].content, g[|g| - 1].content);
    var beforeCheck := s + (if branch == CongratulationNode then [Message(Assistant, llm(p))] else []);
    var analysis := AnalysisPrompt(RecentWindow(beforeCheck));
    Trace([branch, CheckingNode], [p, analysis],
      g + [Entry(Assistant, Text(rating)), Entry(Assistant, Text(llm(p))), Entry(Assistant, Text(NewQuestionPrompt))],
      beforeCheck + [Message(Assistant, llm(analysis))])
  }

  /** Either branch, run on the list with the rating appended, is the written-out second half. */
  lemma WalkFromBranch(branch: Node, g: seq<Entry>, rating: string, s: seq<Message>, v: Variant, llm: Prompt -> string)
    requires branch == ModelAnswerNode || branch == CongratulationNode
    requires |g| >= 2
    ensures Walk(branch, g + [Entry(Assistant, Text(rating))], s, v, llm) == BranchRound(branch, g, rating, s, v, llm)
  {
    var g1 := g + [Entry(Assistant, Text(rating))];
    var p := BranchPrompt(branch, v, g[|g| - 2].content, g[|g| - 1].content);
    var r := Step(branch, g1, s, v, llm);
    assert r.prompt == p;
    assert r.graph == g1 + [Entry(Assistant, Text(llm(p)))];
    assert r.session == s + (if branch == CongratulationNode then [Message(Assistant, llm(p))] else []);
    WalkUnfold(branch, g1, s, v, llm);
    WalkFromCheck(r.graph, r.session, v, llm);
  }

  /**
   * The rating round written out as straight-line code: rate the answer
   * `[-1]` against the question `[-2]`, log the rating in both lists, then
   * the second half on the branch the rating picks.
   */
  function RatingRound(g: seq<Entry>, s: seq<Message>, v: Variant, llm: Prompt -> string): Trace
    requires |g| >= 2
  {
    var p := RatingPrompt(g[|g| - 2].content, g[|g| - 1].content);
    var rating := llm(p);
    var rest := BranchRound(RatingMode(rating), g, rating, s + [Message(Assistant, rating)], v, llm);
    Trace([RatingNode] + rest.path, [p] + rest.prompts, rest.graph, rest.session)
  }

  /** The rating node's step: it appends the rating to both lists, then the graph moves on to the branch the rating picks. */
  lemma WalkAfterRating(g: seq<Entry>, s: seq<Message>, v: Variant, llm: Prompt -> string)
    requires |g| >= 2
    ensures var p := RatingPrompt(g[|g| - 2].content, g[|g| - 1].content);
      var rest := Walk(RatingMode(llm(p)), g + [Entry(Assistant, Text(llm(p)))], s + [Message(Assistant, llm(p))], v, llm);
      Walk(RatingNode, g, s, v, llm) == Trace([RatingNode] + rest.path, [p] + rest.prompts, rest.graph, rest.session)
  {
    var p := RatingPrompt(g[|g| - 2].content, g[|g| - 1].content);
    var g1 := g + [Entry(Assistant, Text(llm(p)))];
    assert Step(RatingNode, g, s, v, llm) == StepResult(p, g1, s + [Message(Assistant, llm(p))]);
    assert Successor(RatingNode, g1) == RatingMode(llm(p));
    WalkUnfold(RatingNode, g, s, v, llm);
  }

  /** Running the graph from the rating node is the straight-line rating round. */
  lemma WalkFromRating(g: seq<Entry>, s: seq<Message>, v: Variant, llm: Prompt -> string)
    requires |g| >= 2
    ensures Walk(RatingNode, g, s, v, llm) == RatingRound(g, s, v, llm)
  {
    WalkAfterRating(g, s, v, llm);
    var p := RatingPrompt(g[|g| - 2].content, g[|g| - 1].content);
    WalkFromBranch(RatingMode(llm(p)), g, llm(p), s + [Message(Assistant, llm(p))], v, llm);
  }

  /** A graph invocation runs the rating node, exactly one of the two branches, and the check; each node adds one graph-local entry. */
  lemma ExactlyOneBranch(g: seq<Entry>, s: seq<Message>, v: Variant, llm: Prompt -> string)
    requires |g| >= 2
    ensures var t := Walk(RatingNode, g, s, v, llm);
      && (t.path == [RatingNode, ModelAnswerNode, CheckingNode] || t.path == [RatingNode, CongratulationNode, CheckingNode])
      && |t.graph| == |g| + 3
  {
    WalkFromRating(g, s, v, llm);
  }

  /** Corrected, the branch node reads its intended entry of [.., question, answer]: the model answer the question, the congratulation the answer. */
  lemma BranchReadsIntended(g: seq<Entry>, s: seq<Message>, llm: Prompt -> string)
    requires |g| >= 2
    ensures var t := Walk(RatingNode, g, s, Corrected, llm);
      && |t.path| == 3 && |t.prompts| == 3
      && (t.path[1] == CongratulationNode ==> t.prompts[1] == CongratulationPrompt(g[|g| - 1].content))
      && (t.path[1] == ModelAnswerNode ==> t.prompts[1] == ModelAnswerPrompt(g[|g| - 2].content))
  {
    WalkFromRating(g, s, Corrected, llm);
  }

  /**
   * As written, on the list a turn builds, [question record, answer], the
   * congratulation's prompt carries the question record and never the
   * answer it says it evaluates.
   */
  lemma CongratulationAsWrittenMissesAnswer(question: Message, answer: string, s: seq<Message>, llm: Prompt -> string)
    ensures var t := Walk(RatingNode, [Entry(System, Record(question)), Entry(Assistant, Text(answer))], s, AsWritten, llm);
      && |t.path| == 3 && |t.prompts| == 3
      && (t.path[1] == CongratulationNode ==>
            t.prompts[1] == CongratulationPrompt(Record(question)) && t.prompts[1] != CongratulationPrompt(Text(answer)))
  {
    WalkFromRating([Entry(System, Record(question)), Entry(Assistant, Text(answer))], s, AsWritten, llm);
  }

  /** The two readings differ in the congratulation's prompt alone: the path, the rating, the model-answer run and the list lengths agree. */
  lemma VariantsAgreeOnPath(g: seq<Entry>, s: seq<Message>, llm: Prompt -> string)
    requires |g| >= 2
    ensures var t := Walk(RatingNode, g, s, AsWritten, llm);
      var u := Walk(RatingNode, g, s, Corrected, llm);
      && t.path == u.path && t.prompts[0] == u.prompts[0] && t.graph[..|g| + 1] == u.graph[..|g| + 1]
      && |t.session| == |u.session|
      && (t.path[1] == ModelAnswerNode ==> t == u)
  {
    WalkFromRating(g, s, AsWritten, llm);
    WalkFromRating(g, s, Corrected, llm);
  }

  // ---------------------------------------------------------------- one turn

  /** The session log after one chat input, and the nodes the graph ran. */
  datatype TurnOutcome = TurnOutcome(path: seq<Node>, log: seq<Message>)

  /**
   * One submission of the chat box on a log `log`. Empty input does nothing.
   * On an empty log: the input, a greeting and a first question. Otherwise:
   * the input, then the rating graph on [previous entry as a record, the
   * input], then a new question built from the last session entry.
   */
  function Turn(log: seq<Message>, input: string, llm: Prompt -> string): TurnOutcome
  {
    if input == "" then TurnOutcome([], log)
    else if log == [] then
      var greeting := Message(Assistant, llm(GreetingPrompt));
      TurnOutcome([], [Message(User, input), greeting, Message(Assistant, llm(QuestionPrompt(greeting)))])
    else Resume(log, input, llm)
  }

  /** A turn on a log that already holds the question being answered. */
  function Resume(log: seq<Message>, input: string, llm: Prompt -> string): TurnOutcome
    requires log != []
  {
    var answered := log + [Message(User, input)];
    var g := [Entry(System, Record(answered[|answered| - 2])), Entry(Assistant, Text(input))];
    var t := Walk(RatingNode, g, answered, AsWritten, llm);
    var last := t.session[|t.session| - 1];
    TurnOutcome(t.path, t.session + [Message(Assistant, llm(QuestionPrompt(last)))])
  }

  /** The first turn on an empty log adds the input, the greeting and the first question, in that order. */
  lemma FirstTurn(input: string, llm: Prompt -> string)
    requires input != ""
    ensures var o := Turn([], input, llm);
      && |o.log| == 3
      && o.log[0] == Message(User, input)
      && o.log[1] == Message(Assistant, llm(GreetingPrompt))
      && o.log[2] == Message(Assistant, llm(QuestionPrompt(o.log[1])))
      && o.path == []
  {
  }

  /**
   * A later turn adds the answer, the rating, the congratulation only on that
   * branch, the analysis and the next question; the rating prompt carries the
   * last entry before the answer, which is the question being answered, and
   * so does the congratulation's prompt, which reads `[-3]`.
   */
  lemma LaterTurn(log: seq<Message>, input: string, llm: Prompt -> string)
    requires log != [] && input != ""
    ensures var question := Record(log[|log| - 1]);
      var rating := llm(RatingPrompt(question, Text(input)));
      var branch := RatingMode(rating);
      var praise := if branch == CongratulationNode then [Message(Assistant, llm(CongratulationPrompt(question)))] else [];
      var beforeCheck := log + [Message(User, input)] + [Message(Assistant, rating)] + praise;
      var analysis := Message(Assistant, llm(AnalysisPrompt(RecentWindow(beforeCheck))));
      var o := Turn(log, input, llm);
      && o.path == [RatingNode, branch, CheckingNode]
      && o.log == beforeCheck + [analysis] + [Message(Assistant, llm(QuestionPrompt(analysis)))]
  {
    ResumeRound(log, input, llm);
  }

  /** The rating round's path and session log, written out: the rating, the praise on the congratulation branch only, then the analysis. */
  lemma RatingRoundSession(g: seq<Entry>, s: seq<Message>, v: Variant, llm: Prompt -> string)
    requires |g| >= 2
    ensures var rating := llm(RatingPrompt(g[|g| - 2].content, g[|g| - 1].content));
      var branch := RatingMode(rating);
      var p := BranchPrompt(branch, v, g[|g| - 2].content, g[|g| - 1].content);
      var beforeCheck := s + [Message(Assistant, rating)] + (if branch == CongratulationNode then [Message(Assistant, llm(p))] else []);
      var t := RatingRound(g, s, v, llm);
      && t.path == [RatingNode, branch, CheckingNode]
      && t.session == beforeCheck + [Message(Assistant, llm(AnalysisPrompt(RecentWindow(beforeCheck))))]
  {
  }

  /** `Resume` runs the rating round on [the question as a record, the answer], then asks from the analysis. */
  lemma ResumeRound(log: seq<Message>, input: string, llm: Prompt -> string)
    requires log != []
    ensures var question := Record(log[|log| - 1]);
      var rating := llm(RatingPrompt(question, Text(input)));
      var branch := RatingMode(rating);
      var praise := if branch == CongratulationNode then [Message(Assistant, llm(CongratulationPrompt(question)))] else [];
      var beforeCheck := log + [Message(User, input)] + [Message(Assistant, rating)] + praise;
      var analysis := Message(Assistant, llm(AnalysisPrompt(RecentWindow(beforeCheck))));
      Resume(log, input, llm) == TurnOutcome([RatingNode, branch, CheckingNode], beforeCheck + [analysis] + [Message(Assistant, llm(QuestionPrompt(analysis)))])
  {
    var question := Record(log[|log| - 1]);
    var answered := log + [Message(User, input)];
    assert answered[|answered| - 2] == log[|log| - 1];
    var g := [Entry(System, question), Entry(Assistant, Text(input))];
    WalkFromRating(g, answered, AsWritten, llm);
    RatingRoundSession(g, answered, AsWritten, llm);
  }

  /** A turn only appends: every entry of the log it starts from stays, in place. */
  lemma TurnKeepsLog(log: seq<Message>, input: string, llm: Prompt -> string)
    ensures var o := Turn(log, input, llm);
      |o.log| >= |log| && o.log[..|log|] == log
  {
    if input != "" && log != [] {
      LaterTurn(log, input, llm);
      var o := Turn(log, input, llm);
      assert o.log[..|log|] == log;
    }
  }

  /** The session log grows by 0 on empty input, 3 on the first turn, then 5 on the congratulation path and 4 on the model-answer path. */
  lemma TurnGrowth(log: seq<Message>, input: string, llm: Prompt -> string)
    ensures var o := Turn(log, input, llm);
      |o.log| == |log| +
        if input == "" then 0
        else if log == [] then 3
        else if RatingMode(llm(RatingPrompt(Record(log[|log| - 1]), Text(input)))) == CongratulationNode then 5
        else 4
  {
    if input != "" {
      if log == [] {
        FirstTurn(input, llm);
      } else {
        LaterTurn(log, input, llm);
      }
    }
  }

  /**
   * After every non-empty turn the log ends with a question the assistant
   * asked from the entry before it, so the next turn's rating prompt embeds
   * that question.
   */
  lemma TurnEndsWithQuestion(log: seq<Message>, input: string, llm: Prompt -> string)
    requires input != ""
    ensures var l := Turn(log, input, llm).log;
      |l| >= 3 && l[|l| - 1] == Message(Assistant, llm(QuestionPrompt(l[|l| - 2])))
  {
    if log != [] {
      LaterTurn(log, input, llm);
    }
  }

  // ---------------------------------------------------------------- the imperative nodes

  /** `rating_node`: rates the answer against the question, logs the rating in both lists. */
  method Rate(st: GraphState<Entry>, session: SessionState, llm: Prompt -> string)
    requires |st.entries| >= 2 && session.graphState.Some?
    modifies st, session
    ensures var r := Step(RatingNode, old(st.entries), old(session.graphState.value), AsWritten, llm);
      st.entries == r.graph && session.graphState == Some(r.session)
  {
    var question := st.entries[|st.entries| - 2].content;
    var answer := st.entries[|st.entries| - 1];
    var reply := llm(RatingPrompt(question, answer.content));
    session.AddMessage(Assistant, reply);
    st.Append(Entry(Assistant, Text(reply)));
  }

  /** `model_answer_node`: writes a model answer to the question; only the graph-local list records it. */
  method GiveModelAnswer(st: GraphState<Entry>, session: SessionState, llm: Prompt -> string)
    requires |st.entries| >= 3 && session.graphState.Some?
    modifies st
    ensures var r := Step(ModelAnswerNode, old(st.entries), session.graphState.value, AsWritten, llm);
      st.entries == r.graph && session.graphState == Some(r.session)
  {
    var question := st.entries[|st.entries| - 3].content;
    var reply := llm(ModelAnswerPrompt(question));
    st.Append(Entry(Assistant, Text(reply)));
  }

  /** `congratulation_node`: praises what it reads at `[-3]`, logs the praise in both lists. */
  method Congratulate(st: GraphState<Entry>, session: SessionState, llm: Prompt -> string)
    requires |st.entries| >= 3 && session.graphState.Some?
    modifies st, session
    ensures var r := Step(CongratulationNode, old(st.entries), old(session.graphState.value), AsWritten, llm);
      st.entries == r.graph && session.graphState == Some(r.session)
  {
    var subject := st.entries[|st.entries| - 3].content;
    var reply := llm(CongratulationPrompt(subject));
    session.AddMessage(Assistant, reply);
    st.Append(Entry(Assistant, Text(reply)));
  }

  /** `checking_node`: analyses the recent session window into the session log; the graph-local list gets the question instruction. */
  method Check(st: GraphState<Entry>, session: SessionState, llm: Prompt -> string)
    requires session.graphState.Some?
    modifies st, session
    ensures var r := Step(CheckingNode, old(st.entries), old(session.graphState.value), AsWritten, llm);
      st.entries == r.graph && session.graphState == Some(r.session)
  {
    var recent := session.GetLastMessages();
    var analysis := llm(AnalysisPrompt(recent));
    session.AddMessage(Assistant, analysis);
    st.Append(Entry(Assistant, Text(NewQuestionPrompt)));
  }

  /** Runs the node `n`: the imperative counterpart of `Step`. */
  method RunNode(n: Node, st: GraphState<Entry>, session: SessionState, llm: Prompt -> string)
    requires n != End && Ready(n, st.entries) && session.graphState.Some?
    modifies st, session
    ensures var r := Step(n, old(st.entries), old(session.graphState.value), AsWritten, llm);
      st.entries == r.graph && session.graphState == Some(r.session)
  {
    match n {
      case RatingNode => Rate(st, session, llm);
      case ModelAnswerNode => GiveModelAnswer(st, session, llm);
      case CongratulationNode => Congratulate(st, session, llm);
      case CheckingNode => Check(st, session, llm);
    }
  }

  /** `graph1.invoke`: runs nodes from START along `Successor` until END, as `Walk` describes. */
  method Invoke(st: GraphState<Entry>, session: SessionState, llm: Prompt -> string) returns (path: seq<Node>)
    requires |st.entries| >= 2 && session.graphState.Some?
    modifies st, session
    ensures var t := Walk(Successor(Start, old(st.entries)), old(st.entries), old(session.graphState.value), AsWritten, llm);
      path == t.path && st.entries == t.graph && session.graphState == Some(t.session)
  {
    ghost var whole := Walk(RatingNode, st.entries, session.graphState.value, AsWritten, llm);
    var cur := Successor(Start, st.entries);
    path := [];
    while cur != End
      invariant session.graphState.Some? && Ready(cur, st.entries)
      invariant var rest := Walk(cur, st.entries, session.graphState.value, AsWritten, llm);
        path + rest.path == whole.path && rest.graph == whole.graph && rest.session == whole.session
      decreases Rank(cur)
    {
      WalkAdvance(cur, st.entries, session.graphState.value, AsWritten, llm, path);
      RunNode(cur, st, session, llm);
      path := path + [cur];
      cur := Successor(cur, st.entries);
    }
  }

  /** `run`: asks the next question, built from the given conclusions, and logs it. */
  method Run(session: SessionState, conclusions: Message, llm: Prompt -> string) returns (question: string)
    requires session.graphState.Some?
    modifies session
    ensures question == llm(QuestionPrompt(conclusions))
    ensures session.graphState == Some(old(session.graphState.value) + [Message(Assistant, question)])
  {
    question := llm(QuestionPrompt(conclusions));
    session.AddMessage(Assistant, question);
  }

  /** The log a session store holds, reading a missing one as empty (what `initialize_state` makes of it). */
  function Stored(o: Option<seq<Message>>): seq<Message>
  {
    match o
    case Some(log) => log
    case None => []
  }

  /** The first submission on an empty log: log the input, greet, and ask the first question from the greeting. */
  method Open(session: SessionState, input: string, llm: Prompt -> string)
    requires session.graphState == Some([]) && input != ""
    modifies session
    ensures session.graphState == Some(Turn([], input, llm).log)
  {
    session.AddMessage(User, input);
    var greeting := llm(GreetingPrompt);
    session.AddMessage(Assistant, greeting);
    var conclusions := session.GetMessage();
    var question := Run(session, conclusions.value, llm);
    assert session.graphState.value == [Message(User, input), Message(Assistant, greeting), Message(Assistant, question)];
  }

  /** A later submission: log the answer, run the graph on [the entry before it, the answer], then ask the next question from the last session entry. */
  method Answer(session: SessionState, input: string, llm: Prompt -> string) returns (path: seq<Node>)
    requires session.graphState.Some? && session.graphState.value != [] && input != ""
    modifies session
    ensures var o := Resume(old(session.graphState.value), input, llm);
      session.graphState == Some(o.log) && path == o.path
  {
    ghost var log := session.graphState.value;
    session.AddMessage(User, input);
    ghost var answered := log + [Message(User, input)];
    var previous := session.GetLastMessage();
    var g := [Entry(System, Record(previous.value)), Entry(Assistant, Text(input))];
    assert g == [Entry(System, Record(answered[|answered| - 2])), Entry(Assistant, Text(input))];
    ghost var t := Walk(RatingNode, g, answered, AsWritten, llm);
    var st := new GraphState(g);
    path := Invoke(st, session, llm);
    assert session.graphState == Some(t.session) && path == t.path;
    var conclusions := session.GetMessage();
    var question := Run(session, conclusions.value, llm);
    assert Resume(log, input, llm) == TurnOutcome(t.path, t.session + [Message(Assistant, question)]);
  }

  /** The chat-input handling of `app`: one submission of `input`, as `Turn` describes. */
  method HandleInput(session: SessionState, input: string, llm: Prompt -> string) returns (path: seq<Node>)
    modifies session
    ensures var o := Turn(Stored(old(session.graphState)), input, llm);
      session.graphState == Some(o.log) && path == o.path
  {
    session.InitializeState();
    path := [];
    if input != "" {
      if |session.graphState.value| == 0 {
        Open(session, input, llm);
      } else {
        path := Answer(session, input, llm);
      }
    }
  }

  /** The first submission in a new browser session, whose store has no log yet: handled as `Turn` on an empty log. */
  method FreshSession(input: string, llm: Prompt -> string) returns (session: SessionState, path: seq<Node>)
    ensures session.graphState == Some(Turn([], input, llm).log) && path == []
  {
    session := new SessionState();
    path := HandleInput(session, input, llm);
  }
}
