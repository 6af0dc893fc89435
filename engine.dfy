/**
 * The graph-execution interpreter.  A graph names its nodes (each bound to a
 * registered tool and a config), gives at most one outgoing edge per node,
 * a start node and a step ceiling.  A run walks the graph from the start
 * node, calls each node's tool on the state, logs every step, and routes
 * along the edges until the end sentinel, a missing node, an unregistered
 * tool, a tool that raises, or the step ceiling stops it.
 *
 * The run is first defined as functions (Iterate, Loop, Epilogue, RunGraph);
 * the interpreter itself, RunGraphExecution, is the imperative loop, proved
 * to compute exactly that.
 */
module Engine {
  import opened Values
  import opened Registry

  /** The edge target that ends a run. */
  const End: string := "__end__"

  /** A node of the graph as submitted: `tool_name` and `config` may be absent. */
  datatype NodeData = NodeData(toolName: Option<string>, config: Option<State>)

  /** A node once validated into the engine's record. */
  datatype NodeDefinition = NodeDefinition(name: string, toolName: string, config: State)

  /**
   * The outgoing edge of a node: a plain next-node name (or the end
   * sentinel), a conditional record whose fields may be absent, or any other
   * shape (a dict whose "type" is not "conditional", a number, a list, ...).
   */
  datatype EdgeDef =
    | Plain(target: string)
    | Conditional(conditionKey: Option<string>, operator: Option<string>, value: Option<Value>,
                  trueNext: Option<string>, falseNext: Option<string>)
    | OtherShape

  datatype Graph = Graph(nodes: map<string, NodeData>, edges: map<string, EdgeDef>,
                         startNode: string, maxSteps: int)

  datatype LogEntry = LogEntry(node: string, stateSnapshot: State, message: string)

  /** The operators a conditional edge understands. */
  const Operators: set<string> := {"lt", "lte", "gt", "gte", "eq", "ne"}
  const OrderingOperators: set<string> := {"lt", "lte", "gt", "gte"}

  /**
   * Compares `state[key]` (None when the key is absent) with the literal
   * `value`.  An operator outside the six known ones gives false; `eq` and
   * `ne` never raise; the ordering operators raise TypeError on operands
   * Python cannot order.
   */
  function EvaluateCondition(state: State, key: string, operator: string, value: Value): (r: Result<bool>)
    ensures operator !in Operators ==> r == Ok(false)
    ensures r.Err? ==> operator in OrderingOperators
    ensures r.Err? ==> r.error.TypeError?
  {
    var left := Get(state, key, Null);
    if operator == "lt" then Compare(Lt, left, value)
    else if operator == "lte" then Compare(Le, left, value)
    else if operator == "gt" then Compare(Gt, left, value)
    else if operator == "gte" then Compare(Ge, left, value)
    else if operator == "eq" then Ok(Equal(left, value))
    else if operator == "ne" then Ok(!Equal(left, value))
    else Ok(false)
  }

  /**
   * The exceptions edge resolution lets escape: the KeyError of a
   * conditional edge without one of its three mandatory fields, or the
   * TypeError of an ordering condition.
   */
  predicate EdgeError(e: Exception) {
    e.TypeError? || e == KeyError("condition_key") || e == KeyError("operator") || e == KeyError("value")
  }

  /**
   * The node after the current one: the plain target unless it is the end
   * sentinel, the chosen branch of a conditional edge unless it is the end
   * sentinel or absent, and no node for an absent edge or any other shape.
   * A conditional edge without `condition_key`, `operator` or `value`
   * raises KeyError; an ordering condition may raise TypeError.
   */
  function ResolveNextNode(edge: Option<EdgeDef>, state: State): (r: Result<Option<string>>)
    ensures r.Ok? && r.value.Some? ==> r.value.value != End
    ensures r.Err? ==> edge.Some? && edge.value.Conditional?
    ensures r.Err? ==> EdgeError(r.error)
  {
    match edge
    case None => Ok(None)
    case Some(Plain(target)) => if target == End then Ok(None) else Ok(Some(target))
    case Some(Conditional(key, operator, value, trueNext, falseNext)) =>
      if key.None? then Err(KeyError("condition_key"))
      else if operator.None? then Err(KeyError("operator"))
      else if value.None? then Err(KeyError("value"))
      else
        var outcome :- EvaluateCondition(state, key.value, operator.value, value.value);
        var chosen := if outcome then trueNext else falseNext;
        if chosen == Some(End) then Ok(None) else Ok(chosen)
    case Some(OtherShape) => Ok(None)
  }

  function Definition(name: string, data: NodeData): NodeDefinition
    requires data.toolName.Some?
  {
    NodeDefinition(name, data.toolName.value, data.config.GetOr(map[]))
  }

  /** The node records of a graph, or the KeyError for a node without `tool_name`. */
  function NodeDefs(raw: map<string, NodeData>): (r: Result<map<string, NodeDefinition>>)
    ensures r.Ok? <==> forall n :: n in raw ==> raw[n].toolName.Some?
    ensures r.Err? ==> r.error == KeyError("tool_name")
    ensures r.Ok? ==> r.value.Keys == raw.Keys
    ensures r.Ok? ==> forall n :: n in r.value ==>
              && r.value[n].name == n
              && Some(r.value[n].toolName) == raw[n].toolName
              && r.value[n].config == raw[n].config.GetOr(map[])
  {
    if forall n :: n in raw ==> raw[n].toolName.Some? then
      Ok(map n | n in raw :: Definition(n, raw[n]))
    else
      Err(KeyError("tool_name"))
  }

  function EdgeOf(edges: map<string, EdgeDef>, name: string): Option<EdgeDef> {
    if name in edges then Some(edges[name]) else None
  }

  function NodeNotFoundMessage(name: string): string {
    "Node '" + name + "' not found. Stopping execution."
  }

  function ExecutedMessage(toolName: string): string {
    "Executed tool '" + toolName + "'"
  }

  function ErrorMessage(message: string): string {
    "Error during execution: " + message
  }

  function LimitMessage(maxSteps: int): (r: string)
    ensures |r| > 0 && r[0] == 'M'
  {
    "Max steps " + IntText(maxSteps) + " reached, stopping to avoid infinite loop."
  }

  /** `current_node_name or "unknown"`: None and the empty name are both falsy. */
  function Label(current: Option<string>): string {
    match current
    case None => "unknown"
    case Some(name) => if name == "" then "unknown" else name
  }

  /** The variables the interpreter's loop threads: state, current node, step count, log. */
  datatype Run = Run(state: State, current: Option<string>, steps: int, log: seq<LogEntry>)

  /** The outcome of one pass through the loop body: go round again, or `break`. */
  datatype Iteration = Continue(run: Run) | Break(run: Run)

  function Start(g: Graph, initial: State): Run {
    Run(initial, Some(g.startNode), 0, [])
  }

  /**
   * One pass of the loop body at node `run.current`.  Every pass that does
   * not raise appends exactly one log entry for the current node.  A missing
   * node, an unregistered tool and a raising tool break out of the loop with
   * the step count unchanged; a tool that returns moves on to the resolved
   * next node with the step count one higher and logs the state it left.
   * Only edge resolution raises.
   */
  function Iterate(g: Graph, defs: map<string, NodeDefinition>, tools: map<string, ToolFunc>, run: Run): (r: Result<Iteration>)
    requires run.current.Some?
    ensures r.Ok? ==> |r.value.run.log| == |run.log| + 1 && r.value.run.log[..|run.log|] == run.log
    ensures r.Ok? ==> r.value.run.log[|run.log|].node == run.current.value
    ensures r.Ok? ==> r.value.run.log[|run.log|].stateSnapshot == r.value.run.state
    ensures r.Ok? && r.value.Break? ==> r.value.run.steps == run.steps && r.value.run.current == run.current
    ensures r.Ok? && r.value.Continue? ==>
              && run.current.value in defs
              && r.value.run.steps == run.steps + 1
              && r.value.run.log[|run.log|].message == ExecutedMessage(defs[run.current.value].toolName)
    ensures r.Err? ==> run.current.value in defs && defs[run.current.value].toolName in tools
    ensures r.Err? ==>
              && tools[defs[run.current.value].toolName](run.state, defs[run.current.value].config).Returned?
              && EdgeError(r.error)
  {
    var name := run.current.value;
    if name !in defs then
      Ok(Break(run.(log := run.log + [LogEntry(name, run.state, NodeNotFoundMessage(name))])))
    else
      var def := defs[name];
      match Lookup(tools, def.toolName)
      case Err(e) =>
        Ok(Break(run.(log := run.log + [LogEntry(name, run.state, e.Text())])))
      case Ok(tool) =>
        match tool(run.state, def.config)
        case Raised(after, message) =>
          Ok(Break(run.(state := after, log := run.log + [LogEntry(name, after, ErrorMessage(message))])))
        case Returned(after, result) =>
          var state := result.GetOr(after);
          var log := run.log + [LogEntry(name, state, ExecutedMessage(def.toolName))];
          var next :- ResolveNextNode(EdgeOf(g.edges, name), state);
          Ok(Continue(Run(state, next, run.steps + 1, log)))
  }

  /** The `while` loop: iterate while there is a current node and fewer than `maxSteps` steps. */
  function Loop(g: Graph, defs: map<string, NodeDefinition>, tools: map<string, ToolFunc>, run: Run): Result<Run>
    decreases g.maxSteps - run.steps
  {
    if run.current.None? || run.steps >= g.maxSteps then Ok(run)
    else
      match Iterate(g, defs, tools, run)
      case Err(e) => Err(e)
      case Ok(Break(stopped)) => Ok(stopped)
      case Ok(Continue(next)) => Loop(g, defs, tools, next)
  }

  /** A step that continues leaves the rest of the loop to the next run. */
  lemma LoopContinues(g: Graph, defs: map<string, NodeDefinition>, tools: map<string, ToolFunc>, run: Run, next: Run)
    requires run.current.Some? && run.steps < g.maxSteps
    requires Iterate(g, defs, tools, run) == Ok(Continue(next))
    ensures Loop(g, defs, tools, run) == Loop(g, defs, tools, next)
  {
  }

  /** A step that breaks ends the loop with the run it produced. */
  lemma LoopBreaks(g: Graph, defs: map<string, NodeDefinition>, tools: map<string, ToolFunc>, run: Run, stopped: Run)
    requires run.current.Some? && run.steps < g.maxSteps
    requires Iterate(g, defs, tools, run) == Ok(Break(stopped))
    ensures Loop(g, defs, tools, run) == Ok(stopped)
  {
  }

  /** A step that raises ends the loop with the same exception. */
  lemma LoopRaises(g: Graph, defs: map<string, NodeDefinition>, tools: map<string, ToolFunc>, run: Run, e: Exception)
    requires run.current.Some? && run.steps < g.maxSteps
    requires Iterate(g, defs, tools, run) == Err(e)
    ensures Loop(g, defs, tools, run) == Err(e)
  {
  }

  /**
   * The only exceptions that escape the loop are those of edge resolution:
   * whatever a tool raises is caught and logged.
   */
  lemma {:induction false} LoopRaisesOnlyEdgeErrors(g: Graph, defs: map<string, NodeDefinition>, tools: map<string, ToolFunc>, run: Run)
    ensures Loop(g, defs, tools, run).Err? ==> EdgeError(Loop(g, defs, tools, run).error)
    decreases g.maxSteps - run.steps
  {
    if run.current.Some? && run.steps < g.maxSteps {
      var pass := Iterate(g, defs, tools, run);
      if pass.Ok? && pass.value.Continue? {
        LoopRaisesOnlyEdgeErrors(g, defs, tools, pass.value.run);
      }
    }
  }

  /** After the loop: the step-limit entry, appended exactly when the step count reached the ceiling. */
  function Epilogue(g: Graph, run: Run): (r: seq<LogEntry>)
    ensures |r| == |run.log| + (if run.steps >= g.maxSteps then 1 else 0)
    ensures r[..|run.log|] == run.log
    ensures run.steps >= g.maxSteps ==>
              r[|run.log|] == LogEntry(Label(run.current), run.state, LimitMessage(g.maxSteps))
  {
    if run.steps >= g.maxSteps then
      run.log + [LogEntry(Label(run.current), run.state, LimitMessage(g.maxSteps))]
    else
      run.log
  }

  /** A whole run: the final state and the log, or the exception that escaped. */
  function RunGraph(g: Graph, initial: State, tools: map<string, ToolFunc>): Result<(State, seq<LogEntry>)> {
    var defs :- NodeDefs(g.nodes);
    var last :- Loop(g, defs, tools, Start(g, initial));
    Ok((last.state, Epilogue(g, last)))
  }

  /**
   * A whole run raises only the KeyError of a node without `tool_name` --
   * and then some node lacks one -- or an exception of edge resolution.
   */
  lemma RunGraphRaises(g: Graph, initial: State, tools: map<string, ToolFunc>)
    ensures var r := RunGraph(g, initial, tools);
            && (r.Err? ==> r.error == KeyError("tool_name") || EdgeError(r.error))
            && (r.Err? && r.error == KeyError("tool_name") ==> !WellFormedNodes(g))
  {
    if NodeDefs(g.nodes).Ok? {
      LoopRaisesOnlyEdgeErrors(g, NodeDefs(g.nodes).value, tools, Start(g, initial));
    }
  }

  /** Builds the node records one node at a time, raising KeyError at a node without `tool_name`. */
  method BuildNodeDefs(raw: map<string, NodeData>) returns (r: Result<map<string, NodeDefinition>>)
    ensures r == NodeDefs(raw)
  {
    var defs: map<string, NodeDefinition> := map[];
    var pending := raw.Keys;
    while pending != {}
      invariant pending <= raw.Keys
      invariant defs.Keys == raw.Keys - pending
      invariant forall n :: n in defs ==> raw[n].toolName.Some? && defs[n] == Definition(n, raw[n])
      decreases pending
    {
      var name :| name in pending;
      var data := raw[name];
      if data.toolName.None? {
        return Err(KeyError("tool_name"));
      }
      defs := defs[name := Definition(name, data)];
      pending := pending - {name};
    }
    assert defs == map n | n in raw :: Definition(n, raw[n]);
    r := Ok(defs);
  }

  /** The interpreter: runs `graph` from `initialState`, dispatching tools through `registry`. */
  method RunGraphExecution(graph: Graph, initialState: State, registry: ToolRegistry)
    returns (r: Result<(State, seq<LogEntry>)>)
    ensures r == RunGraph(graph, initialState, registry.tools)
  {
    var defs :- BuildNodeDefs(graph.nodes);
    var state := initialState;
    var log: seq<LogEntry> := [];
    var current: Option<string> := Some(graph.startNode);
    var steps := 0;
    ghost var outcome := Loop(graph, defs, registry.tools, Start(graph, initialState));

    while current.Some? && steps < graph.maxSteps
      invariant Loop(graph, defs, registry.tools, Run(state, current, steps, log)) == outcome
      decreases graph.maxSteps - steps
    {
      ghost var before := Run(state, current, steps, log);
      ghost var pass := Iterate(graph, defs, registry.tools, before);
      var name := current.value;
      if name !in defs {
        log := log + [LogEntry(name, state, NodeNotFoundMessage(name))];
        assert pass == Ok(Break(Run(state, current, steps, log)));
        LoopBreaks(graph, defs, registry.tools, before, Run(state, current, steps, log));
        break;
      }
      var def := defs[name];
      var found := registry.Get(def.toolName);
      if found.Err? {
        log := log + [LogEntry(name, state, found.error.Text())];
        assert pass == Ok(Break(Run(state, current, steps, log)));
        LoopBreaks(graph, defs, registry.tools, before, Run(state, current, steps, log));
        break;
      }
      var tool := found.value;
      var called := tool(state, def.config);
      if called.Raised? {
        state := called.mutated;
        log := log + [LogEntry(name, state, ErrorMessage(called.message))];
        assert pass == Ok(Break(Run(state, current, steps, log)));
        LoopBreaks(graph, defs, registry.tools, before, Run(state, current, steps, log));
        break;
      }
      state := called.result.GetOr(called.mutated);
      log := log + [LogEntry(name, state, ExecutedMessage(def.toolName))];
      var next := ResolveNextNode(EdgeOf(graph.edges, name), state);
      if next.Err? {
        assert pass == Err(next.error);
        LoopRaises(graph, defs, registry.tools, before, next.error);
        return Err(next.error);
      }
      current := next.value;
      steps := steps + 1;
      LoopContinues(graph, defs, registry.tools, before, Run(state, current, steps, log));
    }
    assert outcome == Ok(Run(state, current, steps, log));
    RunGraphOf(graph, initialState, registry.tools, defs, Run(state, current, steps, log));

    if steps >= graph.maxSteps {
      log := log + [LogEntry(Label(current), state, LimitMessage(graph.maxSteps))];
    }
    r := Ok((state, log));
  }

  // ---------------------------------------------------------------------
  // Conditions and edges
  // ---------------------------------------------------------------------

  /** `eq` and `ne` never raise, and `ne` is exactly the negation of `eq`. */
  lemma EqualityConditionsNeverRaise(state: State, key: string, value: Value)
    ensures EvaluateCondition(state, key, "eq", value).Ok?
    ensures EvaluateCondition(state, key, "ne", value).Ok?
    ensures EvaluateCondition(state, key, "ne", value).value == !EvaluateCondition(state, key, "eq", value).value
  {
  }

  /** An ordering condition on a key the state does not hold compares None, and raises TypeError. */
  lemma OrderingOnMissingKeyRaises(state: State, key: string, operator: string, value: Value)
    requires key !in state && operator in OrderingOperators
    ensures EvaluateCondition(state, key, operator, value).Err?
    ensures EvaluateCondition(state, key, operator, value).error.TypeError?
  {
  }

  /**
   * The four ordering conditions raise on the same states, and when they do
   * not, `lte` is `lt` or `eq`, `gte` is `gt` or `eq`, and exactly one of
   * `lt`, `eq`, `gt` holds.
   */
  lemma OrderingConditionsAgree(state: State, key: string, value: Value)
    ensures var lt, lte := EvaluateCondition(state, key, "lt", value), EvaluateCondition(state, key, "lte", value);
            var gt, gte := EvaluateCondition(state, key, "gt", value), EvaluateCondition(state, key, "gte", value);
            var eq := EvaluateCondition(state, key, "eq", value).value;
            && lt.Ok? == lte.Ok? == gt.Ok? == gte.Ok?
            && (lt.Ok? ==> && lte.value == (lt.value || eq)
                           && gte.value == (gt.value || eq)
                           && (lt.value || eq || gt.value)
                           && !(lt.value && gt.value))
  {
    var left := Get(state, key, Null);
    assert EvaluateCondition(state, key, "lt", value) == Compare(Lt, left, value);
    assert EvaluateCondition(state, key, "lte", value) == Compare(Le, left, value);
    assert EvaluateCondition(state, key, "gt", value) == Compare(Gt, left, value);
    assert EvaluateCondition(state, key, "gte", value) == Compare(Ge, left, value);
    assert EvaluateCondition(state, key, "eq", value) == Ok(Equal(left, value));
    OrderingsAgree(left, value);
  }

  /** The ordering comparisons of one pair of operands, related to each other and to equality. */
  lemma OrderingsAgree(left: Value, value: Value)
    ensures var lt, lte, gt, gte := Compare(Lt, left, value), Compare(Le, left, value),
                                    Compare(Gt, left, value), Compare(Ge, left, value);
            && lt.Ok? == lte.Ok? == gt.Ok? == gte.Ok?
            && (lt.Ok? ==> && lte.value == (lt.value || Equal(left, value))
                           && gte.value == (gt.value || Equal(left, value))
                           && (lt.value || Equal(left, value) || gt.value)
                           && !(lt.value && gt.value))
  {
    CompareRaisesRegardlessOfOperator(Lt, Le, left, value);
    CompareRaisesRegardlessOfOperator(Lt, Gt, left, value);
    CompareRaisesRegardlessOfOperator(Lt, Ge, left, value);
    CompareLeIsLtOrEqual(left, value);
    CompareLeIsLtOrEqual(value, left);
    CompareConverse(Gt, Lt, value, left);
    CompareConverse(Ge, Le, value, left);
    EqualSymmetric(left, value);
    if Compare(Lt, left, value).Ok? {
      CompareTrichotomy(left, value);
    }
  }

  /** With {x: 5} the edge {x gte 5 -> A, else B} leads to A; with {x: 4} it leads to B. */
  lemma ConditionalEdgeExample()
    ensures ResolveNextNode(Some(Conditional(Some("x"), Some("gte"), Some(Int(5)), Some("A"), Some("B"))),
                            map["x" := Int(5)]) == Ok(Some("A"))
    ensures ResolveNextNode(Some(Conditional(Some("x"), Some("gte"), Some(Int(5)), Some("A"), Some("B"))),
                            map["x" := Int(4)]) == Ok(Some("B"))
  {
  }

  /**
   * Edge resolution, case by case: the end sentinel gives no node, any other
   * plain name is returned as it is (existing node or not), an absent edge
   * or an unrecognised shape gives no node, and a conditional edge gives the
   * branch its condition selects, with the end sentinel and a missing
   * branch both giving no node.
   */
  lemma ResolveNextNodeCases(edge: Option<EdgeDef>, state: State)
    ensures edge == Some(Plain(End)) ==> ResolveNextNode(edge, state) == Ok(None)
    ensures edge.Some? && edge.value.Plain? && edge.value.target != End ==>
              ResolveNextNode(edge, state) == Ok(Some(edge.value.target))
    ensures edge.None? || edge == Some(OtherShape) ==> ResolveNextNode(edge, state) == Ok(None)
    ensures edge.Some? && edge.value.Conditional? && edge.value.conditionKey.None? ==>
              ResolveNextNode(edge, state) == Err(KeyError("condition_key"))
    ensures edge.Some? && edge.value.Conditional? && edge.value.conditionKey.Some? && edge.value.operator.None? ==>
              ResolveNextNode(edge, state) == Err(KeyError("operator"))
    ensures edge.Some? && edge.value.Conditional? && edge.value.conditionKey.Some? && edge.value.operator.Some?
              && edge.value.value.None? ==>
              ResolveNextNode(edge, state) == Err(KeyError("value"))
    ensures edge.Some? && edge.value.Conditional? ==>
              var e := edge.value;
              e.conditionKey.Some? && e.operator.Some? && e.value.Some? ==>
                match EvaluateCondition(state, e.conditionKey.value, e.operator.value, e.value.value)
                case Err(x) => ResolveNextNode(edge, state) == Err(x)
                case Ok(holds) =>
                  var chosen := if holds then e.trueNext else e.falseNext;
                  ResolveNextNode(edge, state) == Ok(if chosen.None? || chosen == Some(End) then None else chosen)
  {
  }

  // ---------------------------------------------------------------------
  // How a run stops
  // ---------------------------------------------------------------------

  /** The loop stopped at a `break`: it still has a current node and steps to spare. */
  predicate StoppedEarly(g: Graph, run: Run) {
    run.current.Some? && run.steps < g.maxSteps
  }

  /**
   * At a node the graph does not define: exactly one entry for that node,
   * the state unchanged, the loop stopped, and no step-limit entry after it.
   */
  lemma MissingNodeStopsRun(g: Graph, defs: map<string, NodeDefinition>, tools: map<string, ToolFunc>, run: Run)
    requires run.current.Some? && run.current.value !in defs && run.steps < g.maxSteps
    ensures var name := run.current.value;
            Loop(g, defs, tools, run) == Ok(run.(log := run.log + [LogEntry(name, run.state, NodeNotFoundMessage(name))]))
    ensures Epilogue(g, Loop(g, defs, tools, run).value) == Loop(g, defs, tools, run).value.log
  {
  }

  /**
   * At a node whose tool was never registered: exactly one entry carrying
   * the registry's KeyError text, the state unchanged, the loop stopped, and
   * no step-limit entry after it.
   */
  lemma UnregisteredToolStopsRun(g: Graph, defs: map<string, NodeDefinition>, tools: map<string, ToolFunc>, run: Run)
    requires run.current.Some? && run.current.value in defs && run.steps < g.maxSteps
    requires defs[run.current.value].toolName !in tools
    ensures var name := run.current.value;
            var text := Repr(NotRegisteredMessage(defs[name].toolName));
            Loop(g, defs, tools, run) == Ok(run.(log := run.log + [LogEntry(name, run.state, text)]))
    ensures Epilogue(g, Loop(g, defs, tools, run).value) == Loop(g, defs, tools, run).value.log
  {
  }

  /**
   * A tool that raises: one "Error during execution" entry with the state
   * the tool left, the loop stopped with the step count unchanged, and no
   * step-limit entry after it.
   */
  lemma RaisingToolStopsRun(g: Graph, defs: map<string, NodeDefinition>, tools: map<string, ToolFunc>, run: Run)
    requires run.current.Some? && run.current.value in defs && run.steps < g.maxSteps
    requires var def := defs[run.current.value];
             def.toolName in tools && tools[def.toolName](run.state, def.config).Raised?
    ensures var name := run.current.value;
            var def := defs[name];
            var outcome := tools[def.toolName](run.state, def.config);
            Loop(g, defs, tools, run) ==
              Ok(Run(outcome.mutated, run.current, run.steps,
                     run.log + [LogEntry(name, outcome.mutated, ErrorMessage(outcome.message))]))
    ensures Epilogue(g, Loop(g, defs, tools, run).value) == Loop(g, defs, tools, run).value.log
  {
  }

  /**
   * A tool that returns: the returned dict becomes the state, or, when it
   * returned None, the dict it was given (with whatever it changed in place)
   * stays the state; one "Executed tool" entry records it; the step count
   * goes up by one; and the run goes on to the node the edge resolves to.
   */
  lemma ReturningToolAdvances(g: Graph, defs: map<string, NodeDefinition>, tools: map<string, ToolFunc>, run: Run)
    requires run.current.Some? && run.current.value in defs
    requires var def := defs[run.current.value];
             def.toolName in tools && tools[def.toolName](run.state, def.config).Returned?
    ensures var name := run.current.value;
            var def := defs[name];
            var outcome := tools[def.toolName](run.state, def.config);
            var state := if outcome.result.None? then outcome.mutated else outcome.result.value;
            match ResolveNextNode(EdgeOf(g.edges, name), state)
            case Err(e) => Iterate(g, defs, tools, run) == Err(e)
            case Ok(next) =>
              Iterate(g, defs, tools, run) ==
                Ok(Continue(Run(state, next, run.steps + 1,
                                run.log + [LogEntry(name, state, ExecutedMessage(def.toolName))])))
  {
  }

  /** A tool that returns None and changes nothing in place leaves the state exactly as it was. */
  lemma NoOpToolKeepsState(g: Graph, defs: map<string, NodeDefinition>, tools: map<string, ToolFunc>, run: Run)
    requires run.current.Some? && run.current.value in defs
    requires var def := defs[run.current.value];
             def.toolName in tools && tools[def.toolName](run.state, def.config) == Returned(run.state, None)
    requires Iterate(g, defs, tools, run).Ok?
    ensures Iterate(g, defs, tools, run).value.run.state == run.state
  {
  }

  /**
   * An edge that resolves to no node (the end sentinel on the taken branch,
   * an absent edge, ...) ends the run right after the step, whatever budget
   * remains; only if that was the last allowed step does the step-limit entry
   * follow, labelled "unknown".
   */
  lemma EndStopsRun(g: Graph, defs: map<string, NodeDefinition>, tools: map<string, ToolFunc>, run: Run)
    requires run.current.Some? && run.steps < g.maxSteps
    requires Iterate(g, defs, tools, run).Ok? && Iterate(g, defs, tools, run).value.Continue?
    requires Iterate(g, defs, tools, run).value.run.current.None?
    ensures Loop(g, defs, tools, run) == Ok(Iterate(g, defs, tools, run).value.run)
    ensures var last := Loop(g, defs, tools, run).value;
            Epilogue(g, last) ==
              if run.steps + 1 >= g.maxSteps
              then last.log + [LogEntry("unknown", last.state, LimitMessage(g.maxSteps))]
              else last.log
  {
  }

  /** The state the edge after a returning tool sees: the tool's result, or the state it mutated when it returned None. */
  function StateSeen(out: ToolOutcome): State
    requires out.Returned?
  {
    out.result.GetOr(out.mutated)
  }

  /**
   * A condition that raises on the state the edge sees, on the edge of a
   * node whose tool returned: the TypeError of its ordering operator is not
   * caught and leaves the loop unchanged.
   */
  lemma ConditionErrorEscapes(g: Graph, defs: map<string, NodeDefinition>, tools: map<string, ToolFunc>,
                              run: Run, key: string, operator: string, value: Value,
                              trueNext: Option<string>, falseNext: Option<string>)
    requires run.current.Some? && run.current.value in defs && run.steps < g.maxSteps
    requires var def := defs[run.current.value];
             && def.toolName in tools
             && tools[def.toolName](run.state, def.config).Returned?
             && EvaluateCondition(StateSeen(tools[def.toolName](run.state, def.config)), key, operator, value).Err?
    requires EdgeOf(g.edges, run.current.value) == Some(Conditional(Some(key), Some(operator), Some(value), trueNext, falseNext))
    ensures var def := defs[run.current.value];
            var seen := StateSeen(tools[def.toolName](run.state, def.config));
            && Loop(g, defs, tools, run) == Err(EvaluateCondition(seen, key, operator, value).error)
            && Loop(g, defs, tools, run).error.TypeError?
            && operator in OrderingOperators
  {
  }

  /** In particular an ordering condition on a key missing from the state the edge sees. */
  lemma MissingKeyConditionEscapes(g: Graph, defs: map<string, NodeDefinition>, tools: map<string, ToolFunc>,
                                   run: Run, key: string, operator: string, value: Value,
                                   trueNext: Option<string>, falseNext: Option<string>)
    requires run.current.Some? && run.current.value in defs && run.steps < g.maxSteps
    requires var def := defs[run.current.value];
             && def.toolName in tools
             && tools[def.toolName](run.state, def.config).Returned?
             && key !in StateSeen(tools[def.toolName](run.state, def.config))
    requires operator in OrderingOperators
    requires EdgeOf(g.edges, run.current.value) == Some(Conditional(Some(key), Some(operator), Some(value), trueNext, falseNext))
    ensures Loop(g, defs, tools, run).Err? && Loop(g, defs, tools, run).error.TypeError?
  {
    var def := defs[run.current.value];
    OrderingOnMissingKeyRaises(StateSeen(tools[def.toolName](run.state, def.config)), key, operator, value);
    ConditionErrorEscapes(g, defs, tools, run, key, operator, value, trueNext, falseNext);
  }

  // ---------------------------------------------------------------------
  // Step accounting over a whole run
  // ---------------------------------------------------------------------

  /** The step count never passes the ceiling once it starts at or below it. */
  lemma {:induction false} LoopStepsBounded(g: Graph, defs: map<string, NodeDefinition>, tools: map<string, ToolFunc>, run: Run)
    requires run.steps <= g.maxSteps
    ensures Loop(g, defs, tools, run).Ok? ==>
              run.steps <= Loop(g, defs, tools, run).value.steps <= g.maxSteps
    decreases g.maxSteps - run.steps
  {
    if run.current.Some? && run.steps < g.maxSteps {
      var pass := Iterate(g, defs, tools, run);
      if pass.Ok? && pass.value.Continue? {
        LoopStepsBounded(g, defs, tools, pass.value.run);
      }
    }
  }

  predicate IsExecutedMessage(message: string) {
    "Executed tool '" <= message
  }

  lemma ExecutedMessageIsRecognised(toolName: string)
    ensures IsExecutedMessage(ExecutedMessage(toolName))
  {
    assert ExecutedMessage(toolName)[..15] == "Executed tool '";
  }

  /**
   * The log only grows; each step taken adds one "Executed tool" entry, in
   * order, and a `break` adds one more entry after them.
   */
  lemma {:induction false} LoopLogAccounting(g: Graph, defs: map<string, NodeDefinition>, tools: map<string, ToolFunc>, run: Run)
    ensures Loop(g, defs, tools, run).Ok? ==>
              var last := Loop(g, defs, tools, run).value;
              && run.steps <= last.steps
              && |last.log| == |run.log| + (last.steps - run.steps) + (if StoppedEarly(g, last) then 1 else 0)
              && last.log[..|run.log|] == run.log
              && forall i :: |run.log| <= i < |run.log| + (last.steps - run.steps) ==>
                   IsExecutedMessage(last.log[i].message)
    decreases g.maxSteps - run.steps
  {
    if run.current.Some? && run.steps < g.maxSteps {
      var pass := Iterate(g, defs, tools, run);
      if pass.Ok? && pass.value.Continue? {
        var next := pass.value.run;
        LoopContinues(g, defs, tools, run, next);
        ExecutedMessageIsRecognised(defs[run.current.value].toolName);
        LoopLogAccounting(g, defs, tools, next);
        if Loop(g, defs, tools, next).Ok? {
          var last := Loop(g, defs, tools, next).value;
          assert last.log[..|next.log|][..|run.log|] == last.log[..|run.log|];
          assert last.log[|run.log|] == last.log[..|next.log|][|run.log|];
        }
      }
    }
  }

  /**
   * The shape of every completed run's log: first one "Executed tool" entry
   * per step taken; then at most one more entry, which is either the entry
   * of the `break` that stopped the loop or the step-limit entry -- the
   * latter present exactly when the step count reached the ceiling.  With a
   * non-negative ceiling the step count stays within it.
   */
  lemma RunLogShape(g: Graph, initial: State, tools: map<string, ToolFunc>)
    requires NodeDefs(g.nodes).Ok?
    requires Loop(g, NodeDefs(g.nodes).value, tools, Start(g, initial)).Ok?
    ensures var last := Loop(g, NodeDefs(g.nodes).value, tools, Start(g, initial)).value;
            var log := Epilogue(g, last);
            && RunGraph(g, initial, tools) == Ok((last.state, log))
            && (g.maxSteps >= 0 ==> 0 <= last.steps <= g.maxSteps)
            && |log| == last.steps + (if StoppedEarly(g, last) then 1 else 0) + (if last.steps >= g.maxSteps then 1 else 0)
            && !(StoppedEarly(g, last) && last.steps >= g.maxSteps)
            && (forall i :: 0 <= i < last.steps ==> IsExecutedMessage(log[i].message))
            && (last.steps >= g.maxSteps <==>
                  |log| > 0 && log[|log| - 1] == LogEntry(Label(last.current), last.state, LimitMessage(g.maxSteps)))
  {
    var defs := NodeDefs(g.nodes).value;
    var start := Start(g, initial);
    LoopLogAccounting(g, defs, tools, start);
    if g.maxSteps >= 0 {
      LoopStepsBounded(g, defs, tools, start);
    }
    var last := Loop(g, defs, tools, start).value;
    var log := Epilogue(g, last);
    if last.steps < g.maxSteps && |log| > 0 {
      LastEntryIsNotLimit(g, defs, tools, start);
    }
  }

  /** An entry the loop appends never carries the step-limit message. */
  lemma {:induction false} LastEntryIsNotLimit(g: Graph, defs: map<string, NodeDefinition>, tools: map<string, ToolFunc>, run: Run)
    requires forall i :: 0 <= i < |run.log| ==> !IsLimitMessage(run.log[i].message)
    requires Loop(g, defs, tools, run).Ok?
    ensures var last := Loop(g, defs, tools, run).value;
            forall i :: 0 <= i < |last.log| ==> !IsLimitMessage(last.log[i].message)
    decreases g.maxSteps - run.steps
  {
    if run.current.Some? && run.steps < g.maxSteps {
      var pass := Iterate(g, defs, tools, run).value;
      var entry := pass.run.log[|run.log|];
      assert entry.message[0] != 'M' by {
        var name := run.current.value;
        if name !in defs {
          assert entry.message == NodeNotFoundMessage(name);
        } else if defs[name].toolName !in tools {
          assert entry.message == Repr(NotRegisteredMessage(defs[name].toolName));
        } else if tools[defs[name].toolName](run.state, defs[name].config).Raised? {
          assert entry.message == ErrorMessage(tools[defs[name].toolName](run.state, defs[name].config).message);
        } else {
          assert entry.message == ExecutedMessage(defs[name].toolName);
        }
      }
      assert forall i :: 0 <= i < |pass.run.log| ==> !IsLimitMessage(pass.run.log[i].message) by {
        forall i | 0 <= i < |pass.run.log|
          ensures !IsLimitMessage(pass.run.log[i].message)
        {
          if i < |run.log| {
            assert pass.run.log[i] == pass.run.log[..|run.log|][i];
          }
        }
      }
      if pass.Continue? {
        LastEntryIsNotLimit(g, defs, tools, pass.run);
      }
    }
  }

  /** A step-limit message, for some ceiling. */
  ghost predicate IsLimitMessage(message: string) {
    exists n: int :: message == LimitMessage(n)
  }

  // ---------------------------------------------------------------------
  // Whole-run scenarios
  // ---------------------------------------------------------------------

  /** Every node has a tool name, so building the node records succeeds. */
  predicate WellFormedNodes(g: Graph) {
    forall n :: n in g.nodes ==> g.nodes[n].toolName.Some?
  }

  /** A start node the graph does not define: one "not found" entry, final state the initial one. */
  lemma StartNodeMissing(g: Graph, initial: State, tools: map<string, ToolFunc>)
    requires WellFormedNodes(g) && g.startNode !in g.nodes && g.maxSteps > 0
    ensures RunGraph(g, initial, tools) ==
              Ok((initial, [LogEntry(g.startNode, initial, NodeNotFoundMessage(g.startNode))]))
  {
  }

  /** A start node whose tool is unregistered: one entry with the KeyError text, final state the initial one. */
  lemma StartToolUnregistered(g: Graph, initial: State, tools: map<string, ToolFunc>)
    requires WellFormedNodes(g) && g.startNode in g.nodes && g.maxSteps > 0
    requires g.nodes[g.startNode].toolName.value !in tools
    ensures var text := Repr(NotRegisteredMessage(g.nodes[g.startNode].toolName.value));
            RunGraph(g, initial, tools) == Ok((initial, [LogEntry(g.startNode, initial, text)]))
  {
  }

  /** A ceiling of zero or less: no tool runs, and the log is the step-limit entry alone. */
  lemma NonPositiveLimitRunsNothing(g: Graph, initial: State, tools: map<string, ToolFunc>)
    requires WellFormedNodes(g) && g.maxSteps <= 0
    ensures RunGraph(g, initial, tools) ==
              Ok((initial, [LogEntry(Label(Some(g.startNode)), initial, LimitMessage(g.maxSteps))]))
  {
    var defs := NodeDefs(g.nodes).value;
    assert NodeDefs(g.nodes) == Ok(defs);
    assert Loop(g, defs, tools, Start(g, initial)) == Ok(Start(g, initial));
    assert Epilogue(g, Start(g, initial)) == [LogEntry(Label(Some(g.startNode)), initial, LimitMessage(g.maxSteps))];
  }

  /** A node record that is missing `tool_name` makes the whole run raise KeyError. */
  lemma MissingToolNameRaises(g: Graph, initial: State, tools: map<string, ToolFunc>)
    requires !WellFormedNodes(g)
    ensures RunGraph(g, initial, tools) == Err(KeyError("tool_name"))
  {
  }

  /**
   * Every node has a registered tool that always returns, and a plain edge
   * to another defined node: the graph has no way out but the ceiling.
   */
  ghost predicate NoExit(g: Graph, defs: map<string, NodeDefinition>, tools: map<string, ToolFunc>) {
    forall n :: n in defs ==> LeadsOn(g, defs, tools, n)
  }

  /** Node `n` has a registered tool that always returns and a plain edge to another defined node. */
  ghost predicate LeadsOn(g: Graph, defs: map<string, NodeDefinition>, tools: map<string, ToolFunc>, n: string)
    requires n in defs
  {
    && defs[n].toolName in tools
    && (forall s :: tools[defs[n].toolName](s, defs[n].config).Returned?)
    && n in g.edges && g.edges[n].Plain? && g.edges[n].target != End && g.edges[n].target in defs
  }

  lemma {:induction false} NoExitRunsToLimit(g: Graph, defs: map<string, NodeDefinition>, tools: map<string, ToolFunc>, run: Run)
    requires NoExit(g, defs, tools)
    requires run.current.Some? && run.current.value in defs && run.steps <= g.maxSteps
    ensures Loop(g, defs, tools, run).Ok?
    ensures var last := Loop(g, defs, tools, run).value;
            && last.steps == g.maxSteps
            && |last.log| == |run.log| + (g.maxSteps - run.steps)
            && last.current.Some? && last.current.value in defs
    decreases g.maxSteps - run.steps
  {
    if run.steps < g.maxSteps {
      var next := NoExitStep(g, defs, tools, run);
      LoopContinues(g, defs, tools, run, next);
      NoExitRunsToLimit(g, defs, tools, next);
    }
  }


  /** In a graph with no exit, every step from a defined node continues to a defined node. */
  lemma NoExitStep(g: Graph, defs: map<string, NodeDefinition>, tools: map<string, ToolFunc>, run: Run) returns (next: Run)
    requires NoExit(g, defs, tools)
    requires run.current.Some? && run.current.value in defs
    ensures Iterate(g, defs, tools, run) == Ok(Continue(next))
    ensures next.current.Some? && next.current.value in defs
    ensures next.steps == run.steps + 1 && |next.log| == |run.log| + 1
  {
    var name := run.current.value;
    var def := defs[name];
    assert LeadsOn(g, defs, tools, name);
    assert tools[def.toolName](run.state, def.config).Returned?;
    var target := g.edges[name].target;
    assert EdgeOf(g.edges, name) == Some(Plain(target));
    assert forall state :: ResolveNextNode(Some(Plain(target)), state) == Ok(Some(target));
    ReturningToolAdvances(g, defs, tools, run);
    next := Iterate(g, defs, tools, run).value.run;
  }

  /** The run's result, once the node records and the loop's last run are known. */
  lemma RunGraphOf(g: Graph, initial: State, tools: map<string, ToolFunc>, defs: map<string, NodeDefinition>, last: Run)
    requires NodeDefs(g.nodes) == Ok(defs) && Loop(g, defs, tools, Start(g, initial)) == Ok(last)
    ensures RunGraph(g, initial, tools) == Ok((last.state, Epilogue(g, last)))
  {
  }

  /** From a defined node of a graph with no exit, the loop logs one entry per step up to the ceiling, then the limit entry follows. */
  lemma NoExitEpilogue(g: Graph, defs: map<string, NodeDefinition>, tools: map<string, ToolFunc>, start: Run)
    requires NoExit(g, defs, tools)
    requires start.current.Some? && start.current.value in defs && start.steps == 0 && start.log == [] && g.maxSteps >= 0
    ensures Loop(g, defs, tools, start).Ok?
    ensures var log := Epilogue(g, Loop(g, defs, tools, start).value);
            |log| == g.maxSteps + 1 && log[g.maxSteps].message == LimitMessage(g.maxSteps)
  {
    NoExitRunsToLimit(g, defs, tools, start);
  }

  /** A cycle with no exit runs `maxSteps` steps and logs `maxSteps + 1` entries, the last one the step-limit entry. */
  lemma CycleLogsMaxStepsPlusOne(g: Graph, initial: State, tools: map<string, ToolFunc>)
    requires WellFormedNodes(g) && NoExit(g, NodeDefs(g.nodes).value, tools)
    requires g.startNode in g.nodes && g.maxSteps >= 0
    ensures RunGraph(g, initial, tools).Ok?
    ensures var log := RunGraph(g, initial, tools).value.1;
            |log| == g.maxSteps + 1 && log[g.maxSteps].message == LimitMessage(g.maxSteps)
  {
    var defs := NodeDefs(g.nodes).value;
    assert NodeDefs(g.nodes) == Ok(defs);
    assert g.startNode in defs;
    var start := Start(g, initial);
    NoExitEpilogue(g, defs, tools, start);
    RunGraphOf(g, initial, tools, defs, Loop(g, defs, tools, start).value);
  }

  /** The tool `double` of the end-to-end example: `n = n * 2`. */
  function DoubleTool(state: State, config: State): ToolOutcome {
    var n := Get(state, "n", Null);
    if n.Int? then
      var doubled := state["n" := Int(n.i * 2)];
      Returned(doubled, Some(doubled))
    else
      Raised(state, "unsupported operand")
  }

  /** The tool `noop` of the end-to-end example: returns None. */
  function NoOpTool(state: State, config: State): ToolOutcome {
    Returned(state, None)
  }

  /** The graph of the end-to-end example: start (double) -> end (noop), at most 50 steps. */
  function ExampleGraph(): Graph {
    Graph(map["start" := NodeData(Some("double"), None), "end" := NodeData(Some("noop"), None)],
          map["start" := Plain("end")], "start", 50)
  }

  function ExampleTools(): map<string, ToolFunc> {
    map["double" := DoubleTool, "noop" := NoOpTool]
  }

  function ExampleDefs(): map<string, NodeDefinition> {
    map["start" := NodeDefinition("start", "double", map[]), "end" := NodeDefinition("end", "noop", map[])]
  }

  lemma ExampleDefsBuilt()
    ensures NodeDefs(ExampleGraph().nodes) == Ok(ExampleDefs())
  {
    var raw := ExampleGraph().nodes;
    assert forall n :: n in raw ==> raw[n].toolName.Some?;
    var defs := NodeDefs(raw).value;
    assert defs.Keys == ExampleDefs().Keys;
    assert defs["start"] == ExampleDefs()["start"];
    assert defs["end"] == ExampleDefs()["end"];
    assert defs == ExampleDefs();
  }

  /** `start` doubles n from 3 to 6 and moves on to `end`. */
  lemma ExampleFirstStep()
    ensures var final := map["n" := Int(6)];
            Iterate(ExampleGraph(), ExampleDefs(), ExampleTools(), Start(ExampleGraph(), map["n" := Int(3)])) ==
              Ok(Continue(Run(final, Some("end"), 1, [LogEntry("start", final, ExecutedMessage("double"))])))
  {
    var final := map["n" := Int(6)];
    assert Lookup(ExampleTools(), "double") == Ok(DoubleTool);
    assert map["n" := Int(3)]["n" := Int(6)] == final;
    assert DoubleTool(map["n" := Int(3)], map[]) == Returned(final, Some(final));
    assert EdgeOf(ExampleGraph().edges, "start") == Some(Plain("end"));
  }

  /** `end` returns None, so the state stays, and it has no outgoing edge. */
  lemma ExampleSecondStep(first: Run)
    requires first.current == Some("end")
    ensures Iterate(ExampleGraph(), ExampleDefs(), ExampleTools(), first) ==
              Ok(Continue(Run(first.state, None, first.steps + 1,
                              first.log + [LogEntry("end", first.state, ExecutedMessage("noop"))])))
  {
    assert Lookup(ExampleTools(), "noop") == Ok(NoOpTool);
    assert EdgeOf(ExampleGraph().edges, "end") == None;
  }

  /** The loop of the example: two steps, then no current node. */
  lemma ExampleLoop(g: Graph, tools: map<string, ToolFunc>, initial: State)
    requires g == ExampleGraph() && tools == ExampleTools() && initial == map["n" := Int(3)]
    ensures var final := map["n" := Int(6)];
            Loop(g, ExampleDefs(), tools, Start(g, initial)) ==
              Ok(Run(final, None, 2, [LogEntry("start", final, ExecutedMessage("double")),
                                      LogEntry("end", final, ExecutedMessage("noop"))]))
  {
    var defs := ExampleDefs();
    var final := map["n" := Int(6)];
    var first := Run(final, Some("end"), 1, [LogEntry("start", final, ExecutedMessage("double"))]);
    var second := Run(final, None, 2, first.log + [LogEntry("end", final, ExecutedMessage("noop"))]);
    ExampleFirstStep();
    LoopContinues(g, defs, tools, Start(g, initial), first);
    ExampleSecondStep(first);
    LoopContinues(g, defs, tools, first, second);
    assert Loop(g, defs, tools, second) == Ok(second);
    assert second.log == [LogEntry("start", final, ExecutedMessage("double")),
                          LogEntry("end", final, ExecutedMessage("noop"))];
  }

  /**
   * start (double) -> end (noop), from {n: 3}: final state {n: 6}, one
   * "Executed tool" entry per node, and the run ends at the absent edge of
   * `end`, well before the ceiling.
   */
  lemma DoubleThenNoOpExample(g: Graph, tools: map<string, ToolFunc>, initial: State)
    requires g == ExampleGraph() && tools == ExampleTools() && initial == map["n" := Int(3)]
    ensures var final := map["n" := Int(6)];
            RunGraph(g, initial, tools) ==
              Ok((final, [LogEntry("start", final, ExecutedMessage("double")),
                          LogEntry("end", final, ExecutedMessage("noop"))]))
  {
    var final := map["n" := Int(6)];
    var last := Run(final, None, 2, [LogEntry("start", final, ExecutedMessage("double")),
                                     LogEntry("end", final, ExecutedMessage("noop"))]);
    ExampleDefsBuilt();
    ExampleLoop(g, tools, initial);
    RunGraphOf(g, initial, tools, ExampleDefs(), last);
  }
}
