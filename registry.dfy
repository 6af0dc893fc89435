/**
 * The tool registry: a mutable table from tool names to handlers.  A handler
 * takes the state and the node's config; it may change the state dict it was
 * given in place and then either return (a new state, or nothing) or raise.
 */
module Registry {
  import opened Values

  /** What a handler call leaves behind. */
  datatype ToolOutcome =
      /** It raised with message `message`, after changing its state argument into `mutated`. */
    | Raised(mutated: State, message: string)
      /** It returned `result` (None for Python's None), after changing its state argument into `mutated`. */
    | Returned(mutated: State, result: Option<State>)

  /** A handler `(state, config) -> state | None`. */
  type ToolFunc = (State, State) -> ToolOutcome

  /** The message of the KeyError raised for a name that was never registered. */
  function NotRegisteredMessage(name: string): string {
    "Tool '" + name + "' not registered"
  }

  /** What `get(name)` gives on a table: the handler, or the KeyError it raises. */
  function Lookup(tools: map<string, ToolFunc>, name: string): (r: Result<ToolFunc>)
    ensures r.Ok? <==> name in tools
    ensures r.Ok? ==> r.value == tools[name]
    ensures r.Err? ==> r.error == KeyError(NotRegisteredMessage(name))
  {
    if name in tools then Ok(tools[name]) else Err(KeyError(NotRegisteredMessage(name)))
  }

  class ToolRegistry {
    var tools: map<string, ToolFunc>

    constructor ()
      ensures tools == map[]
    {
      tools := map[];
    }

    /** Stores `func` under `name`, replacing any handler registered there before. */
    method Register(name: string, func: ToolFunc)
      modifies this
      ensures tools == old(tools)[name := func]
    {
      tools := tools[name := func];
    }

    /** The handler registered under `name`, or KeyError when there is none. */
    method Get(name: string) returns (r: Result<ToolFunc>)
      ensures name in tools ==> r == Ok(tools[name])
      ensures name !in tools ==> r == Err(KeyError(NotRegisteredMessage(name)))
    {
      if name !in tools {
        return Err(KeyError(NotRegisteredMessage(name)));
      }
      r := Ok(tools[name]);
    }
  }

  /** A registry that nothing has been registered in fails `get` for every name. */
  lemma FreshLookupFails(name: string)
    ensures Lookup(map[], name) == Err(KeyError(NotRegisteredMessage(name)))
  {
  }

  /** After `register(n, f)`, `get(n)` gives `f`, whatever was registered under `n` before. */
  lemma LookupAfterRegister(tools: map<string, ToolFunc>, name: string, func: ToolFunc)
    ensures Lookup(tools[name := func], name) == Ok(func)
  {
  }

  /** `register(n, f)` leaves what `get` gives for every other name unchanged. */
  lemma RegisterKeepsOthers(tools: map<string, ToolFunc>, name: string, func: ToolFunc, other: string)
    requires other != name
    ensures Lookup(tools[name := func], other) == Lookup(tools, other)
  {
  }

  /** Of two registrations under one name, the later one wins. */
  lemma LastRegistrationWins(tools: map<string, ToolFunc>, name: string, first: ToolFunc, second: ToolFunc)
    ensures tools[name := first][name := second] == tools[name := second]
  {
  }

  /** The registry's contract, exercised on one object as a client would. */
  method RegistryUsage(f: ToolFunc, g: ToolFunc)
  {
    var registry := new ToolRegistry();
    var missing := registry.Get("extract_functions");
    assert missing == Err(KeyError(NotRegisteredMessage("extract_functions")));
    registry.Register("extract_functions", f);
    registry.Register("detect_issues", g);
    var found := registry.Get("extract_functions");
    assert found == Ok(f);
    registry.Register("extract_functions", g);
    found := registry.Get("extract_functions");
    assert found == Ok(g);
  }
}
