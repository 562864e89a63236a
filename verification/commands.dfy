/**
 Resolution of the `/<command>` route: the command name in the URL is mapped
 to the name of the handler method through a small alias table, falling back
 to the command itself, and the handler of that name is then called.
 */
module Commands {
  import opened Wrappers

  /** The alias table of the handler class: redis command -> handler method. */
  const CommandMethods: map<string, string> := map[
    "del" := "delete",
    "rpop" := "pop_generic",
    "lpop" := "pop_generic",
    "brpop" := "pop_generic",
    "blpop" := "pop_generic",
    "rpush" := "push_generic",
    "lpush" := "push_generic"
  ]

  /** The list pops served by one generic handler (blocking and non-blocking). */
  const PopCommands: set<string> := {"lpop", "rpop", "blpop", "brpop"}

  /** The list pushes served by one generic handler. */
  const PushCommands: set<string> := {"lpush", "rpush"}

  /** The method names of the data handlers. */
  const HandlerNames: set<string> :=
    {"set", "get", "push_generic", "pop_generic", "delete", "expire"}

  /** The data handlers of the class that a command can reach. */
  datatype Handler = Set | Get | PushGeneric | PopGeneric | Delete | Expire

  /** The handler method called `name`, if the class has one. */
  function HandlerNamed(name: string): Option<Handler> {
    if name == "set" then Some(Set)
    else if name == "get" then Some(Get)
    else if name == "push_generic" then Some(PushGeneric)
    else if name == "pop_generic" then Some(PopGeneric)
    else if name == "delete" then Some(Delete)
    else if name == "expire" then Some(Expire)
    else None
  }

  /** Dictionary lookup with the command as its own default. */
  function ResolveMethod(command: string): (m: string)
    ensures command == "del" ==> m == "delete"
    ensures command in PopCommands ==> m == "pop_generic"
    ensures command in PushCommands ==> m == "push_generic"
    ensures command != "del" && command !in PopCommands && command !in PushCommands ==> m == command
  {
    if command in CommandMethods then CommandMethods[command] else command
  }

  /** The handler `execute` ends up calling (with the original command, not
      the resolved name); `None` when the resolved name is not one of the
      data handlers. */
  function Execute(command: string): (h: Option<Handler>)
    ensures h.Some? <==> command in CommandMethods || command in HandlerNames
  {
    HandlerNamed(ResolveMethod(command))
  }

  /** Every alias in the table names an existing handler. */
  lemma AliasesResolve()
    ensures forall c :: c in CommandMethods ==> HandlerNamed(CommandMethods[c]).Some?
  {
  }

  /** Resolution is idempotent: a handler name is never itself an alias. */
  lemma ResolveIdempotent(command: string)
    ensures ResolveMethod(ResolveMethod(command)) == ResolveMethod(command)
  {
  }

  /** Exactly the four pop commands and the handler's own name reach the
      generic pop handler. */
  lemma PopRouting(command: string)
    ensures Execute(command) == Some(PopGeneric) <==>
            command in PopCommands || command == "pop_generic"
  {
  }

  /** Exactly the two push commands and the handler's own name reach the
      generic push handler. */
  lemma PushRouting(command: string)
    ensures Execute(command) == Some(PushGeneric) <==>
            command in PushCommands || command == "push_generic"
  {
  }

  /** Both `del` and the handler's own name `delete` reach the delete handler. */
  lemma DeleteRouting(command: string)
    ensures Execute(command) == Some(Delete) <==> command == "del" || command == "delete"
  {
  }

  /** The unaliased handlers are reached only under their own names. */
  lemma DirectRouting(command: string)
    ensures Execute(command) == Some(Set) <==> command == "set"
    ensures Execute(command) == Some(Get) <==> command == "get"
    ensures Execute(command) == Some(Expire) <==> command == "expire"
  {
  }
}
