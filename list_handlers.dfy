/** The command registry of a list's modification log: a static table from command
    name to handler. The only command of this version is CREATE, whose handler does nothing. */
module ListHandlers {
  import opened Js

  datatype HandlerKind = BaseHandler | CreateHandler

  /** A handler: the command it handles (read-only once constructed) and its class. */
  datatype Handler = Handler(command: string, kind: HandlerKind)

  /** `new ListCommandHandler(command)`: the command must be a string. */
  function NewHandler(command: Arg<string>): (r: Result<Handler>)
    ensures r.Ok? <==> command.Is?
    ensures r.Ok? ==> r.value.command == command.value && r.value.kind == BaseHandler
    ensures r.Err? ==> r.error == CommandNotString
  {
    match command
    case Is(c) => Ok(Handler(c, BaseHandler))
    case _ => Err(CommandNotString)
  }

  /** `new CreateCommandHandler()`: the base constructor applied to 'CREATE'. */
  function NewCreateHandler(): (h: Handler)
    ensures h.command == "CREATE" && h.kind == CreateHandler
  {
    var base := NewHandler(Is("CREATE"));
    Handler(base.value.command, CreateHandler)
  }

  /** The `handlers` table. */
  const Handlers: map<string, Handler> := map["CREATE" := NewCreateHandler()]

  /** The table holds CREATE alone, and every key is its handler's command. */
  lemma HandlersTable()
    ensures Handlers.Keys == {"CREATE"}
    ensures forall name :: name in Handlers ==> Handlers[name].command == name
    ensures Handlers["CREATE"].kind == CreateHandler
  {
  }

  /** `handler.handle(entry)`: both the base and the CREATE handler are empty, so applying
      any handler to any state of the list leaves that state as it was. */
  function Handle<E, S>(h: Handler, entry: E, state: S): (r: S)
    ensures r == state
  {
    match h.kind
    case BaseHandler => state
    case CreateHandler => state
  }

  // ---------------------------------------------------------------------------
  // How `handlers[name]` behaves on a plain JavaScript object

  /** The properties every plain object inherits from `Object.prototype`. */
  const ObjectPrototypeKeys: set<string> :=
    {"constructor", "__proto__", "__defineGetter__", "__defineSetter__", "__lookupGetter__",
     "__lookupSetter__", "hasOwnProperty", "isPrototypeOf", "propertyIsEnumerable",
     "toLocaleString", "toString", "valueOf"}

  /** What the value of `handlers[name]` an entry receives is. */
  datatype LookupResult = OwnHandler(handler: Handler) | Inherited | Missing

  /** `handlers[name]` as the source writes it: a property read on a plain object, which also
      finds the inherited members of `Object.prototype` (all of them truthy). */
  function LookupAsWritten(name: string): (r: LookupResult)
    ensures r.OwnHandler? <==> name in Handlers
    ensures r.OwnHandler? ==> r.handler == Handlers[name]
    ensures r.Inherited? <==> name !in Handlers && name in ObjectPrototypeKeys
  {
    if name in Handlers then OwnHandler(Handlers[name])
    else if name in ObjectPrototypeKeys then Inherited
    else Missing
  }

  /** The source accepts an inherited member as a handler: "constructor" is no key of the
      table yet passes the `if (!handler)` check. */
  lemma InheritedNameAccepted()
    ensures "constructor" !in Handlers
    ensures !LookupAsWritten("constructor").Missing?
  {
  }

  /** The intended lookup: the table's own keys only. */
  function Lookup(name: string): (r: Option<Handler>)
    ensures r.Some? <==> name in Handlers
    ensures r.Some? ==> r.value.command == name
  {
    if name in Handlers then Some(Handlers[name]) else None
  }

  predicate IsUpperOrUnderscore(c: char) { 'A' <= c <= 'Z' || c == '_' }

  /** For names made of upper-case letters and `_` only, as a log line's command is, the two
      lookups agree: every inherited name holds a lower-case letter. */
  lemma LookupsAgreeOnCommandNames(name: string)
    requires All(name, IsUpperOrUnderscore)
    ensures LookupAsWritten(name).Missing? <==> Lookup(name).None?
  {
    forall k | k in ObjectPrototypeKeys
      ensures |k| >= 3 && 'a' <= k[|k| - 3] <= 'z'
    {
    }
  }
}
