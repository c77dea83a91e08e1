/** Users of a shared list: an id `provider:uid`, a registry of resolvers keyed by provider,
    the built-in `local` resolver over a fixed table of names, and a user's `resolve`,
    which attaches the resolved data to the user. */
module Users {
  import opened Js

  /** The `LOCALS` table of the local provider. */
  const Locals: seq<string> := ["WeToDo", "John Doe", "Jane Doe"]

  // ---------------------------------------------------------------------------
  // Splitting an id

  /** `user.provider`: the text before the first ':'; without a ':' it is empty. */
  function ProviderOf(id: string): (r: string)
    ensures ':' !in r
    ensures ':' in id ==> |r| < |id| && id[..|r|] == r && id[|r|] == ':'
    ensures ':' !in id ==> r == ""
  {
    Substring(id, 0, IndexOf(id, ':'))
  }

  /** `user.uid`: the text after the first ':'; without a ':' it is the whole id. */
  function UidOf(id: string): (r: string)
    ensures ':' in id ==> |r| == |id| - |ProviderOf(id)| - 1 && id[|id| - |r|..] == r && id[|id| - |r| - 1] == ':'
    ensures ':' !in id ==> r == id
  {
    Substring(id, IndexOf(id, ':') + 1, |id|)
  }

  /** An id that holds a ':' is its provider, a ':' and its uid. */
  lemma SplitId(id: string)
    requires ':' in id
    ensures ProviderOf(id) + ":" + UidOf(id) == id
  {
    var i := IndexOf(id, ':');
    assert ProviderOf(id) == id[..i];
    assert UidOf(id) == id[i + 1..];
    assert id == id[..i] + [id[i]] + id[i + 1..];
  }

  /** Joining a provider without ':' to any uid gives an id that splits back into both. */
  lemma JoinId(provider: string, uid: string)
    requires ':' !in provider
    ensures ProviderOf(provider + ":" + uid) == provider
    ensures UidOf(provider + ":" + uid) == uid
  {
    var id := provider + ":" + uid;
    assert id[|provider|] == ':';
    assert id[..|provider|] == provider;
    assert ':' in id;
    var i := IndexOf(id, ':');
    assert i == |provider|;
    assert id[i + 1..] == uid;
  }

  // ---------------------------------------------------------------------------
  // Resolvers

  datatype ResolverKind = BaseResolver | LocalResolver

  /** A resolver: the provider it serves (read-only once constructed) and its class. */
  datatype Resolver = Resolver(provider: string, kind: ResolverKind)

  /** What a resolver hands back: the user's name, or `undefined` for none. */
  datatype UserData = UserData(name: Option<string>)

  /** `new ProviderResolver(provider)`: the provider must be a string. */
  function NewProviderResolver(provider: Arg<string>): (r: Result<Resolver>)
    ensures r.Ok? <==> provider.Is?
    ensures r.Ok? ==> r.value.provider == provider.value && r.value.kind == BaseResolver
    ensures r.Err? ==> r.error == NotAString
  {
    match provider
    case Is(p) => Ok(Resolver(p, BaseResolver))
    case _ => Err(NotAString)
  }

  /** `new LocalProviderResolver()`: the base constructor applied to 'local'. */
  function NewLocalResolver(): (r: Resolver)
    ensures r.provider == "local" && r.kind == LocalResolver
  {
    var base := NewProviderResolver(Is("local"));
    Resolver(base.value.provider, LocalResolver)
  }

  /** `LocalProviderResolver.resolve(uid)` as written: the uid is read with `parseInt`, and only
      `i < 3` is checked, so a negative index passes and finds no name. */
  function ResolveLocalAsWritten(uid: string): (r: Result<UserData>)
    ensures r.Err? <==> ParseInt(uid).None? || ParseInt(uid).value >= |Locals|
    ensures r.Err? ==> r.error == UnknownLocalUser(uid)
    ensures r.Ok? && ParseInt(uid).value < 0 ==> r.value.name.None?
    ensures r.Ok? && ParseInt(uid).value >= 0 ==> r.value == UserData(Some(Locals[ParseInt(uid).value]))
  {
    var i := ParseInt(uid);
    if i.None? || i.value >= |Locals| then Err(UnknownLocalUser(uid))
    else if i.value < 0 then Ok(UserData(None))
    else Ok(UserData(Some(Locals[i.value])))
  }

  /** The uid "-1" resolves, to a user without a name. */
  lemma NegativeLocalUidAccepted()
    ensures ResolveLocalAsWritten("-1") == Ok(UserData(None))
  {
    assert ParseInt("-1") == Some(-1) by {
      assert "1"[..1] == "1" && "1"[..0] == "";
      assert All("1", IsDigit) && DecimalValue("1") == 1;
      assert "" + ("-" + ("1" + "")) == "-1";
      ParseIntOfNumeral("", "-", "1", "");
    }
  }

  /** The intended local resolution: the uid must name an index of the table. */
  function ResolveLocal(uid: string): (r: Result<UserData>)
    ensures r.Ok? <==> ParseInt(uid).Some? && 0 <= ParseInt(uid).value < |Locals|
    ensures r.Ok? ==> r.value == UserData(Some(Locals[ParseInt(uid).value]))
    ensures r.Err? ==> r.error == UnknownLocalUser(uid)
  {
    var i := ParseInt(uid);
    if i.Some? && 0 <= i.value < |Locals| then Ok(UserData(Some(Locals[i.value])))
    else Err(UnknownLocalUser(uid))
  }

  /** The printed index of each table entry resolves to that entry's name, and no other
      decimal does. */
  lemma ResolveLocalOfIndex(i: nat)
    ensures i < |Locals| ==> ResolveLocal(NatToDecimal(i)) == Ok(UserData(Some(Locals[i])))
    ensures i >= |Locals| ==> ResolveLocal(NatToDecimal(i)) == Err(UnknownLocalUser(NatToDecimal(i)))
  {
    var s := NatToDecimal(i);
    DecimalOfPrinted(i);
    ParseIntOfDigits(s);
  }

  /** `local:0` names WeToDo. */
  lemma ResolveLocalZero()
    ensures ResolveLocal("0") == Ok(UserData(Some("WeToDo")))
  {
    ResolveLocalOfIndex(0);
    assert NatToDecimal(0) == "0";
  }

  /** On a uid of digits only, as every id of the local table is printed, the two versions of
      local resolution agree: only a sign lets a negative index through. */
  lemma LocalResolutionsAgreeOnDigits(uid: string)
    requires |uid| > 0 && All(uid, IsDigit)
    ensures ResolveLocalAsWritten(uid) == ResolveLocal(uid)
  {
    ParseIntOfDigits(uid);
  }

  /** `resolver.resolve(uid)`, seen from the `then` its caller applies: the base resolver
      returns `undefined`, which has no `then`. */
  function ResolveWith(r: Resolver, uid: string): (d: Result<UserData>)
    ensures r.kind == BaseResolver ==> d == Err(NotThenable)
    ensures r.kind == LocalResolver ==> d == ResolveLocal(uid)
  {
    match r.kind
    case BaseResolver => Err(NotThenable)
    case LocalResolver => ResolveLocal(uid)
  }

  /** `resolver.resolve(uid)` as written: the local resolver is the one that lets a negative
      index through. */
  function ResolveWithAsWritten(r: Resolver, uid: string): (d: Result<UserData>)
    ensures r.kind == BaseResolver ==> d == Err(NotThenable)
    ensures r.kind == LocalResolver ==> d == ResolveLocalAsWritten(uid)
  {
    match r.kind
    case BaseResolver => Err(NotThenable)
    case LocalResolver => ResolveLocalAsWritten(uid)
  }

  /** On a uid of digits only the two dispatches agree. */
  lemma ResolveWithsAgreeOnDigits(r: Resolver, uid: string)
    requires |uid| > 0 && All(uid, IsDigit)
    ensures ResolveWithAsWritten(r, uid) == ResolveWith(r, uid)
  {
    LocalResolutionsAgreeOnDigits(uid);
  }

  // ---------------------------------------------------------------------------
  // The registry

  /** `ProviderResolver.registerResolver(resolver)` on the map of registered resolvers: only a
      resolver object is accepted, stored under its provider. */
  function Register(resolvers: map<string, Resolver>, resolver: Arg<Resolver>): (r: Result<map<string, Resolver>>)
    ensures r.Ok? <==> resolver.Is?
    ensures r.Ok? ==> r.value.Keys == resolvers.Keys + {resolver.value.provider}
    ensures r.Ok? ==> r.value[resolver.value.provider] == resolver.value
    ensures r.Ok? ==> forall p :: p in resolvers && p != resolver.value.provider ==> r.value[p] == resolvers[p]
    ensures resolver.OtherObject? ==> r == Err(InvalidResolverType)
    ensures resolver.NotObject? ==> r == Err(ResolverNotObject)
  {
    match resolver
    case Is(v) => Ok(resolvers[v.provider := v])
    case OtherObject => Err(InvalidResolverType)
    case NotObject => Err(ResolverNotObject)
  }

  /** A later registration for the same provider replaces the earlier one. */
  lemma RegisterReplaces(resolvers: map<string, Resolver>, a: Resolver, b: Resolver)
    requires a.provider == b.provider
    ensures Register(Register(resolvers, Is(a)).value, Is(b)) == Register(resolvers, Is(b))
  {
    assert resolvers[a.provider := a][b.provider := b] == resolvers[b.provider := b];
  }

  /** Registrations for different providers commute. */
  lemma RegisterCommutes(resolvers: map<string, Resolver>, a: Resolver, b: Resolver)
    requires a.provider != b.provider
    ensures Register(Register(resolvers, Is(a)).value, Is(b)) == Register(Register(resolvers, Is(b)).value, Is(a))
  {
    assert resolvers[a.provider := a][b.provider := b] == resolvers[b.provider := b][a.provider := a];
  }

  /** The registry as the module leaves it once loaded: the local resolver alone. */
  function InitialResolvers(): (r: map<string, Resolver>)
    ensures r.Keys == {"local"} && r["local"].kind == LocalResolver
    ensures r == map["local" := NewLocalResolver()]
  {
    Register(map[], Is(NewLocalResolver())).value
  }

  /** The module-level `resolvers` map. */
  class Registry {
    var resolvers: map<string, Resolver>

    /** Loading the module registers the local resolver. */
    constructor ()
      ensures resolvers == InitialResolvers()
    {
      resolvers := map[];
      new;
      var _ := RegisterResolver(Is(NewLocalResolver()));
    }

    /** `ProviderResolver.registerResolver(resolver)` */
    method RegisterResolver(resolver: Arg<Resolver>) returns (o: Outcome)
      modifies this
      ensures Register(old(resolvers), resolver).Ok? ==>
        o == Pass && resolvers == Register(old(resolvers), resolver).value
      ensures Register(old(resolvers), resolver).Err? ==>
        o == Fail(Register(old(resolvers), resolver).error) && resolvers == old(resolvers)
    {
      var r := Register(resolvers, resolver);
      if r.Err? {
        return Fail(r.error);
      }
      resolvers := r.value;
      return Pass;
    }
  }

  // ---------------------------------------------------------------------------
  // Resolving a user

  /** `user.resolve()` as written, on the registry and the data attached so far: the provider
      is looked up, its resolver run on the uid, and the data defined as a property that
      cannot be redefined, so a second resolve of the same user fails. */
  function ResolvedAsWritten(resolvers: map<string, Resolver>, id: string, attached: Option<UserData>): (r: Result<UserData>)
    ensures ProviderOf(id) !in resolvers ==> r == Err(UnknownProvider(ProviderOf(id)))
    ensures attached.Some? ==> r.Err?
    ensures r.Ok? ==> r == ResolveWithAsWritten(resolvers[ProviderOf(id)], UidOf(id))
    ensures ProviderOf(id) in resolvers && attached.None? ==>
      r == ResolveWithAsWritten(resolvers[ProviderOf(id)], UidOf(id))
    ensures ProviderOf(id) in resolvers && attached.Some? ==>
      r == if ResolveWithAsWritten(resolvers[ProviderOf(id)], UidOf(id)).Err?
           then ResolveWithAsWritten(resolvers[ProviderOf(id)], UidOf(id))
           else Err(RedefinedData)
  {
    var provider := ProviderOf(id);
    if provider !in resolvers then Err(UnknownProvider(provider))
    else
      match ResolveWithAsWritten(resolvers[provider], UidOf(id))
      case Err(e) => Err(e)
      case Ok(d) => if attached.Some? then Err(RedefinedData) else Ok(d)
  }

  /** The intended `user.resolve()`: data resolved once before is read from the user. */
  function Resolved(resolvers: map<string, Resolver>, id: string, attached: Option<UserData>): (r: Result<UserData>)
    ensures attached.Some? ==> r == Ok(attached.value)
    ensures attached.None? && ProviderOf(id) !in resolvers ==> r == Err(UnknownProvider(ProviderOf(id)))
    ensures attached.None? && ProviderOf(id) in resolvers ==> r == ResolveWith(resolvers[ProviderOf(id)], UidOf(id))
  {
    if attached.Some? then Ok(attached.value)
    else
      var provider := ProviderOf(id);
      if provider !in resolvers then Err(UnknownProvider(provider))
      else ResolveWith(resolvers[provider], UidOf(id))
  }

  /** The first resolve of a user whose uid is digits only is the same in both versions. */
  lemma FirstResolveAgrees(resolvers: map<string, Resolver>, id: string)
    requires |UidOf(id)| > 0 && All(UidOf(id), IsDigit)
    ensures ResolvedAsWritten(resolvers, id, None) == Resolved(resolvers, id, None)
  {
    if ProviderOf(id) in resolvers {
      ResolveWithsAgreeOnDigits(resolvers[ProviderOf(id)], UidOf(id));
    }
  }

  /** As written, `local:-1` resolves on the loaded registry, to data without a name, where
      the intended resolve fails. */
  lemma NegativeLocalUserResolves()
    ensures ResolvedAsWritten(InitialResolvers(), "local:-1", None) == Ok(UserData(None))
    ensures Resolved(InitialResolvers(), "local:-1", None) == Err(UnknownLocalUser("-1"))
  {
    JoinId("local", "-1");
    assert "local" + ":" + "-1" == "local:-1";
    NegativeLocalUidAccepted();
  }

  /** Resolving again keeps the data of the first resolve. */
  lemma ResolveIdempotent(resolvers: map<string, Resolver>, id: string, d: UserData)
    requires Resolved(resolvers, id, None) == Ok(d)
    ensures Resolved(resolvers, id, Some(d)) == Ok(d)
  {
  }

  /** `local:0` resolves to WeToDo on the registry of a freshly loaded module. */
  lemma ResolveLocalUser()
    ensures Resolved(InitialResolvers(), "local:0", None) == Ok(UserData(Some("WeToDo")))
  {
    JoinId("local", "0");
    assert "local" + ":" + "0" == "local:0";
    ResolveLocalZero();
  }

  /** The user of the test resolved twice: as written, the second resolve fails, where the
      intended one reads back WeToDo. */
  lemma SecondResolveFails()
    ensures ResolvedAsWritten(InitialResolvers(), "local:0", None) == Ok(UserData(Some("WeToDo")))
    ensures ResolvedAsWritten(InitialResolvers(), "local:0", Some(UserData(Some("WeToDo")))) == Err(RedefinedData)
    ensures Resolved(InitialResolvers(), "local:0", Some(UserData(Some("WeToDo")))) == Ok(UserData(Some("WeToDo")))
  {
    ResolveLocalUser();
    ResolveLocalUserAsWritten();
  }

  /** As written, the first resolve of `local:0` gives WeToDo too. */
  lemma ResolveLocalUserAsWritten()
    ensures ResolvedAsWritten(InitialResolvers(), "local:0", None) == Ok(UserData(Some("WeToDo")))
  {
    JoinId("local", "0");
    assert "local" + ":" + "0" == "local:0";
    assert All("0", IsDigit);
    LocalResolutionsAgreeOnDigits("0");
    ResolveLocalZero();
  }

  /** A user: its id is fixed at construction, the resolved data attached later. */
  class User {
    const id: string
    var data: Option<UserData>

    constructor (id: string)
      ensures this.id == id && data == None
    {
      this.id := id;
      data := None;
    }

    /** `new User(id)`: the id must be a string. */
    static method Create(id: Arg<string>) returns (r: Result<User>)
      ensures r.Ok? <==> id.Is?
      ensures r.Ok? ==> fresh(r.value) && r.value.id == id.value && r.value.data == None
      ensures r.Err? ==> r.error == NotAString
    {
      if !id.Is? {
        return Err(NotAString);
      }
      var u := new User(id.value);
      return Ok(u);
    }

    /** `user.provider` */
    function Provider(): string
    {
      ProviderOf(id)
    }

    /** `user.uid` */
    function Uid(): string
    {
      UidOf(id)
    }

    /** `user.resolve()` as written: the resolver's data is defined on the user as a property
      that cannot be redefined, so resolving a user a second time fails. */
    method ResolveAsWritten(registry: Registry) returns (o: Outcome)
      modifies this
      ensures ResolvedAsWritten(registry.resolvers, id, old(data)).Ok? ==>
        o == Pass && data == Some(ResolvedAsWritten(registry.resolvers, id, old(data)).value)
      ensures ResolvedAsWritten(registry.resolvers, id, old(data)).Err? ==>
        o == Fail(ResolvedAsWritten(registry.resolvers, id, old(data)).error) && data == old(data)
    {
      var provider := ProviderOf(id);
      if provider !in registry.resolvers {
        return Fail(UnknownProvider(provider));
      }
      var d := ResolveWithAsWritten(registry.resolvers[provider], UidOf(id));
      if d.Err? {
        return Fail(d.error);
      }
      if data.Some? {
        return Fail(RedefinedData);
      }
      data := Some(d.value);
      return Pass;
    }

    /** `user.resolve()`, with data resolved once before read back from the user. */
    method Resolve(registry: Registry) returns (o: Outcome)
      modifies this
      ensures Resolved(registry.resolvers, id, old(data)).Ok? ==>
        o == Pass && data == Some(Resolved(registry.resolvers, id, old(data)).value)
      ensures Resolved(registry.resolvers, id, old(data)).Err? ==>
        o == Fail(Resolved(registry.resolvers, id, old(data)).error) && data == old(data)
    {
      if data.Some? {
        return Pass;
      }
      var provider := ProviderOf(id);
      if provider !in registry.resolvers {
        return Fail(UnknownProvider(provider));
      }
      var d := ResolveWith(registry.resolvers[provider], UidOf(id));
      if d.Err? {
        return Fail(d.error);
      }
      data := Some(d.value);
      return Pass;
    }
  }
}
