/** The decision procedure both proxy classes share: construction, the
    passthrough forwarders, and the interception hook that resolves an
    unknown member name as a method of the contents, as a lookup key, or as
    a call the contents is expected to refuse. */
module Dispatch {
  import opened Wrappers
  import opened Values
  import opened Runtime
  import opened Decimal

  /** The class-level lists a proxy class reads: the names to forward
      directly, and the classes whose instances are never left wrapped. */
  datatype Config = Config(passthrough: seq<string>, exclusions: seq<Kind>)

  /** A per-instance forwarder: the method name, and whether it was installed
      in the form that takes no arguments. */
  datatype Forwarder = Forwarder(name: string, noArgs: bool)

  /** The state of one proxy: what it wraps and the forwarders on it. */
  datatype Proxy = Proxy(contents: Value, forwarders: seq<Forwarder>)

  /** An object handed back to the caller: a plain value, or a new proxy. */
  datatype Obj = Raw(value: Value) | Wrapped(proxy: Proxy)

  datatype Outcome = Ok(obj: Obj) | Error(err: Err)

  /** One call on a proxy: what it returned or raised, and the proxy's
      contents as the call left them. */
  datatype Step = Step(outcome: Outcome, contents: Value)

  // ---------------------------------------------------------------------
  // Construction

  /** The forwarders the constructor installs, one per passthrough name the
      contents responds to, in list order; a method of arity zero gets the
      form without arguments. */
  function Forwarders(fl: Flavour, host: Host, names: seq<string>, v: Value): (fs: seq<Forwarder>)
    ensures |fs| <= |names|
    ensures forall i :: 0 <= i < |fs| ==> fs[i].name in names && RespondsTo(fl, host, v, fs[i].name)
  {
    if names == [] then []
    else
      var init := Forwarders(fl, host, names[..|names| - 1], v);
      var n := names[|names| - 1];
      if RespondsTo(fl, host, v, n) then init + [Forwarder(n, Arity(fl, host, v, n) == 0)] else init
  }

  /** The passthrough names the contents responds to, read from the front. */
  function Supported(fl: Flavour, host: Host, names: seq<string>, v: Value): seq<string> {
    if names == [] then []
    else (if RespondsTo(fl, host, v, names[0]) then [names[0]] else []) + Supported(fl, host, names[1..], v)
  }

  function NamesOf(fs: seq<Forwarder>): (ns: seq<string>)
    ensures |ns| == |fs| && forall i :: 0 <= i < |fs| ==> ns[i] == fs[i].name
  {
    if fs == [] then [] else [fs[0].name] + NamesOf(fs[1..])
  }

  /** `new(v, false)`: a proxy around v whose forwarders all carry
      passthrough names v answers. */
  function Wrap(fl: Flavour, cfg: Config, host: Host, v: Value): (p: Proxy)
    ensures p.contents == v
    ensures forall i :: 0 <= i < |p.forwarders| ==>
      p.forwarders[i].name in cfg.passthrough && RespondsTo(fl, host, v, p.forwarders[i].name)
  {
    Proxy(v, Forwarders(fl, host, cfg.passthrough, v))
  }

  /** `new(v, honour_exclusions)`: refused exactly when exclusions are honoured
      and the class of v is listed; otherwise v is stored as it is. */
  function Construct(fl: Flavour, cfg: Config, host: Host, v: Value, honour: bool): (r: Result<Proxy, Err>)
    ensures r.Failure? <==> honour && KindOf(v) in cfg.exclusions
    ensures r.Failure? ==> r.error == ExclusionError(KindOf(v))
    ensures r.Success? ==> r.value.contents == v
  {
    if honour && KindOf(v) in cfg.exclusions then Failure(ExclusionError(KindOf(v)))
    else Success(Wrap(fl, cfg, host, v))
  }

  // ---------------------------------------------------------------------
  // The proxy's own methods

  /** The first forwarder installed under a name (a forwarder installed twice
      under one name is the same forwarder, so first and last agree). */
  function FindForwarder(fs: seq<Forwarder>, name: string): (r: Option<Forwarder>)
    ensures r.Some? ==> r.value in fs && r.value.name == name
    ensures r.None? <==> name !in NamesOf(fs)
  {
    if fs == [] then None
    else if fs[0].name == name then Some(fs[0])
    else FindForwarder(fs[1..], name)
  }

  /** `self.respond_to?(name)` on a proxy: its forwarders and the three
      methods of the proxy class. */
  predicate SelfResponds(fl: Flavour, p: Proxy, name: string)
    ensures SelfResponds(fl, p, name) <==>
      FindForwarder(p.forwarders, name).Some? || name == fl.query || name == fl.unwrap || name == fl.hook
  {
    name in NamesOf(p.forwarders) || name == fl.query || name == fl.unwrap || name == fl.hook
  }

  /** A forwarder returns the contents' own result, unwrapped. */
  function Forward(fl: Flavour, host: Host, c: Value, f: Forwarder, args: seq<Value>): (st: Step)
    ensures st.outcome.Ok? ==> st.outcome.obj.Raw?
  {
    if f.noArgs && |args| > 0 then Step(Error(ArgumentError), c)
    else match Send(fl, host, c, f.name, args)
      case Returned(r, c') => Step(Ok(Raw(r)), c')
      case Raised(e) => Step(Error(e), c)
  }

  // ---------------------------------------------------------------------
  // Interception

  /** The exclusion post-check: a new proxy whose contents belong to an
      excluded class is discarded for its contents. */
  function PostCheck(cfg: Config, p: Proxy): (o: Obj)
    ensures o.Raw? <==> KindOf(p.contents) in cfg.exclusions
    ensures o.Raw? ==> o.value == p.contents
    ensures o.Wrapped? ==> o.proxy == p
  {
    if KindOf(p.contents) in cfg.exclusions then Raw(p.contents) else Wrapped(p)
  }

  /** What the hook may hand back in a proxy: one built as `new(v, false)`
      under the current configuration, around a value of a class that is not
      excluded. */
  predicate Admissible(fl: Flavour, cfg: Config, host: Host, st: Step) {
    st.outcome.Ok? && st.outcome.obj.Wrapped? ==>
      var q := st.outcome.obj.proxy;
      q == Wrap(fl, cfg, host, q.contents) && KindOf(q.contents) !in cfg.exclusions
  }

  /** A result of the method or lookup branch, wrapped with the exclusion
      check off, then post-checked. */
  function Rewrap(fl: Flavour, cfg: Config, host: Host, c: Value, reply: Reply): (st: Step)
    ensures Admissible(fl, cfg, host, st)
    ensures st.outcome.Ok? <==> reply.Returned?
  {
    match reply
    case Returned(r, c') => Step(Ok(PostCheck(cfg, Wrap(fl, cfg, host, r))), c')
    case Raised(e) => Step(Error(e), c)
  }

  /** The result of the fallthrough branch is a plain object, and the
      post-check asks it for the unwrap accessor, which no plain object
      has: the branch never returns normally. */
  function Fallthrough(fl: Flavour, reply: Reply, c: Value): (st: Step)
    ensures st.outcome.Error?
    ensures reply.Raised? ==> st.outcome.err == reply.err
  {
    match reply
    case Raised(e) => Step(Error(e), c)
    case Returned(_, c') => Step(Error(NoMethodError(fl.unwrap)), c')
  }

  /** `contents.include?(k)`, read as a truth value; a core object other
      than a string, an array or a hash has no `include?`. */
  function Includes(fl: Flavour, host: Host, c: Value, k: Value): (r: Result<bool, Err>)
    ensures fl.Valid() && IsCore(KindOf(c)) && !(c.Str? || c.Arr? || c.Hash?) ==>
      r == Failure(NoMethodError("include?"))
  {
    match Send(fl, host, c, "include?", [k])
    case Raised(e) => Failure(e)
    case Returned(r, _) => Success(Truthy(r))
  }

  /** The integer a member name stands for, when its text round-trips. */
  function IndexCandidate(name: string): (k: Value)
    ensures k.Int? || k == Str(name)
    ensures k.Int? ==> ToS(k.i) == name
  {
    if RoundTrips(name) then Int(ToI(name)) else Str(name)
  }

  /** The lookup key: the name the hook was given (a symbol, or a string
      when the hook is called by name) if the contents include it, else the
      name as a string if they include that, else the last candidate, which
      is the integer when the text round-trips and the string otherwise. */
  function ResolveKey(fl: Flavour, host: Host, c: Value, name: string, first: Value): (r: Result<Value, Err>)
    ensures r.Success? ==> r.value in {first, Str(name), IndexCandidate(name)}
    ensures Includes(fl, host, c, first) == Success(true) ==> r == Success(first)
    ensures first == Sym(name) ==> (r == Success(Sym(name)) <==> Includes(fl, host, c, Sym(name)) == Success(true))
  {
    match Includes(fl, host, c, first)
    case Failure(e) => Failure(e)
    case Success(hit) =>
      if hit then Success(first)
      else match Includes(fl, host, c, Str(name))
        case Failure(e) => Failure(e)
        case Success(hit') =>
          if hit' then Success(Str(name))
          else
            var k := IndexCandidate(name);
            match Includes(fl, host, c, k)
            case Failure(e) => Failure(e)
            case Success(_) => Success(k)
  }

  /** `proxy.name(*args)` once the interception hook is in place: the
      proxy's own method, else the hook's resolution on the contents. */
  function Resolve(fl: Flavour, cfg: Config, host: Host, p: Proxy, name: string, args: seq<Value>): (st: Step)
    ensures Admissible(fl, cfg, host, st)
    decreases |args|, 1
  {
    if SelfResponds(fl, p, name) then OwnMethod(fl, cfg, host, p, name, args)
    else Intercept(fl, cfg, host, p.contents, name, Sym(name), args)
  }

  /** A method of the proxy: a forwarder, the predicate, the unwrap
      accessor, or the hook called by name, which re-dispatches on the name
      it is given and, given a string, tries that string as the first key. */
  function OwnMethod(fl: Flavour, cfg: Config, host: Host, p: Proxy, name: string, args: seq<Value>): (st: Step)
    requires SelfResponds(fl, p, name)
    ensures Admissible(fl, cfg, host, st)
    decreases |args|, 0
  {
    var c := p.contents;
    match FindForwarder(p.forwarders, name)
    case Some(f) => Forward(fl, host, c, f, args)
    case None =>
      if name == fl.query then
        if |args| == 0 then Step(Ok(Raw(True)), c) else Step(Error(ArgumentError), c)
      else if name == fl.unwrap then
        if |args| == 0 then Step(Ok(Raw(c)), c) else Step(Error(ArgumentError), c)
      else if |args| == 0 then Step(Error(ArgumentError), c)
      else
        match args[0]
        case Sym(n) => Resolve(fl, cfg, host, p, n, args[1..])
        case Str(n) =>
          if SelfResponds(fl, p, n) then OwnMethod(fl, cfg, host, p, n, args[1..])
          else Intercept(fl, cfg, host, c, n, args[0], args[1..])
        case _ => Step(Error(TypeError), c)
  }

  /** The hook on a name the proxy does not define: the contents' method
      with the result re-wrapped, else a lookup, else the call is forwarded
      and its result post-checked. */
  function Intercept(fl: Flavour, cfg: Config, host: Host, c: Value, name: string, first: Value, args: seq<Value>): (st: Step)
    ensures Admissible(fl, cfg, host, st)
    ensures !RespondsTo(fl, host, c, name) && !RespondsTo(fl, host, c, "[]") ==> st.outcome.Error?
  {
    if RespondsTo(fl, host, c, name) then Rewrap(fl, cfg, host, c, Send(fl, host, c, name, args))
    else if RespondsTo(fl, host, c, "[]") then LookupCall(fl, cfg, host, c, name, first, args)
    else Fallthrough(fl, Send(fl, host, c, name, args), c)
  }

  /** A lookup with the resolved key followed by the extra arguments; it
      succeeds only when a key is found and the contents' `[]` returns. */
  function LookupCall(fl: Flavour, cfg: Config, host: Host, c: Value, name: string, first: Value, args: seq<Value>): (st: Step)
    ensures Admissible(fl, cfg, host, st)
    ensures st.outcome.Ok? ==>
      (ResolveKey(fl, host, c, name, first).Success? &&
       Send(fl, host, c, "[]", [ResolveKey(fl, host, c, name, first).value] + args).Returned?)
  {
    match ResolveKey(fl, host, c, name, first)
    case Failure(e) => Step(Error(e), c)
    case Success(key) => Rewrap(fl, cfg, host, c, Send(fl, host, c, "[]", [key] + args))
  }

  /** `o.predicate?` on any object: a plain value answers false (the default
      defined on Object), a proxy answers through its own dispatch. */
  function Query(fl: Flavour, cfg: Config, host: Host, o: Obj): (r: Outcome)
    ensures o.Raw? ==> r == Ok(Raw(False))
  {
    match o
    case Raw(v) =>
      (match Send(fl, host, v, fl.query, [])
       case Returned(r, _) => Ok(Raw(r))
       case Raised(e) => Error(e))
    case Wrapped(p) => Resolve(fl, cfg, host, p, fl.query, []).outcome
  }

  /** `o.unwrap`: defined only on a proxy. */
  function Unwrap(fl: Flavour, cfg: Config, host: Host, o: Obj): (r: Outcome)
    ensures fl.Valid() && o.Raw? ==> r == Error(NoMethodError(fl.unwrap))
  {
    match o
    case Raw(v) =>
      (match Send(fl, host, v, fl.unwrap, [])
       case Returned(r, _) => Ok(Raw(r))
       case Raised(e) => Error(e))
    case Wrapped(p) => Resolve(fl, cfg, host, p, fl.unwrap, []).outcome
  }
}
