/** What the shared decision procedure guarantees. */
module DispatchLaws {
  import opened Wrappers
  import opened Values
  import opened Runtime
  import opened Decimal
  import opened Dispatch

  /** Reference reading of a forwarded call: the contents' result as it is,
      or its exception, with the contents as the call left them. */
  function Contents(c: Value, reply: Reply): Step {
    if reply.Returned? then Step(Ok(Raw(reply.result)), reply.receiver) else Step(Error(reply.err), c)
  }

  /** Reference reading of an intercepted call: the result is handed back
      plain exactly when its class is excluded, else in a new proxy. */
  function Admitted(fl: Flavour, cfg: Config, host: Host, c: Value, reply: Reply): Step {
    if reply.Raised? then Step(Error(reply.err), c)
    else if KindOf(reply.result) in cfg.exclusions then Step(Ok(Raw(reply.result)), reply.receiver)
    else Step(Ok(Wrapped(Wrap(fl, cfg, host, reply.result))), reply.receiver)
  }

  // ---------------------------------------------------------------------
  // Forwarders

  /** A forwarder is installed for exactly the passthrough names the
      contents responds to, in the form its arity asks for. */
  lemma {:induction false} ForwardersExactly(fl: Flavour, host: Host, names: seq<string>, v: Value, f: Forwarder)
    ensures f in Forwarders(fl, host, names, v) <==>
      f.name in names && RespondsTo(fl, host, v, f.name) && f.noArgs == (Arity(fl, host, v, f.name) == 0)
  {
    if names != [] {
      var init := names[..|names| - 1];
      ForwardersExactly(fl, host, init, v, f);
      assert names == init + [names[|names| - 1]];
    }
  }

  lemma {:induction false} SupportedAppend(fl: Flavour, host: Host, a: seq<string>, n: string, v: Value)
    ensures Supported(fl, host, a + [n], v) ==
      Supported(fl, host, a, v) + (if RespondsTo(fl, host, v, n) then [n] else [])
  {
    if a != [] {
      assert (a + [n])[1..] == a[1..] + [n];
      SupportedAppend(fl, host, a[1..], n, v);
    }
  }

  lemma {:induction false} NamesOfAppend(fs: seq<Forwarder>, f: Forwarder)
    ensures NamesOf(fs + [f]) == NamesOf(fs) + [f.name]
  {
  }

  /** Forwarders are installed in passthrough-list order, skipping the names
      the contents does not respond to. */
  lemma {:induction false} ForwardersInOrder(fl: Flavour, host: Host, names: seq<string>, v: Value)
    ensures NamesOf(Forwarders(fl, host, names, v)) == Supported(fl, host, names, v)
  {
    if names != [] {
      var init := names[..|names| - 1];
      var n := names[|names| - 1];
      ForwardersInOrder(fl, host, init, v);
      assert names == init + [n];
      SupportedAppend(fl, host, init, n, v);
      if RespondsTo(fl, host, v, n) {
        NamesOfAppend(Forwarders(fl, host, init, v), Forwarder(n, Arity(fl, host, v, n) == 0));
      }
    }
  }

  lemma NameInNamesOf(fs: seq<Forwarder>, name: string)
    ensures name in NamesOf(fs) <==> exists f :: f in fs && f.name == name
  {
    if name in NamesOf(fs) {
      var i :| 0 <= i < |fs| && NamesOf(fs)[i] == name;
      assert fs[i] in fs;
    }
  }

  /** The forwarder guaranteed to exist for a name: the one of the arity
      its method has. */
  lemma ForwarderNamed(fl: Flavour, host: Host, names: seq<string>, v: Value, n: string)
    ensures n in NamesOf(Forwarders(fl, host, names, v)) <==> n in names && RespondsTo(fl, host, v, n)
  {
    var fs := Forwarders(fl, host, names, v);
    NameInNamesOf(fs, n);
    if n in names && RespondsTo(fl, host, v, n) {
      ForwardersExactly(fl, host, names, v, Forwarder(n, Arity(fl, host, v, n) == 0));
    }
    if n in NamesOf(fs) {
      var f :| f in fs && f.name == n;
      ForwardersExactly(fl, host, names, v, f);
    }
  }

  /** No forwarder ever shadows the unwrap accessor or the hook, and the
      wrapped-state predicate is shadowed exactly when it is listed, since
      every object answers it. */
  lemma NewProxyAccessors(fl: Flavour, cfg: Config, host: Host, v: Value)
    requires fl.Valid()
    ensures fl.unwrap !in NamesOf(Wrap(fl, cfg, host, v).forwarders)
    ensures fl.hook !in NamesOf(Wrap(fl, cfg, host, v).forwarders)
    ensures fl.query in NamesOf(Wrap(fl, cfg, host, v).forwarders) <==> fl.query in cfg.passthrough
  {
    ForwarderNamed(fl, host, cfg.passthrough, v, fl.unwrap);
    ForwarderNamed(fl, host, cfg.passthrough, v, fl.hook);
    ForwarderNamed(fl, host, cfg.passthrough, v, fl.query);
  }

  // ---------------------------------------------------------------------
  // The proxy's own methods

  /** The wrapped-state predicate: true on a proxy, false on every plain
      value; a forwarder installed under its name answers for the contents. */
  lemma QueryAnswer(fl: Flavour, cfg: Config, host: Host, o: Obj)
    requires fl.Valid()
    ensures Query(fl, cfg, host, o) ==
      Ok(Raw(if o.Wrapped? && fl.query !in NamesOf(o.proxy.forwarders) then True else False))
  {
    if o.Wrapped? {
      var p := o.proxy;
      var r := FindForwarder(p.forwarders, fl.query);
      if r.Some? {
        assert Forward(fl, host, p.contents, r.value, []).outcome == Ok(Raw(False));
      }
    }
  }

  /** On a newly built proxy the predicate is true unless it was listed as a
      passthrough name. */
  lemma QueryOnNewProxy(fl: Flavour, cfg: Config, host: Host, v: Value)
    requires fl.Valid()
    ensures Query(fl, cfg, host, Wrapped(Wrap(fl, cfg, host, v))) ==
      Ok(Raw(if fl.query in cfg.passthrough then False else True))
  {
    QueryAnswer(fl, cfg, host, Wrapped(Wrap(fl, cfg, host, v)));
    NewProxyAccessors(fl, cfg, host, v);
  }

  /** Unwrapping a proxy returns exactly its contents and changes nothing;
      a plain value has no unwrap accessor. */
  lemma UnwrapAnswer(fl: Flavour, cfg: Config, host: Host, p: Proxy, v: Value)
    requires fl.Valid() && fl.unwrap !in NamesOf(p.forwarders)
    ensures Resolve(fl, cfg, host, p, fl.unwrap, []) == Step(Ok(Raw(p.contents)), p.contents)
    ensures Unwrap(fl, cfg, host, Wrapped(p)) == Ok(Raw(p.contents))
    ensures Unwrap(fl, cfg, host, Raw(v)) == Error(NoMethodError(fl.unwrap))
  {
  }

  /** Unwrapping the proxy built around v gives v back. */
  lemma UnwrapNewProxy(fl: Flavour, cfg: Config, host: Host, v: Value, honour: bool)
    requires fl.Valid()
    requires Construct(fl, cfg, host, v, honour).Success?
    ensures Unwrap(fl, cfg, host, Wrapped(Construct(fl, cfg, host, v, honour).value)) == Ok(Raw(v))
  {
    NewProxyAccessors(fl, cfg, host, v);
  }

  /** A forwarder's result is the contents' own result, unwrapped and not
      post-checked; the form without arguments refuses arguments. */
  lemma ForwarderReturnsRaw(fl: Flavour, cfg: Config, host: Host, p: Proxy, name: string, args: seq<Value>)
    requires FindForwarder(p.forwarders, name).Some?
    ensures FindForwarder(p.forwarders, name).value.noArgs && |args| > 0 ==>
      Resolve(fl, cfg, host, p, name, args) == Step(Error(ArgumentError), p.contents)
    ensures !(FindForwarder(p.forwarders, name).value.noArgs && |args| > 0) ==>
      Resolve(fl, cfg, host, p, name, args) == Contents(p.contents, Send(fl, host, p.contents, name, args))
  {
  }

  /** The hook called as a method re-dispatches on the name it is given; a
      string given to it is the first key the lookup tries. */
  lemma HookRedispatches(fl: Flavour, cfg: Config, host: Host, p: Proxy, args: seq<Value>)
    requires fl.Valid() && fl.hook !in NamesOf(p.forwarders)
    ensures |args| == 0 ==> Resolve(fl, cfg, host, p, fl.hook, args).outcome == Error(ArgumentError)
    ensures |args| > 0 && args[0].Sym? ==>
      Resolve(fl, cfg, host, p, fl.hook, args) == Resolve(fl, cfg, host, p, args[0].name, args[1..])
    ensures |args| > 0 && args[0].Str? && SelfResponds(fl, p, args[0].s) ==>
      Resolve(fl, cfg, host, p, fl.hook, args) == Resolve(fl, cfg, host, p, args[0].s, args[1..])
    ensures |args| > 0 && args[0].Str? && !SelfResponds(fl, p, args[0].s) ==>
      Resolve(fl, cfg, host, p, fl.hook, args) == Intercept(fl, cfg, host, p.contents, args[0].s, args[0], args[1..])
    ensures |args| > 0 && !(args[0].Sym? || args[0].Str?) ==>
      Resolve(fl, cfg, host, p, fl.hook, args).outcome == Error(TypeError)
  {
  }

  /** On a hash holding both spellings of a key, the hook called with the
      string finds the string's value, while the member call finds the
      symbol's. */
  lemma HookStringKeyFirst(fl: Flavour, cfg: Config, host: Host, p: Proxy, n: string)
    requires fl.Valid() && p.contents.Hash? && fl.hook !in NamesOf(p.forwarders)
    requires !SelfResponds(fl, p, n) && !RespondsTo(fl, host, p.contents, n)
    ensures HasKey(p.contents.entries, Str(n)) ==>
      Resolve(fl, cfg, host, p, fl.hook, [Str(n)]) ==
        Admitted(fl, cfg, host, p.contents, Returned(Lookup(p.contents.entries, Str(n)), p.contents))
    ensures HasKey(p.contents.entries, Sym(n)) ==>
      Resolve(fl, cfg, host, p, n, []) ==
        Admitted(fl, cfg, host, p.contents, Returned(Lookup(p.contents.entries, Sym(n)), p.contents))
  {
    var c := p.contents;
    if HasKey(c.entries, Str(n)) {
      HookRedispatches(fl, cfg, host, p, [Str(n)]);
      assert [Str(n)][1..] == [];
      HashLookupStep(fl, cfg, host, c.entries, n, Str(n));
    }
    if HasKey(c.entries, Sym(n)) {
      ResolveIntercepts(fl, cfg, host, p, n, []);
      HashLookupStep(fl, cfg, host, c.entries, n, Sym(n));
    }
  }

  /** A name only indexing answers, whose first key is in the hash, is
      looked up under that key. */
  lemma HashLookupStep(fl: Flavour, cfg: Config, host: Host, en: seq<Entry>, n: string, first: Value)
    requires fl.Valid() && !RespondsTo(fl, host, Hash(en), n) && HasKey(en, first)
    ensures Intercept(fl, cfg, host, Hash(en), n, first, []) ==
      Admitted(fl, cfg, host, Hash(en), Returned(Lookup(en, first), Hash(en)))
  {
    HashIndexDefined(fl, host, en, first);
    HashKeyTrial(fl, host, en, n, first);
    InterceptByLookup(fl, cfg, host, Hash(en), n, first, [], first);
    assert [first] + [] == [first];
  }

  /** On a wrapped string, the hook called with a substring looks it up,
      while the member call of the same name raises in the symbol trial. */
  lemma HookStringOnString(fl: Flavour, cfg: Config, host: Host, p: Proxy, n: string)
    requires fl.Valid() && p.contents.Str? && fl.hook !in NamesOf(p.forwarders)
    requires !SelfResponds(fl, p, n) && !RespondsTo(fl, host, p.contents, n)
    ensures IsSubstring(n, p.contents.s) ==>
      Resolve(fl, cfg, host, p, fl.hook, [Str(n)]) ==
        Admitted(fl, cfg, host, p.contents, Send(fl, host, p.contents, "[]", [Str(n)]))
    ensures Resolve(fl, cfg, host, p, n, []) == Step(Error(TypeError), p.contents)
  {
    var c := p.contents;
    assert RespondsTo(fl, host, c, "[]");
    StringKeyTrial(fl, host, c.s, n);
    if IsSubstring(n, c.s) {
      HookRedispatches(fl, cfg, host, p, [Str(n)]);
      assert [Str(n)][1..] == [];
      InterceptByLookup(fl, cfg, host, c, n, Str(n), [], Str(n));
      assert [Str(n)] + [] == [Str(n)];
    }
    ResolveIntercepts(fl, cfg, host, p, n, []);
    InterceptKeyFails(fl, cfg, host, c, n, Sym(n), []);
  }

  // ---------------------------------------------------------------------
  // The three interception branches

  /** A method the contents has is called with the arguments as given; its
      result is returned raw exactly when its class is excluded, and
      otherwise in a new proxy built under the current configuration. */
  lemma MethodBranch(fl: Flavour, cfg: Config, host: Host, p: Proxy, name: string, args: seq<Value>)
    requires !SelfResponds(fl, p, name) && RespondsTo(fl, host, p.contents, name)
    ensures Resolve(fl, cfg, host, p, name, args) ==
      Admitted(fl, cfg, host, p.contents, Send(fl, host, p.contents, name, args))
  {
  }

  /** Otherwise, contents that support indexing are indexed with the
      resolved key followed by the extra arguments. */
  lemma LookupBranch(fl: Flavour, cfg: Config, host: Host, p: Proxy, name: string, args: seq<Value>)
    requires !SelfResponds(fl, p, name) && !RespondsTo(fl, host, p.contents, name)
    requires RespondsTo(fl, host, p.contents, "[]")
    ensures ResolveKey(fl, host, p.contents, name, Sym(name)).Failure? ==>
      Resolve(fl, cfg, host, p, name, args) ==
        Step(Error(ResolveKey(fl, host, p.contents, name, Sym(name)).error), p.contents)
    ensures ResolveKey(fl, host, p.contents, name, Sym(name)).Success? ==>
      Resolve(fl, cfg, host, p, name, args) == Admitted(fl, cfg, host, p.contents,
        Send(fl, host, p.contents, "[]", [ResolveKey(fl, host, p.contents, name, Sym(name)).value] + args))
  {
  }

  /** The last branch never returns normally: a failure of the contents
      propagates unchanged, and a result is asked for the unwrap accessor,
      which no plain object has. */
  lemma FallthroughFails(fl: Flavour, cfg: Config, host: Host, p: Proxy, name: string, args: seq<Value>)
    requires fl.Valid()
    requires !SelfResponds(fl, p, name) && !RespondsTo(fl, host, p.contents, name)
    requires !RespondsTo(fl, host, p.contents, "[]")
    ensures Resolve(fl, cfg, host, p, name, args).outcome ==
      Error(if Send(fl, host, p.contents, name, args).Raised?
            then Send(fl, host, p.contents, name, args).err
            else NoMethodError(fl.unwrap))
  {
  }

  /** A name that is neither a passthrough name nor one of the proxy's own
      reaches the hook's resolution on the contents. */
  lemma OnNewProxy(fl: Flavour, cfg: Config, host: Host, v: Value, name: string, args: seq<Value>)
    requires fl.Valid() && name !in cfg.passthrough
    requires name != fl.query && name != fl.unwrap && name != fl.hook
    ensures Resolve(fl, cfg, host, Wrap(fl, cfg, host, v), name, args) == Intercept(fl, cfg, host, v, name, Sym(name), args)
  {
    ForwarderNamed(fl, host, cfg.passthrough, v, name);
  }

  /** On a new proxy, a name outside the passthrough list that the
      contents answer is their method; its result is admitted or wrapped. */
  lemma NewProxyMethod(fl: Flavour, cfg: Config, host: Host, v: Value, name: string, args: seq<Value>)
    requires fl.Valid() && name !in cfg.passthrough
    requires name != fl.query && name != fl.unwrap && name != fl.hook
    requires RespondsTo(fl, host, v, name)
    ensures Resolve(fl, cfg, host, Wrap(fl, cfg, host, v), name, args) == Admitted(fl, cfg, host, v, Send(fl, host, v, name, args))
  {
    OnNewProxy(fl, cfg, host, v, name, args);
    InterceptByMethod(fl, cfg, host, v, name, Sym(name), args);
  }

  /** On a new proxy, a name outside the passthrough list that only indexing
      can answer is looked up under its resolved key. */
  lemma NewProxyLookup(fl: Flavour, cfg: Config, host: Host, v: Value, name: string, key: Value)
    requires fl.Valid() && name !in cfg.passthrough
    requires name != fl.query && name != fl.unwrap && name != fl.hook
    requires !RespondsTo(fl, host, v, name) && RespondsTo(fl, host, v, "[]")
    ensures ResolveKey(fl, host, v, name, Sym(name)) == Success(key) ==>
      Resolve(fl, cfg, host, Wrap(fl, cfg, host, v), name, []) == Admitted(fl, cfg, host, v, Send(fl, host, v, "[]", [key]))
  {
    if ResolveKey(fl, host, v, name, Sym(name)) == Success(key) {
      OnNewProxy(fl, cfg, host, v, name, []);
      InterceptByLookup(fl, cfg, host, v, name, Sym(name), [], key);
      assert [key] + [] == [key];
    }
  }

  lemma InterceptByMethod(fl: Flavour, cfg: Config, host: Host, c: Value, name: string, first: Value, args: seq<Value>)
    requires RespondsTo(fl, host, c, name)
    ensures Intercept(fl, cfg, host, c, name, first, args) == Admitted(fl, cfg, host, c, Send(fl, host, c, name, args))
  {
  }

  lemma InterceptKeyFails(fl: Flavour, cfg: Config, host: Host, c: Value, name: string, first: Value, args: seq<Value>)
    requires !RespondsTo(fl, host, c, name) && RespondsTo(fl, host, c, "[]")
    requires ResolveKey(fl, host, c, name, first).Failure?
    ensures Intercept(fl, cfg, host, c, name, first, args) == Step(Error(ResolveKey(fl, host, c, name, first).error), c)
  {
  }

  lemma InterceptByLookup(fl: Flavour, cfg: Config, host: Host, c: Value, name: string, first: Value, args: seq<Value>, key: Value)
    requires !RespondsTo(fl, host, c, name) && RespondsTo(fl, host, c, "[]")
    requires ResolveKey(fl, host, c, name, first) == Success(key)
    ensures Intercept(fl, cfg, host, c, name, first, args) == Admitted(fl, cfg, host, c, Send(fl, host, c, "[]", [key] + args))
  {
  }

  // ---------------------------------------------------------------------
  // Key trial on the core containers

  /** `include?` on the core containers: key presence on a hash, element
      membership on an array; a string accepts only strings. */
  lemma IncludesOnContainers(fl: Flavour, host: Host, k: Value)
    requires fl.Valid()
    ensures forall en :: Includes(fl, host, Hash(en), k) == Success(HasKey(en, k))
    ensures forall e :: Includes(fl, host, Arr(e), k) == Success(k in e)
    ensures forall s :: !k.Str? ==> Includes(fl, host, Str(s), k) == Failure(TypeError)
  {
    forall s | !k.Str? ensures Includes(fl, host, Str(s), k) == Failure(TypeError) {
      StringIncludes(fl, host, s, k);
    }
    assert "include?" != fl.query && "include?" != fl.unwrap && "include?" != fl.hook by {
      assert KnownName("include?");
    }
  }

  /** On a hash, the key is the name as given if present, else the string
      if present, else the last candidate; the trial itself never fails. */
  lemma HashKeyTrial(fl: Flavour, host: Host, en: seq<Entry>, name: string, first: Value)
    requires fl.Valid()
    ensures ResolveKey(fl, host, Hash(en), name, first) == Success(
      if HasKey(en, first) then first
      else if HasKey(en, Str(name)) then Str(name)
      else IndexCandidate(name))
  {
    IncludesOnContainers(fl, host, first);
    IncludesOnContainers(fl, host, Str(name));
    IncludesOnContainers(fl, host, IndexCandidate(name));
  }

  /** On an array, `include?` is element membership, not index validity:
      the symbol or string is chosen only if it is an element. */
  lemma ArrayKeyTrial(fl: Flavour, host: Host, e: seq<Value>, name: string, first: Value)
    requires fl.Valid()
    ensures ResolveKey(fl, host, Arr(e), name, first) == Success(
      if first in e then first
      else if Str(name) in e then Str(name)
      else IndexCandidate(name))
  {
    IncludesOnContainers(fl, host, first);
    IncludesOnContainers(fl, host, Str(name));
    IncludesOnContainers(fl, host, IndexCandidate(name));
  }

  /** `String#include?` tests for a substring and rejects anything but a
      string. */
  lemma StringIncludes(fl: Flavour, host: Host, s: string, k: Value)
    requires fl.Valid()
    ensures Includes(fl, host, Str(s), k) == if k.Str? then Success(IsSubstring(k.s, s)) else Failure(TypeError)
  {
    assert KnownName("include?") && CoreResponds(StringClass, "include?");
    assert Send(fl, host, Str(s), "include?", [k]) == StringSend(host, s, "include?", [k]);
  }

  /** A string's `include?` accepts only strings, so the symbol trial
      raises; a string given to the hook is taken when it is a substring,
      and otherwise the trial raises at an integer candidate. */
  lemma StringKeyTrial(fl: Flavour, host: Host, s: string, name: string)
    requires fl.Valid()
    ensures ResolveKey(fl, host, Str(s), name, Sym(name)) == Failure(TypeError)
    ensures ResolveKey(fl, host, Str(s), name, Str(name)) ==
      if IsSubstring(name, s) || !RoundTrips(name) then Success(Str(name)) else Failure(TypeError)
  {
    StringIncludes(fl, host, s, Sym(name));
    StringIncludes(fl, host, s, Str(name));
    StringIncludes(fl, host, s, IndexCandidate(name));
  }

  /** The integer candidate is taken exactly when the name is the canonical
      decimal text of a number. */
  lemma IndexCandidateIsInteger(name: string)
    ensures IndexCandidate(name).Int? <==> Canonical(name)
    ensures Canonical(name) ==> ToS(IndexCandidate(name).i) == name
  {
    RoundTripIffCanonical(name);
  }

  lemma ResolveIntercepts(fl: Flavour, cfg: Config, host: Host, p: Proxy, name: string, args: seq<Value>)
    requires !SelfResponds(fl, p, name)
    ensures Resolve(fl, cfg, host, p, name, args) == Intercept(fl, cfg, host, p.contents, name, Sym(name), args)
  {
  }

  lemma ArrayIndexDefined(fl: Flavour, host: Host, e: seq<Value>, args: seq<Value>)
    requires fl.Valid()
    ensures RespondsTo(fl, host, Arr(e), "[]")
    ensures Send(fl, host, Arr(e), "[]", args) == ArrayGet(e, args)
  {
    assert KnownName("[]");
  }

  lemma HashIndexDefined(fl: Flavour, host: Host, en: seq<Entry>, k: Value)
    requires fl.Valid()
    ensures RespondsTo(fl, host, Hash(en), "[]")
    ensures Send(fl, host, Hash(en), "[]", [k]) == Returned(Lookup(en, k), Hash(en))
  {
    assert KnownName("[]");
  }

  /** A member name that spells a number indexes an array that holds neither
      the name's symbol nor its string, even when the number is not an
      element. */
  lemma NumericNameIndexesArray(fl: Flavour, cfg: Config, host: Host, p: Proxy, name: string)
    requires fl.Valid() && p.contents.Arr?
    requires !SelfResponds(fl, p, name) && !RespondsTo(fl, host, p.contents, name)
    requires Sym(name) !in p.contents.elems && Str(name) !in p.contents.elems
    requires Canonical(name)
    ensures Resolve(fl, cfg, host, p, name, []) ==
      Rewrap(fl, cfg, host, p.contents, ArrayGet(p.contents.elems, [Int(ToI(name))]))
  {
    var e := p.contents.elems;
    calc {
      Resolve(fl, cfg, host, p, name, []);
    == { ResolveIntercepts(fl, cfg, host, p, name, []); }
      Intercept(fl, cfg, host, Arr(e), name, Sym(name), []);
    == { RoundTripIffCanonical(name);
         ArrayKeyTrial(fl, host, e, name, Sym(name));
         ArrayIndexDefined(fl, host, e, [Int(ToI(name))]);
         InterceptByLookup(fl, cfg, host, Arr(e), name, Sym(name), [], Int(ToI(name)));
         assert [Int(ToI(name))] + [] == [Int(ToI(name))]; }
      Admitted(fl, cfg, host, Arr(e), ArrayGet(e, [Int(ToI(name))]));
    }
  }

  /** A name with a leading zero stays a string, and arrays reject string
      indices. */
  lemma LeadingZeroNameOnArray(fl: Flavour, cfg: Config, host: Host, p: Proxy)
    requires fl.Valid() && p.contents.Arr?
    requires !SelfResponds(fl, p, "007") && !RespondsTo(fl, host, p.contents, "007")
    requires Sym("007") !in p.contents.elems && Str("007") !in p.contents.elems
    ensures Resolve(fl, cfg, host, p, "007", []) == Step(Error(TypeError), p.contents)
  {
    var e := p.contents.elems;
    calc {
      Resolve(fl, cfg, host, p, "007", []);
    == { ResolveIntercepts(fl, cfg, host, p, "007", []); }
      Intercept(fl, cfg, host, Arr(e), "007", Sym("007"), []);
    == { LeadingZeroStaysText();
         ArrayKeyTrial(fl, host, e, "007", Sym("007"));
         ArrayIndexDefined(fl, host, e, [Str("007")]);
         InterceptByLookup(fl, cfg, host, Arr(e), "007", Sym("007"), [], Str("007"));
         assert [Str("007")] + [] == [Str("007")]; }
      Admitted(fl, cfg, host, Arr(e), ArrayGet(e, [Str("007")]));
    }
  }
}
