/** The `Methodicate` proxy class: class-level configuration with
    normalising setters and a reset, the constructor that installs the
    forwarders, the two accessors, and the interception hook. */
module Methodicate {
  import opened Wrappers
  import opened Values
  import opened Runtime
  import opened Dispatch
  import DispatchLaws

  /** `methodicated?`, `unmethodicated` and `methodicate_method_missing`. */
  const Names: Flavour := Flavour("methodicated?", "unmethodicated", "methodicate_method_missing")

  lemma NamesValid()
    ensures Names.Valid()
  {
  }

  const DefaultPassthroughMethods: seq<string> := [
    "<", "<=", "==", "eql?", ">", ">=", "<=>",
    "class", "inspect", "instance_of?", "is_a?", "kind_of?", "to_s", "to_str"]

  const DefaultExclusions: seq<Kind> :=
    [NilClass, Fixnum, StringClass, SymbolClass, TrueClass, FalseClass]

  /** An argument to `passthrough_methods=` once arrays are taken apart: a
      symbol, a string, or some other object, which has no `to_sym`. */
  datatype Label = SymLabel(name: string) | StrLabel(name: string) | OtherLabel(kind: Kind)

  /** `[*args].flatten.uniq.map(&:to_sym)`: duplicates are removed before
      the conversion, so a string and the symbol it spells both survive. */
  function Normalise(args: seq<Nested<Label>>): (r: Result<seq<string>, Err>)
    ensures r.Failure? ==> r.error == NoMethodError("to_sym")
  {
    var u := Uniq(Flatten(args));
    if forall i :: 0 <= i < |u| ==> !u[i].OtherLabel? then Success(seq(|u|, i requires 0 <= i < |u| => u[i].name))
    else Failure(NoMethodError("to_sym"))
  }

  function Syms(xs: seq<string>): (r: seq<Label>)
    ensures |r| == |xs| && forall i :: 0 <= i < |xs| ==> r[i] == SymLabel(xs[i])
  {
    seq(|xs|, i requires 0 <= i < |xs| => SymLabel(xs[i]))
  }

  function Strs(xs: seq<string>): (r: seq<Label>)
    ensures |r| == |xs| && forall i :: 0 <= i < |xs| ==> r[i] == StrLabel(xs[i])
  {
    seq(|xs|, i requires 0 <= i < |xs| => StrLabel(xs[i]))
  }

  /** The setter succeeds exactly when every argument, at any depth, is a
      symbol or a string. */
  lemma NormaliseSucceeds(args: seq<Nested<Label>>)
    ensures Normalise(args).Success? <==> forall k :: !Occurs(args, OtherLabel(k))
  {
    var u := Uniq(Flatten(args));
    if Normalise(args).Failure? {
      var i :| 0 <= i < |u| && u[i].OtherLabel?;
      FlattenMembers(args, u[i]);
      assert Occurs(args, OtherLabel(u[i].kind));
    } else {
      forall k ensures !Occurs(args, OtherLabel(k)) {
        FlattenMembers(args, OtherLabel(k));
      }
    }
  }

  /** A name is in the new list exactly when it was given, as a symbol or as
      a string, at any depth. */
  lemma NormaliseMembers(args: seq<Nested<Label>>, n: string)
    requires Normalise(args).Success?
    ensures n in Normalise(args).value <==> Occurs(args, SymLabel(n)) || Occurs(args, StrLabel(n))
  {
    var u := Uniq(Flatten(args));
    var r := Normalise(args).value;
    FlattenMembers(args, SymLabel(n));
    FlattenMembers(args, StrLabel(n));
    if n in r {
      var i :| 0 <= i < |r| && r[i] == n;
      assert u[i] in Flatten(args);
      assert u[i] == SymLabel(n) || u[i] == StrLabel(n);
    }
    if SymLabel(n) in Flatten(args) {
      var j :| 0 <= j < |Flatten(args)| && Flatten(args)[j] == SymLabel(n);
      var i :| 0 <= i < |u| && u[i] == SymLabel(n);
      assert r[i] == n;
    }
    if StrLabel(n) in Flatten(args) {
      var j :| 0 <= j < |Flatten(args)| && Flatten(args)[j] == StrLabel(n);
      var i :| 0 <= i < |u| && u[i] == StrLabel(n);
      assert r[i] == n;
    }
  }

  lemma {:induction false} UniqSyms(xs: seq<string>)
    ensures Uniq(Syms(xs)) == Syms(Uniq(xs))
  {
    if xs != [] {
      var init := xs[..|xs| - 1];
      var last := xs[|xs| - 1];
      UniqSyms(init);
      assert Syms(xs)[..|xs| - 1] == Syms(init);
      assert SymLabel(last) in Syms(Uniq(init)) <==> last in Uniq(init);
      if last !in Uniq(init) {
        assert Syms(Uniq(init) + [last]) == Syms(Uniq(init)) + [SymLabel(last)];
      }
    }
  }

  lemma {:induction false} UniqStrs(xs: seq<string>)
    ensures Uniq(Strs(xs)) == Strs(Uniq(xs))
  {
    if xs != [] {
      var init := xs[..|xs| - 1];
      var last := xs[|xs| - 1];
      UniqStrs(init);
      assert Strs(xs)[..|xs| - 1] == Strs(init);
      assert StrLabel(last) in Strs(Uniq(init)) <==> last in Uniq(init);
      if last !in Uniq(init) {
        assert Strs(Uniq(init) + [last]) == Strs(Uniq(init)) + [StrLabel(last)];
      }
    }
  }

  lemma NormaliseNames(args: seq<Nested<Label>>, ls: seq<Label>, xs: seq<string>)
    requires Uniq(Flatten(args)) == ls
    requires |ls| == |xs| && forall i :: 0 <= i < |ls| ==> ls[i] == SymLabel(xs[i]) || ls[i] == StrLabel(xs[i])
    ensures Normalise(args) == Success(xs)
  {
    var u := Uniq(Flatten(args));
    assert seq(|u|, i requires 0 <= i < |u| => u[i].name) == xs;
  }

  /** Symbols and strings are interchangeable when they are not mixed:
      either list gives the names with repeats removed, nested or not. */
  lemma SymbolsOrStrings(xs: seq<string>)
    ensures Normalise(Items(Syms(xs))) == Success(Uniq(xs))
    ensures Normalise(Items(Strs(xs))) == Success(Uniq(xs))
    ensures Normalise([List(Items(Strs(xs)))]) == Success(Uniq(xs))
  {
    UniqSyms(xs);
    FlattenFlat(Syms(xs));
    NormaliseNames(Items(Syms(xs)), Syms(Uniq(xs)), Uniq(xs));
    UniqStrs(xs);
    FlattenFlat(Strs(xs));
    NormaliseNames(Items(Strs(xs)), Strs(Uniq(xs)), Uniq(xs));
    FlattenSingle(Items(Strs(xs)));
    NormaliseNames([List(Items(Strs(xs)))], Strs(Uniq(xs)), Uniq(xs));
  }

  /** The list the setter receives from `reset`: one array of symbols. */
  lemma NestedSymbols(xs: seq<string>)
    ensures Normalise([List(Items(Syms(xs)))]) == Success(Uniq(xs))
  {
    UniqSyms(xs);
    FlattenFlat(Syms(xs));
    FlattenSingle(Items(Syms(xs)));
    NormaliseNames([List(Items(Syms(xs)))], Syms(Uniq(xs)), Uniq(xs));
  }

  /** Because repeats are removed before conversion, a string and the same
      name as a symbol both end up in the list. */
  lemma MixedSpellingsBothKept()
    ensures Normalise([Item(StrLabel("a")), Item(SymLabel("a"))]) == Success(["a", "a"])
  {
    var args := [Item(StrLabel("a")), Item(SymLabel("a"))];
    var flat := [StrLabel("a"), SymLabel("a")];
    assert args == Items(flat);
    FlattenFlat(flat);
    assert flat[..1] == [StrLabel("a")];
    assert [StrLabel("a")][..0] == [];
    assert Uniq([StrLabel("a")]) == [StrLabel("a")];
    assert Uniq(flat) == flat;
    NormaliseNames(args, flat, ["a", "a"]);
  }

  lemma DefaultsDistinct()
    ensures Distinct(DefaultPassthroughMethods) && |DefaultPassthroughMethods| == 14
  {
  }

  /** The class-level state of `Methodicate`, the receiver of its
      eigenclass methods. */
  class Settings {
    var passthroughMethods: seq<string>
    var exclusions: seq<Kind>

    function Current(): (cfg: Config)
      reads this
      ensures cfg.passthrough == passthroughMethods && cfg.exclusions == exclusions
    {
      Config(passthroughMethods, exclusions)
    }

    /** The lists as the class body leaves them: empty until `self.reset`
        runs at load time. */
    constructor ()
      ensures passthroughMethods == DefaultPassthroughMethods
      ensures exclusions == DefaultExclusions
    {
      passthroughMethods := [];
      exclusions := [];
      new;
      Reset();
    }

    /** `passthrough_methods=`: the list is replaced by the normalised
        arguments, or left as it was when one of them has no `to_sym`. */
    method SetPassthroughMethods(args: seq<Nested<Label>>) returns (r: Result<seq<string>, Err>)
      modifies this
      ensures r == Normalise(args)
      ensures passthroughMethods == (if r.Success? then r.value else old(passthroughMethods))
      ensures exclusions == old(exclusions)
    {
      r := Normalise(args);
      if r.Success? {
        passthroughMethods := r.value;
      }
    }

    /** `exclusions=`: replaced by the flattened arguments. */
    method SetExclusions(args: seq<Nested<Kind>>) returns (r: seq<Kind>)
      modifies this
      ensures exclusions == Flatten(args) && r == exclusions
      ensures passthroughMethods == old(passthroughMethods)
    {
      exclusions := Flatten(args);
      r := exclusions;
    }

    /** `reset`: both lists back to their defaults, through the setters. */
    method Reset()
      modifies this
      ensures passthroughMethods == DefaultPassthroughMethods
      ensures exclusions == DefaultExclusions
    {
      var _ := SetExclusions([List(Items(DefaultExclusions))]);
      FlattenSingle(Items(DefaultExclusions));
      FlattenFlat(DefaultExclusions);
      NestedSymbols(DefaultPassthroughMethods);
      DefaultsDistinct();
      UniqOfDistinct(DefaultPassthroughMethods);
      var _ := SetPassthroughMethods([List(Items(Syms(DefaultPassthroughMethods)))]);
    }
  }

  /** A handed-back object: a plain value, or a new proxy. */
  datatype Answer = Plain(value: Value) | Proxied(proxy: Methodicate)

  /** One wrapped object. */
  class Methodicate {
    var contents: Value
    var forwarders: seq<Forwarder>
    /** Whether `method_missing` is aliased to the hook yet. */
    var intercepting: bool

    function State(): (p: Proxy)
      reads this
      ensures p.contents == contents && p.forwarders == forwarders
    {
      Proxy(contents, forwarders)
    }

    /** What every finished proxy satisfies: the hook is in place and no
        forwarder shadows the unwrap accessor or the hook. */
    predicate Valid()
      reads this
    {
      intercepting && Names.unwrap !in NamesOf(forwarders) && Names.hook !in NamesOf(forwarders)
    }

    /** The part of `initialize` after the exclusion check: store the
        contents, install one forwarder per supported passthrough name,
        then turn interception on. */
    constructor (settings: Settings, host: Host, v: Value)
      ensures State() == Wrap(Names, settings.Current(), host, v)
      ensures Valid()
    {
      contents := v;
      forwarders := [];
      intercepting := false;
      new;
      var names := settings.passthroughMethods;
      var i := 0;
      while i < |names|
        invariant 0 <= i <= |names|
        invariant contents == v && !intercepting
        invariant forwarders == Forwarders(Names, host, names[..i], v)
      {
        var n := names[i];
        assert names[..i + 1][..i] == names[..i];
        if RespondsTo(Names, host, contents, n) {
          forwarders := forwarders + [Forwarder(n, Arity(Names, host, contents, n) == 0)];
        }
        i := i + 1;
      }
      assert names[..i] == names;
      intercepting := true;
      NamesValid();
      DispatchLaws.NewProxyAccessors(Names, settings.Current(), host, v);
    }

    /** `Methodicate.new(v, honour_exclusions)` */
    static method New(settings: Settings, host: Host, v: Value, honour: bool) returns (r: Result<Methodicate, Err>)
      ensures r.Failure? <==> honour && KindOf(v) in settings.exclusions
      ensures r.Failure? ==> r.error == ExclusionError(KindOf(v))
      ensures r.Success? ==> fresh(r.value) && r.value.Valid()
      ensures r.Success? ==> Success(r.value.State()) == Construct(Names, settings.Current(), host, v, honour)
    {
      if honour && KindOf(v) in settings.exclusions {
        return Failure(ExclusionError(KindOf(v)));
      }
      var m := new Methodicate(settings, host, v);
      return Success(m);
    }

    /** `methodicated?` on the proxy: true, unless a forwarder of that name
        was installed, which answers false as the contents do. */
    function Methodicated(): (b: bool)
      reads this
      ensures b <==> Names.query !in NamesOf(forwarders)
    {
      FindForwarder(forwarders, Names.query).None?
    }

    /** `unmethodicated` */
    function Unmethodicated(): (c: Value)
      reads this
      ensures c == State().contents
    {
      contents
    }

    /** `proxy.name(*args)`: a method of the proxy is called directly; any
        other name reaches the hook once interception is on, and is
        otherwise undefined. A wrapped result is a new proxy built from the
        configuration as it is now. */
    method Call(settings: Settings, host: Host, name: string, args: seq<Value>) returns (r: Result<Answer, Err>)
      modifies this
      ensures forwarders == old(forwarders) && intercepting == old(intercepting)
      ensures !old(SelfResponds(Names, State(), name)) && !old(intercepting) ==>
        r == Failure(NoMethodError(name)) && contents == old(contents)
      ensures old(SelfResponds(Names, State(), name)) || old(intercepting) ==>
        var st := Resolve(Names, old(settings.Current()), host, old(State()), name, args);
        && contents == st.contents
        && (st.outcome.Error? ==> r == Failure(st.outcome.err))
        && (st.outcome.Ok? && st.outcome.obj.Raw? ==> r == Success(Plain(st.outcome.obj.value)))
        && (st.outcome.Ok? && st.outcome.obj.Wrapped? ==>
              r.Success? && r.value.Proxied? && fresh(r.value.proxy)
              && r.value.proxy.State() == st.outcome.obj.proxy && r.value.proxy.Valid())
    {
      if !SelfResponds(Names, State(), name) && !intercepting {
        return Failure(NoMethodError(name));
      }
      var cfg := settings.Current();
      var st := Resolve(Names, cfg, host, State(), name, args);
      contents := st.contents;
      match st.outcome
      case Error(e) =>
        r := Failure(e);
      case Ok(Raw(v)) =>
        r := Success(Plain(v));
      case Ok(Wrapped(q)) =>
        var m := new Methodicate(settings, host, q.contents);
        r := Success(Proxied(m));
    }
  }

  /** `methodicated?` on any object: a proxy answers through its own
      dispatch, any other object with the default false. */
  lemma MethodicatedEverywhere(m: Methodicate, settings: Settings, host: Host, v: Value)
    ensures Query(Names, settings.Current(), host, Wrapped(m.State())) == Ok(Raw(if m.Methodicated() then True else False))
    ensures Query(Names, settings.Current(), host, Raw(v)) == Ok(Raw(False))
  {
    NamesValid();
    DispatchLaws.QueryAnswer(Names, settings.Current(), host, Wrapped(m.State()));
  }

  /** A new proxy answers true unless the predicate itself is listed as a
      passthrough name, which the default list does not do. */
  lemma NewProxyIsMethodicated(settings: Settings, host: Host, v: Value)
    ensures Query(Names, settings.Current(), host, Wrapped(Wrap(Names, settings.Current(), host, v))) ==
      Ok(Raw(if Names.query in settings.passthroughMethods then False else True))
    ensures Names.query !in DefaultPassthroughMethods
  {
    NamesValid();
    DispatchLaws.QueryOnNewProxy(Names, settings.Current(), host, v);
  }

  /** `unmethodicated` on a finished proxy, through dispatch, returns the
      stored contents and leaves them as they are. */
  lemma UnmethodicatedIsContents(m: Methodicate, settings: Settings, host: Host)
    requires m.Valid()
    ensures Resolve(Names, settings.Current(), host, m.State(), Names.unwrap, []) ==
      Step(Ok(Raw(m.Unmethodicated())), m.Unmethodicated())
  {
    NamesValid();
    DispatchLaws.UnwrapAnswer(Names, settings.Current(), host, m.State(), Nil);
  }
}
