/** The `Chained` proxy class: the same proxy as `Methodicate` under other
    names, with class-level lists that are plain attributes. */
module Chained {
  import opened Wrappers
  import opened Values
  import opened Runtime
  import opened Dispatch
  import DispatchLaws

  /** `chained?`, `unchained` and `chained_method_missing`. */
  const Names: Flavour := Flavour("chained?", "unchained", "chained_method_missing")

  lemma NamesValid()
    ensures Names.Valid()
  {
  }

  const DefaultPassthroughMethods: seq<string> := [
    "<", "<=", "==", "eql?", ">", ">=", "<=>",
    "class", "inspect", "instance_of?", "is_a?", "kind_of?", "to_s", "to_str"]

  const DefaultExclusions: seq<Kind> :=
    [NilClass, Fixnum, StringClass, SymbolClass, TrueClass, FalseClass]

  lemma DefaultsDistinct()
    ensures Distinct(DefaultPassthroughMethods) && |DefaultPassthroughMethods| == 14
  {
  }

  /** The class-level state of `Chained`: two attributes with plain
      accessors. */
  class Settings {
    var passthroughMethods: seq<string>
    var exclusions: seq<Kind>

    function Current(): (cfg: Config)
      reads this
      ensures cfg.passthrough == passthroughMethods && cfg.exclusions == exclusions
    {
      Config(passthroughMethods, exclusions)
    }

    /** The values the class body assigns when the class is loaded. */
    constructor ()
      ensures passthroughMethods == DefaultPassthroughMethods
      ensures exclusions == DefaultExclusions
    {
      passthroughMethods := DefaultPassthroughMethods;
      exclusions := DefaultExclusions;
    }

    /** `passthrough_methods=`: the attribute now holds exactly the value
        given, unconverted. */
    method SetPassthroughMethods(v: seq<string>) returns (r: seq<string>)
      modifies this
      ensures passthroughMethods == v && r == v
      ensures exclusions == old(exclusions)
    {
      passthroughMethods := v;
      r := v;
    }

    /** `exclusions=` */
    method SetExclusions(v: seq<Kind>) returns (r: seq<Kind>)
      modifies this
      ensures exclusions == v && r == v
      ensures passthroughMethods == old(passthroughMethods)
    {
      exclusions := v;
      r := v;
    }
  }

  /** A handed-back object: a plain value, or a new proxy. */
  datatype Answer = Plain(value: Value) | Proxied(proxy: Chained)

  /** One wrapped object. */
  class Chained {
    var contents: Value
    var forwarders: seq<Forwarder>
    /** Whether `method_missing` is aliased to the hook yet. */
    var intercepting: bool

    function State(): (p: Proxy)
      reads this
      ensures p.contents == contents && p.forwarders == forwarders
    {
      Proxy(contents, forwarders)
    }

    /** What every finished proxy satisfies: the hook is in place and no
        forwarder shadows the unwrap accessor or the hook. */
    predicate Valid()
      reads this
    {
      intercepting && Names.unwrap !in NamesOf(forwarders) && Names.hook !in NamesOf(forwarders)
    }

    /** The part of `initialize` after the exclusion check: store the
        contents, install one forwarder per supported passthrough name,
        then turn interception on. */
    constructor (settings: Settings, host: Host, v: Value)
      ensures State() == Wrap(Names, settings.Current(), host, v)
      ensures Valid()
    {
      contents := v;
      forwarders := [];
      intercepting := false;
      new;
      var names := settings.passthroughMethods;
      var i := 0;
      while i < |names|
        invariant 0 <= i <= |names|
        invariant contents == v && !intercepting
        invariant forwarders == Forwarders(Names, host, names[..i], v)
      {
        var n := names[i];
        assert names[..i + 1][..i] == names[..i];
        if RespondsTo(Names, host, contents, n) {
          forwarders := forwarders + [Forwarder(n, Arity(Names, host, contents, n) == 0)];
        }
        i := i + 1;
      }
      assert names[..i] == names;
      intercepting := true;
      NamesValid();
      DispatchLaws.NewProxyAccessors(Names, settings.Current(), host, v);
    }

    /** `Chained.new(v, honour_exclusions)` */
    static method New(settings: Settings, host: Host, v: Value, honour: bool) returns (r: Result<Chained, Err>)
      ensures r.Failure? <==> honour && KindOf(v) in settings.exclusions
      ensures r.Failure? ==> r.error == ExclusionError(KindOf(v))
      ensures r.Success? ==> fresh(r.value) && r.value.Valid()
      ensures r.Success? ==> Success(r.value.State()) == Construct(Names, settings.Current(), host, v, honour)
    {
      if honour && KindOf(v) in settings.exclusions {
        return Failure(ExclusionError(KindOf(v)));
      }
      var m := new Chained(settings, host, v);
      return Success(m);
    }

    /** `chained?` on the proxy: true, unless a forwarder of that name
        was installed, which answers false as the contents do. */
    function IsChained(): (b: bool)
      reads this
      ensures b <==> Names.query !in NamesOf(forwarders)
    {
      FindForwarder(forwarders, Names.query).None?
    }

    /** `unchained` */
    function Unchained(): (c: Value)
      reads this
      ensures c == State().contents
    {
      contents
    }

    /** `proxy.name(*args)`: a method of the proxy is called directly; any
        other name reaches the hook once interception is on, and is
        otherwise undefined. A wrapped result is a new proxy built from the
        configuration as it is now. */
    method Call(settings: Settings, host: Host, name: string, args: seq<Value>) returns (r: Result<Answer, Err>)
      modifies this
      ensures forwarders == old(forwarders) && intercepting == old(intercepting)
      ensures !old(SelfResponds(Names, State(), name)) && !old(intercepting) ==>
        r == Failure(NoMethodError(name)) && contents == old(contents)
      ensures old(SelfResponds(Names, State(), name)) || old(intercepting) ==>
        var st := Resolve(Names, old(settings.Current()), host, old(State()), name, args);
        && contents == st.contents
        && (st.outcome.Error? ==> r == Failure(st.outcome.err))
        && (st.outcome.Ok? && st.outcome.obj.Raw? ==> r == Success(Plain(st.outcome.obj.value)))
        && (st.outcome.Ok? && st.outcome.obj.Wrapped? ==>
              r.Success? && r.value.Proxied? && fresh(r.value.proxy)
              && r.value.proxy.State() == st.outcome.obj.proxy && r.value.proxy.Valid())
    {
      if !SelfResponds(Names, State(), name) && !intercepting {
        return Failure(NoMethodError(name));
      }
      var cfg := settings.Current();
      var st := Resolve(Names, cfg, host, State(), name, args);
      contents := st.contents;
      match st.outcome
      case Error(e) =>
        r := Failure(e);
      case Ok(Raw(v)) =>
        r := Success(Plain(v));
      case Ok(Wrapped(q)) =>
        var m := new Chained(settings, host, q.contents);
        r := Success(Proxied(m));
    }
  }

  /** `chained?` on any object: a proxy answers through its own
      dispatch, any other object with the default false. */
  lemma ChainedEverywhere(m: Chained, settings: Settings, host: Host, v: Value)
    ensures Query(Names, settings.Current(), host, Wrapped(m.State())) == Ok(Raw(if m.IsChained() then True else False))
    ensures Query(Names, settings.Current(), host, Raw(v)) == Ok(Raw(False))
  {
    NamesValid();
    DispatchLaws.QueryAnswer(Names, settings.Current(), host, Wrapped(m.State()));
  }

  /** A new proxy answers true unless the predicate itself is listed as a
      passthrough name, which the default list does not do. */
  lemma NewProxyIsChained(settings: Settings, host: Host, v: Value)
    ensures Query(Names, settings.Current(), host, Wrapped(Wrap(Names, settings.Current(), host, v))) ==
      Ok(Raw(if Names.query in settings.passthroughMethods then False else True))
    ensures Names.query !in DefaultPassthroughMethods
  {
    NamesValid();
    DispatchLaws.QueryOnNewProxy(Names, settings.Current(), host, v);
  }

  /** `unchained` on a finished proxy, through dispatch, returns the
      stored contents and leaves them as they are. */
  lemma UnchainedIsContents(m: Chained, settings: Settings, host: Host)
    requires m.Valid()
    ensures Resolve(Names, settings.Current(), host, m.State(), Names.unwrap, []) ==
      Step(Ok(Raw(m.Unchained())), m.Unchained())
  {
    NamesValid();
    DispatchLaws.UnwrapAnswer(Names, settings.Current(), host, m.State(), Nil);
  }
}
