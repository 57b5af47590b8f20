/** The behaviour the repository's unit tests and doc comments describe,
    on their own data, under the default configuration. The host need only
    lack the member names used as keys. */
module Scenarios {
  import opened Wrappers
  import opened Values
  import opened Runtime
  import opened Dispatch
  import opened DispatchLaws
  import Methodicate
  import Chained

  /** The nested structure of the complex-data test and the class comment. */
  const Inner: Value := Hash([
    Entry(Str("h1"), Str("hv1")),
    Entry(Sym("h2"), Arr([Str("h"), Str("v"), Str("2")])),
    Entry(Str("H3"), H3)])

  const H3: Value := Arr([Arr([Str("deep"), Str("array")]), Hash([Entry(Sym("deeper"), Sym("hash"))])])

  const Datum: Value := Hash([
    Entry(Str("A"), Str("a string")),
    Entry(Str("B"), Sym("a_symbol")),
    Entry(Str("a"), Arr([Str("an"), Str("array")])),
    Entry(Sym("a"), Inner)])

  const M: Flavour := Methodicate.Names
  const MCfg: Config := Config(Methodicate.DefaultPassthroughMethods, Methodicate.DefaultExclusions)
  const C: Flavour := Chained.Names
  const CCfg: Config := Config(Chained.DefaultPassthroughMethods, Chained.DefaultExclusions)

  /** Under either default list, exactly nil, the booleans, strings, symbols
      and machine-size integers come back plain; a Bignum stays wrapped. */
  lemma DefaultExclusionsAdmit(v: Value)
    ensures KindOf(v) in Methodicate.DefaultExclusions <==>
      v.Nil? || v.True? || v.False? || v.Str? || v.Sym? || (v.Int? && MinFixnum <= v.i <= MaxFixnum)
    ensures Chained.DefaultExclusions == Methodicate.DefaultExclusions
  {
  }

  /** A container answers a name only through the lookup branch when
      neither the model nor the host gives it a method of that name. */
  lemma IndexOnly(fl: Flavour, host: Host, v: Value, name: string)
    requires fl.Valid() && (v.Hash? || v.Arr?)
    requires !KnownName(name) && name != fl.query && !host.responds(v, name)
    ensures !RespondsTo(fl, host, v, name) && RespondsTo(fl, host, v, "[]")
  {
  }

  /** A method scenario on a new proxy, reduced to the contents' reply. */
  lemma ByMethod(fl: Flavour, cfg: Config, host: Host, v: Value, name: string, args: seq<Value>, r: Value, v': Value)
    requires fl.Valid() && name !in cfg.passthrough
    requires name != fl.query && name != fl.unwrap && name != fl.hook
    requires RespondsTo(fl, host, v, name)
    requires Send(fl, host, v, name, args) == Returned(r, v')
    ensures KindOf(r) in cfg.exclusions ==> Resolve(fl, cfg, host, Wrap(fl, cfg, host, v), name, args) == Step(Ok(Raw(r)), v')
    ensures KindOf(r) !in cfg.exclusions ==> Resolve(fl, cfg, host, Wrap(fl, cfg, host, v), name, args) == Step(Ok(Wrapped(Wrap(fl, cfg, host, r))), v')
  {
    NewProxyMethod(fl, cfg, host, v, name, args);
  }

  /** `[]` and `[]=` are not among the default passthrough names. */
  lemma IndexNames(name: string)
    requires name in ["[]", "[]="]
    ensures name !in MCfg.passthrough && name !in CCfg.passthrough
    ensures name != M.query && name != M.unwrap && name != M.hook
    ensures name != C.query && name != C.unwrap && name != C.hook
  {
  }

  /** A member name the scenarios use as a key is an ordinary name. */
  predicate Ordinary(name: string) {
    !KnownName(name) && name !in MCfg.passthrough && name != M.query && name != M.unwrap && name != M.hook
  }

  // The member names the scenarios use as keys are ordinary.
  lemma OrdinaryA() ensures Ordinary("A") {}
  lemma OrdinaryLowerA() ensures Ordinary("a") {}
  lemma OrdinaryH1() ensures Ordinary("h1") {}
  lemma OrdinaryH3() ensures Ordinary("H3") {}
  lemma OrdinaryDeeper() ensures Ordinary("deeper") {}

  /** A lookup scenario on a new proxy, reduced to the key found and the
      contents' answer to `[]` with that key. */
  lemma ByLookup(fl: Flavour, cfg: Config, host: Host, v: Value, name: string, key: Value, r: Value)
    requires fl.Valid() && (v.Hash? || v.Arr?) && name !in cfg.passthrough
    requires !KnownName(name) && name != fl.query && name != fl.unwrap && name != fl.hook
    requires !host.responds(v, name)
    ensures ResolveKey(fl, host, v, name, Sym(name)) == Success(key) && Send(fl, host, v, "[]", [key]) == Returned(r, v) ==>
      if KindOf(r) in cfg.exclusions then Resolve(fl, cfg, host, Wrap(fl, cfg, host, v), name, []) == Step(Ok(Raw(r)), v)
      else Resolve(fl, cfg, host, Wrap(fl, cfg, host, v), name, []) == Step(Ok(Wrapped(Wrap(fl, cfg, host, r))), v)
  {
    IndexOnly(fl, host, v, name);
    NewProxyLookup(fl, cfg, host, v, name, key);
  }

  lemma KeyA(host: Host)
    ensures ResolveKey(M, host, Datum, "A", Sym("A")) == Success(Str("A"))
  {
    Methodicate.NamesValid();
    assert !HasKey(Datum.entries, Sym("A"));
    assert HasKey(Datum.entries, Str("A")) by { assert Datum.entries[0].key == Str("A"); }
    HashKeyTrial(M, host, Datum.entries, "A", Sym("A"));
  }

  lemma SendA(host: Host)
    ensures Send(M, host, Datum, "[]", [Str("A")]) == Returned(Str("a string"), Datum)
  {
    Methodicate.NamesValid();
    HashIndexDefined(M, host, Datum.entries, Str("A"));
  }

  /** `data.A` finds the string key and returns the string plain. */
  lemma ComplexStringKey(host: Host)
    requires !host.responds(Datum, "A")
    ensures Resolve(M, MCfg, host, Wrap(M, MCfg, host, Datum), "A", []) == Step(Ok(Raw(Str("a string"))), Datum)
  {
    assert M.Valid() by { Methodicate.NamesValid(); }
    assert Datum.Hash? && KindOf(Datum) == HashClass;
    OrdinaryA();
    KeyA(host);
    SendA(host);
    assert KindOf(Str("a string")) in MCfg.exclusions by { DefaultExclusionsAdmit(Str("a string")); }
    ByLookup(M, MCfg, host, Datum, "A", Str("A"), Str("a string"));
  }

  /** `data['A']` is the contents' own `[]`, with the same result. */
  lemma ComplexIndex(host: Host)
    ensures Resolve(M, MCfg, host, Wrap(M, MCfg, host, Datum), "[]", [Str("A")]) == Step(Ok(Raw(Str("a string"))), Datum)
  {
    assert M.Valid() by { Methodicate.NamesValid(); }
    IndexNames("[]");
    assert RespondsTo(M, host, Datum, "[]") by { HashIndexDefined(M, host, Datum.entries, Str("A")); }
    SendA(host);
    assert KindOf(Str("a string")) in MCfg.exclusions by { DefaultExclusionsAdmit(Str("a string")); }
    ByMethod(M, MCfg, host, Datum, "[]", [Str("A")], Str("a string"), Datum);
  }

  lemma LookupSkips(en: seq<Entry>, k: Value)
    requires en != [] && en[0].key != k
    ensures Lookup(en, k) == Lookup(en[1..], k)
  {
  }

  lemma KeyLowerA(host: Host)
    ensures ResolveKey(M, host, Datum, "a", Sym("a")) == Success(Sym("a"))
  {
    Methodicate.NamesValid();
    assert HasKey(Datum.entries, Sym("a")) by { assert Datum.entries[3].key == Sym("a"); }
    HashKeyTrial(M, host, Datum.entries, "a", Sym("a"));
  }

  lemma SendLowerA(host: Host)
    ensures Send(M, host, Datum, "[]", [Sym("a")]) == Returned(Inner, Datum)
  {
    Methodicate.NamesValid();
    HashIndexDefined(M, host, Datum.entries, Sym("a"));
    var en := Datum.entries;
    var tail := [Entry(Sym("a"), Inner)];
    assert en[1..][1..][1..] == tail;
    assert Lookup(tail, Sym("a")) == Inner;
    LookupSkips(en, Sym("a"));
    LookupSkips(en[1..], Sym("a"));
    LookupSkips(en[1..][1..], Sym("a"));
  }

  /** `data.a`: the symbol key dominates the string key, and the hash found
      comes back in a new proxy. */
  lemma ComplexSymbolDominates(host: Host)
    requires !host.responds(Datum, "a")
    ensures Resolve(M, MCfg, host, Wrap(M, MCfg, host, Datum), "a", []) ==
      Step(Ok(Wrapped(Wrap(M, MCfg, host, Inner))), Datum)
  {
    assert M.Valid() by { Methodicate.NamesValid(); }
    assert Datum.Hash? && KindOf(Datum) == HashClass;
    OrdinaryLowerA();
    KeyLowerA(host);
    SendLowerA(host);
    assert KindOf(Inner) !in MCfg.exclusions by { DefaultExclusionsAdmit(Inner); }
    ByLookup(M, MCfg, host, Datum, "a", Sym("a"), Inner);
  }

  lemma KeyH1(host: Host)
    ensures ResolveKey(M, host, Inner, "h1", Sym("h1")) == Success(Str("h1"))
  {
    Methodicate.NamesValid();
    assert !HasKey(Inner.entries, Sym("h1"));
    assert HasKey(Inner.entries, Str("h1")) by { assert Inner.entries[0].key == Str("h1"); }
    HashKeyTrial(M, host, Inner.entries, "h1", Sym("h1"));
  }

  lemma SendH1(host: Host)
    ensures Send(M, host, Inner, "[]", [Str("h1")]) == Returned(Str("hv1"), Inner)
  {
    Methodicate.NamesValid();
    HashIndexDefined(M, host, Inner.entries, Str("h1"));
  }

  /** `data.a.h1` */
  lemma ComplexChain(host: Host)
    requires !host.responds(Inner, "h1")
    ensures Resolve(M, MCfg, host, Wrap(M, MCfg, host, Inner), "h1", []) == Step(Ok(Raw(Str("hv1"))), Inner)
  {
    assert M.Valid() by { Methodicate.NamesValid(); }
    assert Inner.Hash? && KindOf(Inner) == HashClass;
    OrdinaryH1();
    KeyH1(host);
    SendH1(host);
    assert KindOf(Str("hv1")) in MCfg.exclusions by { DefaultExclusionsAdmit(Str("hv1")); }
    ByLookup(M, MCfg, host, Inner, "h1", Str("h1"), Str("hv1"));
  }

  lemma KeyH3(host: Host)
    ensures ResolveKey(M, host, Inner, "H3", Sym("H3")) == Success(Str("H3"))
  {
    Methodicate.NamesValid();
    assert !HasKey(Inner.entries, Sym("H3"));
    assert HasKey(Inner.entries, Str("H3")) by { assert Inner.entries[2].key == Str("H3"); }
    HashKeyTrial(M, host, Inner.entries, "H3", Sym("H3"));
  }

  lemma SendH3(host: Host)
    ensures Send(M, host, Inner, "[]", [Str("H3")]) == Returned(H3, Inner)
  {
    Methodicate.NamesValid();
    HashIndexDefined(M, host, Inner.entries, Str("H3"));
    var en := Inner.entries;
    var tail := [Entry(Str("H3"), H3)];
    assert en[1..][1..] == tail;
    assert Lookup(tail, Str("H3")) == H3;
    LookupSkips(en, Str("H3"));
    LookupSkips(en[1..], Str("H3"));
  }

  /** `data.a.H3` finds the string key and hands the array back in a new
      proxy. */
  lemma ComplexArrayStep(host: Host)
    requires !host.responds(Inner, "H3")
    ensures Resolve(M, MCfg, host, Wrap(M, MCfg, host, Inner), "H3", []) ==
      Step(Ok(Wrapped(Wrap(M, MCfg, host, H3))), Inner)
  {
    assert M.Valid() by { Methodicate.NamesValid(); }
    assert Inner.Hash? && KindOf(Inner) == HashClass;
    OrdinaryH3();
    KeyH3(host);
    SendH3(host);
    assert KindOf(H3) !in MCfg.exclusions by { DefaultExclusionsAdmit(H3); }
    ByLookup(M, MCfg, host, Inner, "H3", Str("H3"), H3);
  }

  lemma KeyDeeper(host: Host)
    ensures ResolveKey(M, host, H3, "deeper", Sym("deeper")) == Success(Str("deeper"))
  {
    Methodicate.NamesValid();
    ArrayKeyTrial(M, host, H3.elems, "deeper", Sym("deeper"));
    IndexCandidateIsInteger("deeper");
  }

  /** `.deeper` on the wrapped array: neither the symbol nor the string is
      an element, the text is no integer, and `Array#[]` rejects the string. */
  lemma DeeperOnArrayRaises(host: Host)
    requires !host.responds(H3, "deeper")
    ensures Resolve(M, MCfg, host, Wrap(M, MCfg, host, H3), "deeper", []) == Step(Error(TypeError), H3)
  {
    Methodicate.NamesValid();
    OrdinaryDeeper();
    IndexOnly(M, host, H3, "deeper");
    KeyDeeper(host);
    NewProxyLookup(M, MCfg, host, H3, "deeper", Str("deeper"));
    ArrayIndexDefined(M, host, H3.elems, [Str("deeper")]);
  }

  /** `data.a.H3.deeper`, which the class comment shows returning `:hash`:
      each step hands the next proxy on, and the last one raises. */
  lemma DeepDocExampleRaises(host: Host)
    requires !host.responds(Datum, "a") && !host.responds(Inner, "H3")
    requires !host.responds(H3, "deeper")
    ensures Resolve(M, MCfg, host, Wrap(M, MCfg, host, Datum), "a", []).outcome == Ok(Wrapped(Wrap(M, MCfg, host, Inner)))
    ensures Resolve(M, MCfg, host, Wrap(M, MCfg, host, Inner), "H3", []).outcome == Ok(Wrapped(Wrap(M, MCfg, host, H3)))
    ensures Resolve(M, MCfg, host, Wrap(M, MCfg, host, H3), "deeper", []).outcome == Error(TypeError)
  {
    ComplexSymbolDominates(host);
    ComplexArrayStep(host);
    DeeperOnArrayRaises(host);
  }

  lemma SendSlice(host: Host)
    ensures Send(C, host, Arr([Int(1), Int(2), Int(3), Int(4), Int(5)]), "[]", [Int(1), Int(3)]) ==
      Returned(Arr([Int(2), Int(3), Int(4)]), Arr([Int(1), Int(2), Int(3), Int(4), Int(5)]))
  {
    var e := [Int(1), Int(2), Int(3), Int(4), Int(5)];
    Chained.NamesValid();
    ArrayIndexDefined(C, host, e, [Int(1), Int(3)]);
    assert e[1..4] == [Int(2), Int(3), Int(4)];
  }

  /** `chained([1, 2, 3, 4, 5])[1, 3]` is a slice, and it stays wrapped. */
  lemma ArraySlice(host: Host)
    ensures var v := Arr([Int(1), Int(2), Int(3), Int(4), Int(5)]);
      Resolve(C, CCfg, host, Wrap(C, CCfg, host, v), "[]", [Int(1), Int(3)]) ==
        Step(Ok(Wrapped(Wrap(C, CCfg, host, Arr([Int(2), Int(3), Int(4)])))), v)
  {
    var v := Arr([Int(1), Int(2), Int(3), Int(4), Int(5)]);
    var r := Arr([Int(2), Int(3), Int(4)]);
    assert C.Valid() by { Chained.NamesValid(); }
    IndexNames("[]");
    assert RespondsTo(C, host, v, "[]") by { ArrayIndexDefined(C, host, v.elems, [Int(1), Int(3)]); }
    SendSlice(host);
    assert KindOf(r) !in CCfg.exclusions by { DefaultExclusionsAdmit(r); }
    ByMethod(C, CCfg, host, v, "[]", [Int(1), Int(3)], r, v);
  }

  lemma SendSparse(host: Host)
    ensures Send(C, host, Arr([]), "[]=", [Int(9), Int(10)]) == Returned(Int(10), Arr(Nils(9) + [Int(10)]))
  {
    assert [] + Nils(9) == Nils(9);
  }

  /** `chained([])[9] = 10` writes through to the contents, padding with
      nil, and hands back the plain integer. */
  lemma SparseWrite(host: Host)
    ensures Resolve(C, CCfg, host, Wrap(C, CCfg, host, Arr([])), "[]=", [Int(9), Int(10)]) ==
      Step(Ok(Raw(Int(10))), Arr(Nils(9) + [Int(10)]))
  {
    assert C.Valid() by { Chained.NamesValid(); }
    IndexNames("[]=");
    assert RespondsTo(C, host, Arr([]), "[]=") by { assert KnownName("[]="); }
    SendSparse(host);
    assert KindOf(Int(10)) in CCfg.exclusions by { DefaultExclusionsAdmit(Int(10)); }
    ByMethod(C, CCfg, host, Arr([]), "[]=", [Int(9), Int(10)], Int(10), Arr(Nils(9) + [Int(10)]));
  }

  /** The same write through the proxy object: the proxy stays a proxy and
      now holds the padded array. */
  method SparseWriteObject(host: Host) returns (r: Result<Chained.Answer, Err>, after: Value, still: bool)
    ensures r == Success(Chained.Plain(Int(10)))
    ensures after == Arr(Nils(9) + [Int(10)])
    ensures still
  {
    var settings := new Chained.Settings();
    var made := Chained.Chained.New(settings, host, Arr([]), true);
    var m := made.value;
    SparseWrite(host);
    r := m.Call(settings, host, "[]=", [Int(9), Int(10)]);
    after := m.contents;
    Chained.NewProxyIsChained(settings, host, Arr([]));
    still := m.IsChained();
    Chained.ChainedEverywhere(m, settings, host, Nil);
  }
}
