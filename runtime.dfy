/** The part of the Ruby runtime the proxy talks to: which methods an object
    answers to, their arity, and what calling them does. The container
    behaviour the proxy relies on (presence, get and set on arrays and
    hashes) is defined here; every other method is answered by a `Host`,
    which stands for the rest of the interpreter. */
module Runtime {
  import opened Values

  /** Exceptions. The text of their messages is not modelled. */
  datatype Err =
    | ExclusionError(kind: Kind)   // the ArgumentError the constructor raises for an excluded class
    | ArgumentError                // wrong number of arguments
    | TypeError
    | IndexError
    | NoMethodError(name: string)
    | HostError(code: nat)         // whatever else a method of the host raises

  /** The outcome of one method call: its result and the receiver as the call
      left it (a call may change its receiver in place), or an exception. */
  datatype Reply = Returned(result: Value, receiver: Value) | Raised(err: Err)

  /** The method names a proxy class adds to the runtime: the wrapped-state
      predicate, which it also defines on Object; and the unwrap accessor
      and the interception hook, which only the proxy class defines. */
  datatype Flavour = Flavour(query: string, unwrap: string, hook: string) {
    /** The three names are distinct and none is one the runtime defines. */
    predicate Valid() {
      && query != unwrap && query != hook && unwrap != hook
      && !KnownName(query) && !KnownName(unwrap) && !KnownName(hook)
    }
  }

  /** Reflection on the methods this module does not define: whether an
      object responds to a name (singleton methods and per-object attributes
      included), that method's arity (Ruby's convention: 0 takes no
      arguments, -1 any number), and the call itself. */
  datatype Host = Host(
    responds: (Value, string) -> bool,
    arity: (Value, string) -> int,
    call: (Value, string, seq<Value>) -> Reply)

  /** Methods every core object has from Object and Kernel. */
  const ObjectNames: seq<string> :=
    ["==", "eql?", "<=>", "class", "inspect", "instance_of?", "is_a?", "kind_of?", "to_s"]
  /** Methods from Comparable. */
  const ComparisonNames: seq<string> := ["<", "<=", ">", ">="]
  /** Indexed get and set, and membership. */
  const ContainerNames: seq<string> := ["[]", "[]=", "include?"]

  /** The names whose meaning on the core classes this module fixes. */
  predicate KnownName(name: string) {
    name in ObjectNames || name in ComparisonNames || name == "to_str" || name in ContainerNames
  }

  predicate IsCore(k: Kind) {
    !k.UserClass?
  }

  /** Public instance methods of Ruby 1.9's core classes, for the known names. */
  predicate CoreResponds(k: Kind, name: string)
    requires IsCore(k) && KnownName(name)
  {
    if name in ObjectNames then true
    else if name in ComparisonNames then k in {Fixnum, Bignum, StringClass, SymbolClass}
    else if name == "to_str" then k == StringClass
    else if name == "[]" then k in {Fixnum, Bignum, StringClass, SymbolClass, ArrayClass, HashClass}
    else k in {StringClass, ArrayClass, HashClass}
  }

  /** `Method#arity` of those methods. */
  function CoreArity(k: Kind, name: string): int
    requires IsCore(k) && KnownName(name)
  {
    if name == "to_s" then (if k == Fixnum || k == Bignum then -1 else 0)
    else if name in ["class", "inspect", "to_str"] then 0
    else if name == "[]" then (if k in {HashClass, Fixnum, Bignum} then 1 else -1)
    else if name == "[]=" then (if k == HashClass then 2 else -1)
    else 1
  }

  /** `v.respond_to?(name)`: every object answers the wrapped-state
      predicate; among the core classes, `include?` is answered by strings,
      arrays and hashes, and `[]` by all but nil and the booleans. */
  predicate RespondsTo(fl: Flavour, host: Host, v: Value, name: string)
    ensures name == fl.query ==> RespondsTo(fl, host, v, name)
    ensures fl.Valid() && IsCore(KindOf(v)) && name == "include?" ==>
      (RespondsTo(fl, host, v, name) <==> v.Str? || v.Arr? || v.Hash?)
    ensures fl.Valid() && IsCore(KindOf(v)) && name == "[]" ==>
      (RespondsTo(fl, host, v, name) <==> !(v.Nil? || v.True? || v.False?))
  {
    if name == fl.query then true
    else if name == fl.unwrap || name == fl.hook then false
    else if IsCore(KindOf(v)) && KnownName(name) then CoreResponds(KindOf(v), name)
    else host.responds(v, name)
  }

  /** `v.method(name).arity`: the predicate takes no arguments, and
      `to_s` takes none except on integers, where it takes a radix. */
  function Arity(fl: Flavour, host: Host, v: Value, name: string): (r: int)
    ensures name == fl.query ==> r == 0
    ensures fl.Valid() && IsCore(KindOf(v)) && name == "to_s" ==> (r == 0 <==> !v.Int?)
  {
    if name == fl.query then 0
    else if IsCore(KindOf(v)) && KnownName(name) then CoreArity(KindOf(v), name)
    else host.arity(v, name)
  }

  /** `v.send(name, *args)`. A method the model fixes and the object does
      not answer raises NoMethodError; reading from an array or a hash never
      changes it. */
  function Send(fl: Flavour, host: Host, v: Value, name: string, args: seq<Value>): (r: Reply)
    ensures name == fl.query ==> r == (if |args| == 0 then Returned(False, v) else Raised(ArgumentError))
    ensures (fl.Valid() && !RespondsTo(fl, host, v, name) &&
             (name == fl.unwrap || name == fl.hook || (IsCore(KindOf(v)) && KnownName(name)))) ==>
      r == Raised(NoMethodError(name))
    ensures fl.Valid() && (v.Arr? || v.Hash?) && (name == "[]" || name == "include?") && r.Returned? ==>
      r.receiver == v
  {
    if name == fl.query then
      if |args| == 0 then Returned(False, v) else Raised(ArgumentError)
    else if name == fl.unwrap || name == fl.hook then Raised(NoMethodError(name))
    else if IsCore(KindOf(v)) && KnownName(name) && !CoreResponds(KindOf(v), name) then Raised(NoMethodError(name))
    else
      match v
      case Arr(e) => ArraySend(host, e, name, args)
      case Hash(en) => HashSend(host, en, name, args)
      case Str(s) => StringSend(host, s, name, args)
      case _ => host.call(v, name, args)
  }

  /** The methods of an Array the model defines. */
  function ArraySend(host: Host, e: seq<Value>, name: string, args: seq<Value>): Reply {
    if name == "[]" then ArrayGet(e, args)
    else if name == "[]=" && |args| != 3 then ArraySet(e, args)
    else if name == "include?" then
      if |args| == 1 then Returned(if args[0] in e then True else False, Arr(e)) else Raised(ArgumentError)
    else host.call(Arr(e), name, args)
  }

  /** The methods of a Hash the model defines. */
  function HashSend(host: Host, en: seq<Entry>, name: string, args: seq<Value>): Reply {
    if name == "[]" then
      if |args| == 1 then Returned(Lookup(en, args[0]), Hash(en)) else Raised(ArgumentError)
    else if name == "[]=" then
      if |args| == 2 then Returned(args[1], Hash(Store(en, args[0], args[1]))) else Raised(ArgumentError)
    else if name == "include?" then
      if |args| == 1 then Returned(if HasKey(en, args[0]) then True else False, Hash(en)) else Raised(ArgumentError)
    else host.call(Hash(en), name, args)
  }

  /** `String#include?`, which accepts only a string. */
  function StringSend(host: Host, s: string, name: string, args: seq<Value>): Reply {
    if name == "include?" then
      if |args| != 1 then Raised(ArgumentError)
      else if !args[0].Str? then Raised(TypeError)
      else Returned(if IsSubstring(args[0].s, s) then True else False, Str(s))
    else host.call(Str(s), name, args)
  }

  /** `Array#[]` with an index, or with a start and a length. */
  function ArrayGet(e: seq<Value>, args: seq<Value>): (r: Reply)
    ensures r.Returned? ==> r.receiver == Arr(e)
  {
    if |args| == 1 then
      if !args[0].Int? then Raised(TypeError)
      else
        var i := if args[0].i < 0 then args[0].i + |e| else args[0].i;
        Returned(if 0 <= i < |e| then e[i] else Nil, Arr(e))
    else if |args| == 2 then
      if !args[0].Int? || !args[1].Int? then Raised(TypeError)
      else
        var start := if args[0].i < 0 then args[0].i + |e| else args[0].i;
        var len := args[1].i;
        if start < 0 || start > |e| || len < 0 then Returned(Nil, Arr(e))
        else Returned(Arr(e[start..if start + len < |e| then start + len else |e|]), Arr(e))
    else Raised(ArgumentError)
  }

  /** `Array#[]=` with an index; writing past the end pads with nil. The form
      with a start and a length is the host's. */
  function ArraySet(e: seq<Value>, args: seq<Value>): (r: Reply)
    requires |args| != 3
    ensures r.Returned? ==> |args| == 2 && r.result == args[1]
  {
    if |args| != 2 then Raised(ArgumentError)
    else if !args[0].Int? then Raised(TypeError)
    else
      var i := args[0].i;
      if i >= |e| then Returned(args[1], Arr(e + Nils(i - |e|) + [args[1]]))
      else if i >= 0 then Returned(args[1], Arr(e[i := args[1]]))
      else if i + |e| >= 0 then Returned(args[1], Arr(e[i + |e| := args[1]]))
      else Raised(IndexError)
  }

  function Nils(n: nat): (r: seq<Value>)
    ensures |r| == n && forall i :: 0 <= i < n ==> r[i] == Nil
  {
    if n == 0 then [] else Nils(n - 1) + [Nil]
  }

  /** `Hash#include?`: key presence. */
  predicate HasKey(en: seq<Entry>, k: Value) {
    exists i :: 0 <= i < |en| && en[i].key == k
  }

  /** `Hash#[]`: the value stored under k, or nil (the default). */
  function Lookup(en: seq<Entry>, k: Value): (r: Value)
    ensures !HasKey(en, k) ==> r == Nil
    ensures HasKey(en, k) ==> exists i :: 0 <= i < |en| && en[i].key == k && r == en[i].val
  {
    if en == [] then Nil
    else if en[0].key == k then en[0].val
    else
      assert HasKey(en, k) ==> HasKey(en[1..], k) by {
        if HasKey(en, k) {
          var i :| 0 <= i < |en| && en[i].key == k;
          assert en[1..][i - 1] == en[i];
        }
      }
      var r := Lookup(en[1..], k);
      assert HasKey(en[1..], k) ==> exists i :: 0 <= i < |en| && en[i].key == k && r == en[i].val by {
        if HasKey(en[1..], k) {
          var j :| 0 <= j < |en[1..]| && en[1..][j].key == k && r == en[1..][j].val;
          assert en[j + 1] == en[1..][j];
        }
      }
      r
  }

  /** `Hash#[]=`: replace the value of an existing key in place, or append;
      every other key keeps its presence and its value. */
  function Store(en: seq<Entry>, k: Value, v: Value): (r: seq<Entry>)
    ensures HasKey(r, k) && Lookup(r, k) == v
    ensures forall k' :: k' != k ==> HasKey(r, k') == HasKey(en, k') && Lookup(r, k') == Lookup(en, k')
  {
    if en == [] then
      var r := [Entry(k, v)];
      assert r[0].key == k;
      HasKeyCons(Entry(k, v), []);
      assert r == [Entry(k, v)] + [];
      r
    else if en[0].key == k then
      var r := [Entry(k, v)] + en[1..];
      assert r[0].key == k && r[1..] == en[1..];
      HasKeyCons(Entry(k, v), en[1..]);
      HasKeyCons(en[0], en[1..]);
      assert en == [en[0]] + en[1..];
      r
    else
      var rest := Store(en[1..], k, v);
      var r := [en[0]] + rest;
      assert r[1..] == rest;
      HasKeyCons(en[0], rest);
      HasKeyCons(en[0], en[1..]);
      assert en == [en[0]] + en[1..];
      r
  }

  /** A key is in a hash exactly when it is the first entry's or in the rest. */
  lemma HasKeyCons(e: Entry, rest: seq<Entry>)
    ensures forall k :: HasKey([e] + rest, k) <==> e.key == k || HasKey(rest, k)
  {
    forall k ensures HasKey([e] + rest, k) <==> e.key == k || HasKey(rest, k) {
      if HasKey(rest, k) {
        var i :| 0 <= i < |rest| && rest[i].key == k;
        assert ([e] + rest)[i + 1] == rest[i];
      }
      if HasKey([e] + rest, k) && e.key != k {
        var i :| 0 <= i < |[e] + rest| && ([e] + rest)[i].key == k;
        assert rest[i - 1] == ([e] + rest)[i];
      }
      if e.key == k {
        assert ([e] + rest)[0] == e;
      }
    }
  }

  predicate IsSubstring(t: string, s: string) {
    exists i :: 0 <= i <= |s| && t <= s[i..]
  }
}
