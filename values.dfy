/** Ruby values as the proxy sees them, and their classes. */
module Values {

  /** The Ruby classes the model distinguishes. `UserClass` is any class of an
      attribute-bearing record or other object outside the core library. */
  datatype Kind =
    | NilClass | TrueClass | FalseClass
    | Fixnum | Bignum
    | StringClass | SymbolClass
    | ArrayClass | HashClass
    | UserClass(name: string)

  /** A Ruby object, by value. Hash entries keep insertion order. */
  datatype Value =
    | Nil | True | False
    | Int(i: int)
    | Str(s: string)
    | Sym(name: string)
    | Arr(elems: seq<Value>)
    | Hash(entries: seq<Entry>)
    | Other(cls: string, attrs: seq<Entry>)

  datatype Entry = Entry(key: Value, val: Value)

  /** Bounds of MRI's immediate integers on a 64-bit build; integers outside
      them are instances of Bignum. */
  const MinFixnum: int := -0x4000_0000_0000_0000
  const MaxFixnum: int := 0x3FFF_FFFF_FFFF_FFFF

  /** `obj.class` */
  function KindOf(v: Value): (k: Kind)
    ensures k == Fixnum <==> v.Int? && MinFixnum <= v.i <= MaxFixnum
    ensures k == Bignum <==> v.Int? && !(MinFixnum <= v.i <= MaxFixnum)
    ensures k.UserClass? <==> v.Other?
  {
    match v
    case Nil => NilClass
    case True => TrueClass
    case False => FalseClass
    case Int(i) => if MinFixnum <= i <= MaxFixnum then Fixnum else Bignum
    case Str(_) => StringClass
    case Sym(_) => SymbolClass
    case Arr(_) => ArrayClass
    case Hash(_) => HashClass
    case Other(c, _) => UserClass(c)
  }

  /** Ruby's truth test: everything except nil and false is true. */
  predicate Truthy(v: Value) {
    v != Nil && v != False
  }

  /** An argument list as Ruby's `flatten` sees it: items, and arrays of
      further arguments. */
  datatype Nested<T> = Item(x: T) | List(items: seq<Nested<T>>)

  /** Occurs(n, x): the item x appears somewhere inside n. */
  predicate Occurs<T(==)>(s: seq<Nested<T>>, x: T)
    decreases s
  {
    exists i :: 0 <= i < |s| && (match s[i] case Item(y) => y == x case List(items) => Occurs(items, x))
  }

  /** `[*args].flatten`: the items in depth-first, left-to-right order. */
  function Flatten<T>(s: seq<Nested<T>>): (r: seq<T>)
    ensures |s| > 0 && s[0].Item? ==> |r| > 0 && r[0] == s[0].x
    decreases s
  {
    if s == [] then []
    else (match s[0] case Item(x) => [x] case List(items) => Flatten(items)) + Flatten(s[1..])
  }

  /** Flattening neither loses nor invents items. */
  lemma {:induction false} FlattenMembers<T>(s: seq<Nested<T>>, x: T)
    ensures x in Flatten(s) <==> Occurs(s, x)
    decreases s
  {
    if s != [] {
      FlattenMembers(s[1..], x);
      if s[0].List? {
        FlattenMembers(s[0].items, x);
      }
      if Occurs(s[1..], x) {
        var i :| 0 <= i < |s[1..]| && (match s[1..][i] case Item(y) => y == x case List(items) => Occurs(items, x));
        assert s[i + 1] == s[1..][i];
      }
      if Occurs(s, x) {
        var i :| 0 <= i < |s| && (match s[i] case Item(y) => y == x case List(items) => Occurs(items, x));
        if i > 0 { assert s[1..][i - 1] == s[i]; }
      }
    }
  }

  /** A flat argument list. */
  function Items<T>(xs: seq<T>): (r: seq<Nested<T>>)
    ensures |r| == |xs| && forall i :: 0 <= i < |xs| ==> r[i] == Item(xs[i])
  {
    seq(|xs|, i requires 0 <= i < |xs| => Item(xs[i]))
  }

  /** A flat list (only items) flattens to its items, in order. */
  lemma {:induction false} FlattenFlat<T>(xs: seq<T>)
    ensures Flatten(Items(xs)) == xs
  {
    if xs != [] {
      FlattenFlat(xs[1..]);
      assert Items(xs)[1..] == Items(xs[1..]);
    }
  }

  /** One nested array flattens to what it holds. */
  lemma FlattenSingle<T>(items: seq<Nested<T>>)
    ensures Flatten([List(items)]) == Flatten(items)
  {
    var s := [List(items)];
    assert s[1..] == [];
  }

  predicate Distinct<T(==)>(s: seq<T>) {
    forall i, j :: 0 <= i < j < |s| ==> s[i] != s[j]
  }

  /** `Array#uniq`: the first occurrence of each element, in order. */
  function Uniq<T(==)>(s: seq<T>): (r: seq<T>)
    ensures forall i :: 0 <= i < |s| ==> s[i] in r
    ensures forall i :: 0 <= i < |r| ==> r[i] in s
    ensures Distinct(r)
  {
    if s == [] then []
    else
      var init := s[..|s| - 1];
      var last := s[|s| - 1];
      assert s == init + [last];
      var r := Uniq(init);
      if last in r then r else r + [last]
  }

  /** A list without repeats is its own `uniq`. */
  lemma {:induction false} UniqOfDistinct<T>(s: seq<T>)
    requires Distinct(s)
    ensures Uniq(s) == s
  {
    if s != [] {
      var init := s[..|s| - 1];
      UniqOfDistinct(init);
      assert forall i :: 0 <= i < |init| ==> init[i] == s[i];
      assert s == init + [s[|s| - 1]];
    }
  }
}
