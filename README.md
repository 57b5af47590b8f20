# methodicate / chained — a Dafny model of the transparent proxy

The gem ships one idea twice: a proxy class (`Methodicate` in
`lib/methodicate.rb`, `Chained` in `lib/chained.rb`) that wraps a Ruby object
so that nested hashes and arrays can be walked with member syntax
(`data.a.h1` for `data[:a]['h1']`). Every member name the proxy does not
define itself reaches its `method_missing` hook. The hook tries four things
in a fixed order:

1. a method of the proxy;
2. a method of the contents, whose result is wrapped again;
3. an indexed lookup, with the name as a symbol, then as a string, then as
   an integer when the text round-trips;
4. the call forwarded to the contents, expected to fail.

A result whose class is on the exclusion list comes back plain. The
constructor refuses excluded classes when asked to. It installs one
per-instance forwarder for each configured passthrough name the contents
answers, and only then turns interception on.

The project models that procedure and proves what it promises.

| file | module | contents |
|---|---|---|
| `wrappers.dfy` | `Wrappers` | `Option`, `Result` |
| `values.dfy` | `Values` | Ruby values by value, their classes (Fixnum and Bignum split at MRI's 64-bit immediate range), `flatten`, `uniq` |
| `decimal.dfy` | `Decimal` | `Integer#to_s`, `String#to_i` in base 10, and the `to_i.to_s` round trip |
| `runtime.dfy` | `Runtime` | `respond_to?`, arity and `send`: concrete for the names the proxy relies on, a `Host` parameter for everything else |
| `dispatch.dfy` | `Dispatch` | the decision procedure both classes share: forwarders, construction, key trial, `Resolve` |
| `dispatch_laws.dfy` | `DispatchLaws` | the properties of that procedure |
| `methodicate.dfy` | `Methodicate` | class `Settings` (the class-level lists, normalising setters, `reset`), class `Methodicate` (constructor, accessors, calls) |
| `chained.dfy` | `Chained` | the same for `Chained`, whose lists are plain attributes |
| `scenarios.dfy` | `Scenarios` | the unit tests' and the class comment's examples on their own data |

The two classes differ only in their method names (`methodicated?`,
`unmethodicated`, `methodicate_method_missing` against `chained?`,
`unchained`, `chained_method_missing`) and in their setters. The shared
logic is parametrised by a `Flavour` holding the three names, and each
module instantiates it. A proxy's state is its contents, its forwarder
table (standing for the methods `instance_eval` defines) and a flag for the
`alias_method` that installs the hook. `Resolve` is the hook as a pure
function of the configuration, the host and that state. It returns a
`Step`: what the call returned or raised, plus the contents as the call left
them. The result is a plain `Raw` value or a `Wrapped` new proxy. The
methods `Call` of the two classes run it on an object and allocate the new
proxy.

Notes on the code as written:

- `proxy[9] = 10` on a wrapped array does not reach the lookup branch.
  An array responds to `[]=`, so the second branch sends `[]=(9, 10)`
  unchanged (`Scenarios.SparseWrite`). The lookup branch appends extra
  arguments after the key only for names the contents do not answer
  (`DispatchLaws.LookupBranch`).
- `include?` decides the key. On a hash it tests key presence; on an array
  it tests element membership, not index range. On a wrapped string,
  `String#include?` rejects the symbol tried first, so the lookup raises a
  TypeError (`DispatchLaws.StringKeyTrial`).
- The class comment's example `data.a.H3.deeper  => :hash` asks an array
  for `deeper`. Neither `:deeper` nor `"deeper"` is an element, the text is
  no integer, and `Array#[]` rejects a string index, so the call raises
  TypeError (`Scenarios.DeepDocExampleRaises`).
- `Methodicate.passthrough_methods=` removes repeats before converting to
  symbols, so `["a", :a]` yields `:a` twice
  (`Methodicate.MixedSpellingsBothKept`).
- Called by its name with a string, the hook tries that string as the
  first key, where a member call tries the symbol
  (`DispatchLaws.HookStringKeyFirst`, `DispatchLaws.HookStringOnString`).
- The model's `ExclusionError` is the `ArgumentError` both constructors
  raise for an excluded class; it is kept apart from the `ArgumentError`
  of a wrong argument count only to carry the class.
- A successful call in the fourth branch does not return: its result is
  asked for `unmethodicated`, which a plain object lacks
  (`DispatchLaws.FallthroughFails`).

## Model

| member | source | states |
|---|---|---|
| Values.KindOf | lib/methodicate.rb:261 | `obj.class`: Fixnum exactly for integers in the immediate range, Bignum for the others, a user class exactly for other objects |
| Values.Flatten | lib/methodicate.rb:182 | `flatten` lists a leading item first; `Values.FlattenMembers` gives exactly which items it keeps |
| Values.FlattenMembers | lib/methodicate.rb:182 | `flatten` neither loses nor invents items at any depth |
| Values.FlattenFlat | lib/methodicate.rb:219 | a flat argument list flattens to itself, in order |
| Values.FlattenSingle | lib/methodicate.rb:230-231 | one array argument flattens to its own items |
| Values.Uniq | lib/methodicate.rb:182 | `uniq` keeps every element and adds none, and its result has no repeats |
| Values.UniqOfDistinct | lib/methodicate.rb:231 | a list without repeats is its own `uniq` |
| Decimal.ToS | lib/methodicate.rb:377 | `Integer#to_s` writes a minus sign exactly for a negative number; `Decimal.ToIToS` and `Decimal.DigitsValue` give what it spells |
| Decimal.ToI | lib/methodicate.rb:377 | `String#to_i` is negative only after a leading minus; `Decimal.CanonicalValue` and `Decimal.RoundTripIffCanonical` give its value and the round trip |
| Decimal.ToIToS | lib/methodicate.rb:377 | `n.to_s.to_i == n` for every integer |
| Decimal.RoundTripIffCanonical | lib/methodicate.rb:377 | `s.to_i.to_s == s` holds exactly when s is "0" or a digit string without leading zero, optionally after a minus |
| Decimal.CanonicalValue | lib/methodicate.rb:377 | a canonical text reads back as the number it spells, with its sign |
| Decimal.DigitsValue | lib/methodicate.rb:377 | the digits `to_s` writes denote the number |
| Decimal.ValueDigits | lib/methodicate.rb:377 | a digit string without leading zero is what `to_s` writes for its value |
| Decimal.LeadingZeroStaysText | lib/methodicate.rb:377-379 | "007" reads as 7 but does not round-trip, so it stays a string key |
| Decimal.RoundTrips | lib/methodicate.rb:377 | text that round-trips is not empty and starts with a minus exactly when it reads as a negative number; `Decimal.RoundTripIffCanonical` gives exactly which texts do |
| Runtime.ArrayGet | test/units/test_array.rb:48-49 | `Array#[]`, with an index or with a start and a length, never changes the array |
| Runtime.RespondsTo | lib/methodicate.rb:367-371 | every object answers the wrapped-state predicate; among the core classes `include?` is answered exactly by strings, arrays and hashes, and `[]` by all but nil and the booleans |
| Runtime.Arity | lib/methodicate.rb:278 | the predicate takes no arguments, and `to_s` takes none except on integers; `DispatchLaws.ForwardersExactly` ties the no-argument form to arity zero |
| Runtime.Send | lib/methodicate.rb:370 | a method the model fixes and the object does not answer raises NoMethodError (so `include?` on a Bignum does); the predicate answers false on a plain object; reading an array or a hash leaves it unchanged |
| Dispatch.Forwarders | lib/methodicate.rb:271-291 | no more forwarders than listed names, each for a passthrough name the contents answers; `DispatchLaws.ForwardersExactly` and `DispatchLaws.ForwardersInOrder` give the exact set and order |
| Dispatch.Wrap | lib/methodicate.rb:266-300 | `new(v, false)` keeps v as given and forwards only passthrough names v answers |
| Runtime.ArraySet | test/units/test_array.rb:64 | `Array#[]=` returns the value assigned, and only for an index and a value |
| Runtime.Lookup | lib/methodicate.rb:387 | `Hash#[]` yields nil for a missing key and otherwise the value stored under it |
| Runtime.Store | lib/methodicate.rb:370 | after `Hash#[]=` the key is present and looks up the stored value, and every other key keeps its presence and its value |
| Dispatch.Construct | lib/methodicate.rb:260-266 | construction raises ExclusionError (the ArgumentError of lib/methodicate.rb:262) exactly when exclusions are honoured and the class is listed; otherwise it stores the contents |
| Dispatch.FindForwarder | lib/methodicate.rb:367-368 | the proxy has a forwarder under a name exactly when the name is in its table |
| Dispatch.SelfResponds | lib/methodicate.rb:367 | the proxy answers a name exactly when a forwarder of that name is installed or it is one of the class's three methods |
| Dispatch.OwnMethod | lib/methodicate.rb:365-368 | any proxy the proxy's own methods hand back is admissible; `DispatchLaws.ForwarderReturnsRaw`, `QueryAnswer`, `UnwrapAnswer` and `HookRedispatches` give each method |
| Dispatch.Forward | lib/methodicate.rb:279-289 | a forwarder never hands back a proxy |
| Dispatch.PostCheck | lib/methodicate.rb:394-396 | the result is unwrapped exactly when its contents' class is excluded, and is otherwise the new proxy unchanged |
| Dispatch.Includes | lib/methodicate.rb:374-380 | on a core object other than a string, an array or a hash `include?` raises NoMethodError; `DispatchLaws.IncludesOnContainers` gives it on the containers |
| Dispatch.IndexCandidate | lib/methodicate.rb:377-379 | the last candidate is the name as a string or an integer whose text is the name; `DispatchLaws.IndexCandidateIsInteger` gives when it is an integer |
| Dispatch.ResolveKey | lib/methodicate.rb:372-381 | the key is the name as the hook was given it, its string, or the integer candidate; the name as given wins whenever the contents include it, and a symbol is chosen exactly then |
| Dispatch.Rewrap | lib/methodicate.rb:394-396 | a returned result is post-checked and any proxy it yields is admissible; an exception propagates |
| Dispatch.Fallthrough | lib/methodicate.rb:388-396 | the last branch never returns normally; an exception of the contents propagates unchanged |
| Dispatch.LookupCall | lib/methodicate.rb:371-387 | a lookup succeeds only when the key trial finds a key and `[]` with it and the extra arguments returns; any proxy it yields is admissible |
| Dispatch.Intercept | lib/methodicate.rb:369-391 | any proxy it yields is admissible, and contents that answer neither the name nor `[]` make it raise; `DispatchLaws.MethodBranch`, `LookupBranch` and `FallthroughFails` give each branch |
| Dispatch.Resolve | lib/methodicate.rb:365-398 | every proxy the hook hands back, through any chain of calls of the hook by name, is built as `new(v, false)` under the current configuration and wraps a value whose class is not excluded |
| Dispatch.Query | lib/methodicate.rb:42-44 | a plain object answers the predicate with false; `DispatchLaws.QueryAnswer` gives the answer on a proxy |
| Dispatch.Unwrap | lib/methodicate.rb:326-328 | a plain object has no unwrap accessor; `DispatchLaws.UnwrapAnswer` gives the contents on a proxy |
| DispatchLaws.ForwardersExactly | lib/methodicate.rb:271-291 | a forwarder is installed exactly for a passthrough name the contents answer, in the no-argument form exactly when the arity is zero |
| DispatchLaws.ForwardersInOrder | lib/methodicate.rb:271-272 | the forwarders' names are the supported passthrough names in list order |
| DispatchLaws.ForwarderNamed | lib/methodicate.rb:271-272 | a name has a forwarder exactly when it is listed and the contents answer it |
| DispatchLaws.NewProxyAccessors | lib/methodicate.rb:271-300 | no forwarder shadows the unwrap accessor or the hook; the predicate gets one exactly when it is a passthrough name |
| DispatchLaws.QueryAnswer | lib/methodicate.rb:42-44 | the wrapped-state predicate is true on a proxy (unless a forwarder answers for the contents) and false on every plain object |
| DispatchLaws.QueryOnNewProxy | lib/methodicate.rb:313-315 | a new proxy answers true unless the predicate was listed as a passthrough name |
| DispatchLaws.UnwrapAnswer | lib/methodicate.rb:326-328 | unwrapping returns exactly the contents and changes nothing; a plain object has no unwrap accessor |
| DispatchLaws.UnwrapNewProxy | lib/methodicate.rb:266 | unwrapping the proxy built around v gives v |
| DispatchLaws.ForwarderReturnsRaw | lib/methodicate.rb:278-289 | a forwarder returns the contents' own result unwrapped and not post-checked; the no-argument form refuses arguments |
| DispatchLaws.HookRedispatches | lib/methodicate.rb:365-374 | the hook called by name needs a name argument; given a symbol it behaves like the member call, given a string it runs the proxy's own method or the resolution with that string as the first key, and anything else raises TypeError |
| DispatchLaws.HookStringKeyFirst | lib/methodicate.rb:372-374 | on a hash holding both `:n` and `"n"`, `hook("n")` finds the string's value while `proxy.n` finds the symbol's |
| DispatchLaws.HookStringOnString | lib/methodicate.rb:372-374 | on a wrapped string, `hook("b")` looks a substring up with `[]`, while `proxy.b` raises TypeError in the symbol trial |
| DispatchLaws.MethodBranch | lib/methodicate.rb:369-370 | a method of the contents is called with the arguments as given, and its result is admitted or wrapped |
| DispatchLaws.LookupBranch | lib/methodicate.rb:371-387 | indexable contents are indexed with the resolved key followed by the extra arguments; a failing key trial propagates |
| DispatchLaws.FallthroughFails | lib/methodicate.rb:388-396 | the last branch raises the contents' error, or NoMethodError for the unwrap accessor |
| DispatchLaws.OnNewProxy | lib/methodicate.rb:367-369 | on a new proxy, a name that is neither passthrough nor the proxy's own goes to the hook |
| DispatchLaws.NewProxyMethod | lib/methodicate.rb:369-370 | on a new proxy, a name the contents answer is their method, admitted or wrapped |
| DispatchLaws.NewProxyLookup | lib/methodicate.rb:371-387 | on a new proxy, a name only indexing answers is looked up under its key |
| DispatchLaws.IncludesOnContainers | lib/methodicate.rb:374-380 | `include?` is key presence on a hash and membership on an array; a string raises TypeError for a non-string |
| DispatchLaws.HashKeyTrial | lib/methodicate.rb:372-381 | on a hash: the name as given if it is a key, else the string key, else the last candidate |
| DispatchLaws.ArrayKeyTrial | lib/methodicate.rb:372-381 | on an array: the name as given if it is an element, else the string, else the last candidate |
| DispatchLaws.StringKeyTrial | lib/methodicate.rb:372-380 | on a string the symbol trial raises TypeError; a string given to the hook is taken when it is a substring or no number, and otherwise the integer trial raises |
| DispatchLaws.IndexCandidateIsInteger | lib/methodicate.rb:377-379 | the integer candidate is taken exactly for canonical decimal text, and writes back to the name |
| DispatchLaws.ResolveIntercepts | lib/methodicate.rb:367-371 | a name the proxy does not define is resolved on the contents |
| DispatchLaws.ArrayIndexDefined | lib/methodicate.rb:371 | every array answers `[]`, with the array's own indexing |
| DispatchLaws.HashIndexDefined | lib/methodicate.rb:371 | every hash answers `[]`, with its own lookup |
| DispatchLaws.NumericNameIndexesArray | lib/methodicate.rb:377-387 | a numeric name indexes an array that holds neither its symbol nor its string |
| DispatchLaws.LeadingZeroNameOnArray | lib/methodicate.rb:377-387 | on such an array "007" stays a string and the lookup raises TypeError |
| Methodicate.Normalise | lib/methodicate.rb:182 | the only failure is the NoMethodError of a missing `to_sym`; `Methodicate.NormaliseSucceeds` and `Methodicate.NormaliseMembers` give when it succeeds and what it yields |
| Methodicate.NormaliseSucceeds | lib/methodicate.rb:182 | the setter succeeds exactly when every argument, at any depth, has `to_sym` |
| Methodicate.NormaliseMembers | lib/methodicate.rb:182 | a name is in the new list exactly when it was given as a symbol or a string, at any depth |
| Methodicate.SymbolsOrStrings | lib/methodicate.rb:170-173 | a list of strings and the same list of symbols set the same names, repeats removed |
| Methodicate.NestedSymbols | lib/methodicate.rb:231 | one array of symbols sets its names, repeats removed |
| Methodicate.MixedSpellingsBothKept | lib/methodicate.rb:182 | `"a"` and `:a` together set `:a` twice |
| Methodicate.DefaultsDistinct | lib/methodicate.rb:115-130 | the default passthrough list has 14 names, none repeated |
| Methodicate.Settings.constructor | lib/methodicate.rb:237 | when the class is loaded, the lists hold the defaults |
| Methodicate.Settings.SetPassthroughMethods | lib/methodicate.rb:181-185 | the list is replaced by the normalised arguments, or kept when one lacks `to_sym`; exclusions are unchanged |
| Methodicate.Settings.SetExclusions | lib/methodicate.rb:218-221 | the list is replaced by the flattened arguments; passthrough names are unchanged |
| Methodicate.Settings.Reset | lib/methodicate.rb:229-233 | both lists are back to their defaults |
| Methodicate.Methodicate.constructor | lib/methodicate.rb:266-300 | the new proxy holds the contents and the forwarders `Forwarders` specifies, and intercepts |
| Methodicate.Methodicate.New | lib/methodicate.rb:260-301 | raises exactly when exclusions are honoured and the class is excluded; otherwise a new valid proxy agreeing with `Construct` |
| Methodicate.Methodicate.Methodicated | lib/methodicate.rb:313-315 | the proxy's predicate is true unless a forwarder of that name was installed |
| Methodicate.Methodicate.Unmethodicated | lib/methodicate.rb:326-328 | the accessor returns the stored contents |
| Methodicate.Methodicate.Call | lib/methodicate.rb:365-398 | a call agrees with `Resolve` on the old state and current configuration, updates the contents as the call left them, and hands back a new valid proxy for a wrapped result |
| Methodicate.MethodicatedEverywhere | lib/methodicate.rb:42-44 | `methodicated?` is the proxy's own answer on a proxy and false on every plain object |
| Methodicate.NewProxyIsMethodicated | lib/methodicate.rb:313-315 | a new proxy is methodicated unless the predicate is a passthrough name, which no default is |
| Methodicate.UnmethodicatedIsContents | lib/methodicate.rb:326-328 | `unmethodicated` through dispatch returns the contents and leaves them unchanged |
| Chained.DefaultsDistinct | lib/chained.rb:138-153 | the default passthrough list has 14 names, none repeated |
| Chained.Settings.constructor | lib/chained.rb:138-161 | when the class is loaded, the attributes hold the defaults |
| Chained.Settings.SetPassthroughMethods | lib/chained.rb:105 | the attribute holds exactly the value assigned |
| Chained.Settings.SetExclusions | lib/chained.rb:116 | the attribute holds exactly the value assigned |
| Chained.Chained.constructor | lib/chained.rb:189-222 | the new proxy holds the contents and the forwarders `Forwarders` specifies, and intercepts |
| Chained.Chained.New | lib/chained.rb:183-223 | raises exactly when exclusions are honoured and the class is listed in `Chained.exclusions`; otherwise a new valid proxy |
| Chained.Chained.IsChained | lib/chained.rb:234-236 | the proxy's predicate is true unless a forwarder of that name was installed |
| Chained.Chained.Unchained | lib/chained.rb:247-249 | the accessor returns the stored contents |
| Chained.Chained.Call | lib/chained.rb:286-319 | a call agrees with `Resolve` under the `Chained` names, and hands back a new valid proxy for a wrapped result |
| Chained.ChainedEverywhere | lib/chained.rb:41-43 | `chained?` is the proxy's own answer on a proxy and false on every plain object |
| Chained.NewProxyIsChained | lib/chained.rb:234-236 | a new proxy is chained unless the predicate is a passthrough name, which no default is |
| Chained.UnchainedIsContents | lib/chained.rb:247-249 | `unchained` through dispatch returns the contents and leaves them unchanged |
| Scenarios.DefaultExclusionsAdmit | lib/chained.rb:154-161 | under the defaults, exactly nil, the booleans, strings, symbols and Fixnums come back plain |
| Scenarios.ComplexStringKey | test/units/test_complex.rb:38-39 | `data.A` is the plain string under `'A'` |
| Scenarios.ComplexIndex | test/units/test_complex.rb:40-41 | `data['A']` is the same plain string |
| Scenarios.ComplexSymbolDominates | test/units/test_complex.rb:54-55 | `data.a` picks the symbol key over the string key and wraps the hash |
| Scenarios.ComplexChain | test/units/test_complex.rb:70 | `data.a.h1` is the plain string `"hv1"` |
| Scenarios.ComplexArrayStep | lib/methodicate.rb:89-90 | `data.a.H3` finds the string key `"H3"` and wraps the array |
| Scenarios.DeeperOnArrayRaises | lib/methodicate.rb:89-91 | `.deeper` on the wrapped array raises TypeError |
| Scenarios.DeepDocExampleRaises | lib/methodicate.rb:89-91 | `data.a.H3.deeper` hands on the proxies around `data[:a]` and `data[:a]["H3"]`, then raises TypeError |
| Scenarios.ArraySlice | test/units/test_array.rb:43-54 | `chained([1,2,3,4,5])[1,3]` is the slice `[2,3,4]`, still wrapped |
| Scenarios.SparseWrite | test/units/test_array.rb:64-70 | `chained([])[9] = 10` returns a plain 10 and leaves nine nils and 10 |
| Scenarios.SparseWriteObject | test/units/test_array.rb:60-74 | on an object: the write answers a plain 10, the proxy holds the padded array and stays chained |

## Left out

- The results of methods come from a `Host` parameter, except for `[]` and `[]=` on arrays and hashes, `include?` on arrays, hashes and strings, and the gem's own names. The passthrough names' results always come from the host. The model does fix which core classes answer the container names, the comparisons, `to_str` and Object's basic methods: a core object sent one of these its class lacks raises NoMethodError. For every other name the host answers `respond_to?` and the arity per object, so singleton methods and per-object attributes are within the model.
- Calls on the proxy to `Object`'s other public methods never reach `method_missing` in Ruby. Here every name but the proxy's own goes to the hook.
- `instance_eval` and `alias_method` are not modelled as code generation. They are a forwarder table and an interception flag.
- Calling `method_missing` by its own name after the alias is not modelled. The hook called by its name is.
- Aliasing is not modelled: values are held by value. `Methodicate`'s setters `replace` the arrays in place, so holders of the old array see the change. Results of a call share structure with the contents in Ruby.
- Chained.Settings.SetPassthroughMethods: the attribute accepts any object in Ruby; the model takes only a list of names.
- Chained.Settings.SetExclusions: the attribute accepts any object in Ruby; the model takes only a list of classes.
- Methodicate.Settings.SetExclusions: the setter accepts any objects in Ruby; the model takes only nested lists of classes.
- A method of the contents that changes its receiver and then raises is modelled as leaving the contents unchanged: an exception carries no receiver.
- A proxy whose contents is itself a proxy is not modelled. Contents are plain values.
- A passthrough list naming `respond_to?` or `__send__` replaces the method the hook itself calls on the proxy; the model keeps the proxy's own-method test fixed. No default list does this.
- Exception message texts are not modelled, only the exception classes.
- Conversions through `to_ary` and `to_int` are not modelled.
- Ranges and floats as index arguments are not modelled.
- The slice form `Array#[]=(start, length, value)` is sent to the host.
- Runtime.ArrayGet: integers beyond the machine range are not rejected with RangeError.
- Side effects of `include?` itself and hash defaults (a default value or default proc) are not modelled.
- User objects that define `to_sym` are not modelled: a label that is neither symbol nor string always fails the setter.
- The lazy `||= []` readers are not modelled. They only matter before `reset` runs at load time.
- Monkey-patching `Object` is modelled as behaviour, not as a patch: a plain value answers the predicate with false and has no unwrap accessor.
- lib/chained/version.rb is not part of this model: it is version metadata.
- `require` and debugger setup are environment plumbing and are not modelled.
