# runtime-generics, modelled in Dafny

`runtime_generics` makes a Python class a *runtime generic*: once the class is decorated,
subscribing it (`C[int, str]`) and calling the result builds an instance that knows its
own type arguments. `get_type_arguments` (or `get_args` / `get_arg` in the earlier
variant) reads them back. `generic_isinstance` and `generic_issubclass` compare them
invariantly.

The project holds three modules:

- `TypeValues` (`type_values.dfy`) covers what both engines pass around:
  - abstract type arguments, including `typing`'s two internal sentinels, `...`,
    `typing.Any` and the empty tuple;
  - the exceptions the engines raise;
  - `typing.get_args`.
- `RuntimeGenerics` (`runtime_generics.dfy`) is the alias-proxy engine of
  `runtime_generics/__init__.py`. The state the source mutates is modelled by classes:
  - `InternTable` is the process-wide `ALIAS_PROXY_INTERNS` dictionary. Its invariant
    `Valid()` says that every entry is the handle of its own key and that every key holds
    normalised arguments.
  - `Origin` is a class's own namespace (`vars(cls)`), which the decorator and every
    handle rewrite.
  - `AliasProxy` is a handle, whose origin, arguments and `cascade` flag are overwritten
    on every request.
  - `Instance` is an object built by a handle.

  `_AliasProxy(...)` is split into the lookup-or-allocate step of `__new__`
  (`NewAliasProxy`) and the initialiser that runs on every request (`Initialize`). The
  rebinding loop over the namespace is a `while` loop proved against
  `ReplaceClassMethods`. `generic_issubclass` and `generic_isinstance` are functions over
  value views of their operands.
- `LegacyRuntimeGenerics` (`legacy_runtime_generics.dfy`) is the earlier single-file
  engine `runtime_generics.py`:
  - the decorator captures the previous `__class_getitem__` as a factory;
  - subscription yields `partial(_note_args, cls, alias)`;
  - `_note_args` stamps the instance before `__init__` runs.

Two things are parameters rather than modelled code:

- The host's `issubclass` on classes is the parameter `isSubclass`.
- A class's `__init__` is modelled only by what it observes: the `argsSeenByInit` field
  records the `__args__` it could read. This is how "the arguments are set before
  `__init__` runs" is stated.

## Model

| member | source | states |
|---|---|---|
| `RuntimeGenerics.NormalizeArg` | runtime_generics/__init__.py:130 | `_TypingEmpty` becomes `()` and `_TypingEllipsis` becomes `...`; every other value is kept as it is; no sentinel is ever returned |
| `RuntimeGenerics.NormalizeEach` | runtime_generics/__init__.py:129-132 | the result has the input's length, and element i is the normalisation of input element i (order kept) |
| `RuntimeGenerics.NormalizeGenericArgs` | runtime_generics/__init__.py:123-132 | a non-tuple becomes a one-element tuple of its normalised self; a tuple keeps its length and is normalised element by element; the result is sentinel-free |
| `RuntimeGenerics.NormalizedArgsAreFixed` | runtime_generics/__init__.py:123-132 | normalising a tuple that is already sentinel-free gives the same arguments back, which is what lets `copy_with` reuse `__args__` as parameters |
| `RuntimeGenerics.NormalizeIsIdempotent` | runtime_generics/__init__.py:123-132 | normalising twice equals normalising once |
| `RuntimeGenerics.Origin.RuntimeGeneric` | runtime_generics/__init__.py:256-258 | the class's `__class_getitem__` becomes a descriptor carrying `cascade`; every other member is unchanged |
| `RuntimeGenerics.Instance.Init` | runtime_generics/__init__.py:184 | `__init__` observes the `__args__` the instance holds when it runs |
| `RuntimeGenerics.InternTable.constructor` | runtime_generics/__init__.py:120 | the intern table starts empty and satisfies its invariant |
| `RuntimeGenerics.NoAlias` | runtime_generics/__init__.py:288-291 | a tagged classmethod is never rebindable; it stays a classmethod of the same function; anything else is returned unchanged |
| `RuntimeGenerics.ReplaceClassMethods` | runtime_generics/__init__.py:167-178 | same names; every untagged classmethod becomes a proxy over the same function bound to the handle; every other member is unchanged |
| `RuntimeGenerics.NothingRebindableAfterPass` | runtime_generics/__init__.py:168-178 | after one pass no member of the namespace is rebindable |
| `RuntimeGenerics.LaterPassesChangeNothing` | runtime_generics/__init__.py:167-178 | a second handle's pass leaves the namespace as the first handle's pass left it, so classmethods stay bound to the first handle built for the class |
| `RuntimeGenerics.NoAliasSurvivesPass` | runtime_generics/__init__.py:168-173 | a member tagged by `no_alias` is unchanged by every pass |
| `RuntimeGenerics.RebindClassMethods` | runtime_generics/__init__.py:167-178 | the loop over `vars(origin)` leaves exactly `ReplaceClassMethods` of the old namespace, whatever order it visits the names in |
| `RuntimeGenerics.AliasProxy.Allocate` | runtime_generics/__init__.py:151 | a fresh, uninitialised handle for the origin |
| `RuntimeGenerics.AliasProxy.Initialize` | runtime_generics/__init__.py:154-178 | stores origin, normalised arguments and `cascade` (overwriting a shared handle's flag); the table becomes the old table with the handle under its own key and keeps its invariant; the origin's namespace is rebound to the handle |
| `RuntimeGenerics.AliasProxy.Call` | runtime_generics/__init__.py:180-185 | a fresh instance of the origin whose `__args__` is the handle's tuple, already present when `__init__` runs; `get_type_arguments` of it returns the handle's arguments |
| `RuntimeGenerics.AliasProxy.CopyWith` | runtime_generics/__init__.py:187-197 | the handle for (owner or origin, params or args) with the same `cascade`; absent or empty params fall back to the current arguments; the interned handle is returned when one exists, and with neither owner nor params it is this very handle; the table gains only that key, and every other interned handle is unchanged |
| `RuntimeGenerics.NewAliasProxy` | runtime_generics/__init__.py:141-152 | returns the interned handle for (origin, normalised params) when there is one and a fresh one otherwise; old entries are kept, only that key changes, every other interned handle is unchanged, the invariant is kept, and the origin's classmethods are rebound |
| `RuntimeGenerics.Subscript` | runtime_generics/__init__.py:204-210 | a class whose `__class_getitem__` is the runtime-generic descriptor yields the interned handle for (class, normalised params) with the descriptor's `cascade`, leaving every other interned handle unchanged; any other class leaves table, handles and namespace unchanged |
| `RuntimeGenerics.SubscriptTwice` | runtime_generics/__init__.py:148-152 | two subscriptions of one class with arguments that normalise alike (`C[int]`, `C[(int,)]`) return the very same handle, for the class and those arguments |
| `RuntimeGenerics.ClassMethodProxyGet` | runtime_generics/__init__.py:109-117 | the proxied function bound to the handle `copy_with(owner=owner)` returns: same arguments, origin `owner` or the proxy's origin, interned; every other interned handle is unchanged |
| `RuntimeGenerics.GetClassMethod` | runtime_generics/__init__.py:109-117 | a plain classmethod binds the bare class and changes nothing; a proxy binds the interned handle for (class, proxy's arguments) and leaves every other interned handle unchanged; other members give nothing |
| `RuntimeGenerics.ClassMethodReceivers` | tests/test_runtime_generics.py:69-82 | on `C[params]`, an untagged classmethod receives the very handle the subscription returned, and a `no_alias` classmethod receives the bare class |
| `RuntimeGenerics.LaterSubscriptionSeesFirstHandle` | runtime_generics/__init__.py:167-178 | as written, after `C[a]` a classmethod called through `C[b]` (b normalising differently) receives `C[a]`, while the intended lookup `GetClassMethodThrough` on `C[b]` gives `C[b]` |
| `RuntimeGenerics.ClassMethodThrough` | runtime_generics/__init__.py:109-117 | intended lookup through a handle: any classmethod not tagged by `no_alias`, proxied or not, receives that handle; a tagged one receives the bare origin |
| `RuntimeGenerics.GetClassMethodThrough` | runtime_generics/__init__.py:109-117 | intended `getattr(h, name)`: gives `ClassMethodThrough` of the handle's current namespace, so an untagged classmethod, plain or proxied, is bound to `h` itself whatever handle a proxy remembers; it interns and rebinds nothing |
| `RuntimeGenerics.ThroughHandleIgnoresPasses` | runtime_generics/__init__.py:167-178 | the intended lookup gives the same answer whichever handles have rebound the namespace |
| `RuntimeGenerics.GetTypeArguments` | runtime_generics/__init__.py:284-285 | a `GenericArgs` attribute yields its tuple; a missing attribute yields `()`; any other value goes through `typing.get_args`: a generic alias yields its arguments, anything else `()` |
| `RuntimeGenerics.ConstructParametrized` | tests/test_runtime_generics.py:38-66 | `C[params]()` is a fresh instance of `C` whose type arguments are the normalised params in order, and `__init__` already sees them |
| `RuntimeGenerics.GenericIsSubclassAsWritten` | runtime_generics/__init__.py:309-331 | raises `AttributeError` on `__parameters__` exactly when an alias is checked against a bare class without parameters |
| `RuntimeGenerics.UnrelatedAliasesFail` | runtime_generics/__init__.py:322-327 | two aliases whose origins are not subclass-related are never related |
| `RuntimeGenerics.AliasTargetsMatchExactArguments` | runtime_generics/__init__.py:322-328 | between two aliases with subclass-related origins, the answer is exact equality of the argument tuples |
| `RuntimeGenerics.HandlesAreInvariant` | runtime_generics/__init__.py:322-328 | two handles of one origin are related exactly when their argument tuples are equal |
| `RuntimeGenerics.AliasAgainstBareClass` | runtime_generics/__init__.py:329-330 | an alias against a bare class passes exactly when its arguments are the class's `__parameters__` or `(Any,)` |
| `RuntimeGenerics.BareClassesUseHostCheck` | runtime_generics/__init__.py:331 | two bare classes are compared by the host `issubclass` |
| `RuntimeGenerics.AnyAliasPassesUnrelatedClass` | runtime_generics/__init__.py:329-330 | as written, `X[Any]` passes against any bare class that has `__parameters__`, even an unrelated one |
| `RuntimeGenerics.BareClassPassesEmptyAlias` | runtime_generics/__init__.py:322-328 | as written, any bare class passes against an alias with no arguments, even an unrelated one |
| `RuntimeGenerics.GenericIsSubclass` | runtime_generics/__init__.py:309-331 | raises in the same cases; a yes implies the host `issubclass` holds between the two classes |
| `RuntimeGenerics.CorrectionAddsOnlyOriginCheck` | runtime_generics/__init__.py:309-331 | the corrected check gives the same answer as the original where the original says no or raises; where it says yes, the classes must also be related |
| `RuntimeGenerics.GenericIsInstanceAsWritten` | runtime_generics/__init__.py:294-306 | raises `AttributeError` on `__origin__` exactly when a bare class is the target and the object has no type arguments |
| `RuntimeGenerics.EqualArgumentsUseOriginCheck` | runtime_generics/__init__.py:304-305 | when the object's type arguments equal an alias's, the source and the corrected check both answer with the subclass check of the object's class against the alias's origin |
| `RuntimeGenerics.UnparametrizedInstanceRaises` | runtime_generics/__init__.py:304-305 | as written, an instance without `__args__` checked against a bare class raises |
| `RuntimeGenerics.InstanceOfItsHandle` | runtime_generics/__init__.py:294-306 | an instance built by a handle is a generic instance of that handle, in the original and in the corrected check |
| `RuntimeGenerics.DifferentArgumentsFail` | runtime_generics/__init__.py:304-306 | an instance whose arguments differ from a non-empty alias tuple is not an instance of it, in both versions |
| `RuntimeGenerics.ParametrizedInstanceOfEmptyAlias` | runtime_generics/__init__.py:304-306 | as written, an instance with arguments passes against any alias with none (`Foo[int]()` against `Foo[()]`); the corrected check rejects it |
| `RuntimeGenerics.GenericIsInstance` | runtime_generics/__init__.py:294-306 | never raises; against a bare class it is the host check; a yes implies the object's class is a subclass of the target's class and, against an alias, that the arguments are equal |
| `RuntimeGenerics.InstanceCorrectionRefinesSource` | runtime_generics/__init__.py:294-306 | wherever the source answers, the corrected check gives the source's answer and-ed with the class relation and, against an alias, with equal arguments |
| `LegacyRuntimeGenerics.DescriptorGet` | runtime_generics.py:80-89 | binds `owner` when given and the instance's type otherwise, keeping the captured factory |
| `LegacyRuntimeGenerics.TypeConvert` | runtime_generics.py:109 | `typing`'s per-argument conversion, applied by the captured factory: `None` becomes `type(None)`, a string `s` becomes `ForwardRef(s)`, every other value is kept; the result is never `None` or a string |
| `LegacyRuntimeGenerics.ConvertEach` | runtime_generics.py:109 | converts every element, keeping length and order |
| `LegacyRuntimeGenerics.TypingParams` | runtime_generics.py:109 | the arguments `typing`'s alias factory stores: a lone value becomes a one-element tuple of its converted self, a tuple keeps its length; no stored argument is `None` or a string |
| `LegacyRuntimeGenerics.ConvertEachIsIdempotent` | runtime_generics.py:109 | converting already-converted arguments changes nothing |
| `LegacyRuntimeGenerics.ClassGetItemOf` | runtime_generics.py:109 | reading `__class_getitem__` through a class fails exactly when it has none; otherwise the result constructs that class, and a descriptor hands out a closure over its captured factory |
| `LegacyRuntimeGenerics.Subscribe` | runtime_generics.py:89 | the result constructs the factory's class, is a partial exactly for a runtime-generic closure, and its innermost alias carries the subscription arguments as `typing` converts them (`TypingParams`) |
| `LegacyRuntimeGenerics.Subscript` | runtime_generics.py:80-89 | `cls[params]` is a `TypeError` exactly for a class without `__class_getitem__`; otherwise it constructs `cls`, carries the converted arguments in its innermost alias, and is a partial exactly when the class is decorated |
| `LegacyRuntimeGenerics.RuntimeGeneric` | runtime_generics.py:108-111 | a class without `__class_getitem__` makes it raise `AttributeError` and stays as it was; otherwise the new `__class_getitem__` is a descriptor whose factory is the class's previous one |
| `LegacyRuntimeGenerics.Instance.Init` | runtime_generics.py:72 | `__init__` observes the `__args__` the instance holds when it runs |
| `LegacyRuntimeGenerics.NoteArgs` | runtime_generics.py:68-73 | a fresh instance of `cls` whose `__args__` is the alias's arguments in the marker class, set before `__init__` runs |
| `LegacyRuntimeGenerics.Call` | runtime_generics.py:68-73 | calling a subscription result gives a fresh instance of its class, stamped by `_note_args` for a partial and left unstamped for `typing`'s own alias |
| `LegacyRuntimeGenerics.GetArgs` | runtime_generics.py:138-139 | the marked tuple when `__args__` carries the marker, `()` for a missing or any other `__args__` |
| `LegacyRuntimeGenerics.GetArg` | runtime_generics.py:170-178 | succeeds exactly when there is one argument and returns it; otherwise a `ValueError` reporting the count |
| `LegacyRuntimeGenerics.UnmarkedArgsAreInvisible` | runtime_generics.py:138-139 | without the marker class, `get_args` is `()`, `get_arg` raises with count 0, and `get_argument` (line 181, the same function object as `get_arg`) agrees with `get_arg` |
| `LegacyRuntimeGenerics.DecoratedOnceRoundTrip` | runtime_generics.py:80-89 | a class decorated once over `typing`'s subscription constructs instances of itself whose `get_args` are the converted subscription arguments in order |
| `LegacyRuntimeGenerics.NoneArgumentIsConverted` | runtime_generics.py:68-73 | `get_args(C[None]())` is `(NoneType,)`, and `C[None, 'X']()` gives `(NoneType, ForwardRef('X'))` |
| `LegacyRuntimeGenerics.DecoratedTwiceLosesArguments` | runtime_generics.py:80-89 | a class whose captured factory is itself a runtime-generic closure stamps `()`: the inner partial is not an alias `typing.get_args` understands |
| `LegacyRuntimeGenerics.GetArgOfConstructed` | runtime_generics.py:170-181 | `get_arg(C[A]())` is `A` converted (`A` itself for a class, `NoneType` for `None`), and `C[A1, ..., An]()` with n other than one raises `ValueError(n)` |
| `LegacyRuntimeGenerics.ForwardedStampKeepsArguments` | runtime_generics.py:71 | stamping the innermost alias's arguments gives every decorated class, however deep its closure chain, the subscription arguments |
| `LegacyRuntimeGenerics.DecoratedSubscriptionHidesArguments` | runtime_generics.py:89 | the subscription result of a decorated class is a partial, of which `typing.get_args` is `()` |
| `LegacyRuntimeGenerics.DecoratedSubscriptionExposesArguments` | test_runtime_generics.py:36-37 | a result that forwarded its alias's arguments would give the subscription arguments, `(int,)` for `C[int]` |
| `LegacyRuntimeGenerics.PlainClassDecorationRaises` | runtime_generics.py:102-111 | the docstring's `@runtime_generic class Foo: pass` raises `AttributeError` on `__class_getitem__` |
| `LegacyRuntimeGenerics.RuntimeGenericForAnyClass` | runtime_generics.py:108-111 | intended decorator: a class without `__class_getitem__` gets a descriptor over `typing`'s alias factory for the class; other classes are decorated as before |
| `LegacyRuntimeGenerics.PlainClassDocstringExample` | runtime_generics.py:102-106 | with the intended decorator, `Foo[arg]().__args__` is `(arg,)` for a plain class `Foo`, with `None` and strings converted |
| `LegacyRuntimeGenerics.DecorateAndConstruct` | test_runtime_generics.py:34-66 | decorate, subscribe and call: a fresh instance of `C` whose `__init__` already sees the marked arguments and whose `get_args` are the converted subscription arguments |

## Left out

- `typing`'s alias factory is modelled only by what it stores: the wrapping of a lone
  argument and the per-argument conversion of `None` and strings (`TypeConvert`).
- `LegacyRuntimeGenerics.ClassGetItemOf`: a class's `__class_getitem__` is modelled as
  missing, `Generic`'s (which converts `None` and strings) or the runtime-generic
  descriptor. A class inheriting the builtin one (`class Foo(list)`, whose
  `types.GenericAlias` keeps `None` as given) or defining its own (which may return
  anything, even `cls`) is not modelled, so for such a class the stored arguments may
  differ from `TypingParams`.
- `RuntimeGenerics.AliasProxy.Call`: the class is assumed to accept an `__args__` instance
  attribute. In the source, setting it raises for a frozen dataclass
  (`FrozenInstanceError`) or for a class whose `__slots__` leave no room for `__args__`
  (`AttributeError`). The model always returns a stamped instance, and so does
  `ConstructParametrized`.
- `LegacyRuntimeGenerics.NoteArgs`: the same assumption. The source's assignment of
  `__args__` raises for a frozen or slotted class, while the model always stamps; `Call`
  and `DecorateAndConstruct` inherit this.
- `LegacyRuntimeGenerics.TypingParams`: `typing`'s validation of argument counts against
  `__parameters__`, its rejection of invalid arguments and its `TypeVarTuple` unpacking are
  not modelled, so a subscription the factory would refuse is accepted here.
- `Initialize` assumes that the base initialiser stores the same normalised tuple that
  `__new__` used as the intern key. Line 164 of `runtime_generics/__init__.py` re-reads
  `__args__` after the base initialiser, so this is an assumption, not a proof.
- Attribute lookup through base classes and the MRO is not modelled. A class's members
  are its own namespace only. This covers:
  - a classmethod inherited from a base;
  - in `RuntimeGenerics`, a `__class_getitem__` inherited from a decorated base (in
    `LegacyRuntimeGenerics` the attribute a class carries stands for its own or inherited
    one);
  - the handle's forwarding of attribute access to its origin, which `GetClassMethod`
    takes as given.
- `cascade` is stored, overwritten and propagated, but nothing in the modelled source
  reads it. The subclass hook it is meant to drive is not part of this model.
- `runtime_generic(cascade=...)` without a class returns a decorator that performs
  `Origin.RuntimeGeneric`. The closure itself is not modelled.
- `no_alias` sets `__no_alias__` on any callable. The engine reads the flag only on
  classmethod objects, so `NoAlias` changes only those. Applying `no_alias` beneath
  `@classmethod` (tagging the plain function) is not modelled.
- `AliasProxy.CopyWith`: `params` is false only when it is the empty tuple. Its callers
  pass an argument tuple or nothing, so this matches them. A lone `None`, `0` or `''`
  passed as `params` would be false in Python but is not in the model. A class passed
  as `owner` is always true, so `owner` is an `Option`.
- `typing.get_args` is modelled as the arguments of any generic alias and `()` for every
  other value. Its special cases (a flattened `Callable`, `Annotated`) are left out.
- The argument forwarding of `__call__` and `_note_args` (`*args, **kwargs` to `__new__`
  and `__init__`) is not modelled. Constructor arguments are out of scope.
- The intern table is a plain map. Object identity of keys, hashing, concurrent
  requests, and the never-released references are not modelled.
- Host `issubclass` is a parameter. `generic_isinstance`'s use of `obj.__class__` is the
  instance's class.
- `get_parametrization`, `get_parents`, `runtime_generic_patch` and
  `runtime_generic_proxy` are imported by the tests but defined in no modelled file. They
  are not part of this model, and neither is linearisation or variance-aware checking.
- `LegacyRuntimeGenerics`: reading `__class_getitem__` through an instance (`owner` is
  None) appears only in `DescriptorGet`. Subscription is always through the class.

## Findings

| source | as written | input that shows it | evidently intended | confidence | as-written member | corrected member |
|---|---|---|---|---|---|---|
| runtime_generics/__init__.py:329-330 | an alias against a bare class compares only the arguments, never the origin | `generic_issubclass(Bar[Any], Foo)` with `Foo(Generic[T])` unrelated to `Bar` is true | the alias's origin must also be a subclass of the target | medium, not executed | `RuntimeGenerics.AnyAliasPassesUnrelatedClass` | `RuntimeGenerics.GenericIsSubclass` |
| runtime_generics/__init__.py:322-328 | a bare class against an alias skips the origin check, which is guarded by the subject also being an alias | `generic_issubclass(int, Foo[()])` is true | the bare class must be a subclass of the alias's origin | medium, not executed | `RuntimeGenerics.BareClassPassesEmptyAlias` | `RuntimeGenerics.GenericIsSubclass` |
| runtime_generics/__init__.py:304-305 | equal (empty) arguments lead to `cls.__origin__`, which a bare class lacks | `generic_isinstance(Foo(), Foo)` for a plain instance raises `AttributeError` | fall back to `issubclass(obj.__class__, cls)` for a bare class | medium, not executed | `RuntimeGenerics.UnparametrizedInstanceRaises` | `RuntimeGenerics.GenericIsInstance` |
| runtime_generics/__init__.py:167-178 | the rebinding loop replaces only plain classmethods, so a proxy keeps the first handle built for the class | `C[int]` then `C[str].m()` calls `m` with `cls` being `C[int]` | a classmethod sees the handle it is called through (module docstring, `whoami` on `MyGeneric[int]`) | medium, not executed | `RuntimeGenerics.LaterSubscriptionSeesFirstHandle` | `RuntimeGenerics.GetClassMethodThrough` |
| runtime_generics/__init__.py:304-306 | differing arguments fall back to the subclass check of the bare class, whose `()` equals an empty alias's `()` | `generic_isinstance(Foo[int](), Foo[()])` is true | invariant arguments: an instance of `Foo[int]` is not an instance of `Foo[()]` | medium, not executed | `RuntimeGenerics.ParametrizedInstanceOfEmptyAlias` | `RuntimeGenerics.GenericIsInstance` |
| runtime_generics.py:109 | the decorator reads `cls.__class_getitem__`, which a class that neither defines nor inherits one lacks (a `Generic` subclass, `class Foo(list)` or a class defining its own is fine) | the docstring's `@runtime_generic class Foo: pass` (lines 102-106) raises `AttributeError` | a plain class is decorated over an alias factory, and `Foo[int]().__args__` is `(int,)` | medium, not executed | `LegacyRuntimeGenerics.PlainClassDecorationRaises` | `LegacyRuntimeGenerics.PlainClassDocstringExample` |
| runtime_generics.py:89 | a subscription result is `partial(_note_args, cls, alias)`, with no `__args__` and `()` from `typing.get_args` | test_runtime_generics.py:36-37 expect `SingleArgGeneric[int].__args__` and `typing.get_args(SingleArgGeneric[int])` to be `(int,)` | the subscription result exposes the alias's arguments | medium, not executed | `LegacyRuntimeGenerics.DecoratedSubscriptionHidesArguments` | `LegacyRuntimeGenerics.DecoratedSubscriptionExposesArguments` |
| runtime_generics.py:71 | `_note_args` stamps `typing.get_args` of the wrapped result, which is `()` when that result is itself a partial | decorating `class B(A)` where `A(Generic[T])` is decorated, then `get_args(B[int]())`, gives `()` | the arguments of the innermost alias are stamped | medium, not executed | `LegacyRuntimeGenerics.DecoratedTwiceLosesArguments` | `LegacyRuntimeGenerics.ForwardedStampKeepsArguments` |

