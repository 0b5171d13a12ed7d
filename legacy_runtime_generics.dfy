/**
 * The earlier, single-file variant of runtime generics. Decorating a class replaces its
 * `__class_getitem__` with a descriptor that remembers the previous one as its factory;
 * subscribing the class builds the alias through that factory and returns a partial
 * application of `_note_args`, which, when called, creates the instance, stamps it with
 * the alias's arguments wrapped in the `_RuntimeGenericArgs` marker, and only then runs
 * `__init__`. `get_args` and `get_arg` read the stamped arguments back.
 */
module LegacyRuntimeGenerics {
  import opened TypeValues

  /** An object's `__args__`: missing, a `_RuntimeGenericArgs` tuple, or any other value. */
  datatype ArgsAttr = NoArgsAttr | RuntimeGenericArgs(args: seq<TypeValue>) | PlainArgs(value: TypeValue)

  /** What reading `__class_getitem__` through a class yields: `typing`'s alias factory
      (`Generic.__class_getitem__`) bound to a class, or the closure a runtime-generic
      descriptor hands out, which remembers the class it was bound to and the factory
      captured at decoration. */
  datatype Factory =
    | TypingClassGetItem(origin: PyClass)
    | NoteArgsClosure(cls: PyClass, factory: Factory)

  /** What a subscription evaluates to: `typing`'s alias of a class, or
      `partial(_note_args, cls, alias)`. */
  datatype Subscription =
    | GenericAlias(origin: PyClass, args: seq<TypeValue>)
    | NoteArgsPartial(cls: PyClass, alias: Subscription)

  /** A class's `__class_getitem__`, its own or inherited: missing (a class that neither
      defines one nor inherits one, such as a plain `class Foo: pass`), `typing`'s
      (`Generic`'s), or a runtime-generic descriptor. */
  datatype ClassGetItemAttr =
    | NoClassGetItem
    | TypingClassGetItemAttr
    | RuntimeGenericDescriptor(factory: Factory)

  /** A class, reduced to the one attribute the decorator rewrites. */
  class PyClass {
    var classGetItem: ClassGetItemAttr

    constructor (classGetItem: ClassGetItemAttr)
      ensures this.classGetItem == classGetItem
    {
      this.classGetItem := classGetItem;
    }
  }

  /** An object created by `_note_args` or by calling an alias. `argsSeenByInit` records
      the `__args__` the class's `__init__` could read while it ran (None before). */
  class Instance {
    const cls: PyClass
    var args: ArgsAttr
    var argsSeenByInit: Option<ArgsAttr>

    /** `cls.__new__(cls)`: a fresh object without `__args__`. */
    constructor (cls: PyClass)
      ensures this.cls == cls && args == NoArgsAttr && argsSeenByInit == None
    {
      this.cls := cls;
      args := NoArgsAttr;
      argsSeenByInit := None;
    }

    /** The class's own `__init__`, modelled by what it observes. */
    method Init()
      modifies this`argsSeenByInit
      ensures argsSeenByInit == Some(args)
    {
      argsSeenByInit := Some(args);
    }
  }

  /** `typing`'s conversion of one subscription argument (`typing._type_convert`): `None`
      stands for its class and a string for a forward reference; every other value is
      kept. */
  function TypeConvert(v: TypeValue): (r: TypeValue)
    ensures r != NoneObject && !r.Str?
    ensures v == NoneObject ==> r == NoneClass
    ensures v.Str? ==> r == ForwardRef(v.text)
    ensures v != NoneObject && !v.Str? ==> r == v
  {
    match v
    case NoneObject => NoneClass
    case Str(text) => ForwardRef(text)
    case _ => v
  }

  /** Converts every element, in order. */
  function ConvertEach(items: seq<TypeValue>): (r: seq<TypeValue>)
    ensures |r| == |items|
    ensures forall i :: 0 <= i < |items| ==> r[i] == TypeConvert(items[i])
  {
    if items == [] then [] else [TypeConvert(items[0])] + ConvertEach(items[1..])
  }

  /** The arguments `typing`'s alias factory (`Generic.__class_getitem__`) stores: a lone
      value becomes a one-element tuple, and every element is converted. */
  function TypingParams(params: TypeValue): (r: seq<TypeValue>)
    ensures params.Tuple? ==> |r| == |params.items|
    ensures !params.Tuple? ==> r == [TypeConvert(params)]
    ensures forall v | v in r :: v != NoneObject && !v.Str?
  {
    if params.Tuple? then ConvertEach(params.items) else [TypeConvert(params)]
  }

  /** Converting arguments that are already converted changes nothing, so `typing` stores
      a converted tuple as it is given. */
  lemma ConvertEachIsIdempotent(items: seq<TypeValue>)
    ensures ConvertEach(ConvertEach(items)) == ConvertEach(items)
  {
  }

  /** `_RuntimeGenericDescriptor.__get__(instance, owner)`: binds `owner` when given,
      otherwise the type of `instance`. */
  function DescriptorGet(factory: Factory, instanceType: PyClass, owner: Option<PyClass>): (f: Factory)
    ensures f.NoteArgsClosure? && f.factory == factory
    ensures owner.Some? ==> f.cls == owner.value
    ensures owner.None? ==> f.cls == instanceType
  {
    var cls := if owner.Some? then owner.value else instanceType;
    NoteArgsClosure(cls, factory)
  }

  /** The class whose instances a factory's subscriptions construct. */
  function BoundClass(factory: Factory): PyClass {
    match factory
    case TypingClassGetItem(origin) => origin
    case NoteArgsClosure(cls, _) => cls
  }

  /** `cls.__class_getitem__` read through the class itself, so the owner is `cls`; None
      stands for the `AttributeError` of a class without one. */
  function ClassGetItemOf(cls: PyClass): (r: Option<Factory>)
    reads cls
    ensures r.None? <==> cls.classGetItem.NoClassGetItem?
    ensures r.Some? ==> BoundClass(r.value) == cls
    ensures cls.classGetItem.RuntimeGenericDescriptor? ==> r.value.NoteArgsClosure? && r.value.factory == cls.classGetItem.factory
  {
    match cls.classGetItem
    case NoClassGetItem => None
    case TypingClassGetItemAttr => Some(TypingClassGetItem(cls))
    case RuntimeGenericDescriptor(factory) => Some(DescriptorGet(factory, cls, Some(cls)))
  }

  /** `typing.get_args` of a subscription result: an alias's arguments; a partial has none. */
  function SubscriptionArgs(s: Subscription): seq<TypeValue> {
    match s
    case GenericAlias(_, args) => args
    case NoteArgsPartial(_, _) => []
  }

  /** The arguments of the innermost alias of a subscription result: what `typing.get_args`
      would give if every partial forwarded the arguments of the alias it wraps. */
  function ForwardedArgs(s: Subscription): seq<TypeValue> {
    match s
    case GenericAlias(_, args) => args
    case NoteArgsPartial(_, alias) => ForwardedArgs(alias)
  }

  /** The class of the instance a subscription result constructs. */
  function ConstructedClass(s: Subscription): PyClass {
    match s
    case GenericAlias(origin, _) => origin
    case NoteArgsPartial(cls, _) => cls
  }

  /** Applying a factory to subscription arguments (the lambda the descriptor hands out):
      the alias is built by the captured factory first, and only then wrapped into the
      partial application. The result constructs the factory's class, and the innermost
      alias carries the arguments as `typing` converts them. */
  function Subscribe(factory: Factory, params: TypeValue): (s: Subscription)
    ensures ConstructedClass(s) == BoundClass(factory)
    ensures s.NoteArgsPartial? <==> factory.NoteArgsClosure?
    ensures ForwardedArgs(s) == TypingParams(params)
  {
    match factory
    case TypingClassGetItem(origin) => GenericAlias(origin, TypingParams(params))
    case NoteArgsClosure(cls, inner) => NoteArgsPartial(cls, Subscribe(inner, params))
  }

  /** `cls[params]`: a `TypeError` for a class without `__class_getitem__`; otherwise a
      result that constructs `cls` and carries the arguments in its innermost alias. */
  function Subscript(cls: PyClass, params: TypeValue): (r: Result<Subscription>)
    reads cls
    ensures r.Err? <==> cls.classGetItem.NoClassGetItem?
    ensures r.Err? ==> r.error == TypeError
    ensures r.Ok? ==> ConstructedClass(r.value) == cls && ForwardedArgs(r.value) == TypingParams(params)
    ensures r.Ok? ==> (r.value.NoteArgsPartial? <==> cls.classGetItem.RuntimeGenericDescriptor?)
  {
    match ClassGetItemOf(cls)
    case None => Err(TypeError)
    case Some(factory) => Ok(Subscribe(factory, params))
  }

  /** The `__args__` an instance has after calling a subscription result. */
  function StampedArgs(s: Subscription): ArgsAttr {
    match s
    case GenericAlias(_, _) => NoArgsAttr
    case NoteArgsPartial(_, alias) => RuntimeGenericArgs(SubscriptionArgs(alias))
  }

  /** `runtime_generic(cls)`: reads the class's current `__class_getitem__`, which raises
      `AttributeError` for a class without one, captures it as the factory and installs a
      descriptor over it. */
  method RuntimeGeneric(cls: PyClass) returns (r: Result<PyClass>)
    modifies cls
    ensures old(cls.classGetItem).NoClassGetItem? ==>
      r == Err(AttributeError("__class_getitem__")) && cls.classGetItem == old(cls.classGetItem)
    ensures !old(cls.classGetItem).NoClassGetItem? ==>
      r == Ok(cls) && cls.classGetItem == RuntimeGenericDescriptor(old(ClassGetItemOf(cls)).value)
  {
    var current := ClassGetItemOf(cls);
    match current
    case None =>
      r := Err(AttributeError("__class_getitem__"));
    case Some(factory) =>
      cls.classGetItem := RuntimeGenericDescriptor(factory);
      r := Ok(cls);
  }

  /** `_note_args(cls, alias)`: a fresh instance whose `__args__` is set to the alias's
      arguments, in the marker class, before `__init__` runs. */
  method NoteArgs(cls: PyClass, alias: Subscription) returns (instance: Instance)
    ensures fresh(instance) && instance.cls == cls
    ensures instance.args == RuntimeGenericArgs(SubscriptionArgs(alias))
    ensures instance.argsSeenByInit == Some(instance.args)
  {
    instance := new Instance(cls);
    instance.args := RuntimeGenericArgs(SubscriptionArgs(alias));
    instance.Init();
  }

  /** Calling a subscription result: the partial runs `_note_args`; `typing`'s own alias
      creates an instance without touching `__args__`. */
  method Call(s: Subscription) returns (instance: Instance)
    ensures fresh(instance) && instance.cls == ConstructedClass(s)
    ensures instance.args == StampedArgs(s)
    ensures instance.argsSeenByInit == Some(instance.args)
  {
    match s
    case NoteArgsPartial(cls, alias) =>
      instance := NoteArgs(cls, alias);
    case GenericAlias(origin, _) =>
      instance := new Instance(origin);
      instance.Init();
  }

  /** `get_args`: the instance's `__args__` when it carries the marker, `()` otherwise. */
  function GetArgs(attr: ArgsAttr): (r: seq<TypeValue>)
    ensures attr.RuntimeGenericArgs? ==> r == attr.args
    ensures !attr.RuntimeGenericArgs? ==> r == []
  {
    match attr
    case RuntimeGenericArgs(args) => args
    case NoArgsAttr => []
    case PlainArgs(_) => []
  }

  /** `get_arg`: the sole type argument; `ValueError` reporting the count otherwise. */
  function GetArg(attr: ArgsAttr): (r: Result<TypeValue>)
    ensures r.Ok? <==> |GetArgs(attr)| == 1
    ensures r.Ok? ==> r.value == GetArgs(attr)[0]
    ensures r.Err? ==> r.error == ValueError(|GetArgs(attr)|)
  {
    var args := GetArgs(attr);
    if |args| != 1 then Err(ValueError(|args|)) else Ok(args[0])
  }

  /** `get_argument` is the very same function. */
  const GetArgument: ArgsAttr -> Result<TypeValue> := GetArg

  /** Only the marker makes arguments visible: an instance without `__args__`, or whose
      `__args__` is any other value, has no arguments as far as `get_args` and `get_arg`
      are concerned. */
  lemma UnmarkedArgsAreInvisible(attr: ArgsAttr)
    requires !attr.RuntimeGenericArgs?
    ensures GetArgs(attr) == [] && GetArg(attr) == Err(ValueError(0)) && GetArgument(attr) == GetArg(attr)
  {
  }

  /** Round trip for a class decorated once over `typing`'s subscription: the constructed
      instance is of the decorated class, and `get_args` returns the subscription
      arguments in order. */
  lemma DecoratedOnceRoundTrip(cls: PyClass, origin: PyClass, params: TypeValue)
    ensures var s := Subscribe(NoteArgsClosure(cls, TypingClassGetItem(origin)), params);
      ConstructedClass(s) == cls && GetArgs(StampedArgs(s)) == TypingParams(params)
  {
  }

  /** `C[None]()` of a class decorated once: `get_args` gives `(NoneType,)`, not `(None,)`,
      and a string argument comes back as a forward reference. */
  lemma NoneArgumentIsConverted(cls: PyClass, origin: PyClass, text: string)
    ensures GetArgs(StampedArgs(Subscribe(NoteArgsClosure(cls, TypingClassGetItem(origin)), NoneObject))) == [NoneClass]
    ensures GetArgs(StampedArgs(Subscribe(NoteArgsClosure(cls, TypingClassGetItem(origin)), Tuple([NoneObject, Str(text)]))))
         == [NoneClass, ForwardRef(text)]
  {
  }

  /** A class whose `__class_getitem__` is already a runtime-generic closure when it is
      decorated (a class decorated twice, or a subclass of a decorated class) stamps the
      arguments of the inner partial, which `typing` does not see as an alias: `get_args`
      comes back empty. */
  lemma DecoratedTwiceLosesArguments(cls: PyClass, inner: PyClass, origin: PyClass, params: TypeValue)
    ensures var s := Subscribe(NoteArgsClosure(cls, NoteArgsClosure(inner, TypingClassGetItem(origin))), params);
      ConstructedClass(s) == cls && GetArgs(StampedArgs(s)) == []
  {
  }

  /** The stamp `_note_args` would make if it read the arguments of the innermost alias. */
  function ForwardedStamp(s: Subscription): ArgsAttr {
    match s
    case GenericAlias(_, _) => NoArgsAttr
    case NoteArgsPartial(_, alias) => RuntimeGenericArgs(ForwardedArgs(alias))
  }

  /** With the forwarded stamp, every decorated class, however many closures deep its
      factory is, constructs instances whose `get_args` are the subscription arguments. */
  lemma ForwardedStampKeepsArguments(cls: PyClass, factory: Factory, params: TypeValue)
    ensures var s := Subscribe(NoteArgsClosure(cls, factory), params);
      ConstructedClass(s) == cls && GetArgs(ForwardedStamp(s)) == TypingParams(params)
  {
  }

  /** `get_arg` of `C[A]()` is `A` for a lone argument, and a `ValueError` for any tuple
      whose length is not one. */
  lemma GetArgOfConstructed(cls: PyClass, origin: PyClass, params: TypeValue)
    ensures var attr := StampedArgs(Subscribe(NoteArgsClosure(cls, TypingClassGetItem(origin)), params));
      && (!params.Tuple? ==> GetArg(attr) == Ok(TypeConvert(params)))
      && (!params.Tuple? && params != NoneObject && !params.Str? ==> GetArg(attr) == Ok(params))
      && (params == NoneObject ==> GetArg(attr) == Ok(NoneClass))
      && (params.Tuple? && |params.items| != 1 ==> GetArg(attr) == Err(ValueError(|params.items|)))
  {
  }

  /** The subscription result of a decorated class is a partial, which has no `__args__`
      and of which `typing.get_args` is `()`, whatever the arguments. */
  lemma DecoratedSubscriptionHidesArguments(cls: PyClass, params: TypeValue)
    requires cls.classGetItem.RuntimeGenericDescriptor?
    ensures Subscript(cls, params).Ok? && Subscript(cls, params).value.NoteArgsPartial?
    ensures SubscriptionArgs(Subscript(cls, params).value) == []
  {
  }

  /** A subscription result that forwarded the arguments of the alias it wraps would give
      back the subscription arguments: `(int,)` for `C[int]`. */
  lemma DecoratedSubscriptionExposesArguments(cls: PyClass, params: TypeValue)
    requires cls.classGetItem.RuntimeGenericDescriptor?
    ensures Subscript(cls, params).Ok?
    ensures ForwardedArgs(Subscript(cls, params).value) == TypingParams(params)
    ensures !params.Tuple? ==> ForwardedArgs(Subscript(cls, params).value) == [TypeConvert(params)]
    ensures !params.Tuple? && params != NoneObject && !params.Str? ==> ForwardedArgs(Subscript(cls, params).value) == [params]
  {
  }

  /** Decorating a class over `typing`'s subscription, then `C[params]()`: the instance is
      of class `C`, `__init__` already sees the marked arguments, and `get_args` gives
      the subscription arguments in order. */
  method DecorateAndConstruct(cls: PyClass, params: TypeValue) returns (instance: Instance)
    requires cls.classGetItem == TypingClassGetItemAttr
    modifies cls
    ensures fresh(instance) && instance.cls == cls
    ensures instance.argsSeenByInit == Some(RuntimeGenericArgs(TypingParams(params)))
    ensures GetArgs(instance.args) == TypingParams(params)
  {
    var decorated := RuntimeGeneric(cls);
    var s := Subscript(cls, params);
    assert s.value == NoteArgsPartial(cls, Subscribe(TypingClassGetItem(cls), params));
    instance := Call(s.value);
  }

  /** The docstring's own example, `@runtime_generic class Foo: pass`, as written: `Foo`
      neither defines nor inherits `__class_getitem__`, so reading its `__class_getitem__` raises. */
  method PlainClassDecorationRaises() returns (r: Result<PyClass>)
    ensures r == Err(AttributeError("__class_getitem__"))
  {
    var foo := new PyClass(NoClassGetItem);
    r := RuntimeGeneric(foo);
  }

  /** The decorator as intended for a class without `__class_getitem__`: it captures
      `typing`'s alias factory for the class instead of raising. */
  method RuntimeGenericForAnyClass(cls: PyClass)
    modifies cls
    ensures cls.classGetItem == RuntimeGenericDescriptor(
      if old(cls.classGetItem).NoClassGetItem? then TypingClassGetItem(cls) else old(ClassGetItemOf(cls)).value)
  {
    var current := ClassGetItemOf(cls);
    var factory := if current.Some? then current.value else TypingClassGetItem(cls);
    cls.classGetItem := RuntimeGenericDescriptor(factory);
  }

  /** The docstring's example with the intended decorator: `Foo[arg]().__args__` is
      `(arg,)`, with `None` and strings converted as `typing` does. */
  method PlainClassDocstringExample(arg: TypeValue) returns (args: seq<TypeValue>)
    requires !arg.Tuple?
    ensures args == [TypeConvert(arg)]
    ensures arg != NoneObject && !arg.Str? ==> args == [arg]
  {
    var foo := new PyClass(NoClassGetItem);
    RuntimeGenericForAnyClass(foo);
    var s := Subscript(foo, arg);
    assert s.value == NoteArgsPartial(foo, Subscribe(TypingClassGetItem(foo), arg));
    var instance := Call(s.value);
    args := GetArgs(instance.args);
  }
}
