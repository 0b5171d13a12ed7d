/**
 * The alias-proxy engine of `runtime_generics`: subscribing a runtime-generic class,
 * `C[A1, ..., An]`, yields an interned handle (an `_AliasProxy`) that stores the
 * normalised arguments, re-targets the class's own classmethods to itself, and stamps
 * every instance it constructs with those arguments before the instance's `__init__` runs.
 *
 * State that the source updates in place is modelled by classes: the process-wide intern
 * table, each class's own namespace (`vars(cls)`), each handle and each instance.
 * The retrieval function and the two checks are functions over value views of objects.
 */
module RuntimeGenerics {
  import opened TypeValues

  // ---------------------------------------------------------------------------------
  // Argument normalisation
  // ---------------------------------------------------------------------------------

  /** The two placeholders `typing` uses internally and that must not leak out. */
  predicate IsSentinel(v: TypeValue) {
    v == TypingEmpty || v == TypingEllipsis
  }

  /** One element of the normalising comprehension. */
  function NormalizeArg(v: TypeValue): (r: TypeValue)
    ensures !IsSentinel(r)
    ensures r == v <==> !IsSentinel(v)
    ensures v == TypingEmpty ==> r == Tuple([])
    ensures v == TypingEllipsis ==> r == EllipsisObject
  {
    if v == TypingEmpty then Tuple([])
    else if v == TypingEllipsis then EllipsisObject
    else v
  }

  /** The comprehension over a whole tuple, element by element and in order. */
  function NormalizeEach(items: seq<TypeValue>): (r: seq<TypeValue>)
    ensures |r| == |items|
    ensures forall i :: 0 <= i < |items| ==> r[i] == NormalizeArg(items[i])
  {
    if items == [] then [] else [NormalizeArg(items[0])] + NormalizeEach(items[1..])
  }

  /** Argument tuples in which no sentinel is left. */
  predicate Normalized(args: seq<TypeValue>) {
    forall i :: 0 <= i < |args| ==> !IsSentinel(args[i])
  }

  /** `_normalize_generic_args`: a non-tuple becomes a one-element tuple, then every
      element is normalised on its own. */
  function NormalizeGenericArgs(params: TypeValue): (r: seq<TypeValue>)
    ensures !params.Tuple? ==> r == [NormalizeArg(params)]
    ensures params.Tuple? ==> |r| == |params.items|
    ensures params.Tuple? ==> forall i :: 0 <= i < |r| ==> r[i] == NormalizeArg(params.items[i])
    ensures Normalized(r)
  {
    NormalizeEach(if params.Tuple? then params.items else [params])
  }

  /** Normalising a tuple that is already normalised gives back the same arguments. */
  lemma NormalizedArgsAreFixed(args: seq<TypeValue>)
    requires Normalized(args)
    ensures NormalizeGenericArgs(Tuple(args)) == args
  {
  }

  /** Normalisation is idempotent. */
  lemma NormalizeIsIdempotent(params: TypeValue)
    ensures NormalizeGenericArgs(Tuple(NormalizeGenericArgs(params))) == NormalizeGenericArgs(params)
  {
    NormalizedArgsAreFixed(NormalizeGenericArgs(params));
  }

  // ---------------------------------------------------------------------------------
  // Data model
  // ---------------------------------------------------------------------------------

  /** An object's `__args__` attribute: missing, a `GenericArgs` tuple, or any other value. */
  datatype ArgsAttr = NoArgsAttr | GenericArgs(args: seq<TypeValue>) | PlainArgs(value: TypeValue)

  /** A value in a class's own namespace, `vars(cls)`. */
  datatype Member =
    | ClassMethod(func: nat, noAlias: bool)               // a classmethod; noAlias is its `__no_alias__`
    | ClassMethodProxy(aliasProxy: AliasProxy, func: nat) // a `_ClassMethodProxy` over a classmethod's function
    | RuntimeGenericDescriptor(cascade: bool)             // what `runtime_generic` installs
    | OtherMember(id: nat)                                // anything else

  /** The name under which `runtime_generic` installs its descriptor. */
  const ClassGetItem := "__class_getitem__"

  /** What `cls` is inside a classmethod call: the bare class or a handle. */
  datatype Receiver = ClassReceiver(cls: Origin) | AliasReceiver(alias: AliasProxy)

  /** A classmethod's function bound to its receiver (`MethodType(func, receiver)`). */
  datatype BoundMethod = BoundMethod(func: nat, receiver: Receiver)

  /** A class: its own namespace, which the engine rewrites, and its `__parameters__`. */
  class Origin {
    var members: map<string, Member>
    const parameters: Option<seq<TypeValue>>

    constructor (members: map<string, Member>, parameters: Option<seq<TypeValue>>)
      ensures this.members == members && this.parameters == parameters
    {
      this.members := members;
      this.parameters := parameters;
    }

    /** `runtime_generic(cls, cascade=...)`: installs the subscription descriptor and
        leaves every other member alone. */
    method RuntimeGeneric(cascade: bool)
      modifies this
      ensures members == old(members)[ClassGetItem := RuntimeGenericDescriptor(cascade)]
    {
      members := members[ClassGetItem := RuntimeGenericDescriptor(cascade)];
    }
  }

  /** An object built by calling a handle. `argsSeenByInit` records the `__args__` the
      class's `__init__` could read while it ran (None before it runs). */
  class Instance {
    const cls: Origin
    var argsAttr: ArgsAttr
    var argsSeenByInit: Option<ArgsAttr>

    /** `origin.__new__(origin)`: a fresh object without `__args__`. */
    constructor (cls: Origin)
      ensures this.cls == cls && argsAttr == NoArgsAttr && argsSeenByInit == None
    {
      this.cls := cls;
      argsAttr := NoArgsAttr;
      argsSeenByInit := None;
    }

    /** The class's own `__init__`, modelled by what it observes. */
    method Init()
      modifies this`argsSeenByInit
      ensures argsSeenByInit == Some(argsAttr)
    {
      argsSeenByInit := Some(argsAttr);
    }
  }

  /** `ALIAS_PROXY_INTERNS`: handles keyed by (origin, normalised arguments). */
  class InternTable {
    var entries: map<(Origin, seq<TypeValue>), AliasProxy>

    /** Every entry is the handle of its own key, and keys hold normalised arguments. */
    ghost predicate Valid()
      reads this, entries.Values
    {
      forall k | k in entries :: entries[k].origin == k.0 && entries[k].args == k.1 && Normalized(k.1)
    }

    /** The table holds `h` under h's own key. */
    predicate Holds(h: AliasProxy)
      reads this, h
    {
      (h.origin, h.args) in entries && entries[(h.origin, h.args)] == h
    }

    constructor ()
      ensures entries == map[] && Valid()
    {
      entries := map[];
    }
  }

  // ---------------------------------------------------------------------------------
  // Classmethod rebinding
  // ---------------------------------------------------------------------------------

  /** A member the rebinding loop replaces: a classmethod not tagged by `no_alias`. */
  predicate Rebindable(m: Member) {
    m.ClassMethod? && !m.noAlias
  }

  /** `no_alias`: tags a classmethod so that no handle re-targets it; the flag is set on
      other callables too, but the engine reads it only on classmethods. */
  function NoAlias(m: Member): (r: Member)
    ensures !Rebindable(r)
    ensures r.ClassMethod? <==> m.ClassMethod?
    ensures m.ClassMethod? ==> r.func == m.func
    ensures !m.ClassMethod? ==> r == m
  {
    if m.ClassMethod? then ClassMethod(m.func, true) else m
  }

  function Rebind(m: Member, h: AliasProxy): Member {
    if Rebindable(m) then ClassMethodProxy(h, m.func) else m
  }

  /** The namespace after one pass of the rebinding loop for handle `h`. */
  function ReplaceClassMethods(ms: map<string, Member>, h: AliasProxy): (r: map<string, Member>)
    ensures r.Keys == ms.Keys
    ensures forall n | n in ms && Rebindable(ms[n]) :: r[n] == ClassMethodProxy(h, ms[n].func)
    ensures forall n | n in ms && !Rebindable(ms[n]) :: r[n] == ms[n]
  {
    map n | n in ms :: Rebind(ms[n], h)
  }

  /** After a pass nothing rebindable is left. */
  lemma NothingRebindableAfterPass(ms: map<string, Member>, h: AliasProxy)
    ensures forall n | n in ReplaceClassMethods(ms, h) :: !Rebindable(ReplaceClassMethods(ms, h)[n])
  {
  }

  /** So a later handle's pass changes nothing: classmethods stay bound to the first handle
      built for their class. */
  lemma LaterPassesChangeNothing(ms: map<string, Member>, first: AliasProxy, later: AliasProxy)
    ensures ReplaceClassMethods(ReplaceClassMethods(ms, first), later) == ReplaceClassMethods(ms, first)
  {
    NothingRebindableAfterPass(ms, first);
  }

  /** A member tagged by `no_alias` survives every pass unchanged. */
  lemma NoAliasSurvivesPass(ms: map<string, Member>, name: string, m: Member, h: AliasProxy)
    ensures ReplaceClassMethods(ms[name := NoAlias(m)], h)[name] == NoAlias(m)
  {
  }

  /** The loop over `vars(origin)`; each step touches only the key it visits, so the order
      of the visit does not matter. */
  method RebindClassMethods(origin: Origin, h: AliasProxy)
    modifies origin
    ensures origin.members == ReplaceClassMethods(old(origin.members), h)
  {
    var pending := origin.members.Keys;
    while pending != {}
      invariant pending <= origin.members.Keys == old(origin.members).Keys
      invariant forall n | n in origin.members && n !in pending :: origin.members[n] == Rebind(old(origin.members)[n], h)
      invariant forall n | n in pending :: origin.members[n] == old(origin.members)[n]
      decreases pending
    {
      var name :| name in pending;
      var member := origin.members[name];
      if Rebindable(member) {
        origin.members := origin.members[name := ClassMethodProxy(h, member.func)];
      }
      pending := pending - {name};
    }
  }

  // ---------------------------------------------------------------------------------
  // Handles
  // ---------------------------------------------------------------------------------

  class AliasProxy {
    var origin: Origin
    var args: seq<TypeValue>
    var cascade: bool

    /** The bare object `__new__` allocates on a miss; `Initialize` writes every field. */
    constructor Allocate(origin: Origin)
      ensures this.origin == origin && args == [] && cascade
    {
      this.origin := origin;
      args := [];
      cascade := true;
    }

    /** `_AliasProxy.__init__`, run on every request, whether `__new__` found the handle in
        the table or allocated it: stores origin, normalised arguments and `cascade` (so a
        later request overwrites the flag of the shared handle), (re)inserts the handle,
        then runs the rebinding loop over the origin's namespace. */
    method Initialize(table: InternTable, origin: Origin, params: TypeValue, cascade: bool)
      requires table.Valid()
      requires this in table.entries.Values ==>
        var key := (origin, NormalizeGenericArgs(params));
        key in table.entries && table.entries[key] == this
      modifies this, table, origin
      ensures this.origin == origin && args == NormalizeGenericArgs(params) && this.cascade == cascade
      ensures table.entries == old(table.entries)[(origin, args) := this]
      ensures table.Valid() && table.Holds(this)
      ensures origin.members == ReplaceClassMethods(old(origin.members), this)
    {
      ghost var before := table.entries;
      forall k | k in before && before[k] == this
        ensures k == (origin, NormalizeGenericArgs(params))
      {
      }
      this.origin := origin;
      this.args := NormalizeGenericArgs(params);
      this.cascade := cascade;
      table.entries := table.entries[(origin, args) := this];
      RebindClassMethods(origin, this);
    }

    /** `_AliasProxy.__call__`: a fresh instance of the origin whose `__args__` is the
        handle's own tuple, set before `__init__` runs. */
    method Call() returns (instance: Instance)
      ensures fresh(instance)
      ensures instance.cls == origin && instance.argsAttr == GenericArgs(args)
      ensures instance.argsSeenByInit == Some(GenericArgs(args))
      ensures GetTypeArguments(instance.argsAttr) == args
    {
      instance := new Instance(origin);
      instance.argsAttr := GenericArgs(args);
      instance.Init();
    }

    /** `copy_with`: the handle for (`owner or origin`, `params or args`), built through
        the interning constructor with this handle's `cascade`. An absent or empty
        `params` falls back to the current arguments. */
    method CopyWith(table: InternTable, params: Option<TypeValue>, owner: Option<Origin>) returns (r: AliasProxy)
      requires table.Valid() && table.Holds(this)
      modifies table, table.entries.Values, if owner.Some? then owner.value else origin
      ensures table.Valid() && table.Holds(r)
      ensures r.origin == (if owner.Some? then owner.value else old(origin))
      ensures r.args == (if params.Some? && Truthy(params.value) then NormalizeGenericArgs(params.value) else old(args))
      ensures r.cascade == old(cascade)
      ensures (r.origin, r.args) in old(table.entries) ==> r == old(table.entries)[(r.origin, r.args)]
      ensures table.entries == old(table.entries)[(r.origin, r.args) := r]
      ensures forall v | v in table.entries.Values :: v in old(table.entries.Values) || fresh(v)
      ensures forall v | v in old(table.entries.Values) && v != r :: unchanged(v)
      ensures var target := if owner.Some? then owner.value else old(origin);
        target.members == ReplaceClassMethods(old(target.members), r)
      ensures owner.None? && !(params.Some? && Truthy(params.value)) ==> r == this
    {
      var target := if owner.Some? then owner.value else origin;
      var p := if params.Some? && Truthy(params.value) then params.value else Tuple(args);
      NormalizedArgsAreFixed(args);
      r := NewAliasProxy(table, target, p, cascade);
    }
  }

  /** `_AliasProxy(origin, params, cascade=...)`: `__new__` returns the interned handle for
      (origin, normalised params) when there is one and allocates otherwise; `__init__`
      then runs on it in both cases. The table only grows. */
  method NewAliasProxy(table: InternTable, origin: Origin, params: TypeValue, cascade: bool) returns (h: AliasProxy)
    requires table.Valid()
    modifies table, table.entries.Values, origin
    ensures table.Valid() && table.Holds(h)
    ensures h.origin == origin && h.args == NormalizeGenericArgs(params) && h.cascade == cascade
    ensures (origin, h.args) in old(table.entries) ==> h == old(table.entries)[(origin, h.args)]
    ensures (origin, h.args) !in old(table.entries) ==> fresh(h)
    ensures table.entries == old(table.entries)[(origin, h.args) := h]
    ensures forall v | v in table.entries.Values :: v in old(table.entries.Values) || fresh(v)
    ensures forall v | v in old(table.entries.Values) && v != h :: unchanged(v)
    ensures old(table.entries).Keys <= table.entries.Keys
    ensures forall k | k in old(table.entries) :: table.entries[k] == old(table.entries)[k]
    ensures origin.members == ReplaceClassMethods(old(origin.members), h)
  {
    var key := (origin, NormalizeGenericArgs(params));
    if key in table.entries {
      h := table.entries[key];
    } else {
      h := new AliasProxy.Allocate(origin);
    }
    h.Initialize(table, origin, params, cascade);
  }

  /** `cls[params]`: looks up `__class_getitem__` in the class's own namespace; the
      runtime-generic descriptor's `__get__` binds the owner `cls` and the subscription
      builds the handle through the interning constructor. Any other `__class_getitem__`
      is `typing`'s own and yields None here. */
  method Subscript(table: InternTable, cls: Origin, params: TypeValue) returns (h: Option<AliasProxy>)
    requires table.Valid()
    modifies table, table.entries.Values, cls
    ensures table.Valid()
    ensures h.Some? <==> ClassGetItem in old(cls.members) && old(cls.members)[ClassGetItem].RuntimeGenericDescriptor?
    ensures h.Some? ==> table.Holds(h.value) && h.value.origin == cls && h.value.args == NormalizeGenericArgs(params)
    ensures h.Some? ==> h.value.cascade == old(cls.members)[ClassGetItem].cascade
    ensures h.Some? && (cls, h.value.args) in old(table.entries) ==> h.value == old(table.entries)[(cls, h.value.args)]
    ensures h.Some? ==> cls.members == ReplaceClassMethods(old(cls.members), h.value)
    ensures h.Some? ==> table.entries == old(table.entries)[(cls, h.value.args) := h.value]
    ensures forall v | v in table.entries.Values :: v in old(table.entries.Values) || fresh(v)
    ensures forall v | v in old(table.entries.Values) && (h.None? || v != h.value) :: unchanged(v)
    ensures h.None? ==> table.entries == old(table.entries) && cls.members == old(cls.members)
  {
    if ClassGetItem in cls.members && cls.members[ClassGetItem].RuntimeGenericDescriptor? {
      var descriptor := cls.members[ClassGetItem];
      var alias := NewAliasProxy(table, cls, params, descriptor.cascade);
      h := Some(alias);
    } else {
      h := None;
    }
  }

  /** Subscribing a runtime-generic class twice with arguments that normalise alike
      (`C[int]` and `C[(int,)]`, say) yields the very same handle both times. */
  method SubscriptTwice(table: InternTable, cls: Origin, a: TypeValue, b: TypeValue) returns (first: AliasProxy, second: AliasProxy)
    requires table.Valid()
    requires ClassGetItem in cls.members && cls.members[ClassGetItem].RuntimeGenericDescriptor?
    requires NormalizeGenericArgs(a) == NormalizeGenericArgs(b)
    modifies table, table.entries.Values, cls
    ensures first == second
    ensures first.origin == cls && first.args == NormalizeGenericArgs(a)
  {
    var x := Subscript(table, cls, a);
    first := x.value;
    var y := Subscript(table, cls, b);
    second := y.value;
  }

  /** `_ClassMethodProxy.__get__(instance, owner)`: the classmethod's function bound to
      `alias_proxy.copy_with(owner=owner)`. */
  method ClassMethodProxyGet(table: InternTable, proxy: Member, owner: Option<Origin>) returns (m: BoundMethod)
    requires proxy.ClassMethodProxy? && table.Valid() && table.Holds(proxy.aliasProxy)
    modifies table, table.entries.Values, if owner.Some? then owner.value else proxy.aliasProxy.origin
    ensures table.Valid()
    ensures m.func == proxy.func && m.receiver.AliasReceiver? && table.Holds(m.receiver.alias)
    ensures m.receiver.alias.origin == (if owner.Some? then owner.value else old(proxy.aliasProxy.origin))
    ensures m.receiver.alias.args == old(proxy.aliasProxy.args)
    ensures var key := (m.receiver.alias.origin, m.receiver.alias.args);
      key in old(table.entries) ==> m.receiver.alias == old(table.entries)[key]
    ensures table.entries == old(table.entries)[(m.receiver.alias.origin, m.receiver.alias.args) := m.receiver.alias]
    ensures forall v | v in table.entries.Values :: v in old(table.entries.Values) || fresh(v)
    ensures forall v | v in old(table.entries.Values) && v != m.receiver.alias :: unchanged(v)
    ensures var target := if owner.Some? then owner.value else old(proxy.aliasProxy.origin);
      target.members == ReplaceClassMethods(old(target.members), m.receiver.alias)
  {
    var alias := proxy.aliasProxy.CopyWith(table, None, owner);
    m := BoundMethod(proxy.func, AliasReceiver(alias));
  }

  /** `getattr(cls, name)` for a classmethod in the class's own namespace: a plain
      classmethod binds the bare class, a proxy binds the handle `copy_with` gives for
      owner `cls`. Anything else is not a classmethod and gives None. A handle forwards
      this lookup to its origin. */
  method GetClassMethod(table: InternTable, cls: Origin, name: string) returns (m: Option<BoundMethod>)
    requires table.Valid()
    requires name in cls.members && cls.members[name].ClassMethodProxy? ==> table.Holds(cls.members[name].aliasProxy)
    modifies table, table.entries.Values, cls
    ensures table.Valid()
    ensures m.Some? <==> name in old(cls.members) && (old(cls.members)[name].ClassMethod? || old(cls.members)[name].ClassMethodProxy?)
    ensures name in old(cls.members) && old(cls.members)[name].ClassMethod? ==>
      && m == Some(BoundMethod(old(cls.members)[name].func, ClassReceiver(cls)))
      && cls.members == old(cls.members) && table.entries == old(table.entries)
    ensures name in old(cls.members) && old(cls.members)[name].ClassMethodProxy? ==>
      var p := old(cls.members)[name];
      && m.value.func == p.func && m.value.receiver.AliasReceiver?
      && m.value.receiver.alias.origin == cls && m.value.receiver.alias.args == old(p.aliasProxy.args)
      && ((cls, old(p.aliasProxy.args)) in old(table.entries) ==> m.value.receiver.alias == old(table.entries)[(cls, old(p.aliasProxy.args))])
      && cls.members == ReplaceClassMethods(old(cls.members), m.value.receiver.alias)
      && table.entries == old(table.entries)[(cls, old(p.aliasProxy.args)) := m.value.receiver.alias]
    ensures forall v | v in table.entries.Values :: v in old(table.entries.Values) || fresh(v)
    ensures forall v | v in old(table.entries.Values) && (m.None? || !m.value.receiver.AliasReceiver? || v != m.value.receiver.alias) :: unchanged(v)
    ensures m.None? ==> table.entries == old(table.entries) && cls.members == old(cls.members)
  {
    if name in cls.members && cls.members[name].ClassMethod? {
      m := Some(BoundMethod(cls.members[name].func, ClassReceiver(cls)));
    } else if name in cls.members && cls.members[name].ClassMethodProxy? {
      var bound := ClassMethodProxyGet(table, cls.members[name], Some(cls));
      m := Some(bound);
    } else {
      m := None;
    }
  }

  /** `C[params].with_alias()` and `C[params].without_alias()` on a freshly decorated class
      whose first classmethod is plain and whose second is tagged by `no_alias`: the first
      sees the very handle the subscription returned, the second the bare class. */
  method ClassMethodReceivers(table: InternTable, cls: Origin, params: TypeValue,
                              withAlias: string, f: nat, withoutAlias: string, g: nat)
    returns (h: AliasProxy, viaAlias: Option<BoundMethod>, viaClass: Option<BoundMethod>)
    requires table.Valid()
    requires ClassGetItem in cls.members && cls.members[ClassGetItem].RuntimeGenericDescriptor?
    requires withAlias in cls.members && cls.members[withAlias] == ClassMethod(f, false)
    requires withoutAlias in cls.members && cls.members[withoutAlias] == NoAlias(ClassMethod(g, false))
    modifies table, table.entries.Values, cls
    ensures h.origin == cls && h.args == NormalizeGenericArgs(params)
    ensures viaAlias == Some(BoundMethod(f, AliasReceiver(h)))
    ensures viaClass == Some(BoundMethod(g, ClassReceiver(cls)))
  {
    var alias := Subscript(table, cls, params);
    h := alias.value;
    ghost var key := (cls, h.args);
    NormalizeIsIdempotent(params);
    viaAlias := GetClassMethod(table, cls, withAlias);
    assert table.entries[key] == h;
    viaClass := GetClassMethod(table, cls, withoutAlias);
    assert table.entries[key] == h;
  }

  /** As written, a classmethod stays bound to the first handle built for its class:
      after `C[a]`, calling it through `C[b]` (whose lookup is forwarded to `C`) hands it
      `C[a]`. The intended receiver, `ClassMethodThrough`, is `C[b]`. */
  method LaterSubscriptionSeesFirstHandle(table: InternTable, cls: Origin, a: TypeValue, b: TypeValue, name: string, f: nat)
    returns (first: AliasProxy, second: AliasProxy, viaSecond: Option<BoundMethod>, intended: Option<BoundMethod>)
    requires table.Valid()
    requires ClassGetItem in cls.members && cls.members[ClassGetItem].RuntimeGenericDescriptor?
    requires name in cls.members && cls.members[name] == ClassMethod(f, false)
    requires NormalizeGenericArgs(a) != NormalizeGenericArgs(b)
    modifies table, table.entries.Values, cls
    ensures first != second
    ensures first.origin == cls && first.args == NormalizeGenericArgs(a)
    ensures second.origin == cls && second.args == NormalizeGenericArgs(b)
    ensures viaSecond == Some(BoundMethod(f, AliasReceiver(first)))
    ensures ClassMethodThrough(second, cls.members, name) == Some(BoundMethod(f, AliasReceiver(second)))
    ensures intended == Some(BoundMethod(f, AliasReceiver(second)))
  {
    var x := Subscript(table, cls, a);
    first := x.value;
    ghost var key := (cls, first.args);
    var y := Subscript(table, cls, b);
    second := y.value;
    intended := GetClassMethodThrough(second, name);
    assert table.entries[key] == first;
    viaSecond := GetClassMethod(table, cls, name);
    assert table.entries[key] == first;
  }

  /** The intended lookup of a classmethod through a handle: the handle it is reached
      through is the receiver, unless the classmethod is tagged by `no_alias`, in which case
      it is the bare origin. */
  function ClassMethodThrough(h: AliasProxy, ms: map<string, Member>, name: string): (m: Option<BoundMethod>)
    reads h
    ensures m.Some? <==> name in ms && (ms[name].ClassMethod? || ms[name].ClassMethodProxy?)
    ensures m.Some? ==> m.value.func == ms[name].func
    ensures m.Some? && !(ms[name].ClassMethod? && ms[name].noAlias) ==> m.value.receiver == AliasReceiver(h)
    ensures m.Some? && ms[name].ClassMethod? && ms[name].noAlias ==> m.value.receiver == ClassReceiver(h.origin)
  {
    if name !in ms then None
    else match ms[name]
      case ClassMethod(f, noAlias) => Some(BoundMethod(f, if noAlias then ClassReceiver(h.origin) else AliasReceiver(h)))
      case ClassMethodProxy(_, f) => Some(BoundMethod(f, AliasReceiver(h)))
      case _ => None
  }

  /** The intended `getattr(h, name)` for a classmethod: the lookup is forwarded to the
      handle's origin, and the function found there is bound to `h` itself (or to the bare
      origin when it is tagged by `no_alias`), whichever handle a proxy in the namespace
      remembers. Nothing is rebound and no handle is interned. */
  method GetClassMethodThrough(h: AliasProxy, name: string) returns (m: Option<BoundMethod>)
    ensures m == ClassMethodThrough(h, h.origin.members, name)
    ensures m.Some? && m.value.receiver.AliasReceiver? ==> m.value.receiver.alias == h
  {
    var ms := h.origin.members;
    if name in ms && ms[name].ClassMethod? {
      var receiver := if ms[name].noAlias then ClassReceiver(h.origin) else AliasReceiver(h);
      m := Some(BoundMethod(ms[name].func, receiver));
    } else if name in ms && ms[name].ClassMethodProxy? {
      m := Some(BoundMethod(ms[name].func, AliasReceiver(h)));
    } else {
      m := None;
    }
  }

  /** The intended lookup does not depend on which handles have rebound the namespace. */
  lemma ThroughHandleIgnoresPasses(h: AliasProxy, other: AliasProxy, ms: map<string, Member>, name: string)
    ensures ClassMethodThrough(h, ReplaceClassMethods(ms, other), name) == ClassMethodThrough(h, ms, name)
  {
  }

  // ---------------------------------------------------------------------------------
  // Retrieval
  // ---------------------------------------------------------------------------------

  /** `get_type_arguments`: the stored tuple when `__args__` is a `GenericArgs`, otherwise
      what `typing.get_args` makes of the attribute (of the default `()` when missing). */
  function GetTypeArguments(attr: ArgsAttr): (r: seq<TypeValue>)
    ensures attr.GenericArgs? ==> r == attr.args
    ensures attr.NoArgsAttr? ==> r == []
    ensures attr.PlainArgs? && attr.value.TypingAlias? ==> r == attr.value.args
    ensures attr.PlainArgs? && !attr.value.TypingAlias? ==> r == []
  {
    match attr
    case GenericArgs(args) => args
    case NoArgsAttr => TypingGetArgs(Tuple([]))
    case PlainArgs(v) => TypingGetArgs(v)
  }

  /** Subscribing and then calling gives an instance whose type arguments are the
      normalised subscription arguments, in order, and `__init__` already sees them. */
  method ConstructParametrized(table: InternTable, cls: Origin, params: TypeValue) returns (instance: Instance)
    requires table.Valid()
    requires ClassGetItem in cls.members && cls.members[ClassGetItem].RuntimeGenericDescriptor?
    modifies table, table.entries.Values, cls
    ensures fresh(instance) && instance.cls == cls
    ensures GetTypeArguments(instance.argsAttr) == NormalizeGenericArgs(params)
    ensures instance.argsSeenByInit == Some(GenericArgs(NormalizeGenericArgs(params)))
  {
    var alias := Subscript(table, cls, params);
    instance := alias.value.Call();
  }

  // ---------------------------------------------------------------------------------
  // generic_issubclass / generic_isinstance
  // ---------------------------------------------------------------------------------

  /** An operand of the checks: an instance of `typing`'s generic-alias class (every
      handle is one) or a bare class, which carries no `__args__`. */
  datatype TypeOperand =
    | AliasOperand(origin: Origin, argsAttr: ArgsAttr)
    | ClassOperand(cls: Origin)

  /** The view of a handle as an operand. */
  function HandleOperand(h: AliasProxy): TypeOperand
    reads h
  {
    AliasOperand(h.origin, GenericArgs(h.args))
  }

  function OperandArgs(t: TypeOperand): seq<TypeValue> {
    match t
    case AliasOperand(_, attr) => GetTypeArguments(attr)
    case ClassOperand(_) => GetTypeArguments(NoArgsAttr)
  }

  /** The class an operand stands for: an alias's origin or the class itself. */
  function OperandClass(t: TypeOperand): Origin {
    match t
    case AliasOperand(origin, _) => origin
    case ClassOperand(cls) => cls
  }

  /** `generic_issubclass` as written; `isSubclass` is the host `issubclass` on classes. */
  function GenericIsSubclassAsWritten(subject: TypeOperand, target: TypeOperand, isSubclass: (Origin, Origin) -> bool): (r: Result<bool>)
    ensures r.Err? <==> subject.AliasOperand? && target.ClassOperand? && target.cls.parameters.None?
    ensures r.Err? ==> r.error == AttributeError("__parameters__")
  {
    if target.AliasOperand? then
      if subject.AliasOperand? && !isSubclass(subject.origin, target.origin) then Ok(false)
      else Ok(OperandArgs(subject) == OperandArgs(target))
    else if subject.AliasOperand? then
      match target.cls.parameters
      case None => Err(AttributeError("__parameters__"))
      case Some(parameters) => Ok(OperandArgs(subject) == parameters || OperandArgs(subject) == [AnyType])
    else
      Ok(isSubclass(subject.cls, target.cls))
  }

  /** Two aliases whose origins are not subclass-related never pass. */
  lemma UnrelatedAliasesFail(subject: TypeOperand, target: TypeOperand, isSubclass: (Origin, Origin) -> bool)
    requires subject.AliasOperand? && target.AliasOperand?
    requires !isSubclass(subject.origin, target.origin)
    ensures GenericIsSubclassAsWritten(subject, target, isSubclass) == Ok(false)
  {
  }

  /** Between two aliases whose origins are subclass-related, the answer is exact equality
      of the argument tuples. */
  lemma AliasTargetsMatchExactArguments(subject: TypeOperand, target: TypeOperand, isSubclass: (Origin, Origin) -> bool)
    requires subject.AliasOperand? && target.AliasOperand?
    requires isSubclass(subject.origin, target.origin)
    ensures GenericIsSubclassAsWritten(subject, target, isSubclass) == Ok(OperandArgs(subject) == OperandArgs(target))
  {
  }

  /** Arguments are invariant: two handles of one origin pass exactly when their argument
      tuples are equal, whatever the arguments' own subclass relation. */
  lemma HandlesAreInvariant(origin: Origin, a: seq<TypeValue>, b: seq<TypeValue>, isSubclass: (Origin, Origin) -> bool)
    requires isSubclass(origin, origin)
    ensures GenericIsSubclassAsWritten(AliasOperand(origin, GenericArgs(a)), AliasOperand(origin, GenericArgs(b)), isSubclass) == Ok(a == b)
  {
  }

  /** An alias against a bare class passes when its arguments are the class's
      `__parameters__` or `(Any,)`. */
  lemma AliasAgainstBareClass(subject: TypeOperand, target: TypeOperand, isSubclass: (Origin, Origin) -> bool)
    requires subject.AliasOperand? && target.ClassOperand? && target.cls.parameters.Some?
    ensures GenericIsSubclassAsWritten(subject, target, isSubclass)
         == Ok(OperandArgs(subject) in {target.cls.parameters.value, [AnyType]})
  {
  }

  /** Two bare classes fall back to the host check. */
  lemma BareClassesUseHostCheck(subject: Origin, target: Origin, isSubclass: (Origin, Origin) -> bool)
    ensures GenericIsSubclassAsWritten(ClassOperand(subject), ClassOperand(target), isSubclass) == Ok(isSubclass(subject, target))
  {
  }

  /** As written, an alias with arguments `(Any,)` passes against every bare class that has
      `__parameters__`, also one its origin does not derive from. */
  lemma AnyAliasPassesUnrelatedClass(origin: Origin, cls: Origin, isSubclass: (Origin, Origin) -> bool)
    requires !isSubclass(origin, cls) && cls.parameters.Some?
    ensures GenericIsSubclassAsWritten(AliasOperand(origin, GenericArgs([AnyType])), ClassOperand(cls), isSubclass) == Ok(true)
  {
  }

  /** As written, every bare class passes against an alias with no arguments, also one
      that does not derive from the alias's origin. */
  lemma BareClassPassesEmptyAlias(cls: Origin, origin: Origin, isSubclass: (Origin, Origin) -> bool)
    requires !isSubclass(cls, origin)
    ensures GenericIsSubclassAsWritten(ClassOperand(cls), AliasOperand(origin, GenericArgs([])), isSubclass) == Ok(true)
  {
  }

  /** `generic_issubclass` with the origin check in every branch: never passes for
      classes that are not subclass-related. */
  function GenericIsSubclass(subject: TypeOperand, target: TypeOperand, isSubclass: (Origin, Origin) -> bool): (r: Result<bool>)
    ensures r.Err? <==> subject.AliasOperand? && target.ClassOperand? && target.cls.parameters.None?
    ensures r == Ok(true) ==> isSubclass(OperandClass(subject), OperandClass(target))
  {
    if target.AliasOperand? then
      Ok(isSubclass(OperandClass(subject), target.origin) && OperandArgs(subject) == OperandArgs(target))
    else if subject.AliasOperand? then
      match target.cls.parameters
      case None => Err(AttributeError("__parameters__"))
      case Some(parameters) =>
        Ok(isSubclass(subject.origin, target.cls) && (OperandArgs(subject) == parameters || OperandArgs(subject) == [AnyType]))
    else
      Ok(isSubclass(subject.cls, target.cls))
  }

  /** The correction only adds the origin check: it answers as the source does and,
      where the source says yes, additionally requires the classes to be related. */
  lemma CorrectionAddsOnlyOriginCheck(subject: TypeOperand, target: TypeOperand, isSubclass: (Origin, Origin) -> bool)
    ensures var asWritten := GenericIsSubclassAsWritten(subject, target, isSubclass);
      GenericIsSubclass(subject, target, isSubclass)
        == if asWritten.Ok? then Ok(asWritten.value && isSubclass(OperandClass(subject), OperandClass(target))) else asWritten
  {
  }

  /** `generic_isinstance` as written: equal argument tuples short-circuit to a subclass
      check against `cls.__origin__`, which a bare class does not have. */
  function GenericIsInstanceAsWritten(obj: Instance, target: TypeOperand, isSubclass: (Origin, Origin) -> bool): (r: Result<bool>)
    reads obj
    ensures r.Err? <==> target.ClassOperand? && GetTypeArguments(obj.argsAttr) == []
    ensures r.Err? ==> r.error == AttributeError("__origin__")
  {
    if GetTypeArguments(obj.argsAttr) == OperandArgs(target) then
      match target
      case AliasOperand(origin, _) => Ok(isSubclass(obj.cls, origin))
      case ClassOperand(_) => Err(AttributeError("__origin__"))
    else
      GenericIsSubclassAsWritten(ClassOperand(obj.cls), target, isSubclass)
  }

  /** When the object's type arguments equal an alias's, both versions decide by the
      subclass check of the object's class against the alias's origin alone. */
  lemma EqualArgumentsUseOriginCheck(obj: Instance, target: TypeOperand, isSubclass: (Origin, Origin) -> bool)
    requires target.AliasOperand? && GetTypeArguments(obj.argsAttr) == OperandArgs(target)
    ensures GenericIsInstanceAsWritten(obj, target, isSubclass) == Ok(isSubclass(obj.cls, target.origin))
    ensures GenericIsInstance(obj, target, isSubclass) == Ok(isSubclass(obj.cls, target.origin))
  {
  }

  /** As written, an instance without type arguments checked against a bare class raises. */
  lemma UnparametrizedInstanceRaises(obj: Instance, cls: Origin, isSubclass: (Origin, Origin) -> bool)
    requires obj.argsAttr == NoArgsAttr
    ensures GenericIsInstanceAsWritten(obj, ClassOperand(cls), isSubclass) == Err(AttributeError("__origin__"))
  {
  }

  /** An instance constructed by a handle is a generic instance of that handle. */
  lemma InstanceOfItsHandle(obj: Instance, h: AliasProxy, isSubclass: (Origin, Origin) -> bool)
    requires obj.cls == h.origin && obj.argsAttr == GenericArgs(h.args)
    requires isSubclass(h.origin, h.origin)
    ensures GenericIsInstanceAsWritten(obj, HandleOperand(h), isSubclass) == Ok(true)
    ensures GenericIsInstance(obj, HandleOperand(h), isSubclass) == Ok(true)
  {
  }

  /** An instance whose arguments differ from a non-empty target tuple is not an instance. */
  lemma DifferentArgumentsFail(obj: Instance, target: TypeOperand, isSubclass: (Origin, Origin) -> bool)
    requires target.AliasOperand? && OperandArgs(target) != []
    requires GetTypeArguments(obj.argsAttr) != OperandArgs(target)
    ensures GenericIsInstanceAsWritten(obj, target, isSubclass) == Ok(false)
    ensures GenericIsInstance(obj, target, isSubclass) == Ok(false)
  {
  }

  /** As written, a parametrized instance passes against an alias with no arguments: the
      differing tuples send it to the subclass check of its bare class, which compares the
      class's `()` with the alias's `()`. */
  lemma ParametrizedInstanceOfEmptyAlias(obj: Instance, origin: Origin, isSubclass: (Origin, Origin) -> bool)
    requires obj.argsAttr.GenericArgs? && obj.argsAttr.args != []
    ensures GenericIsInstanceAsWritten(obj, AliasOperand(origin, GenericArgs([])), isSubclass) == Ok(true)
    ensures GenericIsInstance(obj, AliasOperand(origin, GenericArgs([])), isSubclass) == Ok(false)
  {
  }

  /** `generic_isinstance` with invariant arguments and the host check against a bare
      class: an object is an instance of an alias exactly when its class derives from the
      alias's origin and its type arguments are the alias's. */
  function GenericIsInstance(obj: Instance, target: TypeOperand, isSubclass: (Origin, Origin) -> bool): (r: Result<bool>)
    reads obj
    ensures r.Ok?
    ensures target.ClassOperand? ==> r == Ok(isSubclass(obj.cls, target.cls))
    ensures r == Ok(true) ==> isSubclass(obj.cls, OperandClass(target))
    ensures r == Ok(true) && target.AliasOperand? ==> GetTypeArguments(obj.argsAttr) == OperandArgs(target)
  {
    match target
    case ClassOperand(cls) => Ok(isSubclass(obj.cls, cls))
    case AliasOperand(origin, _) =>
      Ok(isSubclass(obj.cls, origin) && GetTypeArguments(obj.argsAttr) == OperandArgs(target))
  }

  /** Wherever the source answers, the correction answers the same, additionally demanding
      related classes and, against an alias, equal arguments. */
  lemma InstanceCorrectionRefinesSource(obj: Instance, target: TypeOperand, isSubclass: (Origin, Origin) -> bool)
    requires GenericIsInstanceAsWritten(obj, target, isSubclass).Ok?
    ensures GenericIsInstance(obj, target, isSubclass)
         == Ok(GenericIsInstanceAsWritten(obj, target, isSubclass).value
               && isSubclass(obj.cls, OperandClass(target))
               && (target.AliasOperand? ==> GetTypeArguments(obj.argsAttr) == OperandArgs(target)))
  {
  }
}
