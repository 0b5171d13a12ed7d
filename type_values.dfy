/**
 * The Python values both runtime-generics engines pass around as type arguments,
 * the exceptions they raise, and the one function of the `typing` module they read.
 *
 * Type arguments are abstract: the engines never inspect a class, a type variable or a
 * nested alias; they only store, compare and copy them. What they do look at are the
 * two sentinels `typing` uses internally, the empty tuple, `...` and `typing.Any`;
 * `typing`'s own alias factory also converts `None` and strings.
 */
module TypeValues {

  datatype TypeValue =
    | TypingEmpty                                 // typing._TypingEmpty
    | TypingEllipsis                              // typing._TypingEllipsis
    | EllipsisObject                              // the `...` singleton
    | AnyType                                     // typing.Any
    | Tuple(items: seq<TypeValue>)                // a plain tuple, `()` included
    | TypingAlias(origin: nat, args: seq<TypeValue>)  // any generic alias: `List[int]`, `list[int]`, a union, a handle
    | NoneObject                                  // the `None` singleton
    | NoneClass                                   // `type(None)`
    | Str(text: string)                           // a string, which `typing` reads as a forward reference
    | ForwardRef(arg: string)                     // typing.ForwardRef(text)
    | Atom(name: nat)                             // any other value: a class, a TypeVar

  datatype Option<+T> = None | Some(value: T)

  /** The exceptions the engines raise on their own account. */
  datatype PyError =
    | ValueError(argCount: nat)                   // carries the argument count its message reports
    | AttributeError(attribute: string)           // the attribute that was missing
    | TypeError                                   // subscription of a class that does not support it

  datatype Result<+T> = Ok(value: T) | Err(error: PyError)

  /** `typing.get_args`: the arguments of a generic alias, `()` for anything else. */
  function TypingGetArgs(v: TypeValue): seq<TypeValue> {
    match v
    case TypingAlias(_, args) => args
    case _ => []
  }

  /** Python truthiness of the `params` that `copy_with` receives. Its callers pass a tuple
      of arguments or nothing, and of tuples only the empty one is false. (A lone `None`,
      `0` or `''` would be false too; no caller passes one.) */
  predicate Truthy(v: TypeValue) {
    v != Tuple([])
  }
}
