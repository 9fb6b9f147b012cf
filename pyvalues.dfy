/** Option and Result, used for Python's `None` and for raised exceptions. */
module Wrappers {
  datatype Option<+T> = None | Some(value: T)

  datatype Result<+T, +E> = Ok(value: T) | Err(error: E)
}

/**
 * The Python values that travel inside exceptions in this program, and the
 * `str`/`repr` renderings the error messages are built from.
 */
module PyValues {
  import opened Text

  /** An exception argument: a string, a nested exception, or any other
      object, of which only its `str` and `repr` texts matter here. */
  datatype PyValue =
    | PyStr(s: string)
    | PyExn(e: Exn)
    | PyObject(text: string, rep: string)

  /** An exception object: its class name and its `args` tuple. */
  datatype Exn = Exn(cls: string, args: seq<PyValue>)

  /** `str(v)`. */
  function Str(v: PyValue): string
    decreases v, 1
  {
    match v
    case PyStr(s) => s
    case PyObject(t, _) => t
    case PyExn(e) => ExnStr(e)
  }

  /** `repr(v)`; a string is quoted with single quotes. */
  function Repr(v: PyValue): string
    decreases v, 1
  {
    match v
    case PyStr(s) => "'" + s + "'"
    case PyObject(_, r) => r
    case PyExn(e) => ExnRepr(e)
  }

  /** The `repr` of each element. */
  function Reprs(vs: seq<PyValue>): (r: seq<string>)
    decreases vs, 0
    ensures |r| == |vs|
  {
    if vs == [] then [] else [Repr(vs[0])] + Reprs(vs[1..])
  }

  /** `str(e)` of an exception: empty, its one argument, or its args tuple. */
  function ExnStr(e: Exn): string
    decreases e, 0
  {
    if |e.args| == 0 then ""
    else if |e.args| == 1 then Str(e.args[0])
    else TupleRepr(e.args)
  }

  /** `repr(e)` of an exception: `Cls(arg, ...)`. */
  function ExnRepr(e: Exn): string
    decreases e, 0
  {
    e.cls + "(" + Join(", ", Reprs(e.args)) + ")"
  }

  /** `repr` (and `str`) of a tuple; a one-element tuple has a trailing comma. */
  function TupleRepr(vs: seq<PyValue>): string
    decreases vs, 1
  {
    "(" + Join(", ", Reprs(vs)) + (if |vs| == 1 then ",)" else ")")
  }

  /** `LookupError(msg, cause)`, as raised by the reconciler's wrappers. */
  function LookupError(msg: string, cause: Exn): Exn
  {
    Exn("LookupError", [PyStr(msg), PyExn(cause)])
  }

  /** `KeyError(key)` from a dictionary lookup. */
  function KeyError(key: string): Exn
  {
    Exn("KeyError", [PyStr(key)])
  }

  /** The error Python raises on `t[0] = x` when `t` is a tuple. */
  const TupleAssignmentError: Exn :=
    Exn("TypeError", [PyStr("'tuple' object does not support item assignment")])
}
