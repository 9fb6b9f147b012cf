/**
 * The earlier error formatter (format_errors.py at the repository root):
 * no scrubbing, and a single argument is rendered with `str`.
 */
module LegacyFormatErrors {
  import opened Wrappers
  import opened Text
  import opened PyValues
  import FormatErrors

  /** `format_tuple(name, args)`: one argument as `name(str(arg))`, any
      other count as the name followed by the tuple's `repr`. */
  function FormatTuple(name: string, args: seq<PyValue>): string
  {
    if |args| == 1 then name + "(" + Str(args[0]) + ")" else name + TupleRepr(args)
  }

  /** `format_exception(e)`. */
  function FormatException(e: Exn): string
  {
    FormatTuple(e.cls, e.args)
  }

  /** `err_msg(msg, e)`. */
  function ErrMsg(msg: string, e: Exn): string
  {
    "Error: " + msg + " -- " + FormatException(e)
  }

  /** The earlier formatter never fails and always names the exception's
      class right after the separator; a one-argument exception reads
      `Cls(arg)`. */
  lemma ErrMsgShape(msg: string, e: Exn)
    ensures ErrMsg(msg, e)[..|msg| + 11] == "Error: " + msg + " -- "
    ensures ErrMsg(msg, e)[|msg| + 11..|msg| + 11 + |e.cls|] == e.cls
    ensures |e.args| == 1 ==> ErrMsg(msg, e) == "Error: " + msg + " -- " + e.cls + "(" + Str(e.args[0]) + ")"
  {
    var tail := FormatException(e);
    assert ErrMsg(msg, e) == ("Error: " + msg + " -- ") + tail;
    if |e.args| == 1 {
      assert tail == e.cls + ("(" + Str(e.args[0]) + ")");
    } else {
      assert tail == e.cls + TupleRepr(e.args);
    }
  }

  /** Where the later formatter succeeds and every argument is a string
      without '?', the two formatters produce the same message: scrubbing
      is the only difference on such input. */
  lemma {:induction false} AgreesWithLaterFormatter(msg: string, e: Exn)
    requires |e.args| != 1
    requires forall i :: 0 <= i < |e.args| ==> e.args[i].PyStr? && '?' !in e.args[i].s
    ensures FormatErrors.ErrMsg(msg, e) == Ok(ErrMsg(msg, e))
  {
    FormatErrors.ErrMsgOutcome(msg, e);
    var f := FormatErrors.Filtered(e.args);
    forall i | 0 <= i < |e.args| ensures f[i] == e.args[i] {
      FormatErrors.ScrubIdempotent(e.args[i].s);
    }
    assert f == e.args;
  }
}
