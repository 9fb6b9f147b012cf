/**
 * Error-message formatting used by the reconciler (python/format_errors.py):
 * query strings are scrubbed from every exception argument before the
 * exception is rendered as `Class(args)` inside "Error: msg -- ...".
 */
module FormatErrors {
  import opened Wrappers
  import opened Text
  import opened PyValues

  /** Length of the longest prefix of `s` without whitespace
      (what `[^\s]+` consumes, greedily). */
  function NonSpaceRun(s: string): (n: nat)
    ensures n <= |s|
    ensures forall i :: 0 <= i < n ==> !IsSpace(s[i])
    ensures n < |s| ==> IsSpace(s[n])
  {
    if s == [] || IsSpace(s[0]) then 0 else 1 + NonSpaceRun(s[1..])
  }

  /** `re.sub(r"(\?[^\s]+)", " ", s)`: scanning left to right, every '?'
      followed by at least one non-whitespace character is replaced,
      together with that whole run, by a single space. */
  function Scrub(s: string): (r: string)
    decreases |s|
  {
    if s == [] then []
    else if s[0] == '?' && NonSpaceRun(s[1..]) > 0 then " " + Scrub(s[1 + NonSpaceRun(s[1..])..])
    else [s[0]] + Scrub(s[1..])
  }

  /** No '?' is immediately followed by a non-whitespace character, i.e.
      the pattern has nothing left to match. */
  predicate NoQueryString(s: string)
  {
    forall i :: 0 <= i < |s| - 1 && s[i] == '?' ==> IsSpace(s[i + 1])
  }

  lemma ScrubHead(s: string)
    requires s != [] && s[0] != '?'
    ensures Scrub(s) != [] && Scrub(s)[0] == s[0]
  {
  }

  /** After scrubbing, nothing that looks like a query string is left. */
  lemma {:induction false} ScrubLeavesNoQueryString(s: string)
    ensures NoQueryString(Scrub(s))
    decreases |s|
  {
    if s == [] {
    } else if s[0] == '?' && NonSpaceRun(s[1..]) > 0 {
      var rest := s[1 + NonSpaceRun(s[1..])..];
      ScrubLeavesNoQueryString(rest);
      assert Scrub(s) == " " + Scrub(rest);
    } else {
      ScrubLeavesNoQueryString(s[1..]);
      var r := Scrub(s);
      assert r == [s[0]] + Scrub(s[1..]);
      if s[0] == '?' && |s| > 1 {
        assert IsSpace(s[1]);
        ScrubHead(s[1..]);
      }
    }
  }

  /** A string with nothing to match is returned unchanged. */
  lemma {:induction false} ScrubKeepsCleanText(s: string)
    requires NoQueryString(s)
    ensures Scrub(s) == s
    decreases |s|
  {
    if s != [] {
      assert NoQueryString(s[1..]) by {
        forall i | 0 <= i < |s[1..]| - 1 && s[1..][i] == '?'
          ensures IsSpace(s[1..][i + 1])
        {
          assert s[i + 1] == '?';
        }
      }
      ScrubKeepsCleanText(s[1..]);
      if s[0] == '?' && |s| > 1 {
        assert IsSpace(s[1]);
      }
      assert Scrub(s) == [s[0]] + s[1..];
    }
  }

  /** Scrubbing is idempotent, and a string without '?' is left as is. */
  lemma ScrubIdempotent(s: string)
    ensures Scrub(Scrub(s)) == Scrub(s)
    ensures '?' !in s ==> Scrub(s) == s
  {
    ScrubLeavesNoQueryString(s);
    ScrubKeepsCleanText(Scrub(s));
    if '?' !in s {
      ScrubKeepsCleanText(s);
    }
  }

  /** `filter_sensitive(arg)`: scrub `str(arg)`. */
  function FilterSensitive(arg: PyValue): string
  {
    Scrub(Str(arg))
  }

  /** `tuple(filter_sensitive(arg) for arg in args)`. */
  function Filtered(args: seq<PyValue>): (r: seq<PyValue>)
    ensures |r| == |args|
    ensures forall i :: 0 <= i < |args| ==> r[i] == PyStr(FilterSensitive(args[i]))
  {
    if args == [] then [] else [PyStr(FilterSensitive(args[0]))] + Filtered(args[1..])
  }

  /** `format_tuple(name, args)`. With exactly one argument it assigns into
      `args[0]`, which raises TypeError when `args` is a tuple; otherwise
      the name is followed by the tuple of filtered arguments. */
  function FormatTuple(name: string, args: seq<PyValue>, argsIsTuple: bool): Result<string, Exn>
  {
    if |args| == 1 then
      if argsIsTuple then Err(TupleAssignmentError)
      else Ok(name + "(" + FilterSensitive(args[0]) + ")")
    else
      Ok(name + TupleRepr(Filtered(args)))
  }

  /** A single argument is rendered bare in parentheses only when `args` is
      a list; handed a tuple, `format_tuple` raises instead of formatting.
      The bare argument is scrubbed, so nothing resembling a query string
      survives. */
  lemma FormatTupleOneArgument(name: string, arg: PyValue)
    ensures FormatTuple(name, [arg], true) == Err(TupleAssignmentError)
    ensures FormatTuple(name, [arg], false) == Ok(name + "(" + FilterSensitive(arg) + ")")
    ensures NoQueryString(FilterSensitive(arg))
  {
    ScrubLeavesNoQueryString(Str(arg));
  }

  /** `format_exception(e)`: `e.args` is always a tuple. */
  function FormatException(e: Exn): Result<string, Exn>
  {
    FormatTuple(e.cls, e.args, true)
  }

  /** `err_msg(msg, e)`. */
  function ErrMsg(msg: string, e: Exn): Result<string, Exn>
  {
    match FormatException(e)
    case Ok(text) => Ok("Error: " + msg + " -- " + text)
    case Err(x) => Err(x)
  }

  /** `err_msg` fails exactly for an exception with one argument (the
      in-place assignment into a tuple); otherwise it is
      "Error: msg -- Class(filtered args...)" and no rendered argument
      still carries a query string. */
  lemma ErrMsgOutcome(msg: string, e: Exn)
    ensures |e.args| == 1 <==> ErrMsg(msg, e) == Err(TupleAssignmentError)
    ensures |e.args| != 1 ==> ErrMsg(msg, e) == Ok("Error: " + msg + " -- " + (e.cls + TupleRepr(Filtered(e.args))))
    ensures forall i :: 0 <= i < |e.args| ==> NoQueryString(Filtered(e.args)[i].s)
  {
    forall i | 0 <= i < |e.args| ensures NoQueryString(Filtered(e.args)[i].s) {
      ScrubLeavesNoQueryString(Str(e.args[i]));
    }
  }

  /** The LookupError the wrappers raise has two arguments, so rendering it
      never hits the one-argument TypeError. */
  lemma ErrMsgOfLookupError(msg: string, outer: string, cause: Exn)
    ensures ErrMsg(msg, LookupError(outer, cause)).Ok?
  {
  }
}
