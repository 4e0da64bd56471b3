/** The exceptions the bot's core raises or catches: the classes declared in
    exceptions.py, and the Python built-in exceptions that homework.py raises
    itself or that the interpreter raises on a value of the wrong type. Each
    carries the single argument it was constructed with. */
module Errors {

  import opened Payload

  datatype Error =
    // Python built-ins
    | TypeError(msg: string)
    | AttributeError(msg: string)
    | KeyError(msg: string)
    | ValueError(msg: string)
    // exceptions.py
    | TelegramError(msg: string)
    | BadResponse(msg: string)
    | EmptyResponse(msg: string)
    | NotForSendInTelegram(msg: string)
    | JSONDecodeError(msg: string)

  /** `str(error)`: the argument itself, except that `KeyError.__str__` gives
      the repr of its argument, i.e. the message in single quotes. */
  function Text(e: Error): (t: string)
    ensures !e.KeyError? ==> t == e.msg
    ensures e.KeyError? ==>
      |t| == |e.msg| + 2 && t[0] == '\'' && t[1..|t| - 1] == e.msg && t[|t| - 1] == '\''
  {
    match e
    case KeyError(m) => "'" + m + "'"
    case _ => e.msg
  }

  /** Raised by `v.get(...)` when `v` is not a dict. */
  function NoAttributeGet(v: Value): (e: Error)
    ensures e.AttributeError? && OccursAt(e.msg, TypeName(v), 1)
  {
    AttributeError("'" + TypeName(v) + "' object has no attribute 'get'")
  }

  /** Raised by `x in v` when `v` is neither a container nor iterable. */
  function NotIterable(v: Value): (e: Error)
    ensures e.TypeError? && OccursAt(e.msg, TypeName(v), 18)
  {
    TypeError("argument of type '" + TypeName(v) + "' is not iterable")
  }

  /** Raised by `v in d` for a dict `d` when `v` cannot be hashed. */
  function Unhashable(v: Value): (e: Error)
    ensures e.TypeError? && OccursAt(e.msg, TypeName(v), 18)
    ensures e != NotIterable(v)
  {
    var e := TypeError("unhashable type: '" + TypeName(v) + "'");
    assert e.msg[0] == 'u' && NotIterable(v).msg[0] == 'a';
    e
  }
}
