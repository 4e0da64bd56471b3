/** The decoded JSON payload the homework API returns, as Python sees it after
    `response.json()`, together with the few Python built-ins the bot applies
    to such values: truthiness, `type(v).__name__` and `str(v)`. */
module Payload {

  /** A value produced by decoding JSON: `None`, `bool`, `int`, `str`, `list`
      or `dict` with string keys. */
  datatype Value =
    | Null
    | Bool(b: bool)
    | Int(i: int)
    | Str(s: string)
    | List(items: seq<Value>)
    | Dict(fields: map<string, Value>)

  /** Python truthiness: `None`, `False`, `0`, `''`, `[]` and `{}` are false. */
  predicate Truthy(v: Value)
  {
    match v
    case Null => false
    case Bool(b) => b
    case Int(i) => i != 0
    case Str(s) => s != ""
    case List(items) => items != []
    case Dict(fields) => fields != map[]
  }

  /** `type(v).__name__`, as it appears in the interpreter's own error messages. */
  function TypeName(v: Value): (name: string)
    ensures name != ""
    ensures name == "dict" <==> v.Dict?
    ensures name == "list" <==> v.List?
  {
    match v
    case Null => "NoneType"
    case Bool(_) => "bool"
    case Int(_) => "int"
    case Str(_) => "str"
    case List(_) => "list"
    case Dict(_) => "dict"
  }

  /** The value of a decimal digit character. */
  function DigitValue(c: char): int
  {
    c as int - '0' as int
  }

  /** The number a string of decimal digits denotes, most significant first. */
  function DecimalValue(s: string): int
  {
    if s == [] then 0 else 10 * DecimalValue(s[..|s| - 1]) + DigitValue(s[|s| - 1])
  }

  function DigitChar(d: nat): (c: char)
    requires d < 10
    ensures '0' <= c <= '9' && DigitValue(c) == d
  {
    "0123456789"[d]
  }

  /** Decimal digits of a natural number, most significant first, without
      leading zeros: the digits Python's `str` writes for it. */
  function Digits(n: nat): (s: string)
    ensures |s| >= 1
    ensures forall k :: 0 <= k < |s| ==> '0' <= s[k] <= '9'
    ensures DecimalValue(s) == n
    ensures s[0] == '0' <==> n == 0
    ensures s[0] == '0' ==> s == "0"
    decreases n
  {
    if n < 10 then [DigitChar(n)]
    else
      var s := Digits(n / 10) + [DigitChar(n % 10)];
      assert s[..|s| - 1] == Digits(n / 10);
      s
  }

  /** `str(i)` for a Python `int`: an optional minus sign, then the digits of
      the magnitude. */
  function FormatInt(i: int): (s: string)
    ensures |s| >= 1 && (i < 0 <==> s[0] == '-')
    ensures i >= 0 ==> (DecimalValue(s) == i && forall k :: 0 <= k < |s| ==> '0' <= s[k] <= '9')
    ensures i < 0 ==> (|s| >= 2 && DecimalValue(s[1..]) == -i
      && forall k :: 1 <= k < |s| ==> '0' <= s[k] <= '9')
    ensures s[0] == '0' ==> s == "0"
    ensures i < 0 ==> s[1] != '0'
  {
    if i < 0 then
      var s := "-" + Digits(-i);
      assert s[1..] == Digits(-i);
      s
    else Digits(i)
  }

  /** `str(v)`, which is also what `'{x}'.format(x=v)` inserts. Exact for
      `None`, booleans, integers and strings; a list or dict is rendered as a
      fixed placeholder. */
  function Format(v: Value): (s: string)
    ensures v.Str? ==> s == v.s
    ensures v.Null? ==> s == "None"
    ensures v.Bool? ==> s == if v.b then "True" else "False"
    ensures v.Int? ==> s == FormatInt(v.i)
  {
    match v
    case Null => "None"
    case Bool(b) => if b then "True" else "False"
    case Int(i) => FormatInt(i)
    case Str(s) => s
    case List(_) => "[...]"
    case Dict(_) => "{...}"
  }

  /** Python's `sub in s` for two strings: `sub` occurs in `s` at some offset. */
  predicate Contains(s: string, sub: string)
    decreases |s|
  {
    |sub| <= |s| && (s[..|sub|] == sub || Contains(s[1..], sub))
  }

  /** `sub` occurs in `s` starting at offset `k`. */
  predicate OccursAt(s: string, sub: string, k: nat)
  {
    k + |sub| <= |s| && s[k..k + |sub|] == sub
  }

  /** Contains is substring search: it holds exactly when `sub` occurs at
      some offset of `s`. */
  lemma {:induction false} ContainsIsSubstring(s: string, sub: string)
    ensures Contains(s, sub) <==> exists k: nat :: OccursAt(s, sub, k)
    decreases |s|
  {
    if |sub| <= |s| {
      if s[..|sub|] == sub {
        assert OccursAt(s, sub, 0);
      } else {
        ContainsIsSubstring(s[1..], sub);
        forall k: nat | OccursAt(s[1..], sub, k) ensures OccursAt(s, sub, k + 1) {
          assert s[1..][k..k + |sub|] == s[k + 1..k + 1 + |sub|];
        }
        forall k: nat | OccursAt(s, sub, k) ensures k > 0 && OccursAt(s[1..], sub, k - 1) {
          assert s[1..][k - 1..k - 1 + |sub|] == s[k..k + |sub|];
        }
      }
    }
  }
}
