/** Values shared by every module: an optional value, and the dynamically
    typed documents the service reads (YAML settings), receives (JSON
    requests) and sends back (JSON responses). */
module Values {

  datatype Option<T> = None | Some(value: T)

  /** A YAML or JSON document as Python holds it once parsed: None, a bool,
      an int, a str, a list or a dict with string keys. Floats are not
      modelled. */
  datatype Value =
    | Null
    | Bool(b: bool)
    | Int(i: int)
    | Str(s: string)
    | List(items: seq<Value>)
    | Dict(entries: map<string, Value>)

  /** Python's `d.get(k)` on a dict: the entry, or None when the key is missing. */
  function DictGet(entries: map<string, Value>, key: string): (r: Value)
    ensures key !in entries ==> r == Null
    ensures key in entries ==> r == entries[key]
  {
    if key in entries then entries[key] else Null
  }

  /** The reply `{'success': False, 'error': msg}`. */
  function Failure(msg: string): Value
  {
    Dict(map["success" := Bool(false), "error" := Str(msg)])
  }

  /** The reply `{'success': True, 'message': msg}`. */
  function Success(msg: string): Value
  {
    Dict(map["success" := Bool(true), "message" := Str(msg)])
  }

  /** True when a reply carries `'success': True`. */
  predicate Succeeded(reply: Value)
  {
    reply.Dict? && "success" in reply.entries && reply.entries["success"] == Bool(true)
  }

  /** A list of strings as a JSON list. */
  function StrList(lines: seq<string>): (r: Value)
    ensures r.List? && |r.items| == |lines|
    ensures forall i :: 0 <= i < |lines| ==> r.items[i] == Str(lines[i])
  {
    List(seq(|lines|, i requires 0 <= i < |lines| => Str(lines[i])))
  }

  /** The decimal digits of `n`. */
  function NatToString(n: nat): (s: string)
    ensures |s| >= 1
    ensures forall i :: 0 <= i < |s| ==> '0' <= s[i] <= '9'
    decreases n
  {
    if n < 10 then [(48 + n) as char] else NatToString(n / 10) + [(48 + n % 10) as char]
  }

  /** `str(v)` of a scalar, as an f-string prints it. */
  function Show(v: Value): string
  {
    match v
    case Null => "None"
    case Bool(b) => if b then "True" else "False"
    case Int(i) => IntToString(i)
    case Str(s) => s
    case List(_) => "[...]"
    case Dict(_) => "{...}"
  }

  /** `str(i)` of an int: a minus sign for a negative number, then its digits. */
  function IntToString(i: int): (s: string)
    ensures |s| >= 1
    ensures i < 0 <==> s[0] == '-'
  {
    if i < 0 then "-" + NatToString(-i) else NatToString(i)
  }

  predicate IsDigit(c: char)
  {
    '0' <= c <= '9'
  }

  /** The number a non-empty run of decimal digits spells. */
  function DigitsValue(s: string): (n: nat)
    requires forall i :: 0 <= i < |s| ==> IsDigit(s[i])
  {
    if s == [] then 0
    else
      assert IsDigit(s[|s| - 1]);
      DigitsValue(s[..|s| - 1]) * 10 + (s[|s| - 1] as int - 48)
  }

  /** Every character of `s` from index `start` on is an ASCII digit. */
  predicate DigitsFrom(s: string, start: nat)
  {
    forall i :: start <= i < |s| ==> IsDigit(s[i])
  }

  /** What `int()` accepts here: an optional sign followed by at least one
      ASCII digit. */
  predicate IntLiteral(s: string)
  {
    exists start: nat :: start <= 1 && start < |s|
      && (start == 1 ==> s[0] == '-' || s[0] == '+')
      && DigitsFrom(s, start)
  }

  /** `int(s)` on a string of an optional sign and decimal digits; anything
      else raises `ValueError`, here None. */
  function ParseInt(s: string): (r: Option<int>)
    ensures r.Some? <==> IntLiteral(s)
    ensures r.Some? && IsDigit(s[0]) ==> r.value == DigitsValue(s)
    ensures r.Some? && !IsDigit(s[0]) ==> r.value == (if s[0] == '-' then -1 else 1) * DigitsValue(s[1..])
  {
    if |s| >= 2 && (s[0] == '-' || s[0] == '+') && DigitsFrom(s, 1) then
      var n: int := DigitsValue(s[1..]);
      Some(if s[0] == '-' then -n else n)
    else if |s| >= 1 && DigitsFrom(s, 0) then
      Some(DigitsValue(s))
    else
      assert !DigitsFrom(s, 0) || s == [];
      None
  }

  /** Reading back the digits of `n` gives `n`. */
  lemma {:induction false} DigitsOfNat(n: nat)
    ensures DigitsValue(NatToString(n)) == n
    decreases n
  {
    var s := NatToString(n);
    if n >= 10 {
      DigitsOfNat(n / 10);
      assert s[..|s| - 1] == NatToString(n / 10);
    }
  }

  /** `int(str(i)) == i`. */
  lemma ParseShownInt(i: int)
    ensures ParseInt(IntToString(i)) == Some(i)
  {
    var n: nat := if i < 0 then -i else i;
    var t := NatToString(n);
    DigitsOfNat(n);
    assert DigitsFrom(t, 0);
    if i < 0 {
      var s := "-" + t;
      assert s == IntToString(i);
      assert s[1..] == t;
      assert DigitsFrom(s, 1) by {
        forall k | 1 <= k < |s|
          ensures IsDigit(s[k])
        {
          assert s[k] == t[k - 1];
        }
      }
    } else {
      assert t == IntToString(i);
    }
  }

  /** `type(v).__name__`. */
  function TypeName(v: Value): string
  {
    match v
    case Null => "NoneType"
    case Bool(_) => "bool"
    case Int(_) => "int"
    case Str(_) => "str"
    case List(_) => "list"
    case Dict(_) => "dict"
  }

  /** The text of the AttributeError `v.get(...)` raises on a non-dict. */
  function NoGetError(v: Value): string
  {
    "'" + TypeName(v) + "' object has no attribute 'get'"
  }
}
