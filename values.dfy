/** Python values as the charm's configuration maps and the GUI server's
    options hold them, and the few Python operations the core applies to
    them: `dict.get`, truthiness, `==` and `str.strip`. */
module Values {

  datatype Option<+T> = None | Some(value: T) {
    function GetOr(default: T): T {
      if Some? then value else default
    }
  }

  /** The values the core inspects: None, booleans, integers and strings. */
  datatype Value = Null | Bool(b: bool) | Int(i: int) | Str(s: string)

  /** `d.get(key)`: the mapped value, or None when the key is absent. */
  function Get(d: map<string, Value>, key: string): Value {
    if key in d then d[key] else Null
  }

  /** Python truthiness: None, False, 0 and the empty string are false. */
  predicate Truthy(v: Value) {
    match v
    case Null => false
    case Bool(b) => b
    case Int(i) => i != 0
    case Str(s) => s != ""
  }

  /** The integer a boolean stands for in Python (bool is a subclass of int). */
  function BoolToInt(b: bool): int {
    if b then 1 else 0
  }

  /** Python `==` on values: True == 1 and False == 0, otherwise structural. */
  predicate Equal(a: Value, b: Value) {
    match (a, b)
    case (Bool(x), Int(i)) => i == BoolToInt(x)
    case (Int(i), Bool(x)) => i == BoolToInt(x)
    case _ => a == b
  }

  /** The characters Python 2's `str.strip()` removes. */
  predicate IsSpace(c: char) {
    c == ' ' || c == '\t' || c == '\n' || c == '\r' || c as int == 0x0B || c as int == 0x0C
  }

  /** How much whitespace `s` starts with: `s.lstrip()` is `s[LeadingSpace(s)..]`. */
  function LeadingSpace(s: string): (n: nat)
    ensures n <= |s|
    ensures forall k :: 0 <= k < n ==> IsSpace(s[k])
    ensures n < |s| ==> !IsSpace(s[n])
  {
    if s == [] || !IsSpace(s[0]) then 0 else 1 + LeadingSpace(s[1..])
  }

  /** Where the trailing whitespace of `s` starts: `s.rstrip()` is
      `s[..TrailingStart(s)]`. */
  function TrailingStart(s: string): (n: nat)
    ensures n <= |s|
    ensures forall k :: n <= k < |s| ==> IsSpace(s[k])
    ensures n > 0 ==> !IsSpace(s[n - 1])
  {
    if s == [] || !IsSpace(s[|s| - 1]) then |s| else TrailingStart(s[..|s| - 1])
  }

  /** `s.strip()`: `s.lstrip().rstrip()`. */
  function Strip(s: string): string {
    var rest := s[LeadingSpace(s)..];
    rest[..TrailingStart(rest)]
  }

  /** Where `s.strip()` sits in `s`: between a prefix and a suffix made
      only of whitespace. */
  lemma StripBounds(s: string) returns (i: int, j: int)
    ensures 0 <= i <= j <= |s| && Strip(s) == s[i..j]
    ensures forall k :: 0 <= k < i ==> IsSpace(s[k])
    ensures forall k :: j <= k < |s| ==> IsSpace(s[k])
  {
    var rest := s[LeadingSpace(s)..];
    i := LeadingSpace(s);
    j := i + TrailingStart(rest);
    forall k | j <= k < |s|
      ensures IsSpace(s[k])
    {
      assert s[k] == rest[k - i];
    }
  }

  /** `s.strip()` is the slice of `s` left once the whitespace before and
      after it is removed: it neither starts nor ends with whitespace, and
      it is empty exactly when `s` is all whitespace. */
  lemma StripSpec(s: string)
    ensures exists i, j ::
              0 <= i <= j <= |s| && Strip(s) == s[i..j] &&
              (forall k :: 0 <= k < i ==> IsSpace(s[k])) &&
              (forall k :: j <= k < |s| ==> IsSpace(s[k]))
    ensures Strip(s) != [] ==> !IsSpace(Strip(s)[0]) && !IsSpace(Strip(s)[|Strip(s)| - 1])
    ensures Strip(s) == [] <==> forall k :: 0 <= k < |s| ==> IsSpace(s[k])
  {
    var i, j := StripBounds(s);
    if Strip(s) != [] {
      assert Strip(s)[0] == s[i] && i == LeadingSpace(s);
    }
  }
}
