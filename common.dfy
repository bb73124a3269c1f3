/**
 * Shared vocabulary of the model: optional values and results, the Python
 * values that travel through selection, scope and option dicts, and the
 * lookups that every tenant module performs on its catalog tables.
 */
module Common {

  datatype Option<T> = None | Some(value: T)

  datatype Result<T, E> = Ok(value: T) | Err(error: E)
  {
    predicate IsOk() { Ok? }
  }

  /** The Python exceptions the modelled code raises, by class, with their message. */
  datatype PyError =
    | ValueError(msg: string)
    | TypeError(msg: string)
    | AttributeError(msg: string)

  /**
   * A Python value as it appears in a request's selections, scope or options.
   * A nested dict is reduced to its key set: the code only ever tests its
   * truthiness or looks a key up in it.
   */
  datatype Val =
    | VNone
    | VBool(b: bool)
    | VNum(r: real)
    | VStr(s: string)
    | VList(items: seq<Val>)
    | VObj(keys: set<string>)

  /** Python's `bool(v)`. */
  predicate Truthy(v: Val)
  {
    match v
    case VNone => false
    case VBool(b) => b
    case VNum(r) => r != 0.0
    case VStr(s) => s != ""
    case VList(items) => items != []
    case VObj(keys) => keys != {}
  }

  /** A Python dict with string keys. */
  type Dict = map<string, Val>

  /** `d.get(k, dflt)`. */
  function Get(d: Dict, k: string, dflt: Val): Val
  {
    if k in d then d[k] else dflt
  }

  /** `d.get(k)`: a missing key reads as None. */
  function GetOpt(d: Dict, k: string): Val
  {
    Get(d, k, VNone)
  }

  /** `x or dflt` on a dict argument that may be None or empty. */
  function OrEmpty(d: Option<Dict>): Dict
  {
    if d.Some? then d.value else map[]
  }

  /**
   * `next((x for x in table if x['id'] == v), fallback)`: the first entry of
   * the table whose id equals the selected value, else the fallback.
   */
  function FindById<T>(table: seq<T>, idOf: T -> string, v: Val, fallback: T): T
    decreases |table|
  {
    if table == [] then fallback
    else if v == VStr(idOf(table[0])) then table[0]
    else FindById(table[1..], idOf, v, fallback)
  }

  /** Whether some entry of the table has the selected value as its id. */
  predicate HasId<T>(table: seq<T>, idOf: T -> string, v: Val)
  {
    exists i :: 0 <= i < |table| && v == VStr(idOf(table[i]))
  }

  /**
   * FindById returns the FIRST matching entry when there is one and the
   * fallback exactly when no entry matches.
   */
  lemma {:induction false} FindByIdSpec<T>(table: seq<T>, idOf: T -> string, v: Val, fallback: T)
    ensures HasId(table, idOf, v) ==>
      exists i :: 0 <= i < |table| && v == VStr(idOf(table[i])) &&
        FindById(table, idOf, v, fallback) == table[i] &&
        forall j :: 0 <= j < i ==> v != VStr(idOf(table[j]))
    ensures !HasId(table, idOf, v) ==> FindById(table, idOf, v, fallback) == fallback
    decreases |table|
  {
    if table != [] {
      FindByIdSpec(table[1..], idOf, v, fallback);
      if v == VStr(idOf(table[0])) {
        assert HasId(table, idOf, v);
      } else if HasId(table, idOf, v) {
        var i :| 0 <= i < |table| && v == VStr(idOf(table[i]));
        assert i > 0;
        assert HasId(table[1..], idOf, v) by {
          assert v == VStr(idOf(table[1..][i - 1]));
        }
        var k :| 0 <= k < |table[1..]| && v == VStr(idOf(table[1..][k])) &&
          FindById(table[1..], idOf, v, fallback) == table[1..][k] &&
          forall j :: 0 <= j < k ==> v != VStr(idOf(table[1..][j]));
        assert v == VStr(idOf(table[k + 1]));
        forall j | 0 <= j < k + 1 ensures v != VStr(idOf(table[j])) {
          if j > 0 { assert table[j] == table[1..][j - 1]; }
        }
      }
    }
  }

  /** The entry at `i` is found when it is the first whose id is the selected value. */
  lemma {:induction false} FindByIdAt<T>(table: seq<T>, idOf: T -> string, v: Val, fallback: T, i: nat)
    requires i < |table| && v == VStr(idOf(table[i]))
    requires forall j :: 0 <= j < i ==> v != VStr(idOf(table[j]))
    ensures FindById(table, idOf, v, fallback) == table[i]
    decreases i
  {
    if i > 0 {
      assert v != VStr(idOf(table[0]));
      FindByIdAt(table[1..], idOf, v, fallback, i - 1);
    }
  }

  /** The result of FindById is either the fallback or an entry of the table. */
  lemma {:induction false} FindByIdIn<T>(table: seq<T>, idOf: T -> string, v: Val, fallback: T)
    ensures var r := FindById(table, idOf, v, fallback);
      r == fallback || r in table
    decreases |table|
  {
    if table != [] && v != VStr(idOf(table[0])) {
      FindByIdIn(table[1..], idOf, v, fallback);
    }
  }

  /**
   * Python's `x in container`: membership in a list, a substring test on a
   * string, a key test on a dict; any other container raises TypeError.
   */
  function PyIn(x: Val, container: Val): (r: Result<bool, PyError>)
    ensures container.VList? ==> r == Ok(x in container.items)
    ensures !(container.VList? || container.VStr? || container.VObj?) ==> r.Err?
  {
    match container
    case VList(items) => Ok(x in items)
    case VStr(s) =>
      if x.VStr? then Ok(Contains(s, x.s)) else Err(TypeError("'in <string>' requires string as left operand"))
    case VObj(keys) => Ok(x.VStr? && x.s in keys)
    case _ => Err(TypeError("argument is not iterable"))
  }

  /**
   * Python's `v > 0`: numbers compare, a bool compares as 0 or 1, and any
   * other value raises TypeError.
   */
  function PyPositive(v: Val): (r: Result<bool, PyError>)
    ensures r.Ok? <==> v.VNum? || v.VBool?
    ensures v.VNum? ==> r == Ok(v.r > 0.0)
    ensures v.VBool? ==> r == Ok(v.b)
  {
    match v
    case VNum(x) => Ok(x > 0.0)
    case VBool(b) => Ok(b)
    case _ => Err(TypeError("'>' not supported between instances"))
  }

  /** `p` is a prefix of `s`. */
  predicate StartsWith(s: string, p: string)
  {
    |p| <= |s| && s[..|p|] == p
  }

  /** Python's `sub in s` on strings. */
  predicate Contains(s: string, sub: string)
    decreases |s|
  {
    StartsWith(s, sub) || (|s| > 0 && Contains(s[1..], sub))
  }

  /** A string contains itself followed by anything after it, and any of its suffixes' substrings. */
  lemma {:induction false} ContainsPrefix(s: string, t: string, sub: string)
    requires Contains(s, sub)
    ensures Contains(s + t, sub)
    decreases |s|
  {
    if StartsWith(s, sub) {
      assert (s + t)[..|sub|] == s[..|sub|];
    } else {
      assert (s + t)[1..] == s[1..] + t;
      ContainsPrefix(s[1..], t, sub);
    }
  }

  /** A string shorter than `sub` does not contain it. */
  lemma {:induction false} ContainsTooLong(s: string, sub: string)
    requires |s| < |sub|
    ensures !Contains(s, sub)
    decreases |s|
  {
    if |s| > 0 {
      ContainsTooLong(s[1..], sub);
    }
  }

  /** ASCII lower-casing of one character. */
  function LowerChar(c: char): char
  {
    if 'A' <= c <= 'Z' then (c as int + 32) as char else c
  }

  /** `s.lower()` on ASCII text. */
  function Lower(s: string): (r: string)
    ensures |r| == |s|
    ensures forall i :: 0 <= i < |s| ==> r[i] == LowerChar(s[i])
  {
    seq(|s|, i requires 0 <= i < |s| => LowerChar(s[i]))
  }

  /** Python's `str.isdigit()` on ASCII: non-empty and all characters digits. */
  predicate IsDigits(s: string)
  {
    |s| > 0 && forall i :: 0 <= i < |s| ==> '0' <= s[i] <= '9'
  }

  /** `str(n)` for a natural number: its decimal digits. */
  function NatToString(n: nat): (s: string)
    ensures IsDigits(s)
  {
    if n < 10 then [(n as char) + '0']
    else NatToString(n / 10) + [((n % 10) as char) + '0']
  }

  /** `str(n)` for an integer: a minus sign before the digits of a negative one. */
  function IntToString(n: int): (s: string)
    ensures n >= 0 ==> IsDigits(s)
    ensures n < 0 ==> |s| > 1 && s[0] == '-' && IsDigits(s[1..])
  {
    if n >= 0 then NatToString(n) else "-" + NatToString(-n)
  }

  /** Python's `int(x)` on a number: the integer part, truncated toward zero. */
  function PyInt(x: real): (n: int)
    ensures x >= 0.0 ==> n as real <= x < n as real + 1.0
    ensures x < 0.0 ==> n as real - 1.0 < x <= n as real
  {
    if x >= 0.0 then x.Floor else -((-x).Floor)
  }

  /** The characters of `s` that are decimal digits, in order. */
  function Digits(s: string): (r: string)
    ensures |r| <= |s|
    ensures forall i :: 0 <= i < |r| ==> '0' <= r[i] <= '9'
  {
    if s == [] then []
    else (if '0' <= s[0] <= '9' then [s[0]] else []) + Digits(s[1..])
  }

  /** The characters of `s` not in `drop`, in order. */
  function Without(s: string, drop: set<char>): (r: string)
    ensures |r| <= |s|
    ensures forall i :: 0 <= i < |r| ==> r[i] !in drop
  {
    if s == [] then []
    else (if s[0] in drop then [] else [s[0]]) + Without(s[1..], drop)
  }

  /** `{k: v for k, v in d.items() if k not in keys}`. */
  function Strip<V>(d: map<string, V>, keys: set<string>): (r: map<string, V>)
    ensures r.Keys == d.Keys - keys
    ensures forall k :: k in r ==> r[k] == d[k]
  {
    map k | k in d && k !in keys :: d[k]
  }

  /** `r` lists some of the entries of `t`, in the order `t` lists them. */
  predicate IsSubsequence<T(==)>(r: seq<T>, t: seq<T>)
    decreases |t|
  {
    if r == [] then true
    else if t == [] then false
    else (r[0] == t[0] && IsSubsequence(r[1..], t[1..])) || IsSubsequence(r, t[1..])
  }

  lemma {:induction false} SubsequenceSkip<T>(r: seq<T>, t: seq<T>)
    requires t != [] && IsSubsequence(r, t[1..])
    ensures IsSubsequence(r, t)
  {
  }

  /** Sum of a sequence of reals. */
  function Sum(xs: seq<real>): real
  {
    if xs == [] then 0.0 else xs[0] + Sum(xs[1..])
  }

  lemma {:induction false} SumAppend(xs: seq<real>, ys: seq<real>)
    ensures Sum(xs + ys) == Sum(xs) + Sum(ys)
  {
    if xs != [] {
      assert (xs + ys)[0] == xs[0] && (xs + ys)[1..] == xs[1..] + ys;
      SumAppend(xs[1..], ys);
    } else {
      assert xs + ys == ys;
    }
  }

  /** Sum of a sequence of integers. */
  function SumInt(xs: seq<int>): int
  {
    if xs == [] then 0 else xs[0] + SumInt(xs[1..])
  }

  lemma {:induction false} SumIntAppend(xs: seq<int>, ys: seq<int>)
    ensures SumInt(xs + ys) == SumInt(xs) + SumInt(ys)
  {
    if xs != [] {
      assert (xs + ys)[0] == xs[0] && (xs + ys)[1..] == xs[1..] + ys;
      SumIntAppend(xs[1..], ys);
    } else {
      assert xs + ys == ys;
    }
  }
}
