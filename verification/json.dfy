/** JSON values as the Python code sees them after `response.json()` or in a
    job payload, together with the handful of Python operations the core
    applies to them: `dict.get`, truthiness (`if not x`), the `in` operator,
    and numeric comparison. Each operation returns `None` where Python would
    raise a `TypeError` or `AttributeError`. */
module JsonValues {
  import opened Wrappers

  datatype Json =
    | Null
    | Bool(b: bool)
    | Int(i: int)
    | Float(r: real)
    | Str(s: string)
    | Arr(items: seq<Json>)
    | Obj(fields: map<string, Json>)

  /** The empty object `{}`, the default the code passes to `dict.get`. */
  const EmptyObj: Json := Obj(map[])

  /** `d.get(key)`: the value stored under `key`, if any. */
  function Get(d: map<string, Json>, key: string): (r: Option<Json>)
    ensures r.Some? <==> key in d
    ensures r.Some? ==> r.value == d[key]
  {
    if key in d then Some(d[key]) else None
  }

  /** Python truthiness: `None`, `False`, zero, and empty strings, lists
      and dicts are false; everything else is true. */
  predicate Truthy(j: Json) {
    match j
    case Null => false
    case Bool(b) => b
    case Int(i) => i != 0
    case Float(r) => r != 0.0
    case Str(s) => s != ""
    case Arr(xs) => xs != []
    case Obj(m) => m != map[]
  }

  /** Whether `needle` occurs as a contiguous piece of `s`. */
  predicate HasSubstring(s: string, needle: string)
    decreases |s|
  {
    if |s| < |needle| then false
    else s[..|needle|] == needle || HasSubstring(s[1..], needle)
  }

  /** `needle` occurs in `s` starting at position `i`. */
  predicate OccursAt(s: string, needle: string, i: nat) {
    i + |needle| <= |s| && s[i..i + |needle|] == needle
  }

  /** `HasSubstring` holds exactly when `needle` occurs at some position. */
  lemma {:induction false} HasSubstringIff(s: string, needle: string)
    ensures HasSubstring(s, needle) <==> exists i: nat :: OccursAt(s, needle, i)
    decreases |s|
  {
    if |needle| == 0 {
      assert OccursAt(s, needle, 0);
    } else if |s| >= |needle| {
      HasSubstringIff(s[1..], needle);
      if HasSubstring(s, needle) {
        if s[..|needle|] == needle {
          assert OccursAt(s, needle, 0);
        } else {
          var i: nat :| OccursAt(s[1..], needle, i);
          assert s[1..][i..i + |needle|] == s[i + 1..i + 1 + |needle|];
          assert OccursAt(s, needle, i + 1);
        }
      }
      if exists i: nat :: OccursAt(s, needle, i) {
        var i: nat :| OccursAt(s, needle, i);
        if i > 0 {
          assert s[1..][i - 1..i - 1 + |needle|] == s[i..i + |needle|];
          assert OccursAt(s[1..], needle, i - 1);
        }
      }
    }
  }

  /** `key in j` for a string `key`: membership of the keys of a dict,
      substring test on a string, element equality on a list; `None` for
      every other value, on which Python raises `TypeError`. */
  function Contains(j: Json, key: string): (r: Option<bool>)
    ensures r.Some? <==> (j.Obj? || j.Str? || j.Arr?)
    ensures j.Obj? ==> r == Some(key in j.fields)
    ensures j.Arr? ==> r == Some(Str(key) in j.items)
    ensures j.Str? ==> r == Some(exists i: nat :: OccursAt(j.s, key, i))
  {
    match j
    case Obj(m) => Some(key in m)
    case Str(s) =>
      HasSubstringIff(s, key);
      Some(HasSubstring(s, key))
    case Arr(xs) => Some(Str(key) in xs)
    case _ => None
  }

  /** The number a value stands for in an ordering comparison with an
      integer (`bool` counts as 0 or 1); `None` where the comparison raises. */
  function Numeric(j: Json): (r: Option<real>)
    ensures r.Some? <==> (j.Bool? || j.Int? || j.Float?)
    ensures j.Bool? ==> r == Some(if j.b then 1.0 else 0.0)
    ensures j.Int? ==> r == Some(j.i as real)
    ensures j.Float? ==> r == Some(j.r)
  {
    match j
    case Bool(b) => Some(if b then 1.0 else 0.0)
    case Int(i) => Some(i as real)
    case Float(r) => Some(r)
    case _ => None
  }
}
