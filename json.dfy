/** JSON-like Python values (the protocol dictionaries, schemas and variable
    arrays) and the Python built-ins the modelled code applies to them:
    dictionary lookup and merge, truthiness, `==` against an int, `str()`,
    `repr()`, `len()`, indexing and iteration. */
module Json {
  import opened Runtime
  import opened Text

  /** A Python value built from `None`, `bool`, `int`, `str`, `list` and `dict`.
      A `dict` keeps its insertion order as a sequence of (key, value) pairs. */
  datatype JSON =
    | Null
    | Bool(b: bool)
    | Int(i: int)
    | Str(s: string)
    | Arr(items: seq<JSON>)
    | Obj(fields: seq<(string, JSON)>)

  type Dict = seq<(string, JSON)>

  /** `k in d`. */
  predicate Has(d: Dict, k: string)
  {
    exists j | 0 <= j < |d| :: d[j].0 == k
  }

  /** `d[k]` if `k in d`; a Python `dict` has one entry per key, so the first
      matching pair is the entry. */
  function Lookup(d: Dict, k: string): (r: Option<JSON>)
    ensures r.Some? <==> Has(d, k)
    ensures r.Some? ==> exists j | 0 <= j < |d| :: d[j] == (k, r.value)
  {
    if |d| == 0 then None
    else if d[0].0 == k then Some(d[0].1)
    else
      var r := Lookup(d[1..], k);
      assert Has(d, k) ==> Has(d[1..], k) by {
        if Has(d, k) {
          var j :| 0 <= j < |d| && d[j].0 == k;
          assert d[1..][j - 1].0 == k;
        }
      }
      r
  }

  /** The getters of visualize.py (`averages`, `protocols_delay`, `set_repeats`,
      `v_arrays`, ...): the value under `k`, or `None` when `k` is absent. */
  function Field(d: Dict, k: string): (r: JSON)
    ensures !Has(d, k) ==> r == Null
    ensures Has(d, k) ==> Some(r) == Lookup(d, k)
  {
    match Lookup(d, k)
    case None => Null
    case Some(v) => v
  }

  /** The keys of `d` in order. */
  function Keys(d: Dict): (r: seq<string>)
    ensures |r| == |d| && forall j :: 0 <= j < |d| ==> r[j] == d[j].0
  {
    if |d| == 0 then [] else [d[0].0] + Keys(d[1..])
  }

  /** `{**a, **b}`: the entries of `a` in order, with the values of `b` where
      `b` has the key, followed by the entries of `b` whose key `a` lacks. */
  function Merge(a: Dict, b: Dict): Dict
  {
    Overridden(a, b) + Added(a, b)
  }

  function Overridden(a: Dict, b: Dict): (r: Dict)
    ensures |r| == |a| && forall j :: 0 <= j < |a| ==> r[j].0 == a[j].0
  {
    if |a| == 0 then []
    else
      var v := match Lookup(b, a[0].0) case Some(w) => w case None => a[0].1;
      [(a[0].0, v)] + Overridden(a[1..], b)
  }

  function Added(a: Dict, b: Dict): (r: Dict)
    ensures forall j :: 0 <= j < |r| ==> !Has(a, r[j].0)
  {
    if |b| == 0 then []
    else if Has(a, b[0].0) then Added(a, b[1..])
    else [b[0]] + Added(a, b[1..])
  }

  lemma {:induction false} LookupOverridden(a: Dict, b: Dict, k: string)
    ensures Lookup(Overridden(a, b), k) ==
            (if !Has(a, k) then None else if Has(b, k) then Lookup(b, k) else Lookup(a, k))
  {
    if |a| > 0 {
      LookupOverridden(a[1..], b, k);
      if a[0].0 != k {
        assert Has(a, k) <==> Has(a[1..], k) by {
          if Has(a, k) {
            var j :| 0 <= j < |a| && a[j].0 == k;
            assert a[1..][j - 1].0 == k;
          }
          if Has(a[1..], k) {
            var j :| 0 <= j < |a[1..]| && a[1..][j].0 == k;
            assert a[j + 1].0 == k;
          }
        }
      }
    }
  }

  lemma {:induction false} LookupAdded(a: Dict, b: Dict, k: string)
    requires !Has(a, k)
    ensures Lookup(Added(a, b), k) == Lookup(b, k)
  {
    if |b| > 0 {
      LookupAdded(a, b[1..], k);
    }
  }

  lemma {:induction false} LookupAppend(x: Dict, y: Dict, k: string)
    ensures Lookup(x + y, k) == if Has(x, k) then Lookup(x, k) else Lookup(y, k)
  {
    if |x| > 0 {
      assert (x + y)[1..] == x[1..] + y;
      LookupAppend(x[1..], y, k);
    } else {
      assert x + y == y;
    }
  }

  /** Looking a key up in `{**a, **b}` finds `b`'s value when `b` has the key and
      `a`'s otherwise. */
  lemma {:induction false} LookupMerge(a: Dict, b: Dict, k: string)
    ensures Lookup(Merge(a, b), k) == if Has(b, k) then Lookup(b, k) else Lookup(a, k)
  {
    LookupAppend(Overridden(a, b), Added(a, b), k);
    LookupOverridden(a, b, k);
    if !Has(a, k) {
      LookupAdded(a, b, k);
    }
  }

  /** `del d[k]` on a dict that has the key. */
  function Remove(d: Dict, k: string): (r: Dict)
    ensures !Has(r, k)
    ensures forall j :: j != k ==> Lookup(r, j) == Lookup(d, j)
  {
    if |d| == 0 then []
    else if d[0].0 == k then Remove(d[1..], k)
    else [d[0]] + Remove(d[1..], k)
  }

  /** Python truthiness: `None`, `False`, `0`, `""`, `[]` and `{}` are false. */
  predicate Truthy(v: JSON)
  {
    match v
    case Null => false
    case Bool(b) => b
    case Int(i) => i != 0
    case Str(s) => s != ""
    case Arr(items) => items != []
    case Obj(fields) => fields != []
  }

  /** The integer value of a Python `int`; `bool` is a subclass of `int`, so
      `isinstance(True, int)` holds and `True == 1`. */
  function AsInt(v: JSON): Option<int>
  {
    match v
    case Int(i) => Some(i)
    case Bool(b) => Some(if b then 1 else 0)
    case _ => None
  }

  /** `v == n` in Python for an int literal `n`. */
  predicate EqualsInt(v: JSON, n: int)
  {
    AsInt(v) == Some(n)
  }

  /** Python's `==` between two values of this model: numbers compare by value
      (so `True == 1`), anything else structurally. */
  predicate Equal(a: JSON, b: JSON)
  {
    if AsInt(a).Some? || AsInt(b).Some? then AsInt(a) == AsInt(b) else a == b
  }

  /** `str(v)`, which is what `"%s" % v` and f-strings produce. */
  function ToStr(v: JSON): string
  {
    match v
    case Str(s) => s
    case _ => Repr(v)
  }

  /** `repr(v)`. */
  function Repr(v: JSON): string
    decreases v, 1
  {
    match v
    case Null => "None"
    case Bool(b) => if b then "True" else "False"
    case Int(i) => IntToString(i)
    case Str(s) => StrRepr(s)
    case Arr(items) => "[" + ReprItems(items) + "]"
    case Obj(_) => "{" + ReprFields(v, 0) + "}"
  }

  function ReprItems(items: seq<JSON>): string
    decreases items, 0
  {
    if |items| == 0 then ""
    else if |items| == 1 then Repr(items[0])
    else Repr(items[0]) + ", " + ReprItems(items[1..])
  }

  /** The entries of the dict `v` from position `from` on, as `repr` lists them. */
  function ReprFields(v: JSON, from: nat): string
    requires v.Obj? && from <= |v.fields|
    decreases v, 0, |v.fields| - from
  {
    if from == |v.fields| then ""
    else
      var entry := StrRepr(v.fields[from].0) + ": " + Repr(v.fields[from].1);
      if from + 1 == |v.fields| then entry else entry + ", " + ReprFields(v, from + 1)
  }

  /** The backslash and the two quote characters. */
  const Backslash: char := 92 as char
  const SingleQuote: char := 39 as char
  const DoubleQuote: char := 34 as char

  /** `repr(s)` of a string: single quotes unless the text holds a single quote
      and no double quote; backslash, the chosen quote, newline, carriage return
      and tab are escaped. */
  function StrRepr(s: string): string
  {
    var q := if SingleQuote in s && DoubleQuote !in s then DoubleQuote else SingleQuote;
    [q] + Escape(s, q) + [q]
  }

  function Escape(s: string, q: char): string
  {
    if |s| == 0 then ""
    else
      var ch := s[0];
      var e :=
        if ch == Backslash then [Backslash, Backslash]
        else if ch == q then [Backslash, q]
        else if ch == '\n' then "\\n"
        else if ch == '\r' then "\\r"
        else if ch == '\t' then "\\t"
        else [ch];
      e + Escape(s[1..], q)
  }

  /** `len(v)`. */
  function Len(v: JSON): Result<nat>
  {
    match v
    case Arr(items) => Ok(|items|)
    case Str(s) => Ok(|s|)
    case Obj(fields) => Ok(|fields|)
    case _ => Err(TypeError)
  }

  /** `list(v)`: what a `for` loop visits (the characters of a string, the keys
      of a dict). */
  function Iter(v: JSON): (r: Result<seq<JSON>>)
    ensures v.Arr? ==> r == Ok(v.items)
  {
    match v
    case Arr(items) => Ok(items)
    case Str(s) => Ok(seq(|s|, k requires 0 <= k < |s| => Str([s[k]])))
    case Obj(fields) => Ok(seq(|fields|, k requires 0 <= k < |fields| => Str(fields[k].0)))
    case _ => Err(TypeError)
  }

  /** `v[i]` with an int subscript; negative positions count from the end. */
  function Index(v: JSON, i: int): (r: Result<JSON>)
    ensures v.Arr? && 0 <= i < |v.items| ==> r == Ok(v.items[i])
    ensures v.Arr? && (i >= |v.items| || i < -|v.items|) ==> r == Err(IndexError)
  {
    match v
    case Arr(items) =>
      if 0 <= i < |items| then Ok(items[i])
      else if -|items| <= i < 0 then Ok(items[|items| + i])
      else Err(IndexError)
    case Str(s) =>
      if 0 <= i < |s| then Ok(Str([s[i]]))
      else if -|s| <= i < 0 then Ok(Str([s[|s| + i]]))
      else Err(IndexError)
    case Obj(_) => Err(KeyError(IntToString(i)))
    case _ => Err(TypeError)
  }

  /** `v[k]` with a string subscript. */
  function Subscript(v: JSON, k: string): (r: Result<JSON>)
    ensures v.Obj? && Has(v.fields, k) ==> r == Ok(Field(v.fields, k))
  {
    match v
    case Obj(fields) =>
      (match Lookup(fields, k) case Some(x) => Ok(x) case None => Err(KeyError(k)))
    case _ => Err(TypeError)
  }

  /** `k in v` for a string `k`: a key of a dict, a substring of a string, an
      element of a list. */
  function Contains(k: string, v: JSON): Result<bool>
  {
    match v
    case Obj(fields) => Ok(Has(fields, k))
    case Str(s) => Ok(Text.Contains(s, k))
    case Arr(items) => Ok(Str(k) in items)
    case _ => Err(TypeError)
  }
}
