/** `np.unique(np.hstack(ids))` for the id lists of a protocol step
    (`detectors`, `pulsed_lights`, `nonpulsed_lights`, `environmental`): the ids
    are flattened one level, sorted ascending and deduplicated. The model covers
    homogeneous lists, all ints or all strings; numpy sorts ints by value and
    strings by code point. */
module Ids {
  import opened Json

  /** A scalar id. */
  predicate IsId(v: JSON)
  {
    v.Int? || v.Str?
  }

  /** An id field as written in a protocol: a list whose entries are
      ids or non-empty lists of ids, all ints or all strings. */
  predicate IdField(v: JSON)
  {
    && v.Arr?
    && (forall k :: 0 <= k < |v.items| ==> IdEntry(v.items[k]))
    && Homogeneous(Flatten(v.items))
  }

  predicate IdEntry(e: JSON)
  {
    IsId(e) || (e.Arr? && |e.items| > 0 && forall k :: 0 <= k < |e.items| ==> IsId(e.items[k]))
  }

  predicate Homogeneous(ids: seq<JSON>)
  {
    (forall k :: 0 <= k < |ids| ==> ids[k].Int?) || (forall k :: 0 <= k < |ids| ==> ids[k].Str?)
  }

  /** `np.hstack(entries)`: nested lists are spliced in, scalars kept. */
  function Flatten(entries: seq<JSON>): (r: seq<JSON>)
    ensures forall x :: x in r <==> exists k :: 0 <= k < |entries| && InEntry(x, entries[k])
  {
    if |entries| == 0 then []
    else
      var head := if entries[0].Arr? then entries[0].items else [entries[0]];
      var rest := Flatten(entries[1..]);
      assert forall x :: x in rest <==> exists k :: 1 <= k < |entries| && InEntry(x, entries[k]) by {
        forall x ensures x in rest <==> exists k :: 1 <= k < |entries| && InEntry(x, entries[k]) {
          if x in rest {
            var k :| 0 <= k < |entries[1..]| && InEntry(x, entries[1..][k]);
            assert InEntry(x, entries[k + 1]);
          }
        }
      }
      head + rest
  }

  /** `x` is the scalar entry `e` or an element of the list entry `e`. */
  predicate InEntry(x: JSON, e: JSON)
  {
    if e.Arr? then x in e.items else x == e
  }

  /** Code-point lexicographic order on strings. */
  predicate StrLess(a: string, b: string)
  {
    if |a| == 0 then |b| > 0
    else if |b| == 0 then false
    else if a[0] != b[0] then a[0] < b[0]
    else StrLess(a[1..], b[1..])
  }

  lemma {:induction false} StrLessIrreflexive(a: string)
    ensures !StrLess(a, a)
  {
    if |a| > 0 {
      StrLessIrreflexive(a[1..]);
    }
  }

  lemma {:induction false} StrLessTransitive(a: string, b: string, c: string)
    requires StrLess(a, b) && StrLess(b, c)
    ensures StrLess(a, c)
  {
    if |a| > 0 && a[0] == b[0] && b[0] == c[0] {
      StrLessTransitive(a[1..], b[1..], c[1..]);
    }
  }

  lemma {:induction false} StrLessTotal(a: string, b: string)
    requires a != b
    ensures StrLess(a, b) || StrLess(b, a)
  {
    if |a| > 0 && |b| > 0 && a[0] == b[0] {
      assert a == [a[0]] + a[1..] && b == [b[0]] + b[1..];
      StrLessTotal(a[1..], b[1..]);
    }
  }

  /** The order numpy sorts ids in. */
  predicate Less(a: JSON, b: JSON)
  {
    match (a, b)
    case (Int(x), Int(y)) => x < y
    case (Str(x), Str(y)) => StrLess(x, y)
    case (Int(_), Str(_)) => true
    case _ => false
  }

  lemma {:induction false} LessIrreflexive(a: JSON)
    ensures !Less(a, a)
  {
    if a.Str? {
      StrLessIrreflexive(a.s);
    }
  }

  lemma {:induction false} LessTransitive(a: JSON, b: JSON, c: JSON)
    requires Less(a, b) && Less(b, c)
    ensures Less(a, c)
  {
    if a.Str? && b.Str? && c.Str? {
      StrLessTransitive(a.s, b.s, c.s);
    }
  }

  lemma {:induction false} LessTotal(a: JSON, b: JSON)
    requires IsId(a) && IsId(b) && a != b
    ensures Less(a, b) || Less(b, a)
  {
    if a.Str? && b.Str? {
      StrLessTotal(a.s, b.s);
    }
  }

  predicate StrictlySorted(s: seq<JSON>)
  {
    forall j, k :: 0 <= j < k < |s| ==> Less(s[j], s[k])
  }

  /** Inserts `x` into a strictly sorted list unless it is already there. */
  function Insert(x: JSON, s: seq<JSON>): (r: seq<JSON>)
    requires IsId(x) && (forall k :: 0 <= k < |s| ==> IsId(s[k])) && StrictlySorted(s)
    ensures StrictlySorted(r)
    ensures forall y :: y in r <==> y == x || y in s
    ensures forall k :: 0 <= k < |r| ==> IsId(r[k])
  {
    if |s| == 0 then [x]
    else if x == s[0] then s
    else if Less(x, s[0]) then
      assert forall k :: 0 <= k < |s| ==> Less(x, s[k]) by {
        forall k | 0 <= k < |s| ensures Less(x, s[k]) {
          if k > 0 { LessTransitive(x, s[0], s[k]); }
        }
      }
      [x] + s
    else
      LessTotal(x, s[0]);
      var rest := Insert(x, s[1..]);
      assert forall y :: y in rest ==> Less(s[0], y) by {
        forall y | y in rest ensures Less(s[0], y) {
          if y != x {
            var k :| 1 <= k < |s| && s[k] == y;
          }
        }
      }
      [s[0]] + rest
  }

  /** `np.unique(ids)`: the distinct ids, ascending. */
  function Unique(ids: seq<JSON>): (r: seq<JSON>)
    requires forall k :: 0 <= k < |ids| ==> IsId(ids[k])
    ensures StrictlySorted(r)
    ensures forall y :: y in r <==> y in ids
    ensures forall k :: 0 <= k < |r| ==> IsId(r[k])
  {
    if |ids| == 0 then [] else Insert(ids[0], Unique(ids[1..]))
  }

  /** The number of entries of `np.unique(ids)` is the number of distinct ids. */
  lemma {:induction false} UniqueCount(ids: seq<JSON>)
    requires forall k :: 0 <= k < |ids| ==> IsId(ids[k])
    ensures |Unique(ids)| == |set x | x in ids|
  {
    var u := Unique(ids);
    assert (set x | x in ids) == (set x | x in u);
    DistinctCard(u);
  }

  lemma {:induction false} DistinctCard(s: seq<JSON>)
    requires StrictlySorted(s)
    ensures |set x | x in s| == |s|
  {
    if |s| > 0 {
      DistinctCard(s[1..]);
      LessIrreflexive(s[0]);
      assert s[0] !in s[1..] by {
        forall k | 1 <= k < |s| ensures s[k] != s[0] {
          assert Less(s[0], s[k]);
        }
      }
      assert (set x | x in s) == (set x | x in s[1..]) + {s[0]};
    }
  }

  lemma {:induction false} FlattenIds(entries: seq<JSON>)
    requires forall k :: 0 <= k < |entries| ==> IdEntry(entries[k])
    ensures forall k :: 0 <= k < |Flatten(entries)| ==> IsId(Flatten(entries)[k])
  {
    var f := Flatten(entries);
    forall k | 0 <= k < |f| ensures IsId(f[k]) {
      assert f[k] in f;
      var j :| 0 <= j < |entries| && InEntry(f[k], entries[j]);
    }
  }

  /** The distinct ids of an id field, ascending. */
  function FieldIds(v: JSON): (r: seq<JSON>)
    requires IdField(v)
    ensures StrictlySorted(r)
    ensures forall y :: y in r <==> exists k :: 0 <= k < |v.items| && InEntry(y, v.items[k])
    ensures |r| == |set x | x in Flatten(v.items)|
  {
    FlattenIds(v.items);
    UniqueCount(Flatten(v.items));
    Unique(Flatten(v.items))
  }
}
