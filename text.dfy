/** Python string operations used by the modelled code, on `string` (a sequence of
    Unicode scalar values, as a Python `str` is a sequence of code points). */
module Text {
  import opened Runtime

  /** `sep.join(parts)`. */
  function Join(parts: seq<string>, sep: string): string
  {
    if |parts| == 0 then ""
    else if |parts| == 1 then parts[0]
    else parts[0] + sep + Join(parts[1..], sep)
  }

  /** `s.split(c)` for a one-character separator: never drops empty pieces. */
  function Split(s: string, c: char): (r: seq<string>)
    ensures |r| >= 1
    ensures forall k :: 0 <= k < |r| ==> c !in r[k]
  {
    if |s| == 0 then [""]
    else if s[0] == c then [""] + Split(s[1..], c)
    else
      var rest := Split(s[1..], c);
      [[s[0]] + rest[0]] + rest[1..]
  }

  /** Joining one more part appends the separator and the part. */
  lemma {:induction false} JoinSnoc(parts: seq<string>, last: string, sep: string)
    requires parts != []
    ensures Join(parts + [last], sep) == Join(parts, sep) + sep + last
  {
    if |parts| == 1 {
      assert (parts + [last])[1..] == [last];
    } else {
      assert (parts + [last])[1..] == parts[1..] + [last];
      JoinSnoc(parts[1..], last, sep);
    }
  }

  /** Splitting on `c` and joining with `c` gives back the string. */
  lemma {:induction false} JoinSplit(s: string, c: char)
    ensures Join(Split(s, c), [c]) == s
  {
    if |s| == 0 {
    } else if s[0] == c {
      JoinSplit(s[1..], c);
      var rest := Split(s[1..], c);
      assert Split(s, c) == [""] + rest;
      assert Join(Split(s, c), [c]) == "" + [c] + Join(rest, [c]);
      assert s == [c] + s[1..];
    } else {
      JoinSplit(s[1..], c);
      var rest := Split(s[1..], c);
      if |rest| == 1 {
        assert Split(s, c) == [[s[0]] + rest[0]];
      } else {
        assert Split(s, c)[1..] == rest[1..];
        assert Join(rest, [c]) == rest[0] + [c] + Join(rest[1..], [c]);
      }
      assert s == [s[0]] + s[1..];
    }
  }

  /** Joining pieces that do not contain `c` with `c`, then splitting on `c`,
      gives back the pieces. */
  lemma {:induction false} SplitJoin(parts: seq<string>, c: char)
    requires |parts| >= 1
    requires forall k :: 0 <= k < |parts| ==> c !in parts[k]
    ensures Split(Join(parts, [c]), c) == parts
  {
    if |parts| == 1 {
      SplitNoSeparator(parts[0], c);
    } else {
      SplitJoin(parts[1..], c);
      SplitPrefix(parts[0], Join(parts[1..], [c]), c);
    }
  }

  lemma {:induction false} SplitNoSeparator(s: string, c: char)
    requires c !in s
    ensures Split(s, c) == [s]
  {
    if |s| > 0 {
      SplitNoSeparator(s[1..], c);
      assert [s[0]] + s[1..] == s;
    }
  }

  lemma {:induction false} SplitPrefix(p: string, t: string, c: char)
    requires c !in p
    ensures Split(p + [c] + t, c) == [p] + Split(t, c)
  {
    if |p| == 0 {
      assert p + [c] + t == [c] + t;
      assert ([c] + t)[1..] == t;
    } else {
      SplitPrefix(p[1..], t, c);
      assert (p + [c] + t)[1..] == p[1..] + [c] + t;
      assert [p[0]] + p[1..] == p;
    }
  }

  /** Splitting a text that ends with `c` and then more text: the pieces of the
      first part, whose last piece is empty, with that empty piece replaced by
      the pieces of the rest. */
  lemma {:induction false} SplitAppend(a: string, t: string, c: char)
    requires |a| > 0 && a[|a| - 1] == c
    ensures |Split(a, c)| >= 2
    ensures Split(a + t, c) == Split(a, c)[..|Split(a, c)| - 1] + Split(t, c)
  {
    if |a| == 1 {
      assert a == [c] && a + t == [c] + t;
      assert (a + t)[1..] == t;
      assert Split(a, c) == [""] + Split("", c);
    } else {
      var rest := a[1..];
      SplitAppend(rest, t, c);
      var sa, sat := Split(rest, c), Split(rest + t, c);
      assert (a + t)[1..] == rest + t;
      assert (a + t)[0] == a[0];
      if a[0] == c {
        assert Split(a, c) == [""] + sa;
        assert Split(a + t, c) == [""] + sat;
        PiecesPrepend("", sa, sat, Split(t, c));
      } else {
        assert Split(a, c) == [[a[0]] + sa[0]] + sa[1..];
        assert Split(a + t, c) == [[a[0]] + sat[0]] + sat[1..];
        PiecesExtend([a[0]], sa, sat, Split(t, c));
      }
    }
  }

  /** A piece put in front of the pieces of both texts. */
  lemma {:induction false} PiecesPrepend(p: string, sa: seq<string>, sat: seq<string>, st: seq<string>)
    requires |sa| >= 2 && sat == sa[..|sa| - 1] + st
    ensures [p] + sat == ([p] + sa)[..|sa|] + st
  {
    assert ([p] + sa)[..|sa|] == [p] + sa[..|sa| - 1];
  }

  /** A prefix glued to the first piece of both texts. */
  lemma {:induction false} PiecesExtend(p: string, sa: seq<string>, sat: seq<string>, st: seq<string>)
    requires |sa| >= 2 && sat == sa[..|sa| - 1] + st
    ensures [p + sat[0]] + sat[1..] == ([p + sa[0]] + sa[1..])[..|sa| - 1] + st
  {
    assert sat[0] == sa[0] && sat[1..] == sa[1..|sa| - 1] + st;
    assert ([p + sa[0]] + sa[1..])[..|sa| - 1] == [p + sa[0]] + sa[1..|sa| - 1];
  }

  /** The characters for which Python's `str.isspace()` holds; `str.strip()`
      removes exactly these from both ends. */
  predicate IsSpace(ch: char)
  {
    || ch == ' ' || ('\t' <= ch <= '\r') || ('\U{1C}' <= ch <= '\U{1F}')
    || ch == '\U{85}' || ch == '\U{A0}' || ch == '\U{1680}'
    || ('\U{2000}' <= ch <= '\U{200A}') || ch == '\U{2028}' || ch == '\U{2029}'
    || ch == '\U{202F}' || ch == '\U{205F}' || ch == '\U{3000}'
  }

  function StripLeft(s: string): (r: string)
    ensures |r| <= |s| && r == s[|s| - |r|..]
    ensures |r| > 0 ==> !IsSpace(r[0])
    ensures forall k :: 0 <= k < |s| - |r| ==> IsSpace(s[k])
  {
    if |s| > 0 && IsSpace(s[0]) then StripLeft(s[1..]) else s
  }

  function StripRight(s: string): (r: string)
    ensures |r| <= |s| && r == s[..|r|]
    ensures |r| > 0 ==> !IsSpace(r[|r| - 1])
    ensures forall k :: |r| <= k < |s| ==> IsSpace(s[k])
  {
    if |s| > 0 && IsSpace(s[|s| - 1]) then StripRight(s[..|s| - 1]) else s
  }

  /** `s.strip()`. */
  function Strip(s: string): string
  {
    StripRight(StripLeft(s))
  }

  lemma {:induction false} StripUnchanged(s: string)
    requires |s| > 0 ==> !IsSpace(s[0]) && !IsSpace(s[|s| - 1])
    ensures Strip(s) == s
  {
  }

  predicate IsDigit(ch: char)
  {
    '0' <= ch <= '9'
  }

  function DigitChar(d: nat): (ch: char)
    requires d < 10
    ensures IsDigit(ch) && (ch as int) - ('0' as int) == d
  {
    (('0' as int) + d) as char
  }

  /** Decimal notation of a natural number, as Python's `str()` writes it. */
  function NatToString(n: nat): (r: string)
    ensures |r| >= 1
    ensures forall k :: 0 <= k < |r| ==> IsDigit(r[k])
    decreases n
  {
    if n < 10 then [DigitChar(n)] else NatToString(n / 10) + [DigitChar(n % 10)]
  }

  /** Decimal notation of an integer, as Python's `str()` writes it. */
  function IntToString(n: int): string
  {
    if n < 0 then "-" + NatToString(-n) else NatToString(n)
  }

  function DigitValue(ch: char): nat
    requires IsDigit(ch)
  {
    (ch as int) - ('0' as int)
  }

  /** The value of a string of decimal digits, most significant first. */
  function DigitsValue(ds: string): nat
    requires forall k :: 0 <= k < |ds| ==> IsDigit(ds[k])
  {
    if |ds| == 0 then 0
    else DigitsValue(ds[..|ds| - 1]) * 10 + DigitValue(ds[|ds| - 1])
  }

  /** Digits separated by single underscores, as Python's `int()` accepts them. */
  predicate DigitGroups(s: string)
  {
    && |s| > 0 && IsDigit(s[0]) && IsDigit(s[|s| - 1])
    && (forall k :: 0 <= k < |s| ==> IsDigit(s[k]) || s[k] == '_')
    && (forall k :: 0 <= k < |s| - 1 ==> !(s[k] == '_' && s[k + 1] == '_'))
  }

  function DropUnderscores(s: string): (r: string)
    ensures forall k :: 0 <= k < |r| ==> r[k] != '_' && r[k] in s
  {
    if |s| == 0 then "" else if s[0] == '_' then DropUnderscores(s[1..]) else [s[0]] + DropUnderscores(s[1..])
  }

  lemma {:induction false} DropUnderscoresDigits(s: string)
    requires forall k :: 0 <= k < |s| ==> IsDigit(s[k]) || s[k] == '_'
    ensures forall k :: 0 <= k < |DropUnderscores(s)| ==> IsDigit(DropUnderscores(s)[k])
  {
  }

  /** The value of an underscore-grouped digit string, `None` if it is not one. */
  function ParseDigits(body: string): (r: Option<nat>)
    ensures r.Some? <==> DigitGroups(body)
  {
    if !DigitGroups(body) then None
    else
      DropUnderscoresDigits(body);
      Some(DigitsValue(DropUnderscores(body)))
  }

  /** An optional sign followed by digits. */
  function ParseSigned(t: string): Option<int>
  {
    if |t| > 0 && (t[0] == '-' || t[0] == '+') then
      match ParseDigits(t[1..])
      case None => None
      case Some(v) => Some(if t[0] == '-' then -(v as int) else v as int)
    else
      match ParseDigits(t)
      case None => None
      case Some(v) => Some(v)
  }

  /** Python's `int(s)` on a string: surrounding whitespace, an optional sign and
      decimal digits grouped by single underscores; `None` where Python raises
      `ValueError`. */
  function ParseInt(s: string): Option<int>
  {
    ParseSigned(Strip(s))
  }

  lemma {:induction false} DigitsValueOfNat(n: nat)
    ensures DigitsValue(NatToString(n)) == n
    decreases n
  {
    var r := NatToString(n);
    if n >= 10 {
      DigitsValueOfNat(n / 10);
      assert r[..|r| - 1] == NatToString(n / 10);
    }
  }

  lemma {:induction false} DropUnderscoresNoop(s: string)
    requires forall k :: 0 <= k < |s| ==> s[k] != '_'
    ensures DropUnderscores(s) == s
  {
    if |s| > 0 {
      DropUnderscoresNoop(s[1..]);
    }
  }

  lemma {:induction false} NatToStringDigitGroups(n: nat)
    ensures DigitGroups(NatToString(n))
    ensures DropUnderscores(NatToString(n)) == NatToString(n)
  {
    var ds := NatToString(n);
    assert forall k :: 0 <= k < |ds| ==> ds[k] != '_' by {
      forall k | 0 <= k < |ds| ensures ds[k] != '_' { assert IsDigit(ds[k]); }
    }
    DropUnderscoresNoop(ds);
  }

  lemma {:induction false} ParseDigitsOfNat(n: nat)
    ensures ParseDigits(NatToString(n)) == Some(n)
  {
    DigitsValueOfNat(n);
    NatToStringDigitGroups(n);
  }

  /** The digits of a natural number parse back to it. */
  lemma {:induction false} ParseSignedDigits(m: nat)
    ensures ParseSigned(NatToString(m)) == Some(m)
  {
    ParseDigitsOfNat(m);
    var ds := NatToString(m);
    assert IsDigit(ds[0]);
  }

  /** A minus sign before the digits of a positive number gives its negation. */
  lemma {:induction false} ParseSignedNegative(m: nat)
    requires m > 0
    ensures ParseSigned("-" + NatToString(m)) == Some(-(m as int))
  {
    ParseDigitsOfNat(m);
    var s := "-" + NatToString(m);
    assert s[1..] == NatToString(m);
  }

  /** Decimal notation has no surrounding whitespace. */
  lemma {:induction false} IntToStringStripped(n: int)
    ensures Strip(IntToString(n)) == IntToString(n)
  {
    var m: nat := if n < 0 then -n else n;
    var ds := NatToString(m);
    var s := IntToString(n);
    assert IsDigit(ds[|ds| - 1]);
    assert s[|s| - 1] == ds[|ds| - 1];
    assert IsDigit(ds[0]);
    StripUnchanged(s);
  }

  /** `int(str(n)) == n`: the decimal notation parses back to the number. */
  lemma {:induction false} ParseIntToString(n: int)
    ensures ParseInt(IntToString(n)) == Some(n)
  {
    IntToStringStripped(n);
    if n < 0 {
      ParseSignedNegative(-n);
    } else {
      ParseSignedDigits(n);
    }
  }

  /** `s.startswith(p)`. */
  predicate StartsWith(s: string, p: string)
  {
    |p| <= |s| && s[..|p|] == p
  }

  /** `s.endswith(p)`. */
  predicate EndsWith(s: string, p: string)
  {
    |p| <= |s| && s[|s| - |p|..] == p
  }

  /** `sub` occurs in `s` at position `k`. */
  predicate OccursAt(s: string, sub: string, k: int)
  {
    0 <= k <= |s| - |sub| && s[k..k + |sub|] == sub
  }

  /** `sub in s` for strings: a contiguous occurrence. */
  predicate Contains(s: string, sub: string)
  {
    exists k | 0 <= k <= |s| - |sub| :: OccursAt(s, sub, k)
  }

  /** The first position at or after `from` at which `sub` occurs in `s`. */
  function FindFrom(s: string, sub: string, from: nat): (r: Option<nat>)
    ensures r.Some? ==> from <= r.value && OccursAt(s, sub, r.value)
    ensures r.Some? ==> forall k :: from <= k < r.value ==> !OccursAt(s, sub, k)
    ensures r.None? ==> forall k :: from <= k ==> !OccursAt(s, sub, k)
    decreases |s| - from
  {
    if from + |sub| > |s| then None
    else if s[from..from + |sub|] == sub then Some(from)
    else FindFrom(s, sub, from + 1)
  }

  /** The first position at which `sub` occurs in `s`, if any. */
  function Find(s: string, sub: string): (r: Option<nat>)
    ensures r.Some? ==> OccursAt(s, sub, r.value)
    ensures r.Some? ==> forall k :: 0 <= k < r.value ==> !OccursAt(s, sub, k)
    ensures r.None? <==> !Contains(s, sub)
  {
    FindFrom(s, sub, 0)
  }

  /** `s.replace(pat, rep)` for a non-empty pattern: every non-overlapping
      occurrence, scanning from the left. */
  function Replace(s: string, pat: string, rep: string): (r: string)
    requires |pat| > 0
    ensures !Contains(s, pat) ==> r == s
    decreases |s|
  {
    match Find(s, pat)
    case None => s
    case Some(k) => s[..k] + rep + Replace(s[k + |pat|..], pat, rep)
  }

  /** The first occurrence of `pat` is the one replaced first: with no
      occurrence starting inside `a`, the text `a + pat + b` becomes `a + rep`
      followed by the replacement of the rest. */
  lemma {:induction false} ReplaceFirst(a: string, pat: string, b: string, rep: string)
    requires |pat| > 0
    requires forall k :: 0 <= k < |a| ==> !OccursAt(a + pat + b, pat, k)
    ensures Replace(a + pat + b, pat, rep) == a + rep + Replace(b, pat, rep)
  {
    var s := a + pat + b;
    assert OccursAt(s, pat, |a|) by {
      assert s[|a|..|a| + |pat|] == pat;
    }
    var f := Find(s, pat);
    assert f.Some?;
    assert !(f.value < |a|);
    assert !(f.value > |a|);
    assert f == Some(|a|);
    assert s[..|a|] == a && s[|a| + |pat|..] == b;
  }

  /** Python's `str.lower()` on ASCII letters; other characters are kept. */
  function LowerChar(ch: char): char
  {
    if 'A' <= ch <= 'Z' then (ch as int + 32) as char else ch
  }

  /** Python's `str.upper()` on ASCII letters; other characters are kept. */
  function UpperChar(ch: char): char
  {
    if 'a' <= ch <= 'z' then (ch as int - 32) as char else ch
  }

  function Lower(s: string): (r: string)
    ensures |r| == |s| && forall k :: 0 <= k < |s| ==> r[k] == LowerChar(s[k])
  {
    if |s| == 0 then "" else [LowerChar(s[0])] + Lower(s[1..])
  }

  /** `s.capitalize()`: first character upper case, the rest lower case. */
  function Capitalize(s: string): (r: string)
    ensures |r| == |s|
    ensures |s| > 0 ==> r[0] == UpperChar(s[0])
    ensures forall k :: 1 <= k < |s| ==> r[k] == LowerChar(s[k])
  {
    if |s| == 0 then "" else [UpperChar(s[0])] + Lower(s[1..])
  }

  /** `[prefix + x for x in lines]`: every line behind the same prefix. */
  function Indented(prefix: string, lines: seq<string>): (r: seq<string>)
    ensures |r| == |lines| && forall k :: 0 <= k < |lines| ==> r[k] == prefix + lines[k]
  {
    if |lines| == 0 then [] else [prefix + lines[0]] + Indented(prefix, lines[1..])
  }

  /** `ch * n`. */
  function Repeat(ch: char, n: nat): (r: string)
    ensures |r| == n && forall k :: 0 <= k < n ==> r[k] == ch
  {
    if n == 0 then "" else [ch] + Repeat(ch, n - 1)
  }

  /** `s * n`. */
  function RepeatString(s: string, n: nat): (r: string)
    ensures |r| == n * |s|
  {
    if n == 0 then "" else s + RepeatString(s, n - 1)
  }
}
