/** Text helpers shared by every module: Python's optional values, whitespace
    stripping, ASCII case mapping, str.join, decimal rendering, slicing with
    Python's negative-bound rule, and code-point ordering with `sorted(set(...))`. */
module Strings {

  datatype Option<+T> = None | Some(value: T) {
    function GetOr(default: T): T {
      match this
      case Some(v) => v
      case None => default
    }
  }

  /** Python's `str.isspace` for a single character: the characters that `str.strip()`
      removes when called without arguments. */
  predicate IsSpace(c: char) {
    ('\t' <= c <= '\r') || ('\U{1C}' <= c <= '\U{1F}') || c == ' ' || c == '\U{85}' || c == '\U{A0}'
    || c == '\U{1680}' || ('\U{2000}' <= c <= '\U{200A}') || c == '\U{2028}' || c == '\U{2029}'
    || c == '\U{202F}' || c == '\U{205F}' || c == '\U{3000}'
  }

  predicate AllSpace(s: string) {
    forall i :: 0 <= i < |s| ==> IsSpace(s[i])
  }

  /** `s.lstrip()` */
  function LStrip(s: string): (r: string)
    ensures |r| <= |s| && r == s[|s| - |r|..]
    ensures r == [] || !IsSpace(r[0])
    ensures r == [] <==> AllSpace(s)
  {
    if s == [] || !IsSpace(s[0]) then s
    else LStrip(s[1..])
  }

  /** `s.rstrip()` */
  function RStrip(s: string): (r: string)
    ensures |r| <= |s| && r == s[..|r|]
    ensures r == [] || !IsSpace(r[|r| - 1])
    ensures r == [] <==> AllSpace(s)
  {
    if s == [] || !IsSpace(s[|s| - 1]) then s
    else
      var r := RStrip(s[..|s| - 1]);
      assert AllSpace(s[..|s| - 1]) ==> AllSpace(s);
      r
  }

  /** `s.strip()`: empty exactly for whitespace-only text; otherwise it neither starts
      nor ends with whitespace. */
  function Strip(s: string): (r: string)
    ensures |r| <= |s|
    ensures r == [] <==> AllSpace(s)
    ensures r == [] || (!IsSpace(r[0]) && !IsSpace(r[|r| - 1]))
  {
    var t := RStrip(s);
    var r := LStrip(t);
    assert r != [] ==> r[|r| - 1] == t[|t| - 1];
    r
  }

  function LowerChar(c: char): char {
    if 'A' <= c <= 'Z' then (c as int + 32) as char else c
  }

  /** `s.lower()`, restricted to the ASCII letters. */
  function Lower(s: string): (r: string)
    ensures |r| == |s| && forall i :: 0 <= i < |s| ==> r[i] == LowerChar(s[i])
  {
    seq(|s|, i requires 0 <= i < |s| => LowerChar(s[i]))
  }

  predicate IsAlpha(c: char) { ('a' <= c <= 'z') || ('A' <= c <= 'Z') }
  predicate IsDigit(c: char) { '0' <= c <= '9' }
  predicate IsAlnum(c: char) { IsAlpha(c) || IsDigit(c) }

  function UpperChar(c: char): char {
    if 'a' <= c <= 'z' then (c as int - 32) as char else c
  }

  /** `sep.join(parts)` */
  function Join(parts: seq<string>, sep: string): string {
    if parts == [] then ""
    else if |parts| == 1 then parts[0]
    else parts[0] + sep + Join(parts[1..], sep)
  }

  /** Joining one more part appends the separator and the part. */
  lemma {:induction false} JoinSnoc(parts: seq<string>, last: string, sep: string)
    requires parts != []
    ensures Join(parts + [last], sep) == Join(parts, sep) + sep + last
  {
    if |parts| == 1 {
      assert (parts + [last])[1..] == [last];
    } else {
      assert (parts + [last])[1..] == parts[1..] + [last];
      JoinSnoc(parts[1..], last, sep);
    }
  }

  /** Joining two non-empty halves puts one separator between them. */
  lemma {:induction false} JoinAppend(a: seq<string>, b: seq<string>, sep: string)
    requires a != [] && b != []
    ensures Join(a + b, sep) == Join(a, sep) + sep + Join(b, sep)
  {
    if |a| == 1 {
      assert (a + b)[1..] == b;
    } else {
      assert (a + b)[1..] == a[1..] + b;
      JoinAppend(a[1..], b, sep);
    }
  }

  /** Joining a part in front of others puts the separator between them. */
  lemma JoinCons(first: string, rest: seq<string>, sep: string)
    requires rest != []
    ensures Join([first] + rest, sep) == first + sep + Join(rest, sep)
  {
    assert ([first] + rest)[1..] == rest;
  }

  lemma JoinTwo(a: string, b: string, sep: string)
    ensures Join([a, b], sep) == a + sep + b
  {
    JoinCons(a, [b], sep);
  }

  lemma JoinFive(a: string, b: string, c: string, d: string, e: string, sep: string)
    ensures Join([a, b, c, d, e], sep) == a + sep + (b + sep + (c + sep + (d + sep + e)))
  {
    JoinTwo(d, e, sep);
    JoinCons(c, [d, e], sep);
    assert [c, d, e] == [c] + [d, e];
    JoinCons(b, [c, d, e], sep);
    assert [b, c, d, e] == [b] + [c, d, e];
    JoinCons(a, [b, c, d, e], sep);
    assert [a, b, c, d, e] == [a] + [b, c, d, e];
  }

  lemma JoinFour(a: string, b: string, c: string, d: string, sep: string)
    ensures Join([a, b, c, d], sep) == a + sep + (b + sep + (c + sep + d))
  {
    JoinTwo(c, d, sep);
    JoinCons(b, [c, d], sep);
    assert [b, c, d] == [b] + [c, d];
    JoinCons(a, [b, c, d], sep);
    assert [a, b, c, d] == [a] + [b, c, d];
  }

  /** Joined lines open with their first two lines. */
  lemma JoinStartsWithTwo(h: seq<string>, sep: string)
    requires |h| >= 2
    ensures StartsWith(Join(h, sep), h[0] + sep + h[1])
  {
    var rest := h[2..];
    JoinTwo(h[0], h[1], sep);
    if rest == [] {
      assert h == [h[0], h[1]];
    } else {
      assert h == [h[0], h[1]] + rest;
      JoinAppend([h[0], h[1]], rest, sep);
      StartsWithAppend(h[0] + sep + h[1], sep + Join(rest, sep), h[0] + sep + h[1]);
    }
  }

  /** Joined lines keep the opening of their head and end with their tail block. */
  lemma JoinFrame(head: seq<string>, block: seq<string>, sep: string, start: string)
    requires head != [] && block != [] && StartsWith(Join(head, sep), start)
    ensures StartsWith(Join(head + block, sep), start)
    ensures EndsWith(Join(head + block, sep), sep + Join(block, sep))
  {
    JoinAppend(head, block, sep);
    StartsWithAppend(Join(head, sep), sep + Join(block, sep), start);
    EndsWithAppend(Join(head, sep), sep + Join(block, sep));
  }

  /** The lines a loop of `lines.append(text); lines.append("")` adds: each text
      followed by a blank line. */
  function Blocks(texts: seq<string>): (r: seq<string>)
    ensures |r| == 2 * |texts|
  {
    if texts == [] then [] else Blocks(texts[..|texts| - 1]) + [texts[|texts| - 1], ""]
  }

  /** Each text between two line breaks, one after the other. */
  function Wrapped(texts: seq<string>): string {
    if texts == [] then "" else Wrapped(texts[..|texts| - 1]) + "\n" + texts[|texts| - 1] + "\n"
  }

  /** Joined with line breaks, the blank-line-separated blocks after a non-empty head
      are the head followed by each block wrapped in line breaks. */
  lemma {:induction false} JoinBlocks(head: seq<string>, texts: seq<string>)
    requires head != []
    ensures Join(head + Blocks(texts), "\n") == Join(head, "\n") + Wrapped(texts)
    decreases |texts|
  {
    if texts == [] {
      assert head + Blocks(texts) == head;
    } else {
      var n := |texts| - 1;
      var t := texts[n];
      var prev := head + Blocks(texts[..n]);
      assert head + Blocks(texts) == (prev + [t]) + [""];
      calc {
        Join(head + Blocks(texts), "\n");
        { JoinSnoc(prev + [t], "", "\n"); }
        Join(prev + [t], "\n") + "\n" + "";
        { JoinSnoc(prev, t, "\n"); }
        Join(prev, "\n") + "\n" + t + "\n";
        { JoinBlocks(head, texts[..n]); }
        Join(head, "\n") + Wrapped(texts[..n]) + "\n" + t + "\n";
        Join(head, "\n") + Wrapped(texts);
      }
    }
  }

  /** A title line, a blank line, then blank-line separated blocks. */
  lemma JoinTitledBlocks(title: string, texts: seq<string>)
    ensures Join([title, ""] + Blocks(texts), "\n") == title + "\n" + Wrapped(texts)
  {
    JoinBlocks([title, ""], texts);
    JoinTwo(title, "", "\n");
    assert title + "\n" + "" == title + "\n";
  }

  /** `"".join(parts)` */
  function Concat(parts: seq<string>): string {
    if parts == [] then "" else parts[0] + Concat(parts[1..])
  }

  lemma {:induction false} ConcatAppend(a: seq<string>, b: seq<string>)
    ensures Concat(a + b) == Concat(a) + Concat(b)
  {
    if a == [] {
      assert a + b == b;
    } else {
      assert (a + b)[1..] == a[1..] + b;
      ConcatAppend(a[1..], b);
    }
  }

  function DigitChar(d: nat): char
    requires d < 10
  {
    "0123456789"[d]
  }

  /** `str(n)` for a natural number: decimal digits without leading zeros. */
  function NatToString(n: nat): (r: string)
    ensures |r| >= 1 && forall i :: 0 <= i < |r| ==> IsDigit(r[i])
    ensures |r| > 1 ==> r[0] != '0'
  {
    if n < 10 then [DigitChar(n)] else NatToString(n / 10) + [DigitChar(n % 10)]
  }

  /** `str(i)` for any integer. */
  function IntToString(i: int): string {
    if i < 0 then "-" + NatToString(-i) else NatToString(i)
  }

  /** `str(n)` zero-padded on the left to `width` digits, as `strftime` renders fields. */
  function Pad(n: nat, width: nat): (r: string)
    ensures |r| >= width && forall i :: 0 <= i < |r| ==> IsDigit(r[i])
  {
    var s := NatToString(n);
    if |s| >= width then s else seq(width - |s|, _ => '0') + s
  }

  /** `sub in s` for strings. */
  predicate Contains(s: string, sub: string) {
    exists i | 0 <= i <= |s| - |sub| :: OccursAt(s, sub, i)
  }

  predicate OccursAt(s: string, sub: string, i: int) {
    0 <= i <= |s| - |sub| && s[i..i + |sub|] == sub
  }

  predicate StartsWith(s: string, prefix: string) {
    |prefix| <= |s| && s[..|prefix|] == prefix
  }

  predicate EndsWith(s: string, suffix: string) {
    |suffix| <= |s| && s[|s| - |suffix|..] == suffix
  }

  lemma StartsWithAppend(s: string, t: string, prefix: string)
    requires StartsWith(s, prefix)
    ensures StartsWith(s + t, prefix)
  {
    assert (s + t)[..|prefix|] == s[..|prefix|];
  }

  /** The middle of a three-part text is recovered by cutting off the outer parts. */
  lemma Between(a: string, b: string, c: string)
    ensures (a + b + c)[|a|..|a + b + c| - |c|] == b
  {
  }

  lemma EndsWithAppend(s: string, t: string)
    ensures EndsWith(s + t, t)
  {
    assert (s + t)[|s|..] == t;
  }

  /** `s.rfind(c)`: the last position of `c`, or -1. */
  function LastIndexOf(s: string, c: char): (i: int)
    ensures -1 <= i < |s|
    ensures i >= 0 ==> s[i] == c
    ensures forall j | i < j < |s| :: s[j] != c
  {
    if s == [] then -1
    else if s[|s| - 1] == c then |s| - 1
    else LastIndexOf(s[..|s| - 1], c)
  }

  /** `PurePath(name).suffix`: the name from its last dot on, unless that dot is the
      first or the last character of the name. */
  function Suffix(name: string): (r: string)
    ensures r != [] ==> |r| >= 2 && r[0] == '.' && |r| < |name| && r == name[|name| - |r|..]
    ensures r != [] ==> forall j | 1 <= j < |r| :: r[j] != '.'
  {
    var i := LastIndexOf(name, '.');
    if 0 < i < |name| - 1 then name[i..] else ""
  }

  /** A name has no suffix exactly when no dot strictly inside it is the last dot. */
  lemma SuffixEmpty(name: string)
    ensures Suffix(name) == [] <==>
              forall i | 0 < i < |name| - 1 :: name[i] != '.' || exists j | i < j < |name| :: name[j] == '.'
  {
  }

  /** `s[:n]` with Python's rule for a negative bound. */
  function Take<T>(s: seq<T>, n: int): (r: seq<T>)
    ensures |r| == if n >= 0 then (if n <= |s| then n else |s|) else (if |s| + n >= 0 then |s| + n else 0)
    ensures r == s[..|r|]
  {
    if n >= 0 then (if n <= |s| then s[..n] else s)
    else if |s| + n >= 0 then s[..|s| + n] else []
  }

  // ----- code-point ordering and `sorted(set(...))` -----

  /** Python's `a < b` on strings: lexicographic by code point. */
  predicate Less(a: string, b: string) {
    if a == [] then b != []
    else if b == [] then false
    else a[0] < b[0] || (a[0] == b[0] && Less(a[1..], b[1..]))
  }

  lemma {:induction false} LessIrreflexive(a: string)
    ensures !Less(a, a)
  {
    if a != [] { LessIrreflexive(a[1..]); }
  }

  lemma {:induction false} LessTrichotomy(a: string, b: string)
    ensures a == b || Less(a, b) || Less(b, a)
  {
    if a != [] && b != [] && a[0] == b[0] {
      LessTrichotomy(a[1..], b[1..]);
      if a[1..] == b[1..] { assert a == [a[0]] + a[1..] && b == [b[0]] + b[1..]; }
    }
  }

  lemma {:induction false} LessTransitive(a: string, b: string, c: string)
    requires Less(a, b) && Less(b, c)
    ensures Less(a, c)
  {
    if a != [] && a[0] == b[0] && b[0] == c[0] {
      LessTransitive(a[1..], b[1..], c[1..]);
    }
  }

  /** The set of elements of a list: `set(xs)`. */
  function Elems<T>(xs: seq<T>): set<T> {
    set x | x in xs
  }

  lemma ElemsAppend<T>(a: seq<T>, b: seq<T>)
    ensures Elems(a + b) == Elems(a) + Elems(b)
  {
    forall y | y in Elems(a + b) ensures y in Elems(a) + Elems(b) {
      var k :| 0 <= k < |a + b| && (a + b)[k] == y;
      if k < |a| { assert a[k] == y; } else { assert b[k - |a|] == y; }
    }
    forall y | y in Elems(a) + Elems(b) ensures y in Elems(a + b) {
      if y in Elems(a) { var k :| 0 <= k < |a| && a[k] == y; assert (a + b)[k] == y; }
      else { var k :| 0 <= k < |b| && b[k] == y; assert (a + b)[|a| + k] == y; }
    }
  }

  lemma ElemsEmpty<T>(xs: seq<T>)
    ensures Elems(xs) == {} <==> xs == []
  {
    if xs != [] { assert xs[0] in Elems(xs); }
  }

  predicate StrictlySorted(s: seq<string>) {
    forall i, j :: 0 <= i < j < |s| ==> Less(s[i], s[j])
  }

  /** Inserts `x` into a strictly sorted list unless it is already there. */
  function Insert(x: string, s: seq<string>): (r: seq<string>)
    requires StrictlySorted(s)
    ensures StrictlySorted(r)
    ensures Elems(r) == Elems(s) + {x}
    decreases |s|
  {
    if s == [] then [x]
    else if x == s[0] then s
    else if Less(x, s[0]) then
      assert forall j :: 0 < j < |s| ==> Less(x, s[j]) by {
        forall j | 0 < j < |s| ensures Less(x, s[j]) { LessTransitive(x, s[0], s[j]); }
      }
      [x] + s
    else
      LessTrichotomy(x, s[0]);
      var t := Insert(x, s[1..]);
      assert forall y :: y in t ==> Less(s[0], y) by {
        forall y | y in t ensures Less(s[0], y) {
          assert y in Elems(t);
          if y != x {
            assert y in Elems(s[1..]);
            var j :| 0 <= j < |s[1..]| && s[1..][j] == y;
            assert s[j + 1] == y;
          }
        }
      }
      assert s == [s[0]] + s[1..];
      ElemsAppend([s[0]], t);
      ElemsAppend([s[0]], s[1..]);
      [s[0]] + t
  }

  /** `sorted(set(xs))` for a list of strings. */
  function SortedSet(xs: seq<string>): (r: seq<string>)
    ensures StrictlySorted(r)
    ensures Elems(r) == Elems(xs)
  {
    if xs == [] then []
    else
      var r := Insert(xs[|xs| - 1], SortedSet(xs[..|xs| - 1]));
      assert Elems(xs) == Elems(xs[..|xs| - 1]) + {xs[|xs| - 1]} by {
        assert xs == xs[..|xs| - 1] + [xs[|xs| - 1]];
        ElemsAppend(xs[..|xs| - 1], [xs[|xs| - 1]]);
      }
      r
  }

  /** A strictly sorted list is determined by its elements, so `SortedSet` is the one
      sorted, duplicate-free arrangement of its input's elements. */
  lemma {:induction false} SortedUnique(a: seq<string>, b: seq<string>)
    requires StrictlySorted(a) && StrictlySorted(b)
    requires Elems(a) == Elems(b)
    ensures a == b
    decreases |a|
  {
    ElemsEmpty(a);
    ElemsEmpty(b);
    if a == [] || b == [] {
    } else {
      assert a[0] in Elems(b) && b[0] in Elems(a);
      if a[0] != b[0] {
        var i :| 0 <= i < |a| && a[i] == b[0];
        var j :| 0 <= j < |b| && b[j] == a[0];
        assert Less(a[0], b[0]) && Less(b[0], a[0]);
        LessTransitive(a[0], b[0], a[0]);
        LessIrreflexive(a[0]);
      }
      assert a == [a[0]] + a[1..] && b == [b[0]] + b[1..];
      ElemsAppend([a[0]], a[1..]);
      ElemsAppend([b[0]], b[1..]);
      assert a[0] !in Elems(a[1..]) by {
        if a[0] in Elems(a[1..]) { var k :| 0 <= k < |a[1..]| && a[1..][k] == a[0]; assert Less(a[0], a[k + 1]); LessIrreflexive(a[0]); }
      }
      assert b[0] !in Elems(b[1..]) by {
        if b[0] in Elems(b[1..]) { var k :| 0 <= k < |b[1..]| && b[1..][k] == b[0]; assert Less(b[0], b[k + 1]); LessIrreflexive(b[0]); }
      }
      assert Elems(a[1..]) == Elems(b[1..]);
      SortedUnique(a[1..], b[1..]);
    }
  }
}
