/** String helpers shared by the form and the server: the whitespace sets of
    JavaScript's String.prototype.trim and Python's str.strip, Python's
    str.replace with an empty replacement, str.join, str.upper on ASCII
    letters, and decimal rendering of a number. */
module Strings {

  /** Characters JavaScript's trim() removes: WhiteSpace and LineTerminator
      of ECMA-262 (section 12.2 and 12.3 of the 2023 edition). */
  const JsWhitespace: set<char> := {
    '\t', '\n', '\U{000B}', '\U{000C}', '\r', ' ', '\U{00A0}', '\U{1680}',
    '\U{2000}', '\U{2001}', '\U{2002}', '\U{2003}', '\U{2004}', '\U{2005}',
    '\U{2006}', '\U{2007}', '\U{2008}', '\U{2009}', '\U{200A}',
    '\U{2028}', '\U{2029}', '\U{202F}', '\U{205F}', '\U{3000}', '\U{FEFF}'
  }

  /** Characters for which Python's str.isspace() holds; str.strip() with no
      argument removes exactly these. Unlike JavaScript it includes the
      separators U+001C..U+001F and U+0085, and excludes U+FEFF. */
  const PyWhitespace: set<char> := {
    '\t', '\n', '\U{000B}', '\U{000C}', '\r',
    '\U{001C}', '\U{001D}', '\U{001E}', '\U{001F}', ' ', '\U{0085}', '\U{00A0}', '\U{1680}',
    '\U{2000}', '\U{2001}', '\U{2002}', '\U{2003}', '\U{2004}', '\U{2005}',
    '\U{2006}', '\U{2007}', '\U{2008}', '\U{2009}', '\U{200A}',
    '\U{2028}', '\U{2029}', '\U{202F}', '\U{205F}', '\U{3000}'
  }

  /** `s` with its leading characters from `ws` removed. */
  function TrimStart(s: string, ws: set<char>): (r: string)
    ensures |r| <= |s| && r == s[|s| - |r|..]
    ensures forall k :: 0 <= k < |s| - |r| ==> s[k] in ws
    ensures r == [] || r[0] !in ws
  {
    if s != [] && s[0] in ws then TrimStart(s[1..], ws) else s
  }

  /** `s` with its trailing characters from `ws` removed. */
  function TrimEnd(s: string, ws: set<char>): (r: string)
    ensures |r| <= |s| && r == s[..|r|]
    ensures forall k :: |r| <= k < |s| ==> s[k] in ws
    ensures r == [] || r[|r| - 1] !in ws
  {
    if s != [] && s[|s| - 1] in ws then TrimEnd(s[..|s| - 1], ws) else s
  }

  /** `s` with the whitespace `ws` removed at both ends. */
  function Trim(s: string, ws: set<char>): (r: string)
    ensures r == [] || (r[0] !in ws && r[|r| - 1] !in ws)
    ensures r == [] <==> forall k :: 0 <= k < |s| ==> s[k] in ws
  {
    var t := TrimStart(s, ws);
    var r := TrimEnd(t, ws);
    assert r != [] ==> r[0] == t[0];
    r
  }

  /** Trim cuts out one slice of `s`, and everything cut off is whitespace. */
  lemma TrimIsSlice(s: string, ws: set<char>) returns (i: nat, j: nat)
    ensures i <= j <= |s| && Trim(s, ws) == s[i..j]
    ensures forall k :: 0 <= k < i ==> s[k] in ws
    ensures forall k :: j <= k < |s| ==> s[k] in ws
  {
    var t := TrimStart(s, ws);
    i := |s| - |t|;
    j := i + |TrimEnd(t, ws)|;
    assert forall k :: j <= k < |s| ==> s[k] == t[k - i];
  }

  /** A string that neither starts nor ends with whitespace is its own
      trim. */
  lemma TrimKeeps(s: string, ws: set<char>)
    requires s != [] && s[0] !in ws && s[|s| - 1] !in ws
    ensures Trim(s, ws) == s
  {
    var t := TrimStart(s, ws);
    assert |s| - |t| == 0;
    var u := TrimEnd(t, ws);
    assert t == s;
    assert |u| == |t|;
  }

  /** JavaScript's s.trim(). */
  function JsTrim(s: string): string {
    Trim(s, JsWhitespace)
  }

  /** Python's s.strip(). */
  function PyStrip(s: string): string {
    Trim(s, PyWhitespace)
  }

  /** `p` occurs somewhere in `s` (Python's `p in s`). */
  predicate Occurs(p: string, s: string)
    decreases |s|
  {
    |p| <= |s| && (s[..|p|] == p || Occurs(p, s[1..]))
  }

  /** Python's s.replace(p, ''): deletes the non-overlapping occurrences of
      `p` found by one left-to-right scan. */
  function RemoveAll(s: string, p: string): (r: string)
    requires p != []
    ensures |r| <= |s|
    ensures r == s <==> !Occurs(p, s)
    ensures Occurs(p, s) ==> |r| + |p| <= |s|
    decreases |s|
  {
    if |s| < |p| then s
    else if s[..|p|] == p then RemoveAll(s[|p|..], p)
    else [s[0]] + RemoveAll(s[1..], p)
  }

  /** One step of the scan: a text shorter than `p` is kept. */
  lemma RemoveAllShort(s: string, p: string)
    requires p != [] && |s| < |p|
    ensures RemoveAll(s, p) == s
  {
  }

  /** One step of the scan: an occurrence at the front is dropped. */
  lemma RemoveAllHit(s: string, p: string)
    requires p != [] && |p| <= |s| && s[..|p|] == p
    ensures RemoveAll(s, p) == RemoveAll(s[|p|..], p)
  {
  }

  /** One step of the scan: a first character that starts no occurrence is
      kept. */
  lemma RemoveAllMiss(s: string, p: string)
    requires p != [] && |p| <= |s| && s[..|p|] != p
    ensures RemoveAll(s, p) == [s[0]] + RemoveAll(s[1..], p)
  {
  }

  /** The scan deletes every occurrence it reaches: text in front of an
      occurrence that holds no match of its own, even one running into the
      occurrence, is kept, the occurrence is deleted, and the scan goes on
      after it. */
  lemma {:induction false} RemoveAllSkips(a: string, p: string, b: string)
    requires p != []
    requires !Occurs(p, a + p[..|p| - 1])
    ensures RemoveAll(a + p + b, p) == a + RemoveAll(b, p)
    decreases |a|
  {
    var s := a + p + b;
    if a == [] {
      assert s[..|p|] == p && s[|p|..] == b;
    } else {
      var t := a + p[..|p| - 1];
      assert s[..|p|] == t[..|p|];
      assert t[1..] == a[1..] + p[..|p| - 1];
      assert s[1..] == a[1..] + p + b;
      RemoveAllSkips(a[1..], p, b);
      assert [s[0]] + (a[1..] + RemoveAll(b, p)) == a + RemoveAll(b, p);
    }
  }

  /** Python's sep.join(parts) and JavaScript's parts.join(sep). */
  function Join(sep: string, parts: seq<string>): string
  {
    if parts == [] then ""
    else if |parts| == 1 then parts[0]
    else parts[0] + sep + Join(sep, parts[1..])
  }

  /** Appending a part adds one separator, and only when there was a part. */
  lemma {:induction false} JoinSnoc(sep: string, parts: seq<string>, x: string)
    ensures Join(sep, parts + [x]) == if parts == [] then x else Join(sep, parts) + sep + x
  {
    if |parts| >= 2 {
      assert (parts + [x])[1..] == parts[1..] + [x];
      JoinSnoc(sep, parts[1..], x);
    } else if |parts| == 1 {
      assert (parts + [x])[1..] == [x];
    }
  }

  function TotalLength(parts: seq<string>): nat
  {
    if parts == [] then 0 else |parts[0]| + TotalLength(parts[1..])
  }

  /** A join holds the parts and exactly one separator between consecutive
      parts: its length counts |parts| - 1 separators and nothing more. */
  lemma {:induction false} JoinLength(sep: string, parts: seq<string>)
    requires parts != []
    ensures |Join(sep, parts)| == TotalLength(parts) + (|parts| - 1) * |sep|
  {
    if |parts| > 1 {
      JoinLength(sep, parts[1..]);
    }
  }

  /** A join starts with the first part and ends with the last one. */
  lemma {:induction false} JoinEnds(sep: string, parts: seq<string>)
    requires parts != []
    ensures parts[0] <= Join(sep, parts)
    ensures |parts[|parts| - 1]| <= |Join(sep, parts)|
    ensures Join(sep, parts)[|Join(sep, parts)| - |parts[|parts| - 1]|..] == parts[|parts| - 1]
  {
    if |parts| > 1 {
      JoinEnds(sep, parts[1..]);
      var j := Join(sep, parts);
      var rest := Join(sep, parts[1..]);
      assert j == parts[0] + sep + rest;
      assert j[|j| - |rest|..] == rest;
    }
  }

  /** Joining a string's characters with no separator gives the string back. */
  lemma {:induction false} JoinChars(parts: seq<string>, s: string)
    requires |parts| == |s|
    requires forall k :: 0 <= k < |s| ==> parts[k] == [s[k]]
    ensures Join("", parts) == s
    decreases |s|
  {
    if |s| == 1 {
      assert parts[0] == s;
    } else if |s| > 1 {
      JoinChars(parts[1..], s[1..]);
      assert s == [s[0]] + s[1..];
    }
  }

  /** Python's str.upper() on ASCII letters; other characters are kept. */
  function UpperChar(c: char): char {
    if 'a' <= c <= 'z' then (c as int - 32) as char else c
  }

  function Upper(s: string): (r: string)
    ensures |r| == |s|
    ensures forall k :: 0 <= k < |r| ==> !('a' <= r[k] <= 'z')
    ensures forall k :: 0 <= k < |r| ==> (r[k] == s[k] || ('a' <= s[k] <= 'z' && r[k] == s[k] - 'a' + 'A'))
  {
    seq(|s|, k requires 0 <= k < |s| => UpperChar(s[k]))
  }

  function Digit(d: nat): char
    requires d < 10
  {
    "0123456789"[d]
  }

  /** JavaScript's `${n}` for a non-negative integer: its decimal digits. */
  function Decimal(n: nat): (r: string)
    ensures r != []
    ensures forall k :: 0 <= k < |r| ==> '0' <= r[k] <= '9'
  {
    if n < 10 then [Digit(n)] else Decimal(n / 10) + [Digit(n % 10)]
  }

  /** Reads a string of decimal digits back as a number. */
  function ParseDecimal(s: string): nat
    requires forall k :: 0 <= k < |s| ==> '0' <= s[k] <= '9'
  {
    if s == [] then 0 else ParseDecimal(s[..|s| - 1]) * 10 + (s[|s| - 1] - '0') as nat
  }

  /** The decimal rendering of a number determines the number. */
  lemma {:induction false} DecimalRoundTrip(n: nat)
    ensures ParseDecimal(Decimal(n)) == n
  {
    if n >= 10 {
      var s := Decimal(n);
      assert s[..|s| - 1] == Decimal(n / 10);
      DecimalRoundTrip(n / 10);
    }
  }

  /** Concatenates f(x) for each x of s, in order. */
  function FlatMap<T>(f: T -> seq<string>, s: seq<T>): seq<string>
  {
    if s == [] then [] else f(s[0]) + FlatMap(f, s[1..])
  }

  lemma {:induction false} FlatMapSnoc<T>(f: T -> seq<string>, s: seq<T>, x: T)
    ensures FlatMap(f, s + [x]) == FlatMap(f, s) + f(x)
  {
    if s != [] {
      assert (s + [x])[1..] == s[1..] + [x];
      FlatMapSnoc(f, s[1..], x);
    }
  }
}
