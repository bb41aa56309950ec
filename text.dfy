/**
 * The handful of Python `str` operations the scripts rely on, over `seq<char>`:
 * `str.strip`, `str.startswith`, the `in` substring test, `str.split` / `str.join`
 * with a separator, `str.isdigit`-style digit runs, decimal rendering and ASCII `lower`.
 */
module Text {
  import opened Wrappers

  // ---------------------------------------------------------------------------
  // Whitespace and strip

  /** The characters for which Python's `str.isspace()` is true. */
  predicate IsSpace(c: char) {
    c == ' ' || ('\t' <= c <= '\r') || ('\U{1C}' <= c <= '\U{1F}')
    || c == '\U{85}' || c == '\U{A0}' || c == '\U{1680}'
    || ('\U{2000}' <= c <= '\U{200A}') || c == '\U{2028}' || c == '\U{2029}'
    || c == '\U{202F}' || c == '\U{205F}' || c == '\U{3000}'
  }

  /** Number of whitespace characters at the front of `s`. */
  function LeadingSpaces(s: string): (n: nat)
    ensures n <= |s|
    ensures forall k :: 0 <= k < n ==> IsSpace(s[k])
    ensures n < |s| ==> !IsSpace(s[n])
  {
    if |s| == 0 || !IsSpace(s[0]) then 0 else 1 + LeadingSpaces(s[1..])
  }

  /** Length of `s` once its trailing whitespace is removed. */
  function TrailingCut(s: string): (n: nat)
    ensures n <= |s|
    ensures forall k :: n <= k < |s| ==> IsSpace(s[k])
    ensures n > 0 ==> !IsSpace(s[n - 1])
  {
    if |s| == 0 || !IsSpace(s[|s| - 1]) then |s| else TrailingCut(s[..|s| - 1])
  }

  /** Python's `s.strip()`: `s` without its leading and trailing whitespace. */
  function Strip(s: string): (r: string)
    ensures LeadingSpaces(s) + |r| <= |s|
    ensures r == s[LeadingSpaces(s)..LeadingSpaces(s) + |r|]
    ensures r == "" || (!IsSpace(r[0]) && !IsSpace(r[|r| - 1]))
    ensures forall k :: LeadingSpaces(s) + |r| <= k < |s| ==> IsSpace(s[k])
  {
    var i := LeadingSpaces(s);
    var t := s[i..];
    var j := TrailingCut(t);
    forall k | i + j <= k < |s|
      ensures IsSpace(s[k])
    {
      assert s[k] == t[k - i];
    }
    s[i..i + j]
  }

  /** Stripping is idempotent, so a stripped line stays the same when stripped again. */
  lemma StripIdempotent(s: string)
    ensures Strip(Strip(s)) == Strip(s)
  {
    var r := Strip(s);
    assert LeadingSpaces(r) == 0;
    assert TrailingCut(r) == |r|;
  }

  // ---------------------------------------------------------------------------
  // Prefixes and substrings

  /** Python's `s.startswith(p)`. */
  predicate StartsWith(s: string, p: string) {
    |p| <= |s| && s[..|p|] == p
  }

  /** `p` occurs in `s` at position `i`. */
  predicate OccursAt(s: string, p: string, i: int) {
    0 <= i && i + |p| <= |s| && s[i..i + |p|] == p
  }

  /** Position of the first occurrence of `p` in `s` at or after `from` (Python's `s.find(p, from)`). */
  function IndexFrom(s: string, p: string, from: nat): (r: Option<nat>)
    decreases |s| - from
    ensures r.Some? ==> from <= r.value && OccursAt(s, p, r.value)
    ensures r.Some? ==> forall j :: from <= j < r.value ==> !OccursAt(s, p, j)
    ensures r.None? ==> forall j :: from <= j ==> !OccursAt(s, p, j)
  {
    if from + |p| > |s| then None
    else if s[from..from + |p|] == p then Some(from)
    else IndexFrom(s, p, from + 1)
  }

  /** Python's `p in s`. */
  predicate Contains(s: string, p: string) {
    IndexFrom(s, p, 0).Some?
  }

  /** `p in s` holds exactly when `p` occurs somewhere in `s`. */
  lemma ContainsIff(s: string, p: string)
    ensures Contains(s, p) <==> exists i :: OccursAt(s, p, i)
  {
    if Contains(s, p) {
      assert OccursAt(s, p, IndexFrom(s, p, 0).value);
    }
  }

  /** A single character is `in` a string exactly when it is one of its elements. */
  lemma ContainsChar(s: string, c: char)
    ensures Contains(s, [c]) <==> c in s
  {
    if c in s {
      var i :| 0 <= i < |s| && s[i] == c;
      assert OccursAt(s, [c], i);
    }
    if Contains(s, [c]) {
      var i := IndexFrom(s, [c], 0).value;
      assert s[i..i + 1] == [c];
      assert s[i] == c;
    }
  }

  // ---------------------------------------------------------------------------
  // split and join

  /** Python's `s.split(sep)` for a non-empty separator. */
  function Split(s: string, sep: string): (parts: seq<string>)
    requires sep != []
    decreases |s|
    ensures |parts| >= 1
    ensures forall k :: 0 <= k < |parts| ==> !Contains(parts[k], sep)
  {
    match IndexFrom(s, sep, 0)
    case None => [s]
    case Some(i) =>
      assert !Contains(s[..i], sep) by {
        if Contains(s[..i], sep) {
          var j := IndexFrom(s[..i], sep, 0).value;
          assert s[j..j + |sep|] == s[..i][j..j + |sep|];
          assert OccursAt(s, sep, j);
        }
      }
      [s[..i]] + Split(s[i + |sep|..], sep)
  }

  /** Python's `sep.join(parts)`. */
  function Join(sep: string, parts: seq<string>): string {
    if |parts| == 0 then ""
    else if |parts| == 1 then parts[0]
    else parts[0] + sep + Join(sep, parts[1..])
  }

  /** Joining the pieces of a split with the same separator gives back the string. */
  lemma {:induction false} JoinSplit(s: string, sep: string)
    requires sep != []
    decreases |s|
    ensures Join(sep, Split(s, sep)) == s
  {
    match IndexFrom(s, sep, 0)
    case None =>
    case Some(i) =>
      var rest := s[i + |sep|..];
      var parts := Split(rest, sep);
      JoinSplit(rest, sep);
      assert Split(s, sep) == [s[..i]] + parts;
      assert ([s[..i]] + parts)[1..] == parts;
      assert Join(sep, [s[..i]] + parts) == s[..i] + sep + Join(sep, parts);
      assert s == s[..i] + sep + rest;
  }

  /** The separator occurs in `s` exactly when the split yields more than one piece. */
  lemma SplitCount(s: string, sep: string)
    requires sep != []
    ensures |Split(s, sep)| > 1 <==> Contains(s, sep)
  {
  }

  /**
   * In `p + sep`, the first occurrence of `sep` is the appended one: no occurrence starts inside
   * `p`, neither within it nor across its end.
   */
  predicate EndsBeforeSep(p: string, sep: string) {
    forall j :: 0 <= j < |p| ==> !OccursAt(p + sep, sep, j)
  }

  /** A piece that holds no separator and does not end in one of its characters ends before it. */
  lemma EndsBeforeSepWhen(p: string, sep: string)
    requires !Contains(p, sep)
    requires p == [] || p[|p| - 1] !in sep
    ensures EndsBeforeSep(p, sep)
  {
    forall j | 0 <= j < |p| ensures !OccursAt(p + sep, sep, j) {
      if j + |sep| <= |p| {
        assert (p + sep)[j..j + |sep|] == p[j..j + |sep|];
        assert !OccursAt(p, sep, j);
      } else {
        // the window would put the last character of `p` at position |p| - 1 - j of `sep`
        assert (p + sep)[|p| - 1] == p[|p| - 1];
      }
    }
  }

  /**
   * Splitting a join gives back the pieces exactly when no occurrence of the separator starts
   * anywhere but at the joints: every piece but the last ends before the separator that follows
   * it, and the last piece holds no separator.
   */
  lemma {:induction false} SplitJoin(sep: string, parts: seq<string>)
    requires sep != [] && |parts| >= 1
    requires forall k :: 0 <= k < |parts| - 1 ==> EndsBeforeSep(parts[k], sep)
    requires !Contains(parts[|parts| - 1], sep)
    decreases |parts|
    ensures Split(Join(sep, parts), sep) == parts
  {
    var p := parts[0];
    if |parts| > 1 {
      var rest := Join(sep, parts[1..]);
      var s := p + sep + rest;
      assert Join(sep, parts) == s;
      assert OccursAt(s, sep, |p|) by {
        assert s[|p|..|p| + |sep|] == sep;
      }
      assert EndsBeforeSep(p, sep);
      forall j | 0 <= j < |p| ensures !OccursAt(s, sep, j) {
        assert s[..|p| + |sep|] == p + sep;
        assert s[j..j + |sep|] == (p + sep)[j..j + |sep|];
        assert !OccursAt(p + sep, sep, j);
      }
      assert IndexFrom(s, sep, 0) == Some(|p|);
      assert s[|p| + |sep|..] == rest;
      assert s[..|p|] == p;
      assert Split(s, sep) == [p] + Split(rest, sep);
      assert parts[1..][|parts[1..]| - 1] == parts[|parts| - 1];
      SplitJoin(sep, parts[1..]);
      assert parts == [p] + parts[1..];
    }
  }

  /** Joining all but the last piece: every piece but the last, re-joined. */
  lemma {:induction false} JoinSnoc(sep: string, parts: seq<string>, last: string)
    requires |parts| >= 1
    ensures Join(sep, parts + [last]) == Join(sep, parts) + sep + last
  {
    if |parts| == 1 {
      assert parts + [last] == [parts[0], last];
    } else {
      assert (parts + [last])[1..] == parts[1..] + [last];
      JoinSnoc(sep, parts[1..], last);
    }
  }

  /** A string holding the separator is its split's pieces but the last, re-joined, the separator, and the last piece. */
  lemma SplitLast(s: string, sep: string)
    requires sep != [] && Contains(s, sep)
    ensures var parts := Split(s, sep);
      && |parts| >= 2
      && !Contains(parts[|parts| - 1], sep)
      && Join(sep, parts[..|parts| - 1]) + sep + parts[|parts| - 1] == s
  {
    var parts := Split(s, sep);
    SplitCount(s, sep);
    JoinSplit(s, sep);
    var init, last := parts[..|parts| - 1], parts[|parts| - 1];
    assert init + [last] == parts;
    JoinSnoc(sep, init, last);
  }

  // ---------------------------------------------------------------------------
  // Digits and decimal numbers

  predicate IsDigit(c: char) {
    '0' <= c <= '9'
  }

  /** `c` is in the regular-expression class `[a-zA-Z0-9]`. */
  predicate IsAsciiAlnum(c: char) {
    ('a' <= c <= 'z') || ('A' <= c <= 'Z') || IsDigit(c)
  }

  /** A non-empty run of ASCII decimal digits. */
  predicate IsDecimal(s: string) {
    |s| > 0 && forall k :: 0 <= k < |s| ==> IsDigit(s[k])
  }

  /** The value of a string of ASCII digits, most significant first. */
  function DecimalValue(s: string): nat
    requires forall k :: 0 <= k < |s| ==> IsDigit(s[k])
  {
    if |s| == 0 then 0
    else
      assert IsDigit(s[|s| - 1]);
      10 * DecimalValue(s[..|s| - 1]) + (s[|s| - 1] as int - '0' as int)
  }

  /** Python's `str(n)` for a natural number. */
  function NatToString(n: nat): (r: string)
    ensures IsDecimal(r)
    ensures |r| > 1 ==> r[0] != '0'
  {
    if n < 10 then [('0' as int + n) as char]
    else NatToString(n / 10) + [('0' as int + n % 10) as char]
  }

  /** Reading back a rendered number gives the number. */
  lemma {:induction false} DecimalRoundTrip(n: nat)
    ensures DecimalValue(NatToString(n)) == n
  {
    if n >= 10 {
      DecimalRoundTrip(n / 10);
      var r := NatToString(n);
      assert r[..|r| - 1] == NatToString(n / 10);
    }
  }

  // ---------------------------------------------------------------------------
  // Case

  /** ASCII lower-casing of one character. */
  function LowerChar(c: char): char {
    if 'A' <= c <= 'Z' then (c as int + 32) as char else c
  }

  /** Python's `s.lower()` restricted to ASCII letters. */
  function Lower(s: string): (r: string)
    ensures |r| == |s|
    ensures forall k :: 0 <= k < |s| ==> r[k] == LowerChar(s[k])
  {
    if |s| == 0 then "" else [LowerChar(s[0])] + Lower(s[1..])
  }
}
