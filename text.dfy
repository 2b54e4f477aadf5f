/**
 * Strings with the semantics of the Python operations the system applies to
 * them: `str.isspace`, `str.strip`, `str.rfind`, `str.find`, `str.split(sep)`,
 * `sep.join`, `str.lower`, `str(n)` for a natural number, slicing `s[:k]` and
 * `s[i:j]` (negative bounds included), `str.split()[0]`, and `<=` on strings.
 */
module Text {
  import opened Wrappers

  // ---------------------------------------------------------------- whitespace

  /** Python's `str.isspace()` on one character. */
  predicate IsSpace(c: char)
  {
    var n := c as int;
    n == 0x20 || 0x09 <= n <= 0x0D || 0x1C <= n <= 0x1F || n == 0x85 || n == 0xA0 ||
    n == 0x1680 || 0x2000 <= n <= 0x200A || n == 0x2028 || n == 0x2029 ||
    n == 0x202F || n == 0x205F || n == 0x3000
  }

  /** Every character is whitespace: Python's `not s.strip()`. */
  predicate IsBlank(s: string)
  {
    forall i :: 0 <= i < |s| ==> IsSpace(s[i])
  }

  /** No whitespace at either end. */
  predicate IsTrimmed(s: string)
  {
    s == [] || (!IsSpace(s[0]) && !IsSpace(s[|s| - 1]))
  }

  /** Length of the run of whitespace that starts `s`. */
  function LeadingSpaces(s: string): (n: nat)
    ensures n <= |s|
    ensures forall i :: 0 <= i < n ==> IsSpace(s[i])
    ensures n < |s| ==> !IsSpace(s[n])
  {
    if s == [] || !IsSpace(s[0]) then 0 else 1 + LeadingSpaces(s[1..])
  }

  /** Length of the run of whitespace that ends `s`. */
  function TrailingSpaces(s: string): (n: nat)
    ensures n <= |s|
    ensures forall i :: |s| - n <= i < |s| ==> IsSpace(s[i])
    ensures n < |s| ==> !IsSpace(s[|s| - 1 - n])
  {
    if s == [] || !IsSpace(s[|s| - 1]) then 0 else 1 + TrailingSpaces(s[..|s| - 1])
  }

  /**
   * Python's `s.strip()`: the slice of `s` left once the leading and trailing
   * whitespace is cut off.
   */
  function Strip(s: string): (r: string)
    ensures IsTrimmed(r)
    ensures LeadingSpaces(s) + |r| <= |s|
    ensures r == s[LeadingSpaces(s)..LeadingSpaces(s) + |r|]
    ensures IsBlank(s[..LeadingSpaces(s)]) && IsBlank(s[LeadingSpaces(s) + |r|..])
    ensures r == [] <==> IsBlank(s)
  {
    var t := s[LeadingSpaces(s)..];
    t[..|t| - TrailingSpaces(t)]
  }

  /** Stripping a trimmed string leaves it as it is, so `Strip` is idempotent. */
  lemma StripTrimmed(s: string)
    requires IsTrimmed(s)
    ensures Strip(s) == s
  {
    if s != [] {
      assert LeadingSpaces(s) == 0;
      assert TrailingSpaces(s) == 0;
    }
  }

  // ---------------------------------------------------------------- searching

  /** Python's `s.rfind(c)`: the last index holding `c`, or -1. */
  function RFind(s: string, c: char): (r: int)
    ensures -1 <= r < |s|
    ensures r >= 0 ==> s[r] == c
    ensures forall j :: r < j < |s| ==> s[j] != c
    ensures r == -1 <==> c !in s
  {
    if s == [] then -1
    else if s[|s| - 1] == c then |s| - 1
    else
      assert s == s[..|s| - 1] + [s[|s| - 1]];
      RFind(s[..|s| - 1], c)
  }

  /** Characters other than `c` appended to a string do not move its last `c`. */
  lemma {:induction false} RFindSkips(t: string, c: char, d: string)
    requires forall k :: 0 <= k < |d| ==> d[k] != c
    ensures RFind(t + d, c) == RFind(t, c)
  {
    if d == [] {
      assert t + d == t;
    } else {
      var n := |d| - 1;
      assert (t + d)[|t + d| - 1] == d[n];
      assert (t + d)[..|t + d| - 1] == t + d[..n];
      RFindSkips(t, c, d[..n]);
    }
  }

  /** In `s + [c] + d`, where `d` holds no `c`, the last `c` is the one after `s`. */
  lemma RFindJoint(s: string, c: char, d: string)
    requires forall k :: 0 <= k < |d| ==> d[k] != c
    ensures RFind(s + [c] + d, c) == |s|
  {
    RFindSkips(s + [c], c, d);
  }

  /** `sep` occurs in `s` starting at index `j`. */
  predicate OccursAt(s: string, sep: string, j: int)
  {
    0 <= j && j + |sep| <= |s| && s[j..j + |sep|] == sep
  }

  /** Python's `s.find(sep, i)`: the first occurrence of `sep` at or after `i`, or -1. */
  function FindFrom(s: string, sep: string, i: nat): (r: int)
    requires i <= |s|
    ensures r == -1 || (i <= r && OccursAt(s, sep, r))
    ensures forall j :: i <= j && (r == -1 || j < r) ==> !OccursAt(s, sep, j)
    decreases |s| - i
  {
    if i + |sep| > |s| then -1
    else if s[i..i + |sep|] == sep then i
    else FindFrom(s, sep, i + 1)
  }

  /**
   * Python's `s.split(sep)` for a non-empty separator: the pieces between the
   * leftmost non-overlapping occurrences of `sep`.
   */
  function SplitOn(s: string, sep: string): (r: seq<string>)
    requires sep != []
    ensures |r| >= 1
    decreases |s|
  {
    var i := FindFrom(s, sep, 0);
    if i < 0 then [s] else [s[..i]] + SplitOn(s[i + |sep|..], sep)
  }

  /** No piece of a split holds the separator. */
  lemma {:induction false} SplitOnPiecesFree(s: string, sep: string)
    requires sep != []
    ensures forall k, j :: 0 <= k < |SplitOn(s, sep)| ==> !OccursAt(SplitOn(s, sep)[k], sep, j)
    decreases |s|
  {
    var i := FindFrom(s, sep, 0);
    if i >= 0 {
      var piece := s[..i];
      var rest := s[i + |sep|..];
      forall j | OccursAt(piece, sep, j) ensures false {
        assert s[j..j + |sep|] == piece[j..j + |sep|];
        assert OccursAt(s, sep, j);
      }
      SplitOnPiecesFree(rest, sep);
      var r := SplitOn(s, sep);
      assert r == [piece] + SplitOn(rest, sep);
      forall k, j | 0 <= k < |r| ensures !OccursAt(r[k], sep, j) {
        if k > 0 {
          assert r[k] == SplitOn(rest, sep)[k - 1];
        }
      }
    }
  }

  /** Python's `sep.join(parts)`. */
  function Join(parts: seq<string>, sep: string): string
  {
    if parts == [] then []
    else if |parts| == 1 then parts[0]
    else parts[0] + sep + Join(parts[1..], sep)
  }

  /** Every part occurs in the joined text. */
  lemma {:induction false} JoinHolds(parts: seq<string>, sep: string, i: nat)
    requires i < |parts|
    ensures exists p :: OccursAt(Join(parts, sep), parts[i], p)
  {
    var t := Join(parts, sep);
    if i == 0 {
      assert t[..|parts[0]|] == parts[0];
      assert OccursAt(t, parts[0], 0);
    } else {
      JoinHolds(parts[1..], sep, i - 1);
      var rest := Join(parts[1..], sep);
      var p :| OccursAt(rest, parts[1..][i - 1], p);
      var a := parts[0] + sep;
      assert t == a + rest;
      assert t[|a| + p..|a| + p + |parts[i]|] == rest[p..p + |parts[i]|];
      assert OccursAt(t, parts[i], |a| + p);
    }
  }

  /** Splitting on a separator and joining back with it gives the text back. */
  lemma {:induction false} SplitJoin(s: string, sep: string)
    requires sep != []
    ensures Join(SplitOn(s, sep), sep) == s
    decreases |s|
  {
    var i := FindFrom(s, sep, 0);
    if i < 0 {
      assert SplitOn(s, sep) == [s];
    } else {
      SplitJoin(s[i + |sep|..], sep);
      SplitJoinStep(s, sep, i);
    }
  }

  /** The step of `SplitJoin` at the first separator, given the rest rejoins. */
  lemma SplitJoinStep(s: string, sep: string, i: int)
    requires sep != [] && 0 <= i && i == FindFrom(s, sep, 0)
    requires Join(SplitOn(s[i + |sep|..], sep), sep) == s[i + |sep|..]
    ensures Join(SplitOn(s, sep), sep) == s
  {
    var tail := SplitOn(s[i + |sep|..], sep);
    assert SplitOn(s, sep) == [s[..i]] + tail;
    Glue(s, sep, i, tail);
  }

  /** Putting back the separator found at `i` between the piece before it and the joined rest. */
  lemma Glue(s: string, sep: string, i: int, tail: seq<string>)
    requires OccursAt(s, sep, i) && |tail| >= 1 && Join(tail, sep) == s[i + |sep|..]
    ensures Join([s[..i]] + tail, sep) == s
  {
    JoinCons(s[..i], tail, sep);
    Reassemble(s, i, |sep|);
  }

  lemma JoinCons(p: string, tail: seq<string>, sep: string)
    requires |tail| >= 1
    ensures Join([p] + tail, sep) == p + sep + Join(tail, sep)
  {
    assert ([p] + tail)[1..] == tail;
  }

  lemma Reassemble(s: string, i: nat, n: nat)
    requires i + n <= |s|
    ensures s == s[..i] + s[i..i + n] + s[i + n..]
  {
  }

  // ---------------------------------------------------------------- case, numbers, slices

  /** Python's `c.lower()` on the ASCII letters; every other character is left as it is. */
  function LowerChar(c: char): char
  {
    if 'A' <= c <= 'Z' then (c as int + 32) as char else c
  }

  /** `s.lower()`, character by character. */
  function Lower(s: string): (r: string)
    ensures |r| == |s|
    ensures forall i :: 0 <= i < |s| ==> r[i] == LowerChar(s[i])
  {
    seq(|s|, i requires 0 <= i < |s| => LowerChar(s[i]))
  }

  /** `str(n)` for a natural number: its decimal digits, most significant first. */
  function NatToString(n: nat): (r: string)
    ensures |r| >= 1
    ensures forall i :: 0 <= i < |r| ==> '0' <= r[i] <= '9'
    ensures n >= 10 <==> |r| >= 2
    decreases n
  {
    if n < 10 then [('0' as int + n) as char]
    else NatToString(n / 10) + [('0' as int + n % 10) as char]
  }

  /** Distinct numbers have distinct decimal spellings. */
  lemma {:induction false} NatToStringInjective(a: nat, b: nat)
    requires NatToString(a) == NatToString(b)
    ensures a == b
    decreases a
  {
    var s := NatToString(a);
    if a >= 10 {
      assert b >= 10;
      assert NatToString(a / 10) == s[..|s| - 1] == NatToString(b / 10);
      NatToStringInjective(a / 10, b / 10);
      assert a % 10 == b % 10;
    }
  }

  /** Python's `s[:k]` for any integer `k`. */
  function PyPrefix<T>(s: seq<T>, k: int): (r: seq<T>)
    ensures |r| <= |s|
    ensures 0 <= k ==> |r| <= k
    ensures k >= |s| ==> r == s
    ensures r == s[..|r|]
  {
    if k >= |s| then s
    else if k >= 0 then s[..k]
    else if |s| + k >= 0 then s[..|s| + k]
    else []
  }

  /** Where Python places slice bound `i` within a sequence of length `n`. */
  function SliceBound(i: int, n: nat): (k: nat)
    ensures k <= n
    ensures 0 <= i <= n ==> k == i
  {
    if i < 0 then (if n + i < 0 then 0 else n + i) else if i > n then n else i
  }

  /** Python's `s[i:j]` for any integers `i`, `j`. */
  function PySlice(s: string, i: int, j: int): (r: string)
    ensures 0 <= i <= j <= |s| ==> r == s[i..j]
    ensures i <= j ==> |r| <= j - i
  {
    var lo, hi := SliceBound(i, |s|), SliceBound(j, |s|);
    if lo < hi then s[lo..hi] else []
  }

  // ---------------------------------------------------------------- words

  /** Length of the run of non-whitespace characters that starts `s`. */
  function WordLength(s: string): (n: nat)
    ensures n <= |s|
    ensures forall i :: 0 <= i < n ==> !IsSpace(s[i])
    ensures n < |s| ==> IsSpace(s[n])
  {
    if s == [] || IsSpace(s[0]) then 0 else 1 + WordLength(s[1..])
  }

  /**
   * Python's `s.split()[0]`: the first whitespace-separated word, or `None`
   * where Python raises `IndexError` because `s` is blank.
   */
  function FirstWord(s: string): (r: Option<string>)
    ensures r.None? <==> IsBlank(s)
    ensures r.Some? ==> r.value != [] && (forall i :: 0 <= i < |r.value| ==> !IsSpace(r.value[i]))
    ensures r.Some? ==> var n := LeadingSpaces(s);
      n + |r.value| <= |s| && s[n..n + |r.value|] == r.value && (n + |r.value| == |s| || IsSpace(s[n + |r.value|]))
  {
    var n := LeadingSpaces(s);
    if n == |s| then None else Some(s[n..][..WordLength(s[n..])])
  }

  // ---------------------------------------------------------------- order

  /** Python's `a <= b` on strings: lexicographic order on code points. */
  predicate StrLe(a: string, b: string)
  {
    a == [] || (b != [] && (a[0] < b[0] || (a[0] == b[0] && StrLe(a[1..], b[1..]))))
  }

  lemma {:induction false} StrLeTotal(a: string, b: string)
    ensures StrLe(a, b) || StrLe(b, a)
    decreases |a|
  {
    if a != [] && b != [] && a[0] == b[0] {
      StrLeTotal(a[1..], b[1..]);
    }
  }

  lemma {:induction false} StrLeTransitive(a: string, b: string, c: string)
    requires StrLe(a, b) && StrLe(b, c)
    ensures StrLe(a, c)
    decreases |a|
  {
    if a != [] && a[0] == b[0] && b[0] == c[0] {
      StrLeTransitive(a[1..], b[1..], c[1..]);
    }
  }

  // ---------------------------------------------------------------- membership

  /** Some character of `s` is one of `chars`: Python's `any(c in s for c in chars)`. */
  predicate ContainsAny(s: string, chars: string)
  {
    exists i :: 0 <= i < |s| && s[i] in chars
  }
}
