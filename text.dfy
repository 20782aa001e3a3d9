/** The string operations of JavaScript that the diagram code uses:
    `split`/`join` on one character, `includes`/`indexOf`, `trim`,
    `toLowerCase` and the decimal rendering of a non-negative integer. */
module Text {
  import opened Wrappers

  // ---------------------------------------------------------------------
  // split and join on a single separator character

  /** Position of the first `c` in `s`. */
  function FirstIndex(s: string, c: char): (i: nat)
    requires c in s
    ensures i < |s| && s[i] == c && c !in s[..i]
  {
    if s[0] == c then 0
    else
      var j := FirstIndex(s[1..], c);
      assert s[..j + 1] == [s[0]] + s[1..][..j];
      j + 1
  }

  /** `s.split(sep)`: the maximal separator-free pieces between separators. */
  function Split(s: string, sep: char): (parts: seq<string>)
    ensures |parts| >= 1
    ensures forall i | 0 <= i < |parts| :: sep !in parts[i]
    decreases |s|
  {
    if sep !in s then [s]
    else
      var i := FirstIndex(s, sep);
      [s[..i]] + Split(s[i + 1..], sep)
  }

  /** `parts.join(sep)`; the empty list joins to the empty string. */
  function Join(parts: seq<string>, sep: char): string
  {
    if |parts| == 0 then ""
    else if |parts| == 1 then parts[0]
    else parts[0] + [sep] + Join(parts[1..], sep)
  }

  /** Joining the pieces of a split gives back the original string. */
  lemma {:induction false} JoinSplit(s: string, sep: char)
    ensures Join(Split(s, sep), sep) == s
    decreases |s|
  {
    if sep in s {
      var i := FirstIndex(s, sep);
      var rest := Split(s[i + 1..], sep);
      JoinSplit(s[i + 1..], sep);
      JoinCons(s[..i], rest, sep);
      assert s == s[..i] + [sep] + s[i + 1..];
    }
  }

  /** Putting one piece in front of a non-empty list puts it and a
      separator in front of the join. */
  lemma JoinCons(first: string, rest: seq<string>, sep: char)
    requires |rest| >= 1
    ensures Join([first] + rest, sep) == first + [sep] + Join(rest, sep)
  {
    assert ([first] + rest)[1..] == rest;
  }

  /** Splitting a join of separator-free pieces gives back the pieces. */
  lemma {:induction false} SplitJoin(parts: seq<string>, sep: char)
    requires |parts| >= 1
    requires forall i | 0 <= i < |parts| :: sep !in parts[i]
    ensures Split(Join(parts, sep), sep) == parts
  {
    if |parts| > 1 {
      var s := Join(parts, sep);
      var rest := Join(parts[1..], sep);
      assert s == parts[0] + [sep] + rest;
      assert s[|parts[0]|] == sep;
      assert s[..|parts[0]|] == parts[0];
      assert sep in s;
      var i := FirstIndex(s, sep);
      assert i == |parts[0]|;
      assert s[i + 1..] == rest;
      SplitJoin(parts[1..], sep);
    } else {
      assert Join(parts, sep) == parts[0];
    }
  }

  /** Appending one more piece to a non-empty list appends separator and piece. */
  lemma {:induction false} JoinSnoc(parts: seq<string>, last: string, sep: char)
    requires |parts| >= 1
    ensures Join(parts + [last], sep) == Join(parts, sep) + [sep] + last
  {
    if |parts| > 1 {
      assert (parts + [last])[1..] == parts[1..] + [last];
      JoinSnoc(parts[1..], last, sep);
    } else {
      assert (parts + [last])[1..] == [last];
    }
  }

  /** A join of at least two pieces is the join of all but the last, a
      separator and the last. */
  lemma JoinInitLast(parts: seq<string>, sep: char)
    requires |parts| >= 2
    ensures Join(parts, sep) == Join(parts[..|parts| - 1], sep) + [sep] + parts[|parts| - 1]
  {
    var init, last := parts[..|parts| - 1], parts[|parts| - 1];
    assert init + [last] == parts;
    JoinSnoc(init, last, sep);
  }

  /** A join of at least two pieces, cut after the `j`-th piece. */
  lemma {:induction false} JoinSplitAt(parts: seq<string>, j: nat, sep: char)
    requires 1 <= j < |parts|
    ensures Join(parts, sep) == Join(parts[..j], sep) + [sep] + Join(parts[j..], sep)
  {
    if j > 1 {
      JoinSplitAt(parts[1..], j - 1, sep);
      assert parts[1..][..j - 1] == parts[..j][1..];
      assert parts[1..][j - 1..] == parts[j..];
    }
  }

  /** The first piece of a join is a prefix of it. */
  lemma {:induction false} JoinStartsWithFirst(parts: seq<string>, sep: char)
    requires |parts| >= 1
    ensures |parts[0]| <= |Join(parts, sep)| && Join(parts, sep)[..|parts[0]|] == parts[0]
  {
  }

  /** A path extended by one separator-free piece splits into the pieces of
      the path followed by that piece. */
  lemma SplitSnoc(s: string, last: string, sep: char)
    requires sep !in last
    ensures Split(s + [sep] + last, sep) == Split(s, sep) + [last]
  {
    var ps := Split(s, sep);
    JoinSplit(s, sep);
    JoinSnoc(ps, last, sep);
    SplitJoin(ps + [last], sep);
  }

  // ---------------------------------------------------------------------
  // substring search

  /** `pat` occurs in `s` starting at position `i`. */
  predicate OccursAt(s: string, pat: string, i: nat)
  {
    i + |pat| <= |s| && s[i..i + |pat|] == pat
  }

  /** `s.indexOf(pat, from)`, with `None` standing for -1. */
  function IndexOf(s: string, pat: string, from: nat): (r: Option<nat>)
    ensures r.Some? ==> from <= r.value && OccursAt(s, pat, r.value)
    ensures r.Some? ==> forall j | from <= j < r.value :: !OccursAt(s, pat, j)
    ensures r.None? ==> forall j | from <= j :: !OccursAt(s, pat, j)
    decreases |s| - from
  {
    if from + |pat| > |s| then None
    else if s[from..from + |pat|] == pat then Some(from)
    else IndexOf(s, pat, from + 1)
  }

  /** `s.includes(pat)`. */
  predicate Contains(s: string, pat: string)
  {
    IndexOf(s, pat, 0).Some?
  }

  /** `s.includes(pat)` holds exactly when `pat` occurs somewhere in `s`. */
  lemma ContainsIff(s: string, pat: string, i: nat)
    requires OccursAt(s, pat, i)
    ensures Contains(s, pat)
  {
  }

  /** `s.endsWith(suffix)`. */
  predicate EndsWith(s: string, suffix: string)
  {
    |suffix| <= |s| && s[|s| - |suffix|..] == suffix
  }

  // ---------------------------------------------------------------------
  // trim

  /** The code points that `String.prototype.trim` removes: ECMAScript
      WhiteSpace (tab, vertical tab, form feed, space, no-break space, byte
      order mark and the space separators) and LineTerminator. */
  predicate IsSpace(c: char)
  {
    || c == '\t' || c == '\n' || c == '\U{000B}' || c == '\U{000C}' || c == '\r'
    || c == ' ' || c == '\U{00A0}' || c == '\U{1680}'
    || ('\U{2000}' <= c <= '\U{200A}')
    || c == '\U{2028}' || c == '\U{2029}' || c == '\U{202F}' || c == '\U{205F}'
    || c == '\U{3000}' || c == '\U{FEFF}'
  }

  function TrimStart(s: string): (r: string)
    ensures |r| <= |s| && r == s[|s| - |r|..]
    ensures forall k | 0 <= k < |s| - |r| :: IsSpace(s[k])
    ensures r != [] ==> !IsSpace(r[0])
  {
    if s != [] && IsSpace(s[0]) then TrimStart(s[1..]) else s
  }

  function TrimEnd(s: string): (r: string)
    ensures |r| <= |s| && r == s[..|r|]
    ensures forall k | |r| <= k < |s| :: IsSpace(s[k])
    ensures r != [] ==> !IsSpace(r[|r| - 1])
  {
    if s != [] && IsSpace(s[|s| - 1]) then TrimEnd(s[..|s| - 1]) else s
  }

  /** `r` sits at `i` in `s` with only white space before and after it. */
  predicate TrimmedAt(s: string, r: string, i: nat)
  {
    && i + |r| <= |s| && s[i..i + |r|] == r
    && (forall k | 0 <= k < i :: IsSpace(s[k]))
    && (forall k | i + |r| <= k < |s| :: IsSpace(s[k]))
  }

  /** `s.trim()`: `s` without its leading and trailing white space. */
  function Trim(s: string): (r: string)
    ensures Contains(s, r)
    ensures exists i :: TrimmedAt(s, r, i)
    ensures r != [] ==> !IsSpace(r[0]) && !IsSpace(r[|r| - 1])
    ensures r == [] <==> forall k | 0 <= k < |s| :: IsSpace(s[k])
  {
    var a := TrimStart(s);
    var r := TrimEnd(a);
    SuffixPrefix(s, a, r);
    ContainsIff(s, r, |s| - |a|);
    TrimmedBetween(s, a, r);
    if r == [] then AllSpace(s, a); r else r
  }

  /** What the two passes keep sits where the first one stopped, with only
      white space around it. */
  lemma TrimmedBetween(s: string, a: string, r: string)
    requires |a| <= |s| && a == s[|s| - |a|..] && forall k | 0 <= k < |s| - |a| :: IsSpace(s[k])
    requires |r| <= |a| && r == a[..|r|] && forall k | |r| <= k < |a| :: IsSpace(a[k])
    requires OccursAt(s, r, |s| - |a|)
    ensures TrimmedAt(s, r, |s| - |a|)
  {
    var i := |s| - |a|;
    forall k | i + |r| <= k < |s| ensures IsSpace(s[k]) {
      assert s[k] == a[k - i];
    }
  }

  /** A prefix of a suffix of `s` occurs in `s` where the suffix starts. */
  lemma SuffixPrefix(s: string, a: string, r: string)
    requires |a| <= |s| && a == s[|s| - |a|..]
    requires |r| <= |a| && r == a[..|r|]
    ensures OccursAt(s, r, |s| - |a|)
  {
    var i := |s| - |a|;
    assert s[i..][..|r|] == s[i..i + |r|];
  }

  /** When a suffix of `s` and everything before it is white space, so is
      all of `s`. */
  lemma AllSpace(s: string, a: string)
    requires |a| <= |s| && a == s[|s| - |a|..] && forall k | 0 <= k < |s| - |a| :: IsSpace(s[k])
    requires forall k | 0 <= k < |a| :: IsSpace(a[k])
    ensures forall k | 0 <= k < |s| :: IsSpace(s[k])
  {
    var i := |s| - |a|;
    forall k | i <= k < |s| ensures IsSpace(s[k]) {
      assert s[k] == a[k - i];
    }
  }

  /** Trimming twice is trimming once. */
  lemma TrimIdempotent(s: string)
    ensures Trim(Trim(s)) == Trim(s)
  {
    var r := Trim(s);
    assert r != [] ==> TrimStart(r) == r;
    assert r != [] ==> TrimEnd(r) == r;
  }

  // ---------------------------------------------------------------------
  // toLowerCase

  function LowerChar(c: char): char
  {
    if 'A' <= c <= 'Z' then (c as int + 32) as char else c
  }

  /** `s.toLowerCase()` restricted to the ASCII letters. */
  function Lower(s: string): (r: string)
    ensures |r| == |s|
    ensures forall i | 0 <= i < |s| :: r[i] == LowerChar(s[i])
  {
    if s == [] then [] else [LowerChar(s[0])] + Lower(s[1..])
  }

  /** Lower-casing is idempotent and leaves no upper-case ASCII letter. */
  lemma LowerIdempotent(s: string)
    ensures Lower(Lower(s)) == Lower(s)
    ensures forall i | 0 <= i < |s| :: !('A' <= Lower(s)[i] <= 'Z')
  {
    var r := Lower(s);
    forall i | 0 <= i < |s| ensures !('A' <= r[i] <= 'Z') && LowerChar(r[i]) == r[i] {
      LowerCharLower(s[i]);
    }
    assert Lower(r) == r;
  }

  /** A lower-cased character is no upper-case ASCII letter. */
  lemma LowerCharLower(c: char)
    ensures !('A' <= LowerChar(c) <= 'Z') && LowerChar(LowerChar(c)) == LowerChar(c)
  {
  }

  // ---------------------------------------------------------------------
  // decimal rendering of a non-negative integer (`${n}` / `n + ''`)

  function DigitChar(d: nat): (c: char)
    requires d < 10
    ensures '0' <= c <= '9'
  {
    ('0' as int + d) as char
  }

  function DigitValue(c: char): nat
    requires '0' <= c <= '9'
  {
    c as int - '0' as int
  }

  /** The decimal numeral of `n`, without sign or leading zero. */
  function Decimal(n: nat): (s: string)
    ensures |s| >= 1
    ensures forall i | 0 <= i < |s| :: '0' <= s[i] <= '9'
    ensures |s| > 1 ==> s[0] != '0'
  {
    if n < 10 then [DigitChar(n)] else Decimal(n / 10) + [DigitChar(n % 10)]
  }

  /** The number a string of decimal digits denotes. */
  function DecimalValue(s: string): nat
    requires forall i | 0 <= i < |s| :: '0' <= s[i] <= '9'
  {
    if s == [] then 0 else DecimalValue(s[..|s| - 1]) * 10 + DigitValue(s[|s| - 1])
  }

  /** Reading back a rendered numeral gives the number. */
  lemma {:induction false} DecimalRoundTrip(n: nat)
    ensures DecimalValue(Decimal(n)) == n
  {
    if n >= 10 {
      var s := Decimal(n);
      assert s[..|s| - 1] == Decimal(n / 10);
      DecimalRoundTrip(n / 10);
    }
  }

  /** Distinct numbers render as distinct numerals. */
  lemma DecimalInjective(m: nat, n: nat)
    requires Decimal(m) == Decimal(n)
    ensures m == n
  {
    DecimalRoundTrip(m);
    DecimalRoundTrip(n);
  }
}
