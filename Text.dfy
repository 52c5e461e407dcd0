/** The string operations the modelled code relies on: Python's `upper`,
    `lower`, `strip`, `replace`, `join` and substring search, restricted to
    ASCII case mapping and ASCII whitespace. */
module Text {
  import opened Wrappers

  /** The ASCII characters for which Python's `str.isspace` holds; the regex
      class `\s` matches the same ones. */
  predicate IsSpace(c: char) {
    c == ' ' || 9 <= c as int <= 13 || 28 <= c as int <= 31
  }

  predicate IsLowerLetter(c: char) {
    'a' <= c <= 'z'
  }

  predicate IsUpperLetter(c: char) {
    'A' <= c <= 'Z'
  }

  function UpperChar(c: char): char {
    if IsLowerLetter(c) then (c as int - 32) as char else c
  }

  function LowerChar(c: char): char {
    if IsUpperLetter(c) then (c as int + 32) as char else c
  }

  /** `s.upper()` */
  function Upper(s: string): string {
    seq(|s|, i requires 0 <= i < |s| => UpperChar(s[i]))
  }

  /** `s.lower()` */
  function Lower(s: string): string {
    seq(|s|, i requires 0 <= i < |s| => LowerChar(s[i]))
  }

  /** Two characters are equal or the same ASCII letter in the two cases;
      stated on code points, without Upper. */
  predicate SameIgnoringCase(a: char, b: char) {
    a == b
    || (IsLowerLetter(a) && b as int == a as int - 32)
    || (IsLowerLetter(b) && a as int == b as int - 32)
  }

  predicate EqualIgnoringCase(a: string, b: string) {
    |a| == |b| && forall i :: 0 <= i < |a| ==> SameIgnoringCase(a[i], b[i])
  }

  /** Comparing upper-cased strings is exactly case-insensitive comparison. */
  lemma UpperEqualIff(a: string, b: string)
    ensures Upper(a) == Upper(b) <==> EqualIgnoringCase(a, b)
  {
    if Upper(a) == Upper(b) {
      forall i | 0 <= i < |a|
        ensures SameIgnoringCase(a[i], b[i])
      {
        assert Upper(a)[i] == Upper(b)[i];
      }
    }
    if EqualIgnoringCase(a, b) {
      forall i | 0 <= i < |a|
        ensures Upper(a)[i] == Upper(b)[i]
      {
        assert SameIgnoringCase(a[i], b[i]);
      }
    }
  }

  /** Changing the case of a string does not change its upper-cased form. */
  lemma UpperIgnoresCase(s: string)
    ensures Upper(Upper(s)) == Upper(s)
    ensures Upper(Lower(s)) == Upper(s)
    ensures EqualIgnoringCase(Lower(s), s) && EqualIgnoringCase(Upper(s), s)
  {
    forall i | 0 <= i < |s|
      ensures Upper(Lower(s))[i] == Upper(s)[i]
    {
      assert Lower(s)[i] == LowerChar(s[i]);
    }
  }

  // ---------------------------------------------------------------------
  // strip

  /** `s.lstrip()` */
  function TrimStart(s: string): (r: string)
    ensures |r| <= |s| && r == s[|s| - |r|..]
    ensures r == [] || !IsSpace(r[0])
    ensures forall i :: 0 <= i < |s| - |r| ==> IsSpace(s[i])
    decreases |s|
  {
    if s != [] && IsSpace(s[0]) then TrimStart(s[1..]) else s
  }

  /** `s.rstrip()` */
  function TrimEnd(s: string): (r: string)
    ensures |r| <= |s| && r == s[..|r|]
    ensures r == [] || !IsSpace(r[|r| - 1])
    ensures forall i :: |r| <= i < |s| ==> IsSpace(s[i])
    decreases |s|
  {
    if s != [] && IsSpace(s[|s| - 1]) then TrimEnd(s[..|s| - 1]) else s
  }

  /** `s.strip()`: whitespace removed at both ends. `StripIs` says which
      slice of s is left. */
  function Strip(s: string): (r: string)
    ensures |r| <= |s|
    ensures r == [] || (!IsSpace(r[0]) && !IsSpace(r[|r| - 1]))
  {
    TrimEnd(TrimStart(s))
  }

  /** A string with no whitespace at either end is its own strip. */
  lemma StripUnchanged(s: string)
    requires s == [] || (!IsSpace(s[0]) && !IsSpace(s[|s| - 1]))
    ensures Strip(s) == s
  {
  }

  /** A string made of whitespace only strips to the empty string. */
  lemma {:induction false} StripAllSpace(s: string)
    requires forall i :: 0 <= i < |s| ==> IsSpace(s[i])
    ensures TrimStart(s) == [] && Strip(s) == []
  {
  }

  /** Dropping leading whitespace of the input does not change its strip. */
  lemma {:induction false} StripAfterTrimStart(s: string, k: nat)
    requires k <= |s|
    requires forall i :: 0 <= i < k ==> IsSpace(s[i])
    ensures TrimStart(s[k..]) == TrimStart(s)
    decreases k
  {
    if k > 0 {
      assert s[1..][k - 1..] == s[k..];
      StripAfterTrimStart(s[1..], k - 1);
    }
  }

  /** Every character of s from a to b is whitespace. */
  predicate AllSpace(s: string, a: nat, b: nat)
    requires a <= b <= |s|
  {
    forall j :: a <= j < b ==> IsSpace(s[j])
  }

  /** `rstrip` is pinned down by where the trailing whitespace begins. */
  lemma TrimEndIs(u: string, k: nat)
    requires k <= |u| && AllSpace(u, k, |u|)
    requires k == 0 || !IsSpace(u[k - 1])
    ensures TrimEnd(u) == u[..k]
  {
  }

  /** A slice of a slice is a slice. */
  lemma SliceOfSlice(s: string, a: nat, b: nat, i: nat, j: nat)
    requires a <= i <= j <= b <= |s|
    ensures s[a..b][i - a..j - a] == s[i..j]
  {
    forall k | 0 <= k < j - i
      ensures s[a..b][i - a..j - a][k] == s[i..j][k]
    {
      assert s[a..b][i - a..j - a][k] == s[a..b][i - a + k];
    }
  }

  /** `lstrip` is pinned down by where the leading whitespace ends. */
  lemma TrimStartIs(x: string, k: nat)
    requires k <= |x| && AllSpace(x, 0, k)
    requires k == |x| || !IsSpace(x[k])
    ensures TrimStart(x) == x[k..]
  {
    StripAfterTrimStart(x, k);
    assert TrimStart(x[k..]) == x[k..];
  }

  /** Whitespace from m on in x is whitespace from m - k on in `x[k..]`. */
  lemma DropKeepsSpace(x: string, k: nat, m: nat)
    requires k <= m <= |x| && AllSpace(x, m, |x|)
    ensures AllSpace(x[k..], m - k, |x| - k)
  {
    forall j | m - k <= j < |x| - k
      ensures IsSpace(x[k..][j])
    {
      assert x[k..][j] == x[k + j];
    }
  }

  /** The first `m - k` characters of `x[k..]` are `x[k..m]`. */
  lemma DropThenTake(x: string, k: nat, m: nat)
    requires k <= m <= |x|
    ensures x[k..][..m - k] == x[k..m]
  {
  }

  /** `strip` keeps exactly the slice between the leading whitespace (up to
      k) and the trailing whitespace (from m). */
  lemma StripIs(x: string, k: nat, m: nat)
    requires k <= m <= |x|
    requires AllSpace(x, 0, k) && (k == |x| || !IsSpace(x[k]))
    requires AllSpace(x, m, |x|) && (m == k || !IsSpace(x[m - 1]))
    ensures Strip(x) == x[k..m]
  {
    var y := x[k..];
    DropKeepsSpace(x, k, m);
    assert m == k || y[m - k - 1] == x[m - 1];
    TrimEndIs(y, m - k);
    DropThenTake(x, k, m);
    StripAfterLead(x, k);
  }

  /** With the leading whitespace ending at k, `strip` is `rstrip` of the rest. */
  lemma StripAfterLead(x: string, k: nat)
    requires k <= |x| && AllSpace(x, 0, k)
    requires k == |x| || !IsSpace(x[k])
    ensures Strip(x) == TrimEnd(x[k..])
  {
    TrimStartIs(x, k);
  }

  /** Dropping trailing whitespace of the input does not change its rstrip. */
  lemma {:induction false} TrimEndAfterDrop(s: string, k: nat)
    requires k <= |s|
    requires forall i :: k <= i < |s| ==> IsSpace(s[i])
    ensures TrimEnd(s[..k]) == TrimEnd(s)
    decreases |s| - k
  {
    if k < |s| {
      assert s[..|s| - 1][..k] == s[..k];
      TrimEndAfterDrop(s[..|s| - 1], k);
    }
  }

  // ---------------------------------------------------------------------
  // search, replace and join

  /** `pat` occurs in `s` starting at index `i`. */
  predicate OccursAt(s: string, pat: string, i: nat) {
    i + |pat| <= |s| && s[i..i + |pat|] == pat
  }

  /** `s.find(pat, from)`: the first index at or after `from` where `pat` occurs. */
  function FindFrom(s: string, pat: string, from: nat): (r: Option<nat>)
    ensures r.Some? ==> from <= r.value && OccursAt(s, pat, r.value)
    ensures r.Some? ==> forall j :: from <= j < r.value ==> !OccursAt(s, pat, j)
    ensures r.None? ==> forall j :: from <= j ==> !OccursAt(s, pat, j)
    decreases |s| - from
  {
    if from + |pat| > |s| then None
    else if OccursAt(s, pat, from) then Some(from)
    else FindFrom(s, pat, from + 1)
  }

  /** `s.replace(pat, rep)`: a single left-to-right pass replacing each
      non-overlapping occurrence of `pat`. */
  function ReplaceAll(s: string, pat: string, rep: string): string
    requires pat != []
    decreases |s|
  {
    if |s| < |pat| then s
    else if s[..|pat|] == pat then rep + ReplaceAll(s[|pat|..], pat, rep)
    else [s[0]] + ReplaceAll(s[1..], pat, rep)
  }

  /** Where the pattern does not occur, replace leaves the string alone. */
  lemma {:induction false} ReplaceAllAbsent(s: string, pat: string, rep: string)
    requires pat != []
    requires forall i :: 0 <= i < |s| ==> !OccursAt(s, pat, i)
    ensures ReplaceAll(s, pat, rep) == s
    decreases |s|
  {
    if |s| >= |pat| {
      assert !OccursAt(s, pat, 0);
      assert s[..|pat|] == s[0..|pat|];
      forall i | 0 <= i < |s[1..]|
        ensures !OccursAt(s[1..], pat, i)
      {
        assert !OccursAt(s, pat, i + 1);
        if i + |pat| <= |s[1..]| {
          assert s[1..][i..i + |pat|] == s[i + 1..i + 1 + |pat|];
        }
      }
      ReplaceAllAbsent(s[1..], pat, rep);
      assert [s[0]] + s[1..] == s;
    }
  }

  /** When the first occurrence of the pattern in `x + pat + y` is the one
      after `x`, it is replaced and the pass goes on in `y`. */
  lemma {:induction false} ReplaceAllFirst(x: string, pat: string, rep: string, y: string)
    requires pat != []
    requires forall i :: 0 <= i < |x| ==> !OccursAt(x + pat + y, pat, i)
    ensures ReplaceAll(x + pat + y, pat, rep) == x + rep + ReplaceAll(y, pat, rep)
    decreases |x|
  {
    if x == [] {
      assert x + pat + y == pat + y;
      assert (pat + y)[..|pat|] == pat;
      assert (pat + y)[|pat|..] == y;
    } else {
      var s := x + pat + y;
      assert !OccursAt(s, pat, 0);
      assert s[1..] == x[1..] + pat + y;
      forall i | 0 <= i < |x| - 1
        ensures !OccursAt(x[1..] + pat + y, pat, i)
      {
        assert !OccursAt(s, pat, i + 1);
        assert s[1..][i..i + |pat|] == s[i + 1..i + 1 + |pat|];
      }
      ReplaceAllFirst(x[1..], pat, rep, y);
      assert [x[0]] + (x[1..] + rep + ReplaceAll(y, pat, rep)) == x + rep + ReplaceAll(y, pat, rep);
    }
  }

  /** `sep.join(parts)` */
  function Join(parts: seq<string>, sep: string): string
    decreases |parts|
  {
    if |parts| == 0 then ""
    else if |parts| == 1 then parts[0]
    else parts[0] + sep + Join(parts[1..], sep)
  }

  /** Where part i starts in `Join(parts, sep)`: the parts before it, each
      followed by one separator. */
  function Offset(parts: seq<string>, sep: string, i: nat): nat
    requires i <= |parts|
  {
    if i == 0 then 0 else Offset(parts, sep, i - 1) + |parts[i - 1]| + |sep|
  }

  lemma {:induction false} OffsetShift(parts: seq<string>, sep: string, i: nat)
    requires 1 <= i <= |parts|
    ensures Offset(parts, sep, i) == |parts[0]| + |sep| + Offset(parts[1..], sep, i - 1)
  {
    if i > 1 {
      OffsetShift(parts, sep, i - 1);
    }
  }

  /** A slice lying in the second part of a concatenation is a slice of that part. */
  lemma SliceOfAppend(a: string, b: string, i: nat, j: nat)
    requires |a| <= i <= j <= |a| + |b|
    ensures (a + b)[i..j] == b[i - |a|..j - |a|]
  {
  }

  /** The joined string is the parts and the separators between them, nothing more. */
  lemma {:induction false} JoinLength(parts: seq<string>, sep: string)
    requires |parts| > 0
    ensures |Join(parts, sep)| == Offset(parts, sep, |parts| - 1) + |parts[|parts| - 1]|
    decreases |parts|
  {
    if |parts| > 1 {
      JoinLength(parts[1..], sep);
      OffsetShift(parts, sep, |parts| - 1);
    }
  }

  /** The front of a concatenation is its first part. */
  lemma PrefixOfAppend(a: string, b: string)
    ensures (a + b)[0..|a|] == a
  {
  }

  /** Part i of the joined string sits at its offset, so the parts appear in order. */
  lemma {:induction false} JoinPart(parts: seq<string>, sep: string, i: nat)
    requires i < |parts|
    ensures Offset(parts, sep, i) + |parts[i]| <= |Join(parts, sep)|
    ensures Join(parts, sep)[Offset(parts, sep, i)..Offset(parts, sep, i) + |parts[i]|] == parts[i]
    decreases |parts|
  {
    if i == 0 {
      JoinFirst(parts, sep);
    } else {
      JoinPart(parts[1..], sep, i - 1);
      JoinLater(parts, sep, i);
    }
  }

  /** The joined string starts with the first part. */
  lemma JoinFirst(parts: seq<string>, sep: string)
    requires 0 < |parts|
    ensures |parts[0]| <= |Join(parts, sep)|
    ensures Join(parts, sep)[0..|parts[0]|] == parts[0]
  {
    if |parts| == 1 {
      assert Join(parts, sep) == parts[0] + [];
      PrefixOfAppend(parts[0], []);
    } else {
      var jr := Join(parts[1..], sep);
      assert Join(parts, sep) == parts[0] + (sep + jr);
      PrefixOfAppend(parts[0], sep + jr);
    }
  }

  /** Where part i - 1 sits in the join of `parts[1..]`, part i sits in the
      join of `parts`, one first part and one separator further on. */
  lemma JoinLater(parts: seq<string>, sep: string, i: nat)
    requires 0 < i < |parts|
    requires Offset(parts[1..], sep, i - 1) + |parts[i]| <= |Join(parts[1..], sep)|
    requires Join(parts[1..], sep)[Offset(parts[1..], sep, i - 1)..Offset(parts[1..], sep, i - 1) + |parts[i]|] == parts[i]
    ensures Offset(parts, sep, i) + |parts[i]| <= |Join(parts, sep)|
    ensures Join(parts, sep)[Offset(parts, sep, i)..Offset(parts, sep, i) + |parts[i]|] == parts[i]
  {
    var jr := Join(parts[1..], sep);
    var head := parts[0] + sep;
    assert Join(parts, sep) == head + jr;
    OffsetShift(parts, sep, i);
    var o := Offset(parts[1..], sep, i - 1);
    SliceOfAppend(head, jr, |head| + o, |head| + o + |parts[i]|);
  }

  /** The middle of a three-part concatenation is its second part. */
  lemma MiddleOfAppend(a: string, b: string, c: string)
    ensures (a + b + c)[|a|..|a| + |b|] == b
  {
    assert (a + b + c)[|a|..|a| + |b|] == (a + b)[|a|..|a| + |b|];
  }

  /** Between consecutive parts of the joined string stands exactly one separator. */
  lemma {:induction false} JoinSeparator(parts: seq<string>, sep: string, i: nat)
    requires i + 1 < |parts|
    ensures Offset(parts, sep, i + 1) <= |Join(parts, sep)|
    ensures Join(parts, sep)[Offset(parts, sep, i) + |parts[i]|..Offset(parts, sep, i + 1)] == sep
    decreases |parts|
  {
    if i == 0 {
      SeparatorFirst(parts, sep);
    } else {
      JoinSeparator(parts[1..], sep, i - 1);
      SeparatorLater(parts, sep, i);
    }
  }

  /** The first separator follows the first part. */
  lemma SeparatorFirst(parts: seq<string>, sep: string)
    requires 1 < |parts|
    ensures Offset(parts, sep, 1) <= |Join(parts, sep)|
    ensures Join(parts, sep)[|parts[0]|..Offset(parts, sep, 1)] == sep
  {
    assert Offset(parts, sep, 1) == |parts[0]| + |sep|;
    MiddleOfAppend(parts[0], sep, Join(parts[1..], sep));
  }

  /** A separator of the join of `parts[1..]` is one of the join of `parts`,
      one first part and one separator further on. */
  lemma SeparatorLater(parts: seq<string>, sep: string, i: nat)
    requires 0 < i && i + 1 < |parts|
    requires Offset(parts[1..], sep, i) <= |Join(parts[1..], sep)|
    requires Join(parts[1..], sep)[Offset(parts[1..], sep, i - 1) + |parts[i]|..Offset(parts[1..], sep, i)] == sep
    ensures Offset(parts, sep, i + 1) <= |Join(parts, sep)|
    ensures Join(parts, sep)[Offset(parts, sep, i) + |parts[i]|..Offset(parts, sep, i + 1)] == sep
  {
    var jr := Join(parts[1..], sep);
    var head := parts[0] + sep;
    assert Join(parts, sep) == head + jr;
    OffsetShift(parts, sep, i);
    OffsetShift(parts, sep, i + 1);
    var o := Offset(parts[1..], sep, i - 1) + |parts[i]|;
    SliceOfAppend(head, jr, |head| + o, |head| + Offset(parts[1..], sep, i));
  }
}
