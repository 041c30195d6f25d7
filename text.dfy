/** The JavaScript string operations the assistant relies on: `trim`,
    `toLowerCase`, `includes`, `startsWith` and `replace` of the first
    occurrence of a string, either exactly or ignoring letter case.
    Letter case is modelled for ASCII letters only. */
module Text {

  /** The characters `String.prototype.trim` removes: JavaScript's
      WhiteSpace (tab, vertical tab, form feed, space, no-break space,
      the byte-order mark and the Unicode space separators) and its
      LineTerminator characters (line feed, carriage return, U+2028, U+2029). */
  predicate IsSpace(c: char)
  {
    c == '\t' || c == '\n' || c == '\U{B}' || c == '\U{C}' || c == '\r' || c == ' '
    || c == '\U{A0}' || c == '\U{1680}' || ('\U{2000}' <= c <= '\U{200A}')
    || c == '\U{2028}' || c == '\U{2029}' || c == '\U{202F}' || c == '\U{205F}'
    || c == '\U{3000}' || c == '\U{FEFF}'
  }

  /** Every character is white space (the empty string included). */
  predicate IsBlank(s: string)
  {
    forall i :: 0 <= i < |s| ==> IsSpace(s[i])
  }

  /** The first index at or after `k` that does not hold white space, or
      `|s|` when there is none. */
  function SkipSpaces(s: string, k: nat): (j: nat)
    requires k <= |s|
    ensures k <= j <= |s|
    ensures forall i :: k <= i < j ==> IsSpace(s[i])
    ensures j == |s| || !IsSpace(s[j])
    decreases |s| - k
  {
    if k < |s| && IsSpace(s[k]) then SkipSpaces(s, k + 1) else k
  }

  /** The end of `s[lo..hi]` once its trailing white space is dropped: the
      index just past the last character before `hi` that is not white
      space, or `lo` when there is none. */
  function SkipSpacesBack(s: string, lo: nat, hi: nat): (j: nat)
    requires lo <= hi <= |s|
    ensures lo <= j <= hi
    ensures forall i :: j <= i < hi ==> IsSpace(s[i])
    ensures j == lo || !IsSpace(s[j - 1])
    decreases hi
  {
    if lo < hi && IsSpace(s[hi - 1]) then SkipSpacesBack(s, lo, hi - 1) else hi
  }

  /** `r` occurs in `s` at offset `a` with only white space before and after it. */
  ghost predicate PaddedAt(s: string, r: string, a: int)
  {
    && 0 <= a && a + |r| <= |s| && s[a..a + |r|] == r
    && (forall i :: 0 <= i < a ==> IsSpace(s[i]))
    && (forall i :: a + |r| <= i < |s| ==> IsSpace(s[i]))
  }

  /** `trim`: the string without its leading and trailing white space. It is
      empty exactly when the input is blank. */
  function Trim(s: string): (r: string)
    ensures exists a :: PaddedAt(s, r, a)
    ensures r == [] || (!IsSpace(r[0]) && !IsSpace(r[|r| - 1]))
    ensures r == [] <==> IsBlank(s)
  {
    var a := SkipSpaces(s, 0);
    var b := SkipSpacesBack(s, a, |s|);
    assert PaddedAt(s, s[a..b], a);
    s[a..b]
  }

  /** ASCII lower-casing of one character; other characters are kept. */
  function LowerChar(c: char): char
  {
    if 'A' <= c <= 'Z' then (c as int - 'A' as int + 'a' as int) as char else c
  }

  /** No ASCII capital letter occurs in `s`. */
  predicate IsLowerCase(s: string)
  {
    forall i :: 0 <= i < |s| ==> !('A' <= s[i] <= 'Z')
  }

  /** `toLowerCase`, restricted to ASCII letters. */
  function ToLower(s: string): (r: string)
    ensures |r| == |s|
    ensures forall i :: 0 <= i < |s| ==> r[i] == LowerChar(s[i])
    ensures IsLowerCase(r)
  {
    if s == [] then [] else [LowerChar(s[0])] + ToLower(s[1..])
  }

  /** `p` is found in `s` starting at index `i`. */
  ghost predicate OccursAt(s: string, p: string, i: int)
  {
    0 <= i && i + |p| <= |s| && s[i..i + |p|] == p
  }

  /** `i` is the first index at which `p` is found in `s`. */
  ghost predicate FirstAt(s: string, p: string, i: int)
  {
    OccursAt(s, p, i) && forall j :: 0 <= j < i ==> !OccursAt(s, p, j)
  }

  /** The first index at or after `k` where `p` is found, or -1. */
  function IndexFrom(s: string, p: string, k: nat): (r: int)
    requires k <= |s|
    ensures r == -1 || (k <= r && OccursAt(s, p, r))
    ensures forall j :: k <= j && (r == -1 || j < r) ==> !OccursAt(s, p, j)
    decreases |s| - k
  {
    if k + |p| > |s| then -1
    else if s[k..k + |p|] == p then k
    else IndexFrom(s, p, k + 1)
  }

  /** `indexOf`: the first index where `p` is found, or -1 when it is absent. */
  function IndexOf(s: string, p: string): (r: int)
    ensures r == -1 <==> forall j :: !OccursAt(s, p, j)
    ensures r != -1 ==> FirstAt(s, p, r)
  {
    IndexFrom(s, p, 0)
  }

  /** `includes`. */
  function Contains(s: string, p: string): (b: bool)
    ensures b <==> exists i :: OccursAt(s, p, i)
  {
    IndexOf(s, p) != -1
  }

  /** `startsWith`: `p` is found at the very start of `s`. */
  function StartsWith(s: string, p: string): (b: bool)
    ensures b <==> OccursAt(s, p, 0)
  {
    |p| <= |s| && s[..|p|] == p
  }

  /** `replace(p, '')` with a string pattern: removes the first occurrence
      of `p` and leaves the string alone when `p` is absent. */
  function RemoveFirst(s: string, p: string): (r: string)
    ensures (forall i :: !OccursAt(s, p, i)) ==> r == s
    ensures forall i :: FirstAt(s, p, i) ==> r == s[..i] + s[i + |p|..]
  {
    var i := IndexOf(s, p);
    if i == -1 then s else s[..i] + s[i + |p|..]
  }

  /** `replace(/p/i, '')`: removes the first occurrence of `p` compared
      without regard to letter case. The pattern is written in lower case,
      so only the string needs lower-casing before the comparison. */
  function RemoveFirstIgnoringCase(s: string, p: string): (r: string)
    requires IsLowerCase(p)
    ensures (forall i :: !OccursAt(ToLower(s), p, i)) ==> r == s
    ensures forall i :: FirstAt(ToLower(s), p, i) ==> r == s[..i] + s[i + |p|..]
  {
    var ls, lp := ToLower(s), p;
    var i := IndexOf(ls, lp);
    assert |ls| == |s| && |lp| == |p|;
    if i == -1 then s else s[..i] + s[i + |p|..]
  }

  /** Lower-casing keeps white space and non-white space apart, so a string
      is blank exactly when its lower-cased form is. */
  lemma LowerKeepsBlank(s: string)
    ensures IsBlank(ToLower(s)) <==> IsBlank(s)
  {
    var r := ToLower(s);
    if IsBlank(r) {
      forall i | 0 <= i < |s| ensures IsSpace(s[i]) {
        assert IsSpace(r[i]);
      }
    }
  }

  /** Lower-casing a lower-case string changes nothing. */
  lemma {:induction false} LowerOfLowerCase(s: string)
    requires IsLowerCase(s)
    ensures ToLower(s) == s
  {
    if s != [] {
      assert IsLowerCase(s[1..]) by {
        forall i | 0 <= i < |s| - 1 ensures !('A' <= s[1..][i] <= 'Z') {
          assert s[1..][i] == s[i + 1];
        }
      }
      LowerOfLowerCase(s[1..]);
    }
  }

  /** Trimming a lower-case string leaves it lower-case. */
  lemma TrimKeepsLowerCase(s: string)
    requires IsLowerCase(s)
    ensures IsLowerCase(Trim(s))
  {
    var r := Trim(s);
    var a :| PaddedAt(s, r, a);
    forall k | 0 <= k < |r| ensures !('A' <= r[k] <= 'Z') {
      assert r[k] == s[a..a + |r|][k] == s[a + k];
    }
  }

  /** Removing the first occurrence of a pattern from a lower-case string
      leaves it lower-case. */
  lemma RemoveFirstKeepsLowerCase(s: string, p: string)
    requires IsLowerCase(s)
    ensures IsLowerCase(RemoveFirst(s, p))
  {
    var i := IndexOf(s, p);
    if i != -1 {
      var r := RemoveFirst(s, p);
      assert r == s[..i] + s[i + |p|..];
      forall k | 0 <= k < |r| ensures !('A' <= r[k] <= 'Z') {
        if k < i {
          assert r[k] == s[k];
        } else {
          assert r[k] == s[k + |p|];
        }
      }
    }
  }

  /** A pattern at the very start is its first occurrence. */
  lemma PrefixIsFirstOccurrence(s: string, p: string)
    requires StartsWith(s, p)
    ensures IndexOf(s, p) == 0
  {
    assert OccursAt(s, p, 0);
  }

  /** When `s` starts with the lower-case `p` up to letter case, the
      case-insensitive removal takes exactly that prefix away. */
  lemma RemoveIgnoringCaseAtStart(s: string, p: string)
    requires IsLowerCase(p) && StartsWith(ToLower(s), p)
    ensures RemoveFirstIgnoringCase(s, p) == s[|p|..]
  {
    PrefixIsFirstOccurrence(ToLower(s), p);
    assert FirstAt(ToLower(s), p, 0);
  }
}
