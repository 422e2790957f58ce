/**
 * The handful of JavaScript string and path operations the migrator's core
 * relies on: `String.prototype.trim`, the global regular-expression `replace`,
 * the first-occurrence string `replace`, and a separator-only `path.join`.
 */
module JsString {

  datatype Option<T> = None | Some(value: T)

  type Path = string

  /**
   * The index of the last `/` of `p`, or -1 when there is none: where
   * `path.dirname` and `path.basename` split a path without a trailing `/`.
   */
  function LastSlash(p: Path): (i: int)
    ensures -1 <= i < |p|
    ensures i >= 0 ==> p[i] == '/'
    ensures forall j :: i < j < |p| ==> p[j] != '/'
  {
    if p == [] then -1
    else if p[|p| - 1] == '/' then |p| - 1
    else LastSlash(p[..|p| - 1])
  }

  /** A `/` followed by no other `/` is the last one (by the contract of `LastSlash`). */
  lemma LastSlashAt(p: Path, k: nat)
    requires k < |p| && p[k] == '/'
    requires forall j :: k < j < |p| ==> p[j] != '/'
    ensures LastSlash(p) == k
  {
  }

  /** `path.join(dir, name)` for a plain entry name (no separator, no `..`). */
  function Join(dir: Path, name: string): (p: Path)
    ensures |p| == |dir| + 1 + |name|
  {
    dir + "/" + name
  }

  /**
   * The round trip `path.dirname` / `path.basename` of `path.join`: splitting
   * the joined path at its last `/` gives back `dir` and `name`.
   */
  lemma JoinSplits(dir: Path, name: string)
    requires '/' !in name
    ensures var p := Join(dir, name);
            LastSlash(p) == |dir| && p[..LastSlash(p)] == dir && p[LastSlash(p) + 1..] == name
  {
    var p := Join(dir, name);
    assert forall j :: |dir| < j < |p| ==> p[j] == name[j - |dir| - 1];
    LastSlashAt(p, |dir|);
  }

  /** A JavaScript string value is falsy exactly when it is `undefined` or empty. */
  predicate Falsy(s: Option<string>)
  {
    s.None? || s.value == ""
  }

  // ---------------------------------------------------------------------------
  // String.prototype.trim
  // ---------------------------------------------------------------------------

  /**
   * The characters ECMAScript counts as white space or line terminators:
   * TAB, VT, FF, SP, NBSP, ZWNBSP, the Zs category, LF, CR, LS and PS.
   */
  predicate IsSpace(c: char)
  {
    || c == '\t' || c == '\n' || c == '\U{000B}' || c == '\U{000C}' || c == '\r' || c == ' '
    || c == '\U{00A0}' || c == '\U{1680}' || ('\U{2000}' <= c <= '\U{200A}')
    || c == '\U{2028}' || c == '\U{2029}' || c == '\U{202F}' || c == '\U{205F}'
    || c == '\U{3000}' || c == '\U{FEFF}'
  }

  /** Number of white-space characters at the start of `s`. */
  function LeadingSpace(s: string): (n: nat)
    ensures n <= |s|
    ensures forall k :: 0 <= k < n ==> IsSpace(s[k])
    ensures n < |s| ==> !IsSpace(s[n])
  {
    if s == [] || !IsSpace(s[0]) then 0 else 1 + LeadingSpace(s[1..])
  }

  /** Number of white-space characters at the end of `s`. */
  function TrailingSpace(s: string): (n: nat)
    ensures n <= |s|
    ensures forall k :: |s| - n <= k < |s| ==> IsSpace(s[k])
    ensures n < |s| ==> !IsSpace(s[|s| - 1 - n])
  {
    if s == [] || !IsSpace(s[|s| - 1]) then 0 else 1 + TrailingSpace(s[..|s| - 1])
  }

  /** `s.trim()`: the text between the leading and the trailing white space. */
  function Trim(s: string): (r: string)
    ensures |r| <= |s|
    ensures r == [] || (!IsSpace(r[0]) && !IsSpace(r[|r| - 1]))
  {
    var lead := LeadingSpace(s);
    var rest := s[lead..];
    rest[..|rest| - TrailingSpace(rest)]
  }

  /**
   * `Trim(s)` sits in `s` right after the leading white space, and everything
   * around it is white space.
   */
  lemma TrimSplits(s: string)
    ensures var i := LeadingSpace(s);
            var r := Trim(s);
            && i + |r| <= |s|
            && s[i..i + |r|] == r
            && (forall k :: 0 <= k < i ==> IsSpace(s[k]))
            && (forall k :: i + |r| <= k < |s| ==> IsSpace(s[k]))
  {
    var i := LeadingSpace(s);
    var rest := s[i..];
    var t := TrailingSpace(rest);
    forall k | i + |Trim(s)| <= k < |s| ensures IsSpace(s[k]) {
      assert s[k] == rest[k - i];
    }
  }

  /** Trimming a string that neither starts nor ends with white space changes nothing. */
  lemma TrimUntouched(s: string)
    requires s == [] || (!IsSpace(s[0]) && !IsSpace(s[|s| - 1]))
    ensures Trim(s) == s
  {
  }

  /** `trim` is idempotent. */
  lemma TrimIdempotent(s: string)
    ensures Trim(Trim(s)) == Trim(s)
  {
    TrimUntouched(Trim(s));
  }

  // ---------------------------------------------------------------------------
  // String.prototype.replace with a global regular expression of literal text
  // ---------------------------------------------------------------------------

  /** `pat` occurs in `s` at position `k`. */
  predicate OccursAt(s: string, pat: string, k: int)
  {
    0 <= k && k + |pat| <= |s| && s[k..k + |pat|] == pat
  }

  /** `pat` occurs nowhere in `s`. */
  ghost predicate Free(s: string, pat: string)
  {
    forall k :: !OccursAt(s, pat, k)
  }

  /** No proper prefix of `pat` is also a suffix of it (matches cannot overlap). */
  predicate BorderFree(pat: string)
  {
    forall k :: 0 < k < |pat| ==> pat[k..] != pat[..|pat| - k]
  }

  /**
   * `s.replace(/pat/g, rep)`: scans left to right and replaces every
   * non-overlapping match of the literal `pat` by `rep`.
   */
  function ReplaceAll(s: string, pat: string, rep: string): (r: string)
    requires pat != []
    decreases |s|
  {
    if |s| < |pat| then s
    else if s[..|pat|] == pat then rep + ReplaceAll(s[|pat|..], pat, rep)
    else [s[0]] + ReplaceAll(s[1..], pat, rep)
  }

  /** Text without a match passes through unchanged. */
  lemma {:induction false} ReplaceAllFree(s: string, pat: string, rep: string)
    requires pat != [] && Free(s, pat)
    ensures ReplaceAll(s, pat, rep) == s
    decreases |s|
  {
    if |s| >= |pat| {
      assert !OccursAt(s, pat, 0);
      assert s[..|pat|] == s[0..|pat|];
      assert Free(s[1..], pat) by {
        forall k ensures !OccursAt(s[1..], pat, k) {
          assert !OccursAt(s, pat, k + 1);
          if 0 <= k && k + |pat| <= |s[1..]| {
            assert s[1..][k..k + |pat|] == s[k + 1..k + 1 + |pat|];
          }
        }
      }
      ReplaceAllFree(s[1..], pat, rep);
      assert s == [s[0]] + s[1..];
    }
  }

  /**
   * A match-free piece followed by the pattern: the piece is kept, the
   * pattern is replaced, and scanning resumes right after it.
   */
  lemma {:induction false} ReplaceAllPiece(p: string, pat: string, rest: string, rep: string)
    requires pat != [] && BorderFree(pat) && Free(p, pat)
    ensures ReplaceAll(p + pat + rest, pat, rep) == p + rep + ReplaceAll(rest, pat, rep)
    decreases |p|
  {
    var s := p + pat + rest;
    if p == [] {
      assert s == pat + rest;
      assert s[..|pat|] == pat;
      assert s[|pat|..] == rest;
    } else {
      assert s[..|pat|] != pat by {
        if |p| >= |pat| {
          assert !OccursAt(p, pat, 0);
          assert s[..|pat|] == p[0..|pat|];
        } else {
          var k := |p|;
          assert pat[k..] != pat[..|pat| - k];
          assert s[..|pat|][k..] == pat[..|pat| - k];
        }
      }
      assert Free(p[1..], pat) by {
        forall k ensures !OccursAt(p[1..], pat, k) {
          assert !OccursAt(p, pat, k + 1);
          if 0 <= k && k + |pat| <= |p[1..]| {
            assert p[1..][k..k + |pat|] == p[k + 1..k + 1 + |pat|];
          }
        }
      }
      ReplaceAllPiece(p[1..], pat, rest, rep);
      assert s[1..] == p[1..] + pat + rest;
      assert [s[0]] + (p[1..] + rep + ReplaceAll(rest, pat, rep)) == p + rep + ReplaceAll(rest, pat, rep);
    }
  }

  /** `parts` glued together with `sep` between neighbours. */
  function Intercalate(parts: seq<string>, sep: string): string
    requires parts != []
  {
    if |parts| == 1 then parts[0] else parts[0] + sep + Intercalate(parts[1..], sep)
  }

  /**
   * Every occurrence of a border-free pattern is replaced and all other text is
   * left as it is: a text made of match-free parts separated by the pattern
   * becomes the same parts separated by the replacement.
   */
  lemma {:induction false} ReplaceAllTemplate(parts: seq<string>, pat: string, rep: string)
    requires pat != [] && BorderFree(pat) && parts != []
    requires forall i :: 0 <= i < |parts| ==> Free(parts[i], pat)
    ensures ReplaceAll(Intercalate(parts, pat), pat, rep) == Intercalate(parts, rep)
  {
    if |parts| == 1 {
      ReplaceAllFree(parts[0], pat, rep);
    } else {
      assert Free(parts[0], pat);
      ReplaceAllTemplate(parts[1..], pat, rep);
      ReplaceAllPiece(parts[0], pat, Intercalate(parts[1..], pat), rep);
    }
  }

  // ---------------------------------------------------------------------------
  // String.prototype.replace with a one-character string pattern
  // ---------------------------------------------------------------------------

  /** `s.replace(c, rep)`: only the first occurrence of `c` is replaced. */
  function ReplaceFirst(s: string, c: char, rep: string): (r: string)
  {
    if s == [] then []
    else if s[0] == c then rep + s[1..]
    else [s[0]] + ReplaceFirst(s[1..], c, rep)
  }

  /** Without an occurrence the text is unchanged. */
  lemma {:induction false} ReplaceFirstAbsent(s: string, c: char, rep: string)
    requires c !in s
    ensures ReplaceFirst(s, c, rep) == s
  {
    if s != [] {
      assert s[0] != c;
      ReplaceFirstAbsent(s[1..], c, rep);
      assert s == [s[0]] + s[1..];
    }
  }

  /**
   * The first occurrence is replaced and the text after it, later occurrences
   * included, is kept as it is.
   */
  lemma {:induction false} ReplaceFirstSplit(p: string, c: char, q: string, rep: string)
    requires c !in p
    ensures ReplaceFirst(p + [c] + q, c, rep) == p + rep + q
  {
    var s := p + [c] + q;
    if p == [] {
      assert s[1..] == q;
    } else {
      assert s[0] == p[0] != c;
      assert s[1..] == p[1..] + [c] + q;
      ReplaceFirstSplit(p[1..], c, q, rep);
      assert p == [p[0]] + p[1..];
    }
  }
}
