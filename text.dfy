/**
 * String operations the handlers apply to page text and to request fields:
 * ASCII lower-casing, substring tests (Python's `in`), `str.count`,
 * `str.strip`, `str.replace` and `str.split(c)[0]`.
 */
module Text {

  /** Python's `str.lower()`, restricted to ASCII letters. */
  function LowerChar(c: char): char {
    if 'A' <= c <= 'Z' then (c as int + 32) as char else c
  }

  function Lower(s: string): (r: string)
    ensures |r| == |s|
    ensures forall i :: 0 <= i < |s| ==> r[i] == LowerChar(s[i])
  {
    if s == [] then [] else [LowerChar(s[0])] + Lower(s[1..])
  }

  /** Lower-casing is idempotent: lowering already lowered text changes nothing. */
  lemma LowerIdempotent(s: string)
    ensures Lower(Lower(s)) == Lower(s)
  {
    assert forall i :: 0 <= i < |s| ==> LowerChar(LowerChar(s[i])) == LowerChar(s[i]);
  }

  predicate StartsWith(s: string, prefix: string) {
    |prefix| <= |s| && s[..|prefix|] == prefix
  }

  /** Python's `t in s`: `t` occurs somewhere in `s` (the empty string occurs everywhere). */
  predicate Contains(s: string, t: string)
    decreases |s|
  {
    StartsWith(s, t) || (s != [] && Contains(s[1..], t))
  }

  /** `t` occurs in `s` starting at index `i`. */
  predicate OccursAt(s: string, t: string, i: nat) {
    i + |t| <= |s| && s[i..i + |t|] == t
  }

  /** The recursive `Contains` agrees with "occurs at some index". */
  lemma {:induction false} ContainsAt(s: string, t: string)
    ensures Contains(s, t) <==> exists i: nat :: OccursAt(s, t, i)
    decreases |s|
  {
    if s != [] {
      ContainsAt(s[1..], t);
      if Contains(s[1..], t) {
        var i: nat :| OccursAt(s[1..], t, i);
        assert s[i + 1..i + 1 + |t|] == s[1..][i..i + |t|];
        assert OccursAt(s, t, i + 1);
      }
      if StartsWith(s, t) {
        assert OccursAt(s, t, 0);
      }
      if i: nat :| OccursAt(s, t, i) {
        if i == 0 {
          assert s[..|t|] == s[0..|t|];
        } else {
          assert s[1..][i - 1..i - 1 + |t|] == s[i..i + |t|];
          assert OccursAt(s[1..], t, i - 1);
        }
      }
    } else if Contains(s, t) {
      assert OccursAt(s, t, 0);
    }
  }

  /** `any(w in text for w in words)` */
  predicate AnyIn(text: string, words: seq<string>) {
    exists i :: 0 <= i < |words| && Contains(text, words[i])
  }

  /** `sum(1 for w in words if w in text)` */
  function CountIn(text: string, words: seq<string>): (n: nat)
    ensures n <= |words|
    ensures n == 0 <==> !AnyIn(text, words)
  {
    if words == [] then 0
    else CountIn(text, words[..|words| - 1]) + (if Contains(text, words[|words| - 1]) then 1 else 0)
  }

  /** Python's `s.count(t)`: non-overlapping occurrences from the left; `|s| + 1` for the empty `t`. */
  function Occurrences(s: string, t: string): nat
    decreases |s|
  {
    if t == [] then |s| + 1
    else if |s| < |t| then 0
    else if StartsWith(s, t) then 1 + Occurrences(s[|t|..], t)
    else Occurrences(s[1..], t)
  }

  /** `s.count(t) > 0` holds exactly when `t in s`. */
  lemma {:induction false} OccurrencesPositive(s: string, t: string)
    ensures Occurrences(s, t) > 0 <==> Contains(s, t)
    decreases |s|
  {
    if t == [] || |s| < |t| || StartsWith(s, t) {
      if t != [] && |s| < |t| {
        NotContainsLonger(s, t);
      }
    } else {
      OccurrencesPositive(s[1..], t);
    }
  }

  lemma {:induction false} NotContainsLonger(s: string, t: string)
    requires |s| < |t|
    ensures !Contains(s, t)
    decreases |s|
  {
    if s != [] {
      NotContainsLonger(s[1..], t);
    }
  }

  /**
   * The whitespace of `str.isspace()`, which `str.strip()` removes and
   * `str.split()` splits on: tab to carriage return, the four separators
   * U+001C to U+001F, space, next line, no-break space, and the Unicode
   * space separators.
   */
  predicate IsSpace(c: char) {
    ('\t' <= c && c <= '\r') || ('\U{1C}' <= c && c <= ' ') || c == '\U{85}' || c == '\U{A0}' ||
    c == '\U{1680}' || ('\U{2000}' <= c && c <= '\U{200A}') || c == '\U{2028}' || c == '\U{2029}' ||
    c == '\U{202F}' || c == '\U{205F}' || c == '\U{3000}'
  }

  /** Number of whitespace characters at the start of `s`. */
  function Leading(s: string): (n: nat)
    ensures n <= |s|
    ensures forall i :: 0 <= i < n ==> IsSpace(s[i])
    ensures n < |s| ==> !IsSpace(s[n])
  {
    if s != [] && IsSpace(s[0]) then 1 + Leading(s[1..]) else 0
  }

  /** Number of whitespace characters at the end of `s`. */
  function Trailing(s: string): (n: nat)
    ensures n <= |s|
    ensures forall i :: |s| - n <= i < |s| ==> IsSpace(s[i])
    ensures n < |s| ==> !IsSpace(s[|s| - n - 1])
  {
    if s != [] && IsSpace(s[|s| - 1]) then 1 + Trailing(s[..|s| - 1]) else 0
  }

  /** Every character of `s` is whitespace. */
  predicate Blank(s: string) {
    forall i :: 0 <= i < |s| ==> IsSpace(s[i])
  }

  /** Python's `s.strip()`: `s` without its leading and trailing whitespace. */
  function Strip(s: string): (r: string)
    ensures r == [] <==> Blank(s)
    ensures r != [] ==> !IsSpace(r[0]) && !IsSpace(r[|r| - 1])
    ensures exists k: nat :: OccursAt(s, r, k)
  {
    var l := Leading(s);
    if l == |s| then
      assert OccursAt(s, [], 0);
      []
    else
      var t := Trailing(s);
      assert !IsSpace(s[l]);
      assert OccursAt(s, s[l..|s| - t], l);
      s[l..|s| - t]
  }

  /** What `strip` keeps: the input without its blank prefix and its blank suffix. */
  lemma StripSlice(s: string)
    ensures Leading(s) + |Strip(s)| <= |s| && Strip(s) == s[Leading(s)..Leading(s) + |Strip(s)|]
    ensures Blank(s[..Leading(s)]) && Blank(s[Leading(s) + |Strip(s)|..])
  {
  }

  /** Whitespace around a word that neither starts nor ends with whitespace is exactly what `strip` removes. */
  lemma StripUnique(a: string, r: string, b: string)
    requires Blank(a) && Blank(b)
    requires r != [] ==> !IsSpace(r[0]) && !IsSpace(r[|r| - 1])
    ensures Strip(a + r + b) == r
  {
    var s := a + r + b;
    if r == [] {
      assert Blank(s) by {
        forall i | 0 <= i < |s| ensures IsSpace(s[i]) {
          if i < |a| { assert s[i] == a[i]; } else { assert s[i] == b[i - |a|]; }
        }
      }
    } else {
      assert s[|a|] == r[0] && s[|a| + |r| - 1] == r[|r| - 1];
      var l, t := Leading(s), Trailing(s);
      assert forall i :: 0 <= i < |a| ==> s[i] == a[i];
      assert forall i :: 0 <= i < |b| ==> s[|a| + |r| + i] == b[i];
      assert l == |a| && t == |b|;
      assert s[l..|s| - t] == r;
    }
  }

  /** Python's `s.replace(pat, rep)` for a non-empty pattern: every non-overlapping occurrence, scanning from the left. */
  function ReplaceAll(s: string, pat: string, rep: string): string
    requires pat != []
    decreases |s|
  {
    if s == [] then []
    else if StartsWith(s, pat) then rep + ReplaceAll(s[|pat|..], pat, rep)
    else [s[0]] + ReplaceAll(s[1..], pat, rep)
  }

  /** Replacing a pattern that does not occur leaves the string unchanged. */
  lemma {:induction false} ReplaceAbsent(s: string, pat: string, rep: string)
    requires pat != []
    requires !Contains(s, pat)
    ensures ReplaceAll(s, pat, rep) == s
    decreases |s|
  {
    if s != [] {
      ReplaceAbsent(s[1..], pat, rep);
      assert [s[0]] + s[1..] == s;
    }
  }

  /** Python's `s.split(c)[0]`: the text before the first `c`, or all of `s`. */
  function BeforeFirst(s: string, c: char): (r: string)
    ensures c !in r
    ensures |r| <= |s| && r == s[..|r|]
    ensures |r| < |s| ==> s[|r|] == c
  {
    if s == [] || s[0] == c then [] else [s[0]] + BeforeFirst(s[1..], c)
  }

  /** The text before the first character of `stops`, or all of `s`. */
  function BeforeAny(s: string, stops: set<char>): (r: string)
    ensures forall i :: 0 <= i < |r| ==> r[i] !in stops
    ensures |r| <= |s| && r == s[..|r|]
    ensures |r| < |s| ==> s[|r|] in stops
  {
    if s == [] || s[0] in stops then [] else [s[0]] + BeforeAny(s[1..], stops)
  }

  /** How often `c` occurs in `s`; `len(s.split(c))` is one more. */
  function CountChar(s: string, c: char): nat {
    if s == [] then 0 else (if s[0] == c then 1 else 0) + CountChar(s[1..], c)
  }
}
