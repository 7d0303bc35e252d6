/**
  Character classes and small facts about strings (`seq<char>`) shared by the
  numeral, command-line and message modules.
 */
module Text {
  import opened Wrappers

  /** A decimal digit in the "C" locale. */
  predicate IsDigit(c: char) {
    '0' <= c <= '9'
  }

  /** The characters `isspace` accepts in the "C" locale. */
  predicate IsSpace(c: char) {
    c == ' ' || c == '\t' || c == '\n' || c == '\U{B}' || c == '\U{C}' || c == '\r'
  }

  predicate AllDigits(s: string) {
    forall i :: 0 <= i < |s| ==> IsDigit(s[i])
  }

  predicate NoDigits(s: string) {
    forall i :: 0 <= i < |s| ==> !IsDigit(s[i])
  }

  predicate StartsWith(s: string, prefix: string) {
    |prefix| <= |s| && s[..|prefix|] == prefix
  }

  predicate EndsWith(s: string, suffix: string) {
    |suffix| <= |s| && s[|s| - |suffix|..] == suffix
  }

  /** What is left of `s` after `prefix`, if `s` starts with it. */
  function StripPrefix(s: string, prefix: string): (r: Option<string>)
    ensures r.Some? <==> StartsWith(s, prefix)
    ensures r.Some? ==> prefix + r.value == s
  {
    if StartsWith(s, prefix) then Some(s[|prefix|..]) else None
  }

  /** What is left of `s` before `suffix`, if `s` ends with it. */
  function StripSuffix(s: string, suffix: string): (r: Option<string>)
    ensures r.Some? <==> EndsWith(s, suffix)
    ensures r.Some? ==> r.value + suffix == s
  {
    if EndsWith(s, suffix) then Some(s[..|s| - |suffix|]) else None
  }

  lemma StripPrefixOf(prefix: string, rest: string)
    ensures StripPrefix(prefix + rest, prefix) == Some(rest)
  {
  }

  lemma StripSuffixOf(front: string, suffix: string)
    ensures StripSuffix(front + suffix, suffix) == Some(front)
  {
  }

  /** `t` occurs in `s` starting at index `k`. */
  predicate OccursAt(t: string, s: string, k: int) {
    0 <= k <= |s| - |t| && s[k..k + |t|] == t
  }

  /** `t` occurs in `s` as a contiguous piece. */
  predicate IsInfix(t: string, s: string) {
    exists k | 0 <= k <= |s| :: OccursAt(t, s, k)
  }

  /**
    Splits `s` just after its last space: the second part is the longest
    space-free suffix of `s`, the first part is everything before it.
   */
  function SplitLastWord(s: string): (parts: (string, string))
    ensures parts.0 + parts.1 == s
    ensures ' ' !in parts.1
    ensures parts.0 == [] || parts.0[|parts.0| - 1] == ' '
  {
    if |s| == 0 || s[|s| - 1] == ' ' then (s, [])
    else
      var (front, word) := SplitLastWord(s[..|s| - 1]);
      assert s == s[..|s| - 1] + [s[|s| - 1]];
      (front, word + [s[|s| - 1]])
  }

  /** A word without spaces after a space is exactly what `SplitLastWord` cuts off. */
  lemma {:induction false} SplitLastWordAfterSpace(front: string, word: string)
    requires front == [] || front[|front| - 1] == ' '
    requires ' ' !in word
    ensures SplitLastWord(front + word) == (front, word)
  {
    if word == [] {
      assert front + word == front;
    } else {
      var s := front + word;
      var w' := word[..|word| - 1];
      assert s[..|s| - 1] == front + w';
      assert ' ' !in w' by {
        forall c | c in w' ensures c != ' ' {
          assert c in word;
        }
      }
      SplitLastWordAfterSpace(front, w');
      assert word == w' + [word[|word| - 1]];
    }
  }
}
