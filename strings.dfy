/** Byte-string helpers shared by the model: substring search, prefix test,
    ASCII lower-casing, repetition and the find/replace pass that several
    source functions run in place. A Dafny `char` stands for one byte of a
    C++ `std::string`. */
module Strings {

  /** Concatenation regrouped. */
  lemma AppendAssoc<T>(a: seq<T>, b: seq<T>, c: seq<T>)
    ensures a + (b + c) == (a + b) + c
  {
  }

  /** `p` is a prefix of `s` (`s.rfind(p, 0) == 0`, `s.find(p) == 0`). */
  predicate StartsWith(s: string, p: string) {
    |p| <= |s| && s[..|p|] == p
  }

  /** `s` ends with `suffix`. */
  predicate EndsWith(s: string, suffix: string) {
    |suffix| <= |s| && s[|s| - |suffix|..] == suffix
  }

  /** `sub` occurs in `s` at index `i`. */
  predicate OccursAt(s: string, sub: string, i: int) {
    0 <= i && i + |sub| <= |s| && s[i..i + |sub|] == sub
  }

  /** An occurrence in a suffix is an occurrence in the whole string. */
  lemma OccursShift(s: string, sub: string, k: nat, i: int)
    requires k <= |s| && 0 <= i
    ensures OccursAt(s[k..], sub, i) <==> OccursAt(s, sub, i + k)
  {
    if i + |sub| <= |s| - k {
      assert s[k..][i..i + |sub|] == s[i + k..i + k + |sub|];
    }
  }

  /** `s.find(sub) != npos`, computed by scanning from the left. */
  function Contains(s: string, sub: string): bool
    decreases |s|
  {
    if |sub| > |s| then false
    else if s[..|sub|] == sub then true
    else Contains(s[1..], sub)
  }

  lemma {:induction false} ContainsIff(s: string, sub: string)
    ensures Contains(s, sub) <==> exists i :: OccursAt(s, sub, i)
    decreases |s|
  {
    if |sub| > |s| {
    } else if s[..|sub|] == sub {
      assert OccursAt(s, sub, 0);
    } else {
      ContainsIff(s[1..], sub);
      if Contains(s[1..], sub) {
        var i :| OccursAt(s[1..], sub, i);
        OccursShift(s, sub, 1, i);
      } else {
        forall i | 0 <= i ensures !OccursAt(s, sub, i) {
          if i > 0 {
            OccursShift(s, sub, 1, i - 1);
          }
        }
      }
    }
  }

  /** The empty string is found in every string (`s.find("") == 0`). */
  lemma ContainsEmpty(s: string)
    ensures Contains(s, "")
  {
    assert s[..0] == "";
  }

  /** `::tolower` on one byte in the "C" locale. */
  function LowerChar(c: char): (r: char)
    ensures 'A' <= c <= 'Z' ==> r as int == c as int + 32
    ensures !('A' <= c <= 'Z') ==> r == c
  {
    if 'A' <= c <= 'Z' then (c as int + 32) as char else c
  }

  /** `std::transform(s.begin(), s.end(), s.begin(), ::tolower)`. */
  function Lower(s: string): (r: string)
    ensures |r| == |s|
    ensures forall i :: 0 <= i < |s| ==> r[i] == LowerChar(s[i])
  {
    seq(|s|, i requires 0 <= i < |s| => LowerChar(s[i]))
  }

  /** `n` copies of `c`. */
  function Repeat(c: char, n: nat): (r: string)
    ensures |r| == n
    ensures forall i :: 0 <= i < n ==> r[i] == c
  {
    seq(n, _ => c)
  }

  /** Concatenation of a sequence of strings. */
  function Concat(parts: seq<string>): string {
    if parts == [] then "" else Concat(parts[..|parts| - 1]) + parts[|parts| - 1]
  }

  /** The first index at or after `from` where `pat` occurs (`s.find(pat, from)`). */
  function Find(s: string, pat: string, from: nat): (r: int)
    requires |pat| > 0
    ensures r == -1 || (from <= r && OccursAt(s, pat, r))
    ensures r == -1 ==> forall i :: from <= i ==> !OccursAt(s, pat, i)
    ensures r != -1 ==> forall i :: from <= i < r ==> !OccursAt(s, pat, i)
    decreases |s| - from
  {
    if from + |pat| > |s| then -1
    else if s[from..from + |pat|] == pat then from
    else Find(s, pat, from + 1)
  }

  /** Left-to-right replacement of every non-overlapping occurrence of `pat`
      by `rep`; the reference meaning of a `find`/`replace` loop that resumes
      searching just after each replacement. */
  function Replace(s: string, pat: string, rep: string): string
    requires |pat| > 0
    decreases |s|
  {
    if |s| < |pat| then s
    else if s[..|pat|] == pat then rep + Replace(s[|pat|..], pat, rep)
    else [s[0]] + Replace(s[1..], pat, rep)
  }

  /** Replacing in a string with no occurrence changes nothing. */
  lemma {:induction false} ReplaceNoOccurrence(s: string, pat: string, rep: string)
    requires |pat| > 0
    requires forall i :: !OccursAt(s, pat, i)
    ensures Replace(s, pat, rep) == s
    decreases |s|
  {
    if |s| < |pat| {
    } else {
      assert !OccursAt(s, pat, 0);
      forall i ensures !OccursAt(s[1..], pat, i) {
        if 0 <= i {
          OccursShift(s, pat, 1, i);
        }
      }
      ReplaceNoOccurrence(s[1..], pat, rep);
      assert s == [s[0]] + s[1..];
    }
  }

  /** A string that does not start with an occurrence keeps its first
      character. */
  lemma ReplaceFirstCopied(s: string, pat: string, rep: string)
    requires |pat| > 0 && |s| > 0 && !OccursAt(s, pat, 0)
    ensures Replace(s, pat, rep) == [s[0]] + Replace(s[1..], pat, rep)
  {
    if |s| < |pat| {
      assert s == [s[0]] + s[1..];
    }
  }

  /** A stretch without occurrences is copied unchanged. */
  lemma {:induction false} ReplaceSkip(s: string, pat: string, rep: string, k: nat)
    requires |pat| > 0 && k <= |s|
    requires forall i :: 0 <= i < k ==> !OccursAt(s, pat, i)
    ensures Replace(s, pat, rep) == s[..k] + Replace(s[k..], pat, rep)
    decreases k
  {
    if k > 0 {
      var t := s[1..];
      assert !OccursAt(s, pat, 0);
      ReplaceFirstCopied(s, pat, rep);
      forall i | 0 <= i < k - 1 ensures !OccursAt(t, pat, i) {
        OccursShift(s, pat, 1, i);
      }
      ReplaceSkip(t, pat, rep, k - 1);
      assert t[k - 1..] == s[k..];
      assert [s[0]] + t[..k - 1] == s[..k];
      AppendAssoc([s[0]], t[..k - 1], Replace(s[k..], pat, rep));
    }
  }

  /** Each replacement changes the length by `|rep| - |pat|`; with a shorter
      replacement the result is never longer than the input. */
  lemma {:induction false} ReplaceShrinks(s: string, pat: string, rep: string)
    requires |pat| > 0 && |rep| <= |pat|
    ensures |Replace(s, pat, rep)| <= |s|
    decreases |s|
  {
    if |s| < |pat| {
    } else if s[..|pat|] == pat {
      ReplaceShrinks(s[|pat|..], pat, rep);
    } else {
      ReplaceShrinks(s[1..], pat, rep);
    }
  }

  /** A character that occurs neither in `s` nor in `rep` does not occur in
      the result. */
  lemma {:induction false} ReplaceAvoids(s: string, pat: string, rep: string, c: char)
    requires |pat| > 0 && c !in s && c !in rep
    ensures c !in Replace(s, pat, rep)
    decreases |s|
  {
    if |s| < |pat| {
    } else if s[..|pat|] == pat {
      ReplaceAvoids(s[|pat|..], pat, rep, c);
    } else {
      ReplaceAvoids(s[1..], pat, rep, c);
    }
  }

  /** Replacing a one-character pattern removes that character, provided the
      replacement does not contain it. */
  lemma {:induction false} ReplaceRemoves(s: string, c: char, rep: string)
    requires c !in rep
    ensures c !in Replace(s, [c], rep)
    decreases |s|
  {
    if |s| < 1 {
    } else if s[..1] == [c] {
      ReplaceRemoves(s[1..], c, rep);
    } else {
      assert s[0] != c;
      ReplaceRemoves(s[1..], c, rep);
    }
  }

  /** One step of the `find`/`replace` loop: the text from `pos` up to the
      next occurrence at `p` is copied, the occurrence becomes `rep`. */
  lemma ReplaceStep(s: string, pat: string, rep: string, pos: nat, p: nat)
    requires |pat| > 0 && pos <= p && OccursAt(s, pat, p)
    requires forall i :: pos <= i < p ==> !OccursAt(s, pat, i)
    ensures Replace(s[pos..], pat, rep) == s[pos..p] + rep + Replace(s[p + |pat|..], pat, rep)
  {
    var rest := s[pos..];
    forall i | 0 <= i < p - pos ensures !OccursAt(rest, pat, i) {
      OccursShift(s, pat, pos, i);
    }
    ReplaceSkip(rest, pat, rep, p - pos);
    assert rest[p - pos..][..|pat|] == pat;
    assert rest[p - pos..][|pat|..] == s[p + |pat|..];
    assert rest[..p - pos] == s[pos..p];
  }

  /** Past the last occurrence, the rest is copied unchanged. */
  lemma ReplaceTail(s: string, pat: string, rep: string, pos: nat)
    requires |pat| > 0 && pos <= |s|
    requires forall i :: pos <= i ==> !OccursAt(s, pat, i)
    ensures Replace(s[pos..], pat, rep) == s[pos..]
  {
    forall i ensures !OccursAt(s[pos..], pat, i) {
      if 0 <= i {
        OccursShift(s, pat, pos, i);
      }
    }
    ReplaceNoOccurrence(s[pos..], pat, rep);
  }

  /** In-place `find`/`replace` loop: search from `pos`, replace the
      occurrence, resume at `pos + |rep|`. */
  method ReplaceAll(s0: string, pat: string, rep: string) returns (s: string)
    requires |pat| > 0
    ensures s == Replace(s0, pat, rep)
  {
    s := s0;
    var pos: nat := 0;
    ghost var done: string := "";
    while true
      invariant pos <= |s|
      invariant s[..pos] == done
      invariant Replace(s0, pat, rep) == done + Replace(s[pos..], pat, rep)
      decreases |s| - pos
    {
      var p := Find(s, pat, pos);
      if p == -1 {
        ReplaceTail(s, pat, rep, pos);
        assert s == s[..pos] + s[pos..];
        return;
      }
      ReplaceStep(s, pat, rep, pos, p);
      var tail := s[p + |pat|..];
      ghost var done' := done + s[pos..p] + rep;
      assert Replace(s0, pat, rep) == done' + Replace(tail, pat, rep);
      var s' := s[..p] + rep + tail;
      assert s'[..p + |rep|] == done' && s'[p + |rep|..] == tail;
      done, s, pos := done', s', p + |rep|;
    }
  }
}
