/** Small value types and string predicates shared by the models. */
module Common {
  datatype Option<+T> = None | Some(value: T)

  datatype Result<+T, +E> = Ok(value: T) | Err(error: E)

  /** `d.get(key)`. */
  function Get<K, T>(m: map<K, T>, key: K): Option<T> {
    if key in m then Some(m[key]) else None
  }

  /** A dictionary of lists in which a missing key stands for the empty list. */
  function GetSeq<K, T>(m: map<K, seq<T>>, key: K): seq<T> {
    if key in m then m[key] else []
  }

  /** `strings.HasSuffix`. */
  predicate HasSuffix(s: string, suffix: string) {
    |suffix| <= |s| && s[|s| - |suffix|..] == suffix
  }

  /** `strings.TrimSuffix(s, "\n")`. */
  function TrimNewlineSuffix(s: string): string {
    if HasSuffix(s, "\n") then s[..|s| - 1] else s
  }

  /** `strings.TrimRight(s, "\n")`. */
  function TrimRightNewlines(s: string): string {
    if |s| > 0 && s[|s| - 1] == '\n' then TrimRightNewlines(s[..|s| - 1]) else s
  }

  /** `strings.LastIndex(s, "\n")`. */
  function LastNewline(s: string): (i: int)
    ensures -1 <= i < |s|
    ensures 0 <= i ==> s[i] == '\n'
    ensures forall k :: i < k < |s| ==> s[k] != '\n'
  {
    if s == "" then -1
    else if s[|s| - 1] == '\n' then |s| - 1
    else LastNewline(s[..|s| - 1])
  }

  /** `strings.Count(s, "\n")`. */
  function CountNewlines(s: string): nat {
    if s == "" then 0
    else CountNewlines(s[..|s| - 1]) + if s[|s| - 1] == '\n' then 1 else 0
  }

  /** `strings.ReplaceAll`: leftmost occurrences, none overlapping. */
  function ReplaceAll(text: string, target: string, replacement: string): string
    requires target != ""
  {
    if |text| < |target| then text
    else if text[..|target|] == target then replacement + ReplaceAll(text[|target|..], target, replacement)
    else [text[0]] + ReplaceAll(text[1..], target, replacement)
  }

  lemma ConcatAssociative<T>(a: seq<T>, b: seq<T>, c: seq<T>)
    ensures (a + b) + c == a + (b + c)
  {
  }

  /** One sequence can be had from the other by leaving elements out. */
  ghost predicate Subsequence<T>(a: seq<T>, b: seq<T>) {
    a == []
    || (b != []
        && (Subsequence(a, b[..|b| - 1])
            || (a[|a| - 1] == b[|b| - 1] && Subsequence(a[..|a| - 1], b[..|b| - 1]))))
  }

  lemma {:induction false} SubsequenceAppend<T>(a: seq<T>, b: seq<T>, more: seq<T>)
    requires Subsequence(a, b)
    ensures Subsequence(a, b + more) && Subsequence(a + more, b + more)
    decreases |more|
  {
    if more == [] {
      assert a + more == a && b + more == b;
    } else {
      var front, last := more[..|more| - 1], more[|more| - 1];
      SubsequenceAppend(a, b, front);
      assert (b + more)[..|b + more| - 1] == b + front;
      assert (a + more)[..|a + more| - 1] == a + front;
    }
  }

  lemma {:induction false} SubsequenceDropLast<T>(a: seq<T>, x: T, b: seq<T>)
    requires Subsequence(a + [x], b)
    ensures Subsequence(a, b)
    decreases |b|
  {
    if a != [] {
      var front := b[..|b| - 1];
      if Subsequence(a + [x], front) {
        SubsequenceDropLast(a, x, front);
      } else {
        assert (a + [x])[..|a|] == a;
      }
    }
  }

  /** Leaving out a stretch leaves a subsequence. */
  lemma {:induction false} SubsequenceCut<T>(a: seq<T>, cut: seq<T>, c: seq<T>, b: seq<T>)
    requires Subsequence(a + cut + c, b)
    ensures Subsequence(a + c, b)
    decreases |b|, |cut|
  {
    if cut == [] {
      assert a + cut + c == a + c;
    } else if c == [] {
      var front, x := cut[..|cut| - 1], cut[|cut| - 1];
      assert a + cut + c == (a + front) + [x];
      SubsequenceDropLast(a + front, x, b);
      assert a + front + c == a + front;
      SubsequenceCut(a, front, c, b);
    } else {
      var rest := b[..|b| - 1];
      if Subsequence(a + cut + c, rest) {
        SubsequenceCut(a, cut, c, rest);
      } else {
        var front := c[..|c| - 1];
        assert (a + cut + c)[..|a + cut + c| - 1] == a + cut + front;
        SubsequenceCut(a, cut, front, rest);
        assert (a + c)[..|a + c| - 1] == a + front;
      }
    }
  }

  /** A subsequence as long as the whole is the whole. */
  lemma {:induction false} SubsequenceWhole<T>(a: seq<T>, b: seq<T>)
    requires Subsequence(a, b)
    ensures |a| <= |b| && (|a| == |b| ==> a == b)
    decreases |b|
  {
    if a != [] {
      var front := b[..|b| - 1];
      if Subsequence(a, front) {
        SubsequenceWhole(a, front);
      } else {
        SubsequenceWhole(a[..|a| - 1], front);
        assert a == a[..|a| - 1] + [a[|a| - 1]] && b == front + [b[|b| - 1]];
      }
    }
  }
}
