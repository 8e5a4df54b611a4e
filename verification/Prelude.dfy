/** Small shared vocabulary: optional values and facts about sequences and strings. */
module Prelude {
  datatype Option<+T> = None | Some(value: T)

  ghost predicate NoDup<T>(s: seq<T>) {
    forall i, j :: 0 <= i < j < |s| ==> s[i] != s[j]
  }

  predicate OccursAt(text: string, part: string, i: int) {
    0 <= i <= |text| - |part| && forall k {:trigger part[k]} :: 0 <= k < |part| ==> text[i + k] == part[k]
  }

  /** `text.includes(part)`. */
  predicate Includes(text: string, part: string) {
    exists i | 0 <= i <= |text| - |part| :: OccursAt(text, part, i)
  }

  predicate StartsWith(text: string, prefix: string) {
    prefix <= text
  }

  lemma {:induction false} OccursSplit(text: string, a: string, b: string, i: int)
    requires OccursAt(text, a + b, i)
    ensures OccursAt(text, a, i) && OccursAt(text, b, i + |a|)
  {
    forall k | 0 <= k < |a| ensures text[i + k] == a[k] {
      assert (a + b)[k] == a[k];
    }
    forall k | 0 <= k < |b| ensures text[i + |a| + k] == b[k] {
      assert (a + b)[|a| + k] == b[k];
    }
  }

  lemma {:induction false} OccursChar(text: string, part: string, i: int, k: int)
    requires OccursAt(text, part, i) && 0 <= k < |part|
    ensures text[i + k] == part[k]
  {
  }

  lemma {:induction false} IncludesPrefix(prefix: string, rest: string)
    ensures Includes(prefix + rest, prefix)
  {
    assert OccursAt(prefix + rest, prefix, 0);
  }

  function Decimal(n: nat): (text: string)
    ensures |text| > 0
    ensures forall i :: 0 <= i < |text| ==> '0' <= text[i] <= '9'
    decreases n
  {
    if n < 10 then [('0' as int + n) as char] else Decimal(n / 10) + [('0' as int + n % 10) as char]
  }
}
