/** Sizes of lists of log lines, and the two greedy cuts the log paths make. */
module LogLines {
  /** Rendered size: every line with its newline. */
  function Size(lines: seq<string>): nat {
    if lines == [] then 0 else |lines[0]| + 1 + Size(lines[1..])
  }

  lemma {:induction false} SizeConcat(a: seq<string>, b: seq<string>)
    ensures Size(a + b) == Size(a) + Size(b)
  {
    if a == [] {
      assert a + b == b;
    } else {
      assert (a + b)[1..] == a[1..] + b;
      SizeConcat(a[1..], b);
    }
  }

  lemma SizeAppend(lines: seq<string>, line: string)
    ensures Size(lines + [line]) == Size(lines) + |line| + 1
  {
    SizeConcat(lines, [line]);
  }

  lemma SizeSplit(lines: seq<string>, k: nat)
    requires k <= |lines|
    ensures Size(lines[..k]) + Size(lines[k..]) == Size(lines)
  {
    SizeConcat(lines[..k], lines[k..]);
    assert lines[..k] + lines[k..] == lines;
  }

  /** The longer of two prefixes, and of two suffixes, is strictly larger. */
  lemma CutsAreMonotone(lines: seq<string>, j: nat, k: nat)
    requires j < k <= |lines|
    ensures Size(lines[..j]) < Size(lines[..k]) && Size(lines[k..]) < Size(lines[j..])
  {
    SizeSplit(lines[..k], j);
    assert lines[..k][..j] == lines[..j] && lines[..k][j..] != [];
    SizeSplit(lines, j);
    SizeSplit(lines, k);
  }

  function LastOf<T>(s: seq<T>, n: nat): (last: seq<T>)
    ensures |last| == if |s| <= n then |s| else n
  {
    if |s| <= n then s else s[|s| - n..]
  }

  /** `lines[..k]` is the longest prefix within `limit`. */
  ghost predicate LongestPrefix(lines: seq<string>, limit: nat, k: nat) {
    k <= |lines| && forall j: nat :: j <= |lines| ==> (Size(lines[..j]) <= limit <==> j <= k)
  }

  /** `lines[k..]` is the longest suffix within `limit`. */
  ghost predicate LongestSuffix(lines: seq<string>, limit: nat, k: nat) {
    k <= |lines| && forall j: nat :: j <= |lines| ==> (Size(lines[j..]) <= limit <==> k <= j)
  }

  lemma PrefixCut(lines: seq<string>, limit: nat, k: nat)
    requires k <= |lines| && Size(lines[..k]) <= limit
    requires k < |lines| ==> Size(lines[..k + 1]) > limit
    ensures LongestPrefix(lines, limit, k)
  {
    forall j: nat | j <= |lines| ensures Size(lines[..j]) <= limit <==> j <= k {
      if j < k { CutsAreMonotone(lines, j, k); }
      if k + 1 < j { CutsAreMonotone(lines, k + 1, j); }
    }
  }

  lemma SuffixCut(lines: seq<string>, limit: nat, k: nat)
    requires k <= |lines| && Size(lines[k..]) <= limit
    requires k > 0 ==> Size(lines[k - 1..]) > limit
    ensures LongestSuffix(lines, limit, k)
  {
    forall j: nat | j <= |lines| ensures Size(lines[j..]) <= limit <==> k <= j {
      if k < j { CutsAreMonotone(lines, k, j); }
      if j + 1 < k { CutsAreMonotone(lines, j, k - 1); }
    }
  }

  /** Where the longest suffix within `limit` starts: step over the oldest line
      as long as the rest is too large. */
  function Trimmed(lines: seq<string>, limit: nat): (k: nat)
    ensures k <= |lines|
  {
    if Size(lines) <= limit then 0 else 1 + Trimmed(lines[1..], limit)
  }

  lemma {:induction false} TrimmedIsLongest(lines: seq<string>, limit: nat)
    ensures LongestSuffix(lines, limit, Trimmed(lines, limit))
    ensures Trimmed(lines, limit) == 0 <==> Size(lines) <= limit
  {
    var k := Trimmed(lines, limit);
    assert lines[0..] == lines;
    if k > 0 {
      TrimmedIsLongest(lines[1..], limit);
      assert lines[1..][k - 1..] == lines[k..];
      if k > 1 { assert lines[1..][k - 2..] == lines[k - 1..]; }
      SuffixCut(lines, limit, k);
    } else {
      SuffixCut(lines, limit, 0);
    }
  }

  /** Dropping whole lines from the front until the rest fits: the answer is the
      longest suffix within the limit, and something was cut exactly when the
      whole did not fit. */
  method TrimToBytes(lines: seq<string>, limit: nat) returns (rest: seq<string>, cut: bool)
    ensures rest == lines[Trimmed(lines, limit)..]
    ensures cut <==> Size(lines) > limit
    ensures LongestSuffix(lines, limit, |lines| - |rest|)
  {
    TrimmedIsLongest(lines, limit);
    var total := 0;
    for i := 0 to |lines|
      invariant total == Size(lines[..i])
    {
      assert lines[..i + 1] == lines[..i] + [lines[i]];
      SizeAppend(lines[..i], lines[i]);
      total := total + |lines[i]| + 1;
    }
    assert lines[..|lines|] == lines;
    if total <= limit {
      return lines, false;
    }
    var index := 0;
    while index < |lines| && total > limit
      invariant index <= Trimmed(lines, limit)
      invariant total == Size(lines[index..])
    {
      assert index < Trimmed(lines, limit);
      assert lines[index..][1..] == lines[index + 1..];
      total := total - (|lines[index]| + 1);
      index := index + 1;
    }
    assert index == Trimmed(lines, limit);
    return lines[index..], true;
  }
}
