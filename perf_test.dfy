/** The generation benchmark (src/perf_test.rs): generate the paper a
    thousand times, stop at the first error, then sort the timings in place
    and report a median. Durations are whole nanoseconds. */
module PerfTest {
  import opened Prelude
  import opened Settings
  import opened Data
  import opened PdfElements
  import opened Backend
  import opened PdfGen

  predicate Sorted(s: seq<nat>) {
    forall x, y :: 0 <= x < y < |s| ==> s[x] <= s[y]
  }

  /* ---------------- sorting in place ---------------- */

  /** The index of a smallest element of `a[from..]`. */
  method MinIndex(a: array<nat>, from: nat) returns (m: nat)
    requires from < a.Length
    ensures from <= m < a.Length
    ensures forall y :: from <= y < a.Length ==> a[m] <= a[y]
  {
    m := from;
    var j := from + 1;
    while j < a.Length
      invariant from <= m < j <= a.Length
      invariant forall y :: from <= y < j ==> a[m] <= a[y]
    {
      if a[j] < a[m] {
        m := j;
      }
      j := j + 1;
    }
  }

  /** `times.sort()`: ascending, and the same timings as before. */
  method Sort(a: array<nat>)
    modifies a
    ensures Sorted(a[..])
    ensures multiset(a[..]) == old(multiset(a[..]))
  {
    var i := 0;
    while i < a.Length
      invariant 0 <= i <= a.Length
      invariant forall x, y :: 0 <= x < y < i ==> a[x] <= a[y]
      invariant forall x, y :: 0 <= x < i <= y < a.Length ==> a[x] <= a[y]
      invariant multiset(a[..]) == old(multiset(a[..]))
    {
      var m := MinIndex(a, i);
      a[i], a[m] := a[m], a[i];
      i := i + 1;
    }
  }

  /** Two ascending sequences holding the same elements are the same
      sequence, so the sorted timings, and any median read off them, do not
      depend on how they were sorted. */
  lemma {:induction false} SortedPermutationUnique(a: seq<nat>, b: seq<nat>)
    requires Sorted(a) && Sorted(b) && multiset(a) == multiset(b)
    ensures a == b
    decreases |a|
  {
    assert |a| == |multiset(a)| == |b|;
    if |a| > 0 {
      SortedHeadIsLeast(a, b[0]);
      SortedHeadIsLeast(b, a[0]);
      RemoveHead(a, b);
      SortedPermutationUnique(a[1..], b[1..]);
      assert a == [a[0]] + a[1..] && b == [b[0]] + b[1..];
    }
  }

  /** The first of ascending values is at most any value among them. */
  lemma SortedHeadIsLeast(a: seq<nat>, v: nat)
    requires Sorted(a) && v in multiset(a)
    ensures |a| > 0 && a[0] <= v
  {
    var i :| 0 <= i < |a| && a[i] == v;
  }

  /** Dropping equal first elements keeps the multisets equal. */
  lemma RemoveHead(a: seq<nat>, b: seq<nat>)
    requires |a| > 0 && |b| > 0 && a[0] == b[0] && multiset(a) == multiset(b)
    ensures multiset(a[1..]) == multiset(b[1..])
  {
    assert a == [a[0]] + a[1..] && b == [b[0]] + b[1..];
    assert multiset(a) == multiset{a[0]} + multiset(a[1..]);
    assert multiset(b) == multiset{a[0]} + multiset(b[1..]);
    assert multiset(a[1..]) == multiset(a) - multiset{a[0]};
    assert multiset(b[1..]) == multiset(b) - multiset{a[0]};
  }

  /* ---------------- the median ---------------- */

  /** The median `print_stats` reports from the sorted timings: for an even
      count the sum of the two middle ones, for an odd count the one just
      before the middle. */
  function MedianAsWritten(s: seq<nat>): nat
    requires |s| >= 2
  {
    var n := |s|;
    if n % 2 == 0 then s[n / 2 - 1] + s[n / 2] else s[n / 2 - 1]
  }

  /** The median of sorted values: the middle one, or the mean of the two
      middle ones rounded down. */
  function Median(s: seq<nat>): nat
    requires |s| >= 1
  {
    var n := |s|;
    if n % 2 == 1 then s[n / 2] else (s[n / 2 - 1] + s[n / 2]) / 2
  }

  /** In sorted values the median has at least half of them at or below it
      and at least half at or above it. */
  lemma MedianIsMiddle(s: seq<nat>)
    requires Sorted(s) && |s| >= 1
    ensures forall j :: 0 <= j <= (|s| - 1) / 2 ==> s[j] <= Median(s)
    ensures forall j :: |s| / 2 <= j < |s| ==> Median(s) <= s[j]
  {
    var n := |s|;
    assert s[(n - 1) / 2] <= Median(s) <= s[n / 2];
  }

  /** For an even count the reported value is the two middle timings added,
      twice the median up to rounding. */
  lemma MedianAsWrittenEvenIsDoubled(s: seq<nat>)
    requires |s| >= 2 && |s| % 2 == 0
    ensures MedianAsWritten(s) == 2 * Median(s) || MedianAsWritten(s) == 2 * Median(s) + 1
  {
  }

  /** Two timings 1 and 3: the reported value is 4, above both; the median is 2. */
  lemma MedianAsWrittenEvenExample()
    ensures MedianAsWritten([1, 3]) == 4 && Median([1, 3]) == 2
  {
  }

  /** Three timings 1, 2, 3: the reported value is 1, the smallest; the
      median is 2. Only one of the three is at or below the reported value. */
  lemma MedianAsWrittenOddExample()
    ensures MedianAsWritten([1, 2, 3]) == 1 && Median([1, 2, 3]) == 2
  {
  }

  /** `print_stats`: sorts the timings in place and reports the median as
      written. A count below 2 underflows `len / 2 - 1`. */
  method PrintStats(times: array<nat>) returns (median: nat)
    requires times.Length >= 2
    modifies times
    ensures Sorted(times[..]) && multiset(times[..]) == old(multiset(times[..]))
    ensures median == MedianAsWritten(times[..])
  {
    Sort(times);
    var n := times.Length;
    if n % 2 == 0 {
      median := times[n / 2 - 1] + times[n / 2];
    } else {
      median := times[n / 2 - 1];
    }
  }

  /* ---------------- the benchmark loop ---------------- */

  const TestIter: nat := 1000

  /** The error `generate_pdf` returns for a failing outcome. */
  function ErrorOf(io: IoOutcome): PdfError
    requires !Succeeds(io)
  {
    if io.fontError.Some? then io.fontError.value else io.writeError.value
  }

  /** Run `k` is the first whose generation fails. */
  predicate FirstFailure(ios: nat -> IoOutcome, k: nat) {
    !Succeeds(ios(k)) && forall j :: 0 <= j < k ==> Succeeds(ios(j))
  }

  /** The timings of the first `n` runs. */
  function Timings(ios: nat -> IoOutcome, n: nat): (t: seq<nat>)
    ensures |t| == n && forall j :: 0 <= j < n ==> t[j] == ios(j).elapsed
  {
    if n == 0 then [] else Timings(ios, n - 1) + [ios(n - 1).elapsed]
  }

  /** The first failing run is unique. */
  lemma FirstFailureUnique(ios: nat -> IoOutcome, k: nat, k': nat)
    requires FirstFailure(ios, k) && FirstFailure(ios, k')
    ensures k == k'
  {
    assert k' < k ==> Succeeds(ios(k'));
    assert k < k' ==> Succeeds(ios(k));
  }

  /** `print_stats` on the collected timings: the value reported is the
      as-written median of their ascending order, whichever sort produced it. */
  method ReportMedian(times: seq<nat>) returns (median: nat)
    requires |times| >= 2
    ensures forall s: seq<nat> :: |s| == |times| && Sorted(s) && multiset(s) == multiset(times) ==> median == MedianAsWritten(s)
  {
    var arr := new nat[|times|](j requires 0 <= j < |times| => times[j]);
    assert arr[..] == times;
    median := PrintStats(arr);
    forall s: seq<nat> | |s| == |times| && Sorted(s) && multiset(s) == multiset(times)
      ensures median == MedianAsWritten(s)
    {
      SortedPermutationUnique(s, arr[..]);
    }
  }

  /** One `generate_pdf(&project)?` of the loop, seen only through its
      result and the output file. */
  method GenerateOnce(p: Project, extras: Language -> ExtraStrings, rng: Rng, io: IoOutcome, fs: FileSystem)
      returns (r: Result<nat, PdfError>)
    requires io.fontError.None? ==> ListsFit(p) && FooterDefined(p)
    modifies rng, fs
    ensures r.Success? <==> Succeeds(io)
    ensures r.Success? ==> r.value == io.elapsed && p.settings.output in fs.files
    ensures r.Failure? ==> r.error == ErrorOf(io)
    ensures fs.files - {p.settings.output} == old(fs.files) - {p.settings.output}
  {
    var g, _, _ := GeneratePdf(p, extras, rng, io, fs);
    r := g;
  }

  /** The loop of `test_pdf_generation` for `n` runs: run `j` meets the
      outside world `ios(j)`; the first failing run ends the loop with its
      error and no statistics; otherwise all `n` runs happen and the reported
      median is the as-written median of the sorted timings. */
  method Benchmark(n: nat, p: Project, extras: Language -> ExtraStrings, rng: Rng,
                   ios: nat -> IoOutcome, fs: FileSystem)
      returns (r: Result<nat, PdfError>, ghost calls: nat)
    requires n >= 2
    requires ios(0).fontError.None? ==> ListsFit(p) && FooterDefined(p)
    modifies rng, fs
    ensures r.Success? <==> forall j :: 0 <= j < n ==> Succeeds(ios(j))
    ensures forall k :: 0 <= k < n && FirstFailure(ios, k) ==> r == Failure(ErrorOf(ios(k))) && calls == k + 1
    ensures r.Success? ==> calls == n
    ensures r.Success? ==> forall s: seq<nat> :: |s| == calls && Sorted(s) && multiset(s) == multiset(Timings(ios, calls)) ==> r.value == MedianAsWritten(s)
    ensures fs.files - {p.settings.output} == old(fs.files) - {p.settings.output}
    ensures r.Success? ==> p.settings.output in fs.files
  {
    var times: seq<nat> := [];
    calls := 0;
    var k := 0;
    while k < n
      invariant 0 <= k <= n && calls == k
      invariant times == Timings(ios, k)
      invariant forall j :: 0 <= j < k ==> Succeeds(ios(j))
      invariant fs.files - {p.settings.output} == old(fs.files) - {p.settings.output}
      invariant k > 0 ==> p.settings.output in fs.files
      invariant k > 0 ==> ListsFit(p) && FooterDefined(p)
    {
      var g := GenerateOnce(p, extras, rng, ios(k), fs);
      calls := calls + 1;
      if g.Failure? {
        assert !Succeeds(ios(k));
        forall k' | 0 <= k' < n && FirstFailure(ios, k')
          ensures k' == k
        {
          FirstFailureUnique(ios, k, k');
        }
        r := Failure(g.error);
        return;
      }
      times := times + [g.value];
      k := k + 1;
    }
    var median := ReportMedian(times);
    r := Success(median);
  }

  /** `test_pdf_generation`: the benchmark with `TEST_ITER` = 1000 runs. */
  method TestPdfGeneration(p: Project, extras: Language -> ExtraStrings, rng: Rng,
                           ios: nat -> IoOutcome, fs: FileSystem)
      returns (r: Result<nat, PdfError>, ghost calls: nat)
    requires ios(0).fontError.None? ==> ListsFit(p) && FooterDefined(p)
    modifies rng, fs
    ensures r.Success? <==> forall j :: 0 <= j < TestIter ==> Succeeds(ios(j))
    ensures forall k :: 0 <= k < TestIter && FirstFailure(ios, k) ==> r == Failure(ErrorOf(ios(k))) && calls == k + 1
    ensures r.Success? ==> calls == TestIter
    ensures r.Success? ==> forall s: seq<nat> :: |s| == calls && Sorted(s) && multiset(s) == multiset(Timings(ios, calls)) ==> r.value == MedianAsWritten(s)
    ensures fs.files - {p.settings.output} == old(fs.files) - {p.settings.output}
    ensures r.Success? ==> p.settings.output in fs.files
  {
    r, calls := Benchmark(TestIter, p, extras, rng, ios, fs);
  }
}
