/** Transcript scoring of the acoustic tests: edit distance by the two-row
    table, per-clip scores and their aggregate. */
module Scoring {
  import opened EditScripts

  function Min(a: nat, b: nat): nat {
    if a < b then a else b
  }

  /** The edit-distance recurrence, on the last tokens. */
  function Distance<T(==)>(a: seq<T>, b: seq<T>): nat {
    if a == [] then |b|
    else if b == [] then |a|
    else
      var a', b' := a[..|a| - 1], b[..|b| - 1];
      Min(Distance(a, b') + 1,
          Min(Distance(a', b) + 1, Distance(a', b') + if a[|a| - 1] != b[|b| - 1] then 1 else 0))
  }

  lemma Grow<T>(s: Script<T>, e: Edit<T>, a: seq<T>, b: seq<T>)
    requires Rewrites(s, a, b)
    ensures Rewrites(Then(s, e), a + Consumes(e), b + Produces(e)) && Cost(Then(s, e)) == Cost(s) + Price(e)
  {}

  /** The last edit the recurrence takes. */
  function LastEdit<T(==)>(a: seq<T>, b: seq<T>): Edit<T>
    requires a != [] || b != []
  {
    if a == [] then Insert(b[|b| - 1])
    else if b == [] then Delete(a[|a| - 1])
    else if Distance(a, b) == Distance(a, b[..|b| - 1]) + 1 then Insert(b[|b| - 1])
    else if Distance(a, b) == Distance(a[..|a| - 1], b) + 1 then Delete(a[|a| - 1])
    else if a[|a| - 1] == b[|b| - 1] then Keep(a[|a| - 1])
    else Substitute(a[|a| - 1], b[|b| - 1])
  }

  /** What `LastEdit` leaves to be rewritten. */
  function Before<T(==)>(a: seq<T>, e: Edit<T>): seq<T>
    requires e.Insert? || a != []
  {
    if e.Insert? then a else a[..|a| - 1]
  }

  function BeforeOf<T(==)>(b: seq<T>, e: Edit<T>): seq<T>
    requires e.Delete? || b != []
  {
    if e.Delete? then b else b[..|b| - 1]
  }

  lemma LastEditSplits<T>(a: seq<T>, b: seq<T>)
    requires a != [] || b != []
    ensures var e := LastEdit(a, b);
            && (e.Insert? || a != []) && (e.Delete? || b != [])
            && a == Before(a, e) + Consumes(e) && b == BeforeOf(b, e) + Produces(e)
  {}

  lemma LastEditCosts<T>(a: seq<T>, b: seq<T>)
    requires a != [] || b != []
    ensures var e := LastEdit(a, b);
            && (e.Insert? || a != []) && (e.Delete? || b != [])
            && Distance(a, b) == Distance(Before(a, e), BeforeOf(b, e)) + Price(e)
  {}

  /** The script the recurrence follows. */
  lemma {:induction false} BestScript<T>(a: seq<T>, b: seq<T>) returns (s: Script<T>)
    ensures Rewrites(s, a, b) && Cost(s) == Distance(a, b)
    decreases |a| + |b|
  {
    if a == [] && b == [] {
      s := Empty;
    } else {
      LastEditSplits(a, b);
      LastEditCosts(a, b);
      var e := LastEdit(a, b);
      var before := BestScript(Before(a, e), BeforeOf(b, e));
      Grow(before, e, Before(a, e), BeforeOf(b, e));
      s := Then(before, e);
    }
  }

  /** One more edit raises the distance by no more than its price. */
  lemma OneMoreEdit<T>(a: seq<T>, b: seq<T>, e: Edit<T>)
    ensures Distance(a + Consumes(e), b + Produces(e)) <= Distance(a, b) + Price(e)
  {
    var a', b' := a + Consumes(e), b + Produces(e);
    if e.Insert? { assert a' == a; } else { assert a'[..|a'| - 1] == a; }
    if e.Delete? { assert b' == b; } else { assert b'[..|b'| - 1] == b; }
  }

  lemma {:induction false} NoScriptIsCheaper<T>(s: Script<T>)
    ensures Distance(Source(s), Target(s)) <= Cost(s)
  {
    if s.Then? {
      NoScriptIsCheaper(s.before);
      OneMoreEdit(Source(s.before), Target(s.before), s.last);
    }
  }

  lemma DistanceIsLeast<T(!new)>(a: seq<T>, b: seq<T>)
    ensures IsLeastCost(Distance(a, b), a, b)
  {
    var best := BestScript(a, b);
    forall s: Script<T> | Rewrites(s, a, b) ensures Distance(a, b) <= Cost(s) { NoScriptIsCheaper(s); }
  }

  /** One cell of the table from its three neighbours. */
  lemma Cell<T>(a: seq<T>, i: nat, b: seq<T>, j: nat)
    requires i < |a| && j < |b|
    ensures Distance(a[..i + 1], b[..j + 1])
         == Min(Distance(a[..i + 1], b[..j]) + 1,
                Min(Distance(a[..i], b[..j + 1]) + 1, Distance(a[..i], b[..j]) + if a[i] != b[j] then 1 else 0))
  {
    assert a[..i + 1][..i] == a[..i] && b[..j + 1][..j] == b[..j];
  }

  /** A row of the table: the distances from `a` to each prefix of `b` so far. */
  predicate IsRow<T(==)>(row: seq<nat>, a: seq<T>, b: seq<T>, j: nat) {
    j <= |b| && |row| == j + 1 && forall k :: 0 <= k <= j ==> row[k] == Distance(a, b[..k])
  }

  lemma RowGrows<T>(row: seq<nat>, cell: nat, a: seq<T>, b: seq<T>, j: nat)
    requires IsRow(row, a, b, j) && j < |b| && cell == Distance(a, b[..j + 1])
    ensures IsRow(row + [cell], a, b, j + 1)
  {}

  /** `edit_distance`: two rows of the table, the least cost over all scripts. */
  method EditDistance<T(==, !new)>(reference: seq<T>, actual: seq<T>) returns (distance: nat)
    ensures distance == Distance(reference, actual) && IsLeastCost(distance, reference, actual)
  {
    var previous: seq<nat> := seq(|actual| + 1, k requires 0 <= k => k);
    for i := 0 to |reference|
      invariant IsRow(previous, reference[..i], actual, |actual|)
    {
      var expected := reference[i];
      var current: seq<nat> := [i + 1];
      for j := 0 to |actual|
        invariant IsRow(current, reference[..i + 1], actual, j)
      {
        var observed := actual[j];
        var least := Min(current[|current| - 1] + 1,
                         Min(previous[j + 1] + 1, previous[j] + if expected != observed then 1 else 0));
        Cell(reference, i, actual, j);
        RowGrows(current, least, reference[..i + 1], actual, j);
        current := current + [least];
      }
      previous := current;
    }
    distance := previous[|previous| - 1];
    assert reference[..|reference|] == reference && actual[..|actual|] == actual;
    DistanceIsLeast(reference, actual);
  }

  lemma {:induction false} SameIsFree<T>(a: seq<T>)
    ensures Distance(a, a) == 0
  {
    if a != [] { SameIsFree(a[..|a| - 1]); }
  }

  lemma {:induction false} FreeIsSame<T>(s: Script<T>)
    requires Cost(s) == 0
    ensures Source(s) == Target(s)
  {
    if s.Then? { FreeIsSame(s.before); }
  }

  /** The distance is a metric. */
  lemma DistanceIsMetric<T>(a: seq<T>, b: seq<T>, c: seq<T>)
    ensures Distance(a, b) == 0 <==> a == b
    ensures Distance(a, b) == Distance(b, a)
    ensures Distance(a, c) <= Distance(a, b) + Distance(b, c)
  {
    SameIsFree(a);
    var ab := BestScript(a, b);
    var ba := BestScript(b, a);
    var bc := BestScript(b, c);
    if Distance(a, b) == 0 { FreeIsSame(ab); }
    InverseRewrites(ab);
    NoScriptIsCheaper(Inverse(ab));
    InverseRewrites(ba);
    NoScriptIsCheaper(Inverse(ba));
    ComposeRewrites(ab, bc);
    NoScriptIsCheaper(Compose(ab, bc));
  }

  lemma LengthsDiffer<T>(s: Script<T>)
    ensures |Source(s)| - |Target(s)| <= Cost(s) && |Target(s)| - |Source(s)| <= Cost(s)
  {}

  lemma {:induction false} NoWorseThanReplacing<T>(a: seq<T>, b: seq<T>)
    ensures Distance(a, b) <= if |a| < |b| then |b| else |a|
  {
    if a != [] && b != [] { NoWorseThanReplacing(a[..|a| - 1], b[..|b| - 1]); }
  }

  /** It is at least the difference in length and at most the greater length. */
  lemma DistanceBounds<T>(a: seq<T>, b: seq<T>)
    ensures |a| - |b| <= Distance(a, b) && |b| - |a| <= Distance(a, b)
    ensures Distance(a, b) <= if |a| < |b| then |b| else |a|
  {
    var s := BestScript(a, b);
    LengthsDiffer(s);
    NoWorseThanReplacing(a, b);
  }

  /** Scoring clip by clip never undercounts scoring them joined. */
  lemma DistanceOfJoined<T>(r1: seq<T>, a1: seq<T>, r2: seq<T>, a2: seq<T>)
    ensures Distance(r1 + r2, a1 + a2) <= Distance(r1, a1) + Distance(r2, a2)
  {
    var s1 := BestScript(r1, a1);
    var s2 := BestScript(r2, a2);
    AppendRewrites(s1, s2);
    NoScriptIsCheaper(Append(s1, s2));
  }

  /** A normalised text is its words; the text without its blanks, their letters. */
  function Letters(words: seq<string>): string {
    if words == [] then [] else Letters(words[..|words| - 1]) + words[|words| - 1]
  }

  datatype Counts = Counts(wordEdits: nat, referenceWords: nat, charEdits: nat, referenceChars: nat)

  datatype Report = Report(
    counts: Counts, wer: real, wordAccuracyPercent: real, cer: real, characterAccuracyPercent: real
  )

  function Rate(edits: nat, size: nat): real {
    if size != 0 then edits as real / size as real else 0.0
  }

  function AccuracyPercent(rate: real): real {
    (if 1.0 - rate > 0.0 then 1.0 - rate else 0.0) * 100.0
  }

  function MakeReport(c: Counts): Report {
    var wer, cer := Rate(c.wordEdits, c.referenceWords), Rate(c.charEdits, c.referenceChars);
    Report(c, wer, AccuracyPercent(wer), cer, AccuracyPercent(cer))
  }

  datatype Clip = Clip(reference: seq<string>, actual: seq<string>)

  /** `score`, on normalised texts. */
  function Score(clip: Clip): Report {
    MakeReport(Counts(Distance(clip.reference, clip.actual), |clip.reference|,
                      Distance(Letters(clip.reference), Letters(clip.actual)), |Letters(clip.reference)|))
  }

  function Totals(results: seq<Report>): Counts {
    if results == [] then Counts(0, 0, 0, 0)
    else
      var sum, last := Totals(results[..|results| - 1]), results[|results| - 1].counts;
      Counts(sum.wordEdits + last.wordEdits, sum.referenceWords + last.referenceWords,
             sum.charEdits + last.charEdits, sum.referenceChars + last.referenceChars)
  }

  function Aggregate(results: seq<Report>): Report {
    MakeReport(Totals(results))
  }

  lemma RateIsZero(edits: nat, size: nat)
    ensures Rate(edits, size) >= 0.0
    ensures Rate(edits, size) == 0.0 <==> edits == 0 || size == 0
  {
    if edits != 0 && size != 0 { assert edits as real / size as real > 0.0; }
  }

  lemma AccuracyIsFull(rate: real)
    requires rate >= 0.0
    ensures 0.0 <= AccuracyPercent(rate) <= 100.0 && (AccuracyPercent(rate) == 100.0 <==> rate == 0.0)
  {}

  /** An accuracy is a percentage, and full exactly when nothing was edited or,
      as the program has it, when there was nothing to transcribe. */
  lemma FullAccuracy(clip: Clip)
    ensures 0.0 <= Score(clip).wordAccuracyPercent <= 100.0
    ensures Score(clip).wordAccuracyPercent == 100.0 <==> clip.reference == [] || clip.reference == clip.actual
    ensures clip.reference == clip.actual ==> Score(clip).characterAccuracyPercent == 100.0
  {
    var c := Score(clip).counts;
    DistanceIsMetric(clip.reference, clip.actual, clip.actual);
    DistanceIsMetric(Letters(clip.reference), Letters(clip.actual), []);
    RateIsZero(c.wordEdits, c.referenceWords);
    RateIsZero(c.charEdits, c.referenceChars);
    AccuracyIsFull(Score(clip).wer);
    AccuracyIsFull(Score(clip).cer);
  }

  function Scores(clips: seq<Clip>): seq<Report> {
    seq(|clips|, i requires 0 <= i < |clips| => Score(clips[i]))
  }

  /** All the clips of a corpus read as one. */
  function Joined(clips: seq<Clip>): Clip {
    if clips == [] then Clip([], [])
    else
      var before, last := Joined(clips[..|clips| - 1]), clips[|clips| - 1];
      Clip(before.reference + last.reference, before.actual + last.actual)
  }

  lemma {:induction false} LettersJoin(a: seq<string>, b: seq<string>)
    ensures Letters(a + b) == Letters(a) + Letters(b)
  {
    if b == [] {
      assert a + b == a;
    } else {
      LettersJoin(a, b[..|b| - 1]);
      assert (a + b)[..|a + b| - 1] == a + b[..|b| - 1];
    }
  }

  /** The summed edits bound the distance between the joined transcripts, over
      exactly as much reference text. */
  lemma {:induction false} AggregateBoundsCorpus(clips: seq<Clip>)
    ensures var joined, total := Score(Joined(clips)).counts, Aggregate(Scores(clips)).counts;
            && joined.wordEdits <= total.wordEdits && joined.referenceWords == total.referenceWords
            && joined.charEdits <= total.charEdits && joined.referenceChars == total.referenceChars
  {
    if clips != [] {
      var before, last := clips[..|clips| - 1], clips[|clips| - 1];
      AggregateBoundsCorpus(before);
      assert Scores(clips)[..|clips| - 1] == Scores(before);
      var joined := Joined(before);
      DistanceOfJoined(joined.reference, joined.actual, last.reference, last.actual);
      LettersJoin(joined.reference, last.reference);
      LettersJoin(joined.actual, last.actual);
      DistanceOfJoined(Letters(joined.reference), Letters(joined.actual), Letters(last.reference), Letters(last.actual));
    }
  }

  /** `bound` for each of `size` words. */
  function Allowance(bound: real, size: nat): real {
    if size == 0 then 0.0 else Allowance(bound, size - 1) + bound
  }

  lemma {:induction false} AllowanceIsProduct(bound: real, size: nat)
    ensures Allowance(bound, size) == bound * size as real
  {
    if size != 0 {
      AllowanceIsProduct(bound, size - 1);
      var n := (size - 1) as real;
      assert bound * (n + 1.0) == bound * n + bound;
    }
  }

  lemma {:induction false} AllowanceAdds(bound: real, n: nat, m: nat)
    ensures Allowance(bound, n + m) == Allowance(bound, n) + Allowance(bound, m)
  {
    if m != 0 { AllowanceAdds(bound, n, m - 1); }
  }

  lemma RateBounds(edits: nat, size: nat, bound: real)
    ensures bound <= Rate(edits, size) ==> Allowance(bound, size) <= edits as real
    ensures Rate(edits, size) <= bound && (size == 0 ==> edits == 0) ==> edits as real <= Allowance(bound, size)
    ensures size != 0 && Allowance(bound, size) <= edits as real ==> bound <= Rate(edits, size)
    ensures size != 0 && edits as real <= Allowance(bound, size) ==> Rate(edits, size) <= bound
  {
    AllowanceIsProduct(bound, size);
    if size != 0 {
      var rate, n := Rate(edits, size), size as real;
      assert rate * n == edits as real;
      if bound <= rate { assert bound * n <= rate * n; } else { assert rate * n < bound * n; }
      if rate <= bound { assert rate * n <= bound * n; } else { assert bound * n < rate * n; }
    }
  }

  predicate MadeBy(r: Report) {
    r == MakeReport(r.counts)
  }

  /** No edits are counted without reference words. */
  predicate Sound(r: Report) {
    r.counts.referenceWords == 0 ==> r.counts.wordEdits == 0
  }

  lemma {:induction false} TotalsBounded(results: seq<Report>, low: real, high: real)
    requires forall r :: r in results ==> MadeBy(r) && low <= r.wer <= high
    requires forall r :: r in results ==> Sound(r)
    ensures Allowance(low, Totals(results).referenceWords) <= Totals(results).wordEdits as real
      <= Allowance(high, Totals(results).referenceWords)
  {
    if results != [] {
      var before, last := results[..|results| - 1], results[|results| - 1];
      TotalsBounded(before, low, high);
      assert MadeBy(last);
      var c := last.counts;
      RateBounds(c.wordEdits, c.referenceWords, low);
      RateBounds(c.wordEdits, c.referenceWords, high);
      AllowanceAdds(low, Totals(before).referenceWords, c.referenceWords);
      AllowanceAdds(high, Totals(before).referenceWords, c.referenceWords);
    }
  }

  /** The aggregate error rate lies between the least and the greatest clip's,
      provided no clip without reference words has edits. */
  lemma AggregateIsBetween(results: seq<Report>, low: real, high: real)
    requires results != [] && forall r :: r in results ==> MadeBy(r) && low <= r.wer <= high
    requires forall r :: r in results ==> Sound(r)
    ensures low <= Aggregate(results).wer <= high
  {
    var total := Totals(results);
    TotalsBounded(results, low, high);
    RateBounds(total.wordEdits, total.referenceWords, low);
    RateBounds(total.wordEdits, total.referenceWords, high);
    if total.referenceWords == 0 { AllZero(results); assert results[0] in results && results[0].wer == 0.0; }
  }

  lemma {:induction false} AllZero(results: seq<Report>)
    requires Totals(results).referenceWords == 0
    requires forall r :: r in results ==> MadeBy(r)
    ensures forall r :: r in results ==> r.wer == 0.0
  {
    if results != [] {
      AllZero(results[..|results| - 1]);
      assert MadeBy(results[|results| - 1]);
      forall r | r in results ensures r.wer == 0.0 {
        if r != results[|results| - 1] { assert r in results[..|results| - 1]; }
      }
    }
  }

  /** The proviso cannot be dropped: a clip with edits and no reference words
      reports rate zero, yet lifts the aggregate of a faultless corpus above zero. */
  lemma EmptyReferenceInflates(c: Counts)
    requires c.referenceWords == 0 && c.wordEdits > 0
    ensures var clean := MakeReport(Counts(0, 1, 0, 1));
            var results := [clean, MakeReport(c)];
            clean.wer == MakeReport(c).wer == 0.0 < Aggregate(results).wer
  {
    var clean := MakeReport(Counts(0, 1, 0, 1));
    var results := [clean, MakeReport(c)];
    assert results[..1] == [clean] && [clean][..0] == [];
    assert Totals([clean]) == Counts(0, 1, 0, 1);
    assert Totals(results) == Counts(c.wordEdits, 1, c.charEdits, 1 + c.referenceChars);
    assert c.wordEdits as real / 1.0 > 0.0;
  }

  /** A corpus with this clip, whose other clips are sound. */
  ghost predicate CorpusWith(results: seq<Report>, clip: Report) {
    clip in results && forall r :: r in results ==> MadeBy(r) && (r != clip ==> Sound(r))
  }

  /** The aggregate lies within every span that holds all the clips. */
  ghost predicate Between(results: seq<Report>, low: real, high: real) {
    (forall r :: r in results ==> low <= r.wer <= high) ==> low <= Aggregate(results).wer <= high
  }

  /** A clip may join any corpus of sound clips without moving the aggregate out of
      the clips' span exactly if it is sound itself. */
  lemma AggregateIsBetweenIff(clip: Report)
    requires MadeBy(clip)
    ensures Sound(clip) <==>
              forall results: seq<Report>, low: real, high: real :: CorpusWith(results, clip) ==> Between(results, low, high)
  {
    if Sound(clip) {
      forall results: seq<Report>, low: real, high: real | CorpusWith(results, clip)
        ensures Between(results, low, high)
      {
        if forall r :: r in results ==> low <= r.wer <= high { AggregateIsBetween(results, low, high); }
      }
    } else {
      EmptyReferenceInflates(clip.counts);
      var clean := MakeReport(Counts(0, 1, 0, 1));
      var results := [clean, MakeReport(clip.counts)];
      assert CorpusWith(results, clip) && !Between(results, 0.0, 0.0);
    }
  }

  // ------------------------------------------------- what the figures mean

  /** `p` per cent of `size` are left when `edits` are taken from them. */
  predicate IsPercentLeft(p: real, edits: nat, size: nat) {
    if edits <= size then p * size as real == 100.0 * (size - edits) as real else p == 0.0
  }

  lemma RateMeans(edits: nat, size: nat)
    requires size != 0
    ensures Rate(edits, size) * size as real == edits as real
    ensures IsPercentLeft(AccuracyPercent(Rate(edits, size)), edits, size)
  {
    var rate, n := Rate(edits, size), size as real;
    assert rate * n == edits as real;
    if edits <= size {
      assert rate <= 1.0;
      assert (1.0 - rate) * n == n - edits as real;
      assert ((1.0 - rate) * 100.0) * n == 100.0 * ((1.0 - rate) * n);
    } else {
      assert rate > 1.0;
    }
  }

  /** A rate is edits per unit of reference, an accuracy what they leave of it; with
      no reference there is nothing to get wrong. */
  predicate Figures(rate: real, percent: real, edits: nat, size: nat) {
    if size == 0 then rate == 0.0 && percent == 100.0
    else rate * size as real == edits as real && IsPercentLeft(percent, edits, size)
  }

  predicate Explained(r: Report, c: Counts) {
    && Figures(r.wer, r.wordAccuracyPercent, c.wordEdits, c.referenceWords)
    && Figures(r.cer, r.characterAccuracyPercent, c.charEdits, c.referenceChars)
  }

  lemma ReportMeans(c: Counts)
    ensures MakeReport(c).counts == c && Explained(MakeReport(c), c)
  {
    if c.referenceWords != 0 { RateMeans(c.wordEdits, c.referenceWords); }
    if c.referenceChars != 0 { RateMeans(c.charEdits, c.referenceChars); }
  }

  lemma LeastIsDistance<T(!new)>(a: seq<T>, b: seq<T>, d: nat)
    requires IsLeastCost(d, a, b)
    ensures d == Distance(a, b)
  {
    DistanceIsLeast(a, b);
    var s: Script<T> :| Rewrites(s, a, b) && Cost(s) == d;
    var t: Script<T> :| Rewrites(t, a, b) && Cost(t) == Distance(a, b);
  }

  /** A clip's figures in terms of the least edits between its words, and between its
      letters. */
  lemma ScoreMeans(clip: Clip, d: nat, e: nat)
    requires IsLeastCost(d, clip.reference, clip.actual)
    requires IsLeastCost(e, Letters(clip.reference), Letters(clip.actual))
    ensures Explained(Score(clip), Counts(d, |clip.reference|, e, |Letters(clip.reference)|))
  {
    LeastIsDistance(clip.reference, clip.actual, d);
    LeastIsDistance(Letters(clip.reference), Letters(clip.actual), e);
    ReportMeans(Counts(d, |clip.reference|, e, |Letters(clip.reference)|));
  }

  function Plus(a: Counts, b: Counts): Counts {
    Counts(a.wordEdits + b.wordEdits, a.referenceWords + b.referenceWords,
           a.charEdits + b.charEdits, a.referenceChars + b.referenceChars)
  }

  lemma {:induction false} TotalsAdd(a: seq<Report>, b: seq<Report>)
    ensures Totals(a + b) == Plus(Totals(a), Totals(b))
  {
    if b == [] {
      assert a + b == a;
    } else {
      TotalsAdd(a, b[..|b| - 1]);
      assert (a + b)[..|a + b| - 1] == a + b[..|b| - 1];
    }
  }

  lemma TotalOfOne(r: Report)
    ensures Totals([r]) == r.counts
  {
    assert [r][..0] == [];
  }

  /** An aggregate counts what its parts count together, one clip as itself and none
      as nothing; and its figures are those of its counts. */
  lemma AggregateMeans(a: seq<Report>, b: seq<Report>, r: Report)
    ensures Aggregate(a + b).counts == Plus(Aggregate(a).counts, Aggregate(b).counts)
    ensures Aggregate([r]).counts == r.counts && Aggregate([]).counts == Counts(0, 0, 0, 0)
    ensures Explained(Aggregate(a), Aggregate(a).counts)
  {
    TotalsAdd(a, b);
    TotalOfOne(r);
    ReportMeans(Totals(a));
  }

  /** A normalised text: its words with a blank between any two. */
  function Text(words: seq<string>): string {
    if words == [] then []
    else if |words| == 1 then words[0]
    else Text(words[..|words| - 1]) + [' '] + words[|words| - 1]
  }

  function WithoutBlanks(text: string): string {
    if text == [] then []
    else WithoutBlanks(text[..|text| - 1]) + if text[|text| - 1] == ' ' then [] else [text[|text| - 1]]
  }

  lemma {:induction false} WithoutBlanksJoins(a: string, b: string)
    ensures WithoutBlanks(a + b) == WithoutBlanks(a) + WithoutBlanks(b)
  {
    if b == [] {
      assert a + b == a;
    } else {
      WithoutBlanksJoins(a, b[..|b| - 1]);
      assert (a + b)[..|a + b| - 1] == a + b[..|b| - 1];
    }
  }

  lemma {:induction false} UnblankedStays(word: string)
    requires ' ' !in word
    ensures WithoutBlanks(word) == word
  {
    if word != [] { UnblankedStays(word[..|word| - 1]); }
  }

  /** The letters are the normalised text with its blanks taken out. */
  lemma {:induction false} LettersAreText(words: seq<string>)
    requires forall w :: w in words ==> ' ' !in w
    ensures Letters(words) == WithoutBlanks(Text(words))
  {
    if |words| == 1 {
      assert words[..0] == [];
      UnblankedStays(words[0]);
    } else if words != [] {
      var before, last := words[..|words| - 1], words[|words| - 1];
      LettersAreText(before);
      UnblankedStays(last);
      WithoutBlanksJoins(Text(before) + [' '], last);
      WithoutBlanksJoins(Text(before), [' ']);
      assert WithoutBlanks([' ']) == [];
    }
  }
}
