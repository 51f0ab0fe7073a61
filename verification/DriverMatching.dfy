/** Which driver of the live session a viewer is: bigram similarity, and a confident winner or nobody. */
module DriverMatching {
  import opened Options
  import opened Recency
  import opened DriverNames
  import opened StableSorting

  // ---------------------------------------------------------------------------------------------
  // Bigrams
  // ---------------------------------------------------------------------------------------------

  function FirstBigrams(s: string, n: nat): (r: seq<string>)
    requires n == 0 || n < |s|
    ensures |r| == n
  {
    if n == 0 then [] else FirstBigrams(s, n - 1) + [s[n - 1..n + 1]]
  }

  /** The pairs of neighbouring characters, as often as they occur. */
  function BigramsOf(s: string): multiset<string> {
    multiset(FirstBigrams(s, if |s| == 0 then 0 else |s| - 1))
  }

  function CountIn(counts: Dict<string, nat>, bigram: string): nat {
    Lookup(counts.vals, bigram).GetOr(0)
  }

  /** The counts are the multiplicities of `m`. */
  ghost predicate Counts(counts: Dict<string, nat>, m: multiset<string>) {
    WellFormed(counts) && forall b :: CountIn(counts, b) == m[b]
  }

  lemma {:induction false} CountOneMore(counts: Dict<string, nat>, m: multiset<string>, b: string)
    requires Counts(counts, m)
    ensures Counts(Put(counts, b, CountIn(counts, b) + 1), m + multiset{b})
  {
  }

  lemma {:induction false} NextBigram(s: string, i: nat)
    requires i + 1 < |s|
    ensures multiset(FirstBigrams(s, i + 1)) == multiset(FirstBigrams(s, i)) + multiset{s[i..i + 2]}
  {
    assert FirstBigrams(s, i + 1) == FirstBigrams(s, i) + [s[i..i + 2]];
  }

  method Bigrams(s: string) returns (counts: Dict<string, nat>)
    ensures Counts(counts, BigramsOf(s))
  {
    counts := Empty();
    assert Counts(counts, multiset{});
    var i := 0;
    while i < |s| - 1
      invariant 0 <= i && (i == 0 || i < |s|)
      invariant Counts(counts, multiset(FirstBigrams(s, i)))
    {
      var bigram := s[i..i + 2];
      NextBigram(s, i);
      CountOneMore(counts, multiset(FirstBigrams(s, i)), bigram);
      counts := Put(counts, bigram, CountIn(counts, bigram) + 1);
      i := i + 1;
    }
  }

  function SumOver(keys: seq<string>, m: multiset<string>): nat {
    if keys == [] then 0 else SumOver(keys[..|keys| - 1], m) + m[keys[|keys| - 1]]
  }

  lemma {:induction false} SumOverOthers(keys: seq<string>, m: multiset<string>, b: string)
    requires b !in keys
    ensures SumOver(keys, m[b := 0]) == SumOver(keys, m)
  {
    if keys != [] {
      assert keys[|keys| - 1] in keys;
      SumOverOthers(keys[..|keys| - 1], m, b);
    }
  }

  /** Summing the multiplicities over all keys, each once, counts the whole multiset. */
  lemma {:induction false} SumIsCardinality(keys: seq<string>, m: multiset<string>)
    requires NoDup(keys) && forall b :: b in m ==> b in keys
    ensures SumOver(keys, m) == |m|
  {
    if keys == [] {
      assert m == multiset{};
    } else {
      var rest, b := keys[..|keys| - 1], keys[|keys| - 1];
      assert keys == rest + [b];
      SumOverOthers(rest, m, b);
      SumIsCardinality(rest, m[b := 0]);
    }
  }

  lemma {:induction false} SumOverNext(keys: seq<string>, i: nat, m: multiset<string>)
    requires i < |keys|
    ensures SumOver(keys[..i + 1], m) == SumOver(keys[..i], m) + m[keys[i]]
  {
    assert keys[..i + 1][..i] == keys[..i];
  }

  lemma {:induction false} CountsCover(counts: Dict<string, nat>, m: multiset<string>, n: multiset<string>)
    requires Counts(counts, m) && n <= m
    ensures SumOver(counts.order, n) == |n| && counts.order[..|counts.order|] == counts.order
  {
    forall b | b in n
      ensures b in counts.order
    {
      assert n[b] <= m[b] == CountIn(counts, b);
      assert b in Members(counts.order);
    }
    SumIsCardinality(counts.order, n);
  }

  method Total(counts: Dict<string, nat>, ghost m: multiset<string>) returns (total: nat)
    requires Counts(counts, m)
    ensures total == |m|
  {
    total := 0;
    for i := 0 to |counts.order|
      invariant total == SumOver(counts.order[..i], m)
    {
      assert counts.order[i] in Members(counts.order);
      assert CountIn(counts, counts.order[i]) == m[counts.order[i]];
      SumOverNext(counts.order, i, m);
      total := total + counts.vals[counts.order[i]];
    }
    CountsCover(counts, m, m);
  }

  method Overlap(countsA: Dict<string, nat>, countsB: Dict<string, nat>, ghost a: multiset<string>,
          ghost b: multiset<string>)
    returns (overlap: nat)
    requires Counts(countsA, a) && Counts(countsB, b)
    ensures overlap == |a * b|
  {
    overlap := 0;
    for i := 0 to |countsA.order|
      invariant overlap == SumOver(countsA.order[..i], a * b)
    {
      var bigram := countsA.order[i];
      assert bigram in Members(countsA.order);
      assert CountIn(countsA, bigram) == a[bigram] && CountIn(countsB, bigram) == b[bigram];
      SumOverNext(countsA.order, i, a * b);
      var countA, countB := countsA.vals[bigram], CountIn(countsB, bigram);
      if countB > 0 {
        overlap := overlap + (if countA <= countB then countA else countB);
      }
    }
    CountsCover(countsA, a, a * b);
  }

  // ---------------------------------------------------------------------------------------------
  // Similarity
  // ---------------------------------------------------------------------------------------------

  /** The Sorensen-Dice coefficient of two multisets. */
  function Dice(a: multiset<string>, b: multiset<string>): real {
    if |a| == 0 || |b| == 0 then 0.0 else (2 * |a * b|) as real / (|a| + |b|) as real
  }

  function Similarity(a: string, b: string): real {
    if a == b then 1.0 else Dice(BigramsOf(a), BigramsOf(b))
  }

  method ComputeSimilarity(a: string, b: string) returns (score: real)
    ensures score == Similarity(a, b)
  {
    if a == b {
      return 1.0;
    }
    var bigramsA := Bigrams(a);
    var bigramsB := Bigrams(b);
    var totalA := Total(bigramsA, BigramsOf(a));
    var totalB := Total(bigramsB, BigramsOf(b));
    if totalA == 0 || totalB == 0 {
      return 0.0;
    }
    var overlap := Overlap(bigramsA, bigramsB, BigramsOf(a), BigramsOf(b));
    return (2 * overlap) as real / (totalA + totalB) as real;
  }

  lemma {:induction false} CommonPart(a: multiset<string>, b: multiset<string>)
    ensures a * b == b * a
    ensures |a * b| <= |a| && |a * b| <= |b|
    ensures |a * b| == |a| ==> a * b == a
    ensures |a * b| == |b| ==> a * b == b
  {
    assert a == a * b + (a - a * b);
    assert b == a * b + (b - a * b);
  }

  lemma {:induction false} QuotientBounds(x: nat, y: nat)
    requires 0 < y && x <= y
    ensures 0.0 <= x as real / y as real <= 1.0
    ensures x as real / y as real == 1.0 <==> x == y
    ensures x as real / y as real == 0.0 <==> x == 0
  {
    var q := x as real / y as real;
    assert q * y as real == x as real;
    ProductBounds(q, y as real, x as real);
  }

  lemma {:induction false} ProductBounds(q: real, y: real, x: real)
    requires 0.0 < y && 0.0 <= x <= y && q * y == x
    ensures 0.0 <= q <= 1.0
    ensures q == 1.0 <==> x == y
    ensures q == 0.0 <==> x == 0.0
  {
    Cancel(0.0, q, y);
    Cancel(q, 1.0, y);
    if x == y {
      Cancel(1.0, q, y);
    }
    if x == 0.0 {
      Cancel(q, 0.0, y);
    }
  }

  lemma {:induction false} Cancel(a: real, b: real, y: real)
    requires 0.0 < y && a * y <= b * y
    ensures a <= b
  {
    if b < a {
      Scale(b, a, y);
    }
  }

  lemma {:induction false} Scale(a: real, b: real, y: real)
    requires 0.0 < y && a < b
    ensures a * y < b * y
  {
    assert (b - a) * y > 0.0;
    assert (b - a) * y == b * y - a * y;
  }

  lemma {:induction false} DiceFacts(m: multiset<string>, n: multiset<string>)
    ensures Dice(m, n) == Dice(n, m) && 0.0 <= Dice(m, n) <= 1.0
    ensures Dice(m, n) == 1.0 <==> m == n != multiset{}
    ensures Dice(m, n) == 0.0 <==> m * n == multiset{}
  {
    CommonPart(m, n);
    if |m| > 0 && |n| > 0 {
      QuotientBounds(2 * |m * n|, |m| + |n|);
      AllCommon(m, n);
    } else {
      assert m == multiset{} || n == multiset{};
    }
  }

  lemma {:induction false} AllCommon(m: multiset<string>, n: multiset<string>)
    ensures 2 * |m * n| == |m| + |n| <==> m == n
    ensures |m * n| == 0 <==> m * n == multiset{}
  {
    CommonPart(m, n);
    if 2 * |m * n| == |m| + |n| {
      assert |m * n| == |m|;
      assert |m * n| == |n|;
    }
    if m == n {
      assert m * n == m;
    }
  }

  /** Similarity is symmetric and in 0..1; it is 1 for equal names and for equal, nonempty bigram multisets only. */
  lemma {:induction false} SimilarityFacts(a: string, b: string)
    ensures Similarity(a, b) == Similarity(b, a)
    ensures 0.0 <= Similarity(a, b) <= 1.0
    ensures Similarity(a, b) == 1.0 <==> a == b || BigramsOf(a) == BigramsOf(b) != multiset{}
    ensures Similarity(a, b) == 0.0 <==> a != b && BigramsOf(a) * BigramsOf(b) == multiset{}
  {
    DiceFacts(BigramsOf(a), BigramsOf(b));
  }

  /** The numbers below `n` the predicate holds of. */
  ghost function Below(n: nat, p: nat -> bool): set<nat> {
    set i: nat | i < n && p(i)
  }

  lemma {:induction false} OneMoreBelow(n: nat, p: nat -> bool)
    ensures |Below(n + 1, p)| == |Below(n, p)| + if p(n) then 1 else 0
  {
    assert Below(n + 1, p) == if p(n) then Below(n, p) + {n} else Below(n, p);
  }

  /** The bigram is at that place in the name. */
  function IsAt(s: string, b: string): nat -> bool {
    (i: nat) => i + 1 < |s| && s[i..i + 2] == b
  }

  lemma {:induction false} OneMoreBigram(m: multiset<string>, m': multiset<string>, x: string, b: string)
    requires m' == m + multiset{x}
    ensures m'[b] == m[b] + if x == b then 1 else 0
  {
  }

  lemma {:induction false} NextBigramCount(s: string, n: nat, b: string)
    requires n + 1 < |s|
    ensures multiset(FirstBigrams(s, n + 1))[b]
         == multiset(FirstBigrams(s, n))[b] + if IsAt(s, b)(n) then 1 else 0
  {
    NextBigram(s, n);
    OneMoreBigram(multiset(FirstBigrams(s, n)), multiset(FirstBigrams(s, n + 1)), s[n..n + 2], b);
  }

  lemma {:induction false} FirstBigramsCount(s: string, n: nat, b: string)
    requires n == 0 || n < |s|
    ensures multiset(FirstBigrams(s, n))[b] == |Below(n, IsAt(s, b))|
  {
    if n > 0 {
      FirstBigramsCount(s, n - 1, b);
      NextBigramCount(s, n - 1, b);
      OneMoreBelow(n - 1, IsAt(s, b));
    } else {
      assert Below(0, IsAt(s, b)) == {};
    }
  }

  /** A bigram counts as often as it occurs, and a name has one less than it has characters. */
  lemma {:induction false} BigramsAreCounted(s: string, b: string)
    ensures BigramsOf(s)[b] == |Below(|s|, IsAt(s, b))|
    ensures |BigramsOf(s)| == if s == "" then 0 else |s| - 1
  {
    var n := if |s| == 0 then 0 else |s| - 1;
    FirstBigramsCount(s, n, b);
    if s != "" {
      OneMoreBelow(n, IsAt(s, b));
    }
  }

  lemma {:induction false} QuotientTimes(x: real, y: real)
    requires y > 0.0
    ensures x / y * y == x
  {
  }

  /** Twice what the two have in common is that share of what both have. */
  ghost predicate IsShare(q: real, m: multiset<string>, n: multiset<string>) {
    q * (|m| + |n|) as real == 2.0 * |m * n| as real
  }

  lemma {:induction false} DiceIsShare(m: multiset<string>, n: multiset<string>)
    ensures IsShare(Dice(m, n), m, n)
  {
    CommonPart(m, n);
    if |m| > 0 && |n| > 0 {
      QuotientTimes((2 * |m * n|) as real, (|m| + |n|) as real);
    }
  }

  lemma {:induction false} ShareOf(q: real, r: real, m: multiset<string>, n: multiset<string>)
    requires q == r && IsShare(r, m, n)
    ensures IsShare(q, m, n)
  {
  }

  /** For different names: twice the bigrams shared, as a share of the bigrams of both. */
  lemma {:induction false} SimilarityIsShareInCommon(a: string, b: string)
    requires a != b
    ensures IsShare(Similarity(a, b), BigramsOf(a), BigramsOf(b))
  {
    DiceIsShare(BigramsOf(a), BigramsOf(b));
    ShareOf(Similarity(a, b), Dice(BigramsOf(a), BigramsOf(b)), BigramsOf(a), BigramsOf(b));
  }

  // ---------------------------------------------------------------------------------------------
  // Matching
  // ---------------------------------------------------------------------------------------------

  const MIN_SCORE := 0.6
  const MIN_MARGIN := 0.15

  datatype Candidate = Candidate(userId: nat, driverName: string)

  datatype Scored = Scored(candidate: Candidate, score: real)

  /** A viewer's handle and, when there is one, their nickname, both normalized. */
  datatype Viewer = Viewer(username: string, nickname: Option<string>)

  function ViewerOf(username: string, nickname: Option<string>): Viewer {
    Viewer(Normalize(username),
           if nickname.Some? && nickname.value != "" then Some(Normalize(nickname.value)) else None)
  }

  function Score(v: Viewer, c: Candidate): real {
    var driver := Normalize(c.driverName);
    var usernameScore := Similarity(driver, v.username);
    var nicknameScore :=
      if v.nickname.Some? && v.nickname.value != "" then Similarity(driver, v.nickname.value) else 0.0;
    if usernameScore >= nicknameScore then usernameScore else nicknameScore
  }

  function ScoreFor(v: Viewer): Candidate -> real {
    c => Score(v, c)
  }

  function ScoreOf(x: Scored): real {
    x.score
  }

  function ScoreAll(score: Candidate -> real, cs: seq<Candidate>): seq<Scored> {
    if cs == [] then [] else ScoreAll(score, cs[..|cs| - 1]) + [Scored(cs[|cs| - 1], score(cs[|cs| - 1]))]
  }

  /** The decision on the candidates, best first. */
  function Decide(sorted: seq<Scored>): Option<Candidate> {
    if sorted == [] then None
    else if sorted[0].score >= 1.0 then Some(sorted[0].candidate)
    else if sorted[0].score < MIN_SCORE then None
    else if sorted[0].score - (if |sorted| > 1 then sorted[1].score else 0.0) < MIN_MARGIN then None
    else Some(sorted[0].candidate)
  }

  function Match(score: Candidate -> real, cs: seq<Candidate>): Option<Candidate> {
    Decide(SortDesc(ScoreAll(score, cs), ScoreOf))
  }

  /** The better of the scores against the handle and against the nickname. */
  method ComputeScore(viewer: Viewer, c: Candidate) returns (score: real)
    ensures score == ScoreFor(viewer)(c)
  {
    var driver := Normalize(c.driverName);
    var usernameScore := ComputeSimilarity(driver, viewer.username);
    var nicknameScore := 0.0;
    if viewer.nickname.Some? && viewer.nickname.value != "" {
      nicknameScore := ComputeSimilarity(driver, viewer.nickname.value);
    }
    score := if usernameScore >= nicknameScore then usernameScore else nicknameScore;
  }

  method ScoreCandidates(viewer: Viewer, candidates: seq<Candidate>) returns (scored: seq<Scored>)
    ensures scored == ScoreAll(ScoreFor(viewer), candidates)
  {
    scored := [];
    for i := 0 to |candidates|
      invariant scored == ScoreAll(ScoreFor(viewer), candidates[..i])
    {
      var score := ComputeScore(viewer, candidates[i]);
      assert candidates[..i + 1][..i] == candidates[..i];
      scored := scored + [Scored(candidates[i], score)];
    }
    assert candidates[..|candidates|] == candidates;
  }

  method MatchDriver(username: string, nickname: Option<string>,
          candidates: seq<Candidate>) returns (r: Option<Candidate>)
    ensures r == Match(ScoreFor(ViewerOf(username, nickname)), candidates)
  {
    if candidates == [] {
      return None;
    }
    var scored := ScoreCandidates(ViewerOf(username, nickname), candidates);
    scored := SortDesc(scored, ScoreOf);
    r := Decide(scored);
  }

  // ---------------------------------------------------------------------------------------------
  // The confident winner
  // ---------------------------------------------------------------------------------------------

  /** High enough, and ahead of every other candidate by the margin. */
  ghost predicate Confident(all: multiset<Scored>, x: Scored) {
    x in all && x.score >= 0.6 && forall y :: y in all - multiset{x} ==> x.score - y.score >= 0.15
  }

  ghost predicate NonePerfect(all: multiset<Scored>) {
    forall x :: x in all ==> x.score < 1.0
  }

  lemma {:induction false} HeadAndRest(scored: seq<Scored>, sorted: seq<Scored>)
    requires sorted == SortDesc(scored, ScoreOf) && scored != []
    ensures sorted != [] && Descending(sorted, ScoreOf) && sorted[0] in multiset(scored)
    ensures multiset(scored) == multiset{sorted[0]} + multiset(sorted[1..])
    ensures forall x :: x in multiset(scored) ==> x.score <= sorted[0].score
  {
    SortDescFacts(scored, ScoreOf);
    assert sorted == [sorted[0]] + sorted[1..];
    forall x | x in multiset(scored)
      ensures x.score <= sorted[0].score
    {
      assert x in multiset(sorted);
      var i :| 0 <= i < |sorted| && sorted[i] == x;
      assert i > 0 ==> ScoreOf(sorted[0]) >= ScoreOf(sorted[i]);
    }
  }

  /** The leader has the score and the margin. */
  ghost predicate Leads(sorted: seq<Scored>) {
    && sorted != [] && sorted[0].score >= MIN_SCORE
    && sorted[0].score - (if |sorted| > 1 then sorted[1].score else 0.0) >= MIN_MARGIN
  }

  lemma {:induction false} LeaderIsConfident(scored: seq<Scored>, sorted: seq<Scored>)
    requires sorted == SortDesc(scored, ScoreOf) && scored != []
    ensures sorted != [] && (Leads(sorted) <==> Confident(multiset(scored), sorted[0]))
  {
    HeadAndRest(scored, sorted);
    var rest := sorted[1..];
    assert multiset(scored) - multiset{sorted[0]} == multiset(rest);
    if |sorted| > 1 {
      assert sorted[1] == rest[0] && sorted[1] in multiset(rest);
      forall y | y in multiset(rest)
        ensures y.score <= sorted[1].score
      {
        var i :| 0 <= i < |rest| && rest[i] == y;
        assert i > 0 ==> ScoreOf(sorted[1]) >= ScoreOf(sorted[i + 1]);
      }
    }
  }

  lemma {:induction false} ConfidentLeads(scored: seq<Scored>, sorted: seq<Scored>, x: Scored)
    requires sorted == SortDesc(scored, ScoreOf) && Confident(multiset(scored), x)
    ensures sorted != [] && x == sorted[0]
  {
    HeadAndRest(scored, sorted);
    var leader := sorted[0];
    assert x == leader || leader in multiset(scored) - multiset{x};
  }

  /** Short of a perfect score, a candidate is returned exactly when it is the confident winner. */
  lemma {:induction false} WinnerIsConfident(score: Candidate -> real, cs: seq<Candidate>, c: Candidate)
    requires NonePerfect(multiset(ScoreAll(score, cs)))
    ensures Match(score, cs) == Some(c) <==> exists x :: Confident(multiset(ScoreAll(score, cs)), x) && x.candidate == c
  {
    var scored := ScoreAll(score, cs);
    var sorted := SortDesc(scored, ScoreOf);
    if scored == [] {
      SortDescFacts(scored, ScoreOf);
    } else {
      HeadAndRest(scored, sorted);
      LeaderIsConfident(scored, sorted);
      DecideOnLeader(sorted, c);
      if x :| Confident(multiset(scored), x) && x.candidate == c {
        ConfidentLeads(scored, sorted, x);
      }
    }
  }

  lemma {:induction false} DecideOnLeader(sorted: seq<Scored>, c: Candidate)
    requires sorted != [] && sorted[0].score < 1.0
    ensures Decide(sorted) == Some(c) <==> Leads(sorted) && sorted[0].candidate == c
  {
  }

  lemma {:induction false} ScoreAllAt(score: Candidate -> real, cs: seq<Candidate>)
    ensures |ScoreAll(score, cs)| == |cs|
    ensures forall i :: 0 <= i < |cs| ==> ScoreAll(score, cs)[i] == Scored(cs[i], score(cs[i]))
  {
    if cs != [] {
      ScoreAllAt(score, cs[..|cs| - 1]);
    }
  }

  lemma {:induction false} ScoreAllCount(score: Candidate -> real, cs: seq<Candidate>, x: Scored)
    ensures multiset(ScoreAll(score, cs))[x] == if x.score == score(x.candidate) then multiset(cs)[x.candidate] else 0
  {
    if cs != [] {
      ScoreAllCount(score, cs[..|cs| - 1], x);
      assert cs == cs[..|cs| - 1] + [cs[|cs| - 1]];
    }
  }

  lemma {:induction false} ScoreAllPermuted(score: Candidate -> real, cs: seq<Candidate>, ds: seq<Candidate>)
    requires multiset(cs) == multiset(ds)
    ensures multiset(ScoreAll(score, cs)) == multiset(ScoreAll(score, ds))
  {
    forall x
      ensures multiset(ScoreAll(score, cs))[x] == multiset(ScoreAll(score, ds))[x]
    {
      ScoreAllCount(score, cs, x);
      ScoreAllCount(score, ds, x);
    }
  }

  /** Scores are in 0..1. */
  ghost predicate InUnit(score: Candidate -> real) {
    forall c :: 0.0 <= score(c) <= 1.0
  }

  predicate Perfect(score: Candidate -> real, c: Candidate) {
    score(c) >= 1.0
  }

  lemma {:induction false} BestIsPerfect(score: Candidate -> real, cs: seq<Candidate>, i: nat)
    requires InUnit(score) && i < |cs| && Perfect(score, cs[i])
    ensures var sorted := SortDesc(ScoreAll(score, cs), ScoreOf);
            sorted != [] && ScoreOf(sorted[0]) == 1.0
  {
    ScoresAtMostOne(score, cs);
    ScoreAllAt(score, cs);
    assert ScoreAll(score, cs)[i] in multiset(ScoreAll(score, cs));
    HeadAndRest(ScoreAll(score, cs), SortDesc(ScoreAll(score, cs), ScoreOf));
  }

  lemma {:induction false} ScoresAtMostOne(score: Candidate -> real, cs: seq<Candidate>)
    requires InUnit(score)
    ensures forall x :: x in multiset(ScoreAll(score, cs)) ==> x.score <= 1.0
  {
    if cs != [] {
      ScoresAtMostOne(score, cs[..|cs| - 1]);
    }
  }

  /** With a perfect candidate in the list, the first perfect one is returned. */
  lemma {:induction false} FirstPerfectWins(score: Candidate -> real, cs: seq<Candidate>, i: nat)
    requires InUnit(score)
    requires i < |cs| && Perfect(score, cs[i]) && forall j :: 0 <= j < i ==> !Perfect(score, cs[j])
    ensures Match(score, cs) == Some(cs[i])
  {
    var scored := ScoreAll(score, cs);
    var sorted := SortDesc(scored, ScoreOf);
    ScoreAllAt(score, cs);
    BestIsPerfect(score, cs, i);
    SortDescStable(scored, ScoreOf, 1.0);
    WithKeyHead(sorted, ScoreOf, 1.0, 0);
    WithKeyHead(scored, ScoreOf, 1.0, i);
  }

  lemma {:induction false} WithKeyHead(s: seq<Scored>, key: Scored -> real, k: real, i: nat)
    requires i < |s| && key(s[i]) == k && forall j :: 0 <= j < i ==> key(s[j]) != k
    ensures WithKey(s, key, k) != [] && WithKey(s, key, k)[0] == s[i]
  {
    if i < |s| - 1 {
      WithKeyHead(s[..|s| - 1], key, k, i);
    } else {
      WithKeyNone(s[..i], key, k);
    }
  }

  lemma {:induction false} FirstPerfect(score: Candidate -> real, cs: seq<Candidate>, k: nat) returns (i: nat)
    requires k < |cs| && Perfect(score, cs[k])
    ensures i <= k && Perfect(score, cs[i]) && forall j :: 0 <= j < i ==> !Perfect(score, cs[j])
  {
    if j :| 0 <= j < k && Perfect(score, cs[j]) {
      i := FirstPerfect(score, cs, j);
    } else {
      i := k;
    }
  }

  ghost predicate OnePerfectAtMost(score: Candidate -> real, cs: seq<Candidate>) {
    forall c, d :: c in cs && d in cs && Perfect(score, c) && Perfect(score, d) ==> c == d
  }

  lemma {:induction false} SameAnswer(score: Candidate -> real, cs: seq<Candidate>, ds: seq<Candidate>)
    requires InUnit(score)
    requires multiset(cs) == multiset(ds) && OnePerfectAtMost(score, cs)
    ensures Match(score, cs) == Match(score, ds)
  {
    if c :| c in cs && Perfect(score, c) {
      assert c in multiset(ds);
      var k :| 0 <= k < |cs| && cs[k] == c;
      var l :| 0 <= l < |ds| && ds[l] == c;
      var i := FirstPerfect(score, cs, k);
      var j := FirstPerfect(score, ds, l);
      FirstPerfectWins(score, cs, i);
      FirstPerfectWins(score, ds, j);
      assert ds[j] in multiset(cs);
    } else {
      NoPerfectScores(score, cs);
      ScoreAllPermuted(score, cs, ds);
      if Match(score, cs).Some? {
        WinnerIsConfident(score, cs, Match(score, cs).value);
        WinnerIsConfident(score, ds, Match(score, cs).value);
      } else if Match(score, ds).Some? {
        WinnerIsConfident(score, cs, Match(score, ds).value);
        WinnerIsConfident(score, ds, Match(score, ds).value);
      }
    }
  }

  lemma {:induction false} NoPerfectScores(score: Candidate -> real, cs: seq<Candidate>)
    requires forall c :: c in cs ==> !Perfect(score, c)
    ensures NonePerfect(multiset(ScoreAll(score, cs)))
  {
    ScoreAllAt(score, cs);
    forall x | x in multiset(ScoreAll(score, cs))
      ensures x.score < 1.0
    {
      var i :| 0 <= i < |cs| && ScoreAll(score, cs)[i] == x;
      assert cs[i] in cs;
    }
  }

  ghost predicate SameForEveryOrder(score: Candidate -> real, cs: seq<Candidate>) {
    forall ds :: multiset(ds) == multiset(cs) ==> Match(score, ds) == Match(score, cs)
  }

  lemma {:induction false} MovedToFront(cs: seq<Candidate>, at: nat)
    requires at < |cs|
    ensures multiset([cs[at]] + (cs[..at] + cs[at + 1..])) == multiset(cs)
  {
    assert cs == cs[..at] + [cs[at]] + cs[at + 1..];
  }

  /** Moving a second perfect candidate to the front changes the answer. */
  lemma {:induction false} OrderMatters(score: Candidate -> real, cs: seq<Candidate>, c: Candidate, d: Candidate)
    requires InUnit(score)
    requires c in cs && d in cs && Perfect(score, c) && Perfect(score, d) && c != d
    ensures !SameForEveryOrder(score, cs)
  {
    var k :| 0 <= k < |cs| && cs[k] == c;
    var l :| 0 <= l < |cs| && cs[l] == d;
    var i := FirstPerfect(score, cs, k);
    FirstPerfectWins(score, cs, i);
    var at := if cs[i] == c then l else k;
    var ds := [cs[at]] + (cs[..at] + cs[at + 1..]);
    MovedToFront(cs, at);
    FirstPerfectWins(score, ds, 0);
  }

  /** The answer is the same for every order of the candidates exactly when no two different ones are perfect. */
  lemma {:induction false} OrderIsIrrelevantExactlyWhen(score: Candidate -> real, cs: seq<Candidate>)
    requires InUnit(score)
    ensures SameForEveryOrder(score, cs) <==> OnePerfectAtMost(score, cs)
  {
    if OnePerfectAtMost(score, cs) {
      forall ds | multiset(ds) == multiset(cs)
        ensures Match(score, ds) == Match(score, cs)
      {
        SameAnswer(score, cs, ds);
      }
    } else {
      var c, d :| c in cs && d in cs && Perfect(score, c) && Perfect(score, d) && c != d;
      OrderMatters(score, cs, c, d);
    }
  }

  lemma {:induction false} ScoresAreInUnit(v: Viewer)
    ensures InUnit(ScoreFor(v))
  {
    forall c
      ensures 0.0 <= ScoreFor(v)(c) <= 1.0
    {
      SimilarityFacts(Normalize(c.driverName), v.username);
      if v.nickname.Some? {
        SimilarityFacts(Normalize(c.driverName), v.nickname.value);
      }
    }
  }

  /** The viewer has a nickname of more than separators. */
  ghost predicate IsNamed(nickname: Option<string>) {
    nickname.Some? && nickname.value != "" && Normalize(nickname.value) != ""
  }

  /** A candidate's score is the better of the handle's similarity to the name and the nickname's, if there is one. */
  lemma {:induction false} ScoreIsBetterOfBoth(username: string, nickname: Option<string>, c: Candidate)
    ensures var score := ScoreFor(ViewerOf(username, nickname))(c);
            var byHandle := Similarity(Normalize(c.driverName), Normalize(username));
            if !IsNamed(nickname) then score == byHandle
            else var byNickname := Similarity(Normalize(c.driverName), Normalize(nickname.value));
                 score >= byHandle && score >= byNickname && (score == byHandle || score == byNickname)
  {
    SimilarityFacts(Normalize(c.driverName), Normalize(username));
  }

  /** Equal, or of the same bigrams. */
  ghost predicate IsAlike(a: string, b: string) {
    a == b || BigramsOf(a) == BigramsOf(b) != multiset{}
  }

  ghost predicate IsPerfectFor(username: string, nickname: Option<string>, c: Candidate) {
    || IsAlike(Normalize(c.driverName), Normalize(username))
    || (IsNamed(nickname) && IsAlike(Normalize(c.driverName), Normalize(nickname.value)))
  }

  lemma {:induction false} PerfectExactlyWhenAlike(username: string, nickname: Option<string>, c: Candidate)
    ensures Perfect(ScoreFor(ViewerOf(username, nickname)), c) <==> IsPerfectFor(username, nickname, c)
  {
    ScoreIsBetterOfBoth(username, nickname, c);
    SimilarityFacts(Normalize(c.driverName), Normalize(username));
    if IsNamed(nickname) {
      SimilarityFacts(Normalize(c.driverName), Normalize(nickname.value));
    }
  }

  /** So the first candidate whose name is like the viewer's handle or nickname is suggested. */
  lemma {:induction false} FirstAlikeIsSuggested(username: string, nickname: Option<string>, cs: seq<Candidate>, i: nat)
    requires i < |cs| && IsPerfectFor(username, nickname, cs[i])
    requires forall j :: 0 <= j < i ==> !IsPerfectFor(username, nickname, cs[j])
    ensures Match(ScoreFor(ViewerOf(username, nickname)), cs) == Some(cs[i])
  {
    var score := ScoreFor(ViewerOf(username, nickname));
    ScoresAreInUnit(ViewerOf(username, nickname));
    forall j | 0 <= j <= i
      ensures Perfect(score, cs[j]) <==> IsPerfectFor(username, nickname, cs[j])
    {
      PerfectExactlyWhenAlike(username, nickname, cs[j]);
    }
    FirstPerfectWins(score, cs, i);
  }

  /** Two drivers with the viewer's own normalized name are both perfect: whichever comes first is suggested. */
  lemma {:induction false} TwoPerfectNamesakes(username: string, c: Candidate, d: Candidate)
    requires Normalize(c.driverName) == Normalize(d.driverName) == Normalize(username) && c != d
    ensures Match(ScoreFor(ViewerOf(username, None)), [c, d]) == Some(c)
    ensures Match(ScoreFor(ViewerOf(username, None)), [d, c]) == Some(d)
  {
    ScoresAreInUnit(ViewerOf(username, None));
    FirstPerfectWins(ScoreFor(ViewerOf(username, None)), [c, d], 0);
    FirstPerfectWins(ScoreFor(ViewerOf(username, None)), [d, c], 0);
  }
}
