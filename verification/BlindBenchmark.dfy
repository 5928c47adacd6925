/** The blind benchmark: a coin decides which of two labels hides the agent run. Opening the committed mapping must find
    the same runs and reach the same verdict whichever way the coin fell. */
module BlindBenchmark {
  import opened Outcomes

  // ---- scoring one candidate ----

  datatype Criterion = Criterion(id: string, maximumScore: nat, critical: bool)

  datatype CriterionScore = CriterionScore(id: string, score: nat, criticalFailure: bool)

  datatype Score = Score(total: nat, criticalFailures: nat)

  datatype ScoreError = DuplicateScores | Incomplete | ExceedsMaximum(id: string) | NotCritical(id: string)

  const MAXIMUM_SCORE: nat := 100

  ghost predicate UniqueIds(rubric: seq<Criterion>) {
    forall i, j :: 0 <= i < j < |rubric| ==> rubric[i].id != rubric[j].id
  }

  function Weight(rubric: seq<Criterion>): nat {
    if rubric == [] then 0 else Weight(rubric[..|rubric| - 1]) + rubric[|rubric| - 1].maximumScore
  }

  /** The frozen rubric: unique IDs and weights that sum to 100. */
  ghost predicate ValidRubric(rubric: seq<Criterion>) {
    UniqueIds(rubric) && Weight(rubric) == MAXIMUM_SCORE
  }

  function ScoreIds(scores: seq<CriterionScore>): set<string> {
    set i | 0 <= i < |scores| :: scores[i].id
  }

  function RubricIds(rubric: seq<Criterion>): set<string> {
    set i | 0 <= i < |rubric| :: rubric[i].id
  }

  /** The first score for an ID. */
  function Find(scores: seq<CriterionScore>, id: string): (s: Option<CriterionScore>)
    ensures s.Some? <==> id in ScoreIds(scores)
    ensures s.Some? ==> s.value in scores && s.value.id == id
  {
    if scores == [] then None
    else if scores[0].id == id then Some(scores[0])
    else
      assert scores == [scores[0]] + scores[1..];
      assert ScoreIds(scores) == {scores[0].id} + ScoreIds(scores[1..]);
      Find(scores[1..], id)
  }

  predicate Fits(c: Criterion, s: CriterionScore) {
    s.score <= c.maximumScore && (s.criticalFailure ==> c.critical)
  }

  /** Every criterion is scored exactly once, within its maximum, and only critical criteria fail critically. */
  ghost predicate WellScored(scores: seq<CriterionScore>, rubric: seq<Criterion>) {
    && |ScoreIds(scores)| == |scores|
    && ScoreIds(scores) == RubricIds(rubric)
    && forall i :: 0 <= i < |rubric| ==> Find(scores, rubric[i].id).Some? && Fits(rubric[i], Find(scores, rubric[i].id).value)
  }

  function PointsFor(scores: seq<CriterionScore>, c: Criterion): nat {
    var s := Find(scores, c.id);
    if s.Some? then s.value.score else 0
  }

  function FailureFor(scores: seq<CriterionScore>, c: Criterion): nat {
    var s := Find(scores, c.id);
    if s.Some? && s.value.criticalFailure then 1 else 0
  }

  function Total(scores: seq<CriterionScore>, rubric: seq<Criterion>): nat {
    if rubric == [] then 0
    else Total(scores, rubric[..|rubric| - 1]) + PointsFor(scores, rubric[|rubric| - 1])
  }

  function Failures(scores: seq<CriterionScore>, rubric: seq<Criterion>): nat {
    if rubric == [] then 0
    else Failures(scores, rubric[..|rubric| - 1]) + FailureFor(scores, rubric[|rubric| - 1])
  }

  lemma {:induction false} IdCount(rubric: seq<Criterion>)
    requires UniqueIds(rubric)
    ensures |RubricIds(rubric)| == |rubric|
    decreases |rubric|
  {
    if rubric != [] {
      var front, last := rubric[..|rubric| - 1], rubric[|rubric| - 1];
      IdCount(front);
      assert RubricIds(rubric) == RubricIds(front) + {last.id};
      assert last.id !in RubricIds(front);
    }
  }

  lemma SubsetOfSameSize(a: set<string>, b: set<string>)
    requires a <= b && |a| == |b|
    ensures a == b
  {
    assert b == a + (b - a);
    assert |b| == |a| + |b - a|;
  }

  /** As many scores as criteria, no ID twice and none foreign: then every criterion has its score. */
  lemma EveryCriterionIsScored(scores: seq<CriterionScore>, rubric: seq<Criterion>)
    requires UniqueIds(rubric) && |ScoreIds(scores)| == |scores| == |rubric| && ScoreIds(scores) <= RubricIds(rubric)
    ensures ScoreIds(scores) == RubricIds(rubric)
  {
    IdCount(rubric);
    SubsetOfSameSize(ScoreIds(scores), RubricIds(rubric));
  }

  /** What each refusal means. */
  ghost predicate Explained(scores: seq<CriterionScore>, rubric: seq<Criterion>, e: ScoreError) {
    match e
    case DuplicateScores => |ScoreIds(scores)| != |scores|
    case Incomplete => |scores| != |rubric| || ScoreIds(scores) != RubricIds(rubric)
    case ExceedsMaximum(id) => exists c :: c in rubric && c.id == id && PointsFor(scores, c) > c.maximumScore
    case NotCritical(id) => exists c :: c in rubric && c.id == id && !c.critical && FailureFor(scores, c) == 1
  }

  /** Add the scores up, criterion by criterion in rubric order. */
  method ScoreCandidate(scores: seq<CriterionScore>, rubric: seq<Criterion>) returns (r: Result<Score, ScoreError>)
    requires ValidRubric(rubric)
    ensures r.Ok? ==> WellScored(scores, rubric) && r.value == Score(Total(scores, rubric), Failures(scores, rubric))
    ensures r.Err? ==> !WellScored(scores, rubric) && Explained(scores, rubric, r.error)
  {
    if |ScoreIds(scores)| != |scores| {
      return Err(DuplicateScores);
    }
    IdCount(rubric);
    if |scores| != |rubric| || !(ScoreIds(scores) <= RubricIds(rubric)) {
      return Err(Incomplete);
    }
    EveryCriterionIsScored(scores, rubric);
    r := SumScores(scores, rubric);
  }

  /** The check of one score against its criterion. */
  function ScoreProblem(criterion: Criterion, result: CriterionScore): Option<ScoreError> {
    if result.score > criterion.maximumScore then Some(ExceedsMaximum(criterion.id))
    else if result.criticalFailure && !criterion.critical then Some(NotCritical(criterion.id))
    else None
  }

  lemma ProblemExplains(scores: seq<CriterionScore>, rubric: seq<Criterion>, i: nat)
    requires i < |rubric| && Find(scores, rubric[i].id).Some?
    requires ScoreProblem(rubric[i], Find(scores, rubric[i].id).value).Some?
    ensures !WellScored(scores, rubric)
    ensures Explained(scores, rubric, ScoreProblem(rubric[i], Find(scores, rubric[i].id).value).value)
  {
    var criterion := rubric[i];
    assert criterion in rubric;
    assert PointsFor(scores, criterion) > criterion.maximumScore || FailureFor(scores, criterion) == 1;
  }

  lemma HasScore(scores: seq<CriterionScore>, rubric: seq<Criterion>, i: nat)
    requires ScoreIds(scores) == RubricIds(rubric) && i < |rubric|
    ensures Find(scores, rubric[i].id).Some?
  {
    assert rubric[i].id in RubricIds(rubric);
  }

  lemma OneMoreScore(scores: seq<CriterionScore>, rubric: seq<Criterion>, i: nat)
    requires i < |rubric| && Find(scores, rubric[i].id).Some?
    ensures var result := Find(scores, rubric[i].id).value;
            && Total(scores, rubric[..i + 1]) == Total(scores, rubric[..i]) + result.score
            && Failures(scores, rubric[..i + 1]) == Failures(scores, rubric[..i]) + if result.criticalFailure then 1 else 0
  {
    assert rubric[..i + 1][..i] == rubric[..i];
  }

  /** The first `n` criteria have their scores, and these fit. */
  ghost predicate FitsUpTo(scores: seq<CriterionScore>, rubric: seq<Criterion>, n: nat)
    requires n <= |rubric|
  {
    forall j :: 0 <= j < n ==> Find(scores, rubric[j].id).Some? && Fits(rubric[j], Find(scores, rubric[j].id).value)
  }

  /** The loop over the rubric, once every criterion has its score. */
  method SumScores(scores: seq<CriterionScore>, rubric: seq<Criterion>) returns (r: Result<Score, ScoreError>)
    requires ScoreIds(scores) == RubricIds(rubric) && |ScoreIds(scores)| == |scores|
    ensures r.Ok? ==> WellScored(scores, rubric) && r.value == Score(Total(scores, rubric), Failures(scores, rubric))
    ensures r.Err? ==> !WellScored(scores, rubric) && Explained(scores, rubric, r.error)
    ensures r.Err? ==> r.error.ExceedsMaximum? || r.error.NotCritical?
  {
    var total, failures := 0, 0;
    for i := 0 to |rubric|
      invariant total == Total(scores, rubric[..i]) && failures == Failures(scores, rubric[..i])
      invariant FitsUpTo(scores, rubric, i)
    {
      HasScore(scores, rubric, i);
      OneMoreScore(scores, rubric, i);
      var result := Find(scores, rubric[i].id).value;
      var problem := ScoreProblem(rubric[i], result);
      if problem.Some? {
        ProblemExplains(scores, rubric, i);
        return Err(problem.value);
      }
      total := total + result.score;
      if result.criticalFailure {
        failures := failures + 1;
      }
    }
    assert rubric[..|rubric|] == rubric;
    r := Ok(Score(total, failures));
  }

  // ---- totals are bounded and do not depend on any order ----

  lemma {:induction false} TotalWithinWeight(scores: seq<CriterionScore>, rubric: seq<Criterion>)
    requires forall i :: 0 <= i < |rubric| ==> PointsFor(scores, rubric[i]) <= rubric[i].maximumScore
    ensures Total(scores, rubric) <= Weight(rubric)
    decreases |rubric|
  {
    if rubric != [] {
      TotalWithinWeight(scores, rubric[..|rubric| - 1]);
    }
  }

  /** A well-scored candidate never gets more than 100. */
  lemma TotalAtMostHundred(scores: seq<CriterionScore>, rubric: seq<Criterion>)
    requires ValidRubric(rubric) && WellScored(scores, rubric)
    ensures Total(scores, rubric) <= 100
  {
    forall i | 0 <= i < |rubric| ensures PointsFor(scores, rubric[i]) <= rubric[i].maximumScore {
      assert Fits(rubric[i], Find(scores, rubric[i].id).value);
    }
    TotalWithinWeight(scores, rubric);
  }

  lemma FrontWithout(rubric: seq<Criterion>, k: nat)
    requires k < |rubric| - 1
    ensures var front, rest := rubric[..|rubric| - 1], rubric[..k] + rubric[k + 1..];
            && rest != [] && rest[|rest| - 1] == rubric[|rubric| - 1] && front[k] == rubric[k]
            && rest[..|rest| - 1] == front[..k] + front[k + 1..]
  {
  }

  lemma {:induction false} TotalWithout(scores: seq<CriterionScore>, rubric: seq<Criterion>, k: nat)
    requires k < |rubric|
    ensures Total(scores, rubric) == Total(scores, rubric[..k] + rubric[k + 1..]) + PointsFor(scores, rubric[k])
    ensures Failures(scores, rubric) == Failures(scores, rubric[..k] + rubric[k + 1..]) + FailureFor(scores, rubric[k])
    ensures Weight(rubric) == Weight(rubric[..k] + rubric[k + 1..]) + rubric[k].maximumScore
    decreases |rubric|
  {
    var front, rest := rubric[..|rubric| - 1], rubric[..k] + rubric[k + 1..];
    if k == |rubric| - 1 {
      assert rest == front;
    } else {
      TotalWithout(scores, front, k);
      FrontWithout(rubric, k);
    }
  }

  lemma FrontMultiset(a: seq<Criterion>)
    requires a != []
    ensures multiset(a[..|a| - 1]) == multiset(a) - multiset{a[|a| - 1]}
  {
    assert a == a[..|a| - 1] + [a[|a| - 1]];
  }

  lemma WithoutMultiset(b: seq<Criterion>, k: nat)
    requires k < |b|
    ensures multiset(b[..k] + b[k + 1..]) == multiset(b) - multiset{b[k]}
  {
    assert b == b[..k] + [b[k]] + b[k + 1..];
  }

  /** The last criterion of one order stands somewhere in the other; without it, the rests are still the same. */
  lemma SameWithoutLast(a: seq<Criterion>, b: seq<Criterion>) returns (k: nat)
    requires multiset(a) == multiset(b) && a != []
    ensures k < |b| && b[k] == a[|a| - 1]
    ensures multiset(a[..|a| - 1]) == multiset(b[..k] + b[k + 1..])
  {
    assert a[|a| - 1] in multiset(b);
    k :| 0 <= k < |b| && b[k] == a[|a| - 1];
    FrontMultiset(a);
    WithoutMultiset(b, k);
  }

  /** Rubric order does not matter. */
  lemma {:induction false} TotalOfPermutation(scores: seq<CriterionScore>, a: seq<Criterion>, b: seq<Criterion>)
    requires multiset(a) == multiset(b)
    ensures Total(scores, a) == Total(scores, b) && Failures(scores, a) == Failures(scores, b) && Weight(a) == Weight(b)
    decreases |a|
  {
    if a == [] {
      assert |multiset(b)| == 0;
    } else {
      var k := SameWithoutLast(a, b);
      TotalOfPermutation(scores, a[..|a| - 1], b[..k] + b[k + 1..]);
      TotalWithout(scores, b, k);
    }
  }

  ghost predicate UniqueScores(scores: seq<CriterionScore>) {
    forall i, j :: 0 <= i < j < |scores| ==> scores[i].id != scores[j].id
  }

  /** Without duplicates a score is found wherever it stands. */
  lemma {:induction false} FindAnywhere(scores: seq<CriterionScore>, s: CriterionScore)
    requires UniqueScores(scores) && s in scores
    ensures Find(scores, s.id) == Some(s)
    decreases |scores|
  {
  }

  /** The order in which a candidate's criteria were scored does not matter. */
  lemma {:induction false} TotalOfShuffledScores(a: seq<CriterionScore>, b: seq<CriterionScore>, rubric: seq<Criterion>)
    requires UniqueScores(a) && UniqueScores(b) && (forall s :: s in a <==> s in b)
    ensures Total(a, rubric) == Total(b, rubric) && Failures(a, rubric) == Failures(b, rubric)
    decreases |rubric|
  {
    if rubric != [] {
      TotalOfShuffledScores(a, b, rubric[..|rubric| - 1]);
      var id := rubric[|rubric| - 1].id;
      if Find(a, id).Some? { FindAnywhere(b, Find(a, id).value); }
      if Find(b, id).Some? { FindAnywhere(a, Find(b, id).value); }
    }
  }

  /** Nor does the order of the rubric decide whether a candidate is well scored. */
  lemma WellScoredOfPermutation(scores: seq<CriterionScore>, a: seq<Criterion>, b: seq<Criterion>)
    requires multiset(a) == multiset(b) && WellScored(scores, a)
    ensures WellScored(scores, b)
  {
    forall c ensures c in a <==> c in b {
      assert c in a <==> c in multiset(a);
      assert c in b <==> c in multiset(b);
    }
    forall id ensures id in RubricIds(a) <==> id in RubricIds(b) {
      if id in RubricIds(a) {
        var i :| 0 <= i < |a| && a[i].id == id;
        assert a[i] in b;
      }
      if id in RubricIds(b) {
        var i :| 0 <= i < |b| && b[i].id == id;
        assert b[i] in a;
      }
    }
    forall i | 0 <= i < |b| ensures Find(scores, b[i].id).Some? && Fits(b[i], Find(scores, b[i].id).value) {
      assert b[i] in a;
      var k :| 0 <= k < |a| && a[k] == b[i];
    }
  }

  // ---- the committed runs and the blinding coin ----

  datatype SourceType = Agent | Manual

  /** One captured run. Its hash commits to all of it. */
  datatype Record = Record(
    candidateHash: string, source: SourceType, runNumber: nat, outputHash: string, elapsed: nat,
    operator: string, contact: string, conformanceFailures: Option<nat>)

  datatype Assignment = Assignment(tag: string, candidateHash: string, source: SourceType, runNumber: nat)

  datatype Mapping = Mapping(assignments: seq<Assignment>, excludedHash: string, excludedRun: nat)

  datatype Shown = Shown(tag: string, outputHash: string)

  /** The public packet commits to the mapping and shows two outputs under their labels. */
  datatype Packet = Packet(commitment: Mapping, candidates: seq<Shown>)

  datatype RevealError = WrongRunCount | BadMapping | MissingEvidence | Mismatch | InvalidRepeat | MissingScore | NotIndependent

  function OfSource(records: seq<Record>, source: SourceType): seq<Record> {
    if records == [] then []
    else
      var rest := OfSource(records[1..], source);
      if records[0].source == source then [records[0]] + rest else rest
  }

  function InsertByRun(r: Record, sorted: seq<Record>): seq<Record> {
    if sorted == [] || r.runNumber <= sorted[0].runNumber then [r] + sorted
    else [sorted[0]] + InsertByRun(r, sorted[1..])
  }

  function ByRun(records: seq<Record>): seq<Record> {
    if records == [] then [] else InsertByRun(records[0], ByRun(records[1..]))
  }

  function Assign(tag: string, r: Record): Assignment {
    Assignment(tag, r.candidateHash, r.source, r.runNumber)
  }

  /** The coin puts the first agent run under the first label or under the second; another agent run is withheld. */
  function Finalize(records: seq<Record>, agentRuns: nat, labels: (string, string), agentFirst: bool)
    : Result<(Packet, Mapping), RevealError>
  {
    var agents := ByRun(OfSource(records, Agent));
    var manuals := OfSource(records, Manual);
    if |agents| != agentRuns || |manuals| != 1 || |agents| < 2 then Err(WrongRunCount)
    else
      var first := if agentFirst then agents[0] else manuals[0];
      var second := if agentFirst then manuals[0] else agents[0];
      var mapping := Mapping([Assign(labels.0, first), Assign(labels.1, second)], agents[1].candidateHash, agents[1].runNumber);
      Ok((Packet(mapping, [Shown(labels.0, first.outputHash), Shown(labels.1, second.outputHash)]), mapping))
  }

  predicate VerifyMapping(packet: Packet, mapping: Mapping) {
    && packet.commitment == mapping
    && |mapping.assignments| == 2
    && mapping.assignments[0].tag != mapping.assignments[1].tag
    && mapping.assignments[0].source != mapping.assignments[1].source
  }

  /** The last record with a hash, as a map built from all records keeps it. */
  function ByHash(records: seq<Record>, hash: string): Option<Record> {
    if records == [] then None
    else if records[|records| - 1].candidateHash == hash then Some(records[|records| - 1])
    else ByHash(records[..|records| - 1], hash)
  }

  function ShownAs(candidates: seq<Shown>, tag: string): Option<Shown> {
    if candidates == [] then None
    else if candidates[|candidates| - 1].tag == tag then Some(candidates[|candidates| - 1])
    else ShownAs(candidates[..|candidates| - 1], tag)
  }

  function Assigned(assignments: seq<Assignment>, source: SourceType): Option<Assignment> {
    if assignments == [] then None
    else if assignments[0].source == source then Some(assignments[0])
    else Assigned(assignments[1..], source)
  }

  datatype Resolved = Resolved(manualLabel: string, agentLabel: string, manual: Record, representative: Record, withheld: Record)

  function CheckAssignment(packet: Packet, records: seq<Record>, a: Assignment): Option<RevealError> {
    var record, shown := ByHash(records, a.candidateHash), ShownAs(packet.candidates, a.tag);
    if record.None? || shown.None? then Some(MissingEvidence)
    else if record.value.source != a.source || record.value.runNumber != a.runNumber || record.value.outputHash != shown.value.outputHash
    then Some(Mismatch)
    else None
  }

  function CheckAll(packet: Packet, records: seq<Record>, assignments: seq<Assignment>): Option<RevealError> {
    if assignments == [] then None
    else
      var first := CheckAssignment(packet, records, assignments[0]);
      if first.Some? then first else CheckAll(packet, records, assignments[1..])
  }

  function Resolve(packet: Packet, mapping: Mapping, records: seq<Record>): Result<Resolved, RevealError> {
    var problem := CheckAll(packet, records, mapping.assignments);
    var manual, agent := Assigned(mapping.assignments, Manual), Assigned(mapping.assignments, Agent);
    if problem.Some? then Err(problem.value)
    else if manual.None? || agent.None? then Err(MissingEvidence)
    else
      var manualRecord, agentRecord := ByHash(records, manual.value.candidateHash), ByHash(records, agent.value.candidateHash);
      var withheld := ByHash(records, mapping.excludedHash);
      if manualRecord.None? || manualRecord.value.source != Manual || agentRecord.None? || agentRecord.value.source != Agent
      then Err(MissingEvidence)
      else if withheld.None? || withheld.value.source != Agent || withheld.value.runNumber != mapping.excludedRun
           || exists i :: 0 <= i < |mapping.assignments| && mapping.assignments[i].candidateHash == mapping.excludedHash
      then Err(InvalidRepeat)
      else Ok(Resolved(manual.value.tag, agent.value.tag, manualRecord.value, agentRecord.value, withheld.value))
  }

  /** Different runs have different hashes. */
  ghost predicate HashesDistinct(records: seq<Record>) {
    forall i, j :: 0 <= i < j < |records| ==> records[i].candidateHash != records[j].candidateHash
  }

  lemma {:induction false} HashFinds(records: seq<Record>, r: Record)
    requires HashesDistinct(records) && r in records
    ensures ByHash(records, r.candidateHash) == Some(r)
    decreases |records|
  {
    var last := records[|records| - 1];
    if last != r {
      var i :| 0 <= i < |records| && records[i] == r;
      assert records[i].candidateHash != last.candidateHash;
      assert r in records[..|records| - 1];
      HashFinds(records[..|records| - 1], r);
    }
  }

  lemma {:induction false} OfSourceMembers(records: seq<Record>, source: SourceType)
    ensures forall r :: r in OfSource(records, source) ==> r in records && r.source == source
    ensures HashesDistinct(records) ==> HashesDistinct(OfSource(records, source))
    decreases |records|
  {
    if records != [] {
      OfSourceMembers(records[1..], source);
    }
  }

  lemma {:induction false} InsertByRunMembers(r: Record, sorted: seq<Record>)
    ensures forall x :: x in InsertByRun(r, sorted) <==> x == r || x in sorted
    ensures HashesDistinct([r] + sorted) ==> HashesDistinct(InsertByRun(r, sorted))
    decreases |sorted|
  {
    if sorted != [] && r.runNumber > sorted[0].runNumber {
      var rest := sorted[1..];
      InsertByRunMembers(r, rest);
      assert sorted == [sorted[0]] + rest;
      if HashesDistinct([r] + sorted) {
        assert HashesDistinct([r] + rest) by {
          forall i, j | 0 <= i < j < |[r] + rest| ensures ([r] + rest)[i].candidateHash != ([r] + rest)[j].candidateHash {
            assert ([r] + rest)[j] == ([r] + sorted)[j + 1];
            if i > 0 { assert ([r] + rest)[i] == ([r] + sorted)[i + 1]; } else { assert ([r] + rest)[0] == ([r] + sorted)[0]; }
          }
        }
        forall x | x in InsertByRun(r, rest) ensures x.candidateHash != sorted[0].candidateHash {
          if x == r {
            assert ([r] + sorted)[0].candidateHash != ([r] + sorted)[1].candidateHash;
          } else {
            var k :| 0 <= k < |rest| && rest[k] == x;
            assert ([r] + sorted)[1].candidateHash != ([r] + sorted)[k + 2].candidateHash;
          }
        }
      }
    }
  }

  lemma {:induction false} ByRunMembers(records: seq<Record>)
    ensures forall x :: x in ByRun(records) <==> x in records
    ensures HashesDistinct(records) ==> HashesDistinct(ByRun(records))
    decreases |records|
  {
    if records != [] {
      ByRunMembers(records[1..]);
      InsertByRunMembers(records[0], ByRun(records[1..]));
      if HashesDistinct(records) {
        forall x | x in ByRun(records[1..]) ensures x.candidateHash != records[0].candidateHash {
          var k :| 0 <= k < |records[1..]| && records[1..][k] == x;
          assert records[0].candidateHash != records[k + 1].candidateHash;
        }
      }
    }
  }

  /** What finalization commits to, whichever way the coin fell. */
  ghost predicate Ready(records: seq<Record>, agentRuns: nat) {
    && HashesDistinct(records)
    && |ByRun(OfSource(records, Agent))| == agentRuns >= 2 && |OfSource(records, Manual)| == 1
  }

  lemma CommittedRuns(records: seq<Record>, agentRuns: nat)
    requires Ready(records, agentRuns)
    ensures var agents, manual := ByRun(OfSource(records, Agent)), OfSource(records, Manual)[0];
            && agents[0].source == Agent && agents[1].source == Agent && manual.source == Manual
            && ByHash(records, agents[0].candidateHash) == Some(agents[0])
            && ByHash(records, agents[1].candidateHash) == Some(agents[1])
            && ByHash(records, manual.candidateHash) == Some(manual)
            && agents[0].candidateHash != agents[1].candidateHash && manual.candidateHash != agents[1].candidateHash
  {
    var agents, manual := ByRun(OfSource(records, Agent)), OfSource(records, Manual)[0];
    OfSourceMembers(records, Agent);
    OfSourceMembers(records, Manual);
    ByRunMembers(OfSource(records, Agent));
    assert agents[0] in OfSource(records, Agent) && agents[1] in OfSource(records, Agent) && manual in OfSource(records, Manual);
    HashFinds(records, agents[0]);
    HashFinds(records, agents[1]);
    HashFinds(records, manual);
  }

  /** The committed mapping verifies exactly when the protocol's two labels differ. */
  lemma MappingVerifiesIffLabelsDiffer(records: seq<Record>, agentRuns: nat, labels: (string, string), agentFirst: bool)
    requires Ready(records, agentRuns)
    ensures var f := Finalize(records, agentRuns, labels, agentFirst);
            f.Ok? && (VerifyMapping(f.value.0, f.value.1) <==> labels.0 != labels.1)
  {
    CommittedRuns(records, agentRuns);
  }

  lemma TwoShown(a: Shown, b: Shown)
    requires a.tag != b.tag
    ensures ShownAs([a, b], a.tag) == Some(a) && ShownAs([a, b], b.tag) == Some(b)
  {
  }

  lemma TwoAssigned(a: Assignment, b: Assignment)
    requires a.source != b.source
    ensures Assigned([a, b], a.source) == Some(a) && Assigned([a, b], b.source) == Some(b)
  {
  }

  lemma TwoChecked(packet: Packet, records: seq<Record>, a: Assignment, b: Assignment)
    requires CheckAssignment(packet, records, a).None? && CheckAssignment(packet, records, b).None?
    ensures CheckAll(packet, records, [a, b]).None?
  {
    assert [a, b][1..] == [b];
    assert CheckAll(packet, records, [b]).None?;
  }

  /** Opening the mapping finds the manual run, the first agent run and the withheld repeat, for either coin. */
  lemma ResolutionRecoversTheRuns(records: seq<Record>, agentRuns: nat, labels: (string, string), agentFirst: bool)
    requires Ready(records, agentRuns) && labels.0 != labels.1
    ensures var f := Finalize(records, agentRuns, labels, agentFirst);
            var agents, manual := ByRun(OfSource(records, Agent)), OfSource(records, Manual)[0];
            && f.Ok?
            && Resolve(f.value.0, f.value.1, records) ==
                 Ok(Resolved(if agentFirst then labels.1 else labels.0, if agentFirst then labels.0 else labels.1,
                             manual, agents[0], agents[1]))
  {
    CommittedRuns(records, agentRuns);
    var (packet, mapping) := Finalize(records, agentRuns, labels, agentFirst).value;
    TwoShown(packet.candidates[0], packet.candidates[1]);
    TwoAssigned(mapping.assignments[0], mapping.assignments[1]);
    TwoChecked(packet, records, mapping.assignments[0], mapping.assignments[1]);
  }

  // ---- the verdict ----

  function InsertNat(x: nat, sorted: seq<nat>): seq<nat> {
    if sorted == [] || x <= sorted[0] then [x] + sorted else [sorted[0]] + InsertNat(x, sorted[1..])
  }

  function SortNats(values: seq<nat>): (sorted: seq<nat>)
  {
    if values == [] then [] else InsertNat(values[0], SortNats(values[1..]))
  }

  /** Twice the median, so that the mean of two middle values stays whole. */
  function TwiceMedian(values: seq<nat>): nat {
    var sorted := SortNats(values);
    var middle := |sorted| / 2;
    if sorted == [] then 0
    else if |sorted| % 2 == 1 then 2 * sorted[middle]
    else sorted[middle - 1] + sorted[middle]
  }

  function Elapsed(records: seq<Record>): seq<nat> {
    if records == [] then [] else [records[0].elapsed] + Elapsed(records[1..])
  }

  function ConformanceFailures(records: seq<Record>): nat {
    if records == [] then 0
    else ConformanceFailures(records[1..])
         + if records[0].conformanceFailures.Some? then records[0].conformanceFailures.value else 1
  }

  predicate SameOutput(records: seq<Record>) {
    records != [] && forall i :: 0 <= i < |records| ==> records[i].outputHash == records[0].outputHash
  }

  datatype Evaluator = Evaluator(name: string, contact: string)

  /** The published result without the labels it happened to use. */
  datatype Verdict = Verdict(
    manualOutput: string, agentOutput: string, repeatOutput: string, manualScore: Score, agentScore: Score,
    twiceMedianElapsed: nat, outputsMatch: bool, conformanceFailures: nat, advantageSupported: bool)

  function Derive(evaluator: Evaluator, totals: map<string, Score>, records: seq<Record>, r: Resolved): Result<Verdict, RevealError> {
    if r.manualLabel !in totals || r.agentLabel !in totals then Err(MissingScore)
    else if r.manual.contact == evaluator.contact || r.manual.operator == evaluator.name then Err(NotIndependent)
    else
      var agents := OfSource(records, Agent);
      var manualScore, agentScore := totals[r.manualLabel], totals[r.agentLabel];
      var median, failures := TwiceMedian(Elapsed(agents)), ConformanceFailures(agents);
      Ok(Verdict(
        r.manual.outputHash, r.representative.outputHash, r.withheld.outputHash, manualScore, agentScore,
        median, SameOutput(agents), failures,
        && agentScore.total >= manualScore.total
        && SameOutput(agents)
        && failures == 0
        && agentScore.criticalFailures == 0
        && median < 2 * r.manual.elapsed))
  }

  /** Open the mapping after scoring and derive the result. */
  function Reveal(packet: Packet, mapping: Mapping, evaluator: Evaluator, totals: map<string, Score>, records: seq<Record>)
    : Result<Verdict, RevealError>
  {
    if !VerifyMapping(packet, mapping) then Err(BadMapping)
    else
      match Resolve(packet, mapping, records)
      case Err(e) => Err(e)
      case Ok(resolved) => Derive(evaluator, totals, records, resolved)
  }

  /** The evaluator's totals by label, when the manual output earns `manual` and the agent output `agent`. */
  function TotalsShown(labels: (string, string), agentFirst: bool, manual: Score, agent: Score): map<string, Score> {
    if agentFirst then map[labels.0 := agent, labels.1 := manual] else map[labels.0 := manual, labels.1 := agent]
  }

  function RevealedWith(records: seq<Record>, agentRuns: nat, labels: (string, string), agentFirst: bool,
                        evaluator: Evaluator, manual: Score, agent: Score): Result<Verdict, RevealError>
  {
    match Finalize(records, agentRuns, labels, agentFirst)
    case Err(e) => Err(e)
    case Ok((packet, mapping)) => Reveal(packet, mapping, evaluator, TotalsShown(labels, agentFirst, manual, agent), records)
  }

  /** The published scores are those of the manual and the agent output, and the result is withheld exactly when the
      evaluator is not independent of the manual operator. */
  lemma VerdictScoresTheRightRuns(records: seq<Record>, agentRuns: nat, labels: (string, string), agentFirst: bool,
                                  evaluator: Evaluator, manual: Score, agent: Score)
    requires Ready(records, agentRuns) && labels.0 != labels.1
    ensures var v := RevealedWith(records, agentRuns, labels, agentFirst, evaluator, manual, agent);
            var run := OfSource(records, Manual)[0];
            && (v.Ok? <==> run.contact != evaluator.contact && run.operator != evaluator.name)
            && (v.Err? ==> v.error == NotIndependent)
            && (v.Ok? ==>
                  && v.value.manualScore == manual && v.value.agentScore == agent
                  && v.value.manualOutput == run.outputHash
                  && v.value.agentOutput == ByRun(OfSource(records, Agent))[0].outputHash
                  && v.value.repeatOutput == ByRun(OfSource(records, Agent))[1].outputHash
                  && (v.value.advantageSupported ==> agent.total >= manual.total && agent.criticalFailures == 0))
  {
    MappingVerifiesIffLabelsDiffer(records, agentRuns, labels, agentFirst);
    ResolutionRecoversTheRuns(records, agentRuns, labels, agentFirst);
  }

  /** The blinding coin cannot change the verdict. */
  lemma CoinCannotChangeTheVerdict(records: seq<Record>, agentRuns: nat, labels: (string, string),
                                   evaluator: Evaluator, manual: Score, agent: Score)
    requires HashesDistinct(records) && labels.0 != labels.1
    ensures RevealedWith(records, agentRuns, labels, true, evaluator, manual, agent)
         == RevealedWith(records, agentRuns, labels, false, evaluator, manual, agent)
  {
    if Ready(records, agentRuns) {
      MappingVerifiesIffLabelsDiffer(records, agentRuns, labels, true);
      MappingVerifiesIffLabelsDiffer(records, agentRuns, labels, false);
      ResolutionRecoversTheRuns(records, agentRuns, labels, true);
      ResolutionRecoversTheRuns(records, agentRuns, labels, false);
    }
  }
}
