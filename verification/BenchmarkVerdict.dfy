/** What a published benchmark verdict means, in terms of the captured runs alone: which runs it is about, what it counts,
    and when it supports the advantage; and what an opened mapping must agree with. */
module BenchmarkVerdict {
  import opened Outcomes
  import opened BlindBenchmark

  // ---- reference definitions over the records ----

  /** The elapsed times of the agent runs. */
  function AgentTimes(records: seq<Record>): multiset<nat> {
    if records == [] then multiset{}
    else
      var last := records[|records| - 1];
      AgentTimes(records[..|records| - 1]) + if last.source == Agent then multiset{last.elapsed} else multiset{}
  }

  /** The agent runs' conformance failures; a run without conformance evidence counts as one. */
  function FailureSum(records: seq<Record>): nat {
    if records == [] then 0
    else
      var last := records[|records| - 1];
      FailureSum(records[..|records| - 1])
      + if last.source != Agent then 0 else if last.conformanceFailures.None? then 1 else last.conformanceFailures.value
  }

  ghost predicate Ascending(s: seq<nat>) {
    forall i, j :: 0 <= i <= j < |s| ==> s[i] <= s[j]
  }

  /** Twice the middle of the values in order: the middle one doubled, or the sum of the two middle ones. */
  ghost predicate IsTwiceMedian(m: nat, values: multiset<nat>) {
    exists s: seq<nat> ::
      Ascending(s) && multiset(s) == values
      && if |s| == 0 then m == 0 else m == s[(|s| - 1) / 2] + s[|s| / 2]
  }

  ghost predicate OneAgentOutput(records: seq<Record>) {
    forall a, b :: a in records && b in records && a.source == Agent && b.source == Agent ==> a.outputHash == b.outputHash
  }

  /** No other agent run has a lower number. */
  ghost predicate FirstRun(records: seq<Record>, r: Record) {
    r in records && r.source == Agent && forall x :: x in records && x.source == Agent ==> r.runNumber <= x.runNumber
  }

  /** No agent run other than the first has a lower number. */
  ghost predicate SecondRun(records: seq<Record>, first: Record, r: Record) {
    && r in records && r.source == Agent && r != first
    && forall x :: x in records && x.source == Agent && x != first ==> r.runNumber <= x.runNumber
  }

  // ---- the model's computations meet them ----

  lemma {:induction false} InsertNatPermutes(x: nat, s: seq<nat>)
    ensures multiset(InsertNat(x, s)) == multiset(s) + multiset{x}
    decreases |s|
  {
    if s != [] && x > s[0] {
      InsertNatPermutes(x, s[1..]);
      assert s == [s[0]] + s[1..];
    }
  }

  lemma {:induction false} InsertNatFloor(x: nat, s: seq<nat>, floor: nat)
    requires floor <= x && forall i :: 0 <= i < |s| ==> floor <= s[i]
    ensures forall i :: 0 <= i < |InsertNat(x, s)| ==> floor <= InsertNat(x, s)[i]
    decreases |s|
  {
    if s != [] && x > s[0] {
      InsertNatFloor(x, s[1..], floor);
    }
  }

  lemma {:induction false} InsertNatSorts(x: nat, s: seq<nat>)
    requires Ascending(s)
    ensures Ascending(InsertNat(x, s))
    decreases |s|
  {
    if s != [] && x > s[0] {
      InsertNatSorts(x, s[1..]);
      InsertNatFloor(x, s[1..], s[0]);
    }
  }

  lemma {:induction false} SortNatsSorts(s: seq<nat>)
    ensures Ascending(SortNats(s)) && multiset(SortNats(s)) == multiset(s)
    decreases |s|
  {
    if s != [] {
      SortNatsSorts(s[1..]);
      InsertNatSorts(s[0], SortNats(s[1..]));
      InsertNatPermutes(s[0], SortNats(s[1..]));
      assert s == [s[0]] + s[1..];
    }
  }

  lemma TwiceMedianIsMiddle(s: seq<nat>)
    ensures IsTwiceMedian(TwiceMedian(s), multiset(s))
  {
    SortNatsSorts(s);
    var sorted := SortNats(s);
    assert Ascending(sorted) && multiset(sorted) == multiset(s);
  }

  lemma {:induction false} OfSourceAppend(records: seq<Record>, last: Record, source: SourceType)
    ensures OfSource(records + [last], source) == OfSource(records, source) + if last.source == source then [last] else []
    decreases |records|
  {
    if records == [] {
      assert [last][1..] == [];
    } else {
      assert (records + [last])[1..] == records[1..] + [last];
      OfSourceAppend(records[1..], last, source);
    }
  }

  lemma {:induction false} ElapsedAppend(records: seq<Record>, last: Record)
    ensures Elapsed(records + [last]) == Elapsed(records) + [last.elapsed]
    ensures ConformanceFailures(records + [last])
         == ConformanceFailures(records) + if last.conformanceFailures.Some? then last.conformanceFailures.value else 1
    decreases |records|
  {
    if records == [] {
      assert [last][1..] == [];
    } else {
      assert (records + [last])[1..] == records[1..] + [last];
      ElapsedAppend(records[1..], last);
    }
  }

  lemma {:induction false} AgentSums(records: seq<Record>)
    ensures var agents := OfSource(records, Agent);
            multiset(Elapsed(agents)) == AgentTimes(records) && ConformanceFailures(agents) == FailureSum(records)
    decreases |records|
  {
    if records != [] {
      var front, last := records[..|records| - 1], records[|records| - 1];
      AgentSums(front);
      assert records == front + [last];
      OfSourceAppend(front, last, Agent);
      AgentSumsStep(OfSource(front, Agent), last);
      assert OfSource(front, Agent) + [] == OfSource(front, Agent);
    }
  }

  lemma AgentSumsStep(agents: seq<Record>, last: Record)
    ensures multiset(Elapsed(agents + [last])) == multiset(Elapsed(agents)) + multiset{last.elapsed}
    ensures ConformanceFailures(agents + [last])
         == ConformanceFailures(agents) + if last.conformanceFailures.Some? then last.conformanceFailures.value else 1
  {
    ElapsedAppend(agents, last);
  }

  lemma {:induction false} OfSourceIsAll(records: seq<Record>, r: Record)
    requires r in records
    ensures r in OfSource(records, r.source)
    decreases |records|
  {
    if records[0] != r {
      assert r in records[1..];
      OfSourceIsAll(records[1..], r);
    }
  }

  lemma AgentsAre(records: seq<Record>, r: Record)
    ensures r in OfSource(records, Agent) <==> r in records && r.source == Agent
  {
    OfSourceMembers(records, Agent);
    if r in records { OfSourceIsAll(records, r); }
  }

  lemma SameOutputExact(records: seq<Record>)
    requires OfSource(records, Agent) != []
    ensures SameOutput(OfSource(records, Agent)) <==> OneAgentOutput(records)
  {
    var agents := OfSource(records, Agent);
    forall r ensures r in agents <==> r in records && r.source == Agent {
      AgentsAre(records, r);
    }
    if OneAgentOutput(records) {
      forall i | 0 <= i < |agents| ensures agents[i].outputHash == agents[0].outputHash {
        assert agents[i] in agents && agents[0] in agents;
      }
    }
  }

  ghost predicate InOrder(s: seq<Record>) {
    forall i, j :: 0 <= i <= j < |s| ==> s[i].runNumber <= s[j].runNumber
  }

  lemma {:induction false} InsertByRunSorts(r: Record, s: seq<Record>)
    requires InOrder(s)
    ensures InOrder(InsertByRun(r, s))
    decreases |s|
  {
    if s != [] && r.runNumber > s[0].runNumber {
      var rest := InsertByRun(r, s[1..]);
      InsertByRunSorts(r, s[1..]);
      InsertByRunMembers(r, s[1..]);
      forall i | 0 <= i < |rest| ensures s[0].runNumber <= rest[i].runNumber {
        assert rest[i] in rest;
      }
    }
  }

  lemma {:induction false} ByRunSorts(s: seq<Record>)
    ensures InOrder(ByRun(s))
    decreases |s|
  {
    if s != [] {
      ByRunSorts(s[1..]);
      InsertByRunSorts(s[0], ByRun(s[1..]));
    }
  }

  /** The shown run and the withheld one are the agent runs with the two lowest numbers. */
  lemma RunsAreTheLowest(records: seq<Record>, agentRuns: nat)
    requires Ready(records, agentRuns)
    ensures var agents := ByRun(OfSource(records, Agent));
            FirstRun(records, agents[0]) && SecondRun(records, agents[0], agents[1])
  {
    var agents := ByRun(OfSource(records, Agent));
    ByRunSorts(OfSource(records, Agent));
    ByRunMembers(OfSource(records, Agent));
    CommittedRuns(records, agentRuns);
    AgentsAre(records, agents[0]);
    AgentsAre(records, agents[1]);
    forall x | x in records && x.source == Agent ensures x in agents {
      AgentsAre(records, x);
    }
    forall x | x in records && x.source == Agent && x != agents[0] ensures agents[1].runNumber <= x.runNumber {
      var k :| 0 <= k < |agents| && agents[k] == x;
    }
  }

  /** The one manual run. */
  lemma ManualIsTheOne(records: seq<Record>, agentRuns: nat, r: Record)
    requires Ready(records, agentRuns)
    ensures r == OfSource(records, Manual)[0] <==> r in records && r.source == Manual
  {
    var manual := OfSource(records, Manual)[0];
    OfSourceMembers(records, Manual);
    assert manual in OfSource(records, Manual);
    if r in records && r.source == Manual {
      OfSourceIsAll(records, r);
      assert OfSource(records, Manual) == [manual];
    }
  }

  // ---- the published verdict ----

  /** What a verdict says of the runs, whose manual one is `m` and whose evaluation gave these scores. */
  ghost predicate SaysOf(v: Verdict, records: seq<Record>, m: Record, manual: Score, agent: Score) {
    && v.manualScore == manual && v.agentScore == agent && v.manualOutput == m.outputHash
    && (exists first, second :: FirstRun(records, first) && SecondRun(records, first, second)
                                && v.agentOutput == first.outputHash && v.repeatOutput == second.outputHash)
    && IsTwiceMedian(v.twiceMedianElapsed, AgentTimes(records))
    && (v.outputsMatch <==> OneAgentOutput(records))
    && v.conformanceFailures == FailureSum(records)
    && (v.advantageSupported <==>
          && manual.total <= agent.total
          && OneAgentOutput(records)
          && FailureSum(records) == 0
          && agent.criticalFailures == 0
          && v.twiceMedianElapsed < 2 * m.elapsed)
  }

  lemma DerivedSays(records: seq<Record>, agentRuns: nat, evaluator: Evaluator, totals: map<string, Score>, r: Resolved, v: Verdict)
    requires Ready(records, agentRuns) && Derive(evaluator, totals, records, r) == Ok(v)
    requires r.manualLabel in totals && r.agentLabel in totals
    requires r.representative == ByRun(OfSource(records, Agent))[0] && r.withheld == ByRun(OfSource(records, Agent))[1]
    ensures SaysOf(v, records, r.manual, totals[r.manualLabel], totals[r.agentLabel])
  {
    var agents := OfSource(records, Agent);
    RunsAreTheLowest(records, agentRuns);
    TwiceMedianIsMiddle(Elapsed(agents));
    AgentSums(records);
    ByRunMembers(agents);
    assert ByRun(agents)[0] in agents;
    SameOutputExact(records);
  }

  /** A published verdict is about the right runs, and supports the advantage exactly when the agent scored no less than the
      manual operator, all its runs agree and conform, the evaluator saw no critical failure, and its median time is shorter. */
  lemma VerdictExact(records: seq<Record>, agentRuns: nat, labels: (string, string), agentFirst: bool,
                     evaluator: Evaluator, manual: Score, agent: Score, m: Record)
    requires Ready(records, agentRuns) && labels.0 != labels.1 && m in records && m.source == Manual
    ensures var v := RevealedWith(records, agentRuns, labels, agentFirst, evaluator, manual, agent);
            && (v.Ok? <==> m.contact != evaluator.contact && m.operator != evaluator.name)
            && (v.Ok? ==> SaysOf(v.value, records, m, manual, agent))
  {
    ManualIsTheOne(records, agentRuns, m);
    VerdictScoresTheRightRuns(records, agentRuns, labels, agentFirst, evaluator, manual, agent);
    var v := RevealedWith(records, agentRuns, labels, agentFirst, evaluator, manual, agent);
    if v.Ok? {
      MappingVerifiesIffLabelsDiffer(records, agentRuns, labels, agentFirst);
      ResolutionRecoversTheRuns(records, agentRuns, labels, agentFirst);
      var f := Finalize(records, agentRuns, labels, agentFirst).value;
      var r := Resolve(f.0, f.1, records).value;
      DerivedSays(records, agentRuns, evaluator, TotalsShown(labels, agentFirst, manual, agent), r, v.value);
    }
  }

  // ---- what an opened mapping must agree with ----

  /** The assignment names a captured run, and the packet shows that run's output under its label. */
  ghost predicate Evidenced(packet: Packet, records: seq<Record>, a: Assignment) {
    exists r, c :: r in records && c in packet.candidates
      && r.candidateHash == a.candidateHash && r.source == a.source && r.runNumber == a.runNumber
      && c.tag == a.tag && c.outputHash == r.outputHash
  }

  lemma {:induction false} ByHashFinds(records: seq<Record>, hash: string)
    ensures ByHash(records, hash).Some? ==>
              ByHash(records, hash).value in records && ByHash(records, hash).value.candidateHash == hash
    decreases |records|
  {
    if records != [] {
      ByHashFinds(records[..|records| - 1], hash);
    }
  }

  lemma {:induction false} ShownAsFinds(candidates: seq<Shown>, tag: string)
    ensures ShownAs(candidates, tag).Some? ==>
              ShownAs(candidates, tag).value in candidates && ShownAs(candidates, tag).value.tag == tag
    decreases |candidates|
  {
    if candidates != [] {
      ShownAsFinds(candidates[..|candidates| - 1], tag);
    }
  }

  lemma {:induction false} CheckedAreEvidenced(packet: Packet, records: seq<Record>, assignments: seq<Assignment>)
    requires CheckAll(packet, records, assignments).None?
    ensures forall i :: 0 <= i < |assignments| ==> Evidenced(packet, records, assignments[i])
    decreases |assignments|
  {
    if assignments != [] {
      var a := assignments[0];
      ByHashFinds(records, a.candidateHash);
      ShownAsFinds(packet.candidates, a.tag);
      assert Evidenced(packet, records, a);
      CheckedAreEvidenced(packet, records, assignments[1..]);
      forall i | 0 <= i < |assignments| ensures Evidenced(packet, records, assignments[i]) {
        if i > 0 { assert assignments[i] == assignments[1..][i - 1]; }
      }
    }
  }

  lemma {:induction false} AssignedFinds(assignments: seq<Assignment>, source: SourceType)
    ensures Assigned(assignments, source).Some? ==>
              Assigned(assignments, source).value in assignments && Assigned(assignments, source).value.source == source
    decreases |assignments|
  {
    if assignments != [] {
      AssignedFinds(assignments[1..], source);
    }
  }

  /** A verdict is only ever derived from a mapping that opens the packet's commitment, gives one label to a manual and one to
      an agent run, and agrees with captured runs and shown outputs in everything it says; the withheld run is another agent run. */
  lemma RevealNeedsEvidence(packet: Packet, mapping: Mapping, evaluator: Evaluator, totals: map<string, Score>, records: seq<Record>)
    requires Reveal(packet, mapping, evaluator, totals, records).Ok?
    ensures packet.commitment == mapping && |mapping.assignments| == 2
    ensures mapping.assignments[0].tag != mapping.assignments[1].tag
    ensures mapping.assignments[0].source != mapping.assignments[1].source
    ensures forall i :: 0 <= i < 2 ==> Evidenced(packet, records, mapping.assignments[i])
    ensures exists r :: r in records && r.source == Agent && r.candidateHash == mapping.excludedHash
                        && r.runNumber == mapping.excludedRun
    ensures forall i :: 0 <= i < 2 ==> mapping.assignments[i].candidateHash != mapping.excludedHash
    ensures forall i :: 0 <= i < 2 ==> mapping.assignments[i].tag in totals
  {
    CheckedAreEvidenced(packet, records, mapping.assignments);
    ByHashFinds(records, mapping.excludedHash);
    AssignedFinds(mapping.assignments, Manual);
    AssignedFinds(mapping.assignments, Agent);
  }

  // ---- scoring ----

  function Sum(s: seq<nat>): nat {
    if s == [] then 0 else s[0] + Sum(s[1..])
  }

  lemma {:induction false} SumAppend(s: seq<nat>, x: nat)
    ensures Sum(s + [x]) == Sum(s) + x
    decreases |s|
  {
    if s == [] {
      assert [x][1..] == [];
    } else {
      assert (s + [x])[1..] == s[1..] + [x];
      SumAppend(s[1..], x);
    }
  }

  function Maxima(rubric: seq<Criterion>): (r: seq<nat>)
    ensures |r| == |rubric|
  {
    seq(|rubric|, i requires 0 <= i < |rubric| => rubric[i].maximumScore)
  }

  function Points(scores: seq<CriterionScore>): (r: seq<nat>)
    ensures |r| == |scores|
  {
    seq(|scores|, i requires 0 <= i < |scores| => scores[i].score)
  }

  /** One for every critical failure. */
  function Criticals(scores: seq<CriterionScore>): (r: seq<nat>)
    ensures |r| == |scores|
  {
    seq(|scores|, i requires 0 <= i < |scores| => if scores[i].criticalFailure then 1 else 0)
  }

  /** The maxima of a rubric sum to its weight, which is 100 for a frozen one. */
  lemma {:induction false} WeightIsSum(rubric: seq<Criterion>)
    ensures Weight(rubric) == Sum(Maxima(rubric))
    ensures ValidRubric(rubric) ==> Sum(Maxima(rubric)) == 100
    decreases |rubric|
  {
    if rubric != [] {
      var front, last := rubric[..|rubric| - 1], rubric[|rubric| - 1];
      WeightIsSum(front);
      SumAppend(Maxima(front), last.maximumScore);
      assert Maxima(rubric) == Maxima(front) + [last.maximumScore];
    }
  }

  lemma {:induction false} FindsOwn(scores: seq<CriterionScore>, k: nat)
    requires k < |scores| && forall i :: 0 <= i < |scores| && scores[i].id == scores[k].id ==> i == k
    ensures Find(scores, scores[k].id) == Some(scores[k])
    decreases |scores|
  {
    if k > 0 {
      assert scores[0].id != scores[k].id;
      FindsOwn(scores[1..], k - 1);
    }
  }

  lemma {:induction false} InOrderUpTo(scores: seq<CriterionScore>, rubric: seq<Criterion>, n: nat)
    requires UniqueIds(rubric) && n <= |scores| == |rubric| && forall i :: 0 <= i < |rubric| ==> scores[i].id == rubric[i].id
    ensures Total(scores, rubric[..n]) == Sum(Points(scores)[..n])
    ensures Failures(scores, rubric[..n]) == Sum(Criticals(scores)[..n])
    decreases n
  {
    if n > 0 {
      InOrderUpTo(scores, rubric, n - 1);
      FindsOwn(scores, n - 1);
      OneMoreScore(scores, rubric, n - 1);
      SumUpTo(Points(scores), n - 1);
      SumUpTo(Criticals(scores), n - 1);
    }
  }

  lemma SumUpTo(s: seq<nat>, n: nat)
    requires n < |s|
    ensures Sum(s[..n + 1]) == Sum(s[..n]) + s[n]
  {
    SumAppend(s[..n], s[n]);
    assert s[..n + 1] == s[..n] + [s[n]];
  }

  /** Scores listed in the order of the rubric total to the sum of their points, with as many critical failures as are marked. */
  lemma ScoresInOrder(scores: seq<CriterionScore>, rubric: seq<Criterion>)
    requires UniqueIds(rubric) && |scores| == |rubric| && forall i :: 0 <= i < |rubric| ==> scores[i].id == rubric[i].id
    ensures Total(scores, rubric) == Sum(Points(scores)) && Failures(scores, rubric) == Sum(Criticals(scores))
  {
    InOrderUpTo(scores, rubric, |rubric|);
    assert rubric[..|rubric|] == rubric && Points(scores)[..|scores|] == Points(scores);
    assert Criticals(scores)[..|scores|] == Criticals(scores);
  }

  /** The criterion has a score, within its maximum, and marked as a critical failure only if it is critical. */
  ghost predicate Scored(scores: seq<CriterionScore>, c: Criterion) {
    exists i :: 0 <= i < |scores| && scores[i].id == c.id && scores[i].score <= c.maximumScore && (scores[i].criticalFailure ==> c.critical)
  }

  lemma {:induction false} FewerIds(scores: seq<CriterionScore>)
    ensures |ScoreIds(scores)| <= |scores|
    ensures |ScoreIds(scores)| == |scores| ==> forall i, j :: 0 <= i < j < |scores| ==> scores[i].id != scores[j].id
    decreases |scores|
  {
    if scores != [] {
      var front, last := scores[..|scores| - 1], scores[|scores| - 1];
      FewerIds(front);
      assert ScoreIds(scores) == ScoreIds(front) + {last.id};
      if last.id in ScoreIds(front) {
        assert ScoreIds(scores) == ScoreIds(front);
      } else {
        assert forall i :: 0 <= i < |front| ==> front[i].id in ScoreIds(front);
      }
    }
  }

  lemma FoundIsTheOne(scores: seq<CriterionScore>, i: nat)
    requires |ScoreIds(scores)| == |scores| && i < |scores|
    ensures Find(scores, scores[i].id) == Some(scores[i])
  {
    FewerIds(scores);
    FindsOwn(scores, i);
  }

  /** A candidate is well scored exactly when it has as many scores as the rubric has criteria, and every criterion is scored. */
  lemma WellScoredExact(scores: seq<CriterionScore>, rubric: seq<Criterion>)
    requires UniqueIds(rubric)
    ensures WellScored(scores, rubric) <==> |scores| == |rubric| && forall c :: c in rubric ==> Scored(scores, c)
  {
    IdCount(rubric);
    FewerIds(scores);
    if WellScored(scores, rubric) {
      forall c | c in rubric ensures Scored(scores, c) {
        var k :| 0 <= k < |rubric| && rubric[k] == c;
        var s := Find(scores, rubric[k].id).value;
        var i :| 0 <= i < |scores| && scores[i] == s;
      }
    }
    if |scores| == |rubric| && forall c :: c in rubric ==> Scored(scores, c) {
      AllScored(scores, rubric);
    }
  }

  lemma AllScored(scores: seq<CriterionScore>, rubric: seq<Criterion>)
    requires UniqueIds(rubric) && |scores| == |rubric| && forall c :: c in rubric ==> Scored(scores, c)
    ensures WellScored(scores, rubric)
  {
    IdCount(rubric);
    FewerIds(scores);
    forall id | id in RubricIds(rubric) ensures id in ScoreIds(scores) {
      var k :| 0 <= k < |rubric| && rubric[k].id == id;
      assert rubric[k] in rubric;
    }
    SizesAgree(RubricIds(rubric), ScoreIds(scores));
    forall k | 0 <= k < |rubric| ensures Find(scores, rubric[k].id).Some? && Fits(rubric[k], Find(scores, rubric[k].id).value) {
      assert rubric[k] in rubric;
      var i :| 0 <= i < |scores| && scores[i].id == rubric[k].id && scores[i].score <= rubric[k].maximumScore
        && (scores[i].criticalFailure ==> rubric[k].critical);
      FoundIsTheOne(scores, i);
    }
  }

  lemma SizesAgree(a: set<string>, b: set<string>)
    requires a <= b && |b| <= |a|
    ensures a == b && |a| == |b|
  {
    assert b == a + (b - a);
  }
}
