/** What one run of the delivery service sends, in terms of the clock, the order and the policy themselves: which journaled
    payloads go out again, which deliveries are signed and sent, and when the run goes on. */
module JournalService {
  import opened Outcomes
  import opened SignedJournal

  // ---- recovering journals ----

  /** The journal holds this payload in full. */
  ghost predicate Holding(files: map<string, File>, n: string, p: Payload) {
    n in files && exists durable :: files[n] == Complete(p, durable)
  }

  /** A journaled transaction that is not on chain is sent again: the policy still covers the order, the payload outlives
      the recovery margin, and an acceptance is still awaited or a delivery still expected. */
  ghost predicate Due(files: map<string, File>, c: Found, execute: bool) {
    && execute && c.taken && c.receipt == None
    && c.terms.approved && c.terms.policyExpiresAt > c.now
    && c.name in files && files[c.name].Complete?
    && files[c.name].payload.expiresAt > c.now + (if c.terms.lending then 60000 else 30000)
    && if c.acceptance then c.status == PendingAccept
       else
         && (c.status == Funded || c.status == InProgress)
         && c.terms.deliveryDueAt.Some? && c.terms.deliveryDueAt.value >= c.now + 120000
  }

  /** Nothing is left to do for this journal: its transaction is on chain, or is once it has been sent again. */
  ghost predicate Settled(files: map<string, File>, c: Found, execute: bool) {
    && c.name in files && files[c.name].Complete?
    && (c.receipt == Some(true) || (Due(files, c, execute) && c.confirmed))
  }

  ghost function DuePayloads(files: map<string, File>, found: seq<Found>, execute: bool): (r: seq<Sent>) {
    if found == [] then []
    else
      var c := found[|found| - 1];
      DuePayloads(files, found[..|found| - 1], execute) +
        if Due(files, c, execute) then [Sent(c.name, files[c.name].payload)] else []
  }

  lemma DueExactly(files: map<string, File>, c: Found, execute: bool)
    ensures Resends(files, c, execute) <==> Due(files, c, execute)
    ensures Settles(files, c, execute) <==> Settled(files, c, execute)
  {
  }

  ghost predicate AllSettled(files: map<string, File>, found: seq<Found>, execute: bool) {
    forall i :: 0 <= i < |found| ==> Settled(files, found[i], execute)
  }

  /** Recovery is through exactly when every journal is settled and the process lives long enough to send what is due, and
      then it has sent exactly that, in order. */
  lemma {:induction false} RecoveryExact(files: map<string, File>, found: seq<Found>, execute: bool, effects: nat)
    ensures var (sent, through) := Recovery(files, found, execute, effects);
            && (through <==> AllSettled(files, found, execute) && |DuePayloads(files, found, execute)| <= effects)
            && (through ==> sent == DuePayloads(files, found, execute))
            && |sent| <= effects
    decreases |found|
  {
    if found != [] {
      var front, c := found[..|found| - 1], found[|found| - 1];
      RecoveryExact(files, front, execute, effects);
      DueExactly(files, c, execute);
      assert AllSettled(files, found, execute) <==> AllSettled(files, front, execute) && Settled(files, c, execute) by {
        assert forall i :: 0 <= i < |front| ==> found[i] == front[i];
      }
      assert |DuePayloads(files, front, execute)| <= |DuePayloads(files, found, execute)|;
    }
  }

  /** The recovery stops at the journal `k`: the ones before are settled, and either this one is not, or the process dies
      before it can send what is due. */
  ghost predicate StopsAt(files: map<string, File>, found: seq<Found>, execute: bool, effects: nat, k: nat, sent: seq<Sent>)
    requires k < |found|
  {
    && AllSettled(files, found[..k], execute) && |DuePayloads(files, found[..k], execute)| <= effects
    && var due := DuePayloads(files, found[..k + 1], execute);
       if |due| <= effects then sent == due && !Settled(files, found[k], execute)
       else sent == DuePayloads(files, found[..k], execute)
  }

  /** A recovery that is not through has stopped at one journal, and has sent what was due up to there. */
  lemma {:induction false} RecoveryStopsAt(files: map<string, File>, found: seq<Found>, execute: bool, effects: nat)
    requires !Recovery(files, found, execute, effects).1
    ensures exists k :: 0 <= k < |found| && StopsAt(files, found, execute, effects, k, Recovery(files, found, execute, effects).0)
    decreases |found|
  {
    var last := |found| - 1;
    var front, c := found[..last], found[last];
    if Recovery(files, front, execute, effects).1 {
      RecoveryExact(files, front, execute, effects);
      DueExactly(files, c, execute);
      assert found[..last + 1] == found;
      assert StopsAt(files, found, execute, effects, last, Recovery(files, found, execute, effects).0);
    } else {
      RecoveryStopsAt(files, front, execute, effects);
      var sent := Recovery(files, front, execute, effects).0;
      var k :| 0 <= k < |front| && StopsAt(files, front, execute, effects, k, sent);
      StillStopsAt(files, found, execute, effects, k, sent);
    }
  }

  lemma StillStopsAt(files: map<string, File>, found: seq<Found>, execute: bool, effects: nat, k: nat, sent: seq<Sent>)
    requires k < |found| - 1 && StopsAt(files, found[..|found| - 1], execute, effects, k, sent)
    ensures StopsAt(files, found, execute, effects, k, sent)
  {
    var front := found[..|found| - 1];
    assert front[..k] == found[..k] && front[..k + 1] == found[..k + 1] && front[k] == found[k];
  }

  // ---- one delivery ----

  predicate Expected(e: Surroundings) {
    e.status == Funded || e.status == InProgress
  }

  /** The delivery may be on its way to the chain at `now`: the policy is current, two minutes are left before it is due,
      and the result stays valid for the service's margin. */
  predicate InTime(e: Surroundings, expiresAt: Millis, now: Millis) {
    && e.terms.approved && e.terms.policyExpiresAt > now
    && e.terms.deliveryDueAt.Some? && e.terms.deliveryDueAt.value >= now + 120000
    && expiresAt >= now + (if e.terms.lending then 60000 else 30000)
  }

  /** A journaled delivery goes out again. */
  ghost predicate Repeated(files: map<string, File>, e: Surroundings, p: Payload) {
    && e.terms.approved && e.terms.policyExpiresAt > e.startedAt
    && Holding(files, e.name, p) && e.receipt == None && !e.known
    && Expected(e) && p.expiresAt > e.recoveredAt + 30000 && InTime(e, p.expiresAt, e.recoveredAt)
    && e.effects >= 1
  }

  /** A delivery is signed: five minutes are left for policy and order, and the result stays valid for the margin of signing. */
  ghost predicate SignedAnew(files: map<string, File>, e: Surroundings, p: Payload) {
    && e.terms.approved && e.terms.policyExpiresAt > e.startedAt
    && e.name !in files && Expected(e) && e.canSubmit && e.prepared == Some(p)
    && e.terms.policyExpiresAt >= e.signedAt + 300000
    && e.terms.deliveryDueAt.Some? && e.terms.deliveryDueAt.value >= e.signedAt + 300000
    && p.expiresAt >= e.signedAt + (if e.terms.lending then 240000 else 90000)
  }

  /** What one worker leaves behind: a payload goes out exactly when it is repeated from the journal, or signed anew and
      still in time when all four steps of journaling are done; the journal is as far as the worker got. */
  lemma DeliveryExact(d: Disk, e: Surroundings)
    ensures var after := Delivery(d, e);
            && (forall p :: after.sent == d.sent + [Sent(e.name, p)] <==>
                  Repeated(d.files, e, p) || (SignedAnew(d.files, e, p) && e.effects >= 5 && InTime(e, p.expiresAt, e.sentAt)))
            && (after.sent != d.sent ==> exists p :: after.sent == d.sent + [Sent(e.name, p)])
            && (forall p :: SignedAnew(d.files, e, p) ==>
                  after.files == if e.effects == 0 then d.files
                                 else if e.effects == 1 then d.files[e.name := Torn]
                                 else d.files[e.name := Complete(p, e.effects >= 4)])
            && ((forall p :: !SignedAnew(d.files, e, p)) ==> after.files == d.files)
  {
    if e.name in d.files && d.files[e.name].Complete? {
      assert d.files[e.name] == Complete(d.files[e.name].payload, d.files[e.name].durable);
    }
    assert forall p, q :: d.sent + [Sent(e.name, p)] == d.sent + [Sent(e.name, q)] ==> p == q by {
      forall p, q | d.sent + [Sent(e.name, p)] == d.sent + [Sent(e.name, q)] ensures p == q {
        assert (d.sent + [Sent(e.name, p)])[|d.sent|] == Sent(e.name, p);
        assert (d.sent + [Sent(e.name, q)])[|d.sent|] == Sent(e.name, q);
      }
    }
    assert forall p :: d.sent + [Sent(e.name, p)] != d.sent by {
      forall p ensures |d.sent + [Sent(e.name, p)]| == |d.sent| + 1 {
      }
    }
    if e.prepared.Some? {
      assert e.prepared == Some(e.prepared.value);
      assert SignedAnew(d.files, e, e.prepared.value) <==>
        e.name !in d.files && PolicyCurrent(e.terms, e.startedAt) && MaySign(e);
    }
  }

  /** The worker ends without an error: its transaction is confirmed, found on chain or sent by itself, or the order is not
      ready for a delivery. */
  ghost predicate EndsWell(d: Disk, e: Surroundings) {
    && e.terms.approved && e.terms.policyExpiresAt > e.startedAt
    && if e.name in d.files then
         exists p :: Holding(d.files, e.name, p) &&
           (e.receipt == Some(true) || (e.receipt == None && e.confirmed && (e.known || Repeated(d.files, e, p))))
       else
         || !Expected(e) || !e.canSubmit
         || exists p :: SignedAnew(d.files, e, p) && e.effects >= 5 && InTime(e, p.expiresAt, e.sentAt) && e.confirmed
  }

  lemma SuccessExact(d: Disk, e: Surroundings)
    ensures Succeeds(d, e) <==> EndsWell(d, e)
  {
    if e.name in d.files && d.files[e.name].Complete? {
      assert d.files[e.name] == Complete(d.files[e.name].payload, d.files[e.name].durable);
      assert Holding(d.files, e.name, d.files[e.name].payload);
    }
    if Succeeds(d, e) && e.name !in d.files && Expected(e) && e.canSubmit {
      assert SignedAnew(d.files, e, e.prepared.value);
    }
  }

  /** The first delivery that fails is the last one of the run. */
  lemma FailureEndsTheRun(d: Disk, es: seq<Surroundings>, k: nat)
    requires k < |es| && Deliveries(d, es[..k]).1 && !EndsWell(Deliveries(d, es[..k]).0, es[k])
    ensures Deliveries(d, es).0 == Delivery(Deliveries(d, es[..k]).0, es[k])
  {
    SuccessExact(Deliveries(d, es[..k]).0, es[k]);
    assert es[..k + 1][..k] == es[..k];
    DeliveriesStop(d, es, k + 1);
  }

  // ---- the run ----

  ghost predicate OwnNames(es: seq<Surroundings>) {
    forall i, j :: 0 <= i < j < |es| ==> es[i].name != es[j].name
  }

  /** A delivery that gets out: it has no journal, is signed inside its window, and is sent within three minutes for lending
      and one for capital reports, by a worker that is not killed. */
  ghost predicate GetsOut(files: map<string, File>, e: Surroundings) {
    && (exists p :: SignedAnew(files, e, p)) && e.effects >= 5
    && e.sentAt <= e.signedAt + (if e.terms.lending then 180000 else 60000)
  }

  /** Nothing goes wrong with this delivery: it gets out and is confirmed, is on chain already, or is not expected yet. */
  ghost predicate GoesWell(files: map<string, File>, e: Surroundings) {
    && e.terms.approved && e.terms.policyExpiresAt > e.startedAt
    && if e.name in files then files[e.name].Complete? && e.receipt == Some(true)
       else (Expected(e) && e.canSubmit ==> GetsOut(files, e) && e.confirmed)
  }

  /** The prepared deliveries without a journal, in order. */
  ghost function Prepared(files: map<string, File>, es: seq<Surroundings>): (r: seq<Sent>) {
    if es == [] then []
    else
      var e := es[|es| - 1];
      Prepared(files, es[..|es| - 1]) +
        if e.name !in files && Expected(e) && e.canSubmit && e.prepared.Some? then [Sent(e.name, e.prepared.value)] else []
  }

  /** Only the journals of these deliveries may have changed. */
  ghost predicate Others(before: map<string, File>, after: map<string, File>, es: seq<Surroundings>) {
    forall n: string :: (forall i :: 0 <= i < |es| ==> es[i].name != n) ==>
      (n in before <==> n in after) && (n in before ==> before[n] == after[n])
  }

  lemma GoingOut(d: Disk, before: map<string, File>, e: Surroundings)
    requires GetsOut(before, e) && e.name !in d.files
    ensures e.prepared.Some? && Delivery(d, e).sent == d.sent + [Sent(e.name, e.prepared.value)]
    ensures Delivery(d, e).files == d.files[e.name := Complete(e.prepared.value, true)]
    ensures e.confirmed ==> Succeeds(d, e)
  {
  }

  lemma WellDone(d: Disk, before: map<string, File>, e: Surroundings)
    requires GoesWell(before, e) && (e.name in before <==> e.name in d.files) && (e.name in before ==> before[e.name] == d.files[e.name])
    ensures Succeeds(d, e) && Delivery(d, e).sent == d.sent + Prepared(before, [e])
    ensures Others(d.files, Delivery(d, e).files, [e])
  {
    assert [e][..0] == [];
    assert Prepared(before, []) == [];
    assert [e][0].name == e.name;
    if e.name !in before && Expected(e) && e.canSubmit {
      GoingOut(d, before, e);
    }
  }

  /** While nothing goes wrong, every prepared delivery is sent, in order. */
  lemma {:induction false} AllGoWell(d: Disk, es: seq<Surroundings>)
    requires OwnNames(es) && forall i :: 0 <= i < |es| ==> GoesWell(d.files, es[i])
    ensures Deliveries(d, es).1 && Deliveries(d, es).0.sent == d.sent + Prepared(d.files, es)
    ensures Others(d.files, Deliveries(d, es).0.files, es)
    decreases |es|
  {
    if es != [] {
      var front, e := es[..|es| - 1], es[|es| - 1];
      AllGoWell(d, front);
      var after := Deliveries(d, front).0;
      assert forall i :: 0 <= i < |front| ==> front[i].name != e.name;
      WellDone(after, d.files, e);
      OthersTwice(d.files, after.files, Delivery(after, e).files, es);
      assert Prepared(d.files, [e]) == Prepared(d.files, [e][..0]) + Prepared(d.files, [e]) by { assert [e][..0] == []; }
      assert Prepared(d.files, es) == Prepared(d.files, front) + Prepared(d.files, [e]);
    }
  }

  lemma OthersTwice(a: map<string, File>, b: map<string, File>, c: map<string, File>, es: seq<Surroundings>)
    requires es != [] && Others(a, b, es[..|es| - 1]) && Others(b, c, [es[|es| - 1]])
    ensures Others(a, c, es)
  {
    var front, e := es[..|es| - 1], es[|es| - 1];
    forall n: string | forall i :: 0 <= i < |es| ==> es[i].name != n
      ensures (n in a <==> n in c) && (n in a ==> a[n] == c[n])
    {
      assert forall i :: 0 <= i < |front| ==> front[i].name != n;
      assert forall i :: 0 <= i < 1 ==> [e][i].name != n;
    }
  }

  /** Once sent, always sent, and once complete, always complete. */
  lemma {:induction false} DeliveriesGrow(d: Disk, es: seq<Surroundings>, k: nat)
    requires k <= |es|
    ensures var before, after := Deliveries(d, es[..k]).0, Deliveries(d, es).0;
            before.sent <= after.sent && forall n :: n in before.files ==> n in after.files && after.files[n] == before.files[n]
    decreases |es|
  {
    if k == |es| {
      assert es[..k] == es;
    } else {
      var front := es[..|es| - 1];
      assert front[..k] == es[..k];
      DeliveriesGrow(d, front, k);
    }
  }

  /** In a run whose journals are all settled every prepared delivery is sent as long as none before it has gone wrong. */
  lemma EveryFreshDeliveryIsSent(d: Disk, found: seq<Found>, deliveries: seq<Surroundings>, effects: nat, k: nat)
    requires AllSettled(d.files, found, true) && |DuePayloads(d.files, found, true)| <= effects
    requires k < |deliveries| && OwnNames(deliveries) && GetsOut(d.files, deliveries[k])
    requires forall i :: 0 <= i < k ==> GoesWell(d.files, deliveries[i])
    ensures d.sent + DuePayloads(d.files, found, true) + Prepared(d.files, deliveries[..k + 1])
      <= ServiceRun(d, found, deliveries, true, effects).sent
    ensures deliveries[k].prepared.Some?
    ensures Sent(deliveries[k].name, deliveries[k].prepared.value) in Prepared(d.files, deliveries[..k + 1])
  {
    RecoveryExact(d.files, found, true, effects);
    var recovered := Disk(d.files, d.sent + DuePayloads(d.files, found, true));
    FreshDeliveryGoesOut(recovered, deliveries[..k + 1]);
    assert deliveries[..k + 1][..k] == deliveries[..k];
    DeliveriesGrow(recovered, deliveries, k + 1);
  }

  /** After deliveries that went well, one more gets out. */
  lemma FreshDeliveryGoesOut(d: Disk, es: seq<Surroundings>)
    requires es != [] && OwnNames(es) && GetsOut(d.files, es[|es| - 1])
    requires forall i :: 0 <= i < |es| - 1 ==> GoesWell(d.files, es[i])
    ensures var e := es[|es| - 1];
            && Deliveries(d, es).0.sent == d.sent + Prepared(d.files, es)
            && e.prepared.Some? && Sent(e.name, e.prepared.value) in Prepared(d.files, es)
  {
    var front, e := es[..|es| - 1], es[|es| - 1];
    AllGoWell(d, front);
    assert forall i :: 0 <= i < |front| ==> front[i].name != e.name;
    GoingOut(Deliveries(d, front).0, d.files, e);
    var all := Prepared(d.files, es);
    assert all == Prepared(d.files, front) + [Sent(e.name, e.prepared.value)];
    assert all[|all| - 1] == Sent(e.name, e.prepared.value);
  }

  /** A payload that this delivery may send, journaled under its name. */
  ghost predicate Licensed(files: map<string, File>, e: Surroundings, p: Payload) {
    Repeated(files, e, p) || (SignedAnew(files, e, p) && e.effects >= 5 && InTime(e, p.expiresAt, e.sentAt))
  }

  /** Some delivery had a licence for this, given the journals it found. */
  ghost predicate LicensedBy(d: Disk, es: seq<Surroundings>, s: Sent) {
    exists k :: 0 <= k < |es| && es[k].name == s.name && Deliveries(d, es[..k]).1
      && Licensed(Deliveries(d, es[..k]).0.files, es[k], s.payload)
  }

  lemma {:induction false} DeliveriesAreLicensed(d: Disk, es: seq<Surroundings>)
    ensures d.sent <= Deliveries(d, es).0.sent
    ensures forall i :: |d.sent| <= i < |Deliveries(d, es).0.sent| ==> LicensedBy(d, es, Deliveries(d, es).0.sent[i])
    decreases |es|
  {
    if es != [] {
      var front, e := es[..|es| - 1], es[|es| - 1];
      DeliveriesAreLicensed(d, front);
      var before, after := Deliveries(d, front), Deliveries(d, es).0;
      if before.1 {
        DeliveryExact(before.0, e);
      }
      forall i | |d.sent| <= i < |after.sent| ensures LicensedBy(d, es, after.sent[i]) {
        if i < |before.0.sent| {
          assert after.sent[i] == before.0.sent[i];
          LicenceStays(d, es, before.0.sent[i]);
        } else {
          var p :| after.sent == before.0.sent + [Sent(e.name, p)];
          assert after.sent[i] == Sent(e.name, p) && es[..|es| - 1] == front;
          assert Licensed(Deliveries(d, es[..|es| - 1]).0.files, es[|es| - 1], p);
        }
      }
    }
  }

  lemma LicenceStays(d: Disk, es: seq<Surroundings>, s: Sent)
    requires es != [] && LicensedBy(d, es[..|es| - 1], s)
    ensures LicensedBy(d, es, s)
  {
    var front := es[..|es| - 1];
    var k :| 0 <= k < |front| && front[k].name == s.name && Deliveries(d, front[..k]).1
      && Licensed(Deliveries(d, front[..k]).0.files, front[k], s.payload);
    assert front[..k] == es[..k] && front[k] == es[k];
  }

  ghost predicate IsDue(files: map<string, File>, found: seq<Found>, execute: bool, s: Sent) {
    exists i :: 0 <= i < |found| && found[i].name == s.name && Due(files, found[i], execute) && files[s.name].payload == s.payload
  }

  /** Whatever recovery sends is due. */
  lemma {:induction false} OnlyDueIsResent(files: map<string, File>, found: seq<Found>, execute: bool, effects: nat)
    ensures forall s :: s in Recovery(files, found, execute, effects).0 ==> IsDue(files, found, execute, s)
    decreases |found|
  {
    if found != [] {
      var front, c := found[..|found| - 1], found[|found| - 1];
      OnlyDueIsResent(files, front, execute, effects);
      DueExactly(files, c, execute);
      forall s | s in Recovery(files, found, execute, effects).0 ensures IsDue(files, found, execute, s) {
        if s in Recovery(files, front, execute, effects).0 {
          var i :| 0 <= i < |front| && front[i].name == s.name && Due(files, front[i], execute) && files[s.name].payload == s.payload;
          assert found[i] == front[i];
        } else {
          assert found[|found| - 1].name == s.name;
        }
      }
    }
  }

  /** Everything a run of the service sends is a journaled payload that is due, or a delivery of an executing run whose
      journals are all settled, inside that delivery's windows; without the flag nothing is sent and nothing is written. */
  lemma ServiceSendsLicensed(d: Disk, found: seq<Found>, deliveries: seq<Surroundings>, execute: bool, effects: nat)
    ensures var after, resent := ServiceRun(d, found, deliveries, execute, effects), Recovery(d.files, found, execute, effects).0;
            && (!execute ==> after == d)
            && d.sent + resent <= after.sent
            && (forall i :: |d.sent| <= i < |d.sent| + |resent| ==> IsDue(d.files, found, execute, after.sent[i]))
            && (forall i :: |d.sent| + |resent| <= i < |after.sent| ==>
                  AllSettled(d.files, found, execute) && LicensedBy(Disk(d.files, d.sent + resent), deliveries, after.sent[i]))
            && (after.files != d.files ==> AllSettled(d.files, found, execute))
  {
    var (resent, through) := Recovery(d.files, found, execute, effects);
    RecoveryExact(d.files, found, execute, effects);
    OnlyDueIsResent(d.files, found, execute, effects);
    if !execute {
      RecoverySendsWanted(d.files, found, execute, effects);
      assert d.sent + [] == d.sent;
    }
    var recovered := Disk(d.files, d.sent + resent);
    DeliveriesAreLicensed(recovered, deliveries);
    var after := ServiceRun(d, found, deliveries, execute, effects);
    forall i | |d.sent| <= i < |d.sent| + |resent| ensures IsDue(d.files, found, execute, after.sent[i]) {
      assert after.sent[i] == recovered.sent[i] == resent[i - |d.sent|];
    }
  }
}
