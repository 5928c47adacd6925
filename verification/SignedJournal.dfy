/** The write-ahead journal of signed seller transactions. Several workers share one state directory; a payload is
    signed, written exclusively, made durable and only then sent, and recovery re-sends what the journal holds. */
module SignedJournal {
  import opened Outcomes
  import opened Runs

  type Millis = int

  /** A signed raw transaction and the expiry kept with it. The hash of the transaction is stored beside it, so a torn
      journal entry never passes the hash check. */
  datatype Payload = Payload(raw: string, expiresAt: Millis)

  /** A journal file: created but not completely written, or complete; durable once file and directory are synced. */
  datatype File = Torn | Complete(payload: Payload, durable: bool)

  datatype Worker =
    | Started(name: string)
    | FoundEntry(name: string)
    | FoundNothing(name: string)
    | Signed(name: string, payload: Payload)
    | Created(name: string, payload: Payload)
    | Wrote(name: string, payload: Payload)
    | Synced(name: string, payload: Payload)
    | Journaled(name: string, payload: Payload)
    | Recovering(name: string, payload: Payload)

  datatype Sent = Sent(name: string, payload: Payload)

  /** Files by journal name, live workers, and everything ever broadcast. */
  datatype Protocol = Protocol(files: map<string, File>, workers: map<nat, Worker>, sent: seq<Sent>)

  datatype Event =
    | Start(worker: nat, name: string)
    | Look(worker: nat)
    | ReadEntry(worker: nat)
    | Sign(worker: nat, payload: Payload)
    | CreateFile(worker: nat)
    | WriteFile(worker: nat)
    | SyncFile(worker: nat)
    | SyncDirectory(worker: nat)
    | Broadcast(worker: nat)
    | Stop(worker: nat)
    | PowerLoss(lost: set<string>, torn: set<string>)

  function DropWorker(workers: map<nat, Worker>, w: nat): map<nat, Worker> {
    map v | v in workers && v != w :: workers[v]
  }

  function Continue(s: Protocol, w: nat, next: Worker): Protocol {
    s.(workers := s.workers[w := next])
  }

  function End(s: Protocol, w: nat): Protocol {
    s.(workers := DropWorker(s.workers, w))
  }

  /** After a power loss an entry that was never synced may be gone or torn; a durable one is intact. */
  function Survivors(files: map<string, File>, lost: set<string>, torn: set<string>): map<string, File> {
    map n | n in files && !(n in lost && !IsDurable(files[n])) ::
      if n in torn && !IsDurable(files[n]) then Torn else files[n]
  }

  predicate IsDurable(f: File) {
    f.Complete? && f.durable
  }

  /** One step of one worker. A worker in the wrong place, or one whose operation throws, ends. */
  function Step(s: Protocol, e: Event): Protocol {
    match e
    case Start(w, name) => if w in s.workers then s else Continue(s, w, Started(name))
    case PowerLoss(lost, torn) => Protocol(Survivors(s.files, lost, torn), map[], s.sent)
    case Stop(w) => End(s, w)
    case _ =>
      if e.worker !in s.workers then s else WorkerStep(s, e, s.workers[e.worker])
  }

  function WorkerStep(s: Protocol, e: Event, now: Worker): Protocol
    requires !e.PowerLoss? && !e.Start? && !e.Stop?
  {
    var w, n := e.worker, now.name;
    match (e, now)
    case (Look(_), Started(_)) =>
      Continue(s, w, if n in s.files then FoundEntry(n) else FoundNothing(n))
    case (ReadEntry(_), FoundEntry(_)) =>
      if n in s.files && s.files[n].Complete? then Continue(s, w, Recovering(n, s.files[n].payload)) else End(s, w)
    case (Sign(_, payload), FoundNothing(_)) => Continue(s, w, Signed(n, payload))
    case (CreateFile(_), Signed(_, payload)) =>
      if n in s.files then End(s, w)
      else Continue(s.(files := s.files[n := Torn]), w, Created(n, payload))
    case (WriteFile(_), Created(_, payload)) =>
      Continue(s.(files := s.files[n := Complete(payload, false)]), w, Wrote(n, payload))
    case (SyncFile(_), Wrote(_, payload)) => Continue(s, w, Synced(n, payload))
    case (SyncDirectory(_), Synced(_, payload)) =>
      Continue(s.(files := s.files[n := Complete(payload, true)]), w, Journaled(n, payload))
    case (Broadcast(_), Journaled(_, payload)) => End(s.(sent := s.sent + [Sent(n, payload)]), w)
    case (Broadcast(_), Recovering(_, payload)) => End(s.(sent := s.sent + [Sent(n, payload)]), w)
    case _ => End(s, w)
  }

  const Empty: Protocol := Protocol(map[], map[], [])

  // ---- journal names ----

  function DeliveryJournalName(orderId: string, redoUsed: bool): string {
    orderId + ".round-" + (if redoUsed then "2" else "1") + ".delivery-signed.json"
  }

  predicate IsOrderId(id: string) {
    20 <= |id| <= 40 && forall i :: 0 <= i < |id| ==> 'a' <= id[i] <= 'z' || '0' <= id[i] <= '9'
  }

  /** Different orders and different delivery rounds never share a journal. */
  lemma JournalNamesDistinct(a: string, x: bool, b: string, y: bool)
    requires IsOrderId(a) && IsOrderId(b)
    requires DeliveryJournalName(a, x) == DeliveryJournalName(b, y)
    ensures a == b && x == y
  {
    var s, t := DeliveryJournalName(a, x), DeliveryJournalName(b, y);
    assert s[|a|] == '.' && t[|b|] == '.';
    assert forall i :: 0 <= i < |a| ==> s[i] == a[i];
    assert forall i :: 0 <= i < |b| ==> t[i] == b[i];
    assert |a| == |b|;
    assert a == s[..|a|] && b == t[..|b|];
    assert s[|a| + 7] == (if x then '2' else '1') && t[|b| + 7] == (if y then '2' else '1');
  }

  // ---- the invariant ----

  ghost predicate Holds(files: map<string, File>, n: string, p: Payload) {
    n in files && files[n].Complete? && files[n].payload == p
  }

  ghost predicate WorkerInv(s: Protocol, w: nat)
    requires w in s.workers
  {
    match s.workers[w]
    case Created(n, _) => n in s.files && s.files[n] == Torn
    case Wrote(n, p) => Holds(s.files, n, p)
    case Synced(n, p) => Holds(s.files, n, p)
    case Journaled(n, p) => Holds(s.files, n, p) && s.files[n].durable
    case Recovering(n, p) => Holds(s.files, n, p)
    case _ => true
  }

  ghost predicate Inv(s: Protocol) {
    && (forall w :: w in s.workers ==> WorkerInv(s, w))
    && (forall v, w :: v in s.workers && w in s.workers && v != w && s.workers[v].Created? && s.workers[w].Created? ==>
          s.workers[v].name != s.workers[w].name)
    && forall i :: 0 <= i < |s.sent| ==> Holds(s.files, s.sent[i].name, s.sent[i].payload)
  }

  lemma EndKeeps(s: Protocol, w: nat)
    requires Inv(s)
    ensures Inv(End(s, w))
  {
  }

  lemma ContinueKeeps(s: Protocol, w: nat, next: Worker)
    requires Inv(s) && !next.Created?
    requires WorkerInv(Continue(s, w, next), w)
    ensures Inv(Continue(s, w, next))
  {
  }

  lemma CreateKeeps(s: Protocol, w: nat, n: string, p: Payload)
    requires Inv(s) && n !in s.files
    ensures Inv(Continue(s.(files := s.files[n := Torn]), w, Created(n, p)))
  {
    var t := Continue(s.(files := s.files[n := Torn]), w, Created(n, p));
    forall v | v in t.workers ensures WorkerInv(t, v) {
      if v != w { assert WorkerInv(s, v); }
    }
    forall v | v in s.workers && s.workers[v].Created? ensures s.workers[v].name != n {
      assert WorkerInv(s, v);
    }
  }

  /** The creator of an entry is the only worker that can complete it, and no one has read or sent it before. */
  lemma WriteKeeps(s: Protocol, w: nat)
    requires Inv(s) && w in s.workers && s.workers[w].Created?
    ensures var n, p := s.workers[w].name, s.workers[w].payload;
            Inv(Continue(s.(files := s.files[n := Complete(p, false)]), w, Wrote(n, p)))
  {
  }

  lemma SyncKeeps(s: Protocol, w: nat)
    requires Inv(s) && w in s.workers && s.workers[w].Synced?
    ensures var n, p := s.workers[w].name, s.workers[w].payload;
            Inv(Continue(s.(files := s.files[n := Complete(p, true)]), w, Journaled(n, p)))
  {
    var n, p := s.workers[w].name, s.workers[w].payload;
    var t := Continue(s.(files := s.files[n := Complete(p, true)]), w, Journaled(n, p));
    assert WorkerInv(s, w);
    forall v | v in t.workers ensures WorkerInv(t, v) {
      if v != w { assert WorkerInv(s, v); }
    }
    forall i | 0 <= i < |t.sent| ensures Holds(t.files, t.sent[i].name, t.sent[i].payload) {
      assert Holds(s.files, s.sent[i].name, s.sent[i].payload);
    }
  }

  lemma SendKeeps(s: Protocol, n: string, p: Payload)
    requires Inv(s) && Holds(s.files, n, p)
    ensures Inv(s.(sent := s.sent + [Sent(n, p)]))
  {
  }

  lemma WorkerStepKeeps(s: Protocol, e: Event, now: Worker)
    requires !e.PowerLoss? && !e.Start? && !e.Stop?
    requires Inv(s) && e.worker in s.workers && s.workers[e.worker] == now
    ensures Inv(WorkerStep(s, e, now))
  {
    var w, n := e.worker, now.name;
    EndKeeps(s, w);
    assert WorkerInv(s, w);
    match (e, now)
    case (Look(_), Started(_)) => ContinueKeeps(s, w, if n in s.files then FoundEntry(n) else FoundNothing(n));
    case (ReadEntry(_), FoundEntry(_)) =>
      if n in s.files && s.files[n].Complete? { ContinueKeeps(s, w, Recovering(n, s.files[n].payload)); }
    case (Sign(_, payload), FoundNothing(_)) => ContinueKeeps(s, w, Signed(n, payload));
    case (CreateFile(_), Signed(_, payload)) => if n !in s.files { CreateKeeps(s, w, n, payload); }
    case (WriteFile(_), Created(_, payload)) => WriteKeeps(s, w);
    case (SyncFile(_), Wrote(_, payload)) => ContinueKeeps(s, w, Synced(n, payload));
    case (SyncDirectory(_), Synced(_, payload)) => SyncKeeps(s, w);
    case (Broadcast(_), Journaled(_, payload)) => SendKeeps(s, n, payload); EndKeeps(s.(sent := s.sent + [Sent(n, payload)]), w);
    case (Broadcast(_), Recovering(_, payload)) => SendKeeps(s, n, payload); EndKeeps(s.(sent := s.sent + [Sent(n, payload)]), w);
    case _ =>
  }

  lemma ProcessStepKeeps(s: Protocol, e: Event)
    requires Inv(s) && !e.PowerLoss?
    ensures Inv(Step(s, e))
  {
    if e.Start? {
      if e.worker !in s.workers { ContinueKeeps(s, e.worker, Started(e.name)); }
    } else if e.Stop? {
      EndKeeps(s, e.worker);
    } else if e.worker in s.workers {
      WorkerStepKeeps(s, e, s.workers[e.worker]);
    }
  }

  /** Everything broadcast under one journal name is the same payload. */
  ghost predicate OnePayloadPerName(sent: seq<Sent>) {
    forall i, j :: 0 <= i < |sent| && 0 <= j < |sent| && sent[i].name == sent[j].name ==> sent[i] == sent[j]
  }

  /** For any interleaving of any number of workers, each of which may die at any step, all bytes broadcast under a
      journal name are identical, and nothing is ever broadcast that is not in the journal. */
  lemma AtMostOnePayload(events: seq<Event>)
    requires Admissible(Empty, events, Step, (s: Protocol, e: Event) => !e.PowerLoss?)
    ensures var s := Fold(Empty, events, Step);
            && OnePayloadPerName(s.sent)
            && forall i :: 0 <= i < |s.sent| ==> Holds(s.files, s.sent[i].name, s.sent[i].payload)
  {
    forall s: Protocol, e: Event | Inv(s) && !e.PowerLoss? ensures Inv(Step(s, e)) {
      ProcessStepKeeps(s, e);
    }
    InvariantWhen(Empty, events, Step, (s: Protocol, e: Event) => !e.PowerLoss?, s => Inv(s));
  }

  /** A journal entry, once complete, keeps its payload for the rest of every run without a power loss. */
  lemma EntriesArePermanent(s: Protocol, events: seq<Event>, n: string, p: Payload)
    requires Inv(s) && Holds(s.files, n, p)
    requires Admissible(s, events, Step, (s: Protocol, e: Event) => !e.PowerLoss?)
    ensures Holds(Fold(s, events, Step).files, n, p)
  {
    forall t: Protocol, e: Event | Inv(t) && Holds(t.files, n, p) && !e.PowerLoss?
      ensures Inv(Step(t, e)) && Holds(Step(t, e).files, n, p)
    {
      ProcessStepKeeps(t, e);
    }
    InvariantWhen(s, events, Step, (s: Protocol, e: Event) => !e.PowerLoss?,
                  (t: Protocol) => Inv(t) && Holds(t.files, n, p));
  }

  // ---- power loss ----

  ghost predicate SentIsDurable(s: Protocol) {
    forall i :: 0 <= i < |s.sent| ==> s.sent[i].name in s.files && IsDurable(s.files[s.sent[i].name])
  }

  ghost predicate SentIsJournaled(s: Protocol) {
    forall i :: 0 <= i < |s.sent| ==> Holds(s.files, s.sent[i].name, s.sent[i].payload)
  }

  /** A power loss can erase the journal entry of something already sent exactly when that entry is not durable. */
  lemma ErasureExact(s: Protocol)
    requires Inv(s)
    ensures SentIsDurable(s) <==> forall lost, torn :: SentIsJournaled(Step(s, PowerLoss(lost, torn)))
  {
    if !SentIsDurable(s) {
      var i :| 0 <= i < |s.sent| && !IsDurable(s.files[s.sent[i].name]);
      var after := Step(s, PowerLoss({s.sent[i].name}, {}));
      assert after.sent[i] == s.sent[i] && s.sent[i].name !in after.files;
      assert !SentIsJournaled(after);
    }
  }

  /** Recovery sends only entries that are known to be on disk. */
  ghost predicate RecoversDurably(s: Protocol, e: Event) {
    e.Broadcast? && e.worker in s.workers && s.workers[e.worker].Recovering? ==>
      var n := s.workers[e.worker].name;
      n in s.files && IsDurable(s.files[n])
  }

  lemma DurableStepKeeps(s: Protocol, e: Event)
    requires Inv(s) && SentIsDurable(s) && RecoversDurably(s, e)
    ensures Inv(Step(s, e)) && SentIsDurable(Step(s, e))
  {
    if !e.PowerLoss? {
      ProcessStepKeeps(s, e);
    }
  }

  /** With power losses too, one payload per name is sent as long as recovery re-sends durable entries only. */
  lemma AtMostOnePayloadAcrossPowerLoss(events: seq<Event>)
    requires Admissible(Empty, events, Step, (s, e) => RecoversDurably(s, e))
    ensures OnePayloadPerName(Fold(Empty, events, Step).sent)
  {
    forall s, e | (Inv(s) && SentIsDurable(s)) && RecoversDurably(s, e) ensures Inv(Step(s, e)) && SentIsDurable(Step(s, e)) {
      DurableStepKeeps(s, e);
    }
    InvariantWhen(Empty, events, Step, (s, e) => RecoversDurably(s, e), s => Inv(s) && SentIsDurable(s));
  }

  // A worker that finds no entry signs, journals and sends.
  function SigningEvents(n: string, p: Payload): seq<Event> {
    [Start(0, n), Look(0), Sign(0, p), CreateFile(0)]
  }

  const SendingEvents: seq<Event> := [WriteFile(0), SyncFile(0), SyncDirectory(0), Broadcast(0)]

  lemma LookingRun(s: Protocol, n: string)
    requires n !in s.files && s.workers == map[]
    ensures Fold(s, [Start(0, n), Look(0)], Step) == s.(workers := map[0 := FoundNothing(n)])
  {
    var started := s.(workers := map[0 := Started(n)]);
    assert Step(s, Start(0, n)) == started;
    assert Step(started, Look(0)) == s.(workers := map[0 := FoundNothing(n)]);
    FoldTwo(s, Start(0, n), Look(0), Step);
  }

  lemma CreatingRun(s: Protocol, n: string, p: Payload)
    requires n !in s.files && s.workers == map[0 := FoundNothing(n)]
    ensures Fold(s, [Sign(0, p), CreateFile(0)], Step) == Protocol(s.files[n := Torn], map[0 := Created(n, p)], s.sent)
  {
    var signed := s.(workers := map[0 := Signed(n, p)]);
    assert Step(s, Sign(0, p)) == signed;
    assert Step(signed, CreateFile(0)) == Protocol(s.files[n := Torn], map[0 := Created(n, p)], s.sent);
    FoldTwo(s, Sign(0, p), CreateFile(0), Step);
  }

  lemma SigningRun(s: Protocol, n: string, p: Payload)
    requires n !in s.files && s.workers == map[]
    ensures Fold(s, SigningEvents(n, p), Step) == Protocol(s.files[n := Torn], map[0 := Created(n, p)], s.sent)
  {
    LookingRun(s, n);
    CreatingRun(s.(workers := map[0 := FoundNothing(n)]), n, p);
    FoldAppend(s, [Start(0, n), Look(0)], [Sign(0, p), CreateFile(0)], Step);
    assert SigningEvents(n, p) == [Start(0, n), Look(0)] + [Sign(0, p), CreateFile(0)];
  }

  lemma WriteStep(s: Protocol, n: string, p: Payload)
    requires s.workers == map[0 := Created(n, p)]
    ensures Step(s, WriteFile(0)) == Protocol(s.files[n := Complete(p, false)], map[0 := Wrote(n, p)], s.sent)
  {
  }

  lemma SyncStep(s: Protocol, n: string, p: Payload)
    requires s.workers == map[0 := Wrote(n, p)]
    ensures Step(s, SyncFile(0)) == s.(workers := map[0 := Synced(n, p)])
  {
  }

  lemma WritingRun(s: Protocol, n: string, p: Payload)
    requires s.workers == map[0 := Created(n, p)]
    ensures Fold(s, [WriteFile(0), SyncFile(0)], Step) == Protocol(s.files[n := Complete(p, false)], map[0 := Synced(n, p)], s.sent)
  {
    WriteStep(s, n, p);
    SyncStep(Protocol(s.files[n := Complete(p, false)], map[0 := Wrote(n, p)], s.sent), n, p);
    FoldTwo(s, WriteFile(0), SyncFile(0), Step);
  }

  lemma FolderStep(s: Protocol, n: string, p: Payload)
    requires s.workers == map[0 := Synced(n, p)]
    ensures var t := Step(s, SyncDirectory(0)); t.workers == map[0 := Journaled(n, p)] && t.sent == s.sent
  {
  }

  lemma BroadcastStep(s: Protocol, n: string, p: Payload)
    requires s.workers == map[0 := Journaled(n, p)]
    ensures Step(s, Broadcast(0)).sent == s.sent + [Sent(n, p)]
  {
  }

  lemma SyncedRun(s: Protocol, n: string, p: Payload)
    requires s.workers == map[0 := Synced(n, p)]
    ensures Fold(s, [SyncDirectory(0), Broadcast(0)], Step).sent == s.sent + [Sent(n, p)]
  {
    FolderStep(s, n, p);
    BroadcastStep(Step(s, SyncDirectory(0)), n, p);
    FoldTwo(s, SyncDirectory(0), Broadcast(0), Step);
  }

  lemma SendingRun(s: Protocol, n: string, p: Payload)
    requires s.workers == map[0 := Created(n, p)]
    ensures Fold(s, SendingEvents, Step).sent == s.sent + [Sent(n, p)]
  {
    WritingRun(s, n, p);
    SyncedRun(Protocol(s.files[n := Complete(p, false)], map[0 := Synced(n, p)], s.sent), n, p);
    FoldAppend(s, [WriteFile(0), SyncFile(0)], [SyncDirectory(0), Broadcast(0)], Step);
    assert SendingEvents == [WriteFile(0), SyncFile(0)] + [SyncDirectory(0), Broadcast(0)];
  }

  /** A lone worker that finds no entry gets its payload out. */
  lemma LoneWorkerSends(s: Protocol, n: string, p: Payload)
    requires n !in s.files && s.workers == map[]
    ensures Fold(s, SigningEvents(n, p) + SendingEvents, Step).sent == s.sent + [Sent(n, p)]
  {
    SigningRun(s, n, p);
    SendingRun(Protocol(s.files[n := Torn], map[0 := Created(n, p)], s.sent), n, p);
    FoldAppend(s, SigningEvents(n, p), SendingEvents, Step);
  }

  /** The condition is needed: wherever recovery is about to re-send an entry that is not durable, a power loss and one
      more worker let any other payload out under the same name. */
  lemma HastyRecoverySendsTwo(s: Protocol, w: nat, p: Payload)
    requires Inv(s) && w in s.workers && s.workers[w].Recovering? && !RecoversDurably(s, Broadcast(w))
    ensures var n := s.workers[w].name;
            Fold(s, [Broadcast(w), PowerLoss({n}, {})] + (SigningEvents(n, p) + SendingEvents), Step).sent
              == s.sent + [Sent(n, s.workers[w].payload), Sent(n, p)]
  {
    var n := s.workers[w].name;
    var loss := [Broadcast(w), PowerLoss({n}, {})];
    var lost := Step(Step(s, Broadcast(w)), PowerLoss({n}, {}));
    FoldTwo(s, Broadcast(w), PowerLoss({n}, {}), Step);
    LoneWorkerSends(lost, n, p);
    FoldAppend(s, loss, SigningEvents(n, p) + SendingEvents, Step);
  }

  const A := Payload("a", 0)
  const B := Payload("b", 0)

  // A worker is killed between writing its entry and syncing it, and the next one finds the entry.
  const KilledWriter: seq<Event> := SigningEvents("j", A) + [WriteFile(0), Stop(0)]
  const Finder: seq<Event> := [Start(1, "j"), Look(1), ReadEntry(1)]

  const Unsynced: Protocol := Protocol(map["j" := Complete(A, false)], map[], [])

  lemma KilledWriterRun()
    ensures Fold(Empty, KilledWriter, Step) == Unsynced
  {
    SigningRun(Empty, "j", A);
    var created := Protocol(map["j" := Torn], map[0 := Created("j", A)], []);
    WriteStep(created, "j", A);
    assert Step(Step(created, WriteFile(0)), Stop(0)) == Unsynced;
    FoldTwo(created, WriteFile(0), Stop(0), Step);
    FoldAppend(Empty, SigningEvents("j", A), [WriteFile(0), Stop(0)], Step);
  }

  lemma FinderRun()
    ensures Fold(Unsynced, Finder, Step) == Unsynced.(workers := map[1 := Recovering("j", A)])
  {
    var states := [
      Unsynced, Unsynced.(workers := map[1 := Started("j")]), Unsynced.(workers := map[1 := FoundEntry("j")]),
      Unsynced.(workers := map[1 := Recovering("j", A)])];
    assert states[1] == Step(states[0], Finder[0]);
    assert states[2] == Step(states[1], Finder[1]);
    assert states[3] == Step(states[2], Finder[2]);
    FoldTrace(states, Finder, Step);
  }

  const Stranded: Protocol := Unsynced.(workers := map[1 := Recovering("j", A)])

  lemma StrandedIsHasty()
    ensures Inv(Stranded) && !RecoversDurably(Stranded, Broadcast(1))
    ensures Fold(Empty, KilledWriter + Finder, Step) == Stranded
  {
    KilledWriterRun();
    FinderRun();
    FoldAppend(Empty, KilledWriter, Finder, Step);
  }

  /** The code does not check durability before it re-sends, so a worker killed before syncing, a recovery and a
      power loss let a second payload out under one name. */
  lemma DoubleFaultSendsTwo(rest: seq<Event>)
    requires rest == [Broadcast(1), PowerLoss({"j"}, {})] + (SigningEvents("j", B) + SendingEvents)
    ensures Fold(Empty, KilledWriter + Finder + rest, Step).sent == [Sent("j", A), Sent("j", B)]
  {
    StrandedIsHasty();
    HastyRecoverySendsTwo(Stranded, 1, B);
    FoldAppend(Empty, KilledWriter + Finder, rest, Step);
  }

  // ---- delivery windows ----

  /** What the approved policy and the order fix about one delivery. `approved` is the comparison of order and policy
      together with the gas cap. */
  datatype Terms = Terms(lending: bool, approved: bool, policyExpiresAt: Millis, deliveryDueAt: Option<Millis>)

  predicate PolicyCurrent(t: Terms, now: Millis) {
    t.approved && t.policyExpiresAt > now
  }

  predicate DeliveryWindow(t: Terms, artifactExpiresAt: Millis, now: Millis) {
    && PolicyCurrent(t, now)
    && t.deliveryDueAt.Some? && t.deliveryDueAt.value >= now + 120000
    && artifactExpiresAt >= now + (if t.lending then 60000 else 30000)
  }

  predicate SigningWindow(t: Terms, artifactExpiresAt: Millis, now: Millis) {
    && DeliveryWindow(t, artifactExpiresAt, now)
    && t.policyExpiresAt >= now + 300000 && t.deliveryDueAt.value >= now + 300000
    && artifactExpiresAt >= now + (if t.lending then 240000 else 90000)
  }

  /** How long after signing a delivery may still be sent. */
  function SendingSlack(lending: bool): Millis {
    if lending then 180000 else 60000
  }

  /** A delivery signed inside the signing window can still be sent at `later` whatever its terms, exactly when `later`
      is within the slack: three minutes for lending and one for capital reports. */
  lemma SigningLeavesTimeToSend(lending: bool, now: Millis, later: Millis)
    ensures (forall t: Terms, a :: t.lending == lending && SigningWindow(t, a, now) ==> DeliveryWindow(t, a, later))
        <==> later <= now + SendingSlack(lending)
  {
    if later > now + SendingSlack(lending) {
      var t := Terms(lending, true, now + 300000, Some(now + 300000));
      var a := now + if lending then 240000 else 90000;
      assert SigningWindow(t, a, now) && !DeliveryWindow(t, a, later);
    }
  }

  // ---- one worker's flow ----

  datatype OrderStatus = PendingAccept | Funded | InProgress | OtherStatus

  /** What one worker meets: the order as read, the chain's answers, the prepared delivery if every check on it passed,
      whether the transaction is confirmed while the worker waits, the clock at each check, and how many of its effects
      happen before it dies. */
  datatype Surroundings = Surroundings(
    name: string, terms: Terms, status: OrderStatus, canSubmit: bool,
    receipt: Option<bool>, known: bool, prepared: Option<Payload>, confirmed: bool,
    startedAt: Millis, recoveredAt: Millis, signedAt: Millis, sentAt: Millis, effects: nat)

  datatype Disk = Disk(files: map<string, File>, sent: seq<Sent>)

  predicate Deliverable(status: OrderStatus) {
    status == Funded || status == InProgress
  }

  /** The journal file after the first `effects` of: exclusive create, write, sync the file, sync the directory. */
  function JournalAfter(files: map<string, File>, name: string, payload: Payload, effects: nat): map<string, File> {
    if name in files || effects == 0 then files
    else if effects == 1 then files[name := Torn]
    else files[name := Complete(payload, effects >= 4)]
  }

  predicate MayResend(e: Surroundings, payload: Payload) {
    && e.receipt.None? && !e.known
    && payload.expiresAt > e.recoveredAt + 30000
    && Deliverable(e.status)
    && DeliveryWindow(e.terms, payload.expiresAt, e.recoveredAt)
  }

  predicate MaySign(e: Surroundings) {
    && Deliverable(e.status) && e.canSubmit
    && e.prepared.Some?
    && SigningWindow(e.terms, e.prepared.value.expiresAt, e.signedAt)
  }

  /** The files and broadcasts after one worker. */
  function Delivery(d: Disk, e: Surroundings): Disk {
    if !PolicyCurrent(e.terms, e.startedAt) then d
    else if e.name in d.files then
      if d.files[e.name].Complete? && MayResend(e, d.files[e.name].payload) && e.effects >= 1
      then d.(sent := d.sent + [Sent(e.name, d.files[e.name].payload)])
      else d
    else if MaySign(e) then
      var p := e.prepared.value;
      Disk(JournalAfter(d.files, e.name, p, e.effects),
           if e.effects >= 5 && DeliveryWindow(e.terms, p.expiresAt, e.sentAt) then d.sent + [Sent(e.name, p)] else d.sent)
    else d
  }

  /** The worker ends without an error: its delivery is confirmed, or there is nothing to deliver yet. */
  predicate Succeeds(d: Disk, e: Surroundings) {
    PolicyCurrent(e.terms, e.startedAt) &&
    if e.name in d.files then
      d.files[e.name].Complete? &&
      if e.receipt.Some? then e.receipt.value
      else (e.known || (MayResend(e, d.files[e.name].payload) && e.effects >= 1)) && e.confirmed
    else if !Deliverable(e.status) || !e.canSubmit then true
    else MaySign(e) && e.effects >= 5 && DeliveryWindow(e.terms, e.prepared.value.expiresAt, e.sentAt) && e.confirmed
  }

  /** The workers of one service run, one after another; the first that fails is the last one. */
  function Deliveries(d: Disk, es: seq<Surroundings>): (r: (Disk, bool)) {
    if es == [] then (d, true)
    else
      var (after, going) := Deliveries(d, es[..|es| - 1]);
      var e := es[|es| - 1];
      if going then (Delivery(after, e), Succeeds(after, e)) else (after, false)
  }

  /** A worker that is not killed and sends within the slack always gets its freshly signed delivery out. */
  lemma FreshDeliveryIsSent(d: Disk, e: Surroundings)
    requires PolicyCurrent(e.terms, e.startedAt) && e.name !in d.files && MaySign(e) && e.effects >= 5
    requires e.sentAt <= e.signedAt + SendingSlack(e.terms.lending)
    ensures Delivery(d, e) == Disk(d.files[e.name := Complete(e.prepared.value, true)], d.sent + [Sent(e.name, e.prepared.value)])
  {
  }

  // ---- the service's recovery of all journals ----

  /** One journal that the service finds in a reservation's directory, for an acceptance or a delivery: the reserved terms,
      the order as read, the chain's answers, and the clock. */
  datatype Found = Found(
    name: string, acceptance: bool, terms: Terms, status: OrderStatus, receipt: Option<bool>, taken: bool, confirmed: bool, now: Millis)

  /** The order and the clock still permit this payload. */
  predicate StillWanted(c: Found, p: Payload) {
    && PolicyCurrent(c.terms, c.now)
    && p.expiresAt > c.now + (if c.terms.lending then 60000 else 30000)
    && if c.acceptance then c.status == PendingAccept
       else Deliverable(c.status) && DeliveryWindow(c.terms, p.expiresAt, c.now)
  }

  predicate Readable(files: map<string, File>, c: Found) {
    c.name in files && files[c.name].Complete?
  }

  /** The journal is complete, its transaction is not on chain, and it may be sent again. */
  predicate Resends(files: map<string, File>, c: Found, execute: bool) {
    Readable(files, c) && c.receipt.None? && StillWanted(c, files[c.name].payload) && execute && c.taken
  }

  /** The transaction is on chain, or is after it was sent again. */
  predicate Settles(files: map<string, File>, c: Found, execute: bool) {
    Readable(files, c) && (c.receipt == Some(true) || (Resends(files, c, execute) && c.confirmed))
  }

  /** What is sent for the journals, and whether all of them are settled: the first that is not ends the service's run, as
      does a death after `effects` broadcasts. */
  function Recovery(files: map<string, File>, found: seq<Found>, execute: bool, effects: nat): (r: (seq<Sent>, bool)) {
    if found == [] then ([], true)
    else
      var (sent, going) := Recovery(files, found[..|found| - 1], execute, effects);
      var c := found[|found| - 1];
      if !going then (sent, false)
      else if !Resends(files, c, execute) then (sent, Settles(files, c, execute))
      else if |sent| >= effects then (sent, false)
      else (sent + [Sent(c.name, files[c.name].payload)], Settles(files, c, execute))
  }

  /** One run of the service: recovery first, and new deliveries only when every journal is settled. */
  function ServiceRun(d: Disk, found: seq<Found>, deliveries: seq<Surroundings>, execute: bool, effects: nat): Disk {
    var (resent, settled) := Recovery(d.files, found, execute, effects);
    var recovered := Disk(d.files, d.sent + resent);
    if settled && execute then Deliveries(recovered, deliveries).0 else recovered
  }

  /** Once recovery is through, every journal is complete and its transaction is on chain. */
  lemma {:induction false} RecoverySettlesAll(files: map<string, File>, found: seq<Found>, execute: bool, effects: nat)
    ensures Recovery(files, found, execute, effects).1 ==> forall i :: 0 <= i < |found| ==> Settles(files, found[i], execute)
    decreases |found|
  {
    if found != [] {
      RecoverySettlesAll(files, found[..|found| - 1], execute, effects);
    }
  }

  /** Recovery sends nothing but journaled payloads that are still wanted, each at most once per journal it was found in. */
  lemma {:induction false} RecoverySendsWanted(files: map<string, File>, found: seq<Found>, execute: bool, effects: nat)
    ensures var sent := Recovery(files, found, execute, effects).0;
            && |sent| <= |found| && |sent| <= effects && (!execute ==> sent == [])
            && forall s :: s in sent ==>
                 Holds(files, s.name, s.payload)
                 && exists i :: 0 <= i < |found| && found[i].name == s.name && found[i].receipt.None? && StillWanted(found[i], s.payload)
    decreases |found|
  {
    if found != [] {
      var front := found[..|found| - 1];
      RecoverySendsWanted(files, front, execute, effects);
      forall s | s in Recovery(files, front, execute, effects).0
        ensures exists i :: 0 <= i < |found| && found[i].name == s.name && found[i].receipt.None? && StillWanted(found[i], s.payload)
      {
        var i :| 0 <= i < |front| && front[i].name == s.name && front[i].receipt.None? && StillWanted(front[i], s.payload);
        assert found[i] == front[i];
      }
    }
  }

  lemma {:induction false} LogStep(log: seq<Event>, e: Event)
    requires Admissible(Empty, log, Step, (s: Protocol, e: Event) => !e.PowerLoss?) && !e.PowerLoss?
    ensures Fold(Empty, log + [e], Step) == Step(Fold(Empty, log, Step), e)
    ensures Admissible(Empty, log + [e], Step, (s: Protocol, e: Event) => !e.PowerLoss?)
  {
  }

  /** The delivery host: one state directory, used by one worker after another. The ghost log replays every effect as
      a step of the protocol above. */
  class DeliveryHost {
    var files: map<string, File>
    var sent: seq<Sent>
    ghost var log: seq<Event>

    ghost predicate Replays(workers: map<nat, Worker>)
      reads this
    {
      && Admissible(Empty, log, Step, (s: Protocol, e: Event) => !e.PowerLoss?)
      && Fold(Empty, log, Step) == Protocol(files, workers, sent)
    }

    constructor ()
      ensures Replays(map[]) && files == map[] && sent == []
    {
      files, sent, log := map[], [], [];
    }

    ghost method Note(e: Event)
      requires Admissible(Empty, log, Step, (s: Protocol, e: Event) => !e.PowerLoss?) && !e.PowerLoss?
      modifies this`log
      ensures log == old(log) + [e]
      ensures Fold(Empty, log, Step) == Step(Fold(Empty, old(log), Step), e)
      ensures Admissible(Empty, log, Step, (s: Protocol, e: Event) => !e.PowerLoss?)
    {
      LogStep(log, e);
      log := log + [e];
    }

    /** The worker dies or throws. */
    ghost method Die(w: Worker)
      requires Replays(map[0 := w])
      modifies this`log
      ensures Replays(map[])
    {
      Note(Stop(0));
    }

    ghost method Arrive(name: string)
      requires Replays(map[])
      modifies this`log
      ensures Replays(map[0 := if name in files then FoundEntry(name) else FoundNothing(name)])
    {
      Note(Start(0, name));
      Note(Look(0));
    }

    ghost method SignPayload(name: string, payload: Payload)
      requires Replays(map[0 := FoundNothing(name)])
      modifies this`log
      ensures Replays(map[0 := Signed(name, payload)])
    {
      Note(Sign(0, payload));
    }

    method CreateExclusive(name: string, ghost payload: Payload)
      requires Replays(map[0 := Signed(name, payload)]) && name !in files
      modifies this`files, this`log
      ensures files == old(files)[name := Torn]
      ensures Replays(map[0 := Created(name, payload)])
    {
      Note(CreateFile(0));
      files := files[name := Torn];
    }

    method Write(name: string, payload: Payload)
      requires Replays(map[0 := Created(name, payload)])
      modifies this`files, this`log
      ensures files == old(files)[name := Complete(payload, false)]
      ensures Replays(map[0 := Wrote(name, payload)])
    {
      Note(WriteFile(0));
      files := files[name := Complete(payload, false)];
    }

    method SyncContents(name: string, payload: Payload)
      requires Replays(map[0 := Wrote(name, payload)])
      modifies this`log
      ensures Replays(map[0 := Synced(name, payload)])
    {
      Note(SyncFile(0));
    }

    method SyncFolder(name: string, payload: Payload)
      requires Replays(map[0 := Synced(name, payload)])
      modifies this`files, this`log
      ensures files == old(files)[name := Complete(payload, true)]
      ensures Replays(map[0 := Journaled(name, payload)])
    {
      Note(SyncDirectory(0));
      files := files[name := Complete(payload, true)];
    }

    method Send(name: string, payload: Payload, ghost w: Worker)
      requires w in {Journaled(name, payload), Recovering(name, payload)} && Replays(map[0 := w])
      modifies this`sent, this`log
      ensures sent == old(sent) + [Sent(name, payload)]
      ensures Replays(map[])
    {
      Note(Broadcast(0));
      sent := sent + [Sent(name, payload)];
    }

    method SyncJournal(name: string, payload: Payload, effects: nat)
      requires Replays(map[0 := Wrote(name, payload)])
      modifies this`files, this`log
      ensures files == if effects >= 2 then old(files)[name := Complete(payload, true)] else old(files)
      ensures Replays(if effects >= 2 then map[0 := Journaled(name, payload)] else map[])
    {
      if effects == 0 {
        Die(Wrote(name, payload));
        return;
      }
      SyncContents(name, payload);
      if effects == 1 {
        Die(Synced(name, payload));
        return;
      }
      SyncFolder(name, payload);
    }

    method WriteJournal(name: string, payload: Payload, effects: nat)
      requires Replays(map[0 := Created(name, payload)])
      modifies this`files, this`log
      ensures files == if effects == 0 then old(files) else old(files)[name := Complete(payload, effects >= 3)]
      ensures Replays(if effects >= 3 then map[0 := Journaled(name, payload)] else map[])
    {
      if effects == 0 {
        Die(Created(name, payload));
        return;
      }
      Write(name, payload);
      SyncJournal(name, payload, effects - 1);
    }

    /** Exclusive create, write, sync the file, sync the directory; killed after `effects` of them. */
    method DurableJournal(name: string, payload: Payload, effects: nat) returns (done: bool)
      requires Replays(map[0 := Signed(name, payload)])
      modifies this`files, this`log
      ensures files == JournalAfter(old(files), name, payload, effects)
      ensures done == (name !in old(files) && effects >= 4)
      ensures Replays(if done then map[0 := Journaled(name, payload)] else map[])
    {
      done := name !in files && effects >= 4;
      if effects == 0 || name in files {
        Die(Signed(name, payload));
        return;
      }
      CreateExclusive(name, payload);
      WriteJournal(name, payload, effects - 1);
    }

    /** Recover the journal if there is one; otherwise sign, journal and send. */
    method RunFulfillment(e: Surroundings) returns (ok: bool)
      requires Replays(map[])
      modifies this
      ensures Replays(map[])
      ensures Disk(files, sent) == Delivery(old(Disk(files, sent)), e)
      ensures ok == Succeeds(old(Disk(files, sent)), e)
    {
      if !PolicyCurrent(e.terms, e.startedAt) {
        return false;
      }
      Arrive(e.name);
      if e.name in files {
        ok := Recover(e);
        return;
      }
      if !MaySign(e) {
        Die(FoundNothing(e.name));
        return !Deliverable(e.status) || !e.canSubmit;
      }
      var payload := e.prepared.value;
      SignPayload(e.name, payload);
      var done := DurableJournal(e.name, payload, e.effects);
      if !done {
        return false;
      }
      if e.effects < 5 || !DeliveryWindow(e.terms, payload.expiresAt, e.sentAt) {
        Die(Journaled(e.name, payload));
        return false;
      }
      Send(e.name, payload, Journaled(e.name, payload));
      ok := e.confirmed;
    }

    ghost method ReadJournal(name: string)
      requires Replays(map[0 := FoundEntry(name)]) && name in files
      modifies this`log
      ensures Replays(if files[name].Complete? then map[0 := Recovering(name, files[name].payload)] else map[])
    {
      Note(ReadEntry(0));
    }

    method Recover(e: Surroundings) returns (ok: bool)
      requires Replays(map[0 := FoundEntry(e.name)]) && e.name in files && PolicyCurrent(e.terms, e.startedAt)
      modifies this`sent, this`log
      ensures Replays(map[])
      ensures sent == (if files[e.name].Complete? && MayResend(e, files[e.name].payload) && e.effects >= 1
                       then old(sent) + [Sent(e.name, files[e.name].payload)] else old(sent))
      ensures ok == Succeeds(old(Disk(files, sent)), e)
    {
      ReadJournal(e.name);
      if files[e.name].Torn? {
        return false;
      }
      var payload := files[e.name].payload;
      if MayResend(e, payload) && e.effects >= 1 {
        Send(e.name, payload, Recovering(e.name, payload));
        return e.confirmed;
      }
      Die(Recovering(e.name, payload));
      ok := if e.receipt.Some? then e.receipt.value else e.known && e.confirmed;
    }

    /** One journal that the service found: a worker reads it and sends its payload again if that is still wanted. */
    method Resend(c: Found, execute: bool) returns (settled: bool)
      requires Replays(map[])
      modifies this`sent, this`log
      ensures Replays(map[])
      ensures settled == Settles(files, c, execute)
      ensures sent == if Resends(files, c, execute) then old(sent) + [Sent(c.name, files[c.name].payload)] else old(sent)
    {
      Arrive(c.name);
      if c.name !in files {
        Die(FoundNothing(c.name));
        return false;
      }
      ReadJournal(c.name);
      if files[c.name].Torn? {
        return false;
      }
      var payload := files[c.name].payload;
      if c.receipt.Some? || !StillWanted(c, payload) || !execute || !c.taken {
        Die(Recovering(c.name, payload));
        return c.receipt == Some(true);
      }
      Send(c.name, payload, Recovering(c.name, payload));
      settled := c.confirmed;
    }

    /** Recover every journal of every reservation; the first that is not settled ends the run. */
    method RecoverAll(found: seq<Found>, execute: bool, effects: nat) returns (settled: bool)
      requires Replays(map[])
      modifies this`sent, this`log
      ensures Replays(map[])
      ensures (sent, settled) == (old(sent) + Recovery(files, found, execute, effects).0, Recovery(files, found, execute, effects).1)
    {
      settled := true;
      var left := effects;
      ghost var resent: seq<Sent> := [];
      for i := 0 to |found|
        invariant Replays(map[]) && settled
        invariant Recovery(files, found[..i], execute, effects) == (resent, true)
        invariant sent == old(sent) + resent && left == effects - |resent|
      {
        RecoveryNext(files, found, i, execute, effects);
        if Resends(files, found[i], execute) {
          if left == 0 {
            RecoveryStops(files, found, i + 1, execute, effects);
            return false;
          }
          ghost var s := Sent(found[i].name, files[found[i].name].payload);
          assert old(sent) + resent + [s] == old(sent) + (resent + [s]);
          resent, left := resent + [s], left - 1;
        }
        settled := Resend(found[i], execute);
        if !settled {
          RecoveryStops(files, found, i + 1, execute, effects);
          return;
        }
      }
      assert found[..|found|] == found;
    }

    /** The deliveries of one run; a failed one ends the run. */
    method Deliver(deliveries: seq<Surroundings>)
      requires Replays(map[])
      modifies this
      ensures Replays(map[])
      ensures Disk(files, sent) == Deliveries(old(Disk(files, sent)), deliveries).0
    {
      ghost var d := Disk(files, sent);
      for i := 0 to |deliveries|
        invariant Replays(map[])
        invariant Deliveries(d, deliveries[..i]) == (Disk(files, sent), true)
      {
        assert deliveries[..i + 1][..i] == deliveries[..i];
        var ok := RunFulfillment(deliveries[i]);
        if !ok {
          DeliveriesStop(d, deliveries, i + 1);
          return;
        }
      }
      assert deliveries[..|deliveries|] == deliveries;
    }

    /** One run of the service. Without the execute flag nothing is sent or written. */
    method RunService(found: seq<Found>, deliveries: seq<Surroundings>, execute: bool, effects: nat)
      requires Replays(map[])
      modifies this
      ensures Replays(map[])
      ensures Disk(files, sent) == ServiceRun(old(Disk(files, sent)), found, deliveries, execute, effects)
      ensures !execute ==> files == old(files) && sent == old(sent)
      ensures files != old(files) ==> execute && forall i :: 0 <= i < |found| ==> Settles(old(files), found[i], execute)
    {
      var settled := RecoverAll(found, execute, effects);
      RecoverySettlesAll(files, found, execute, effects);
      RecoverySendsWanted(files, found, execute, effects);
      if settled && execute {
        Deliver(deliveries);
      }
    }
  }

  /** A failed delivery is the last one. */
  lemma {:induction false} DeliveriesStop(d: Disk, es: seq<Surroundings>, k: nat)
    requires k <= |es| && !Deliveries(d, es[..k]).1
    ensures Deliveries(d, es) == Deliveries(d, es[..k])
    decreases |es|
  {
    if k == |es| {
      assert es[..k] == es;
    } else {
      var front := es[..|es| - 1];
      assert front[..k] == es[..k];
      DeliveriesStop(d, front, k);
    }
  }

  lemma RecoveryNext(files: map<string, File>, found: seq<Found>, i: nat, execute: bool, effects: nat)
    requires i < |found| && Recovery(files, found[..i], execute, effects).1
    ensures var sent, c := Recovery(files, found[..i], execute, effects).0, found[i];
            Recovery(files, found[..i + 1], execute, effects) ==
              if !Resends(files, c, execute) then (sent, Settles(files, c, execute))
              else if |sent| >= effects then (sent, false)
              else (sent + [Sent(c.name, files[c.name].payload)], Settles(files, c, execute))
  {
    assert found[..i + 1][..i] == found[..i];
  }

  /** What has stopped stays stopped. */
  lemma {:induction false} RecoveryStops(files: map<string, File>, found: seq<Found>, k: nat, execute: bool, effects: nat)
    requires k <= |found| && !Recovery(files, found[..k], execute, effects).1
    ensures Recovery(files, found, execute, effects) == Recovery(files, found[..k], execute, effects)
    decreases |found|
  {
    if k == |found| {
      assert found[..k] == found;
    } else {
      var front := found[..|found| - 1];
      assert front[..k] == found[..k];
      RecoveryStops(files, front, k, execute, effects);
    }
  }

  /** However many workers a host has run and wherever each died: whatever was sent for a delivery round is in its
      journal, and all of it is one payload. */
  lemma HostSendsOnePayload(host: DeliveryHost, workers: map<nat, Worker>)
    requires host.Replays(workers)
    ensures OnePayloadPerName(host.sent)
    ensures forall i :: 0 <= i < |host.sent| ==> Holds(host.files, host.sent[i].name, host.sent[i].payload)
  {
    AtMostOnePayload(host.log);
  }

  /** Only prepared deliveries inside the signing window are ever journaled, and only payloads inside the delivery
      window are ever sent. */
  lemma {:induction false} SentInWindow(d: Disk, e: Surroundings)
    ensures var after := Delivery(d, e);
            && d.sent <= after.sent && |after.sent| <= |d.sent| + 1
            && (after.sent != d.sent ==>
                  exists p :: Holds(after.files, e.name, p) && after.sent == d.sent + [Sent(e.name, p)]
                    && DeliveryWindow(e.terms, p.expiresAt, if e.name in d.files then e.recoveredAt else e.sentAt))
            && forall n :: n in after.files && n !in d.files ==>
                 n == e.name && e.prepared.Some? && SigningWindow(e.terms, e.prepared.value.expiresAt, e.signedAt)
  {
  }
}
