/** Snapshot delivery: a sequence file, a spool directory and an ingest server, joined by a
    network that may lose, delay and repeat requests and lose responses. Collectors and the
    server may fail at any step. Every step is atomic: files are published by rename, and
    the server ingests in one transaction per snapshot. */
module Delivery {

  /** A signed snapshot. Its identifier is derived from its sequence number, and its content
      hash determines all of it. */
  datatype File = File(org: string, connector: string, sequence: int, body: string)

  /** Where a collector is in its loop. `todo` is the rest of the directory listing; `thenRun`
      says whether this flush precedes discovery. */
  datatype Phase =
    | Sleeping
    | Flushing(todo: seq<File>, thenRun: bool)
    | Waiting(todo: seq<File>, thenRun: bool)
    | Removing(todo: seq<File>, thenRun: bool)
    | Discovering
    | Holding(sequence: int)

  /** `sequenceFile` and `spool` survive a crash; `queued` is the history of published files. */
  datatype Collector = Collector(org: string, sequenceFile: int, spool: seq<File>, phase: Phase, queued: seq<File>)

  /** `rows` is the snapshot table by identifier; `committed` the order of commits. */
  datatype Server = Server(rows: map<int, File>, committed: seq<File>)

  datatype System = System(collectors: map<string, Collector>, server: Server, requests: set<File>,
                           responses: set<(File, bool)>)

  // ---------- the server ----------

  datatype Verdict = Committed | Idempotent | Conflict | Replay | Rejected

  /** Whether a committed snapshot of the same connector has this sequence number or a later one. */
  predicate Replayed(server: Server, f: File) {
    f.sequence <= 0 || exists i :: i in server.rows && server.rows[i].org == f.org
                                   && server.rows[i].connector == f.connector
                                   && f.sequence <= server.rows[i].sequence
  }

  /** The transaction for a snapshot that passed authentication, contract and signature checks;
      `accepts` is whether reconciliation accepts it. */
  function Ingest(server: Server, f: File, accepts: bool): Verdict {
    if f.sequence in server.rows && server.rows[f.sequence].org == f.org then
      if server.rows[f.sequence] == f then Idempotent else Conflict
    else if Replayed(server, f) then Replay
    else if f.sequence in server.rows then Rejected     // the identifier is taken in another organization
    else if accepts then Committed
    else Rejected
  }

  function Ingested(server: Server, f: File, verdict: Verdict): Server {
    if verdict == Committed then Server(server.rows[f.sequence := f], server.committed + [f]) else server
  }

  predicate Succeeds(verdict: Verdict) {
    verdict in {Committed, Idempotent}
  }

  // ---------- the spool ----------

  /** Publishes a file in the directory, which lists names in sequence order. */
  function Insert(spool: seq<File>, f: File): seq<File> {
    if spool == [] || f.sequence < spool[0].sequence then [f] + spool else [spool[0]] + Insert(spool[1..], f)
  }

  function Without(spool: seq<File>, f: File): seq<File> {
    if spool == [] then [] else if spool[0] == f then Without(spool[1..], f) else [spool[0]] + Without(spool[1..], f)
  }

  /** The clock, unless it is not past the last number: then the one after that. */
  function NextSequence(previous: int, now: int): (r: int)
    ensures r > previous && r >= now && (r == now || r == previous + 1)
  {
    if now <= previous then previous + 1 else now
  }

  // ---------- steps ----------

  datatype Step =
    | Wake(c: string)                        // a loop iteration starts by flushing
    | Fail(c: string)                        // an error, a timeout or a crash: back to sleep
    | Send(c: string)
    | Receive(c: string, ok: bool)
    | Remove(c: string)
    | FlushDone(c: string)
    | Allocate(c: string, now: int)
    | Enqueue(c: string, body: string)
    | Serve(f: File, gate: bool, accepts: bool, answered: bool)

  function Advance(k: Collector, phase: Phase): Collector {
    k.(phase := phase)
  }

  function Put(s: System, c: string, k: Collector): System {
    s.(collectors := s.collectors[c := k])
  }

  /** What a collector does to its own state in one step; `None`-like steps leave it alone. */
  function Local(c: string, k: Collector, e: Step): Collector {
    match e
    case Wake(_) => if k.phase.Sleeping? then Advance(k, Flushing(k.spool, true)) else k
    case Fail(_) => Advance(k, Sleeping)
    case Send(_) => if k.phase.Flushing? && k.phase.todo != [] then Advance(k, Waiting(k.phase.todo, k.phase.thenRun))
    else k
    case Receive(_, ok) =>
      if !k.phase.Waiting? then k
      else if ok then Advance(k, Removing(k.phase.todo, k.phase.thenRun))
      else Advance(k, Sleeping)
    case Remove(_) =>
      if k.phase.Removing? && k.phase.todo != [] then
        k.(spool := Without(k.spool, k.phase.todo[0]), phase := Flushing(k.phase.todo[1..], k.phase.thenRun))
      else k
    case FlushDone(_) =>
      if k.phase.Flushing? && k.phase.todo == [] then Advance(k, if k.phase.thenRun then Discovering else Sleeping)
      else k
    case Allocate(_, now) =>
      if k.phase.Discovering? then
        var sequence := NextSequence(k.sequenceFile, now);
        k.(sequenceFile := sequence, phase := Holding(sequence))
      else k
    case Enqueue(_, body) =>
      if k.phase.Holding? then
        var f := File(k.org, c, k.phase.sequence, body);
        k.(spool := Insert(k.spool, f), queued := k.queued + [f], phase := Flushing(Insert(k.spool, f), false))
      else k
    case Serve(_, _, _, _) => k
  }

  /** Whether the response that `Receive` consumes is on the network. */
  predicate CanReceive(s: System, k: Collector, ok: bool) {
    k.phase.Waiting? && k.phase.todo != [] && (k.phase.todo[0], ok) in s.responses
  }

  function Next(s: System, e: Step): System {
    if e.Serve? then
      if e.f !in s.requests then s
      else if !e.gate then s.(responses := s.responses + (if e.answered then {(e.f, false)} else {}))
      else
        var verdict := Ingest(s.server, e.f, e.accepts);
        s.(server := Ingested(s.server, e.f, verdict),
        responses := s.responses + (if e.answered then {(e.f, Succeeds(verdict))} else {}))
    else if e.c !in s.collectors then s
    else
      var k := s.collectors[e.c];
      if e.Receive? && !CanReceive(s, k, e.ok) then s
      else
        var s' := Put(s, e.c, Local(e.c, k, e));
        if e.Send? && k.phase.Flushing? && k.phase.todo != [] then s'.(requests := s.requests + {k.phase.todo[0]})
        else s'
  }

  /** Enrolled collectors with empty data directories, and an empty server. */
  predicate Initial(s: System) {
    && (forall c :: c in s.collectors ==> s.collectors[c] == Collector(s.collectors[c].org, 0, [], Sleeping, []))
    && s.server == Server(map[], []) && s.requests == {} && s.responses == {}
  }

  function Exec(s: System, es: seq<Step>): System {
    if es == [] then s else Next(Exec(s, es[..|es| - 1]), es[|es| - 1])
  }

  // ---------- what holds in every reachable state ----------

  /** The commits of one connector, in order. */
  function CommitsOf(committed: seq<File>, c: string): seq<File> {
    if committed == [] then []
    else
      var f := committed[|committed| - 1];
      CommitsOf(committed[..|committed| - 1], c) + (if f.connector == c then [f] else [])
  }

  predicate Increasing(fs: seq<File>) {
    forall i, j :: 0 <= i < j < |fs| ==> fs[i].sequence < fs[j].sequence
  }

  /** A collector's history against the commits `done` of its connector. */
  ghost predicate CollectorInv(c: string, k: Collector, done: seq<File>) {
    && Increasing(k.queued)
    && (forall f :: f in k.queued ==> f.org == k.org && f.connector == c && 1 <= f.sequence <= k.sequenceFile)
    && 0 <= k.sequenceFile
    && done <= k.queued && |k.queued| <= |done| + 1
    && |k.spool| <= 1 && (k.spool != [] ==> k.queued != [] && k.spool[0] == k.queued[|k.queued| - 1])
    && (|done| < |k.queued| ==> k.spool != [])
    && PhaseInv(k, done)
  }

  ghost predicate PhaseInv(k: Collector, done: seq<File>) {
    match k.phase
    case Sleeping => true
    case Flushing(todo, _) => todo == k.spool
    case Waiting(todo, _) => todo == k.spool && todo != []
    case Removing(todo, _) => todo == k.spool && todo != [] && |done| == |k.queued|
    case Discovering => k.spool == []
    case Holding(sequence) => k.spool == [] && sequence == k.sequenceFile >= 1 && forall f :: f in k.queued ==>
                                                                                                f.sequence < sequence
  }

  ghost predicate ServerInv(server: Server) {
    && (forall i :: i in server.rows ==> server.rows[i].sequence == i && server.rows[i] in server.committed)
    && (forall f :: f in server.committed ==> f.sequence in server.rows && server.rows[f.sequence] == f)
  }

  /** A request on the network is a published file whose predecessors are all committed. */
  ghost predicate Sent(k: Collector, done: seq<File>, f: File) {
    exists i :: 0 <= i < |k.queued| && i <= |done| && k.queued[i] == f
  }

  ghost predicate Inv(s: System) {
    && ServerInv(s.server)
    && (forall c :: c in s.collectors ==> CollectorInv(c, s.collectors[c], CommitsOf(s.server.committed, c)))
    && (forall f :: f in s.requests ==> f.connector in s.collectors
                                        && Sent(s.collectors[f.connector], CommitsOf(s.server.committed, f.connector),
                                                f))
    && (forall f :: (f, true) in s.responses ==> f in s.server.committed)
    && (forall f :: f in s.server.committed ==> f.connector in s.collectors)
  }

  lemma {:induction false} CommitsMembers(committed: seq<File>, c: string, f: File)
    ensures f in CommitsOf(committed, c) <==> f in committed && f.connector == c
  {
    if committed != [] {
      CommitsMembers(committed[..|committed| - 1], c, f);
    }
  }

  lemma CommitsSnoc(committed: seq<File>, c: string, f: File)
    ensures CommitsOf(committed + [f], c) == CommitsOf(committed, c) + (if f.connector == c then [f] else [])
  {
    assert (committed + [f])[..|committed|] == committed;
  }

  lemma EnqueueInv(c: string, k: Collector, done: seq<File>, body: string)
    requires CollectorInv(c, k, done) && k.phase.Holding?
    ensures CollectorInv(c, Local(c, k, Enqueue(c, body)), done)
  {
    var f := File(k.org, c, k.phase.sequence, body);
    assert Insert(k.spool, f) == [f];
    assert Increasing(k.queued + [f]);
  }

  lemma RemoveInv(c: string, k: Collector, done: seq<File>)
    requires CollectorInv(c, k, done) && k.phase.Removing?
    ensures CollectorInv(c, Local(c, k, Remove(c)), done)
  {
    assert k.spool[1..] == [] && k.phase.todo[1..] == [];
    assert Without(k.spool, k.phase.todo[0]) == [];
  }

  lemma AllocateInv(c: string, k: Collector, done: seq<File>, now: int)
    requires CollectorInv(c, k, done) && k.phase.Discovering?
    ensures CollectorInv(c, Local(c, k, Allocate(c, now)), done)
  {
  }

  /** A collector's own steps keep its invariant; a received success means its file is committed. */
  lemma LocalInv(c: string, k: Collector, done: seq<File>, e: Step)
    requires CollectorInv(c, k, done) && (e.Serve? || e.c == c)
    requires e.Receive? && e.ok && k.phase.Waiting? ==> k.phase.todo[0] in done
    ensures CollectorInv(c, Local(c, k, e), done)
  {
    hide Increasing;
    if e.Enqueue? && k.phase.Holding? {
      EnqueueInv(c, k, done, e.body);
    } else if e.Remove? && k.phase.Removing? {
      RemoveInv(c, k, done);
    } else if e.Allocate? && k.phase.Discovering? {
      AllocateInv(c, k, done, e.now);
    } else if e.Receive? && e.ok && k.phase.Waiting? {
      LastCommitted(k, done);
    }
  }

  /** If the file in the spool is committed then everything published is. */
  lemma LastCommitted(k: Collector, done: seq<File>)
    requires Increasing(k.queued) && done <= k.queued && |k.queued| <= |done| + 1 && k.queued != []
    requires k.queued[|k.queued| - 1] in done
    ensures |done| == |k.queued|
  {
    var i :| 0 <= i < |done| && done[i] == k.queued[|k.queued| - 1];
    assert k.queued[i] == done[i];
  }

  lemma LocalKeepsSent(c: string, k: Collector, done: seq<File>, e: Step, f: File)
    requires Sent(k, done, f)
    ensures Sent(Local(c, k, e), done, f)
  {
    var i :| 0 <= i < |k.queued| && i <= |done| && k.queued[i] == f;
    assert Local(c, k, e).queued[i] == f;
  }

  /** Facts about one collector in a reachable state. */
  lemma OneCollector(s: System, c: string)
    requires Inv(s) && c in s.collectors
    ensures CollectorInv(c, s.collectors[c], CommitsOf(s.server.committed, c))
  {
  }

  lemma ReceivedIsCommitted(s: System, c: string, ok: bool)
    requires Inv(s) && c in s.collectors && CanReceive(s, s.collectors[c], ok) && ok
    ensures s.collectors[c].phase.todo[0] in CommitsOf(s.server.committed, c)
  {
    hide CommitsOf, Increasing, ServerInv, Sent;
    var k := s.collectors[c];
    CommitsMembers(s.server.committed, c, k.phase.todo[0]);
  }

  lemma CollectorStep(s: System, e: Step)
    requires Inv(s) && !e.Serve?
    ensures Inv(Next(s, e))
  {
    hide CollectorInv, CommitsOf, ServerInv, Sent, Local;
    if e.c in s.collectors && !(e.Receive? && !CanReceive(s, s.collectors[e.c], e.ok)) {
      var k, done := s.collectors[e.c], CommitsOf(s.server.committed, e.c);
      if e.Receive? && e.ok {
        ReceivedIsCommitted(s, e.c, e.ok);
      }
      LocalInv(e.c, k, done, e);
      forall f | f in s.requests ensures Sent(Next(s, e).collectors[f.connector],
                                              CommitsOf(s.server.committed, f.connector), f) {
        LocalKeepsSent(e.c, s.collectors[f.connector], CommitsOf(s.server.committed, f.connector), e, f);
      }
      if e.Send? && k.phase.Flushing? && k.phase.todo != [] {
        SpoolSent(e.c, k, done, e);
      }
    }
  }

  /** The file that a flush posts is the only one not known to be committed. */
  lemma SpoolSent(c: string, k: Collector, done: seq<File>, e: Step)
    requires CollectorInv(c, k, done) && k.phase.Flushing? && k.phase.todo != [] && e.Send?
    ensures k.phase.todo[0].connector == c && Sent(Local(c, k, e), done, k.phase.todo[0])
  {
    assert k.queued[|k.queued| - 1] == k.phase.todo[0];
  }

  /** A request that is not in the table is the next one in its collector's order. */
  lemma NextInLine(s: System, f: File)
    requires Inv(s) && f in s.requests && f !in s.server.committed
    ensures var k, done := s.collectors[f.connector], CommitsOf(s.server.committed, f.connector);
            |done| < |k.queued| && k.queued[|done|] == f
  {
    hide Inv, CommitsOf;
    RequestSent(s, f);
    var k, done := s.collectors[f.connector], CommitsOf(s.server.committed, f.connector);
    var i :| 0 <= i < |k.queued| && i <= |done| && k.queued[i] == f;
    if i < |done| {
      assert done[i] == f;
      CommitsMembers(s.server.committed, f.connector, f);
    }
  }

  lemma RequestSent(s: System, f: File)
    requires Inv(s) && f in s.requests
    ensures f.connector in s.collectors
    ensures var k, done := s.collectors[f.connector], CommitsOf(s.server.committed, f.connector);
            Sent(k, done, f) && done <= k.queued && Increasing(k.queued)
  {
    hide ServerInv, Sent, CommitsOf, PhaseInv, Increasing;
  }

  /** A request is never rejected as a replay, however often or late it arrives. */
  lemma NeverReplayed(s: System, f: File, accepts: bool)
    requires Inv(s) && f in s.requests
    ensures Ingest(s.server, f, accepts) != Replay
  {
    hide CommitsOf;
    if f !in s.server.committed {
      NextInLine(s, f);
      var k, done := s.collectors[f.connector], CommitsOf(s.server.committed, f.connector);
      forall i | i in s.server.rows && s.server.rows[i].org == f.org && s.server.rows[i].connector == f.connector
        ensures s.server.rows[i].sequence < f.sequence
      {
        CommitsMembers(s.server.committed, f.connector, s.server.rows[i]);
        var j :| 0 <= j < |done| && done[j] == s.server.rows[i];
        assert k.queued[j] == done[j];
      }
    }
  }

  /** Committing the next published file keeps its collector's invariant. */
  lemma CommitNext(c: string, k: Collector, done: seq<File>, f: File)
    requires CollectorInv(c, k, done) && |done| < |k.queued| && k.queued[|done|] == f
    ensures CollectorInv(c, k, done + [f])
  {
  }

  lemma CommitKeepsCollector(s: System, f: File, c: string)
    requires Inv(s) && f in s.requests && f !in s.server.committed && c in s.collectors
    ensures CollectorInv(c, s.collectors[c], CommitsOf(s.server.committed + [f], c))
  {
    hide Inv, CollectorInv, CommitsOf;
    OneCollector(s, c);
    CommitsSnoc(s.server.committed, c, f);
    var done := CommitsOf(s.server.committed, c);
    if f.connector == c {
      NextInLine(s, f);
      CommitNext(c, s.collectors[c], done, f);
    } else {
      assert done + [] == done;
    }
  }

  lemma CommitKeepsSent(s: System, f: File, g: File)
    requires Inv(s) && g in s.requests
    ensures Sent(s.collectors[g.connector], CommitsOf(s.server.committed + [f], g.connector), g)
  {
    CommitsSnoc(s.server.committed, g.connector, f);
  }

  lemma IngestKeepsServer(server: Server, f: File, accepts: bool)
    requires ServerInv(server) && Ingest(server, f, accepts) == Committed
    ensures f !in server.committed && ServerInv(Ingested(server, f, Committed))
  {
    hide Replayed;
  }

  lemma SucceededIsCommitted(server: Server, f: File, accepts: bool)
    requires ServerInv(server) && Succeeds(Ingest(server, f, accepts))
    ensures f in Ingested(server, f, Ingest(server, f, accepts)).committed
  {
    hide Replayed;
  }

  lemma ServeStep(s: System, e: Step)
    requires Inv(s) && e.Serve?
    ensures Inv(Next(s, e))
  {
    hide CollectorInv, CommitsOf, Sent, ServerInv, Ingest, Succeeds;
    if e.f in s.requests && e.gate {
      var verdict := Ingest(s.server, e.f, e.accepts);
      if Succeeds(verdict) {
        SucceededIsCommitted(s.server, e.f, e.accepts);
      }
      if verdict == Committed {
        IngestKeepsServer(s.server, e.f, e.accepts);
        forall c | c in s.collectors ensures CollectorInv(c, s.collectors[c],
                                                          CommitsOf(s.server.committed + [e.f], c)) {
          CommitKeepsCollector(s, e.f, c);
        }
        forall g | g in s.requests ensures Sent(s.collectors[g.connector],
                                                CommitsOf(s.server.committed + [e.f], g.connector), g) {
          CommitKeepsSent(s, e.f, g);
        }
      }
    }
  }

  lemma {:induction false} ExecInv(s: System, es: seq<Step>)
    requires Initial(s)
    ensures Inv(Exec(s, es))
  {
    if es != [] {
      hide Inv, Next;
      ExecInv(s, es[..|es| - 1]);
      var t, e := Exec(s, es[..|es| - 1]), es[|es| - 1];
      if e.Serve? { ServeStep(t, e); } else { CollectorStep(t, e); }
    }
  }

  // ---------- the promises ----------

  /** Whatever is lost, delayed, repeated or interrupted: the commits of a connector are the
      first published snapshots of its collector, each once, in increasing sequence order, and
      every published snapshot is committed or still in the spool, which never holds more
      than one. */
  lemma ExactlyOnceInOrder(s: System, es: seq<Step>, c: string)
    requires Initial(s) && c in Exec(s, es).collectors
    ensures var t := Exec(s, es);
            var k, done := t.collectors[c], CommitsOf(t.server.committed, c);
            && done <= k.queued && Increasing(k.queued)
            && (forall f :: f in k.queued && f !in t.server.committed ==> f in k.spool)
            && |k.spool| <= 1 && (k.spool == [] ==> done == k.queued)
  {
    hide Exec, Initial;
    ExecInv(s, es);
    var t := Exec(s, es);
    var k, done := t.collectors[c], CommitsOf(t.server.committed, c);
    forall f | f in k.queued && f !in t.server.committed ensures f in k.spool {
      CommitsMembers(t.server.committed, c, f);
      assert k.queued[..|done|] == done;
    }
  }

  /** A file leaves the spool only after its snapshot was committed, and a commit is never undone. */
  lemma RemovedOnlyAfterCommit(s: System, es: seq<Step>, e: Step, c: string, f: File)
    requires Initial(s) && c in Exec(s, es).collectors
    ensures var t, u := Exec(s, es), Next(Exec(s, es), e);
            && c in u.collectors && t.server.committed <= u.server.committed
            && (f in t.collectors[c].spool && f !in u.collectors[c].spool ==> f in t.server.committed)
  {
    hide Exec, Initial, Inv, Local, Next, CollectorInv, CommitsOf;
    ExecInv(s, es);
    var t := Exec(s, es);
    var k := t.collectors[c];
    OneCollector(t, c);
    NextCommits(t, e);
    NextCollector(t, e, c);
    if e.Remove? && k.phase.Removing? {
      RemovingCommitted(t, c);
    } else {
      SpoolOnlyShrinksByRemove(c, k, CommitsOf(t.server.committed, c), e);
    }
  }

  lemma NextCommits(t: System, e: Step)
    ensures t.server.committed <= Next(t, e).server.committed
  {
    hide Local, Ingest;
  }

  /** A step changes a collector only by a step of its own. */
  lemma NextCollector(t: System, e: Step, c: string)
    requires c in t.collectors
    ensures c in Next(t, e).collectors && Next(t, e).collectors[c] in {t.collectors[c], Local(c, t.collectors[c], e)}
  {
    hide Local, Ingest;
  }

  lemma RemovingCommitted(t: System, c: string)
    requires Inv(t) && c in t.collectors && t.collectors[c].phase.Removing?
    ensures forall f :: f in t.collectors[c].spool ==> f in t.server.committed
  {
    hide ServerInv, Sent, CommitsOf;
    var k, done := t.collectors[c], CommitsOf(t.server.committed, c);
    forall f | f in k.spool ensures f in t.server.committed {
      assert done[|done| - 1] == f;
      CommitsMembers(t.server.committed, c, f);
    }
  }

  lemma SpoolOnlyShrinksByRemove(c: string, k: Collector, done: seq<File>, e: Step)
    requires CollectorInv(c, k, done) && !(e.Remove? && k.phase.Removing?)
    ensures forall f :: f in k.spool ==> f in Local(c, k, e).spool
  {
  }

  /** No request that reaches the server is ever answered with the replay error. */
  lemma RetriesAreNeverReplays(s: System, es: seq<Step>, f: File, accepts: bool)
    requires Initial(s) && f in Exec(s, es).requests
    ensures Ingest(Exec(s, es).server, f, accepts) != Replay
  {
    ExecInv(s, es);
    NeverReplayed(Exec(s, es), f, accepts);
  }

  /** Snapshot identifiers are derived from sequence numbers alone. A request that passes the
      checks before the transaction and that reconciliation accepts succeeds exactly when no
      other connector has committed a snapshot with the same sequence number. */
  lemma AcceptedIffNoCollision(s: System, es: seq<Step>, f: File)
    requires Initial(s) && f in Exec(s, es).requests
    ensures Succeeds(Ingest(Exec(s, es).server, f, true)) <==>
            !exists g :: g in Exec(s, es).server.committed && g.sequence == f.sequence && g.connector != f.connector
  {
    hide Exec, Initial, CommitsOf, CollectorInv, Replayed;
    ExecInv(s, es);
    var t := Exec(s, es);
    NeverReplayed(t, f, true);
    if f.sequence in t.server.rows && t.server.rows[f.sequence] != f {
      var g := t.server.rows[f.sequence];
      if g.connector == f.connector {
        SameConnectorSameFile(t, f, g);
      }
    }
  }

  lemma SameConnectorSameFile(t: System, f: File, g: File)
    requires Inv(t) && f in t.requests && g in t.server.committed && g.connector == f.connector
    requires g.sequence == f.sequence
    ensures f == g
  {
    hide Inv, CommitsOf;
    RequestSent(t, f);
    var k, done := t.collectors[f.connector], CommitsOf(t.server.committed, f.connector);
    CommitsMembers(t.server.committed, f.connector, g);
    var i :| 0 <= i < |done| && done[i] == g;
    assert k.queued[i] == g;
    var j :| 0 <= j < |k.queued| && j <= |done| && k.queued[j] == f;
  }
}
