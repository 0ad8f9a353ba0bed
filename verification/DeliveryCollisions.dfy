/** Spooled snapshots that are never committed: refused ones, and those whose sequence number
    another collector took. */
module DeliveryCollisions {
  import opened Delivery

  // ---------- a collision is permanent ----------

  /** The spool of `c` holds `f`, and the table has another snapshot under its identifier. */
  ghost predicate Blocked(t: System, c: string, f: File) {
    && Inv(t) && c in t.collectors && t.collectors[c].spool == [f]
    && f !in t.server.committed && f.sequence in t.server.rows
  }

  /** No step of its collector removes the file or publishes another one. */
  lemma BlockedLocal(c: string, k: Collector, done: seq<File>, e: Step, f: File)
    requires CollectorInv(c, k, done) && k.spool == [f] && f !in done
    ensures Local(c, k, e).spool == k.spool && Local(c, k, e).queued == k.queued
  {
    assert k.queued[|k.queued| - 1] == f;
    assert f in k.queued && done != k.queued;
  }

  /** The server rejects it however often it arrives, and keeps the other snapshot. */
  lemma BlockedServer(server: Server, g: File, accepts: bool, f: File)
    requires ServerInv(server) && f !in server.committed && f.sequence in server.rows
    ensures var after := Ingested(server, g, Ingest(server, g, accepts));
            f !in after.committed && f.sequence in after.rows
    ensures !Succeeds(Ingest(server, f, accepts))
  {
    hide Replayed;
  }

  lemma BlockedStep(t: System, c: string, f: File, e: Step)
    requires Blocked(t, c, f)
    ensures Blocked(Next(t, e), c, f) && Next(t, e).collectors[c].queued == t.collectors[c].queued
  {
    hide Inv, ServerInv, CollectorInv, Ingest;
    var done := CommitsOf(t.server.committed, c);
    OneCollector(t, c);
    CommitsMembers(t.server.committed, c, f);
    InvServer(t);
    if e.Serve? {
      ServeStep(t, e);
      BlockedServer(t.server, e.f, e.accepts, f);
    } else {
      CollectorStep(t, e);
      BlockedLocal(c, t.collectors[c], done, e, f);
    }
  }

  lemma InvServer(t: System)
    requires Inv(t)
    ensures ServerInv(t.server)
  {
  }

  lemma {:induction false} BlockedExec(t: System, more: seq<Step>, c: string, f: File)
    requires Blocked(t, c, f)
    ensures Blocked(Exec(t, more), c, f) && Exec(t, more).collectors[c].queued == t.collectors[c].queued
  {
    hide Blocked, Next;
    if more != [] {
      var n := |more| - 1;
      BlockedExec(t, more[..n], c, f);
      BlockedStep(Exec(t, more[..n]), c, f, more[n]);
    }
  }

  lemma {:induction false} ExecConcat(s: System, es: seq<Step>, more: seq<Step>)
    ensures Exec(s, es + more) == Exec(Exec(s, es), more)
  {
    hide Next;
    if more == [] {
      assert es + more == es;
    } else {
      var n := |more| - 1;
      ExecConcat(s, es, more[..n]);
      assert (es + more)[..|es + more| - 1] == es + more[..n];
    }
  }

  /** Once another connector has committed the sequence number of a spooled snapshot, then
      whatever happens next, that snapshot is never committed and never leaves the spool, and
      its collector never publishes again. */
  lemma CollisionIsPermanent(s: System, es: seq<Step>, more: seq<Step>, c: string, f: File, g: File)
    requires Initial(s) && c in Exec(s, es).collectors && f in Exec(s, es).collectors[c].spool
    requires g in Exec(s, es).server.committed && g.sequence == f.sequence && g != f
    ensures var t, u := Exec(s, es), Exec(s, es + more);
            && c in u.collectors && f !in u.server.committed
            && u.collectors[c].spool == [f] && u.collectors[c].queued == t.collectors[c].queued
  {
    hide Exec, Inv, ServerInv, CollectorInv;
    var t := Exec(s, es);
    ExecInv(s, es);
    CollisionBlocks(t, c, f, g);
    BlockedExec(t, more, c, f);
    ExecConcat(s, es, more);
  }

  lemma CollisionBlocks(t: System, c: string, f: File, g: File)
    requires Inv(t) && c in t.collectors && f in t.collectors[c].spool
    requires g in t.server.committed && g.sequence == f.sequence && g != f
    ensures Blocked(t, c, f)
  {
    hide CollectorInv, Sent;
    OneCollector(t, c);
    SpoolOfOne(c, t.collectors[c], CommitsOf(t.server.committed, c), f);
  }

  lemma SpoolOfOne(c: string, k: Collector, done: seq<File>, f: File)
    requires CollectorInv(c, k, done) && f in k.spool
    ensures k.spool == [f]
  {
  }

  // ---------- a refused snapshot blocks its collector ----------

  /** The spool of `c` holds `f`, which is not committed. */
  ghost predicate Waits(t: System, c: string, f: File) {
    Inv(t) && c in t.collectors && t.collectors[c].spool == [f] && f !in t.server.committed
  }

  /** The server lets `f` through: it passes the checks before the transaction, such as the age of
      the snapshot, and reconciliation accepts it. */
  predicate LetsThrough(e: Step, f: File) {
    e.Serve? && e.f == f && e.gate && e.accepts
  }

  lemma RefusedServer(server: Server, g: File, accepts: bool, f: File)
    requires f !in server.committed && !(g == f && accepts)
    ensures f !in Ingested(server, g, Ingest(server, g, accepts)).committed
  {
    hide Replayed;
  }

  lemma WaitsStep(t: System, c: string, f: File, e: Step)
    requires Waits(t, c, f) && !LetsThrough(e, f)
    ensures Waits(Next(t, e), c, f) && Next(t, e).collectors[c].queued == t.collectors[c].queued
  {
    hide Inv, CollectorInv, Ingest;
    var done := CommitsOf(t.server.committed, c);
    OneCollector(t, c);
    CommitsMembers(t.server.committed, c, f);
    if e.Serve? {
      ServeStep(t, e);
      if e.gate {
        RefusedServer(t.server, e.f, e.accepts, f);
      }
    } else {
      CollectorStep(t, e);
      BlockedLocal(c, t.collectors[c], done, e, f);
    }
  }

  lemma {:induction false} WaitsExec(t: System, more: seq<Step>, c: string, f: File)
    requires Waits(t, c, f) && forall e :: e in more ==> !LetsThrough(e, f)
    ensures Waits(Exec(t, more), c, f) && Exec(t, more).collectors[c].queued == t.collectors[c].queued
  {
    hide Waits, Next, LetsThrough;
    if more != [] {
      var n := |more| - 1;
      assert more[n] in more;
      WaitsExec(t, more[..n], c, f);
      WaitsStep(Exec(t, more[..n]), c, f, more[n]);
    }
  }

  /** As long as the server does not let a spooled snapshot through, whatever else happens, it is
      not committed and stays in the spool, and its collector publishes nothing. */
  lemma RefusalBlocks(s: System, es: seq<Step>, more: seq<Step>, c: string, f: File)
    requires Initial(s) && c in Exec(s, es).collectors && f in Exec(s, es).collectors[c].spool
    requires f !in Exec(s, es).server.committed && forall e :: e in more ==> !LetsThrough(e, f)
    ensures var t, u := Exec(s, es), Exec(s, es + more);
            && c in u.collectors && f !in u.server.committed
            && u.collectors[c].spool == [f] && u.collectors[c].queued == t.collectors[c].queued
  {
    hide Exec, Inv, CollectorInv, LetsThrough;
    var t := Exec(s, es);
    ExecInv(s, es);
    OneCollector(t, c);
    SpoolOfOne(c, t.collectors[c], CommitsOf(t.server.committed, c), f);
    WaitsExec(t, more, c, f);
    ExecConcat(s, es, more);
  }

  // ---------- a collision happens ----------

  function Publishing(c: string, now: int, body: string): seq<Step> {
    [Wake(c), FlushDone(c), Allocate(c, now), Enqueue(c, body), Send(c)]
  }

  /** What a collector with an empty spool does when its clock shows `now`. */
  lemma Publishes(s: System, c: string, now: int, body: string)
    requires c in s.collectors && s.collectors[c].phase.Sleeping? && s.collectors[c].spool == []
    requires s.collectors[c].sequenceFile < now
    ensures var k := s.collectors[c];
            var f := File(k.org, c, now, body);
            var after := Collector(k.org, now, [f], Waiting([f], false), k.queued + [f]);
            Exec(s, Publishing(c, now, body)) == s.(collectors := s.collectors[c := after],
            requests := s.requests + {f})
  {
    hide Exec;
    var k := s.collectors[c];
    var f := File(k.org, c, now, body);
    var s1 := Put(s, c, Advance(k, Flushing([], true)));
    var s2 := Put(s, c, Advance(k, Discovering));
    var s3 := Put(s, c, k.(sequenceFile := now, phase := Holding(now)));
    var s4 := Put(s, c, Collector(k.org, now, [f], Flushing([f], false), k.queued + [f]));
    assert Next(s, Wake(c)) == s1;
    assert Next(s1, FlushDone(c)) == s2;
    assert Next(s2, Allocate(c, now)) == s3;
    assert Insert([], f) == [f] && s3.collectors[c].spool == [];
    assert Next(s3, Enqueue(c, body)) == s4;
    FiveSteps(s, Wake(c), FlushDone(c), Allocate(c, now), Enqueue(c, body), Send(c));
  }

  lemma FiveSteps(s: System, a: Step, b: Step, c: Step, d: Step, e: Step)
    ensures Exec(s, [a, b, c, d, e]) == Next(Next(Next(Next(Next(s, a), b), c), d), e)
  {
    hide Next;
    assert [a, b, c, d, e][..4] == [a, b, c, d] && [a, b, c, d][..3] == [a, b, c] && [a, b, c][..2] == [a, b]
           && [a, b][..1] == [a] && [a][..0] == [];
    assert Exec(s, [a]) == Next(s, a);
    assert Exec(s, [a, b]) == Next(Exec(s, [a]), b);
    assert Exec(s, [a, b, c]) == Next(Exec(s, [a, b]), c);
    assert Exec(s, [a, b, c, d]) == Next(Exec(s, [a, b, c]), d);
  }

  function Enrolled(org: string): Collector {
    Collector(org, 0, [], Sleeping, [])
  }

  /** Two collectors of these organizations with empty directories. */
  function Two(org: string, other: string): System {
    System(map["a" := Enrolled(org), "b" := Enrolled(other)], Server(map[], []), {}, {})
  }

  function Colliding(org: string, other: string, now: int): seq<Step> {
    Publishing("a", now, "x") + [Serve(File(org, "a", now, "x"), true, true, true)] + Publishing("b", now, "y")
  }

  /** Both collectors read the same clock. The first snapshot is committed; the second is
      answered with a conflict in the same organization and rejected in another one. */
  lemma CollisionHappens(org: string, other: string, now: int)
    requires now >= 1
    ensures var t, f := Exec(Two(org, other), Colliding(org, other, now)), File(other, "b", now, "y");
            && Initial(Two(org, other)) && "b" in t.collectors && t.collectors["b"].spool == [f] && f in t.requests
            && t.server.committed == [File(org, "a", now, "x")]
            && Ingest(t.server, f, true) == (if org == other then Conflict else Rejected)
  {
    hide Exec, Next;
    var s, first := Two(org, other), File(org, "a", now, "x");
    Publishes(s, "a", now, "x");
    var s1 := Exec(s, Publishing("a", now, "x"));
    var serve := Serve(first, true, true, true);
    FirstServed(s1, first);
    var s2 := Next(s1, serve);
    assert Exec(s1, [serve]) == s2 by { OneStep(s1, serve); }
    ExecConcat(s, Publishing("a", now, "x"), [serve]);
    Publishes(s2, "b", now, "y");
    ExecConcat(s, Publishing("a", now, "x") + [serve], Publishing("b", now, "y"));
  }

  lemma OneStep(s: System, e: Step)
    ensures Exec(s, [e]) == Next(s, e)
  {
    hide Next;
    assert [e][..0] == [];
  }

  lemma FirstServed(s: System, f: File)
    requires f in s.requests && s.server == Server(map[], []) && f.sequence >= 1
    ensures Next(s, Serve(f, true, true, true))
         == s.(server := Server(map[f.sequence := f], [f]), responses := s.responses + {(f, true)})
  {
  }
}
