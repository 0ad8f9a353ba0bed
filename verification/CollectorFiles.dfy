/** The collector's data directory and the snapshot gateway as objects updated in place, proved
    against the functions of module Delivery. */
module CollectorFiles {
  import opened Domain
  import opened Delivery

  /** The snapshot endpoint and its table. */
  class Gateway {
    var rows: map<int, File>
    var committed: seq<File>

    function View(): Server
      reads this
    {
      Server(rows, committed)
    }

    constructor ()
      ensures View() == Server(map[], [])
    {
      rows, committed := map[], [];
    }

    /** One transaction: staged, reconciled and committed together, or not at all. */
    method Snapshot(f: File, accepts: bool) returns (verdict: Verdict)
      modifies this
      ensures verdict == Ingest(old(View()), f, accepts) && View() == Ingested(old(View()), f, verdict)
    {
      if f.sequence in rows && rows[f.sequence].org == f.org {
        return if rows[f.sequence] == f then Idempotent else Conflict;
      }
      if Replayed(View(), f) { return Replay; }
      if f.sequence in rows { return Rejected; }
      rows := rows[f.sequence := f];
      if !accepts {
        rows := rows - {f.sequence};
        assert rows == old(rows);
        return Rejected;
      }
      committed := committed + [f];
      return Committed;
    }
  }

  /** What happens to one post: whether it passes the checks before the transaction, whether
      reconciliation accepts it, and whether the response arrives. */
  datatype Trip = Trip(gate: bool, accepts: bool, answered: bool)

  function TotalSize(spool: seq<File>): nat {
    if spool == [] then 0 else |spool[0].body| + TotalSize(spool[1..])
  }

  /** The server after one post, and whether the collector sees a success. */
  function Answer(server: Server, f: File, trip: Trip): (Server, bool) {
    if !trip.gate then (server, false)
    else
      var verdict := Ingest(server, f, trip.accepts);
      (Ingested(server, f, verdict), Succeeds(verdict) && trip.answered)
  }

  datatype Flushed = Flushed(server: Server, spool: seq<File>, ok: bool)

  /** Posting `files` in order until one is not acknowledged. */
  function Flush(server: Server, files: seq<File>, trips: seq<Trip>): Flushed
    requires |trips| == |files|
    decreases |files|
  {
    if files == [] then Flushed(server, [], true)
    else
      var (next, acknowledged) := Answer(server, files[0], trips[0]);
      if acknowledged then Flush(next, files[1..], trips[1..]) else Flushed(next, files, false)
  }

  lemma AnswerIsSafe(server: Server, f: File, trip: Trip)
    requires ServerInv(server)
    ensures var (next, acknowledged) := Answer(server, f, trip);
            ServerInv(next) && server.committed <= next.committed && (acknowledged ==> f in next.committed)
  {
    hide ServerInv, Ingest;
    if Ingest(server, f, trip.accepts) == Committed {
      IngestKeepsServer(server, f, trip.accepts);
    }
    if Succeeds(Ingest(server, f, trip.accepts)) {
      SucceededIsCommitted(server, f, trip.accepts);
    }
  }

  /** A flush removes a prefix of the spool, every removed file is committed, commits are never
      undone, and it succeeds exactly when nothing is left. */
  lemma {:induction false} FlushIsSafe(server: Server, files: seq<File>, trips: seq<Trip>)
    requires |trips| == |files| && ServerInv(server)
    ensures var r := Flush(server, files, trips);
            && ServerInv(r.server) && server.committed <= r.server.committed
            && |r.spool| <= |files| && r.spool == files[|files| - |r.spool|..]
            && (forall f :: f in files[..|files| - |r.spool|] ==> f in r.server.committed)
            && (r.ok <==> r.spool == [])
    decreases |files|
  {
    hide ServerInv, Answer;
    if files != [] {
      AnswerIsSafe(server, files[0], trips[0]);
      var (next, acknowledged) := Answer(server, files[0], trips[0]);
      if acknowledged {
        FlushIsSafe(next, files[1..], trips[1..]);
        var r := Flush(server, files, trips);
        assert files[|files| - |r.spool|..] == files[1..][|files[1..]| - |r.spool|..];
        assert files[..|files| - |r.spool|] == [files[0]] + files[1..][..|files[1..]| - |r.spool|];
      }
    }
  }

  /** What happens to a file written under a pending name: it is published by the rename, a
      failed or interrupted write leaves some bytes, or a failed rename removes it. */
  datatype Outcome = Published | Torn(bytes: nat) | NotRenamed

  /** `leftover` is the size of the pending files that interrupted writes left behind. */
  class DataDirectory {
    var sequenceFile: int
    var spool: seq<File>
    var leftover: nat

    constructor ()
      ensures sequenceFile == 0 && spool == [] && leftover == 0
    {
      sequenceFile, spool, leftover := 0, [], 0;
    }

    /** The new number exceeds the last one, whatever the clock says, unless the file cannot be
        read, which counts as zero. A failed write allocates nothing. */
    method AllocateSequence(now: int, readable: bool, writes: bool) returns (r: Option<int>)
      modifies this`sequenceFile
      ensures r.Some? <==> writes
      ensures r.Some? ==> r.value == sequenceFile == NextSequence(if readable then old(sequenceFile) else 0, now)
      ensures r.Some? && readable ==> sequenceFile > old(sequenceFile)
      ensures r.Some? && readable ==> sequenceFile == now || sequenceFile == old(sequenceFile) + 1
      ensures r.None? ==> sequenceFile == old(sequenceFile)
    {
      var previous := if readable then sequenceFile else 0;
      var sequence := now;
      if sequence <= previous {
        sequence := previous + 1;
      }
      if !writes { return None; }
      sequenceFile := sequence;
      return Some(sequence);
    }

    /** Publishes a snapshot unless the directory would outgrow its limit or the write fails. */
    method QueueSnapshot(f: File, maxBytes: nat, outcome: Outcome) returns (ok: bool)
      modifies this`spool, this`leftover
      ensures var fits := TotalSize(old(spool)) + old(leftover) + |f.body| <= maxBytes;
              && (ok <==> fits && outcome.Published?)
              && spool == (if ok then Insert(old(spool), f) else old(spool))
              && leftover == old(leftover) + (if fits && outcome.Torn? then outcome.bytes else 0)
      ensures multiset(spool) == multiset(old(spool)) + (if ok then multiset{f} else multiset{})
      ensures Increasing(old(spool)) && NewTo(old(spool), f) ==> Increasing(spool)
    {
      InsertAdds(spool, f);
      if Increasing(spool) && NewTo(spool, f) {
        InsertOrders(spool, f);
      }
      var used := leftover;
      for i := 0 to |spool|
        invariant used + TotalSize(spool[i..]) == TotalSize(spool) + leftover
      {
        used := used + |spool[i].body|;
      }
      if used + |f.body| > maxBytes { return false; }
      match outcome
      case Published =>
        spool := Insert(spool, f);
        return true;
      case Torn(bytes) =>
        leftover := leftover + bytes;
        return false;
      case NotRenamed =>
        return false;
    }

    /** Posts the files in sequence order and removes each once it is acknowledged, stopping at
        the first failure. Only committed snapshots are removed, from the front. */
    method FlushSpool(gateway: Gateway, trips: seq<Trip>) returns (ok: bool)
      requires Increasing(spool) && |trips| == |spool|
      modifies this`spool, gateway
      ensures Flushed(gateway.View(), spool, ok) == Flush(old(gateway.View()), old(spool), trips)
      ensures ServerInv(old(gateway.View())) ==>
                && ServerInv(gateway.View()) && old(gateway.committed) <= gateway.committed
                && |spool| <= |old(spool)| && spool == old(spool)[|old(spool)| - |spool|..]
                && forall f :: f in old(spool)[..|old(spool)| - |spool|] ==> f in gateway.committed
    {
      hide ServerInv, Increasing, Answer;
      var entries := spool;
      if ServerInv(gateway.View()) {
        FlushIsSafe(gateway.View(), spool, trips);
      }
      for i := 0 to |entries|
        invariant spool == entries[i..] && entries == old(spool) && Increasing(entries)
        invariant Flush(gateway.View(), spool, trips[i..]) == Flush(old(gateway.View()), old(spool), trips)
      {
        assert trips[i..][0] == trips[i] && trips[i..][1..] == trips[i + 1..];
        assert spool[0] == entries[i] && spool[1..] == entries[i + 1..];
        RemoveFirst(entries, i);
        var acknowledged := Post(gateway, entries[i], trips[i]);
        if !acknowledged { return false; }
        spool := Without(spool, entries[i]);
      }
      return true;
    }

    static method Post(gateway: Gateway, f: File, trip: Trip) returns (acknowledged: bool)
      modifies gateway
      ensures (gateway.View(), acknowledged) == Answer(old(gateway.View()), f, trip)
    {
      if !trip.gate { return false; }
      var verdict := gateway.Snapshot(f, trip.accepts);
      acknowledged := Succeeds(verdict) && trip.answered;
    }
  }

  lemma {:induction false} InsertAdds(fs: seq<File>, f: File)
    ensures multiset(Insert(fs, f)) == multiset(fs) + multiset{f}
  {
    if fs == [] || f.sequence < fs[0].sequence {
      assert multiset([f] + fs) == multiset{f} + multiset(fs);
    } else {
      InsertAdds(fs[1..], f);
      assert fs == [fs[0]] + fs[1..];
    }
  }

  predicate NewTo(fs: seq<File>, f: File) {
    forall g :: g in fs ==> g.sequence != f.sequence
  }

  lemma {:induction false} InsertOrders(fs: seq<File>, f: File)
    requires Increasing(fs) && NewTo(fs, f)
    ensures Increasing(Insert(fs, f))
  {
    if fs != [] && fs[0].sequence <= f.sequence {
      var rest := Insert(fs[1..], f);
      assert fs[0] in fs && fs[0].sequence < f.sequence;
      InsertOrders(fs[1..], f);
      forall i | 0 <= i < |rest| ensures fs[0].sequence < rest[i].sequence {
        InsertMember(fs[1..], f, rest[i]);
      }
      FirstLeast(fs[0], rest);
    }
  }

  lemma InsertMember(fs: seq<File>, f: File, g: File)
    requires g in Insert(fs, f)
    ensures g in fs || g == f
  {
    InsertAdds(fs, f);
    assert g in multiset(Insert(fs, f));
  }

  lemma FirstLeast(f: File, rest: seq<File>)
    requires Increasing(rest) && forall i :: 0 <= i < |rest| ==> f.sequence < rest[i].sequence
    ensures Increasing([f] + rest)
  {
  }

  lemma {:induction false} WithoutLater(fs: seq<File>, f: File)
    requires forall g :: g in fs ==> g.sequence > f.sequence
    ensures Without(fs, f) == fs
  {
    if fs != [] {
      assert fs[0] in fs;
      WithoutLater(fs[1..], f);
    }
  }

  /** Removing a name from the directory leaves the later files. */
  lemma RemoveFirst(entries: seq<File>, i: nat)
    requires i < |entries| && Increasing(entries)
    ensures Without(entries[i..], entries[i]) == entries[i + 1..]
  {
    assert entries[i..][1..] == entries[i + 1..];
    WithoutLater(entries[i + 1..], entries[i]);
  }
}
