/** The snapshot endpoint on its own: any requests, in any order, from anyone. What it answers
    is a matter of the snapshots it has committed so far. */
module DeliveryReplays {
  import opened Delivery

  /** One call of the endpoint; `accepts` is whether reconciliation accepts the snapshot. */
  datatype Request = Request(f: File, accepts: bool)

  /** The server after the requests, from an empty table. */
  function Served(rs: seq<Request>): Server {
    if rs == [] then Server(map[], [])
    else
      var server, r := Served(rs[..|rs| - 1]), rs[|rs| - 1];
      Ingested(server, r.f, Ingest(server, r.f, r.accepts))
  }

  /** The sequence numbers committed for one connector of one organization, in order. */
  function Numbers(committed: seq<File>, org: string, connector: string): seq<int> {
    if committed == [] then []
    else
      var g := committed[|committed| - 1];
      Numbers(committed[..|committed| - 1], org, connector)
      + (if g.org == org && g.connector == connector then [g.sequence] else [])
  }

  /** The last number committed, or zero. */
  function Last(numbers: seq<int>): int {
    if numbers == [] then 0 else numbers[|numbers| - 1]
  }

  ghost predicate Rising(numbers: seq<int>) {
    && (forall i :: 0 <= i < |numbers| ==> numbers[i] >= 1)
    && (forall i, j :: 0 <= i < j < |numbers| ==> numbers[i] < numbers[j])
  }

  lemma NumbersSnoc(committed: seq<File>, f: File, org: string, connector: string)
    ensures Numbers(committed + [f], org, connector)
         == Numbers(committed, org, connector) + (if f.org == org && f.connector == connector then [f.sequence] else [])
  {
    assert (committed + [f])[..|committed|] == committed;
  }

  lemma {:induction false} NumbersMembers(committed: seq<File>, org: string, connector: string, n: int)
    ensures n in Numbers(committed, org, connector) <==>
            exists g :: g in committed && g.org == org && g.connector == connector && g.sequence == n
  {
    if committed != [] {
      var m := |committed| - 1;
      NumbersMembers(committed[..m], org, connector, n);
      assert committed == committed[..m] + [committed[m]];
    }
  }

  /** The search over the table finds a number that is not below exactly when the last one is not. */
  lemma ReplayedIffLast(server: Server, f: File)
    requires ServerInv(server) && Rising(Numbers(server.committed, f.org, f.connector))
    ensures Replayed(server, f) <==> f.sequence <= Last(Numbers(server.committed, f.org, f.connector))
  {
    var numbers := Numbers(server.committed, f.org, f.connector);
    forall n ensures n in numbers <==>
                     exists g :: g in server.committed && g.org == f.org && g.connector == f.connector
                                 && g.sequence == n
    {
      NumbersMembers(server.committed, f.org, f.connector, n);
    }
    if Replayed(server, f) && f.sequence > 0 {
      var i :| i in server.rows && server.rows[i].org == f.org && server.rows[i].connector == f.connector
               && f.sequence <= server.rows[i].sequence;
      assert server.rows[i].sequence in numbers;
    } else if numbers != [] && f.sequence <= Last(numbers) {
      assert Last(numbers) in numbers;
      var g :| g in server.committed && g.org == f.org && g.connector == f.connector && g.sequence == Last(numbers);
      assert server.rows[g.sequence] == g;
    }
  }

  lemma RisingSnoc(numbers: seq<int>, n: int)
    requires Rising(numbers) && n > Last(numbers)
    ensures Rising(numbers + [n])
  {
  }

  lemma ServedStep(server: Server, r: Request, org: string, connector: string)
    requires ServerInv(server) && Rising(Numbers(server.committed, org, connector))
    ensures var next := Ingested(server, r.f, Ingest(server, r.f, r.accepts));
            ServerInv(next) && Rising(Numbers(next.committed, org, connector))
  {
    hide ServerInv, Rising, Numbers, Replayed;
    if Ingest(server, r.f, r.accepts) == Committed {
      IngestKeepsServer(server, r.f, r.accepts);
      NumbersSnoc(server.committed, r.f, org, connector);
      if r.f.org == org && r.f.connector == connector {
        ReplayedIffLast(server, r.f);
        RisingSnoc(Numbers(server.committed, org, connector), r.f.sequence);
      } else {
        assert Numbers(server.committed, org, connector) + [] == Numbers(server.committed, org, connector);
      }
    }
  }

  /** Whatever is requested, the numbers committed for one connector are positive and strictly
      increase. */
  lemma {:induction false} CommittedRise(rs: seq<Request>, org: string, connector: string)
    ensures ServerInv(Served(rs)) && Rising(Numbers(Served(rs).committed, org, connector))
  {
    if rs != [] {
      hide ServerInv, Rising, Numbers, Ingested, Ingest;
      CommittedRise(rs[..|rs| - 1], org, connector);
      ServedStep(Served(rs[..|rs| - 1]), rs[|rs| - 1], org, connector);
    }
  }

  /** Whether a snapshot of the organization was committed under the identifier of `f`. */
  ghost predicate Known(committed: seq<File>, f: File) {
    exists g :: g in committed && g.org == f.org && g.sequence == f.sequence
  }

  /** Whether any snapshot was. */
  ghost predicate Used(committed: seq<File>, f: File) {
    exists g :: g in committed && g.sequence == f.sequence
  }

  /** Every answer, in terms of the snapshots committed before: idempotent for a snapshot that is
      committed; a conflict for other content under an identifier of the organization; a replay
      for any other number that is not above the connector's last; otherwise committed, unless
      the identifier is taken elsewhere or reconciliation rejects the snapshot. */
  lemma AnswersAre(rs: seq<Request>, r: Request)
    ensures var done := Served(rs).committed;
            var stale := r.f.sequence <= Last(Numbers(done, r.f.org, r.f.connector));
            var verdict := Ingest(Served(rs), r.f, r.accepts);
            && (verdict == Idempotent <==> r.f in done)
            && (verdict == Conflict <==> r.f !in done && Known(done, r.f))
            && (verdict == Replay <==> !Known(done, r.f) && stale)
            && (verdict == Committed <==> !Used(done, r.f) && !stale && r.accepts)
            && (verdict == Rejected <==> !Known(done, r.f) && !stale && (Used(done, r.f) || !r.accepts))
  {
    hide Rising, Numbers, Replayed, Served, Last;
    CommittedRise(rs, r.f.org, r.f.connector);
    ReplayedIffLast(Served(rs), r.f);
    RowsAreCommitted(Served(rs), r.f);
  }

  lemma RowsAreCommitted(server: Server, f: File)
    requires ServerInv(server)
    ensures f.sequence in server.rows <==> Used(server.committed, f)
    ensures f.sequence in server.rows && server.rows[f.sequence].org == f.org <==> Known(server.committed, f)
    ensures f.sequence in server.rows && server.rows[f.sequence] == f <==> f in server.committed
  {
  }
}
