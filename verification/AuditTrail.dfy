/** The raw audit trail: what a `loaded_successfully` flag on a raw-record row means. */
module AuditTrail {
  import opened Prelude
  import opened Mapping
  import opened Claims
  import opened Protocol
  import opened RunInvariant
  import opened ProtocolInvariant
  import opened Delivery
  import opened Refinement

  predicate IsMarked(rs: RunState, key: (nat, string)) {
    key in rs.raws && rs.raws[key]
  }

  /** A marked row is a committed page of this very run, with that sequence number and checksum;
      and every page the run recorded has its marked row. */
  lemma {:induction false} MarksAreCommits(env: Env, trace: seq<Action>, id: RunId)
    requires Execute(env, trace).Some? && id in Execute(env, trace).value.runs
    ensures var rs := Execute(env, trace).value.runs[id];
      && (forall key | IsMarked(rs, key) ::
            exists i :: 0 <= i < |rs.hist| && rs.hist[i].run == id && RawKey(env, rs.hist[i]) == key)
      && (forall i | 0 <= i < |rs.hist| && rs.hist[i].run == id && rs.hist[i].recorded ::
            IsMarked(rs, RawKey(env, rs.hist[i])))
  {
    hide Execute, HistOk, DisjointOk, EndsOk, StatusOk;
    Reachable(env, trace);
    assert RunOk(env, id, Execute(env, trace).value.runs[id]);
  }

  /** The commits of a clean chain are numbered 1, 2, 3, ...; all are recorded but one in flight. */
  predicate Numbered(rs: RunState) {
    && |rs.hist| == rs.row.pagesExtracted + (if rs.pending then 1 else 0)
    && (forall i | 0 <= i < |rs.hist| ::
          rs.hist[i].sequence == i + 1 && (rs.hist[i].recorded <==> i < rs.row.pagesExtracted))
  }

  lemma {:induction false} InSequence(env: Env, trace: seq<Action>, id: RunId)
    requires CleanFor(env, trace, id)
    ensures Numbered(Execute(env, trace).value.runs[id])
  {
    hide Execute, Clean, CleanRun, RecordedIn, AuditOk, DisjointOk, EndsOk, StatusOk, Inv;
    var s := Execute(env, trace).value;
    var rs := s.runs[id];
    var n := |rs.hist| - (if rs.pending then 1 else 0);
    CleanHistory(env, trace, id);
    HistoryFacts(env, trace, id);
    if rs.pending {
      Reachable(env, trace);
      InFlight(env, s, id);
      assert RecordedIn(rs.hist) == RecordedIn(rs.hist[..n]) by { LastUnrecorded(rs.hist); }
    } else {
      assert rs.hist[..n] == rs.hist;
    }
    NothingLost(env, s, id);
    RecordedLength(rs.hist[..n]);
    forall i | 0 <= i < n ensures rs.hist[i].sequence == i + 1 && rs.hist[i].recorded {
      RecordedAt(env, rs, n, i);
    }
  }

  lemma {:induction false} NothingLost(env: Env, s: State, id: RunId)
    requires id in s.runs && CleanRun(env, s, id)
    ensures s.runs[id].orphans == 0
  {
    hide Busy, Ended;
  }

  lemma {:induction false} LastUnrecorded(hist: seq<Commit>)
    requires hist != [] && !hist[|hist| - 1].recorded
    ensures RecordedIn(hist) == RecordedIn(hist[..|hist| - 1])
  {
  }

  /** A commit whose checkpoint is still to come is the last one, of the page after the recorded ones. */
  lemma {:induction false} InFlight(env: Env, s: State, id: RunId)
    requires Inv(env, s) && id in s.runs && CleanRun(env, s, id) && s.runs[id].pending
    ensures s.runs[id].hist != []
    ensures var rs := s.runs[id];
      rs.hist[|rs.hist| - 1].sequence == rs.row.pagesExtracted + 1 && !rs.hist[|rs.hist| - 1].recorded
  {
    hide RunsOk, ChainsOk, QueueOk, AtCursor, RunSawEnd, Ended, PcStatusOk, MemOk, Sighted, RawStored;
    var t :| t in s.workers && s.workers[t].msg.run == id && InWindow(env, s, t);
    assert WorkerOk(env, s.runs, s.queue, t, s.workers[t]);
  }

  lemma {:induction false} RecordedAt(env: Env, rs: RunState, n: nat, i: nat)
    requires n <= |rs.hist| && RecordedIn(rs.hist) == rs.hist[..n] && i < n
    requires CountersOk(env, rs.row, RecordedIn(rs.hist))
    ensures rs.hist[i].sequence == i + 1 && rs.hist[i].recorded
  {
    hide RecordedIn;
    var rec := RecordedIn(rs.hist);
    assert Linked(env, rec, i);
    RecordedMembers(rs.hist, rec[i]);
  }

  /** Where no checkpoint was ever lost, at most one version of a page is marked, however many
      versions the source returned and the store kept, and in the middle of a page too. It is the
      version committed, and recorded unless the checkpoint of this page is still to come. */
  lemma {:induction false} OneVersionMarked(env: Env, trace: seq<Action>, id: RunId, key: (nat, string),
      other: (nat, string))
    requires CleanFor(env, trace, id)
    requires var rs := Execute(env, trace).value.runs[id]; IsMarked(rs, key) && IsMarked(rs, other) && key.0 == other.0
    ensures key == other
    ensures var rs := Execute(env, trace).value.runs[id];
      && 1 <= key.0 <= |rs.hist| == rs.row.pagesExtracted + (if rs.pending then 1 else 0)
      && RawKey(env, rs.hist[key.0 - 1]) == key
      && (rs.hist[key.0 - 1].recorded <==> key.0 <= rs.row.pagesExtracted)
  {
    hide Execute, Clean, RecordedIn, MapRecords, RunOk, Chained;
    var rs := Execute(env, trace).value.runs[id];
    MarksAreCommits(env, trace, id);
    InSequence(env, trace, id);
    var i :| 0 <= i < |rs.hist| && rs.hist[i].run == id && RawKey(env, rs.hist[i]) == key;
    var j :| 0 <= j < |rs.hist| && rs.hist[j].run == id && RawKey(env, rs.hist[j]) == other;
    assert i == j;
  }
}
