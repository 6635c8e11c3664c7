/** What one sweep achieves on the table, and why no due job can be starved by later ones. */
module SweepRules {
  import opened Types
  import opened JobRow
  import opened JobStore
  import opened DrainRules

  /** The non-terminal jobs due at `now`. */
  function Due(rows: Rows, now: Time): set<JobId> {
    set id | id in rows && !rows[id].status.Terminal() && rows[id].expiresAt <= now
  }

  /** The other non-terminal jobs that expire no later than `id`. */
  function Rivals(rows: Rows, id: JobId): set<JobId>
    requires id in rows
  {
    set k | k in rows && k != id && !rows[k].status.Terminal() && rows[k].expiresAt <= rows[id].expiresAt
  }

  /** `r1` is a later version of `r0` over the same jobs in which exactly `ended` became terminal. */
  ghost predicate EndsExactly(r0: Rows, r1: Rows, ended: set<JobId>) {
    && r1.Keys == r0.Keys && Evolves(r0, r1)
    && forall id :: id in r0 ==> (r1[id].status.Terminal() <==> r0[id].status.Terminal() || id in ended)
  }

  lemma EndsExactlyThen(r0: Rows, r1: Rows, r2: Rows, a: set<JobId>, b: set<JobId>)
    requires EndsExactly(r0, r1, a) && EndsExactly(r1, r2, b)
    ensures EndsExactly(r0, r2, a + b)
  {
    EvolvesTransitive(r0, r1, r2);
  }

  lemma DueAfter(r0: Rows, r1: Rows, ended: set<JobId>, now: Time)
    requires EndsExactly(r0, r1, ended)
    ensures Due(r1, now) == Due(r0, now) - ended
  {
    forall id | id in r0 ensures r1[id].expiresAt == r0[id].expiresAt {
      assert RowEvolves(r0[id], r1[id]);
    }
  }

  lemma PageOfDue(page: seq<Job>, rows: Rows, limit: nat, now: Time)
    requires Keyed(rows) && IsPage(page, rows, DueBy(now), limit)
    ensures Ids(page) <= Due(rows, now) && |Ids(page)| == |page| <= limit
    ensures Due(rows, now) - Ids(page) != {} ==> |page| == limit
  {
    PageFacts(page, rows, DueBy(now), limit);
    hide IsPage, Ids;
    forall id | id in Due(rows, now) - Ids(page) ensures |page| == limit {
      assert Matches(DueBy(now), rows[id]);
    }
  }

  /** Ending the whole first page of due jobs leaves at most the excess due. */
  lemma BatchReducesDue(r0: Rows, r1: Rows, page: seq<Job>, limit: nat, now: Time)
    requires Keyed(r0) && IsPage(page, r0, DueBy(now), limit) && EndsExactly(r0, r1, Ids(page))
    ensures Due(r1, now) == Due(r0, now) - Ids(page)
    ensures |Due(r1, now)| <= if |Due(r0, now)| > limit then |Due(r0, now)| - limit else 0
  {
    hide IsPage, EndsExactly, Ids, Due;
    PageOfDue(page, r0, limit, now);
    DueAfter(r0, r1, Ids(page), now);
    assert |Due(r0, now) - Ids(page)| == |Due(r0, now)| - |Ids(page)|;
  }

  /** One sweep at `now`: every due job is ended, or has at least `batch` fewer rivals than before. */
  ghost predicate SweepStep(r0: Rows, r1: Rows, now: Time, batch: nat) {
    && r1.Keys == r0.Keys && Evolves(r0, r1)
    && forall id :: id in Due(r0, now) ==> r1[id].status.Terminal() || |Rivals(r1, id)| + batch <= |Rivals(r0, id)|
  }

  /** Anything else the broker does at `now`: new jobs expire strictly later than `now`. */
  ghost predicate OtherStep(r0: Rows, r1: Rows, now: Time) {
    && Evolves(r0, r1)
    && forall id :: id in r1 && id !in r0 ==> r1[id].expiresAt > now
  }

  lemma PageIsRivals(page: seq<Job>, rows: Rows, batch: nat, now: Time, id: JobId)
    requires Keyed(rows) && IsPage(page, rows, DueBy(now), batch) && id in Due(rows, now) && id !in Ids(page)
    ensures Ids(page) <= Rivals(rows, id) && |Ids(page)| == batch
  {
    PageFacts(page, rows, DueBy(now), batch);
    assert Matches(DueBy(now), rows[id]);
  }

  lemma RivalsAfter(r0: Rows, r1: Rows, ended: set<JobId>, id: JobId)
    requires EndsExactly(r0, r1, ended) && id in r0
    ensures Rivals(r1, id) <= Rivals(r0, id) - ended
  {
    forall k | k in r0 ensures r1[k].expiresAt == r0[k].expiresAt {
      assert RowEvolves(r0[k], r1[k]);
    }
  }

  lemma SweepMakesProgress(r0: Rows, r1: Rows, page: seq<Job>, batch: nat, now: Time, ended: set<JobId>)
    requires Keyed(r0) && IsPage(page, r0, DueBy(now), batch) && EndsExactly(r0, r1, ended) && Ids(page) <= ended
    ensures SweepStep(r0, r1, now, batch)
  {
    forall id | id in Due(r0, now) && !r1[id].status.Terminal()
      ensures |Rivals(r1, id)| + batch <= |Rivals(r0, id)|
    {
      assert id !in Ids(page);
      PageIsRivals(page, r0, batch, now, id);
      RivalsAfter(r0, r1, ended, id);
      hide Ids, Rivals, IsPage, EndsExactly;
      SubsetSize(Rivals(r1, id), Rivals(r0, id) - Ids(page));
      assert |Rivals(r0, id) - Ids(page)| == |Rivals(r0, id)| - |Ids(page)|;
    }
  }

  lemma OthersAddNoRivals(r0: Rows, r1: Rows, now: Time, id: JobId)
    requires OtherStep(r0, r1, now) && id in Due(r0, now)
    ensures |Rivals(r1, id)| <= |Rivals(r0, id)|
  {
    SubsetSize(Rivals(r1, id), Rivals(r0, id));
  }

  // One step of the broker's life: the table after it, and the clock when it happened.
  datatype Beat = Beat(swept: bool, rows: Rows, now: Time)

  ghost predicate Life(r0: Rows, t0: Time, beats: seq<Beat>, batch: nat)
    decreases |beats|
  {
    beats == [] ||
    var b := beats[0];
    && t0 <= b.now
    && (if b.swept then SweepStep(r0, b.rows, b.now, batch) else OtherStep(r0, b.rows, b.now))
    && Life(b.rows, b.now, beats[1..], batch)
  }

  function Sweeps(beats: seq<Beat>): nat {
    if beats == [] then 0 else (if beats[0].swept then 1 else 0) + Sweeps(beats[1..])
  }

  function Last(r0: Rows, beats: seq<Beat>): Rows {
    if beats == [] then r0 else beats[|beats| - 1].rows
  }

  // The rivals that the sweeps among `beats` take from a due job, at least.
  function Worn(beats: seq<Beat>, batch: nat): nat {
    if beats == [] then 0 else (if beats[0].swept then batch else 0) + Worn(beats[1..], batch)
  }

  lemma {:induction false} WornBySweeps(beats: seq<Beat>, batch: nat)
    ensures Worn(beats, batch) == Sweeps(beats) * batch
  {
    if beats != [] {
      WornBySweeps(beats[1..], batch);
    }
  }

  lemma BeatWearsOff(r0: Rows, b: Beat, t0: Time, batch: nat, id: JobId)
    requires if b.swept then SweepStep(r0, b.rows, b.now, batch) else OtherStep(r0, b.rows, b.now)
    requires t0 <= b.now && id in Due(r0, t0)
    ensures id in b.rows && (b.rows[id].status.Terminal() || id in Due(b.rows, b.now))
    ensures b.rows[id].status.Terminal() ||
            |Rivals(b.rows, id)| + (if b.swept then batch else 0) <= |Rivals(r0, id)|
  {
    assert RowEvolves(r0[id], b.rows[id]);
    assert id in Due(r0, b.now);
    if !b.swept {
      OthersAddNoRivals(r0, b.rows, b.now, id);
    }
  }

  lemma {:induction false} TerminalForLife(r0: Rows, t0: Time, beats: seq<Beat>, batch: nat, id: JobId)
    requires Life(r0, t0, beats, batch) && id in r0 && r0[id].status.Terminal()
    ensures id in Last(r0, beats) && Last(r0, beats)[id].status.Terminal()
    decreases |beats|
  {
    if beats != [] {
      var b := beats[0];
      assert RowEvolves(r0[id], b.rows[id]);
      TerminalForLife(b.rows, b.now, beats[1..], batch, id);
      assert Last(r0, beats) == Last(b.rows, beats[1..]);
    }
  }

  lemma {:induction false} RivalsWearOff(r0: Rows, t0: Time, beats: seq<Beat>, batch: nat, id: JobId)
    requires Life(r0, t0, beats, batch) && id in Due(r0, t0)
    ensures var last := Last(r0, beats);
            id in last && (last[id].status.Terminal() || |Rivals(last, id)| + Worn(beats, batch) <= |Rivals(r0, id)|)
    decreases |beats|
  {
    if beats != [] {
      var b := beats[0];
      BeatWearsOff(r0, b, t0, batch, id);
      assert Last(r0, beats) == Last(b.rows, beats[1..]);
      if b.rows[id].status.Terminal() {
        TerminalForLife(b.rows, b.now, beats[1..], batch, id);
      } else {
        RivalsWearOff(b.rows, b.now, beats[1..], batch, id);
      }
    }
  }

  /** No starvation: whatever else is submitted or done meanwhile, a due job with `r` rivals has ended
      after at most r / batch + 1 sweeps. */
  lemma DueJobsEnd(r0: Rows, t0: Time, beats: seq<Beat>, batch: nat, id: JobId)
    requires Life(r0, t0, beats, batch) && batch > 0 && id in Due(r0, t0)
    requires Sweeps(beats) >= |Rivals(r0, id)| / batch + 1
    ensures id in Last(r0, beats) && Last(r0, beats)[id].status.Terminal()
  {
    RivalsWearOff(r0, t0, beats, batch, id);
    assert Worn(beats, batch) > |Rivals(r0, id)| by {
      WornBySweeps(beats, batch);
      EnoughSweeps(|Rivals(r0, id)|, Sweeps(beats), batch);
    }
  }

  lemma EnoughSweeps(r: nat, sweeps: nat, batch: nat)
    requires batch > 0 && sweeps >= r / batch + 1
    ensures sweeps * batch > r
  {
    assert (r / batch + 1) * batch > r;
    assert sweeps * batch == (r / batch + 1) * batch + (sweeps - (r / batch + 1)) * batch;
  }
}
