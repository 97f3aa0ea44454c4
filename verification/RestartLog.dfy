/** A tick that goes on from a state the log does not agree with: after a restart
    that loaded an older saved state, or for a World Bloom chapter, whose state is
    kept by user while the log is read by rank. */
module RestartLog {
  import opened RankingTables
  import opened RankDiff
  import opened Storage
  import opened Tracker
  import opened SparseLog

  /** Complete rows are named and pairwise differ in rank and in user. */
  ghost predicate Clean(payload: seq<Player>) {
    && DistinctRanks(payload) && DistinctUsers(payload)
    && forall p | p in payload && Complete(p) :: Named(p)
  }

  /** No row stands for the instant yet. */
  ghost predicate NoneAt(t: Tables, time: int) {
    forall k | k in t.rows.event && k.timeId in t.stamps :: t.stamps[k.timeId] != time
  }

  ghost predicate AnswersRow(t: Tables, p: Player)
    requires Complete(p)
  {
    Answers(t, p.rank.value, None, Some(StateOf(p)))
  }

  /** The rows of the payload that a tick writes. */
  ghost predicate Part(rows: seq<Player>, payload: seq<Player>) {
    && (forall p | p in rows :: p in payload && Complete(p))
    && DistinctRanks(rows) && DistinctUsers(rows)
  }

  /** The answer of a rank without a new row is the old one, and the old one only. */
  lemma CarryBack(was: Tables, now: Tables, r: int, st: RankState)
    requires Grows(was, now) && Sound(now) && Referential(was) && Answers(now, r, None, Some(st))
    requires forall k | Candidate(now, r, None, k) :: k in was.rows.event
    ensures Answers(was, r, None, Some(st))
  {
    forall k ensures Candidate(now, r, None, k) <==> Candidate(was, r, None, k) {
      if k in was.rows.event { assert k.timeId in was.stamps; }
    }
    forall j ensures IsLatest(now, r, None, j) <==> IsLatest(was, r, None, j) {}
    var k := RowOf(now, r, None, st);
    assert IsLatest(was, r, None, k);
    var u :| u in was.users && was.users[u].key == k.userKey;
    assert now.users[u].key == now.users[st.userId].key;
    assert IsRow(was, r, None, st, k);
  }

  lemma WrittenIsAnswered(was: Tables, now: Tables, time: int, rows: seq<Player>, p: Player)
    requires Landing(was, now, time, rows) && Tidy(was, time) && NoneAt(was, time)
    requires DistinctRanks(rows) && DistinctUsers(rows) && (forall q | q in rows :: Named(q)) && p in rows
    ensures Complete(p) && AnswersRow(now, p)
  {
    hide Landing, Tidy, IsRow, Answers;
    AllChange(rows);
    assert Faithful(was, map[], time, rows);
    assert map[] + StatesOf(rows) == StatesOf(rows);
    var k := ChangedRowIsLatest(was, now, map[], StatesOf(rows), time, rows, p);
    RowAnswers(now, p.rank.value, StateOf(p), k);
  }

  lemma {:induction false} AllChange(rows: seq<Player>)
    requires forall p | p in rows :: Complete(p)
    ensures ChangedRows(rows, map[]) == rows
  {
    if rows != [] { AllChange(rows[..|rows| - 1]); }
  }

  /** A rank none of the rows is at gets no new row. */
  lemma UnwrittenRank(was: Tables, now: Tables, time: int, rows: seq<Player>, r: int)
    requires Landing(was, now, time, rows) && forall p | p in rows && Complete(p) :: p.rank.value != r
    ensures forall k | Candidate(now, r, None, k) :: k in was.rows.event
  {
    forall k | Candidate(now, r, None, k) ensures k in was.rows.event {
      if k !in was.rows.event { var p := SourceOf(was, now, time, rows, k); }
    }
  }

  /** Once the rows `rows` of a clean payload have landed, the log answers the whole
      payload if and only if it answered the other rows already. */
  lemma WrittenOrAnswered(was: Tables, now: Tables, time: int, payload: seq<Player>, rows: seq<Player>)
    requires Landing(was, now, time, rows) && Tidy(was, time) && NoneAt(was, time)
    requires Clean(payload) && Part(rows, payload)
    ensures (forall p | p in payload && Complete(p) :: AnswersRow(now, p))
       <==> (forall p | p in payload && Complete(p) && p !in rows :: AnswersRow(was, p))
  {
    hide Landing, Tidy, NoneAt, Answers, Candidate, DistinctUsers;
    TidyMeans(was, time);
    LandingGrows(was, now, time, rows);
    forall p | p in payload && Complete(p) ensures AnswersRow(now, p) <==> p in rows || AnswersRow(was, p) {
      if p in rows {
        WrittenIsAnswered(was, now, time, rows, p);
      } else {
        forall q | q in rows && Complete(q) ensures q.rank.value != p.rank.value {
          if q.rank == p.rank { SameRankSameRow(payload, p, q); }
        }
        UnwrittenRank(was, now, time, rows, p.rank.value);
        if AnswersRow(was, p) { CarryAnswer(was, now, p.rank.value, None, Some(StateOf(p))); }
        if AnswersRow(now, p) { CarryBack(was, now, p.rank.value, StateOf(p)); }
      }
    }
  }

  /** A tick that goes on from any state, say an older one that a restart loaded:
      when its clean payload has landed, the log answers the payload if and only if
      it already answered those of its rows that the state takes for unchanged. */
  lemma RestartIsExact(id: PublicId, was: Tables, now: Tables, prev: RankMap, next: RankMap, data: HandledData, records: seq<Record>)
    requires MainLanded(id, data, false, records, was, now, prev, next)
    requires Tidy(was, data.recordTime) && NoneAt(was, data.recordTime) && Clean(data.rankings)
    ensures (forall p | p in data.rankings && Complete(p) :: AnswersRow(now, p))
       <==> (forall p | p in data.rankings && Complete(p) && Entry(prev, p.rank.value) == Some(StateOf(p)) :: AnswersRow(was, p))
  {
    hide MainLanded, Landing, Tidy, NoneAt, AnswersRow;
    TidyMeans(was, data.recordTime);
    MainIsLanding(id, data, false, records, was, now, prev, next);
    ChangedRowsAre(data.rankings, prev);
    ChangedRowsDistinct(data.rankings, prev);
    WrittenOrAnswered(was, now, data.recordTime, data.rankings, ChangedRows(data.rankings, prev));
  }
}
