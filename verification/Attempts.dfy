/** The executor's attempt journal: which Docket attempts crossed the provider
    boundary, and with what terminal outcome. */
module Attempts {
  import opened Basics
  import opened Custody

  /** The sealed plan. Its identity is a digest, so it is modelled by the plan. */
  datatype ExecutorPlan = ExecutorPlan(dispatch: DispatchId, digest: DispatchDigest, subject: Name, scope: Name)

  datatype DocketDispatch = DocketDispatch(attempt: AttemptId, marker: Name, work: ExecutorPlan, subject: Name,
      scope: Name)

  datatype AttemptState = Reserved | Executing | Success | Failure | Indeterminate

  datatype Receipt =
    | SuccessReceipt(attempt: AttemptId, candidate: CandidateId, evidence: EvidenceRef)
    | FailureReceipt(attempt: AttemptId)
    | IndeterminateReceipt(attempt: AttemptId)
    | PendingReceipt(docket: DocketDispatch, last: AttemptState)

  datatype ExecutorOutcome = ExecutorOutcome(attempt: AttemptId, marker: Name, receipt: Receipt, outcome: AttemptState)

  datatype AttemptRow = AttemptRow(docket: DocketDispatch, state: AttemptState, outcome: Option<ExecutorOutcome>)

  type Journal = map<AttemptId, AttemptRow>

  /** A journal transaction commits a new journal or raises. */
  datatype Entry<+T> = Written(journal: Journal, value: T) | Raised

  // ---------- Transactions ----------

  predicate MarkerUsed(j: Journal, marker: Name) {
    exists a | a in j :: j[a].docket.marker == marker
  }

  /** Reserve an attempt, or replay its stored outcome. */
  function ReserveAttempt(j: Journal, docket: DocketDispatch): Entry<Option<ExecutorOutcome>> {
    if docket.attempt in j then
      if j[docket.attempt].docket != docket then Raised else Written(j, j[docket.attempt].outcome)
    else if MarkerUsed(j, docket.marker) then Raised
    else Written(j[docket.attempt := AttemptRow(docket, AttemptState.Reserved, None)], None)
  }

  function BeginAttempt(j: Journal, docket: DocketDispatch): Entry<()> {
    if docket.attempt !in j || !j[docket.attempt].state.Reserved? then Raised
    else Written(j[docket.attempt := j[docket.attempt].(state := AttemptState.Executing)], ())
  }

  /** Store the terminal outcome once. An equal outcome is replayed, another refused. */
  function FinishAttempt(j: Journal, docket: DocketDispatch, o: ExecutorOutcome): Entry<ExecutorOutcome> {
    if o.attempt != docket.attempt || o.marker != docket.marker then Raised
    else if docket.attempt !in j || j[docket.attempt].docket != docket then Raised
    else
      var row := j[docket.attempt];
      if row.outcome.Some? then
        if row.outcome.value == o then Written(j, o) else Raised
      else Written(j[docket.attempt := row.(state := o.outcome, outcome := Some(o))], o)
  }

  /** Reads durable evidence only. */
  function ReconcileAttempt(j: Journal, docket: DocketDispatch): Option<ExecutorOutcome> {
    if docket.attempt !in j || j[docket.attempt].docket != docket then None
    else if j[docket.attempt].outcome.Some? then j[docket.attempt].outcome
    else Some(ExecutorOutcome(docket.attempt, docket.marker, PendingReceipt(docket, j[docket.attempt].state),
        Indeterminate))
  }

  // ---------- Invariant and forward motion ----------

  predicate Terminal(st: AttemptState) {
    st in {Success, Failure, Indeterminate}
  }

  ghost predicate RowSound(a: AttemptId, row: AttemptRow) {
    && row.docket.attempt == a
    && (row.outcome.Some? <==> Terminal(row.state))
    && (row.outcome.Some? ==> row.outcome.value.attempt == a && row.outcome.value.marker == row.docket.marker
                              && row.outcome.value.outcome == row.state)
  }

  ghost predicate JournalSound(j: Journal) {
    && (forall a | a in j :: RowSound(a, j[a]))
    && (forall a, b | a in j && b in j && a != b :: j[a].docket.marker != j[b].docket.marker)
  }

  /** Rows are never lost, re-opened or re-bound, and a stored outcome never changes. */
  ghost predicate JournalEvolves(j: Journal, k: Journal) {
    forall a | a in j ::
      && a in k
      && k[a].docket == j[a].docket
      && (!j[a].state.Reserved? ==> !k[a].state.Reserved?)
      && (j[a].outcome.Some? ==> k[a] == j[a])
  }

  lemma ReserveAttemptSound(j: Journal, docket: DocketDispatch)
    requires JournalSound(j) && ReserveAttempt(j, docket).Written?
    ensures var k := ReserveAttempt(j, docket).journal; JournalSound(k) && JournalEvolves(j, k)
  {
    if docket.attempt !in j {
      forall a | a in j ensures j[a].docket.marker != docket.marker {
        assert j[a].docket.marker == docket.marker ==> MarkerUsed(j, docket.marker);
      }
    }
  }

  lemma BeginAttemptSound(j: Journal, docket: DocketDispatch)
    requires JournalSound(j) && BeginAttempt(j, docket).Written?
    ensures var k := BeginAttempt(j, docket).journal; JournalSound(k) && JournalEvolves(j, k)
  {
  }

  lemma FinishAttemptSound(j: Journal, docket: DocketDispatch, o: ExecutorOutcome)
    requires JournalSound(j) && FinishAttempt(j, docket, o).Written? && Terminal(o.outcome)
    ensures var k := FinishAttempt(j, docket, o).journal;
            JournalSound(k) && JournalEvolves(j, k) && k[docket.attempt].outcome == Some(o)
  {
  }

  lemma JournalEvolvesTransitive(i: Journal, j: Journal, k: Journal)
    requires JournalEvolves(i, j) && JournalEvolves(j, k)
    ensures JournalEvolves(i, k)
  {
  }

  /** Once an outcome is stored, it is what every later journal, reached by any number
      of writes, reserves, finishes and reconciles to; other outcomes are refused. */
  lemma StoredOutcomeIsFinal(j: Journal, k: Journal, docket: DocketDispatch, o: ExecutorOutcome)
    requires JournalEvolves(j, k)
    requires docket.attempt in j && j[docket.attempt].docket == docket && j[docket.attempt].outcome == Some(o)
    ensures ReserveAttempt(k, docket) == Written(k, Some(o))
    ensures ReconcileAttempt(k, docket) == Some(o)
    ensures forall p :: FinishAttempt(k, docket, p).Written? ==> FinishAttempt(k, docket, p) == Written(k, o) && p == o
  {
    assert k[docket.attempt] == j[docket.attempt];
  }

  /** An attempt is reserved once. A known one is replayed with what is stored, and only
      other facts for it, or a marker that another attempt used, are refused. */
  lemma ReserveExactly(j: Journal, docket: DocketDispatch)
    ensures ReserveAttempt(j, docket).Raised? <==>
              || (docket.attempt in j && j[docket.attempt].docket != docket)
              || (docket.attempt !in j && exists a :: a in j && j[a].docket.marker == docket.marker)
    ensures ReserveAttempt(j, docket).Written? ==>
              if docket.attempt in j then ReserveAttempt(j, docket) == Written(j, j[docket.attempt].outcome)
              else ReserveAttempt(j, docket)
                     == Written(j[docket.attempt := AttemptRow(docket, AttemptState.Reserved, None)], None)
  {
  }

  /** Only the outcome of this very attempt is stored, once; storing it again replays it. */
  lemma FinishExactly(j: Journal, docket: DocketDispatch, o: ExecutorOutcome)
    ensures FinishAttempt(j, docket, o).Written? <==>
              && o.attempt == docket.attempt && o.marker == docket.marker
              && docket.attempt in j && j[docket.attempt].docket == docket
              && j[docket.attempt].outcome in {None, Some(o)}
    ensures FinishAttempt(j, docket, o).Written? ==>
              var row := j[docket.attempt];
              FinishAttempt(j, docket, o)
                == Written(if row.outcome.Some? then j else j[docket.attempt :=
                    AttemptRow(row.docket, o.outcome, Some(o))], o)
  {
  }

  /** Reconciling answers with the stored outcome, or with an indeterminate one that names
      the last durable state: it never makes up a success or a failure. */
  lemma ReconcileExactly(j: Journal, docket: DocketDispatch)
    ensures ReconcileAttempt(j, docket).None? <==> docket.attempt !in j || j[docket.attempt].docket != docket
    ensures ReconcileAttempt(j, docket).Some? ==>
              var row, o := j[docket.attempt], ReconcileAttempt(j, docket).value;
              if row.outcome.Some? then o == row.outcome.value
              else o.attempt == docket.attempt && o.marker == docket.marker && o.outcome == Indeterminate
                   && o.receipt == PendingReceipt(docket, row.state)
    ensures ReconcileAttempt(j, docket).Some? && ReconcileAttempt(j, docket).value.outcome in {Success, Failure} ==>
              j[docket.attempt].outcome == ReconcileAttempt(j, docket)
  {
  }

  lemma BeginsWhenReserved(j: Journal, docket: DocketDispatch)
    ensures BeginAttempt(j, docket).Written? <==> docket.attempt in j && j[docket.attempt].state.Reserved?
  {
  }

  // ---------- The store ----------

  class ExecutorAttemptStore {
    var rows: Journal

    ghost predicate Valid()
      reads this
    {
      JournalSound(rows)
    }

    constructor ()
      ensures Valid() && rows == map[]
    {
      rows := map[];
    }

    method Reserve(docket: DocketDispatch) returns (r: Entry<Option<ExecutorOutcome>>)
      requires Valid()
      modifies this
      ensures Valid() && JournalEvolves(old(rows), rows)
      ensures r == ReserveAttempt(old(rows), docket)
      ensures rows == if r.Written? then r.journal else old(rows)
    {
      if docket.attempt in rows {
        var row := rows[docket.attempt];
        if row.docket != docket { return Raised; }
        if row.outcome.Some? { return Written(rows, row.outcome); }
        return Written(rows, None);
      }
      if MarkerUsed(rows, docket.marker) { return Raised; }
      ReserveAttemptSound(rows, docket);
      rows := rows[docket.attempt := AttemptRow(docket, AttemptState.Reserved, None)];
      return Written(rows, None);
    }

    /** What a caller learns: nothing is known of the attempt; `begin` would commit; a
        terminal outcome is stored, and this is it; or, in the remaining case, a process
        has crossed the provider boundary and left no outcome. */
    method State(attempt: AttemptId) returns (r: Option<AttemptState>)
      requires Valid()
      ensures r.None? <==> attempt !in rows
      ensures forall docket: DocketDispatch | docket.attempt == attempt ::
                r == Some(AttemptState.Reserved) <==> BeginAttempt(rows, docket).Written?
      ensures r.Some? && Terminal(r.value) <==> attempt in rows && rows[attempt].outcome.Some?
      ensures attempt in rows && rows[attempt].outcome.Some? ==> r == Some(rows[attempt].outcome.value.outcome)
    {
      r := if attempt in rows then Some(rows[attempt].state) else None;
    }

    method Begin(docket: DocketDispatch) returns (r: Entry<()>)
      requires Valid()
      modifies this
      ensures Valid() && JournalEvolves(old(rows), rows)
      ensures r == BeginAttempt(old(rows), docket)
      ensures rows == if r.Written? then r.journal else old(rows)
    {
      if docket.attempt !in rows || !rows[docket.attempt].state.Reserved? { return Raised; }
      BeginAttemptSound(rows, docket);
      rows := rows[docket.attempt := rows[docket.attempt].(state := AttemptState.Executing)];
      return Written(rows, ());
    }

    method Finish(docket: DocketDispatch, o: ExecutorOutcome) returns (r: Entry<ExecutorOutcome>)
      requires Valid() && Terminal(o.outcome)
      modifies this
      ensures Valid() && JournalEvolves(old(rows), rows)
      ensures r == FinishAttempt(old(rows), docket, o)
      ensures rows == if r.Written? then r.journal else old(rows)
    {
      if o.attempt != docket.attempt || o.marker != docket.marker { return Raised; }
      if docket.attempt !in rows { return Raised; }
      var row := rows[docket.attempt];
      if row.docket != docket { return Raised; }
      if row.outcome.Some? {
        if row.outcome.value != o { return Raised; }
        return Written(rows, row.outcome.value);
      }
      FinishAttemptSound(rows, docket, o);
      rows := rows[docket.attempt := row.(state := o.outcome, outcome := Some(o))];
      return Written(rows, o);
    }

    /** Never calls the provider and never writes. */
    method Reconcile(docket: DocketDispatch) returns (r: Option<ExecutorOutcome>)
      ensures r == ReconcileAttempt(rows, docket)
    {
      if docket.attempt !in rows { return None; }
      var row := rows[docket.attempt];
      if row.docket != docket { return None; }
      if row.outcome.Some? { return row.outcome; }
      return Some(ExecutorOutcome(docket.attempt, docket.marker, PendingReceipt(docket, row.state), Indeterminate));
    }
  }
}
