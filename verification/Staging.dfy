/** Stage, confirm, cancel: the service that holds one unit of work between calls, and its runs. */
module Staging {
  import opened Wrappers
  import opened Orm
  import opened Ledgers
  import opened Transactions
  import opened Scopes

  type Id = nat

  /** What a request did. Stuck is a rollback that raised, so that the pending unit stays pending. */
  datatype Event =
    | Staged(id: Id, ops: seq<Op>)
    | StageFailed(id: Id)
    | Confirmed(id: Id)
    | ConfirmFailed(id: Id)
    | Cancelled(id: Id)
    | NothingPending
    | Stuck

  /** What is committed, the pending unit (always the last one created), how many units have been created,
      which have been closed, and what has happened. */
  datatype Service = Service(db: Store, pending: Option<Unit>, created: nat, closed: seq<Id>, log: seq<Event>)

  /** A request with what goes wrong outside the model: the stage implementation, a rollback or the commit. The body
      of a stage is whatever its repositories send to their sessions, commits and rollbacks included. */
  datatype Request =
    | Stage(body: seq<Command>, implOk: bool, rollbackOk: bool)
    | Confirm(commitOk: bool)
    | Cancel(rollbackOk: bool)

  function Log(s: Service, e: Event): Service { s.(log := s.log + [e]) }

  /** Rolls back and closes the pending unit. */
  function Discard(s: Service): Service
    requires s.pending.Some? && s.created > 0
  {
    s.(pending := None, closed := s.closed + [s.created - 1])
  }

  /** A stage on a new unit, whose repositories are bound to its session. */
  function Open(s: Service, body: seq<Command>, implOk: bool): Service
    requires WellKeyed(s.db.rows)
  {
    NewUnitIsCoherent(s.db.rows);
    var o := ProxiedAll(Work(s.db, NEW_UNIT), body);
    var staged := if implOk && o.ok then FlushUnit(o.work.db.rows, o.work.unit) else None;
    Log(s.(db := o.work.db, pending := staged, created := s.created + 1),
        if staged.Some? then Staged(s.created, OpsOf(body)) else StageFailed(s.created))
  }

  ghost predicate Sound(s: Service) {
    WellKeyed(s.db.rows) && (s.pending.Some? ==> s.created > 0)
  }

  function Handle(s: Service, r: Request): Service
    requires Sound(s)
  {
    match r
    case Stage(body, implOk, rollbackOk) =>
      if s.pending.None? then Open(s, body, implOk)
      else if !rollbackOk then Log(s, Stuck)
      else Open(Discard(s), body, implOk)
    case Confirm(commitOk) =>
      if s.pending.None? then Log(s, NothingPending)
      else
        var after := if commitOk then Committed(s.db, s.pending.value) else None;
        if after.Some? then Log(Discard(s).(db := after.value), Confirmed(s.created - 1))
        else Log(Discard(s), ConfirmFailed(s.created - 1))
    case Cancel(rollbackOk) =>
      if s.pending.None? then Log(s, NothingPending)
      else if !rollbackOk then Log(s, Stuck)
      else Log(Discard(s), Cancelled(s.created - 1))
  }

  // ---------- What a log says was committed ----------

  /** The last event that changed what is pending. */
  function LastMove(log: seq<Event>): Option<Event> {
    if log == [] then None
    else
      var last := log[|log| - 1];
      if last.Stuck? || last.NothingPending? then LastMove(log[..|log| - 1]) else Some(last)
  }

  /** What a log leads to: every confirmation applies the operations of the stage just before it, one by one. */
  function Replayed(db: Store, log: seq<Event>): Store {
    if log == [] then db
    else
      var front, last := log[..|log| - 1], log[|log| - 1];
      var before := Replayed(db, front);
      match (last, LastMove(front))
      case (Confirmed(_), Some(Staged(_, ops))) =>
        (match StoreAll(before, ops) case Some(after) => after case None => before)
      case _ => before
  }

  function StagedIds(log: seq<Event>): seq<Id> {
    if log == [] then []
    else
      var earlier, last := StagedIds(log[..|log| - 1]), log[|log| - 1];
      if last.Staged? then earlier + [last.id] else earlier
  }

  function Confirmations(log: seq<Event>): seq<(Id, Option<Event>)> {
    if log == [] then []
    else
      var front, last := log[..|log| - 1], log[|log| - 1];
      if last.Confirmed? then Confirmations(front) + [(last.id, LastMove(front))] else Confirmations(front)
  }

  /** The closed units are the staged ones that are not pending any more, in order; ids are never reused. */
  ghost predicate Bookkept(s: Service) {
    && StagedIds(s.log) == s.closed + (if s.pending.Some? then [s.created - 1] else [])
    && (forall i :: 0 <= i < |StagedIds(s.log)| ==> StagedIds(s.log)[i] < s.created)
    && (forall i, j :: 0 <= i < j < |StagedIds(s.log)| ==> StagedIds(s.log)[i] < StagedIds(s.log)[j])
  }

  /** Every confirmation follows the very stage it names. */
  ghost predicate Confirming(log: seq<Event>) {
    forall i :: 0 <= i < |Confirmations(log)| ==>
      var c := Confirmations(log)[i]; c.1.Some? && c.1.value.Staged? && c.1.value.id == c.0
  }

  /** Holds after every request: what is committed is the replayed log, and what is pending is the last stage, made on
      what is committed. */
  ghost predicate Invariant(db0: Store, s: Service) {
    && Sound(s)
    && s.db == Replayed(db0, s.log)
    && Confirming(s.log)
    && Bookkept(s)
    && (s.pending.Some? <==> LastMove(s.log).Some? && LastMove(s.log).value.Staged?)
    && (s.pending.Some? ==> var e := LastMove(s.log).value;
          e.id == s.created - 1 && StageUnit(s.db.rows, e.ops) == s.pending)
  }

  lemma {:induction false} TableAllKeepsKeys(t: Table, ops: seq<Op>)
    requires WellKeyed(t) && TableAll(t, ops).Some?
    ensures WellKeyed(TableAll(t, ops).value)
    decreases |ops|
  {
    if ops != [] {
      TableOpKeepsKeys(t, ops[0]);
      TableAllKeepsKeys(TableOp(t, ops[0]).value, ops[1..]);
    }
  }

  /** Committing a staged unit applies exactly its operations: the commit's own flush finds nothing to do. */
  lemma CommitAppliesStage(db: Store, ops: seq<Op>)
    requires WellKeyed(db.rows) && StageUnit(db.rows, ops).Some?
    ensures StoreAll(db, ops).Some? && Committed(db, StageUnit(db.rows, ops).value) == StoreAll(db, ops)
    ensures WellKeyed(StoreAll(db, ops).value.rows)
  {
    StagedStands(db.rows, ops);
    var l := NoteAll(Opened(db.rows), ops).value;
    CommitRepresented(db, StageUnit(db.rows, ops).value, FlushNoted(l, l.table, Flush));
    FlushKeepsView(db.links, l, l.table, Flush);
    LedgerTable(Opened(db.rows), ops);
    TableAllKeepsKeys(db.rows, ops);
  }

  lemma LogSnoc(db: Store, log: seq<Event>, e: Event)
    ensures (log + [e])[..|log|] == log
    ensures LastMove(log + [e]) == if e.Stuck? || e.NothingPending? then LastMove(log) else Some(e)
    ensures StagedIds(log + [e]) == if e.Staged? then StagedIds(log) + [e.id] else StagedIds(log)
    ensures Confirmations(log + [e]) ==
            if e.Confirmed? then Confirmations(log) + [(e.id, LastMove(log))] else Confirmations(log)
    ensures !e.Confirmed? ==> Replayed(db, log + [e]) == Replayed(db, log)
  {
    assert (log + [e])[..|log|] == log;
  }

  lemma IdleKeepsInvariant(db0: Store, s: Service, e: Event)
    requires Invariant(db0, s) && (e.Stuck? || e.NothingPending?)
    ensures Invariant(db0, Log(s, e))
  {
    LogSnoc(db0, s.log, e);
  }

  lemma DiscardIsBookkept(s: Service, db: Store, e: Event)
    requires Bookkept(s) && s.pending.Some? && s.created > 0 && !e.Staged?
    ensures Bookkept(Log(Discard(s).(db := db), e)) && Bookkept(Discard(s))
  {
    LogSnoc(db, s.log, e);
  }

  lemma OpenIsBookkept(s: Service, pending: Option<Unit>, e: Event)
    requires Bookkept(s) && s.pending.None?
    requires if pending.Some? then e.Staged? && e.id == s.created else !e.Staged?
    ensures Bookkept(Log(s.(pending := pending, created := s.created + 1), e))
  {
    LogSnoc(s.db, s.log, e);
  }

  lemma DiscardKeepsInvariant(db0: Store, s: Service, e: Event)
    requires Invariant(db0, s) && s.pending.Some? && (e.Cancelled? || e.ConfirmFailed?)
    ensures Invariant(db0, Log(Discard(s), e))
  {
    LogSnoc(db0, s.log, e);
    DiscardIsBookkept(s, s.db, e);
  }

  /** The invariant of a service with nothing pending, its unit just discarded perhaps. */
  ghost predicate Vacant(db0: Store, s: Service) {
    WellKeyed(s.db.rows) && s.db == Replayed(db0, s.log) && Confirming(s.log) && s.pending.None? && Bookkept(s)
  }

  lemma ConfirmKeepsInvariant(db0: Store, s: Service)
    requires Invariant(db0, s) && s.pending.Some?
    ensures Committed(s.db, s.pending.value).Some?
    ensures Invariant(db0, Log(Discard(s).(db := Committed(s.db, s.pending.value).value), Confirmed(s.created - 1)))
  {
    var stage := LastMove(s.log).value;
    CommitAppliesStage(s.db, stage.ops);
    var after := StoreAll(s.db, stage.ops).value;
    LogConfirmation(db0, s.log, stage, after);
    DiscardIsBookkept(s, after, Confirmed(stage.id));
    ConfirmedIsInvariant(db0, Log(Discard(s).(db := after), Confirmed(stage.id)));
  }

  lemma LogConfirmation(db0: Store, log: seq<Event>, stage: Event, after: Store)
    requires stage.Staged? && LastMove(log) == Some(stage) && Confirming(log)
    requires StoreAll(Replayed(db0, log), stage.ops) == Some(after)
    ensures Replayed(db0, log + [Confirmed(stage.id)]) == after && Confirming(log + [Confirmed(stage.id)])
    ensures LastMove(log + [Confirmed(stage.id)]) == Some(Confirmed(stage.id))
  {
    LogSnoc(db0, log, Confirmed(stage.id));
  }

  lemma ConfirmedIsInvariant(db0: Store, s: Service)
    requires Vacant(db0, s) && LastMove(s.log).Some? && LastMove(s.log).value.Confirmed?
    ensures Invariant(db0, s)
  {
  }

  /** A stage makes a unit of its operations, and leaves the table as it is. */
  lemma OpenStages(s: Service, body: seq<Command>, implOk: bool)
    requires WellKeyed(s.db.rows)
    ensures var staged := if implOk then StageUnit(s.db.rows, OpsOf(body)) else None;
      Open(s, body, implOk) ==
      Log(s.(pending := staged, created := s.created + 1),
          if staged.Some? then Staged(s.created, OpsOf(body)) else StageFailed(s.created))
  {
    NewUnitIsCoherent(s.db.rows);
    ProxyLeavesTable(Work(s.db, NEW_UNIT), body);
    ProxyPerformsAll(Work(s.db, NEW_UNIT), body);
  }

  /** What a request to stage does to the table and to what is pending. */
  lemma StageHandled(s: Service, body: seq<Command>, implOk: bool, rollbackOk: bool)
    requires Sound(s)
    ensures var t := Handle(s, Stage(body, implOk, rollbackOk));
      t.db == s.db && t.pending == if s.pending.Some? && !rollbackOk then s.pending
                                   else if implOk then StageUnit(s.db.rows, OpsOf(body)) else None
  {
    OpenStages(if s.pending.None? then s else Discard(s), body, implOk);
  }

  /** What a confirmation does to the table and to what is pending. */
  lemma ConfirmHandled(s: Service, commitOk: bool)
    requires Sound(s)
    ensures var t := Handle(s, Confirm(commitOk));
      var after := if s.pending.None? then None else Committed(s.db, s.pending.value);
      t.pending == None && t.db == if commitOk && after.Some? then after.value else s.db
  {
  }

  lemma CancelHandled(s: Service, rollbackOk: bool)
    requires Sound(s)
    ensures var t := Handle(s, Cancel(rollbackOk)); t.db == s.db && t.pending == if rollbackOk then None else s.pending
  {
  }

  lemma OpenKeepsInvariant(db0: Store, s: Service, body: seq<Command>, implOk: bool)
    requires Vacant(db0, s)
    ensures Invariant(db0, Open(s, body, implOk))
  {
    OpenStages(s, body, implOk);
    var staged := if implOk then StageUnit(s.db.rows, OpsOf(body)) else None;
    var e := if staged.Some? then Staged(s.created, OpsOf(body)) else StageFailed(s.created);
    LogSnoc(db0, s.log, e);
    OpenIsBookkept(s, staged, e);
  }

  lemma StageKeepsInvariant(db0: Store, s: Service, body: seq<Command>, implOk: bool, rollbackOk: bool)
    requires Invariant(db0, s)
    ensures Invariant(db0, Handle(s, Stage(body, implOk, rollbackOk)))
  {
    if s.pending.None? {
      OpenKeepsInvariant(db0, s, body, implOk);
    } else if rollbackOk {
      DiscardIsBookkept(s, s.db, Stuck);
      OpenKeepsInvariant(db0, Discard(s), body, implOk);
    } else {
      IdleKeepsInvariant(db0, s, Stuck);
    }
  }

  lemma HandleKeepsInvariant(db0: Store, s: Service, r: Request)
    requires Invariant(db0, s)
    ensures Invariant(db0, Handle(s, r))
  {
    if r.Stage? {
      StageKeepsInvariant(db0, s, r.body, r.implOk, r.rollbackOk);
    } else if s.pending.None? {
      IdleKeepsInvariant(db0, s, NothingPending);
    } else if r.Confirm? {
      if r.commitOk {
        ConfirmKeepsInvariant(db0, s);
      } else {
        DiscardKeepsInvariant(db0, s, ConfirmFailed(s.created - 1));
      }
    } else if r.rollbackOk {
      DiscardKeepsInvariant(db0, s, Cancelled(s.created - 1));
    } else {
      IdleKeepsInvariant(db0, s, Stuck);
    }
  }

  ghost function HandleAll(db0: Store, s: Service, rs: seq<Request>): (t: Service)
    requires Invariant(db0, s)
    ensures Invariant(db0, t)
    decreases |rs|
  {
    if rs == [] then s
    else
      HandleKeepsInvariant(db0, s, rs[0]);
      HandleAll(db0, Handle(s, rs[0]), rs[1..])
  }

  function Start(db: Store): Service { Service(db, None, 0, [], []) }

  lemma {:induction false} HandleAllSnoc(db0: Store, s: Service, rs: seq<Request>, r: Request)
    requires Invariant(db0, s)
    ensures HandleAll(db0, s, rs + [r]) == Handle(HandleAll(db0, s, rs), r)
    decreases |rs|
  {
    if rs == [] {
      assert [] + [r] == [r] && [r][1..] == [];
    } else {
      HandleKeepsInvariant(db0, s, rs[0]);
      assert (rs + [r])[1..] == rs[1..] + [r];
      HandleAllSnoc(db0, Handle(s, rs[0]), rs[1..], r);
    }
  }

  lemma StartIsInvariant(db: Store)
    requires WellKeyed(db.rows)
    ensures Invariant(db, Start(db))
  {
  }

  /** Some sequence of requests leads to this state. */
  ghost predicate Reachable(db: Store, s: Service)
    requires WellKeyed(db.rows)
  {
    StartIsInvariant(db);
    exists rs :: HandleAll(db, Start(db), rs) == s
  }

  lemma StartIsReachable(db: Store)
    requires WellKeyed(db.rows)
    ensures Reachable(db, Start(db))
  {
    StartIsInvariant(db);
    assert HandleAll(db, Start(db), []) == Start(db);
  }

  lemma ReachableIsSound(db: Store, s: Service)
    requires WellKeyed(db.rows) && Reachable(db, s)
    ensures Invariant(db, s)
  {
    StartIsInvariant(db);
    var rs :| HandleAll(db, Start(db), rs) == s;
  }

  lemma NextIsReachable(db: Store, s: Service, r: Request)
    requires WellKeyed(db.rows) && Reachable(db, s) && Sound(s)
    ensures Reachable(db, Handle(s, r))
  {
    StartIsInvariant(db);
    var rs :| HandleAll(db, Start(db), rs) == s;
    HandleAllSnoc(db, Start(db), rs, r);
    assert HandleAll(db, Start(db), rs + [r]) == Handle(s, r);
  }

  /** Every request leads from a reachable state to another. */
  lemma HandleReaches(db: Store, s: Service, r: Request)
    requires WellKeyed(db.rows) && Reachable(db, s)
    ensures Sound(s) && Sound(Handle(s, r)) && Reachable(db, Handle(s, r))
  {
    ReachableIsSound(db, s);
    NextIsReachable(db, s, r);
    ReachableIsSound(db, Handle(s, r));
  }

  /** What is pending in a reachable state can be committed. */
  lemma PendingCommits(db: Store, s: Service)
    requires WellKeyed(db.rows) && Reachable(db, s)
    ensures s.pending.Some? ==> Coherent(s.db.rows, s.pending.value.session) && Committed(s.db, s.pending.value).Some?
  {
    ReachableIsSound(db, s);
    if s.pending.Some? {
      ConfirmKeepsInvariant(db, s);
      StagedIsSequential(s.db.rows, LastMove(s.log).value.ops);
    }
  }

  /** Over every sequence of stage, confirm and cancel, whatever fails: the committed table is the initial one plus
      the operations of the confirmed stages, each the latest one and not cancelled, in order; and every staged unit
      that is no longer pending has been closed exactly once, no other unit ever. */
  lemma StagingRuns(db: Store, rs: seq<Request>)
    requires WellKeyed(db.rows)
    ensures Invariant(db, Start(db))
    ensures var t := HandleAll(db, Start(db), rs);
      && t.db == Replayed(db, t.log)
      && (forall id :: multiset(t.closed)[id] ==
            if id in StagedIds(t.log) && !(t.pending.Some? && id == t.created - 1) then 1 else 0)
  {
    var t := HandleAll(db, Start(db), rs);
    forall id {
      ClosedOnce(t, id);
    }
  }

  lemma ClosedOnce(s: Service, id: Id)
    requires Bookkept(s) && (s.pending.Some? ==> s.created > 0)
    ensures multiset(s.closed)[id] ==
            if id in StagedIds(s.log) && !(s.pending.Some? && id == s.created - 1) then 1 else 0
  {
    var ids := StagedIds(s.log);
    assert s.closed == ids[..|s.closed|];
    assert id in ids <==> id in s.closed || (s.pending.Some? && id == s.created - 1);
    assert s.pending.Some? ==> ids[|s.closed|] == s.created - 1;
    CountInIncreasing(s.closed, id);
  }

  lemma {:induction false} CountInIncreasing(s: seq<Id>, id: Id)
    requires forall i, j :: 0 <= i < j < |s| ==> s[i] < s[j]
    ensures multiset(s)[id] == if id in s then 1 else 0
  {
    if s != [] {
      var front, last := s[..|s| - 1], s[|s| - 1];
      assert s == front + [last];
      CountInIncreasing(front, id);
    }
  }

  /** Only a confirmation changes the committed table: nothing staged is visible before, whatever the repositories
      commit or roll back on their sessions. */
  lemma OnlyConfirmChangesTable(db0: Store, s: Service, r: Request)
    requires Invariant(db0, s)
    ensures r.Confirm? && r.commitOk && s.pending.Some? ==>
      Some(Handle(s, r).db) == StoreAll(s.db, LastMove(s.log).value.ops)
    ensures !(r.Confirm? && r.commitOk && s.pending.Some?) ==> Handle(s, r).db == s.db
  {
    match r
    case Stage(body, implOk, _) => OpenStages(if s.pending.None? then s else Discard(s), body, implOk);
    case Confirm(_) =>
      if s.pending.Some? {
        CommitAppliesStage(s.db, LastMove(s.log).value.ops);
      }
    case Cancel(_) =>
  }

  /** A stage that fails leaves nothing pending, and its unit is never closed. */
  lemma FailedStageIsNeverClosed(db0: Store, s: Service, r: Request, rest: seq<Request>)
    requires Invariant(db0, s) && r.Stage?
    requires var e := Handle(s, r).log[|s.log|]; e.StageFailed?
    ensures Invariant(db0, Handle(s, r)) && Handle(s, r).pending == None
    ensures var id := Handle(s, r).log[|s.log|].id; id == s.created && id !in HandleAll(db0, Handle(s, r), rest).closed
  {
    HandleKeepsInvariant(db0, s, r);
    var t, id := Handle(s, r), s.created;
    NeverStagedLater(db0, t, rest, id);
    var f := HandleAll(db0, t, rest);
    forall i | 0 <= i < |f.closed| ensures f.closed[i] != id {
      assert StagedIds(f.log)[i] == f.closed[i];
    }
  }

  lemma {:induction false} NeverStagedLater(db0: Store, s: Service, rs: seq<Request>, id: Id)
    requires Invariant(db0, s) && id < s.created && id !in StagedIds(s.log)
    ensures id !in StagedIds(HandleAll(db0, s, rs).log)
    decreases |rs|
  {
    if rs != [] {
      HandleKeepsInvariant(db0, s, rs[0]);
      NextStage(s, rs[0], id);
      NeverStagedLater(db0, Handle(s, rs[0]), rs[1..], id);
    }
  }

  /** Every request leaves one entry in the log, which says what came of it. */
  lemma EveryRequestIsLogged(s: Service, r: Request)
    requires Sound(s)
    ensures var t := Handle(s, r);
      t.log == s.log + [if r.Stage? then
                          (if s.pending.Some? && !r.rollbackOk then Stuck
                           else if t.pending.Some? then Staged(s.created, OpsOf(r.body)) else StageFailed(s.created))
                        else if s.pending.None? then NothingPending
                        else if r.Cancel? then (if r.rollbackOk then Cancelled(s.created - 1) else Stuck)
                        else if r.commitOk && Committed(s.db, s.pending.value).Some? then Confirmed(s.created - 1)
                        else ConfirmFailed(s.created - 1)]
  {
    if r.Stage? {
      OpenLogs(if s.pending.None? then s else Discard(s), r.body, r.implOk);
    }
  }

  lemma OpenLogs(s: Service, body: seq<Command>, implOk: bool)
    requires WellKeyed(s.db.rows)
    ensures var t := Open(s, body, implOk);
      var e := if t.pending.Some? then Staged(s.created, OpsOf(body)) else StageFailed(s.created);
      t.log == s.log + [e] && t.created == s.created + 1
  {
    OpenStages(s, body, implOk);
  }

  lemma ConfirmLogs(s: Service, commitOk: bool) returns (e: Event)
    requires Sound(s)
    ensures var t := Handle(s, Confirm(commitOk)); t.log == s.log + [e] && !e.Staged? && t.created == s.created
  {
    var t := Handle(s, Confirm(commitOk));
    e := if s.pending.None? then NothingPending
         else if commitOk && Committed(s.db, s.pending.value).Some? then Confirmed(s.created - 1)
         else ConfirmFailed(s.created - 1);
  }

  lemma NextStage(s: Service, r: Request, id: Id)
    requires Sound(s) && id < s.created && id !in StagedIds(s.log)
    ensures id < Handle(s, r).created && id !in StagedIds(Handle(s, r).log)
  {
    match r
    case Stage(body, implOk, rollbackOk) =>
      if s.pending.None? || rollbackOk {
        OpenLogs(if s.pending.None? then s else Discard(s), body, implOk);
        StagedIdsSnoc(s.log, Staged(s.created, OpsOf(body)));
        StagedIdsSnoc(s.log, StageFailed(s.created));
      } else {
        StagedIdsSnoc(s.log, Stuck);
      }
    case Confirm(commitOk) =>
      var e := ConfirmLogs(s, commitOk);
      StagedIdsSnoc(s.log, e);
    case Cancel(rollbackOk) =>
      StagedIdsSnoc(s.log, NothingPending);
      StagedIdsSnoc(s.log, Stuck);
      StagedIdsSnoc(s.log, Cancelled(s.created - 1));
  }

  lemma StagedIdsSnoc(log: seq<Event>, e: Event)
    ensures StagedIds(log + [e]) == if e.Staged? then StagedIds(log) + [e.id] else StagedIds(log)
  {
    assert (log + [e])[..|log|] == log;
  }

  // ---------- Immediate operations ----------

  /** A repository outside a unit of work opens a session of its own for one operation, in a scope that commits. */
  function Immediate(db: Store, op: Op): Option<Store>
    requires WellKeyed(db.rows)
  {
    NewUnitIsCoherent(db.rows);
    var o := Scope(Work(db, NEW_UNIT), [Run(op)]);
    if o.ok then Some(o.work.db) else None
  }

  lemma ImmediateIsPlain(db: Store, op: Op)
    requires WellKeyed(db.rows)
    ensures Immediate(db, op) ==
      match TableOp(db.rows, op)
      case None => None
      case Some(after) => Some(Store(after, LinkOp(db.rows, db.links, op)))
    ensures Immediate(db, op).Some? ==> WellKeyed(Immediate(db, op).value.rows)
  {
    ScopeCommits(db, [Run(op)]);
    assert [Run(op)][1..] == [];
    NothingDoomedNothingBlocked(Opened(db.rows), op);
    OneNote(Opened(db.rows), op);
    OpenedView(db.links, db.rows);
    if TableOp(db.rows, op).Some? {
      TableOpKeepsKeys(db.rows, op);
      NoteLinks(db.links, Opened(db.rows), op);
    }
  }

  lemma OneNote(l: Ledger, op: Op)
    ensures Note(l, op).Some? <==> TableOp(l.table, op).Some? && !Blocked(l, op)
    ensures Note(l, op).Some? ==> Note(l, op).value.table == TableOp(l.table, op).value
  {
  }

  /** Operations done immediately, one after the other, each on what the last one committed. */
  function ImmediateAll(db: Store, ops: seq<Op>): Option<Store>
    requires WellKeyed(db.rows)
    decreases |ops|
  {
    if ops == [] then Some(db)
    else
      ImmediateIsPlain(db, ops[0]);
      match Immediate(db, ops[0])
      case None => None
      case Some(after) => ImmediateAll(after, ops[1..])
  }

  lemma {:induction false} ImmediateAllIsOneByOne(db: Store, ops: seq<Op>)
    requires WellKeyed(db.rows)
    ensures ImmediateAll(db, ops) == StoreOneByOne(db, ops)
    decreases |ops|
  {
    if ops != [] {
      ImmediateIsPlain(db, ops[0]);
      if TableOp(db.rows, ops[0]).Some? {
        ImmediateAllIsOneByOne(Immediate(db, ops[0]).value, ops[1..]);
      }
    }
  }

  /** Staging operations together and confirming them commits what doing them immediately, one by one, would, the
      association rows included unless an update moves a row while a link of it is pending; and the stage succeeds
      exactly when they would, unless a pending deletion is in the way. */
  lemma StageAndConfirmIsOneByOne(db: Store, ops: seq<Op>)
    requires WellKeyed(db.rows)
    ensures StageUnit(db.rows, ops).Some? <==> ImmediateAll(db, ops).Some? && Unblocked(Opened(db.rows), ops)
    ensures StageUnit(db.rows, ops).Some? ==>
      var committed := Committed(db, StageUnit(db.rows, ops).value);
      && committed.Some? && committed.value.rows == ImmediateAll(db, ops).value.rows
      && (LeaveAppended(Opened(db.rows), ops) ==> committed == ImmediateAll(db, ops))
  {
    ImmediateAllIsOneByOne(db, ops);
    StagedIsSequential(db.rows, ops);
    if StageUnit(db.rows, ops).Some? {
      CommitAppliesStage(db, ops);
      LedgerTable(Opened(db.rows), ops);
      if LeaveAppended(Opened(db.rows), ops) {
        LinksAfterAre(db.rows, db.links, ops);
      }
    }
  }

  /** Nothing is in the way of operations that flush their deletions at once. */
  lemma FlushedDeletionsStageAlike(db: Store, ops: seq<Op>)
    requires WellKeyed(db.rows) && FlushesDeletes(ops)
    ensures StageUnit(db.rows, ops).Some? <==> ImmediateAll(db, ops).Some?
  {
    StageAndConfirmIsOneByOne(db, ops);
    FlushedDeletesUnblock(Opened(db.rows), ops);
  }
}
