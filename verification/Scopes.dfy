/** Session scopes: the factory's, which commits at its end, and the one bound to a unit of work, whose session
    ignores commit, rollback and close. */
module Scopes {
  import opened Wrappers
  import opened Orm
  import opened Ledgers
  import opened Transactions

  /** What the body of a repository method asks of its session. */
  datatype Command = Run(op: Op) | Commit | Rollback | Close

  /** What is committed, and the session that works on it. */
  datatype Work = Work(db: Store, unit: Unit)

  /** A command either does its work or raises; a raise leaves what is committed alone. */
  datatype Outcome = Outcome(work: Work, ok: bool)

  ghost predicate Sane(w: Work) {
    WellKeyed(w.db.rows) && Coherent(w.db.rows, w.unit.session)
  }

  /** A session after its commit: the objects stay loaded, and nothing is left to be written. */
  function Renewed(s: Session): Session {
    s.(overlay := map[], relinking := NO_RELINKING)
  }

  /** A command on the session itself. A commit flushes first; rollback and close give up what is not committed. */
  function Execute(w: Work, c: Command): Outcome
    requires Sane(w)
  {
    match c
    case Run(op) =>
      (match Perform(w.db.rows, w.unit, op)
       case None => Outcome(w, false)
       case Some(u) => Outcome(Work(w.db, u), true))
    case Commit =>
      (match FlushUnit(w.db.rows, w.unit)
       case None => Outcome(w, false)
       case Some(u) => Outcome(Work(Merged(w.db, u.session), u.(session := Renewed(u.session))), true))
    case _ => Outcome(Work(w.db, NEW_UNIT), true)
  }

  /** The same command on a proxied session: only what concerns rows is passed on. */
  function Proxied(w: Work, c: Command): Outcome
    requires Sane(w)
  {
    match c
    case Commit => Outcome(w, true)
    case Rollback => Outcome(w, true)
    case Close => Outcome(w, true)
    case Run(_) => Execute(w, c)
  }

  // ---------- Commands keep sessions coherent ----------

  lemma RenewedLooksAlike(db: Table, s: Session, k: Key)
    ensures Look(Patched(db, s.overlay), Renewed(s), k) == Look(db, s, k)
  {
  }

  lemma RenewedIsCoherent(db: Table, s: Session)
    requires Coherent(db, s)
    ensures Coherent(Patched(db, s.overlay), Renewed(s))
  {
    forall k ensures Look(Patched(db, s.overlay), Renewed(s), k) == Look(db, s, k) {
      RenewedLooksAlike(db, s, k);
    }
  }

  lemma PatchedKeepsKeys(db: Table, s: Session)
    requires WellKeyed(db) && Coherent(db, s)
    ensures WellKeyed(Patched(db, s.overlay))
  {
  }

  lemma NewUnitIsCoherent(db: Table)
    ensures Coherent(db, NEW_UNIT.session)
  {
  }

  lemma ExecuteKeepsSane(w: Work, c: Command)
    requires Sane(w)
    ensures Sane(Execute(w, c).work)
  {
    match c
    case Run(op) =>
      if Perform(w.db.rows, w.unit, op).Some? {
        PerformKeepsCoherent(w.db.rows, w.unit, op);
      }
    case Commit =>
      if Flushable(w.db.rows, w.unit.session) {
        FlushKeepsCoherent(w.db.rows, w.unit.session);
        RenewedIsCoherent(w.db.rows, Flushed(w.db.rows, w.unit.session));
        PatchedKeepsKeys(w.db.rows, Flushed(w.db.rows, w.unit.session));
      }
    case _ => NewUnitIsCoherent(w.db.rows);
  }

  lemma ProxiedKeepsSane(w: Work, c: Command)
    requires Sane(w)
    ensures Sane(Proxied(w, c).work)
  {
    ExecuteKeepsSane(w, c);
  }

  /** Commands in sequence; the first that raises ends it. */
  function ExecuteAll(w: Work, cs: seq<Command>): (o: Outcome)
    requires Sane(w)
    ensures Sane(o.work)
    decreases |cs|
  {
    if cs == [] then Outcome(w, true)
    else
      ExecuteKeepsSane(w, cs[0]);
      var o := Execute(w, cs[0]);
      if o.ok then ExecuteAll(o.work, cs[1..]) else o
  }

  function ProxiedAll(w: Work, cs: seq<Command>): (o: Outcome)
    requires Sane(w)
    ensures Sane(o.work)
    decreases |cs|
  {
    if cs == [] then Outcome(w, true)
    else
      ProxiedKeepsSane(w, cs[0]);
      var o := Proxied(w, cs[0]);
      if o.ok then ProxiedAll(o.work, cs[1..]) else o
  }

  /** The end of the factory's scope: commit, roll back after an exception, close in any case. */
  function Finish(done: Outcome): (o: Outcome)
    requires Sane(done.work)
    ensures Sane(o.work)
  {
    ExecuteKeepsSane(done.work, Commit);
    var ended := if done.ok then Execute(done.work, Commit) else done;
    NewUnitIsCoherent(ended.work.db.rows);
    var settled := if ended.ok then ended.work else Execute(ended.work, Rollback).work;
    Outcome(Execute(settled, Close).work, ended.ok)
  }

  /** The factory's scope around a body. */
  function Scope(w: Work, body: seq<Command>): Outcome
    requires Sane(w)
  {
    Finish(ExecuteAll(w, body))
  }

  // ---------- The proxied session ----------

  /** The operations among the commands. */
  function OpsOf(cs: seq<Command>): seq<Op>
    decreases |cs|
  {
    if cs == [] then []
    else if cs[0].Run? then [cs[0].op] + OpsOf(cs[1..])
    else OpsOf(cs[1..])
  }

  /** The commands without those that end a transaction. */
  function RunsOf(cs: seq<Command>): seq<Command>
    decreases |cs|
  {
    if cs == [] then []
    else if cs[0].Run? then [cs[0]] + RunsOf(cs[1..])
    else RunsOf(cs[1..])
  }

  /** Whatever a repository sends through its proxied session, commits and rollbacks among it: what is committed stays
      as it is, and the session is as if only the operations had been sent to it directly. */
  lemma {:induction false} ProxyLeavesTable(w: Work, cs: seq<Command>)
    requires Sane(w)
    ensures ProxiedAll(w, cs) == ExecuteAll(w, RunsOf(cs))
    ensures ProxiedAll(w, cs).work.db == w.db
    decreases |cs|
  {
    if cs != [] {
      ProxiedKeepsSane(w, cs[0]);
      var o := Proxied(w, cs[0]);
      if o.ok {
        ProxyLeavesTable(o.work, cs[1..]);
      }
      assert cs[0].Run? ==> RunsOf(cs)[1..] == RunsOf(cs[1..]);
    }
  }

  lemma OneMore(db: Store, u: Unit, op: Op, ops: seq<Op>)
    requires Sane(Work(db, u)) && Sane(Proxied(Work(db, u), Run(op)).work)
    ensures PerformAll(db.rows, u, [op] + ops) ==
            match Perform(db.rows, u, op) case None => None case Some(v) => PerformAll(db.rows, v, ops)
  {
    assert ([op] + ops)[1..] == ops;
  }

  /** A proxied run is a run of its operations in one transaction. */
  lemma {:induction false} ProxyPerformsAll(w: Work, cs: seq<Command>)
    requires Sane(w)
    ensures var o := ProxiedAll(w, cs); var u := PerformAll(w.db.rows, w.unit, OpsOf(cs));
      (o.ok <==> u.Some?) && (o.ok ==> o.work == Work(w.db, u.value))
    decreases |cs|
  {
    if cs != [] {
      ProxiedKeepsSane(w, cs[0]);
      var o := Proxied(w, cs[0]);
      if o.ok {
        ProxyPerformsAll(o.work, cs[1..]);
      }
      if cs[0].Run? {
        OneMore(w.db, w.unit, cs[0].op, OpsOf(cs[1..]));
      }
    }
  }

  // ---------- The direct session ----------

  /** The reference: what is committed, and what the transaction makes of it. */
  datatype Books = Books(committed: Store, working: Ledger)

  datatype Entry = Entry(books: Books, ok: bool)

  /** What a commit makes of the books. */
  function Posted(b: Books): Store { Store(b.working.table, LinkView(b.committed.links, b.working)) }

  function Book(b: Books, c: Command): Entry {
    match c
    case Run(op) =>
      (match Note(b.working, op)
       case None => Entry(b, false)
       case Some(after) => Entry(b.(working := after), true))
    case Commit => Entry(Books(Posted(b), Opened(b.working.table)), true)
    case _ => Entry(b.(working := Opened(b.committed.rows)), true)
  }

  function BookAll(b: Books, cs: seq<Command>): Entry
    decreases |cs|
  {
    if cs == [] then Entry(b, true)
    else
      var e := Book(b, cs[0]);
      if e.ok then BookAll(e.books, cs[1..]) else e
  }

  ghost predicate Keeps(w: Work, b: Books) {
    Sane(w) && w.db == b.committed && Stands(w.db.rows, w.unit.session, b.working)
  }

  lemma RenewedStands(db: Table, s: Session, t: Table)
    requires Represents(db, s, t) && s.doomed == {} && s.appends == {}
    ensures Patched(db, s.overlay) == t && Stands(t, Renewed(s), Opened(t))
  {
    PatchedIsSeen(db, s, t);
    RenewedIsCoherent(db, s);
    forall k ensures Look(t, Renewed(s), k) == Look(db, s, k) {
      RenewedLooksAlike(db, s, k);
    }
    forall k ensures Left(t, Renewed(s), k) == Find(t, k) {
      assert Left(db, s, k) == Find(t, k);
    }
  }

  /** A commit posts the books. */
  lemma CommitKeeps(w: Work, b: Books)
    requires Keeps(w, b)
    ensures Execute(w, Commit).ok && Keeps(Execute(w, Commit).work, Book(b, Commit).books)
  {
    ExecuteKeepsSane(w, Commit);
    CommitRepresented(w.db, w.unit, b.working);
    StageEnds(w.db.rows, w.unit, b.working);
    RenewedStands(w.db.rows, Flushed(w.db.rows, w.unit.session), b.working.table);
  }

  lemma ExecuteKeeps(w: Work, b: Books, c: Command)
    requires Keeps(w, b)
    ensures Execute(w, c).ok <==> Book(b, c).ok
    ensures Keeps(Execute(w, c).work, Book(b, c).books)
  {
    ExecuteKeepsSane(w, c);
    match c
    case Run(op) => PerformRefines(w.db.rows, w.unit, op, b.working);
    case Commit => CommitKeeps(w, b);
    case _ => NewSessionStands(w.db.rows);
  }

  lemma {:induction false} ExecuteAllKeeps(w: Work, b: Books, cs: seq<Command>)
    requires Keeps(w, b)
    ensures ExecuteAll(w, cs).ok <==> BookAll(b, cs).ok
    ensures Keeps(ExecuteAll(w, cs).work, BookAll(b, cs).books)
    decreases |cs|
  {
    if cs != [] {
      ExecuteKeeps(w, b, cs[0]);
      if Book(b, cs[0]).ok {
        ExecuteAllKeeps(Execute(w, cs[0]).work, Book(b, cs[0]).books, cs[1..]);
      }
    }
  }

  /** After a commit the objects are still there, with their attributes, and nothing is left to be written: committing
      again changes nothing. */
  lemma CommitKeepsObjects(w: Work)
    requires Sane(w) && Execute(w, Commit).ok
    ensures var v := Execute(w, Commit).work;
      && |v.unit.session.objs| == |w.unit.session.objs|
      && (forall h :: 0 <= h < |v.unit.session.objs| ==>
            v.unit.session.objs[h].(ident := w.unit.session.objs[h].ident) == w.unit.session.objs[h])
      && Sane(v) && Execute(v, Commit).ok && Execute(v, Commit).work.db == v.db
  {
    ExecuteKeepsSane(w, Commit);
    var v := Execute(w, Commit).work;
    NothingToFlush(v.db.rows, v.unit.session);
    NothingToMerge(v.db, v.unit.session);
  }

  lemma NothingToFlush(db: Table, s: Session)
    requires Coherent(db, s) && s.added == s.dirty == s.doomed == {}
    ensures Flushable(db, s)
  {
    forall h | h in Survivors(s) ensures s.objs[h].ident == Some(KeyOf(s.objs[h])) {
      assert s.identity[s.objs[h].ident.value] == h;
    }
  }

  lemma NothingToMerge(db: Store, s: Session)
    requires Flushable(db.rows, s) && s.overlay == map[] && s.relinking == NO_RELINKING
    requires s.added == s.dirty == s.doomed == {} && s.appends == {}
    ensures Merged(db, Flushed(db.rows, s)) == db
  {
    assert Touched(s) == {} && Purges(s) == {} && NewLinks(s) == {};
    assert Patched(db.rows, map[]) == db.rows;
  }

  /** The factory's scope around any body: what the body has done since its last commit is committed at the end, or
      given up if something raises; what it committed itself stays. */
  lemma ScopeCommits(db: Store, body: seq<Command>)
    requires WellKeyed(db.rows)
    ensures Sane(Work(db, NEW_UNIT))
    ensures var o := Scope(Work(db, NEW_UNIT), body); var e := BookAll(Books(db, Opened(db.rows)), body);
      && o.ok == e.ok && o.work.unit == NEW_UNIT
      && o.work.db == if e.ok then Posted(e.books) else e.books.committed
  {
    var w, b := Work(db, NEW_UNIT), Books(db, Opened(db.rows));
    NewUnitIsCoherent(db.rows);
    NewSessionStands(db.rows);
    ExecuteAllKeeps(w, b, body);
    FinishCommits(ExecuteAll(w, body), BookAll(b, body));
  }

  lemma FinishCommits(done: Outcome, e: Entry)
    requires Keeps(done.work, e.books) && done.ok == e.ok
    ensures Finish(done).ok == e.ok && Finish(done).work.unit == NEW_UNIT
    ensures Finish(done).work.db == if e.ok then Posted(e.books) else e.books.committed
  {
    ExecuteKeeps(done.work, e.books, Commit);
    FinishedTable(done);
  }

  /** Only the commit of a body that did not raise changes the table at the end of a scope, and the session is let
      go. */
  lemma FinishedTable(done: Outcome)
    requires Sane(done.work)
    ensures var committed := Execute(done.work, Commit);
      && Finish(done).ok == (done.ok && committed.ok) && Finish(done).work.unit == NEW_UNIT
      && Finish(done).work.db == if done.ok && committed.ok then committed.work.db else done.work.db
  {
  }
}
