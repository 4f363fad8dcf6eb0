/** Deciding a pair of duplicate companies: the secondary record is pointed at its master, and its rows in
    eight child tables are moved over. */
module CompanyMerge {
  import opened Options
  import opened Counting

  type Id = string

  datatype DedupStatus = Pending | Merged | Rejected | OtherStatus(name: string)

  datatype MergeNote = MergeNote(mergedBy: Option<string>, mergedInto: Id, candidate: Id, reason: Option<string>)

  datatype Company = Company(tenant: string, isMaster: bool,
                             master: Option<Id>, status: DedupStatus, history: seq<MergeNote>)

  datatype Candidate = Candidate(
    tenant: string, companyA: Id, companyB: Id, status: DedupStatus,
    decidedBy: Option<string>, masterCompany: Option<Id>, reason: Option<string>)

  datatype Table =
    Contacts | EnrichmentLog | DatoriiAnaf | BpiActe | CipIncidente | Dosare | IdentityKeys | CompanyLocations

  /** A row of a child table; only the enrichment log has an entity type. */
  datatype Child = Child(tenant: string, entityType: string, company: Id)

  type Rows = map<Id, Child>

  datatype Database = Database(
    companies: map<Id, Company>, candidates: map<Id, Candidate>,
    contacts: Rows, enrichmentLog: Rows, datoriiAnaf: Rows, bpiActe: Rows,
    cipIncidente: Rows, dosare: Rows, identityKeys: Rows, companyLocations: Rows)

  const SILVER_COMPANY := "silver_company"

  function TableOf(db: Database, t: Table): Rows {
    match t
    case Contacts => db.contacts
    case EnrichmentLog => db.enrichmentLog
    case DatoriiAnaf => db.datoriiAnaf
    case BpiActe => db.bpiActe
    case CipIncidente => db.cipIncidente
    case Dosare => db.dosare
    case IdentityKeys => db.identityKeys
    case CompanyLocations => db.companyLocations
  }

  // ---------------------------------------------------------------- the decision

  datatype Decision = Merge(master: Option<Id>) | Reject | Skip

  datatype Request = Request(tenant: string, actor: Option<string>,
                             candidate: Id, decision: Decision, reason: Option<string>)

  datatype Outcome = NotFound | BrokenReference | Decided(master: Option<Id>)

  predicate Known(db: Database, r: Request) {
    r.candidate in db.candidates && db.candidates[r.candidate].tenant == r.tenant
  }

  function MasterOf(candidate: Candidate, decision: Decision): Id
    requires decision.Merge?
  {
    decision.master.GetOr(candidate.companyA)
  }

  /** Company B loses to a master that is company A; company A loses to any other master. */
  function SecondaryOf(candidate: Candidate, master: Id): Id {
    if master == candidate.companyA then candidate.companyB else candidate.companyA
  }

  predicate Moves(t: Table, row: Child, tenant: string, source: Id) {
    row.tenant == tenant && row.company == source && (t == EnrichmentLog ==> row.entityType == SILVER_COMPANY)
  }

  function Repointed(t: Table, rows: Rows, tenant: string, source: Id, target: Id): Rows {
    map id | id in rows :: if Moves(t, rows[id], tenant, source) then rows[id].(company := target) else rows[id]
  }

  function Linked(companies: map<Id, Company>, secondary: Id, master: Id, note: MergeNote): map<Id, Company>
    requires secondary in companies
  {
    companies[secondary := companies[secondary].(
      isMaster := false, master := Some(master), status := Merged, history := companies[secondary].history + [note])]
  }

  /** The transaction. */
  function Absorbed(db: Database, tenant: string, secondary: Id, master: Id, note: MergeNote): Database
    requires secondary in db.companies
  {
    Database(
      Linked(db.companies, secondary, master, note), db.candidates,
      Repointed(Contacts, db.contacts, tenant, secondary, master),
      Repointed(EnrichmentLog, db.enrichmentLog, tenant, secondary, master),
      Repointed(DatoriiAnaf, db.datoriiAnaf, tenant, secondary, master),
      Repointed(BpiActe, db.bpiActe, tenant, secondary, master),
      Repointed(CipIncidente, db.cipIncidente, tenant, secondary, master),
      Repointed(Dosare, db.dosare, tenant, secondary, master),
      Repointed(IdentityKeys, db.identityKeys, tenant, secondary, master),
      Repointed(CompanyLocations, db.companyLocations, tenant, secondary, master))
  }

  function StatusAfter(decision: Decision): DedupStatus {
    match decision
    case Merge(_) => Merged
    case Reject => Rejected
    case Skip => Pending
  }

  function Stamped(db: Database, r: Request, master: Option<Id>): Database
    requires r.candidate in db.candidates
  {
    var candidate := db.candidates[r.candidate];
    db.(candidates := db.candidates[r.candidate := candidate.(
      status := StatusAfter(r.decision), decidedBy := r.actor, masterCompany := Or(master, candidate.masterCompany),
      reason := Or(r.reason, candidate.reason))])
  }

  predicate Merges(db: Database, r: Request) {
    && Known(db, r) && r.decision.Merge?
    && var candidate := db.candidates[r.candidate];
       var master := MasterOf(candidate, r.decision);
       var secondary := SecondaryOf(candidate, master);
       master in db.companies && secondary in db.companies && db.companies[secondary].tenant == r.tenant
  }

  /** A master that is no company breaks a foreign key, and the whole decision fails. */
  function Decide(db: Database, r: Request): (Database, Outcome) {
    if !Known(db, r) then (db, NotFound)
    else if !r.decision.Merge? then (Stamped(db, r, None), Decided(None))
    else
      var candidate := db.candidates[r.candidate];
      var master := MasterOf(candidate, r.decision);
      if master !in db.companies then (db, BrokenReference)
      else if Merges(db, r) then
        var note := MergeNote(r.actor, master, r.candidate, r.reason);
        (Stamped(Absorbed(db, r.tenant, SecondaryOf(candidate, master), master, note), r, Some(master)),
         Decided(Some(master)))
      else (Stamped(db, r, Some(master)), Decided(Some(master)))
  }

  // ---------------------------------------------------------------- master pointers

  /** The pointers from `x` end at a record without one within `n` hops. */
  ghost predicate Grounded(companies: map<Id, Company>, x: Id, n: nat)
    decreases n
  {
    && x in companies
    && (companies[x].master.Some? ==> n > 0 && Grounded(companies, companies[x].master.value, n - 1))
  }

  ghost predicate Forest(companies: map<Id, Company>) {
    forall x | x in companies :: exists n: nat :: Grounded(companies, x, n)
  }

  ghost function RootWithin(companies: map<Id, Company>, x: Id, n: nat): Id
    requires Grounded(companies, x, n)
    decreases n
  {
    if companies[x].master.None? then x else RootWithin(companies, companies[x].master.value, n - 1)
  }

  ghost predicate PassesWithin(companies: map<Id, Company>, x: Id, y: Id, n: nat)
    requires Grounded(companies, x, n)
    decreases n
  {
    x == y || (companies[x].master.Some? && PassesWithin(companies, companies[x].master.value, y, n - 1))
  }

  /** Where the pointers from `x` end. */
  ghost function Root(companies: map<Id, Company>, x: Id): Id
    requires Forest(companies) && x in companies
  {
    var n: nat :| Grounded(companies, x, n);
    RootWithin(companies, x, n)
  }

  /** The pointers from `x` lead through `y`, where `x` itself counts. */
  ghost predicate Passes(companies: map<Id, Company>, x: Id, y: Id)
    requires Forest(companies) && x in companies
  {
    var n: nat :| Grounded(companies, x, n);
    PassesWithin(companies, x, y, n)
  }

  lemma {:induction false} MoreHops(companies: map<Id, Company>, x: Id, n: nat, m: nat)
    requires Grounded(companies, x, n) && n <= m
    ensures Grounded(companies, x, m)
    decreases n
  {
    if companies[x].master.Some? {
      MoreHops(companies, companies[x].master.value, n - 1, m - 1);
    }
  }

  lemma {:induction false} HopsDoNotMatter(companies: map<Id, Company>, x: Id, y: Id, n: nat, m: nat)
    requires Grounded(companies, x, n) && Grounded(companies, x, m)
    ensures RootWithin(companies, x, n) == RootWithin(companies, x, m)
    ensures PassesWithin(companies, x, y, n) == PassesWithin(companies, x, y, m)
    decreases n
  {
    if companies[x].master.Some? {
      HopsDoNotMatter(companies, companies[x].master.value, y, n - 1, m - 1);
    }
  }

  lemma RootIs(companies: map<Id, Company>, x: Id, y: Id, n: nat)
    requires Forest(companies) && Grounded(companies, x, n)
    ensures Root(companies, x) == RootWithin(companies, x, n)
    ensures Passes(companies, x, y) == PassesWithin(companies, x, y, n)
  {
    forall m: nat | Grounded(companies, x, m)
      ensures RootWithin(companies, x, m) == RootWithin(companies, x, n)
          && PassesWithin(companies, x, y, m) == PassesWithin(companies, x, y, n)
    {
      HopsDoNotMatter(companies, x, y, m, n);
    }
  }

  lemma {:induction false} OtherPathsStand(companies: map<Id, Company>, after: map<Id, Company>,
                                           secondary: Id, x: Id, n: nat)
    requires Grounded(companies, x, n) && !PassesWithin(companies, x, secondary, n)
    requires secondary in companies && secondary in after && after == companies[secondary := after[secondary]]
    ensures Grounded(after, x, n) && RootWithin(after, x, n) == RootWithin(companies, x, n)
    decreases n
  {
    if companies[x].master.Some? {
      OtherPathsStand(companies, after, secondary, companies[x].master.value, n - 1);
    }
  }

  lemma {:induction false} PathsThroughMove(
    companies: map<Id, Company>, secondary: Id, master: Id, note: MergeNote, x: Id, n: nat, k: nat)
    requires secondary in companies && Grounded(companies, x, n) && Grounded(companies, master, k)
    requires PassesWithin(companies, x, secondary, n) && !PassesWithin(companies, master, secondary, k)
    ensures var after := Linked(companies, secondary, master, note);
            Grounded(after, x, n + k + 1) && RootWithin(after, x, n + k + 1) == RootWithin(companies, master, k)
    decreases n
  {
    var after := Linked(companies, secondary, master, note);
    if x == secondary {
      OtherPathsStand(companies, after, secondary, master, k);
      MoreHops(after, master, k, n + k);
      HopsDoNotMatter(after, master, master, k, n + k);
    } else {
      PathsThroughMove(companies, secondary, master, note, companies[x].master.value, n - 1, k);
    }
  }

  lemma {:induction false} WalkBack(companies: map<Id, Company>, after: map<Id, Company>,
                                    secondary: Id, x: Id, n: nat, j: nat)
    returns (i: nat)
    requires Grounded(companies, x, n) && PassesWithin(companies, x, secondary, n)
    requires secondary in companies && secondary in after && after == companies[secondary := after[secondary]]
    requires Grounded(after, x, j)
    ensures i <= j && Grounded(after, secondary, i)
    decreases n
  {
    if x == secondary {
      i := j;
    } else {
      i := WalkBack(companies, after, secondary, companies[x].master.value, n - 1, j - 1);
    }
  }

  lemma {:induction false} CycleNeverEnds(companies: map<Id, Company>, secondary: Id, master: Id,
                                          note: MergeNote, k: nat, j: nat)
    requires secondary in companies && Grounded(companies, master, k) && PassesWithin(companies, master, secondary, k)
    ensures !Grounded(Linked(companies, secondary, master, note), secondary, j)
    decreases j
  {
    var after := Linked(companies, secondary, master, note);
    if Grounded(after, secondary, j) {
      var i := WalkBack(companies, after, secondary, master, k, j - 1);
      CycleNeverEnds(companies, secondary, master, note, k, i);
    }
  }

  lemma LinkedIsForest(companies: map<Id, Company>, secondary: Id, master: Id, note: MergeNote)
    requires Forest(companies) && secondary in companies && master in companies && !Passes(companies, master, secondary)
    ensures Forest(Linked(companies, secondary, master, note))
  {
    var after := Linked(companies, secondary, master, note);
    var k: nat :| Grounded(companies, master, k);
    RootIs(companies, master, secondary, k);
    forall x | x in after ensures exists n: nat :: Grounded(after, x, n) {
      var n: nat :| Grounded(companies, x, n);
      if PassesWithin(companies, x, secondary, n) {
        PathsThroughMove(companies, secondary, master, note, x, n, k);
      } else {
        OtherPathsStand(companies, after, secondary, x, n);
      }
    }
  }

  /** Root lookup still ends everywhere if and only if the secondary is not on its new master's own path. */
  lemma MergeKeepsForestIff(companies: map<Id, Company>, secondary: Id, master: Id, note: MergeNote)
    requires Forest(companies) && secondary in companies && master in companies
    ensures Forest(Linked(companies, secondary, master, note)) <==> !Passes(companies, master, secondary)
  {
    if Passes(companies, master, secondary) {
      var k: nat :| Grounded(companies, master, k);
      RootIs(companies, master, secondary, k);
      var after := Linked(companies, secondary, master, note);
      if Forest(after) {
        assert secondary in after;
        var j: nat :| Grounded(after, secondary, j);
        CycleNeverEnds(companies, secondary, master, note, k, j);
      }
    } else {
      LinkedIsForest(companies, secondary, master, note);
    }
  }

  /** What a merge does to every root: the secondary's whole subtree goes to the master's root, and no
      other record notices. */
  lemma MergeMovesSubtree(companies: map<Id, Company>, secondary: Id, master: Id, note: MergeNote, x: Id)
    requires Forest(companies) && secondary in companies && master in companies && x in companies
    requires !Passes(companies, master, secondary)
    ensures Forest(Linked(companies, secondary, master, note))
    ensures Root(Linked(companies, secondary, master, note), x)
         == Root(companies, if Passes(companies, x, secondary) then master else x)
  {
    var after := Linked(companies, secondary, master, note);
    LinkedIsForest(companies, secondary, master, note);
    var k: nat :| Grounded(companies, master, k);
    var n: nat :| Grounded(companies, x, n);
    RootIs(companies, master, secondary, k);
    RootIs(companies, x, secondary, n);
    if PassesWithin(companies, x, secondary, n) {
      PathsThroughMove(companies, secondary, master, note, x, n, k);
      RootIs(after, x, secondary, n + k + 1);
    } else {
      OtherPathsStand(companies, after, secondary, x, n);
      RootIs(after, x, secondary, n);
    }
  }

  // ---------------------------------------------------------------- child rows

  /** Rows a merge of their company would move; a log row of another entity type is not one of them. */
  predicate Attachable(t: Table, row: Child, tenant: string) {
    row.tenant == tenant && (t == EnrichmentLog ==> row.entityType == SILVER_COMPANY)
  }

  predicate CurrentMaster(companies: map<Id, Company>, tenant: string, x: Id) {
    x in companies && companies[x].tenant == tenant && companies[x].isMaster
  }

  /** Every row of the tenant that merges would move hangs off one of the tenant's current masters. */
  ghost predicate Attached(companies: map<Id, Company>, t: Table, rows: Rows, tenant: string) {
    forall id | id in rows && Attachable(t, rows[id], tenant) :: CurrentMaster(companies, tenant, rows[id].company)
  }

  ghost predicate AllAttached(db: Database, tenant: string) {
    forall t: Table :: Attached(db.companies, t, TableOf(db, t), tenant)
  }

  lemma AbsorbedTable(db: Database, tenant: string, secondary: Id, master: Id, note: MergeNote, t: Table)
    requires secondary in db.companies
    ensures TableOf(Absorbed(db, tenant, secondary, master, note), t)
        == Repointed(t, TableOf(db, t), tenant, secondary, master)
  {
  }

  ghost function At(company: Id): Child -> bool {
    (row: Child) => row.company == company
  }

  ghost function Movable(t: Table, tenant: string, source: Id): Child -> bool {
    (row: Child) => Moves(t, row, tenant, source)
  }

  lemma GainedRows(t: Table, rows: Rows, tenant: string, source: Id, target: Id)
    requires source != target
    ensures var after := Repointed(t, rows, tenant, source, target);
            Where(after, At(target)) == Where(rows, At(target)) + Where(rows, Movable(t, tenant, source))
  {
    var after := Repointed(t, rows, tenant, source, target);
    forall id
      ensures id in Where(after, At(target))
         <==> id in Where(rows, At(target)) + Where(rows, Movable(t, tenant, source))
    {
      if id in rows {
        assert At(target)(after[id]) <==> At(target)(rows[id]) || Movable(t, tenant, source)(rows[id]);
      }
    }
  }

  /** No row is lost or made, and the master gains exactly the rows its secondary gives up. */
  lemma RepointConserves(t: Table, rows: Rows, tenant: string, source: Id, target: Id)
    requires source != target
    ensures var after := Repointed(t, rows, tenant, source, target);
            && |after| == |rows|
            && Count(after, At(target)) == Count(rows, At(target)) + Count(rows, Movable(t, tenant, source))
            && Count(after, Movable(t, tenant, source)) == 0
  {
    var after := Repointed(t, rows, tenant, source, target);
    assert |after| == |rows| by {
      assert |after| == |after.Keys| && after.Keys == rows.Keys;
    }
    GainedRows(t, rows, tenant, source, target);
    assert Where(rows, At(target)) !! Where(rows, Movable(t, tenant, source));
    CountNone(after, Movable(t, tenant, source));
  }

  /** The tenant's movable rows stay attached if and only if the master is another of its current masters, or the
      secondary has no row to move. */
  lemma MergeKeepsAttachedIff(db: Database, tenant: string, secondary: Id, master: Id, note: MergeNote, t: Table)
    requires secondary in db.companies && Attached(db.companies, t, TableOf(db, t), tenant)
    ensures var after := Absorbed(db, tenant, secondary, master, note);
            Attached(after.companies, t, TableOf(after, t), tenant) <==>
              || (CurrentMaster(db.companies, tenant, master) && master != secondary)
              || (forall id | id in TableOf(db, t) :: !Moves(t, TableOf(db, t)[id], tenant, secondary))
  {
    var after := Absorbed(db, tenant, secondary, master, note);
    AbsorbedTable(db, tenant, secondary, master, note, t);
    var rows := TableOf(db, t);
    if id :| id in rows && Moves(t, rows[id], tenant, secondary) {
      assert TableOf(after, t)[id].company == master;
      assert CurrentMaster(after.companies, tenant, master)
        <==> CurrentMaster(db.companies, tenant, master) && master != secondary;
    }
  }

  /** Every row of the tenant, movable or not, hangs off one of its current masters. */
  ghost predicate FullyAttached(companies: map<Id, Company>, rows: Rows, tenant: string) {
    forall id | id in rows && rows[id].tenant == tenant :: CurrentMaster(companies, tenant, rows[id].company)
  }

  /** A row of the secondary is on a current master after a guarded merge if and only if it is one the
      merge moves: in the enrichment log, one of type `silver_company`, which no worker writes. */
  lemma RowFollowsIff(db: Database, tenant: string, secondary: Id, master: Id, note: MergeNote, t: Table, id: Id)
    requires secondary in db.companies && CurrentMaster(db.companies, tenant, master) && master != secondary
    requires id in TableOf(db, t) && TableOf(db, t)[id].company == secondary
    ensures var after := Absorbed(db, tenant, secondary, master, note);
            && id in TableOf(after, t)
            && (CurrentMaster(after.companies, tenant, TableOf(after, t)[id].company)
              <==> Moves(t, TableOf(db, t)[id], tenant, secondary))
  {
    AbsorbedTable(db, tenant, secondary, master, note, t);
  }

  /** Some tenant row of the secondary is one the merge leaves there. */
  ghost predicate LeavesBehind(t: Table, rows: Rows, tenant: string, secondary: Id) {
    exists id ::
      && id in rows && rows[id].tenant == tenant && rows[id].company == secondary
      && !Moves(t, rows[id], tenant, secondary)
  }

  /** For a guarded merge: every row of the tenant stays on current masters if and only if no tenant row
      of the secondary is a log row of another type. */
  lemma MergeKeepsAllRowsIff(db: Database, tenant: string, secondary: Id, master: Id, note: MergeNote, t: Table)
    requires secondary in db.companies && FullyAttached(db.companies, TableOf(db, t), tenant)
    requires CurrentMaster(db.companies, tenant, master) && master != secondary
    ensures var after := Absorbed(db, tenant, secondary, master, note);
            FullyAttached(after.companies, TableOf(after, t), tenant) <==>
              !LeavesBehind(t, TableOf(db, t), tenant, secondary)
  {
    var after := Absorbed(db, tenant, secondary, master, note);
    AbsorbedTable(db, tenant, secondary, master, note, t);
    if LeavesBehind(t, TableOf(db, t), tenant, secondary) {
      var id :| id in TableOf(db, t) && TableOf(db, t)[id].tenant == tenant && TableOf(db, t)[id].company == secondary
             && !Moves(t, TableOf(db, t)[id], tenant, secondary);
      RowFollowsIff(db, tenant, secondary, master, note, t, id);
    }
  }

  // ---------------------------------------------------------------- whole runs

  function Run(db: Database, requests: seq<Request>): Database
    decreases |requests|
  {
    if requests == [] then db else Run(Decide(db, requests[0]).0, requests[1..])
  }

  /** The master is a current master of the tenant, other than the secondary. */
  predicate Guarded(db: Database, r: Request) {
    Merges(db, r) ==>
      && var candidate := db.candidates[r.candidate];
         var master := MasterOf(candidate, r.decision);
         CurrentMaster(db.companies, r.tenant, master) && SecondaryOf(candidate, master) != master
  }

  ghost predicate GuardedRun(db: Database, requests: seq<Request>)
    decreases |requests|
  {
    requests == [] || (Guarded(db, requests[0]) && GuardedRun(Decide(db, requests[0]).0, requests[1..]))
  }

  /** Masters are exactly the records without a pointer. */
  ghost predicate FlagsMatch(companies: map<Id, Company>) {
    forall x | x in companies :: companies[x].isMaster <==> companies[x].master.None?
  }

  ghost predicate Sound(db: Database) {
    Forest(db.companies) && FlagsMatch(db.companies)
  }

  /** Every child table keeps its rows, and each row its tenant and type. */
  ghost predicate SameRows(db: Database, after: Database) {
    forall t: Table :: RowsKept(TableOf(db, t), TableOf(after, t))
  }

  predicate RowsKept(rows: Rows, after: Rows) {
    after.Keys == rows.Keys
    && forall id | id in rows :: after[id].tenant == rows[id].tenant && after[id].entityType == rows[id].entityType
  }

  /** The tenant's companies and child rows are as they were. */
  ghost predicate Untouched(db: Database, after: Database, tenant: string) {
    && (forall x | x in db.companies && db.companies[x].tenant == tenant ::
          x in after.companies && after.companies[x] == db.companies[x])
    && (forall t: Table :: RowsUntouched(TableOf(db, t), TableOf(after, t), tenant))
  }

  ghost predicate RowsUntouched(rows: Rows, after: Rows, tenant: string) {
    forall id | id in rows && rows[id].tenant == tenant :: id in after && after[id] == rows[id]
  }

  /** Merge histories are only ever appended to. */
  ghost predicate HistoriesGrow(companies: map<Id, Company>, after: map<Id, Company>) {
    && after.Keys == companies.Keys
    && forall x | x in companies :: companies[x].history <= after[x].history && companies[x].tenant == after[x].tenant
  }

  predicate SameButCandidates(db: Database, after: Database) {
    after.companies == db.companies && forall t: Table :: TableOf(after, t) == TableOf(db, t)
  }

  lemma StampedSparesTables(db: Database, r: Request, master: Option<Id>)
    requires r.candidate in db.candidates
    ensures SameButCandidates(db, Stamped(db, r, master))
  {
  }

  /** What a decision does to everything but its candidate: nothing, or one merge. */
  lemma DecideIsAMerge(db: Database, r: Request)
    ensures !Merges(db, r) ==> SameButCandidates(db, Decide(db, r).0)
    ensures Merges(db, r) ==>
      var master := MasterOf(db.candidates[r.candidate], r.decision);
      var secondary := SecondaryOf(db.candidates[r.candidate], master);
      SameButCandidates(Absorbed(db, r.tenant, secondary, master, MergeNote(r.actor, master, r.candidate, r.reason)),
                        Decide(db, r).0)
  {
    if Merges(db, r) {
      var master := MasterOf(db.candidates[r.candidate], r.decision);
      var secondary := SecondaryOf(db.candidates[r.candidate], master);
      StampedSparesTables(Absorbed(db, r.tenant, secondary, master, MergeNote(r.actor, master, r.candidate, r.reason)),
                          r, Some(master));
    } else if Known(db, r) {
      StampedSparesTables(
        db, r, if r.decision.Merge? then Some(MasterOf(db.candidates[r.candidate], r.decision)) else None);
    }
  }

  /** What a decision answers: an unknown candidate, a master that is no company, or the master of the merge.
      A refused request changes nothing. */
  lemma DecisionIsAnswered(db: Database, r: Request, outcome: Outcome)
    requires outcome == Decide(db, r).1
    ensures outcome == NotFound <==> !(r.candidate in db.candidates && db.candidates[r.candidate].tenant == r.tenant)
    ensures outcome == BrokenReference <==>
      && r.candidate in db.candidates && db.candidates[r.candidate].tenant == r.tenant && r.decision.Merge?
      && r.decision.master.GetOr(db.candidates[r.candidate].companyA) !in db.companies
    ensures outcome.Decided? ==>
      && r.candidate in db.candidates
      && outcome.master == match r.decision
                           case Merge(Some(master)) => Some(master)
                           case Merge(None) => Some(db.candidates[r.candidate].companyA)
                           case _ => None
    ensures !outcome.Decided? ==> Decide(db, r).0 == db
  {
  }

  /** What a decision writes to its candidate: the status it decided, who decided it, the master of a merge,
      and the reason if one was given. No other candidate changes. */
  lemma DecisionIsRecorded(db: Database, r: Request, before: Candidate, written: Candidate)
    requires Decide(db, r).1.Decided? && before == db.candidates[r.candidate]
    requires r.candidate in Decide(db, r).0.candidates && written == Decide(db, r).0.candidates[r.candidate]
    ensures Decide(db, r).0.candidates == db.candidates[r.candidate := written]
    ensures written.status == Rejected <==> r.decision.Reject?
    ensures written.status == Merged <==> r.decision.Merge?
    ensures written.status == Pending <==> r.decision.Skip?
    ensures written.decidedBy == r.actor
    ensures written.masterCompany == if r.decision.Merge? then Decide(db, r).1.master else before.masterCompany
    ensures written.reason == if r.reason.Some? then r.reason else before.reason
    ensures written.tenant == before.tenant
    ensures written.companyA == before.companyA && written.companyB == before.companyB
  {
    DecidedCandidates(db, r);
  }

  lemma DecidedCandidates(db: Database, r: Request)
    requires Decide(db, r).1.Decided?
    ensures r.candidate in db.candidates
    ensures var master := if r.decision.Merge? then Some(MasterOf(db.candidates[r.candidate], r.decision)) else None;
            Decide(db, r).0.candidates == Stamped(db, r, master).candidates
  {
    if Merges(db, r) {
      var candidate := db.candidates[r.candidate];
      var master := MasterOf(candidate, r.decision);
      var note := MergeNote(r.actor, master, r.candidate, r.reason);
      assert Absorbed(db, r.tenant, SecondaryOf(candidate, master), master, note).candidates == db.candidates;
    }
  }

  /** The company of the pair that is not the master. */
  predicate Loses(candidate: Candidate, master: Id, company: Id) {
    if master == candidate.companyA then company == candidate.companyB else company == candidate.companyA
  }

  /** What a merge writes: the losing company, if the tenant has it, points at the master and remembers the
      decision, and its rows go to the master. No other company or row changes. */
  lemma MergeIsRecorded(db: Database, r: Request, loser: Id, master: Id, after: Database)
    requires r.decision.Merge? && Decide(db, r) == (after, Decided(Some(master)))
    requires Loses(db.candidates[r.candidate], master, loser)
    ensures loser in db.companies && db.companies[loser].tenant == r.tenant ==>
      var before := db.companies[loser];
      && after.companies == db.companies[loser := Company(r.tenant, false, Some(master), Merged,
           before.history + [MergeNote(r.actor, master, r.candidate, r.reason)])]
      && forall t: Table, id | id in TableOf(db, t) ::
           var row := TableOf(db, t)[id];
           var follows := row.tenant == r.tenant && row.company == loser
                          && (t == EnrichmentLog ==> row.entityType == "silver_company");
           id in TableOf(after, t) && TableOf(after, t)[id] == if follows then row.(company := master) else row
    ensures !(loser in db.companies && db.companies[loser].tenant == r.tenant) ==> SameButCandidates(db, after)
  {
    DecideIsAMerge(db, r);
    if Merges(db, r) {
      var note := MergeNote(r.actor, master, r.candidate, r.reason);
      forall t: Table ensures TableOf(after, t) == Repointed(t, TableOf(db, t), r.tenant, loser, master) {
        AbsorbedTable(db, r.tenant, loser, master, note, t);
      }
    }
  }

  lemma DecideKeepsSound(db: Database, r: Request)
    requires Sound(db) && Guarded(db, r)
    ensures Sound(Decide(db, r).0)
  {
    DecideIsAMerge(db, r);
    if Merges(db, r) {
      var master := MasterOf(db.candidates[r.candidate], r.decision);
      var secondary := SecondaryOf(db.candidates[r.candidate], master);
      assert Grounded(db.companies, master, 0);
      RootIs(db.companies, master, secondary, 0);
      MergeKeepsForestIff(db.companies, secondary, master, MergeNote(r.actor, master, r.candidate, r.reason));
    }
  }

  lemma DecideKeepsAttached(db: Database, r: Request, tenant: string, t: Table)
    requires Attached(db.companies, t, TableOf(db, t), tenant) && Guarded(db, r)
    ensures Attached(Decide(db, r).0.companies, t, TableOf(Decide(db, r).0, t), tenant)
  {
    DecideIsAMerge(db, r);
    if Merges(db, r) {
      var master := MasterOf(db.candidates[r.candidate], r.decision);
      var secondary := SecondaryOf(db.candidates[r.candidate], master);
      var note := MergeNote(r.actor, master, r.candidate, r.reason);
      if tenant == r.tenant {
        MergeKeepsAttachedIff(db, tenant, secondary, master, note, t);
      } else {
        AbsorbedTable(db, r.tenant, secondary, master, note, t);
      }
    }
  }

  lemma DecideKeepsRows(db: Database, r: Request, t: Table)
    ensures RowsKept(TableOf(db, t), TableOf(Decide(db, r).0, t))
    ensures forall tenant: string | tenant != r.tenant ::
        RowsUntouched(TableOf(db, t), TableOf(Decide(db, r).0, t), tenant)
  {
    DecideIsAMerge(db, r);
  }

  lemma DecideSpares(db: Database, r: Request)
    ensures SameRows(db, Decide(db, r).0) && HistoriesGrow(db.companies, Decide(db, r).0.companies)
    ensures forall tenant: string | tenant != r.tenant :: Untouched(db, Decide(db, r).0, tenant)
  {
    DecideIsAMerge(db, r);
    forall t: Table
      ensures RowsKept(TableOf(db, t), TableOf(Decide(db, r).0, t))
      ensures forall tenant: string | tenant != r.tenant ::
          RowsUntouched(TableOf(db, t), TableOf(Decide(db, r).0, t), tenant)
    {
      DecideKeepsRows(db, r, t);
    }
  }

  /** Over any run of guarded decisions, root lookup keeps ending and every row the merges would move
      keeps a current master. */
  lemma {:induction false} GuardedRunsKeepMasters(db: Database, requests: seq<Request>, tenant: string)
    requires Sound(db) && AllAttached(db, tenant) && GuardedRun(db, requests)
    ensures Sound(Run(db, requests)) && AllAttached(Run(db, requests), tenant)
    decreases |requests|
  {
    if requests != [] {
      var after := Decide(db, requests[0]).0;
      DecideKeepsSound(db, requests[0]);
      forall t: Table ensures Attached(after.companies, t, TableOf(after, t), tenant) {
        DecideKeepsAttached(db, requests[0], tenant, t);
      }
      GuardedRunsKeepMasters(after, requests[1..], tenant);
    }
  }

  /** The request is a merge of the tenant that leaves a row of the table behind. */
  ghost predicate Strands(db: Database, r: Request, tenant: string, t: Table) {
    && Merges(db, r) && r.tenant == tenant
    && var candidate := db.candidates[r.candidate];
       LeavesBehind(t, TableOf(db, t), tenant, SecondaryOf(candidate, MasterOf(candidate, r.decision)))
  }

  ghost predicate StrandsNone(db: Database, requests: seq<Request>, tenant: string, t: Table)
    decreases |requests|
  {
    requests == []
    || (!Strands(db, requests[0], tenant, t) && StrandsNone(Decide(db, requests[0]).0, requests[1..], tenant, t))
  }

  lemma DecideKeepsAllRowsIff(db: Database, r: Request, tenant: string, t: Table)
    requires FullyAttached(db.companies, TableOf(db, t), tenant) && Guarded(db, r)
    ensures FullyAttached(Decide(db, r).0.companies, TableOf(Decide(db, r).0, t), tenant)
        <==> !Strands(db, r, tenant, t)
  {
    DecideIsAMerge(db, r);
    if Merges(db, r) {
      var master := MasterOf(db.candidates[r.candidate], r.decision);
      var secondary := SecondaryOf(db.candidates[r.candidate], master);
      var note := MergeNote(r.actor, master, r.candidate, r.reason);
      if tenant == r.tenant {
        MergeKeepsAllRowsIff(db, tenant, secondary, master, note, t);
      } else {
        AbsorbedTable(db, r.tenant, secondary, master, note, t);
      }
    }
  }

  /** A row that no merge moves, on a record that is no current master. */
  ghost predicate Stranded(companies: map<Id, Company>, t: Table, rows: Rows, tenant: string, id: Id) {
    && id in rows && rows[id].tenant == tenant && !Attachable(t, rows[id], tenant)
    && !CurrentMaster(companies, tenant, rows[id].company)
  }

  /** No decision ever frees a stranded row: it is never moved, and no record becomes a master again. */
  lemma StrandedStays(db: Database, r: Request, tenant: string, t: Table, id: Id)
    requires Stranded(db.companies, t, TableOf(db, t), tenant, id)
    ensures Stranded(Decide(db, r).0.companies, t, TableOf(Decide(db, r).0, t), tenant, id)
  {
    DecideIsAMerge(db, r);
    if Merges(db, r) {
      var master := MasterOf(db.candidates[r.candidate], r.decision);
      AbsorbedTable(db, r.tenant, SecondaryOf(db.candidates[r.candidate], master), master,
                    MergeNote(r.actor, master, r.candidate, r.reason), t);
    }
  }

  lemma {:induction false} StrandedForGood(db: Database, requests: seq<Request>, tenant: string, t: Table, id: Id)
    requires Stranded(db.companies, t, TableOf(db, t), tenant, id)
    ensures Stranded(Run(db, requests).companies, t, TableOf(Run(db, requests), t), tenant, id)
    decreases |requests|
  {
    if requests != [] {
      StrandedStays(db, requests[0], tenant, t, id);
      StrandedForGood(Decide(db, requests[0]).0, requests[1..], tenant, t, id);
    }
  }

  lemma StrandingLeavesARow(db: Database, r: Request, tenant: string, t: Table) returns (id: Id)
    requires Strands(db, r, tenant, t)
    ensures Stranded(Decide(db, r).0.companies, t, TableOf(Decide(db, r).0, t), tenant, id)
  {
    DecideIsAMerge(db, r);
    var master := MasterOf(db.candidates[r.candidate], r.decision);
    var secondary := SecondaryOf(db.candidates[r.candidate], master);
    AbsorbedTable(db, r.tenant, secondary, master, MergeNote(r.actor, master, r.candidate, r.reason), t);
    id :| id in TableOf(db, t) && TableOf(db, t)[id].tenant == tenant && TableOf(db, t)[id].company == secondary
       && !Moves(t, TableOf(db, t)[id], tenant, secondary);
  }

  /** Over any run of guarded decisions, every row of the tenant in a table is on a current master at the
      end if and only if no merge of the run found a tenant row of its secondary that it does not move. */
  lemma {:induction false} GuardedRunsKeepAllRowsIff(db: Database, requests: seq<Request>, tenant: string, t: Table)
    requires FullyAttached(db.companies, TableOf(db, t), tenant) && GuardedRun(db, requests)
    ensures FullyAttached(Run(db, requests).companies, TableOf(Run(db, requests), t), tenant)
       <==> StrandsNone(db, requests, tenant, t)
    decreases |requests|
  {
    if requests != [] {
      var after := Decide(db, requests[0]).0;
      DecideKeepsAllRowsIff(db, requests[0], tenant, t);
      if Strands(db, requests[0], tenant, t) {
        var id := StrandingLeavesARow(db, requests[0], tenant, t);
        StrandedForGood(after, requests[1..], tenant, t, id);
        assert id in TableOf(Run(after, requests[1..]), t);
      } else {
        GuardedRunsKeepAllRowsIff(after, requests[1..], tenant, t);
      }
    }
  }

  /** Outside the enrichment log no merge strands a row. */
  lemma {:induction false} OtherTablesStrandNone(db: Database, requests: seq<Request>, tenant: string, t: Table)
    requires t != EnrichmentLog
    ensures StrandsNone(db, requests, tenant, t)
    decreases |requests|
  {
    if requests != [] {
      OtherTablesStrandNone(Decide(db, requests[0]).0, requests[1..], tenant, t);
    }
  }

  lemma SparesCompose(db: Database, middle: Database, after: Database)
    requires SameRows(db, middle) && SameRows(middle, after)
    requires HistoriesGrow(db.companies, middle.companies) && HistoriesGrow(middle.companies, after.companies)
    ensures SameRows(db, after) && HistoriesGrow(db.companies, after.companies)
  {
    forall t: Table ensures RowsKept(TableOf(db, t), TableOf(after, t)) {
      assert RowsKept(TableOf(db, t), TableOf(middle, t)) && RowsKept(TableOf(middle, t), TableOf(after, t));
    }
  }

  lemma UntouchedCompose(db: Database, middle: Database, after: Database, tenant: string)
    requires Untouched(db, middle, tenant) && Untouched(middle, after, tenant)
    ensures Untouched(db, after, tenant)
  {
    forall t: Table ensures RowsUntouched(TableOf(db, t), TableOf(after, t), tenant) {
      assert RowsUntouched(TableOf(db, t), TableOf(middle, t), tenant)
        && RowsUntouched(TableOf(middle, t), TableOf(after, t), tenant);
    }
  }

  /** Over any run at all, guarded or not, no child table gains or loses a row and merge histories only grow. */
  lemma {:induction false} RunsKeepRows(db: Database, requests: seq<Request>)
    ensures SameRows(db, Run(db, requests)) && HistoriesGrow(db.companies, Run(db, requests).companies)
    decreases |requests|
  {
    if requests != [] {
      var middle := Decide(db, requests[0]).0;
      DecideSpares(db, requests[0]);
      RunsKeepRows(middle, requests[1..]);
      SparesCompose(db, middle, Run(middle, requests[1..]));
    }
  }

  /** A tenant no request of the run belongs to is not touched by it. */
  lemma {:induction false} RunsSpareOtherTenants(db: Database, requests: seq<Request>, tenant: string)
    requires forall r | r in requests :: r.tenant != tenant
    ensures Untouched(db, Run(db, requests), tenant)
    decreases |requests|
  {
    if requests != [] {
      var middle := Decide(db, requests[0]).0;
      DecideSpares(db, requests[0]);
      assert forall r | r in requests[1..] :: r in requests;
      RunsSpareOtherTenants(middle, requests[1..], tenant);
      UntouchedCompose(db, middle, Run(middle, requests[1..]), tenant);
    }
  }

  /** Nothing in the code guards a decision: deciding one pair twice, each time for the other company,
      leaves the two pointing at each other. */
  lemma SecondThoughtsMakeACycle(db: Database, r: Request, a: Id, b: Id)
    requires Sound(db) && Known(db, r) && a != b
    requires db.candidates[r.candidate].companyA == a && db.candidates[r.candidate].companyB == b
    requires CurrentMaster(db.companies, r.tenant, a) && CurrentMaster(db.companies, r.tenant, b)
    ensures var first := Decide(db, r.(decision := Merge(Some(a)))).0;
            && Forest(first.companies)
            && !Forest(Decide(first, r.(decision := Merge(Some(b)))).0.companies)
  {
    var once := r.(decision := Merge(Some(a)));
    var first := Decide(db, once).0;
    DecideKeepsSound(db, once);
    assert Grounded(first.companies, a, 0);
    assert Grounded(first.companies, b, 1);
    RootIs(first.companies, b, a, 1);
    MergeKeepsForestIff(first.companies, a, b, MergeNote(r.actor, b, r.candidate, r.reason));
  }
}
