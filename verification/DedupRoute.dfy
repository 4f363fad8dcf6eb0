/** The route that decides a duplicate pair, updating its tables one after the other. */
module DedupRoute {
  import opened Options
  import opened CompanyMerge

  class SilverTables {
    var companies: map<Id, Company>
    var candidates: map<Id, Candidate>
    var contacts: Rows
    var enrichmentLog: Rows
    var datoriiAnaf: Rows
    var bpiActe: Rows
    var cipIncidente: Rows
    var dosare: Rows
    var identityKeys: Rows
    var companyLocations: Rows

    ghost function State(): Database
      reads this
    {
      Database(companies, candidates, contacts, enrichmentLog, datoriiAnaf, bpiActe, cipIncidente, dosare,
               identityKeys, companyLocations)
    }

    constructor (db: Database)
      ensures State() == db
    {
      companies, candidates := db.companies, db.candidates;
      contacts, enrichmentLog, datoriiAnaf, bpiActe := db.contacts, db.enrichmentLog, db.datoriiAnaf, db.bpiActe;
      cipIncidente, dosare := db.cipIncidente, db.dosare;
      identityKeys, companyLocations := db.identityKeys, db.companyLocations;
    }

    /** The transaction: the secondary's own record first, then the eight tables of its rows. */
    method MergeInto(tenant: string, secondaryId: Id, resolvedMasterId: Id, note: MergeNote)
      requires secondaryId in companies
      modifies this
      ensures State() == Absorbed(old(State()), tenant, secondaryId, resolvedMasterId, note)
    {
      var secondary := companies[secondaryId];
      companies := companies[secondaryId := secondary.(
        isMaster := false, master := Some(resolvedMasterId), status := Merged, history := secondary.history + [note])];
      contacts := Repointed(Contacts, contacts, tenant, secondaryId, resolvedMasterId);
      enrichmentLog := Repointed(EnrichmentLog, enrichmentLog, tenant, secondaryId, resolvedMasterId);
      datoriiAnaf := Repointed(DatoriiAnaf, datoriiAnaf, tenant, secondaryId, resolvedMasterId);
      bpiActe := Repointed(BpiActe, bpiActe, tenant, secondaryId, resolvedMasterId);
      cipIncidente := Repointed(CipIncidente, cipIncidente, tenant, secondaryId, resolvedMasterId);
      dosare := Repointed(Dosare, dosare, tenant, secondaryId, resolvedMasterId);
      identityKeys := Repointed(IdentityKeys, identityKeys, tenant, secondaryId, resolvedMasterId);
      companyLocations := Repointed(CompanyLocations, companyLocations, tenant, secondaryId, resolvedMasterId);
    }

    method DecideCandidate(r: Request) returns (outcome: Outcome)
      modifies this
      ensures (State(), outcome) == Decide(old(State()), r)
    {
      if r.candidate !in candidates || candidates[r.candidate].tenant != r.tenant {
        return NotFound;
      }
      var candidate := candidates[r.candidate];
      var masterCompanyId := None;
      if r.decision.Merge? {
        var resolvedMasterId := r.decision.master.GetOr(candidate.companyA);
        masterCompanyId := Some(resolvedMasterId);
        var secondaryId := if resolvedMasterId == candidate.companyA then candidate.companyB else candidate.companyA;
        if resolvedMasterId !in companies {
          return BrokenReference;
        }
        if secondaryId in companies && companies[secondaryId].tenant == r.tenant {
          MergeInto(r.tenant, secondaryId, resolvedMasterId,
                    MergeNote(r.actor, resolvedMasterId, r.candidate, r.reason));
        }
      }
      candidates := candidates[r.candidate := candidate.(
        status := StatusAfter(r.decision), decidedBy := r.actor,
        masterCompany := Or(masterCompanyId, candidate.masterCompany),
        reason := Or(r.reason, candidate.reason))];
      return Decided(masterCompanyId);
    }
  }
}
