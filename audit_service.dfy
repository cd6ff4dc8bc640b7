/** The audit trail: appending an entry and the filtered, newest-first listing
    (services/mock-audit-service.ts). */
module AuditService {
  import opened Wrappers
  import opened Seqs
  import opened Text
  import opened Dates
  import opened Paging
  import opened Entities
  import opened BackOffice

  /** `getAll` parameters that the listing reads. */
  datatype AuditQuery = AuditQuery(idUser: Option<string>, action: Option<string>, entite: Option<string>)

  /** Every entry records this address. */
  const FixedAddress := "192.168.1.1"

  /** The listing's selection criterion, stated directly. */
  predicate Matches(a: AuditLog, q: AuditQuery)
  {
    && (Given(q.idUser) ==> a.idUser == q.idUser.value)
    && (Given(q.action) ==> a.action == q.action.value)
    && (Given(q.entite) ==> a.entite == q.entite.value)
  }

  function Matcher(q: AuditQuery): AuditLog -> bool
  {
    (a: AuditLog) => Matches(a, q)
  }

  /** The filters the listing applies one after the other. */
  function Filters(q: AuditQuery): seq<Option<AuditLog -> bool>>
  {
    [ if Given(q.idUser) then Some((a: AuditLog) => a.idUser == q.idUser.value) else None,
      if Given(q.action) then Some((a: AuditLog) => a.action == q.action.value) else None,
      if Given(q.entite) then Some((a: AuditLog) => a.entite == q.entite.value) else None ]
  }

  lemma FiltersMeanMatches(q: AuditQuery)
    ensures forall a :: PassesAll(a, Filters(q)) == Matches(a, q)
  {
    forall a ensures PassesAll(a, Filters(q)) == Matches(a, q) {
      var cs := Filters(q);
      assert PassesAll(a, cs) == ((cs[0].None? || cs[0].value(a)) && (cs[1].None? || cs[1].value(a))
        && (cs[2].None? || cs[2].value(a)));
    }
  }

  /** The sort key: the time of the action. */
  function When(a: AuditLog): int
  {
    Rank(a.dateAction)
  }

  /** The successive filters keep, in store order, exactly the matching entries. */
  function FilterAudits(audits: seq<AuditLog>, q: AuditQuery): (r: seq<AuditLog>)
    ensures r == Filter(audits, Matcher(q))
  {
    FilterChainIsConjunction(audits, Filters(q));
    FiltersMeanMatches(q);
    FilterExt(audits, PassesAllOf(Filters(q)), Matcher(q));
    FilterChain(audits, Filters(q))
  }

  /** `getAll`: the matching entries, newest first, from a sorted copy. */
  function GetAll(audits: seq<AuditLog>, q: AuditQuery): (r: Listing<AuditLog>)
    ensures multiset(r.data) == multiset(Filter(audits, Matcher(q)))
    ensures SortedDesc(r.data, When)
    ensures forall k :: 0 <= k < |r.data| ==> r.data[k] in audits && Matches(r.data[k], q)
    ensures forall k :: 0 <= k < |audits| && Matches(audits[k], q) ==> audits[k] in r.data
    ensures r.meta == ListMeta(|r.data|, 1, 100)
  {
    var sorted := SortDesc(FilterAudits(audits, q), When);
    SortedMatches(audits, q);
    Unpaged(sorted)
  }

  /** The sorted copy holds the matching entries and only them. */
  lemma SortedMatches(audits: seq<AuditLog>, q: AuditQuery)
    ensures var sorted := SortDesc(FilterAudits(audits, q), When);
      && (forall k :: 0 <= k < |sorted| ==> sorted[k] in audits && Matches(sorted[k], q))
      && (forall k :: 0 <= k < |audits| && Matches(audits[k], q) ==> audits[k] in sorted)
  {
    var sorted := SortDesc(FilterAudits(audits, q), When);
    ReorderedFilterMembers(audits, Matcher(q), sorted);
    forall k | 0 <= k < |sorted| ensures sorted[k] in audits && Matches(sorted[k], q) {
      assert sorted[k] in sorted;
      assert Matcher(q)(sorted[k]);
    }
    forall k | 0 <= k < |audits| && Matches(audits[k], q) ensures audits[k] in sorted {
      assert Matcher(q)(audits[k]);
    }
  }

  /** The entry `log` builds. */
  function NewAuditRecord(
    idUser: string, action: string, entite: string, idEntite: string,
    anciennes: Json, nouvelles: Json, env: Env): (a: AuditLog)
    ensures a.idUser == idUser && a.action == action && a.entite == entite && a.idEntite == idEntite
    ensures a.anciennesValeurs == anciennes && a.nouvellesValeurs == nouvelles
    ensures a.dateAction == env.now && a.adresseIP == FixedAddress
    ensures a.userAgent == if env.navigator.Some? then env.navigator.value else "Unknown"
  {
    AuditLog("audit-" + NatToString(env.stamp), idUser, action, entite, idEntite, anciennes, nouvelles,
             env.now, FixedAddress, GetOr(env.navigator, "Unknown"))
  }

  /** `log`: appends one entry and changes nothing else. */
  method Log(
    store: Store, idUser: string, action: string, entite: string, idEntite: string,
    anciennes: Json, nouvelles: Json, env: Env) returns (a: AuditLog)
    modifies store
    ensures a == NewAuditRecord(idUser, action, entite, idEntite, anciennes, nouvelles, env)
    ensures store.Snapshot() == old(store.Snapshot()).(audits := old(store.audits) + [a])
  {
    a := NewAuditRecord(idUser, action, entite, idEntite, anciennes, nouvelles, env);
    store.audits := store.audits + [a];
  }

  /** A logged entry shows up in the listing asked for its user, action and entity,
      and the listing grows by exactly that entry. */
  lemma LoggedIsListed(
    audits: seq<AuditLog>, idUser: string, action: string, entite: string, idEntite: string,
    anciennes: Json, nouvelles: Json, env: Env)
    ensures var a := NewAuditRecord(idUser, action, entite, idEntite, anciennes, nouvelles, env);
      var q := AuditQuery(Some(idUser), Some(action), Some(entite));
      multiset(GetAll(audits + [a], q).data) == multiset(GetAll(audits, q).data) + multiset{a}
  {
    var a := NewAuditRecord(idUser, action, entite, idEntite, anciennes, nouvelles, env);
    var q := AuditQuery(Some(idUser), Some(action), Some(entite));
    FilterAppend(audits, [a], Matcher(q));
    assert Filter([a], Matcher(q)) == [a] by {
      assert Matches(a, q);
      assert Filter([a][1..], Matcher(q)) == [];
    }
  }

  /** With no filter the listing holds every entry, newest first. */
  lemma UnfilteredHoldsAll(audits: seq<AuditLog>)
    ensures var r := GetAll(audits, AuditQuery(None, None, None)).data;
      multiset(r) == multiset(audits) && |r| == |audits|
  {
    FilterKeepsAll(audits, Matcher(AuditQuery(None, None, None)));
    SameMultisetSameMembers(GetAll(audits, AuditQuery(None, None, None)).data, audits);
  }
}
