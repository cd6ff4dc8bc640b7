/** Warranty claims: filtered listing, lookup, creation (starting the claim list when
    there is none yet), status change and the report document
    (services/mock-claim-service.ts). */
module ClaimService {
  import opened Wrappers
  import opened Seqs
  import opened Text
  import opened Paging
  import opened Entities
  import opened BackOffice

  /** `getAll` parameters that the listing reads. */
  datatype ClaimQuery = ClaimQuery(statut: Option<ClaimStatus>, idGarantie: Option<string>)

  /** `CreateClaimData`. */
  datatype NewClaim = NewClaim(
    idGarantie: string, idProduit: string, typeProbleme: string, description: string,
    photos: Option<seq<string>>)

  const NotFound := "Claim not found"

  /** `reclamations || []`: an absent list reads as empty. */
  function Claims(rs: Option<seq<Claim>>): (r: seq<Claim>)
    ensures rs.None? ==> r == []
    ensures rs.Some? ==> r == rs.value
  {
    GetOr(rs, [])
  }

  function HasId(id: string): Claim -> bool
  {
    (c: Claim) => c.idReclamation == id
  }

  /** The listing's selection criterion, stated directly. */
  predicate Matches(c: Claim, q: ClaimQuery)
  {
    && (q.statut.Some? ==> c.statut == q.statut.value)
    && (Given(q.idGarantie) ==> c.idGarantie == q.idGarantie.value)
  }

  function Matcher(q: ClaimQuery): Claim -> bool
  {
    (c: Claim) => Matches(c, q)
  }

  /** The filters the listing applies one after the other. */
  function Filters(q: ClaimQuery): seq<Option<Claim -> bool>>
  {
    [ if q.statut.Some? then Some((c: Claim) => c.statut == q.statut.value) else None,
      if Given(q.idGarantie) then Some((c: Claim) => c.idGarantie == q.idGarantie.value) else None ]
  }

  lemma FiltersMeanMatches(q: ClaimQuery)
    ensures forall c :: PassesAll(c, Filters(q)) == Matches(c, q)
  {
    forall c ensures PassesAll(c, Filters(q)) == Matches(c, q) {
      var cs := Filters(q);
      assert PassesAll(c, cs) == ((cs[0].None? || cs[0].value(c)) && (cs[1].None? || cs[1].value(c)));
    }
  }

  /** `getAll`: the matching claims in store order, unpaged; none when there is no list. */
  function GetAll(rs: Option<seq<Claim>>, q: ClaimQuery): (r: Listing<Claim>)
    ensures r.data == Filter(Claims(rs), Matcher(q)) && r.meta == ListMeta(|r.data|, 1, 100)
    ensures forall k :: 0 <= k < |r.data| ==> r.data[k] in Claims(rs) && Matches(r.data[k], q)
    ensures forall k :: 0 <= k < |Claims(rs)| && Matches(Claims(rs)[k], q) ==> Claims(rs)[k] in r.data
    ensures rs.None? ==> r.data == []
  {
    FilterChainIsConjunction(Claims(rs), Filters(q));
    FiltersMeanMatches(q);
    FilterExt(Claims(rs), PassesAllOf(Filters(q)), Matcher(q));
    Unpaged(FilterChain(Claims(rs), Filters(q)))
  }

  /** `getById`: the first claim with the id, or the source's error. */
  function GetById(rs: Option<seq<Claim>>, id: string): (r: Result<Claim>)
    ensures r.Err? <==> forall k :: 0 <= k < |Claims(rs)| ==> Claims(rs)[k].idReclamation != id
    ensures r.Err? ==> r.msg == NotFound
    ensures r.Ok? ==> r.value.idReclamation == id && r.value == Claims(rs)[IndexWhere(Claims(rs), HasId(id))]
  {
    var c := FindFirst(Claims(rs), HasId(id));
    if c.None? then Err(NotFound) else Ok(c.value)
  }

  /** The claim `create` builds: pending, no photos when none are given, created and
      modified now. */
  function NewClaimRecord(data: NewClaim, env: Env): (c: Claim)
    ensures c.idGarantie == data.idGarantie && c.idProduit == data.idProduit
    ensures c.typeProbleme == data.typeProbleme && c.description == data.description
    ensures c.photos == (if data.photos.Some? then data.photos.value else [])
    ensures c.statut == ClaimStatus.EnAttente && c.motifRejet.None? && c.produitRemplacementId.None?
    ensures c.dateCreation == env.now && c.dateModification == env.now
  {
    Claim("reclamation-" + NatToString(env.stamp), data.idGarantie, data.idProduit, data.typeProbleme,
          data.description, GetOr(data.photos, []), ClaimStatus.EnAttente, None, None, env.now, env.now)
  }

  /** `create`: starts the claim list if there is none, then appends the new claim. */
  method Create(store: Store, data: NewClaim, env: Env) returns (c: Claim)
    modifies store
    ensures c == NewClaimRecord(data, env)
    ensures store.Snapshot() == old(store.Snapshot()).(reclamations := Some(Claims(old(store.reclamations)) + [c]))
  {
    c := NewClaimRecord(data, env);
    if store.reclamations.None? {
      store.reclamations := Some([]);
    }
    store.reclamations := Some(store.reclamations.value + [c]);
  }

  /** A status change: the new status, the rejection reason only when one is given,
      and the modification date. */
  function StatusChanged(c: Claim, statut: ClaimStatus, motifRejet: Option<string>, env: Env): (r: Claim)
    ensures r.statut == statut && r.dateModification == env.now
    ensures r.motifRejet == if Given(motifRejet) then motifRejet else c.motifRejet
    ensures r.(statut := c.statut, motifRejet := c.motifRejet, dateModification := c.dateModification) == c
  {
    var withMotif := if Given(motifRejet) then c.(motifRejet := motifRejet) else c;
    withMotif.(statut := statut, dateModification := env.now)
  }

  /** `updateStatus`: changes the first claim with the id, whatever its current status. */
  method UpdateStatus(store: Store, id: string, statut: ClaimStatus, motifRejet: Option<string>, env: Env)
    returns (r: Result<Claim>)
    modifies store
    ensures r.Err? <==> GetById(old(store.reclamations), id).Err?
    ensures r.Err? ==> r.msg == NotFound && store.Snapshot() == old(store.Snapshot())
    ensures r.Ok? ==>
      var rs := old(store.reclamations).value;
      var i := IndexWhere(rs, HasId(id));
      r.value == StatusChanged(rs[i], statut, motifRejet, env)
      && store.Snapshot() == old(store.Snapshot()).(reclamations := Some(rs[i := r.value]))
  {
    var i := IndexWhere(Claims(store.reclamations), HasId(id));
    if i < 0 {
      return Err(NotFound);
    }
    var rs := store.reclamations.value;
    var c := rs[i].(statut := statut);
    if Given(motifRejet) {
      c := c.(motifRejet := motifRejet);
    }
    c := c.(dateModification := env.now);
    store.reclamations := Some(rs[i := c]);
    r := Ok(c);
  }

  /** `generateReport`: a document named after the claim id. */
  function GenerateReport(rs: Option<seq<Claim>>, id: string): (r: Result<Document>)
    ensures r.Err? <==> GetById(rs, id).Err?
    ensures r.Err? ==> r.msg == NotFound
    ensures r.Ok? ==>
      r.value.filename == "rapport-reclamation-" + id + ".pdf" && r.value.content == "Rapport de réclamation " + id
  {
    var c := GetById(rs, id);
    if c.Err? then Err(c.msg)
    else Ok(Document("rapport-reclamation-" + c.value.idReclamation + ".pdf",
                     "Rapport de réclamation " + c.value.idReclamation))
  }

  /** A created claim is listed under its warranty and the pending status, after the
      claims already there, whether or not a list existed before. */
  lemma CreatedIsListed(rs: Option<seq<Claim>>, data: NewClaim, env: Env)
    ensures var c := NewClaimRecord(data, env);
      var q := ClaimQuery(Some(ClaimStatus.EnAttente), Some(data.idGarantie));
      GetAll(Some(Claims(rs) + [c]), q).data == GetAll(rs, q).data + [c]
  {
    var c := NewClaimRecord(data, env);
    var q := ClaimQuery(Some(ClaimStatus.EnAttente), Some(data.idGarantie));
    FilterSnoc(Claims(rs), c, Matcher(q));
  }

  /** A status change without a reason keeps the reason already recorded. */
  lemma ReasonSurvivesLaterChanges(c: Claim, s1: ClaimStatus, s2: ClaimStatus, motif: string, e1: Env, e2: Env)
    requires motif != ""
    ensures StatusChanged(StatusChanged(c, s1, Some(motif), e1), s2, None, e2).motifRejet == Some(motif)
    ensures StatusChanged(StatusChanged(c, s1, Some(motif), e1), s2, Some(""), e2).motifRejet == Some(motif)
  {
  }
}
