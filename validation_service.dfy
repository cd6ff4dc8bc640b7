/** Validations: requests awaiting an administrator's decision; listing by status,
    lookup, creation, approval and rejection (services/mock-validation-service.ts). */
module ValidationService {
  import opened Wrappers
  import opened Seqs
  import opened Text
  import opened Paging
  import opened Entities
  import opened BackOffice

  const NotFound := "Validation not found"

  function HasId(id: string): Validation -> bool
  {
    (v: Validation) => v.idValidation == id
  }

  /** The listing's selection criterion: the status, when one is given. */
  predicate Matches(v: Validation, statut: Option<ValidationStatus>)
  {
    statut.Some? ==> v.statut == statut.value
  }

  function Matcher(statut: Option<ValidationStatus>): Validation -> bool
  {
    (v: Validation) => Matches(v, statut)
  }

  /** `getAll`: the validations with the given status, in store order, unpaged. */
  function GetAll(vs: seq<Validation>, statut: Option<ValidationStatus>): (r: Listing<Validation>)
    ensures r.data == Filter(vs, Matcher(statut)) && r.meta == ListMeta(|r.data|, 1, 100)
    ensures forall k :: 0 <= k < |r.data| ==> r.data[k] in vs && Matches(r.data[k], statut)
    ensures forall k :: 0 <= k < |vs| && Matches(vs[k], statut) ==> vs[k] in r.data
    ensures statut.None? ==> r.data == vs
  {
    if statut.Some? then
      FilterExt(vs, (v: Validation) => v.statut == statut.value, Matcher(statut));
      Unpaged(Filter(vs, (v: Validation) => v.statut == statut.value))
    else
      FilterKeepsAll(vs, Matcher(statut));
      Unpaged(vs)
  }

  /** `getById`: the first validation with the id, or the source's error. */
  function GetById(vs: seq<Validation>, id: string): (r: Result<Validation>)
    ensures r.Err? <==> forall k :: 0 <= k < |vs| ==> vs[k].idValidation != id
    ensures r.Err? ==> r.msg == NotFound
    ensures r.Ok? ==> r.value.idValidation == id && r.value == vs[IndexWhere(vs, HasId(id))]
  {
    var v := FindFirst(vs, HasId(id));
    if v.None? then Err(NotFound) else Ok(v.value)
  }

  /** The request `create` builds: pending, with no decision recorded. */
  function NewValidationRecord(kind: string, idEntite: string, raison: string, env: Env): (v: Validation)
    ensures v.kind == kind && v.idEntite == idEntite && v.raison == raison
    ensures v.statut == ValidationStatus.EnAttente && v.dateCreation == env.now
    ensures v.dateValidation.None? && v.idUserValidateur.None? && v.motifRejet.None?
  {
    Validation("validation-" + NatToString(env.stamp), kind, idEntite, ValidationStatus.EnAttente, raison,
               env.now, None, None, None)
  }

  /** `create`: appends a pending request and returns it. */
  method Create(store: Store, kind: string, idEntite: string, raison: string, env: Env) returns (v: Validation)
    modifies store
    ensures v == NewValidationRecord(kind, idEntite, raison, env)
    ensures store.Snapshot() == old(store.Snapshot()).(validations := old(store.validations) + [v])
  {
    v := NewValidationRecord(kind, idEntite, raison, env);
    store.validations := store.validations + [v];
  }

  /** An approval: APPROUVEE, dated now and signed by the user; any earlier rejection
      reason stays. */
  function Approved(v: Validation, userId: string, env: Env): (r: Validation)
    ensures r.statut == ValidationStatus.Approuvee && r.dateValidation == Some(env.now) && r.idUserValidateur == Some(userId)
    ensures r.motifRejet == v.motifRejet
    ensures r.(statut := v.statut, dateValidation := v.dateValidation, idUserValidateur := v.idUserValidateur) == v
  {
    v.(statut := ValidationStatus.Approuvee, dateValidation := Some(env.now), idUserValidateur := Some(userId))
  }

  /** A rejection: REJETEE, dated now, signed by the user, with the reason given. */
  function Rejected(v: Validation, userId: string, motif: string, env: Env): (r: Validation)
    ensures r.statut == ValidationStatus.Rejetee && r.dateValidation == Some(env.now) && r.idUserValidateur == Some(userId)
    ensures r.motifRejet == Some(motif)
    ensures r.(statut := v.statut, dateValidation := v.dateValidation, idUserValidateur := v.idUserValidateur,
               motifRejet := v.motifRejet) == v
  {
    v.(statut := ValidationStatus.Rejetee, dateValidation := Some(env.now), idUserValidateur := Some(userId), motifRejet := Some(motif))
  }

  /** `approve`: records the approval on the first request with the id, whatever its
      current status. */
  method Approve(store: Store, id: string, userId: string, env: Env) returns (r: Result<Validation>)
    modifies store
    ensures r.Err? <==> GetById(old(store.validations), id).Err?
    ensures r.Err? ==> r.msg == NotFound && store.Snapshot() == old(store.Snapshot())
    ensures r.Ok? ==>
      var i := IndexWhere(old(store.validations), HasId(id));
      r.value == Approved(old(store.validations)[i], userId, env)
      && store.Snapshot() == old(store.Snapshot()).(validations := old(store.validations)[i := r.value])
  {
    var i := IndexWhere(store.validations, HasId(id));
    if i < 0 {
      return Err(NotFound);
    }
    var v := store.validations[i].(statut := ValidationStatus.Approuvee, dateValidation := Some(env.now), idUserValidateur := Some(userId));
    store.validations := store.validations[i := v];
    r := Ok(v);
  }

  /** `reject`: records the rejection and its reason on the first request with the id,
      whatever its current status. */
  method Reject(store: Store, id: string, userId: string, motif: string, env: Env) returns (r: Result<Validation>)
    modifies store
    ensures r.Err? <==> GetById(old(store.validations), id).Err?
    ensures r.Err? ==> r.msg == NotFound && store.Snapshot() == old(store.Snapshot())
    ensures r.Ok? ==>
      var i := IndexWhere(old(store.validations), HasId(id));
      r.value == Rejected(old(store.validations)[i], userId, motif, env)
      && store.Snapshot() == old(store.Snapshot()).(validations := old(store.validations)[i := r.value])
  {
    var i := IndexWhere(store.validations, HasId(id));
    if i < 0 {
      return Err(NotFound);
    }
    var v := store.validations[i].(statut := ValidationStatus.Rejetee, dateValidation := Some(env.now), idUserValidateur := Some(userId),
                                   motifRejet := Some(motif));
    store.validations := store.validations[i := v];
    r := Ok(v);
  }

  /** A new request is listed among the pending ones, after those already there. */
  lemma CreatedIsPending(vs: seq<Validation>, kind: string, idEntite: string, raison: string, env: Env)
    ensures var v := NewValidationRecord(kind, idEntite, raison, env);
      GetAll(vs + [v], Some(ValidationStatus.EnAttente)).data
        == GetAll(vs, Some(ValidationStatus.EnAttente)).data + [v]
  {
    var v := NewValidationRecord(kind, idEntite, raison, env);
    var m := Matcher(Some(ValidationStatus.EnAttente));
    FilterSnoc(vs, v, m);
  }

  /** Decisions are not final: approving a rejected request makes it APPROUVEE but keeps
      the rejection reason, and the request is then found under its id as approved. */
  lemma ApproveAfterReject(vs: seq<Validation>, id: string, u1: string, u2: string, motif: string, e1: Env, e2: Env)
    requires GetById(vs, id).Ok?
    ensures var i := IndexWhere(vs, HasId(id));
      var rejected := vs[i := Rejected(vs[i], u1, motif, e1)];
      var approved := rejected[i := Approved(rejected[i], u2, e2)];
      GetById(approved, id).Ok?
      && GetById(approved, id).value.statut == ValidationStatus.Approuvee
      && GetById(approved, id).value.motifRejet == Some(motif)
  {
    var i := IndexWhere(vs, HasId(id));
    var rejected := vs[i := Rejected(vs[i], u1, motif, e1)];
    IndexWhereReplace(vs, HasId(id), Rejected(vs[i], u1, motif, e1));
    IndexWhereReplace(rejected, HasId(id), Approved(rejected[i], u2, e2));
  }
}
