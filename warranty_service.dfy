/** Warranties: filtered listing, lookup, creation with its end date, status change and
    the attestation document (services/mock-warranty-service.ts). */
module WarrantyService {
  import opened Wrappers
  import opened Seqs
  import opened Text
  import opened Dates
  import opened Paging
  import opened Entities
  import opened BackOffice

  /** `getAll` parameters that the listing reads; the dates are the parsed bounds. */
  datatype WarrantyQuery = WarrantyQuery(
    statut: Option<WarrantyStatus>, idProduit: Option<string>,
    dateDebut: Option<Instant>, dateFin: Option<Instant>)

  /** `CreateWarrantyData`. */
  datatype NewWarranty = NewWarranty(
    idVente: string, idProduit: string, dateDebut: Instant, dureeGarantieMois: int,
    description: Option<string>)

  const NotFound := "Warranty not found"

  const DefaultDescription := "Garantie constructeur"

  function HasId(id: string): Warranty -> bool
  {
    (w: Warranty) => w.idGarantie == id
  }

  /** Started inside `[from, to]`, both ends included. */
  predicate StartsWithin(w: Warranty, from: Instant, to: Instant)
  {
    Rank(from) <= Rank(w.dateDebut) <= Rank(to)
  }

  /** The listing's selection criterion, stated directly: the date range counts only
      when both of its ends are given. */
  predicate Matches(w: Warranty, q: WarrantyQuery)
  {
    && (q.statut.Some? ==> w.statut == q.statut.value)
    && (Given(q.idProduit) ==> w.idProduit == q.idProduit.value)
    && (q.dateDebut.Some? && q.dateFin.Some? ==> StartsWithin(w, q.dateDebut.value, q.dateFin.value))
  }

  function Matcher(q: WarrantyQuery): Warranty -> bool
  {
    (w: Warranty) => Matches(w, q)
  }

  /** The filters the listing applies one after the other. */
  function Filters(q: WarrantyQuery): seq<Option<Warranty -> bool>>
  {
    [ if q.statut.Some? then Some((w: Warranty) => w.statut == q.statut.value) else None,
      if Given(q.idProduit) then Some((w: Warranty) => w.idProduit == q.idProduit.value) else None,
      if q.dateDebut.Some? && q.dateFin.Some?
      then Some((w: Warranty) => StartsWithin(w, q.dateDebut.value, q.dateFin.value)) else None ]
  }

  lemma FiltersMeanMatches(q: WarrantyQuery)
    ensures forall w :: PassesAll(w, Filters(q)) == Matches(w, q)
  {
    forall w ensures PassesAll(w, Filters(q)) == Matches(w, q) {
      var cs := Filters(q);
      assert PassesAll(w, cs) == ((cs[0].None? || cs[0].value(w)) && (cs[1].None? || cs[1].value(w))
        && (cs[2].None? || cs[2].value(w)));
    }
  }

  /** `getAll`: the matching warranties in store order, unpaged. */
  function GetAll(ws: seq<Warranty>, q: WarrantyQuery): (r: Listing<Warranty>)
    ensures r.data == Filter(ws, Matcher(q)) && r.meta == ListMeta(|r.data|, 1, 100)
    ensures forall k :: 0 <= k < |r.data| ==> r.data[k] in ws && Matches(r.data[k], q)
    ensures forall k :: 0 <= k < |ws| && Matches(ws[k], q) ==> ws[k] in r.data
  {
    FilterChainIsConjunction(ws, Filters(q));
    FiltersMeanMatches(q);
    FilterExt(ws, PassesAllOf(Filters(q)), Matcher(q));
    Unpaged(FilterChain(ws, Filters(q)))
  }

  /** With only one end of the date range given, the range does not filter. */
  lemma HalfRangeIgnored(ws: seq<Warranty>, q: WarrantyQuery)
    requires q.dateDebut.None? || q.dateFin.None?
    ensures GetAll(ws, q) == GetAll(ws, q.(dateDebut := None, dateFin := None))
  {
    FilterExt(ws, Matcher(q), Matcher(q.(dateDebut := None, dateFin := None)));
  }

  /** `getById`: the first warranty with the id, or the source's error. */
  function GetById(ws: seq<Warranty>, id: string): (r: Result<Warranty>)
    ensures r.Err? <==> forall k :: 0 <= k < |ws| ==> ws[k].idGarantie != id
    ensures r.Err? ==> r.msg == NotFound
    ensures r.Ok? ==> r.value.idGarantie == id && r.value == ws[IndexWhere(ws, HasId(id))]
  {
    var w := FindFirst(ws, HasId(id));
    if w.None? then Err(NotFound) else Ok(w.value)
  }

  /** The record `create` builds: ACTIVE, starting at the given date and ending that many
      calendar months later; the description falls back to the default text. */
  function NewWarrantyRecord(data: NewWarranty, env: Env): (w: Warranty)
    ensures w.idVente == data.idVente && w.idProduit == data.idProduit
    ensures w.dateDebut == data.dateDebut && w.statut == Active
    ensures w.dateFin == AddMonths(data.dateDebut, data.dureeGarantieMois)
    ensures Given(data.description) ==> w.description == data.description.value
    ensures !Given(data.description) ==> w.description == DefaultDescription
  {
    Warranty("garantie-" + NatToString(env.stamp), data.idVente, data.idProduit, data.dateDebut,
             AddMonths(data.dateDebut, data.dureeGarantieMois), Active,
             if Given(data.description) then data.description.value else DefaultDescription)
  }

  /** `create`: appends the new warranty and returns it. */
  method Create(store: Store, data: NewWarranty, env: Env) returns (w: Warranty)
    modifies store
    ensures w == NewWarrantyRecord(data, env)
    ensures store.Snapshot() == old(store.Snapshot()).(garanties := old(store.garanties) + [w])
  {
    w := NewWarrantyRecord(data, env);
    store.garanties := store.garanties + [w];
  }

  /** `updateStatus`: sets any status, whatever the current one is. */
  method UpdateStatus(store: Store, id: string, statut: WarrantyStatus) returns (r: Result<Warranty>)
    modifies store
    ensures r.Err? <==> GetById(old(store.garanties), id).Err?
    ensures r.Err? ==> r.msg == NotFound && store.Snapshot() == old(store.Snapshot())
    ensures r.Ok? ==>
      var i := IndexWhere(old(store.garanties), HasId(id));
      r.value == old(store.garanties)[i].(statut := statut)
      && store.Snapshot() == old(store.Snapshot()).(garanties := old(store.garanties)[i := r.value])
  {
    var i := IndexWhere(store.garanties, HasId(id));
    if i < 0 {
      return Err(NotFound);
    }
    var w := store.garanties[i].(statut := statut);
    store.garanties := store.garanties[i := w];
    r := Ok(w);
  }

  /** `generateAttestation`: a document named after the warranty id. */
  function GenerateAttestation(ws: seq<Warranty>, id: string): (r: Result<Document>)
    ensures r.Err? <==> GetById(ws, id).Err?
    ensures r.Err? ==> r.msg == NotFound
    ensures r.Ok? ==>
      r.value.filename == "attestation-" + id + ".pdf" && r.value.content == "Attestation de garantie " + id
  {
    var w := GetById(ws, id);
    if w.Err? then Err(w.msg)
    else Ok(Document("attestation-" + w.value.idGarantie + ".pdf", "Attestation de garantie " + w.value.idGarantie))
  }

  /** A warranty of a positive number of months ends strictly after it starts, and one
      of zero months ends when it starts. */
  lemma EndAfterStart(data: NewWarranty, env: Env)
    ensures var w := NewWarrantyRecord(data, env);
      (data.dureeGarantieMois > 0 ==> Rank(w.dateFin) > Rank(w.dateDebut))
      && (data.dureeGarantieMois == 0 ==> w.dateFin == w.dateDebut)
  {
    if data.dureeGarantieMois > 0 {
      AddMonthsLater(data.dateDebut, data.dureeGarantieMois);
    } else if data.dureeGarantieMois == 0 {
      AddMonthsZero(data.dateDebut);
    }
  }

  /** A twelve-month warranty started on 31 January 2024 ends on 31 January 2025, while
      a one-month warranty started the same day ends on 2 March 2024 (February 2024 has
      29 days and the overflow rolls forward, as `setMonth` does). */
  lemma MonthArithmeticExamples(env: Env)
    ensures var start := DateTime(2024, 0, 31, 0);
      NewWarrantyRecord(NewWarranty("v", "p", start, 12, None), env).dateFin == DateTime(2025, 0, 31, 0)
      && NewWarrantyRecord(NewWarranty("v", "p", start, 1, None), env).dateFin == DateTime(2024, 2, 2, 0)
  {
  }
}
