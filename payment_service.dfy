/** Payments: filtered listing, lookup, creation and the receipt document
    (services/mock-payment-service.ts). */
module PaymentService {
  import opened Wrappers
  import opened Seqs
  import opened Text
  import opened Dates
  import opened Paging
  import opened Entities
  import opened BackOffice

  /** `getAll` parameters that the listing reads. */
  datatype PaymentQuery = PaymentQuery(
    modePaiement: Option<string>, statut: Option<PaymentStatus>, idVente: Option<string>)

  /** `CreatePaymentData`; the mode is any string, it is not checked. */
  datatype NewPayment = NewPayment(idVente: string, montant: int, modePaiement: string, reference: Option<string>)

  const NotFound := "Payment not found"

  function HasId(id: string): Payment -> bool
  {
    (p: Payment) => p.idPaiement == id
  }

  /** The listing's selection criterion, stated directly. */
  predicate Matches(p: Payment, q: PaymentQuery)
  {
    && (Given(q.modePaiement) ==> p.modePaiement == q.modePaiement.value)
    && (q.statut.Some? ==> p.statut == q.statut.value)
    && (Given(q.idVente) ==> p.idVente == q.idVente.value)
  }

  function Matcher(q: PaymentQuery): Payment -> bool
  {
    (p: Payment) => Matches(p, q)
  }

  /** The filters the listing applies one after the other. */
  function Filters(q: PaymentQuery): seq<Option<Payment -> bool>>
  {
    [ if Given(q.modePaiement) then Some((p: Payment) => p.modePaiement == q.modePaiement.value) else None,
      if q.statut.Some? then Some((p: Payment) => p.statut == q.statut.value) else None,
      if Given(q.idVente) then Some((p: Payment) => p.idVente == q.idVente.value) else None ]
  }

  lemma FiltersMeanMatches(q: PaymentQuery)
    ensures forall p :: PassesAll(p, Filters(q)) == Matches(p, q)
  {
    forall p ensures PassesAll(p, Filters(q)) == Matches(p, q) {
      var cs := Filters(q);
      assert PassesAll(p, cs) == ((cs[0].None? || cs[0].value(p)) && (cs[1].None? || cs[1].value(p))
        && (cs[2].None? || cs[2].value(p)));
    }
  }

  /** `getAll`: the matching payments in store order, unpaged. */
  function GetAll(ps: seq<Payment>, q: PaymentQuery): (r: Listing<Payment>)
    ensures r.data == Filter(ps, Matcher(q)) && r.meta == ListMeta(|r.data|, 1, 100)
    ensures forall k :: 0 <= k < |r.data| ==> r.data[k] in ps && Matches(r.data[k], q)
    ensures forall k :: 0 <= k < |ps| && Matches(ps[k], q) ==> ps[k] in r.data
  {
    FilterChainIsConjunction(ps, Filters(q));
    FiltersMeanMatches(q);
    FilterExt(ps, PassesAllOf(Filters(q)), Matcher(q));
    Unpaged(FilterChain(ps, Filters(q)))
  }

  /** `getById`: the first payment with the id, or the source's error. */
  function GetById(ps: seq<Payment>, id: string): (r: Result<Payment>)
    ensures r.Err? <==> forall k :: 0 <= k < |ps| ==> ps[k].idPaiement != id
    ensures r.Err? ==> r.msg == NotFound
    ensures r.Ok? ==> r.value.idPaiement == id && r.value == ps[IndexWhere(ps, HasId(id))]
  {
    var p := FindFirst(ps, HasId(id));
    if p.None? then Err(NotFound) else Ok(p.value)
  }

  /** `data.reference || "REF-" + Date.now()`. */
  function ReferenceFor(reference: Option<string>, env: Env): (r: string)
    ensures Given(reference) ==> r == reference.value
    ensures !Given(reference) ==> r == "REF-" + NatToString(env.stamp)
    ensures r != ""
  {
    if Given(reference) then reference.value else "REF-" + NatToString(env.stamp)
  }

  /** The record `create` builds: status VALIDE, the submitted sale, amount and mode. */
  function NewPaymentRecord(data: NewPayment, env: Env): (p: Payment)
    ensures p.statut == Valide
    ensures p.idVente == data.idVente && p.montant == data.montant && p.modePaiement == data.modePaiement
    ensures p.reference == ReferenceFor(data.reference, env)
    ensures p.datePaiement == env.now && p.dateCreation == env.now
  {
    Payment("paiement-" + NatToString(env.stamp), data.idVente, data.montant, data.modePaiement,
            Valide, env.now, ReferenceFor(data.reference, env), env.now)
  }

  /** `create`: appends the new payment and returns it. */
  method Create(store: Store, data: NewPayment, env: Env) returns (p: Payment)
    modifies store
    ensures p == NewPaymentRecord(data, env)
    ensures store.Snapshot() == old(store.Snapshot()).(paiements := old(store.paiements) + [p])
  {
    p := NewPaymentRecord(data, env);
    store.paiements := store.paiements + [p];
  }

  /** `generateReceipt`: a document named after the payment reference. */
  function GenerateReceipt(ps: seq<Payment>, id: string): (r: Result<Document>)
    ensures r.Err? <==> GetById(ps, id).Err?
    ensures r.Err? ==> r.msg == NotFound
    ensures r.Ok? ==> var p := GetById(ps, id).value;
      r.value.filename == "bordereau-" + p.reference + ".pdf"
      && r.value.content == "Bordereau de paiement " + p.reference
  {
    var p := GetById(ps, id);
    if p.Err? then Err(p.msg)
    else Ok(Document("bordereau-" + p.value.reference + ".pdf", "Bordereau de paiement " + p.value.reference))
  }

  /** A created payment is listed under its own sale, mode and VALIDE status. */
  lemma CreatedIsListed(ps: seq<Payment>, data: NewPayment, env: Env)
    ensures var p := NewPaymentRecord(data, env);
      var q := PaymentQuery(Some(data.modePaiement), Some(Valide), Some(data.idVente));
      GetAll(ps + [p], q).data == GetAll(ps, q).data + [p]
  {
    var p := NewPaymentRecord(data, env);
    var q := PaymentQuery(Some(data.modePaiement), Some(Valide), Some(data.idVente));
    FilterAppend(ps, [p], Matcher(q));
    assert Filter([p], Matcher(q)) == [p] by {
      assert Matches(p, q);
      assert Filter([p][1..], Matcher(q)) == [];
    }
  }
}
