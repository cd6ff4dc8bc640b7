/** Invoices: filtered listing, lookup, numbered creation, status change and the
    generated document (services/mock-invoice-service.ts). */
module InvoiceService {
  import opened Wrappers
  import opened Seqs
  import opened Text
  import opened Dates
  import opened Paging
  import opened Entities
  import opened BackOffice

  /** `getAll` parameters that the listing reads. */
  datatype InvoiceQuery = InvoiceQuery(statut: Option<InvoiceStatus>, idVente: Option<string>)

  /** `CreateInvoiceData`. */
  datatype NewInvoice = NewInvoice(idVente: string, montantTotal: int, dateEcheance: Instant)

  const NotFound := "Invoice not found"

  function HasId(id: string): Invoice -> bool
  {
    (f: Invoice) => f.idFacture == id
  }

  /** The listing's selection criterion, stated directly. */
  predicate Matches(f: Invoice, q: InvoiceQuery)
  {
    && (q.statut.Some? ==> f.statut == q.statut.value)
    && (Given(q.idVente) ==> f.idVente == q.idVente.value)
  }

  function Matcher(q: InvoiceQuery): Invoice -> bool
  {
    (f: Invoice) => Matches(f, q)
  }

  /** The filters the listing applies one after the other. */
  function Filters(q: InvoiceQuery): seq<Option<Invoice -> bool>>
  {
    [ if q.statut.Some? then Some((f: Invoice) => f.statut == q.statut.value) else None,
      if Given(q.idVente) then Some((f: Invoice) => f.idVente == q.idVente.value) else None ]
  }

  lemma FiltersMeanMatches(q: InvoiceQuery)
    ensures forall f :: PassesAll(f, Filters(q)) == Matches(f, q)
  {
    forall f ensures PassesAll(f, Filters(q)) == Matches(f, q) {
      var cs := Filters(q);
      assert PassesAll(f, cs) == ((cs[0].None? || cs[0].value(f)) && (cs[1].None? || cs[1].value(f)));
    }
  }

  /** `getAll`: the matching invoices in store order, unpaged. */
  function GetAll(fs: seq<Invoice>, q: InvoiceQuery): (r: Listing<Invoice>)
    ensures r.data == Filter(fs, Matcher(q)) && r.meta == ListMeta(|r.data|, 1, 100)
    ensures forall k :: 0 <= k < |r.data| ==> r.data[k] in fs && Matches(r.data[k], q)
    ensures forall k :: 0 <= k < |fs| && Matches(fs[k], q) ==> fs[k] in r.data
  {
    FilterChainIsConjunction(fs, Filters(q));
    FiltersMeanMatches(q);
    FilterExt(fs, PassesAllOf(Filters(q)), Matcher(q));
    Unpaged(FilterChain(fs, Filters(q)))
  }

  /** `getById`: the first invoice with the id, or the source's error. */
  function GetById(fs: seq<Invoice>, id: string): (r: Result<Invoice>)
    ensures r.Err? <==> forall k :: 0 <= k < |fs| ==> fs[k].idFacture != id
    ensures r.Err? ==> r.msg == NotFound
    ensures r.Ok? ==> r.value.idFacture == id && r.value == fs[IndexWhere(fs, HasId(id))]
  {
    var f := FindFirst(fs, HasId(id));
    if f.None? then Err(NotFound) else Ok(f.value)
  }

  /** The number the next invoice receives when `count` invoices exist. */
  function InvoiceNumber(count: nat, env: Env): string
  {
    SequenceNumber("F", env.now.year, count + 1)
  }

  /** The record `create` builds when `count` invoices exist: numbered from the count,
      nothing paid yet, status GENEREE. */
  function NewInvoiceRecord(data: NewInvoice, count: nat, env: Env): (f: Invoice)
    ensures f.numeroFacture == InvoiceNumber(count, env)
    ensures f.idVente == data.idVente && f.montantTotal == data.montantTotal
    ensures f.dateEcheance == data.dateEcheance
    ensures f.montantPaye == 0 && f.statut == Generee
    ensures f.dateFacture == env.now && f.dateCreation == env.now
  {
    Invoice("facture-" + NatToString(env.stamp), InvoiceNumber(count, env), data.idVente, env.now,
            data.montantTotal, 0, Generee, data.dateEcheance, env.now)
  }

  /** `create`: numbers the invoice from the current count and appends it. */
  method Create(store: Store, data: NewInvoice, env: Env) returns (f: Invoice)
    modifies store
    ensures f == NewInvoiceRecord(data, |old(store.factures)|, env)
    ensures store.Snapshot() == old(store.Snapshot()).(factures := old(store.factures) + [f])
  {
    f := NewInvoiceRecord(data, |store.factures|, env);
    store.factures := store.factures + [f];
  }

  /** `updateStatus`: sets any status, whatever the current one is. */
  method UpdateStatus(store: Store, id: string, statut: InvoiceStatus) returns (r: Result<Invoice>)
    modifies store
    ensures r.Err? <==> GetById(old(store.factures), id).Err?
    ensures r.Err? ==> r.msg == NotFound && store.Snapshot() == old(store.Snapshot())
    ensures r.Ok? ==>
      var i := IndexWhere(old(store.factures), HasId(id));
      r.value == old(store.factures)[i].(statut := statut)
      && store.Snapshot() == old(store.Snapshot()).(factures := old(store.factures)[i := r.value])
  {
    var i := IndexWhere(store.factures, HasId(id));
    if i < 0 {
      return Err(NotFound);
    }
    var f := store.factures[i].(statut := statut);
    store.factures := store.factures[i := f];
    r := Ok(f);
  }

  /** `generatePDF`: a document named after the invoice number. */
  function GeneratePdf(fs: seq<Invoice>, id: string): (r: Result<Document>)
    ensures r.Err? <==> GetById(fs, id).Err?
    ensures r.Err? ==> r.msg == NotFound
    ensures r.Ok? ==> var f := GetById(fs, id).value;
      r.value.filename == "facture-" + f.numeroFacture + ".pdf"
      && r.value.content == "Facture " + f.numeroFacture
  {
    var f := GetById(fs, id);
    if f.Err? then Err(f.msg)
    else Ok(Document("facture-" + f.value.numeroFacture + ".pdf", "Facture " + f.value.numeroFacture))
  }

  /** The counter inside an invoice number is the invoice's position, counted from 1:
      its digits read back as `count + 1`. */
  lemma NumberCountsInvoices(count: nat, env: Env)
    ensures var n := InvoiceNumber(count, env);
      var tail := n[CounterStart("F", env.now.year)..];
      n[..2] == "F-" && |tail| >= 6 && AllDigits(tail) && DigitsValue(tail) == count + 1
  {
    CounterDecodes("F", env.now.year, count + 1);
  }

  /** Two invoices created in the same year from different counts get different
      numbers, so consecutive creations never share a number. */
  lemma NumbersDistinct(d1: NewInvoice, d2: NewInvoice, c1: nat, c2: nat, env1: Env, env2: Env)
    requires c1 != c2 && env1.now.year == env2.now.year
    ensures NewInvoiceRecord(d1, c1, env1).numeroFacture != NewInvoiceRecord(d2, c2, env2).numeroFacture
  {
    if NewInvoiceRecord(d1, c1, env1).numeroFacture == NewInvoiceRecord(d2, c2, env2).numeroFacture {
      SequenceNumberInjective("F", env1.now.year, c1 + 1, c2 + 1);
    }
  }

  /** Changing a status leaves the invoice findable under the same id, with the new status. */
  lemma UpdatedIsFound(fs: seq<Invoice>, id: string, statut: InvoiceStatus)
    requires GetById(fs, id).Ok?
    ensures var i := IndexWhere(fs, HasId(id));
      GetById(fs[i := fs[i].(statut := statut)], id) == Ok(fs[i].(statut := statut))
  {
    var i := IndexWhere(fs, HasId(id));
    IndexWhereReplace(fs, HasId(id), fs[i].(statut := statut));
  }
}
