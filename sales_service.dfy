/** Sales: the filtered, newest-first listing, lookup, status change and the sale
    transaction, which checks stock, numbers the sale and records its invoice, payment,
    warranties, stock exits and audit entry (services/mock-sales-service.ts). */
module SalesService {
  import opened Wrappers
  import opened Seqs
  import opened Text
  import opened Dates
  import opened Paging
  import opened Entities
  import opened BackOffice
  import Products = ProductService
  import Invoices = InvoiceService
  import Payments = PaymentService
  import Warranties = WarrantyService
  import Audits = AuditService

  /** `CreateSaleData`. */
  datatype NewSale = NewSale(
    idClient: string, idUser: string, lignes: seq<LineInput>, remiseGlobale: int, modePaiement: string)

  /** `getAll` parameters that the listing reads; the dates are the parsed bounds. */
  datatype SaleQuery = SaleQuery(
    statut: Option<SaleStatus>, idClient: Option<string>, dateDebut: Option<Instant>, dateFin: Option<Instant>)

  const NotFound := "Sale not found"

  function HasId(id: string): Sale -> bool
  {
    (v: Sale) => v.idVente == id
  }

  function ClientWithId(id: string): Client -> bool
  {
    (c: Client) => c.idClient == id
  }

  function UserWithId(id: string): User -> bool
  {
    (u: User) => u.id == id
  }

  /** ----- Listing, lookup and status ----- */

  /** Sold inside `[from, to]`, both ends included. */
  predicate SoldWithin(v: Sale, from: Instant, to: Instant)
  {
    Rank(from) <= Rank(v.dateVente) <= Rank(to)
  }

  /** The listing's selection criterion, stated directly: the date range counts only
      when both of its ends are given. */
  predicate Matches(v: Sale, q: SaleQuery)
  {
    && (q.statut.Some? ==> v.statut == q.statut.value)
    && (Given(q.idClient) ==> v.idClient == q.idClient.value)
    && (q.dateDebut.Some? && q.dateFin.Some? ==> SoldWithin(v, q.dateDebut.value, q.dateFin.value))
  }

  function Matcher(q: SaleQuery): Sale -> bool
  {
    (v: Sale) => Matches(v, q)
  }

  /** The filters the listing applies one after the other. */
  function Filters(q: SaleQuery): seq<Option<Sale -> bool>>
  {
    [ if q.statut.Some? then Some((v: Sale) => v.statut == q.statut.value) else None,
      if Given(q.idClient) then Some((v: Sale) => v.idClient == q.idClient.value) else None,
      if q.dateDebut.Some? && q.dateFin.Some?
      then Some((v: Sale) => SoldWithin(v, q.dateDebut.value, q.dateFin.value)) else None ]
  }

  lemma FiltersMeanMatches(q: SaleQuery)
    ensures forall v :: PassesAll(v, Filters(q)) == Matches(v, q)
  {
    forall v ensures PassesAll(v, Filters(q)) == Matches(v, q) {
      var cs := Filters(q);
      assert PassesAll(v, cs) == ((cs[0].None? || cs[0].value(v)) && (cs[1].None? || cs[1].value(v))
        && (cs[2].None? || cs[2].value(v)));
    }
  }

  /** The successive filters keep, in store order, exactly the matching sales. */
  function FilterSales(ventes: seq<Sale>, q: SaleQuery): (r: seq<Sale>)
    ensures r == Filter(ventes, Matcher(q))
  {
    FilterChainIsConjunction(ventes, Filters(q));
    FiltersMeanMatches(q);
    FilterExt(ventes, PassesAllOf(Filters(q)), Matcher(q));
    FilterChain(ventes, Filters(q))
  }

  /** The sort key: the time of the sale. */
  function SoldAt(v: Sale): int
  {
    Rank(v.dateVente)
  }

  /** `getAll`: the matching sales, newest first, sorted on a copy. */
  function GetAll(ventes: seq<Sale>, q: SaleQuery): (r: Listing<Sale>)
    ensures multiset(r.data) == multiset(Filter(ventes, Matcher(q)))
    ensures SortedDesc(r.data, SoldAt)
    ensures forall v :: v in r.data <==> v in ventes && Matches(v, q)
    ensures r.meta == ListMeta(|Filter(ventes, Matcher(q))|, 1, 100)
  {
    var sorted := SortDesc(FilterSales(ventes, q), SoldAt);
    ReorderedFilterMembers(ventes, Matcher(q), sorted);
    Unpaged(sorted)
  }

  /** `getById`: the first sale with the id, or the source's error. */
  function GetById(ventes: seq<Sale>, id: string): (r: Result<Sale>)
    ensures r.Err? <==> forall k :: 0 <= k < |ventes| ==> ventes[k].idVente != id
    ensures r.Err? ==> r.msg == NotFound
    ensures r.Ok? ==> r.value.idVente == id && r.value == ventes[IndexWhere(ventes, HasId(id))]
  {
    var v := FindFirst(ventes, HasId(id));
    if v.None? then Err(NotFound) else Ok(v.value)
  }

  /** `updateStatus`: sets any status, whatever the current one is. */
  method UpdateStatus(store: Store, id: string, statut: SaleStatus) returns (r: Result<Sale>)
    modifies store
    ensures r.Err? <==> GetById(old(store.ventes), id).Err?
    ensures r.Err? ==> r.msg == NotFound && store.Snapshot() == old(store.Snapshot())
    ensures r.Ok? ==>
      var i := IndexWhere(old(store.ventes), HasId(id));
      r.value == old(store.ventes)[i].(statut := statut)
      && store.Snapshot() == old(store.Snapshot()).(ventes := old(store.ventes)[i := r.value])
  {
    var i := IndexWhere(store.ventes, HasId(id));
    if i < 0 {
      return Err(NotFound);
    }
    var v := store.ventes[i].(statut := statut);
    store.ventes := store.ventes[i := v];
    r := Ok(v);
  }

  /** ----- The sale transaction, as a function of the whole store ----- */

  /** The product a line names: the first with its id. */
  function Lookup(ps: seq<Product>, id: string): Option<Product>
  {
    FindFirst(ps, Products.HasId(id))
  }

  /** The stock check fails for a line: its product is missing or holds fewer units
      than the line asks for. Each line is checked on its own. */
  predicate Short(ps: seq<Product>, l: LineInput)
  {
    var p := Lookup(ps, l.idProduit);
    p.None? || p.value.stock < l.quantite
  }

  function ShortIn(ps: seq<Product>): LineInput -> bool
  {
    (l: LineInput) => Short(ps, l)
  }

  /** The error a failing line raises; a missing product prints as "undefined". */
  function ShortMessage(ps: seq<Product>, l: LineInput): string
  {
    var p := Lookup(ps, l.idProduit);
    "Stock insuffisant pour " + (if p.Some? then p.value.nom else "undefined")
  }

  function SubTotal(l: LineInput): int
  {
    l.sousTotal
  }

  function Quantity(l: LineInput): int
  {
    l.quantite
  }

  /** The number the next sale receives when `count` sales exist. */
  function SaleNumber(count: nat, env: Env): string
  {
    SequenceNumber("V", env.now.year, count + 1)
  }

  /** The stored lines: each submitted line with an id and the product it names. */
  function SaleLines(ps: seq<Product>, ls: seq<LineInput>, env: Env): (r: seq<SaleLine>)
    ensures |r| == |ls|
    ensures forall k :: 0 <= k < |ls| ==>
      r[k].idProduit == ls[k].idProduit && r[k].quantite == ls[k].quantite
      && r[k].prixUnitaire == ls[k].prixUnitaire && r[k].remise == ls[k].remise
      && r[k].sousTotal == ls[k].sousTotal && r[k].produit == Lookup(ps, ls[k].idProduit)
  {
    seq(|ls|, k requires 0 <= k < |ls| =>
      SaleLine("ligne-" + NatToString(env.stamp) + "-" + env.random(k), ls[k].idProduit, ls[k].quantite,
               ls[k].prixUnitaire, ls[k].remise, ls[k].sousTotal, Lookup(ps, ls[k].idProduit)))
  }

  /** The sale record: totals from the submitted subtotals, the global discount, the
      next number, status VALIDEE and the client and user it names. */
  function NewSaleRecord(st: State, data: NewSale, env: Env): Sale
  {
    var brut := SumBy(data.lignes, SubTotal);
    Sale("vente-" + NatToString(env.stamp), SaleNumber(|st.ventes|, env), data.idClient, data.idUser,
         env.now, brut, data.remiseGlobale, brut - data.remiseGlobale, Validee,
         SaleLines(st.produits, data.lignes, env),
         FindFirst(st.clients, ClientWithId(data.idClient)), FindFirst(st.users, UserWithId(data.idUser)))
  }

  /** The warranty length of a line's product; an absent product or length counts as 0. */
  function WarrantyMonths(ps: seq<Product>, l: LineInput): int
  {
    var p := Lookup(ps, l.idProduit);
    if p.Some? && p.value.garantieMois.Some? then p.value.garantieMois.value else 0
  }

  predicate Covered(ps: seq<Product>, l: LineInput)
  {
    WarrantyMonths(ps, l) > 0
  }

  function CoveredIn(ps: seq<Product>): LineInput -> bool
  {
    (l: LineInput) => Covered(ps, l)
  }

  /** The warranty request a covered line makes. */
  function WarrantyRequest(ps: seq<Product>, l: LineInput, idVente: string, env: Env): Warranties.NewWarranty
  {
    var m := WarrantyMonths(ps, l);
    Warranties.NewWarranty(idVente, l.idProduit, env.now, m, Some("Garantie constructeur " + IntToString(m) + " mois"))
  }

  function WarrantyOf(ps: seq<Product>, idVente: string, env: Env): LineInput -> Warranty
  {
    (l: LineInput) => Warranties.NewWarrantyRecord(WarrantyRequest(ps, l, idVente, env), env)
  }

  /** The warranties the lines produce, in line order. */
  function SaleWarranties(ps: seq<Product>, ls: seq<LineInput>, idVente: string, env: Env): seq<Warranty>
    decreases |ls|
  {
    if |ls| == 0 then []
    else
      var prev := SaleWarranties(ps, ls[..|ls| - 1], idVente, env);
      var l := ls[|ls| - 1];
      if Covered(ps, l) then prev + [WarrantyOf(ps, idVente, env)(l)] else prev
  }

  /** One line's stock decrement: the first product with the line's id loses the
      line's quantity; with no such product nothing changes. */
  function Decrement(ps: seq<Product>, l: LineInput): seq<Product>
  {
    var i := IndexWhere(ps, Products.HasId(l.idProduit));
    if i < 0 then ps else ps[i := ps[i].(stock := ps[i].stock - l.quantite)]
  }

  /** The products after the decrements of the lines, applied in order. */
  function Decrements(ps: seq<Product>, ls: seq<LineInput>): seq<Product>
    decreases |ls|
  {
    if |ls| == 0 then ps else Decrement(Decrements(ps, ls[..|ls| - 1]), ls[|ls| - 1])
  }

  /** One more line applies one more decrement. */
  lemma DecrementsStep(ps: seq<Product>, ls: seq<LineInput>, i: nat)
    requires i < |ls|
    ensures Decrements(ps, ls[..i + 1]) == Decrement(Decrements(ps, ls[..i]), ls[i])
  {
    assert ls[..i + 1][..i] == ls[..i];
  }

  /** The stock exit recorded for line `k` while the products read `current`. */
  function ExitFor(current: seq<Product>, users: seq<User>, data: NewSale, numero: string, env: Env, k: nat): (m: Movement)
    requires k < |data.lignes|
    ensures m.typeMouvement == Sortie && m.quantite == data.lignes[k].quantite
    ensures m.idProduit == data.lignes[k].idProduit && m.idUser == data.idUser
    ensures m.motif == Some("Vente " + numero) && m.dateMouvement == env.now
  {
    var l := data.lignes[k];
    var p := Lookup(current, l.idProduit);
    var u := FindFirst(users, UserWithId(data.idUser));
    Movement("mouv-" + NatToString(env.stamp) + "-" + env.random(|data.lignes| + k), l.idProduit, data.idUser,
             Sortie, l.quantite, Some("Vente " + numero), env.now,
             if p.Some? then Some(ProductRef(p.value.nom, p.value.codeProduit)) else None,
             if u.Some? then Some(UserRef(u.value.username, u.value.email)) else None)
  }

  /** The stock exit recorded for line `k`; the product summary is read after the
      decrements of the lines before it. */
  function SaleMovement(ps: seq<Product>, users: seq<User>, data: NewSale, numero: string, env: Env, k: nat): Movement
    requires k < |data.lignes|
  {
    ExitFor(Decrements(ps, data.lignes[..k]), users, data, numero, env, k)
  }

  function SaleMovements(ps: seq<Product>, users: seq<User>, data: NewSale, numero: string, env: Env): (r: seq<Movement>)
    ensures |r| == |data.lignes|
  {
    seq(|data.lignes|, k requires 0 <= k < |data.lignes| => SaleMovement(ps, users, data, numero, env, k))
  }

  /** What the audit entry of a sale records as the new values. */
  function AuditValues(v: Sale): Json
  {
    Obj([("numeroVente", Str(v.numeroVente)), ("totalNet", Num(v.totalNet)),
         ("client", if v.client.Some? then Str(v.client.value.nom) else Undefined)])
  }

  /** The invoice request of a sale: its net total, due thirty days from now. */
  function InvoiceRequest(v: Sale, env: Env): Invoices.NewInvoice
  {
    Invoices.NewInvoice(v.idVente, v.totalNet, AddDays(env.now, 30))
  }

  function PaymentRequest(v: Sale, data: NewSale): Payments.NewPayment
  {
    Payments.NewPayment(v.idVente, v.totalNet, data.modePaiement, None)
  }

  function SaleAudit(v: Sale, data: NewSale, env: Env): AuditLog
  {
    Audits.NewAuditRecord(data.idUser, "CREATE_SALE", "Vente", v.idVente, Null, AuditValues(v), env)
  }

  /** What a call returns and the store it leaves behind. */
  datatype Outcome = Outcome(result: Result<Sale>, state: State)

  /** `create`, as a function of the store before the call: refused, with the store
      untouched, exactly when some line's product is missing or short; otherwise the
      sale is appended with one invoice, one payment and one audit entry. Clients,
      categories, users, validations and claims are never touched. */
  function SaleCreation(st: State, data: NewSale, env: Env): (o: Outcome)
    ensures o.result.Err? <==> exists k :: 0 <= k < |data.lignes| && Short(st.produits, data.lignes[k])
    ensures o.result.Err? ==> o.state == st
    ensures o.state.clients == st.clients && o.state.categories == st.categories && o.state.users == st.users
    ensures o.state.validations == st.validations && o.state.reclamations == st.reclamations
    ensures o.result.Ok? ==>
      o.state.ventes == st.ventes + [o.result.value] &&
      |o.state.factures| == |st.factures| + 1 && |o.state.paiements| == |st.paiements| + 1 &&
      |o.state.audits| == |st.audits| + 1
  {
    var bad := IndexWhere(data.lignes, ShortIn(st.produits));
    if bad >= 0 then Outcome(Err(ShortMessage(st.produits, data.lignes[bad])), st)
    else
      var v := NewSaleRecord(st, data, env);
      Outcome(Ok(v), st.(
        ventes := st.ventes + [v],
        factures := st.factures + [Invoices.NewInvoiceRecord(InvoiceRequest(v, env), |st.factures|, env)],
        paiements := st.paiements + [Payments.NewPaymentRecord(PaymentRequest(v, data), env)],
        garanties := st.garanties + SaleWarranties(st.produits, data.lignes, v.idVente, env),
        mouvementsStock := st.mouvementsStock + SaleMovements(st.produits, st.users, data, v.numeroVente, env),
        produits := Decrements(st.produits, data.lignes),
        audits := st.audits + [SaleAudit(v, data, env)]))
  }

  /** ----- The sale transaction, step by step on the store ----- */

  /** The stock check of `create`: the position of the first line whose product is
      missing or short, or -1 when every line passes. */
  method CheckStock(produits: seq<Product>, lignes: seq<LineInput>) returns (bad: int)
    ensures bad == IndexWhere(lignes, ShortIn(produits))
    ensures bad >= 0 ==> 0 <= bad < |lignes| && Short(produits, lignes[bad])
    ensures bad < 0 ==> forall k :: 0 <= k < |lignes| ==> !Short(produits, lignes[k])
  {
    var i := 0;
    while i < |lignes|
      invariant 0 <= i <= |lignes|
      invariant forall k :: 0 <= k < i ==> !Short(produits, lignes[k])
    {
      var produit := Lookup(produits, lignes[i].idProduit);
      if produit.None? || produit.value.stock < lignes[i].quantite {
        assert ShortIn(produits)(lignes[i]);
        return i;
      }
      i := i + 1;
    }
    return -1;
  }

  /** The warranty step of `create`: one warranty per line whose product carries a
      positive number of months, in line order. */
  method AddWarranties(store: Store, lignes: seq<LineInput>, idVente: string, env: Env)
    modifies store
    ensures store.Snapshot() == old(store.Snapshot()).(
      garanties := old(store.garanties) + SaleWarranties(old(store.produits), lignes, idVente, env))
  {
    ghost var st := store.Snapshot();
    var i := 0;
    while i < |lignes|
      invariant 0 <= i <= |lignes|
      invariant store.Snapshot() == st.(garanties := st.garanties + SaleWarranties(st.produits, lignes[..i], idVente, env))
    {
      SaleWarrantiesStep(st.produits, lignes, i, idVente, env);
      var produit := Lookup(store.produits, lignes[i].idProduit);
      if produit.Some? && produit.value.garantieMois.Some? && produit.value.garantieMois.value > 0 {
        var months := produit.value.garantieMois.value;
        var w := Warranties.Create(store, Warranties.NewWarranty(idVente, lignes[i].idProduit, env.now,
                   months, Some("Garantie constructeur " + IntToString(months) + " mois")), env);
        assert w == WarrantyOf(st.produits, idVente, env)(lignes[i]);
      }
      i := i + 1;
    }
    assert lignes[..|lignes|] == lignes;
  }

  /** One line of the stock step: its exit is recorded, then the first product with
      the line's id loses the line's quantity. */
  method RecordExit(store: Store, data: NewSale, numeroVente: string, env: Env, i: nat)
    requires i < |data.lignes|
    modifies store
    ensures store.Snapshot() == old(store.Snapshot()).(
      mouvementsStock := old(store.mouvementsStock)
        + [ExitFor(old(store.produits), old(store.users), data, numeroVente, env, i)],
      produits := Decrement(old(store.produits), data.lignes[i]))
  {
    var ligne := data.lignes[i];
    var produit := Lookup(store.produits, ligne.idProduit);
    var user := FindFirst(store.users, UserWithId(data.idUser));
    var exit := Movement("mouv-" + NatToString(env.stamp) + "-" + env.random(|data.lignes| + i), ligne.idProduit,
                         data.idUser, Sortie, ligne.quantite, Some("Vente " + numeroVente), env.now,
                         if produit.Some? then Some(ProductRef(produit.value.nom, produit.value.codeProduit)) else None,
                         if user.Some? then Some(UserRef(user.value.username, user.value.email)) else None);
    assert exit == ExitFor(store.produits, store.users, data, numeroVente, env, i);
    store.mouvementsStock := store.mouvementsStock + [exit];
    TakeStock(store, ligne);
  }

  /** The decrement of one line: the first product with the line's id loses the line's
      quantity. */
  method TakeStock(store: Store, ligne: LineInput)
    modifies store
    ensures store.Snapshot() == old(store.Snapshot()).(produits := Decrement(old(store.produits), ligne))
  {
    var j := IndexWhere(store.produits, Products.HasId(ligne.idProduit));
    if j >= 0 {
      store.produits := store.produits[j := store.produits[j].(stock := store.produits[j].stock - ligne.quantite)];
    }
  }

  /** The stock step of `create`: per line, in order, one exit and one decrement. */
  method RecordExits(store: Store, data: NewSale, numeroVente: string, env: Env)
    modifies store
    ensures store.Snapshot() == old(store.Snapshot()).(
      mouvementsStock := old(store.mouvementsStock)
        + SaleMovements(old(store.produits), old(store.users), data, numeroVente, env),
      produits := Decrements(old(store.produits), data.lignes))
  {
    ghost var st := store.Snapshot();
    ghost var exits := SaleMovements(st.produits, st.users, data, numeroVente, env);
    var i := 0;
    while i < |data.lignes|
      invariant 0 <= i <= |data.lignes|
      invariant store.Snapshot() == st.(
        mouvementsStock := st.mouvementsStock + exits[..i],
        produits := Decrements(st.produits, data.lignes[..i]))
    {
      DecrementsStep(st.produits, data.lignes, i);
      assert exits[i] == ExitFor(store.produits, store.users, data, numeroVente, env, i);
      RecordExit(store, data, numeroVente, env, i);
      TakeSnoc(exits, i);
      i := i + 1;
    }
    assert data.lignes[..|data.lignes|] == data.lignes;
    assert exits[..|data.lignes|] == exits;
  }

  /** The first write of `create`: the sale record, with its totals, number, lines,
      client and user, appended to the sales. */
  method RecordSale(store: Store, data: NewSale, env: Env) returns (newSale: Sale)
    modifies store
    ensures newSale == NewSaleRecord(old(store.Snapshot()), data, env)
    ensures store.Snapshot() == old(store.Snapshot()).(ventes := old(store.ventes) + [newSale])
  {
    var totalBrut := SumBy(data.lignes, SubTotal);
    var totalNet := totalBrut - data.remiseGlobale;
    var numeroVente := SaleNumber(|store.ventes|, env);
    newSale := Sale("vente-" + NatToString(env.stamp), numeroVente, data.idClient, data.idUser, env.now,
                    totalBrut, data.remiseGlobale, totalNet, Validee, SaleLines(store.produits, data.lignes, env),
                    FindFirst(store.clients, ClientWithId(data.idClient)),
                    FindFirst(store.users, UserWithId(data.idUser)));
    store.ventes := store.ventes + [newSale];
  }

  /** `create`: checks every line, then appends the sale, its invoice and payment, one
      warranty per covered line, one exit per line with the stock decrement, and the
      audit entry. A failing check returns before anything is written. */
  method Create(store: Store, data: NewSale, env: Env) returns (r: Result<Sale>)
    modifies store
    ensures Outcome(r, store.Snapshot()) == SaleCreation(old(store.Snapshot()), data, env)
  {
    var bad := CheckStock(store.produits, data.lignes);
    if bad >= 0 {
      return Err(ShortMessage(store.produits, data.lignes[bad]));
    }
    var newSale := RecordSale(store, data, env);
    var invoice := Invoices.Create(store, InvoiceRequest(newSale, env), env);
    var payment := Payments.Create(store, PaymentRequest(newSale, data), env);
    AddWarranties(store, data.lignes, newSale.idVente, env);
    RecordExits(store, data, newSale.numeroVente, env);
    var audit := Audits.Log(store, data.idUser, "CREATE_SALE", "Vente", newSale.idVente, Null, AuditValues(newSale), env);
    r := Ok(newSale);
  }

  /** ----- What a sale creation guarantees ----- */

  /** The creation fails exactly when some line is short, taken on its own against the
      stock before the call; it then reports the first short line and leaves the store
      as it was. */
  lemma CreateChecksStock(st: State, data: NewSale, env: Env)
    ensures var o := SaleCreation(st, data, env);
      (o.result.Err? <==> exists k :: 0 <= k < |data.lignes| && Short(st.produits, data.lignes[k]))
      && (o.result.Err? ==>
            o.state == st
            && exists k :: (0 <= k < |data.lignes| && Short(st.produits, data.lignes[k])
                           && (forall j :: 0 <= j < k ==> !Short(st.produits, data.lignes[j]))
                           && o.result.msg == ShortMessage(st.produits, data.lignes[k])))
  {
    var bad := IndexWhere(data.lignes, ShortIn(st.produits));
    if bad >= 0 {
      assert Short(st.produits, data.lignes[bad]);
    } else {
      assert forall k :: 0 <= k < |data.lignes| ==> !ShortIn(st.produits)(data.lignes[k]);
    }
  }

  /** The stored lines carry the submitted subtotals, so the gross total is also the sum
      over the stored lines; the net total subtracts the global discount with no floor. */
  lemma CreateTotals(st: State, data: NewSale, env: Env)
    requires SaleCreation(st, data, env).result.Ok?
    ensures var v := SaleCreation(st, data, env).result.value;
      v.totalBrut == SumBy(data.lignes, SubTotal)
      && v.totalBrut == SumBy(v.lignes, (l: SaleLine) => l.sousTotal)
      && v.totalNet == v.totalBrut - data.remiseGlobale
      && v.remise == data.remiseGlobale && v.statut == Validee && v.dateVente == env.now
      && v.idClient == data.idClient && v.idUser == data.idUser
  {
    var v := SaleCreation(st, data, env).result.value;
    SumByPointwise(data.lignes, SubTotal, v.lignes, (l: SaleLine) => l.sousTotal);
  }

  /** The sale number is "V-", the year and a dash, then the count of earlier sales plus
      one in at least six digits; two creations from different counts in the same year
      therefore never share a number. */
  lemma CreateNumbering(st: State, data: NewSale, env: Env)
    requires SaleCreation(st, data, env).result.Ok?
    ensures var n := SaleCreation(st, data, env).result.value.numeroVente;
      var tail := n[CounterStart("V", env.now.year)..];
      n[..2] == "V-" && |tail| >= 6 && AllDigits(tail) && DigitsValue(tail) == |st.ventes| + 1
  {
    CreationResult(st, data, env);
    SaleNumberLayout(|st.ventes|, env);
  }

  /** A successful creation returns the sale record built from the store before it. */
  lemma CreationResult(st: State, data: NewSale, env: Env)
    requires SaleCreation(st, data, env).result.Ok?
    ensures SaleCreation(st, data, env).result.value == NewSaleRecord(st, data, env)
  {
  }

  /** The layout of the number given after `count` earlier sales. */
  lemma SaleNumberLayout(count: nat, env: Env)
    ensures var n := SaleNumber(count, env);
      var tail := n[CounterStart("V", env.now.year)..];
      n[..2] == "V-" && |tail| >= 6 && AllDigits(tail) && DigitsValue(tail) == count + 1
  {
    CounterDecodes("V", env.now.year, count + 1);
  }

  lemma SaleNumbersDistinct(c1: nat, c2: nat, env1: Env, env2: Env)
    requires c1 != c2 && env1.now.year == env2.now.year
    ensures SaleNumber(c1, env1) != SaleNumber(c2, env2)
  {
    if SaleNumber(c1, env1) == SaleNumber(c2, env2) {
      SequenceNumberInjective("V", env1.now.year, c1 + 1, c2 + 1);
    }
  }

  /** A successful creation appends exactly one sale, one invoice and one payment for
      the net total, and one CREATE_SALE audit entry on "Vente"; clients, categories,
      validations, claims and users are untouched. */
  lemma CreateAppendsOneOfEach(st: State, data: NewSale, env: Env)
    requires SaleCreation(st, data, env).result.Ok?
    ensures var o := SaleCreation(st, data, env); var v := o.result.value;
      o.state.ventes == st.ventes + [v]
      && |o.state.factures| == |st.factures| + 1 && o.state.factures[..|st.factures|] == st.factures
      && |o.state.paiements| == |st.paiements| + 1 && o.state.paiements[..|st.paiements|] == st.paiements
      && |o.state.audits| == |st.audits| + 1 && o.state.audits[..|st.audits|] == st.audits
      && o.state.clients == st.clients && o.state.categories == st.categories
      && o.state.validations == st.validations && o.state.reclamations == st.reclamations
      && o.state.users == st.users
  {
    var o := SaleCreation(st, data, env);
    assert o.state.factures[..|st.factures|] == st.factures;
    assert o.state.paiements[..|st.paiements|] == st.paiements;
    assert o.state.audits[..|st.audits|] == st.audits;
  }

  /** What the appended invoice, payment and audit entry say about the sale. */
  lemma CreateLinkedRecords(st: State, data: NewSale, env: Env)
    requires SaleCreation(st, data, env).result.Ok?
    ensures var o := SaleCreation(st, data, env); var v := o.result.value;
      var f := o.state.factures[|st.factures|];
      var p := o.state.paiements[|st.paiements|];
      var a := o.state.audits[|st.audits|];
      f.idVente == v.idVente && f.montantTotal == v.totalNet && f.montantPaye == 0
      && f.statut == Generee && f.dateEcheance == AddDays(env.now, 30)
      && p.idVente == v.idVente && p.montant == v.totalNet && p.modePaiement == data.modePaiement
      && p.statut == Valide
      && a.action == "CREATE_SALE" && a.entite == "Vente" && a.idEntite == v.idVente
      && a.idUser == data.idUser && a.anciennesValeurs == Null
  {
  }

  /** The warranties are the covered lines mapped to their records, in line order. */
  lemma {:induction false} SaleWarrantiesOfCoveredLines(ps: seq<Product>, ls: seq<LineInput>, idVente: string, env: Env)
    ensures SaleWarranties(ps, ls, idVente, env) == MapSeq(Filter(ls, CoveredIn(ps)), WarrantyOf(ps, idVente, env))
    decreases |ls|
  {
    if |ls| > 0 {
      var init, l := ls[..|ls| - 1], ls[|ls| - 1];
      var c, f := CoveredIn(ps), WarrantyOf(ps, idVente, env);
      assert ls == init + [l];
      SaleWarrantiesOfCoveredLines(ps, init, idVente, env);
      FilterSnoc(init, l, c);
      if Covered(ps, l) {
        MapSnoc(Filter(init, c), l, f);
      }
    }
  }

  /** The warranties of a list of lines: one per line whose product carries a positive
      number of months, in line order, each for the line's product and that many
      months from now. */
  lemma WarrantiesOfLines(ps: seq<Product>, ls: seq<LineInput>, idVente: string, env: Env)
    ensures var covered := Filter(ls, CoveredIn(ps));
      var ws := SaleWarranties(ps, ls, idVente, env);
      |ws| == |covered|
      && (forall l :: l in covered <==> l in ls && WarrantyMonths(ps, l) > 0)
      && forall k :: 0 <= k < |covered| ==>
        var m := WarrantyMonths(ps, covered[k]);
        ws[k].idVente == idVente && ws[k].idProduit == covered[k].idProduit
        && ws[k].dateDebut == env.now && ws[k].statut == Active
        && ws[k].dateFin == AddMonths(env.now, m)
        && ws[k].description == "Garantie constructeur " + IntToString(m) + " mois"
  {
    SaleWarrantiesOfCoveredLines(ps, ls, idVente, env);
    var covered := Filter(ls, CoveredIn(ps));
    var ws := SaleWarranties(ps, ls, idVente, env);
    forall l ensures l in covered <==> l in ls && WarrantyMonths(ps, l) > 0 {
      if l in covered {
        FilterMember(ls, CoveredIn(ps), l);
      }
    }
    forall k | 0 <= k < |covered|
      ensures var m := WarrantyMonths(ps, covered[k]);
        ws[k].idVente == idVente && ws[k].idProduit == covered[k].idProduit
        && ws[k].dateDebut == env.now && ws[k].statut == Active
        && ws[k].dateFin == AddMonths(env.now, m)
        && ws[k].description == "Garantie constructeur " + IntToString(m) + " mois"
    {
      assert ws[k] == WarrantyOf(ps, idVente, env)(covered[k]);
      WarrantyOfLine(ps, covered[k], idVente, env);
    }
  }

  /** The warranty one line produces. */
  lemma WarrantyOfLine(ps: seq<Product>, l: LineInput, idVente: string, env: Env)
    ensures var w := WarrantyOf(ps, idVente, env)(l); var m := WarrantyMonths(ps, l);
      w.idVente == idVente && w.idProduit == l.idProduit
      && w.dateDebut == env.now && w.statut == Active
      && w.dateFin == AddMonths(env.now, m)
      && w.description == "Garantie constructeur " + IntToString(m) + " mois"
  {
    var w := Warranties.NewWarrantyRecord(WarrantyRequest(ps, l, idVente, env), env);
    assert WarrantyOf(ps, idVente, env)(l) == w;
  }

  /** One more line adds its warranty when it is covered. */
  lemma SaleWarrantiesStep(ps: seq<Product>, ls: seq<LineInput>, i: nat, idVente: string, env: Env)
    requires i < |ls|
    ensures SaleWarranties(ps, ls[..i + 1], idVente, env)
      == SaleWarranties(ps, ls[..i], idVente, env)
         + if Covered(ps, ls[i]) then [WarrantyOf(ps, idVente, env)(ls[i])] else []
  {
    assert ls[..i + 1][..i] == ls[..i];
  }

  /** One warranty per line whose product carries a positive number of months, in line
      order: it belongs to the sale, starts now, lasts that many months and says so in
      its description. Lines with no such product get none. */
  lemma CreateWarranties(st: State, data: NewSale, env: Env)
    requires SaleCreation(st, data, env).result.Ok?
    ensures var o := SaleCreation(st, data, env); var v := o.result.value;
      var covered := Filter(data.lignes, CoveredIn(st.produits));
      var added := o.state.garanties[|st.garanties|..];
      o.state.garanties == st.garanties + added && |added| == |covered|
      && (forall l :: l in covered <==> l in data.lignes && WarrantyMonths(st.produits, l) > 0)
      && forall k :: 0 <= k < |covered| ==>
        var m := WarrantyMonths(st.produits, covered[k]);
        added[k].idVente == v.idVente && added[k].idProduit == covered[k].idProduit
        && added[k].dateDebut == env.now && added[k].statut == Active
        && added[k].dateFin == AddMonths(env.now, m)
        && added[k].description == "Garantie constructeur " + IntToString(m) + " mois"
  {
    var o := SaleCreation(st, data, env);
    var v := o.result.value;
    var ws := SaleWarranties(st.produits, data.lignes, v.idVente, env);
    assert o.state.garanties == st.garanties + ws;
    assert o.state.garanties[|st.garanties|..] == ws;
    WarrantiesOfLines(st.produits, data.lignes, v.idVente, env);
  }

  /** One SORTIE exit per line, in line order, for the line's product and quantity,
      with the motive "Vente " and the sale number. */
  lemma CreateMovements(st: State, data: NewSale, env: Env)
    requires SaleCreation(st, data, env).result.Ok?
    ensures var o := SaleCreation(st, data, env); var v := o.result.value;
      var added := o.state.mouvementsStock[|st.mouvementsStock|..];
      o.state.mouvementsStock == st.mouvementsStock + added && |added| == |data.lignes|
      && forall k :: 0 <= k < |data.lignes| ==>
        added[k].typeMouvement == Sortie && added[k].idProduit == data.lignes[k].idProduit
        && added[k].quantite == data.lignes[k].quantite && added[k].idUser == data.idUser
        && added[k].motif == Some("Vente " + v.numeroVente)
  {
    var o := SaleCreation(st, data, env);
    var v := o.result.value;
    var ms := SaleMovements(st.produits, st.users, data, v.numeroVente, env);
    assert o.state.mouvementsStock[|st.mouvementsStock|..] == ms;
    forall k | 0 <= k < |data.lignes|
      ensures ms[k] == SaleMovement(st.produits, st.users, data, v.numeroVente, env, k)
    {
    }
  }

  function LineFor(id: string): LineInput -> bool
  {
    (l: LineInput) => l.idProduit == id
  }

  /** The units the lines take from the product at `j`: the quantities of every line
      naming its id when it is the first product with that id, nothing otherwise. */
  function Taken(ps: seq<Product>, ls: seq<LineInput>, j: nat): int
    requires j < |ps|
  {
    if IndexWhere(ps, Products.HasId(ps[j].idProduit)) == j
    then SumBy(Filter(ls, LineFor(ps[j].idProduit)), Quantity)
    else 0
  }

  /** One more line adds its quantity to what the first product with its id loses. */
  lemma TakenAppend(ps: seq<Product>, init: seq<LineInput>, l: LineInput, j: nat)
    requires j < |ps|
    ensures Taken(ps, init + [l], j) == Taken(ps, init, j)
      + if IndexWhere(ps, Products.HasId(ps[j].idProduit)) == j && l.idProduit == ps[j].idProduit
        then l.quantite else 0
  {
    var id := ps[j].idProduit;
    FilterAppend(init, [l], LineFor(id));
    assert Filter([l], LineFor(id)) == if l.idProduit == id then [l] else [] by {
      assert [l][1..] == [];
    }
    SumByAppend(Filter(init, LineFor(id)), Filter([l], LineFor(id)), Quantity);
    assert SumBy([l], Quantity) == l.quantite;
  }

  /** One decrement step, seen from the product at `j`. */
  lemma DecrementStep(ps: seq<Product>, before: seq<Product>, init: seq<LineInput>, l: LineInput, j: nat)
    requires |before| == |ps| && j < |ps|
    requires forall k :: 0 <= k < |ps| ==> before[k].idProduit == ps[k].idProduit
    requires before[j] == ps[j].(stock := ps[j].stock - Taken(ps, init, j))
    ensures |Decrement(before, l)| == |ps|
    ensures Decrement(before, l)[j] == ps[j].(stock := ps[j].stock - Taken(ps, init + [l], j))
  {
    var hit := Products.HasId(l.idProduit);
    IndexWhereAgree(before, ps, hit);
    TakenAppend(ps, init, l, j);
    var i := IndexWhere(ps, hit);
    if l.idProduit == ps[j].idProduit {
      assert Products.HasId(ps[j].idProduit) == hit;
    }
  }

  /** The decrements change stock only, each product losing what the lines take from it. */
  lemma {:induction false} DecrementsTake(ps: seq<Product>, ls: seq<LineInput>)
    ensures |Decrements(ps, ls)| == |ps|
    ensures forall j :: 0 <= j < |ps| ==>
      Decrements(ps, ls)[j] == ps[j].(stock := ps[j].stock - Taken(ps, ls, j))
    decreases |ls|
  {
    if |ls| > 0 {
      var init, l := ls[..|ls| - 1], ls[|ls| - 1];
      assert ls == init + [l];
      DecrementsTake(ps, init);
      var before := Decrements(ps, init);
      assert Decrements(ps, ls) == Decrement(before, l);
      forall j | 0 <= j < |ps|
        ensures Decrements(ps, ls)[j] == ps[j].(stock := ps[j].stock - Taken(ps, ls, j))
      {
        DecrementStep(ps, before, init, l, j);
      }
    }
  }

  /** With distinct product ids, every product is the first with its own id, so it takes
      the quantities of all the lines naming it. */
  lemma TakenWithDistinctIds(ps: seq<Product>, ls: seq<LineInput>, j: nat)
    requires j < |ps|
    requires forall a, b :: 0 <= a < b < |ps| ==> ps[a].idProduit != ps[b].idProduit
    ensures Taken(ps, ls, j) == SumBy(Filter(ls, LineFor(ps[j].idProduit)), Quantity)
  {
    assert Products.HasId(ps[j].idProduit)(ps[j]);
  }

  /** Stock after a creation: each product loses the total quantity of the lines naming
      it (the first product with a given id takes it all), and nothing but stock changes. */
  lemma CreateStock(st: State, data: NewSale, env: Env)
    requires SaleCreation(st, data, env).result.Ok?
    ensures var ps := SaleCreation(st, data, env).state.produits;
      |ps| == |st.produits|
      && forall j :: 0 <= j < |ps| ==>
        ps[j] == st.produits[j].(stock := st.produits[j].stock - Taken(st.produits, data.lignes, j))
  {
    DecrementsTake(st.produits, data.lignes);
  }

  /** With distinct product ids, every product loses exactly the sum of the quantities
      of the lines naming it. */
  lemma CreateStockDistinctIds(st: State, data: NewSale, env: Env)
    requires SaleCreation(st, data, env).result.Ok?
    requires forall i, j :: 0 <= i < j < |st.produits| ==> st.produits[i].idProduit != st.produits[j].idProduit
    ensures var ps := SaleCreation(st, data, env).state.produits;
      |ps| == |st.produits|
      && forall j :: 0 <= j < |ps| ==>
        ps[j].stock == st.produits[j].stock - SumBy(Filter(data.lignes, LineFor(st.produits[j].idProduit)), Quantity)
  {
    var ps := SaleCreation(st, data, env).state.produits;
    assert ps == Decrements(st.produits, data.lignes);
    DecrementsTake(st.produits, data.lignes);
    forall j | 0 <= j < |ps|
      ensures ps[j].stock == st.produits[j].stock - SumBy(Filter(data.lignes, LineFor(st.produits[j].idProduit)), Quantity)
    {
      TakenWithDistinctIds(st.produits, data.lignes, j);
    }
  }

  /** Two identical lines for the first product take twice the line's quantity from it. */
  lemma TakenByTwinLines(ps: seq<Product>, l: LineInput, ls: seq<LineInput>)
    requires |ps| > 0 && l.idProduit == ps[0].idProduit
    requires |ls| == 2 && ls[0] == l && ls[1] == l
    ensures Taken(ps, ls, 0) == 2 * l.quantite
  {
    assert ls == [l, l];
    assert Products.HasId(ps[0].idProduit)(ps[0]);
    FilterKeepsAll([l, l], LineFor(l.idProduit));
    assert [l, l][1..] == [l] && [l][1..] == [];
    assert SumBy([l], Quantity) == l.quantite;
    assert SumBy([l, l], Quantity) == l.quantite + SumBy([l], Quantity);
  }

  /** Each line is checked on its own against the stock before the sale, so two lines of
      `q` units for a product holding at least `q` but fewer than `2q` both pass, and the
      product ends with negative stock. */
  lemma RepeatedProductCanGoNegative(st: State, l: LineInput, data: NewSale, env: Env)
    requires |st.produits| > 0 && l.idProduit == st.produits[0].idProduit
    requires l.quantite <= st.produits[0].stock < 2 * l.quantite
    requires |data.lignes| == 2 && data.lignes[0] == l && data.lignes[1] == l
    ensures var o := SaleCreation(st, data, env);
      o.result.Ok? && |o.state.produits| == |st.produits|
      && o.state.produits[0].stock == st.produits[0].stock - 2 * l.quantite < 0
  {
    assert Products.HasId(l.idProduit)(st.produits[0]);
    assert !Short(st.produits, l);
    assert forall k :: 0 <= k < |data.lignes| ==> !Short(st.produits, data.lignes[k]);
    CreateChecksStock(st, data, env);
    assert SaleCreation(st, data, env).result.Ok?;
    CreateStock(st, data, env);
    TakenByTwinLines(st.produits, l, data.lignes);
  }

  /** Totals come from the submitted subtotals: a line of 2 units at 100 with a 10%
      discount submitted as 180, under a global discount of 5, nets 175; the same line
      submitted with a subtotal of 0 nets -5, since nothing is recomputed. */
  lemma SubmittedSubtotalsDecide(st: State, env: Env)
    requires forall k :: 0 <= k < |st.produits| ==> st.produits[k].stock >= 2
    requires |st.produits| > 0
    ensures var id := st.produits[0].idProduit;
      var o1 := SaleCreation(st, NewSale("client", "user", [LineInput(id, 2, 100, 10, 180)], 5, "ESPECES"), env);
      var o2 := SaleCreation(st, NewSale("client", "user", [LineInput(id, 2, 100, 10, 0)], 5, "ESPECES"), env);
      o1.result.Ok? && o1.result.value.totalBrut == 180 && o1.result.value.totalNet == 175
      && o2.result.Ok? && o2.result.value.totalBrut == 0 && o2.result.value.totalNet == -5
  {
    var id := st.produits[0].idProduit;
    var l1, l2 := LineInput(id, 2, 100, 10, 180), LineInput(id, 2, 100, 10, 0);
    assert Products.HasId(id)(st.produits[0]);
    assert !Short(st.produits, l1) && !Short(st.produits, l2);
    OneLineSale(st, NewSale("client", "user", [l1], 5, "ESPECES"), env);
    OneLineSale(st, NewSale("client", "user", [l2], 5, "ESPECES"), env);
  }

  /** A sale of one line that passes the stock check is created, with the line's
      submitted subtotal as gross total and that minus the global discount as net. */
  lemma OneLineSale(st: State, data: NewSale, env: Env)
    requires |data.lignes| == 1 && !Short(st.produits, data.lignes[0])
    ensures var o := SaleCreation(st, data, env);
      o.result.Ok? && o.result.value.totalBrut == data.lignes[0].sousTotal
      && o.result.value.totalNet == data.lignes[0].sousTotal - data.remiseGlobale
  {
    CreateChecksStock(st, data, env);
    CreateTotals(st, data, env);
    assert data.lignes[1..] == [];
  }
}
