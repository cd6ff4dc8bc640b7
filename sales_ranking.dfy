/** The rankings of the sales service: best-selling products by revenue and best
    clients by amount spent, accumulated over every sale in a dictionary keyed by id
    (services/mock-sales-service.ts, `getTopProducts` and `getTopClients`). */
module SalesRanking {
  import opened Wrappers
  import opened Seqs
  import opened Entities
  import ClientService

  /** The limit both rankings use when none is passed. */
  const DefaultLimit := 5

  /** ----- Products ----- */

  /** One entry of the product dictionary. */
  datatype ProductSales = ProductSales(product: Option<Product>, quantity: int, revenue: int)

  function Revenue(e: ProductSales): int
  {
    e.revenue
  }

  function LineOf(id: string): SaleLine -> bool
  {
    (l: SaleLine) => l.idProduit == id
  }

  function LineQuantity(l: SaleLine): int
  {
    l.quantite
  }

  function LineRevenue(l: SaleLine): int
  {
    l.sousTotal
  }

  /** One line added to the dictionary: its product's entry is created on first sight
      with the line's product and zero totals, then takes the line's quantity and
      subtotal. */
  function AddLine(acc: seq<(string, ProductSales)>, l: SaleLine): seq<(string, ProductSales)>
  {
    var k := KeyIndex(acc, l.idProduit);
    var grown := if k < 0 then acc + [(l.idProduit, ProductSales(l.produit, 0, 0))] else acc;
    var at := if k < 0 then |acc| else k;
    var e := grown[at].1;
    grown[at := (l.idProduit, e.(quantity := e.quantity + l.quantite, revenue := e.revenue + l.sousTotal))]
  }

  function AddLines(acc: seq<(string, ProductSales)>, ls: seq<SaleLine>): seq<(string, ProductSales)>
    decreases |ls|
  {
    if |ls| == 0 then acc else AddLine(AddLines(acc, ls[..|ls| - 1]), ls[|ls| - 1])
  }

  /** The dictionary after every line of every sale, in store order. */
  function ProductTotals(ventes: seq<Sale>): seq<(string, ProductSales)>
    decreases |ventes|
  {
    if |ventes| == 0 then [] else AddLines(ProductTotals(ventes[..|ventes| - 1]), ventes[|ventes| - 1].lignes)
  }

  /** Every line of every sale, in store order. */
  function AllLines(ventes: seq<Sale>): seq<SaleLine>
    decreases |ventes|
  {
    if |ventes| == 0 then [] else AllLines(ventes[..|ventes| - 1]) + ventes[|ventes| - 1].lignes
  }

  /** `getTopProducts`, as a function of the sales. */
  function TopProducts(ventes: seq<Sale>, limit: Option<int>): seq<ProductSales>
  {
    JsSlice(SortDesc(Values(ProductTotals(ventes)), Revenue), 0, GetOr(limit, DefaultLimit))
  }

  /** The inner loop of `getTopProducts`: the lines of one sale added in order. */
  method TallyLines(acc: seq<(string, ProductSales)>, lignes: seq<SaleLine>) returns (productSales: seq<(string, ProductSales)>)
    ensures productSales == AddLines(acc, lignes)
  {
    productSales := acc;
    var j := 0;
    while j < |lignes|
      invariant 0 <= j <= |lignes|
      invariant productSales == AddLines(acc, lignes[..j])
    {
      var ligne := lignes[j];
      ghost var before := productSales;
      var k := KeyIndex(productSales, ligne.idProduit);
      if k < 0 {
        productSales := productSales + [(ligne.idProduit, ProductSales(ligne.produit, 0, 0))];
        k := |productSales| - 1;
      }
      var entry := productSales[k].1;
      productSales := productSales[k := (ligne.idProduit, entry.(quantity := entry.quantity + ligne.quantite,
                                                                revenue := entry.revenue + ligne.sousTotal))];
      assert productSales == AddLine(before, ligne);
      assert lignes[..j + 1][..j] == lignes[..j];
      j := j + 1;
    }
    assert lignes[..j] == lignes;
  }

  /** `getTopProducts`: accumulates the dictionary sale by sale and line by line, then
      returns its values by revenue, largest first, cut at the limit. */
  method GetTopProducts(ventes: seq<Sale>, limit: Option<int>) returns (r: seq<ProductSales>)
    ensures r == TopProducts(ventes, limit)
  {
    var productSales: seq<(string, ProductSales)> := [];
    var i := 0;
    while i < |ventes|
      invariant 0 <= i <= |ventes|
      invariant productSales == ProductTotals(ventes[..i])
    {
      productSales := TallyLines(productSales, ventes[i].lignes);
      assert ventes[..i + 1][..i] == ventes[..i];
      i := i + 1;
    }
    assert ventes[..i] == ventes;
    r := JsSlice(SortDesc(Values(productSales), Revenue), 0, GetOr(limit, DefaultLimit));
  }

  /** The quantity sold of a product over the lines `ls`. */
  function QuantityOf(ls: seq<SaleLine>, id: string): int
  {
    SumBy(Filter(ls, LineOf(id)), LineQuantity)
  }

  /** The revenue of a product over the lines `ls`. */
  function RevenueOf(ls: seq<SaleLine>, id: string): int
  {
    SumBy(Filter(ls, LineOf(id)), LineRevenue)
  }

  /** One more line adds its quantity and subtotal to its own product's figures only. */
  lemma LineFiguresSnoc(ls: seq<SaleLine>, l: SaleLine, id: string)
    ensures QuantityOf(ls + [l], id) == QuantityOf(ls, id) + if l.idProduit == id then l.quantite else 0
    ensures RevenueOf(ls + [l], id) == RevenueOf(ls, id) + if l.idProduit == id then l.sousTotal else 0
  {
    FilterSumSnoc(ls, l, LineOf(id), LineQuantity);
    FilterSumSnoc(ls, l, LineOf(id), LineRevenue);
    assert LineOf(id)(l) <==> l.idProduit == id;
  }

  /** One dictionary entry accounts for the lines `ls`: it holds the product of the first
      line with its id and the sums of the quantities and subtotals of all lines with it. */
  ghost predicate EntryTallies(e: (string, ProductSales), ls: seq<SaleLine>)
  {
    var first := IndexWhere(ls, LineOf(e.0));
    && 0 <= first
    && e.1.product == ls[first].produit
    && e.1.quantity == QuantityOf(ls, e.0)
    && e.1.revenue == RevenueOf(ls, e.0)
  }

  /** The dictionary accounts for the lines `ls`: one entry per product id met, each
      accounting for the lines. */
  ghost predicate TalliesLines(acc: seq<(string, ProductSales)>, ls: seq<SaleLine>)
  {
    && DistinctKeys(acc)
    && (forall k :: 0 <= k < |ls| ==> KeyIndex(acc, ls[k].idProduit) >= 0)
    && forall j :: 0 <= j < |acc| ==> EntryTallies(acc[j], ls)
  }

  /** A line for another product leaves an entry's account unchanged. */
  lemma EntryOtherLine(e: (string, ProductSales), ls: seq<SaleLine>, l: SaleLine)
    requires EntryTallies(e, ls) && e.0 != l.idProduit
    ensures EntryTallies(e, ls + [l])
  {
    var f := LineOf(e.0);
    LineFiguresSnoc(ls, l, e.0);
    IndexWhereSnoc(ls, l, f);
    assert (ls + [l])[IndexWhere(ls, f)] == ls[IndexWhere(ls, f)];
  }

  /** An entry after one more line for its product. */
  function LineAdded(e: (string, ProductSales), l: SaleLine): (string, ProductSales)
  {
    (e.0, e.1.(quantity := e.1.quantity + l.quantite, revenue := e.1.revenue + l.sousTotal))
  }

  /** A line for the entry's product adds its quantity and subtotal. */
  lemma EntrySameLine(e: (string, ProductSales), ls: seq<SaleLine>, l: SaleLine)
    requires EntryTallies(e, ls) && e.0 == l.idProduit
    ensures EntryTallies(LineAdded(e, l), ls + [l])
  {
    var f := LineOf(e.0);
    LineFiguresSnoc(ls, l, e.0);
    IndexWhereSnoc(ls, l, f);
    assert (ls + [l])[IndexWhere(ls, f)] == ls[IndexWhere(ls, f)];
  }

  /** The first line for a product opens its entry. */
  lemma EntryFirstLine(ls: seq<SaleLine>, l: SaleLine)
    requires forall m :: 0 <= m < |ls| ==> ls[m].idProduit != l.idProduit
    ensures EntryTallies((l.idProduit, ProductSales(l.produit, 0 + l.quantite, 0 + l.sousTotal)), ls + [l])
  {
    var f := LineOf(l.idProduit);
    FilterNone(ls, f);
    assert QuantityOf(ls, l.idProduit) == 0 && RevenueOf(ls, l.idProduit) == 0;
    LineFiguresSnoc(ls, l, l.idProduit);
    IndexWhereSnoc(ls, l, f);
    assert (ls + [l])[|ls|] == l;
  }

  /** What adding a line does to the dictionary: the line's entry is updated in place,
      or appended when its product is new, and every other entry stays. */
  lemma AddLineShape(acc: seq<(string, ProductSales)>, l: SaleLine)
    ensures var next := AddLine(acc, l); var k := KeyIndex(acc, l.idProduit);
      && |next| == (if k < 0 then |acc| + 1 else |acc|)
      && (forall j :: 0 <= j < |acc| && j != k ==> next[j] == acc[j])
      && (k < 0 ==> next[|acc|] == (l.idProduit, ProductSales(l.produit, 0 + l.quantite, 0 + l.sousTotal)))
      && (k >= 0 ==> next[k] == (acc[k].0, acc[k].1.(quantity := acc[k].1.quantity + l.quantite,
                                                     revenue := acc[k].1.revenue + l.sousTotal)))
      && (DistinctKeys(acc) ==> DistinctKeys(next))
      && forall j :: 0 <= j < |acc| ==> next[j].0 == acc[j].0
  {
  }

  /** The entry of a product already met is the one a line updates. */
  lemma AddLineAt(acc: seq<(string, ProductSales)>, l: SaleLine)
    requires KeyIndex(acc, l.idProduit) >= 0
    ensures AddLine(acc, l)[KeyIndex(acc, l.idProduit)] == LineAdded(acc[KeyIndex(acc, l.idProduit)], l)
  {
  }

  /** Adding one line keeps every entry accounting for the lines seen so far. */
  lemma AddLineEntries(acc: seq<(string, ProductSales)>, ls: seq<SaleLine>, l: SaleLine)
    requires DistinctKeys(acc)
    requires forall j :: 0 <= j < |acc| ==> EntryTallies(acc[j], ls)
    requires forall m :: 0 <= m < |ls| ==> KeyIndex(acc, ls[m].idProduit) >= 0
    ensures forall j :: 0 <= j < |AddLine(acc, l)| ==> EntryTallies(AddLine(acc, l)[j], ls + [l])
  {
    var next := AddLine(acc, l);
    var k := KeyIndex(acc, l.idProduit);
    AddLineShape(acc, l);
    forall j | 0 <= j < |next| ensures EntryTallies(next[j], ls + [l]) {
      if j < |acc| && j != k {
        assert next[j] == acc[j];
        assert acc[j].0 != l.idProduit;
        EntryOtherLine(acc[j], ls, l);
      } else if k < 0 {
        assert j == |acc|;
        forall m | 0 <= m < |ls| ensures ls[m].idProduit != l.idProduit {
          assert KeyIndex(acc, ls[m].idProduit) >= 0;
        }
        EntryFirstLine(ls, l);
      } else {
        SameLineEntry(acc, ls, l);
      }
    }
  }

  /** The entry of a product already met, after one more line for it. */
  lemma SameLineEntry(acc: seq<(string, ProductSales)>, ls: seq<SaleLine>, l: SaleLine)
    requires KeyIndex(acc, l.idProduit) >= 0
    requires EntryTallies(acc[KeyIndex(acc, l.idProduit)], ls)
    ensures EntryTallies(AddLine(acc, l)[KeyIndex(acc, l.idProduit)], ls + [l])
  {
    var k := KeyIndex(acc, l.idProduit);
    AddLineAt(acc, l);
    EntrySameLine(acc[k], ls, l);
  }

  /** Adding one line keeps the dictionary accounting for the lines seen so far. */
  lemma AddLineTallies(acc: seq<(string, ProductSales)>, ls: seq<SaleLine>, l: SaleLine)
    requires TalliesLines(acc, ls)
    ensures TalliesLines(AddLine(acc, l), ls + [l])
  {
    AddLineShape(acc, l);
    AddLineEntries(acc, ls, l);
    AddLineKeysPresent(acc, ls, l);
  }

  /** Every product met so far still has an entry after one more line. */
  lemma AddLineKeysPresent(acc: seq<(string, ProductSales)>, ls: seq<SaleLine>, l: SaleLine)
    requires forall m :: 0 <= m < |ls| ==> KeyIndex(acc, ls[m].idProduit) >= 0
    ensures forall m :: 0 <= m < |ls + [l]| ==> KeyIndex(AddLine(acc, l), (ls + [l])[m].idProduit) >= 0
  {
    var next := AddLine(acc, l);
    var k := KeyIndex(acc, l.idProduit);
    AddLineShape(acc, l);
    forall m | 0 <= m < |ls + [l]| ensures KeyIndex(next, (ls + [l])[m].idProduit) >= 0 {
      var x := (ls + [l])[m].idProduit;
      if m < |ls| {
        assert (ls + [l])[m] == ls[m];
        assert next[KeyIndex(acc, x)].0 == x;
      } else {
        assert next[if k < 0 then |acc| else k].0 == x;
      }
    }
  }

  lemma {:induction false} AddLinesTallies(acc: seq<(string, ProductSales)>, ls: seq<SaleLine>, more: seq<SaleLine>)
    requires TalliesLines(acc, ls)
    ensures TalliesLines(AddLines(acc, more), ls + more)
    decreases |more|
  {
    if |more| == 0 {
      assert ls + more == ls;
      assert AddLines(acc, more) == acc;
    } else {
      var init, l := more[..|more| - 1], more[|more| - 1];
      var mid := AddLines(acc, init);
      assert AddLines(acc, more) == AddLine(mid, l);
      assert ls + more == (ls + init) + [l];
      AddLinesTallies(acc, ls, init);
      AddLineTallies(mid, ls + init, l);
    }
  }

  /** The product dictionary accounts for every line of every sale. */
  lemma {:induction false} ProductTotalsTally(ventes: seq<Sale>)
    ensures TalliesLines(ProductTotals(ventes), AllLines(ventes))
    decreases |ventes|
  {
    if |ventes| > 0 {
      var init := ventes[..|ventes| - 1];
      ProductTotalsTally(init);
      AddLinesTallies(ProductTotals(init), AllLines(init), ventes[|ventes| - 1].lignes);
    }
  }

  /** `getTopProducts` returns entries of the dictionary, largest revenue first, as many
      as the limit allows; each entry sums the quantities and subtotals of all the lines
      of all the sales for one product, and every product sold has an entry. */
  lemma TopProductsRanked(ventes: seq<Sale>, limit: Option<int>)
    ensures var acc := ProductTotals(ventes); var r := TopProducts(ventes, limit);
      && SortedDesc(r, Revenue)
      && |r| == SliceBound(GetOr(limit, DefaultLimit), |acc|)
      && (forall e :: e in r ==> e in Values(acc))
      && (forall x, y :: x in r && y in multiset(Values(acc)) - multiset(r) ==> Revenue(x) >= Revenue(y))
      && TalliesLines(acc, AllLines(ventes))
  {
    var acc := ProductTotals(ventes);
    var sorted := SortDesc(Values(acc), Revenue);
    var n := SliceBound(GetOr(limit, DefaultLimit), |acc|);
    SortedDescSlice(sorted, Revenue, 0, n);
    assert TopProducts(ventes, limit) == sorted[..n];
    PrefixOutranksRest(sorted, Revenue, n);
    forall e | e in sorted[..n] ensures e in Values(acc) {
      assert e in multiset(sorted);
    }
    ProductTotalsTally(ventes);
  }

  /** ----- Clients ----- */

  /** One entry of the client dictionary. */
  datatype ClientSales = ClientSales(client: Option<Client>, totalSpent: int, purchaseCount: int)

  function Spent(e: ClientSales): int
  {
    e.totalSpent
  }

  /** One sale added to the dictionary: its client's entry is created on first sight
      with the sale's client and zero totals, then takes the net total and one purchase. */
  function AddSale(acc: seq<(string, ClientSales)>, v: Sale): seq<(string, ClientSales)>
  {
    var k := KeyIndex(acc, v.idClient);
    var grown := if k < 0 then acc + [(v.idClient, ClientSales(v.client, 0, 0))] else acc;
    var at := if k < 0 then |acc| else k;
    var e := grown[at].1;
    grown[at := (v.idClient, e.(totalSpent := e.totalSpent + v.totalNet, purchaseCount := e.purchaseCount + 1))]
  }

  /** The dictionary after every sale, in store order. */
  function ClientTotals(ventes: seq<Sale>): seq<(string, ClientSales)>
    decreases |ventes|
  {
    if |ventes| == 0 then [] else AddSale(ClientTotals(ventes[..|ventes| - 1]), ventes[|ventes| - 1])
  }

  /** `getTopClients`, as a function of the sales. */
  function TopClients(ventes: seq<Sale>, limit: Option<int>): seq<ClientSales>
  {
    JsSlice(SortDesc(Values(ClientTotals(ventes)), Spent), 0, GetOr(limit, DefaultLimit))
  }

  /** `getTopClients`: accumulates the dictionary sale by sale, then returns its values
      by amount spent, largest first, cut at the limit. */
  method GetTopClients(ventes: seq<Sale>, limit: Option<int>) returns (r: seq<ClientSales>)
    ensures r == TopClients(ventes, limit)
  {
    var clientSales: seq<(string, ClientSales)> := [];
    var i := 0;
    while i < |ventes|
      invariant 0 <= i <= |ventes|
      invariant clientSales == ClientTotals(ventes[..i])
    {
      var sale := ventes[i];
      var k := KeyIndex(clientSales, sale.idClient);
      if k < 0 {
        clientSales := clientSales + [(sale.idClient, ClientSales(sale.client, 0, 0))];
        k := |clientSales| - 1;
      }
      var entry := clientSales[k].1;
      clientSales := clientSales[k := (sale.idClient, entry.(totalSpent := entry.totalSpent + sale.totalNet,
                                                            purchaseCount := entry.purchaseCount + 1))];
      assert ventes[..i + 1][..i] == ventes[..i];
      i := i + 1;
    }
    assert ventes[..i] == ventes;
    r := JsSlice(SortDesc(Values(clientSales), Spent), 0, GetOr(limit, DefaultLimit));
  }

  /** One dictionary entry accounts for the sales `vs`: it holds the client of the
      first sale with its id, the sum of their net totals and their number. */
  ghost predicate EntryCounts(e: (string, ClientSales), vs: seq<Sale>)
  {
    var first := IndexWhere(vs, ClientService.SaleOf(e.0));
    && 0 <= first
    && e.1.client == vs[first].client
    && e.1.totalSpent == ClientService.Spent(vs, e.0)
    && e.1.purchaseCount == ClientService.Bought(vs, e.0)
  }

  /** The dictionary accounts for the sales `vs`: one entry per client id met, each
      accounting for the sales. */
  ghost predicate TalliesSales(acc: seq<(string, ClientSales)>, vs: seq<Sale>)
  {
    && DistinctKeys(acc)
    && (forall k :: 0 <= k < |vs| ==> KeyIndex(acc, vs[k].idClient) >= 0)
    && forall j :: 0 <= j < |acc| ==> EntryCounts(acc[j], vs)
  }

  lemma EntryOtherSale(e: (string, ClientSales), vs: seq<Sale>, v: Sale)
    requires EntryCounts(e, vs) && e.0 != v.idClient
    ensures EntryCounts(e, vs + [v])
  {
    var f := ClientService.SaleOf(e.0);
    ClientService.FiguresAfterSale(vs, v, e.0);
    IndexWhereSnoc(vs, v, f);
    assert (vs + [v])[IndexWhere(vs, f)] == vs[IndexWhere(vs, f)];
  }

  /** An entry after one more sale of its client. */
  function SaleAdded(e: (string, ClientSales), v: Sale): (string, ClientSales)
  {
    (e.0, e.1.(totalSpent := e.1.totalSpent + v.totalNet, purchaseCount := e.1.purchaseCount + 1))
  }

  lemma EntrySameSale(e: (string, ClientSales), vs: seq<Sale>, v: Sale)
    requires EntryCounts(e, vs) && e.0 == v.idClient
    ensures EntryCounts(SaleAdded(e, v), vs + [v])
  {
    var f := ClientService.SaleOf(e.0);
    ClientService.FiguresAfterSale(vs, v, e.0);
    IndexWhereSnoc(vs, v, f);
    assert (vs + [v])[IndexWhere(vs, f)] == vs[IndexWhere(vs, f)];
  }

  lemma EntryFirstSale(vs: seq<Sale>, v: Sale)
    requires forall m :: 0 <= m < |vs| ==> vs[m].idClient != v.idClient
    ensures EntryCounts((v.idClient, ClientSales(v.client, 0 + v.totalNet, 0 + 1)), vs + [v])
  {
    var f := ClientService.SaleOf(v.idClient);
    FilterNone(vs, f);
    assert ClientService.Spent(vs, v.idClient) == 0 && ClientService.Bought(vs, v.idClient) == 0;
    ClientService.FiguresAfterSale(vs, v, v.idClient);
    IndexWhereSnoc(vs, v, f);
    assert (vs + [v])[|vs|] == v;
  }

  /** What adding a sale does to the dictionary: its client's entry is updated in place,
      or appended when the client is new, and every other entry stays. */
  lemma AddSaleShape(acc: seq<(string, ClientSales)>, v: Sale)
    ensures var next := AddSale(acc, v); var k := KeyIndex(acc, v.idClient);
      && |next| == (if k < 0 then |acc| + 1 else |acc|)
      && (forall j :: 0 <= j < |acc| && j != k ==> next[j] == acc[j])
      && (k < 0 ==> next[|acc|] == (v.idClient, ClientSales(v.client, 0 + v.totalNet, 0 + 1)))
      && (k >= 0 ==> next[k] == (acc[k].0, acc[k].1.(totalSpent := acc[k].1.totalSpent + v.totalNet,
                                                     purchaseCount := acc[k].1.purchaseCount + 1)))
      && (DistinctKeys(acc) ==> DistinctKeys(next))
      && forall j :: 0 <= j < |acc| ==> next[j].0 == acc[j].0
  {
  }

  /** The entry of a client already met, after one more sale for it. */
  lemma SameSaleEntry(acc: seq<(string, ClientSales)>, vs: seq<Sale>, v: Sale)
    requires KeyIndex(acc, v.idClient) >= 0
    requires EntryCounts(acc[KeyIndex(acc, v.idClient)], vs)
    ensures EntryCounts(AddSale(acc, v)[KeyIndex(acc, v.idClient)], vs + [v])
  {
    var k := KeyIndex(acc, v.idClient);
    AddSaleAt(acc, v);
    EntrySameSale(acc[k], vs, v);
  }

  /** The entry of a client already met is the one a sale updates. */
  lemma AddSaleAt(acc: seq<(string, ClientSales)>, v: Sale)
    requires KeyIndex(acc, v.idClient) >= 0
    ensures AddSale(acc, v)[KeyIndex(acc, v.idClient)] == SaleAdded(acc[KeyIndex(acc, v.idClient)], v)
  {
  }

  /** Adding one sale keeps every entry accounting for the sales seen so far. */
  lemma AddSaleEntries(acc: seq<(string, ClientSales)>, vs: seq<Sale>, v: Sale)
    requires DistinctKeys(acc)
    requires forall j :: 0 <= j < |acc| ==> EntryCounts(acc[j], vs)
    requires forall m :: 0 <= m < |vs| ==> KeyIndex(acc, vs[m].idClient) >= 0
    ensures forall j :: 0 <= j < |AddSale(acc, v)| ==> EntryCounts(AddSale(acc, v)[j], vs + [v])
  {
    var next := AddSale(acc, v);
    var k := KeyIndex(acc, v.idClient);
    AddSaleShape(acc, v);
    forall j | 0 <= j < |next| ensures EntryCounts(next[j], vs + [v]) {
      if j < |acc| && j != k {
        assert next[j] == acc[j];
        assert acc[j].0 != v.idClient;
        EntryOtherSale(acc[j], vs, v);
      } else if k < 0 {
        assert j == |acc|;
        forall m | 0 <= m < |vs| ensures vs[m].idClient != v.idClient {
          assert KeyIndex(acc, vs[m].idClient) >= 0;
        }
        EntryFirstSale(vs, v);
      } else {
        SameSaleEntry(acc, vs, v);
      }
    }
  }

  /** Every client met so far still has an entry after one more sale. */
  lemma AddSaleKeysPresent(acc: seq<(string, ClientSales)>, vs: seq<Sale>, v: Sale)
    requires forall m :: 0 <= m < |vs| ==> KeyIndex(acc, vs[m].idClient) >= 0
    ensures forall m :: 0 <= m < |vs + [v]| ==> KeyIndex(AddSale(acc, v), (vs + [v])[m].idClient) >= 0
  {
    var next := AddSale(acc, v);
    var k := KeyIndex(acc, v.idClient);
    AddSaleShape(acc, v);
    forall m | 0 <= m < |vs + [v]| ensures KeyIndex(next, (vs + [v])[m].idClient) >= 0 {
      var x := (vs + [v])[m].idClient;
      if m < |vs| {
        assert (vs + [v])[m] == vs[m];
        assert next[KeyIndex(acc, x)].0 == x;
      } else {
        assert next[if k < 0 then |acc| else k].0 == x;
      }
    }
  }

  /** Adding one sale keeps the dictionary accounting for the sales seen so far. */
  lemma AddSaleTallies(acc: seq<(string, ClientSales)>, vs: seq<Sale>, v: Sale)
    requires TalliesSales(acc, vs)
    ensures TalliesSales(AddSale(acc, v), vs + [v])
  {
    AddSaleShape(acc, v);
    AddSaleEntries(acc, vs, v);
    AddSaleKeysPresent(acc, vs, v);
  }

  /** The client dictionary accounts for every sale. */
  lemma {:induction false} ClientTotalsTally(ventes: seq<Sale>)
    ensures TalliesSales(ClientTotals(ventes), ventes)
    decreases |ventes|
  {
    if |ventes| > 0 {
      var init, v := ventes[..|ventes| - 1], ventes[|ventes| - 1];
      assert ClientTotals(ventes) == AddSale(ClientTotals(init), v);
      assert init + [v] == ventes;
      ClientTotalsTally(init);
      AddSaleTallies(ClientTotals(init), init, v);
    }
  }

  /** `getTopClients` returns entries of the dictionary, largest amount first, as many as
      the limit allows; each entry sums the net totals and counts the sales of one client,
      and every client with a sale has an entry. */
  lemma TopClientsRanked(ventes: seq<Sale>, limit: Option<int>)
    ensures var acc := ClientTotals(ventes); var r := TopClients(ventes, limit);
      && SortedDesc(r, Spent)
      && |r| == SliceBound(GetOr(limit, DefaultLimit), |acc|)
      && (forall e :: e in r ==> e in Values(acc))
      && (forall x, y :: x in r && y in multiset(Values(acc)) - multiset(r) ==> Spent(x) >= Spent(y))
      && TalliesSales(acc, ventes)
  {
    var acc := ClientTotals(ventes);
    var sorted := SortDesc(Values(acc), Spent);
    var n := SliceBound(GetOr(limit, DefaultLimit), |acc|);
    SortedDescSlice(sorted, Spent, 0, n);
    assert TopClients(ventes, limit) == sorted[..n];
    PrefixOutranksRest(sorted, Spent, n);
    forall e | e in sorted[..n] ensures e in Values(acc) {
      assert e in multiset(sorted);
    }
    ClientTotalsTally(ventes);
  }
}
