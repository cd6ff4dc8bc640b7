/** Read-only queries over the static dataset the dashboards load: active-record
    filters, first-match lookups and two counts (services/data-service.ts). */
module DataService {
  import opened Wrappers
  import opened Seqs
  import opened Entities

  /** The static dataset: one list per entity, never written. */
  datatype Dataset = Dataset(
    users: seq<User>, clients: seq<Client>, categories: seq<Category>, produits: seq<Product>,
    ventes: seq<Sale>, mouvementsStock: seq<Movement>, promotions: seq<Promotion>,
    garanties: seq<Warranty>, paiements: seq<Payment>, factures: seq<Invoice>,
    audits: seq<AuditLog>, validations: seq<Validation>)

  function NotDeletedClient(): Client -> bool
  {
    (c: Client) => !c.supprime
  }

  function DeletedClient(): Client -> bool
  {
    (c: Client) => c.supprime
  }

  function Active(): Product -> bool
  {
    (p: Product) => p.statut == Actif
  }

  /** `stock <= seuilMin` is false when the threshold is `undefined`. */
  predicate AtOrBelowThreshold(p: Product)
  {
    p.seuilMin.Some? && p.stock <= p.seuilMin.value
  }

  /** The low-stock test `getProduitsLowStock` applies. */
  predicate LowStock(p: Product)
  {
    p.statut == Actif && AtOrBelowThreshold(p)
  }

  function ActiveLow(): Product -> bool
  {
    (p: Product) => LowStock(p)
  }

  function Low(): Product -> bool
  {
    (p: Product) => AtOrBelowThreshold(p)
  }

  /** `getClients`: the clients not soft-deleted, in dataset order. */
  function Clients(d: Dataset): (r: seq<Client>)
    ensures forall k :: 0 <= k < |r| ==> r[k] in d.clients && !r[k].supprime
    ensures forall k :: 0 <= k < |d.clients| && !d.clients[k].supprime ==> d.clients[k] in r
  {
    Filter(d.clients, NotDeletedClient())
  }

  /** `getCategories`: the enabled categories. */
  function Categories(d: Dataset): (r: seq<Category>)
    ensures forall k :: 0 <= k < |r| ==> r[k] in d.categories && r[k].statut
    ensures forall k :: 0 <= k < |d.categories| && d.categories[k].statut ==> d.categories[k] in r
  {
    Filter(d.categories, (c: Category) => c.statut)
  }

  /** `getProduits`: the ACTIF products. */
  function Produits(d: Dataset): (r: seq<Product>)
    ensures forall k :: 0 <= k < |r| ==> r[k] in d.produits && r[k].statut == Actif
    ensures forall k :: 0 <= k < |d.produits| && d.produits[k].statut == Actif ==> d.produits[k] in r
  {
    Filter(d.produits, Active())
  }

  /** `getProduitsLowStock`: the ACTIF products whose stock is at or below their
      threshold. */
  function ProduitsLowStock(d: Dataset): (r: seq<Product>)
    ensures forall k :: 0 <= k < |r| ==> r[k] in d.produits && LowStock(r[k])
    ensures forall k :: 0 <= k < |d.produits| && LowStock(d.produits[k]) ==> d.produits[k] in r
  {
    Filter(d.produits, ActiveLow())
  }

  /** `getPromotions`: the promotions not soft-deleted. */
  function Promotions(d: Dataset): (r: seq<Promotion>)
    ensures forall k :: 0 <= k < |r| ==> r[k] in d.promotions && !r[k].supprime
    ensures forall k :: 0 <= k < |d.promotions| && !d.promotions[k].supprime ==> d.promotions[k] in r
  {
    Filter(d.promotions, (p: Promotion) => !p.supprime)
  }

  function UserWithId(id: string): User -> bool
  {
    (u: User) => u.id == id
  }

  function ClientWithId(id: string): Client -> bool
  {
    (c: Client) => c.idClient == id
  }

  function CategoryWithId(id: string): Category -> bool
  {
    (c: Category) => c.idCategorie == id
  }

  function ProductWithId(id: string): Product -> bool
  {
    (p: Product) => p.idProduit == id
  }

  function SaleWithId(id: string): Sale -> bool
  {
    (v: Sale) => v.idVente == id
  }

  /** `getUserById`: the first user with the id, or `undefined`. */
  function UserById(d: Dataset, id: string): (r: Option<User>)
    ensures r.None? <==> forall k :: 0 <= k < |d.users| ==> d.users[k].id != id
    ensures r.Some? ==> r.value.id == id && r.value == d.users[IndexWhere(d.users, UserWithId(id))]
  {
    FindFirst(d.users, UserWithId(id))
  }

  /** `getClientById`: the first client with the id, soft-deleted or not. */
  function ClientById(d: Dataset, id: string): (r: Option<Client>)
    ensures r.None? <==> forall k :: 0 <= k < |d.clients| ==> d.clients[k].idClient != id
    ensures r.Some? ==> r.value.idClient == id && r.value == d.clients[IndexWhere(d.clients, ClientWithId(id))]
  {
    FindFirst(d.clients, ClientWithId(id))
  }

  /** `getCategorieById`: the first category with the id, enabled or not. */
  function CategorieById(d: Dataset, id: string): (r: Option<Category>)
    ensures r.None? <==> forall k :: 0 <= k < |d.categories| ==> d.categories[k].idCategorie != id
    ensures r.Some? ==> r.value.idCategorie == id && r.value == d.categories[IndexWhere(d.categories, CategoryWithId(id))]
  {
    FindFirst(d.categories, CategoryWithId(id))
  }

  /** `getProduitById`: the first product with the id, whatever its status. */
  function ProduitById(d: Dataset, id: string): (r: Option<Product>)
    ensures r.None? <==> forall k :: 0 <= k < |d.produits| ==> d.produits[k].idProduit != id
    ensures r.Some? ==> r.value.idProduit == id && r.value == d.produits[IndexWhere(d.produits, ProductWithId(id))]
  {
    FindFirst(d.produits, ProductWithId(id))
  }

  /** `getVenteById`: the first sale with the id. */
  function VenteById(d: Dataset, id: string): (r: Option<Sale>)
    ensures r.None? <==> forall k :: 0 <= k < |d.ventes| ==> d.ventes[k].idVente != id
    ensures r.Some? ==> r.value.idVente == id && r.value == d.ventes[IndexWhere(d.ventes, SaleWithId(id))]
  {
    FindFirst(d.ventes, SaleWithId(id))
  }

  /** `getTotalClients`: the number of clients `getClients` returns; with the
      soft-deleted ones it makes up the whole list. */
  function TotalClients(d: Dataset): (r: nat)
    ensures r == |Clients(d)|
    ensures r + |Filter(d.clients, DeletedClient())| == |d.clients|
  {
    FilterPartition(d.clients, NotDeletedClient(), DeletedClient());
    |Filter(d.clients, (c: Client) => !c.supprime)|
  }

  /** `getTotalProduitsVendus`: the number of sales. */
  function TotalProduitsVendus(d: Dataset): (r: nat)
    ensures r == |d.ventes|
  {
    |d.ventes|
  }

  /** The low-stock list is the product list narrowed by the threshold test, so it is
      a sub-list of it, in the same order. */
  lemma LowStockNarrowsProduits(d: Dataset)
    ensures ProduitsLowStock(d) == Filter(Produits(d), Low())
    ensures forall p :: p in ProduitsLowStock(d) ==> p in Produits(d)
  {
    FilterThenFilter(d.produits, Active(), Low(), ActiveLow());
    forall p | p in ProduitsLowStock(d) ensures p in Produits(d) {
      FilterMember(Produits(d), Low(), p);
    }
  }

  /** A lookup ignores the soft-delete flag: a deleted client absent from `getClients`
      is still found by id. */
  lemma LookupSeesDeletedClient(d: Dataset, i: nat)
    requires i < |d.clients| && d.clients[i].supprime
    ensures d.clients[i] !in Clients(d) && TotalClients(d) < |d.clients|
    ensures (forall k :: 0 <= k < i ==> d.clients[k].idClient != d.clients[i].idClient) ==>
      ClientById(d, d.clients[i].idClient) == Some(d.clients[i])
  {
    var deleted := Filter(d.clients, DeletedClient());
    assert d.clients[i] in deleted;
    assert |deleted| > 0;
  }

  /** A product without a threshold is never low on stock, however low its stock. */
  lemma NoThresholdNeverLow(d: Dataset, p: Product)
    requires p in d.produits && p.seuilMin.None?
    ensures p !in ProduitsLowStock(d)
    ensures p.statut == Actif ==> p in Produits(d)
  {
  }

  /** The sold-products count is the number of sales, not of units: one sale of
      three units counts once. */
  lemma CountsSalesNotUnits(d: Dataset, v: Sale, l: SaleLine)
    requires d.ventes == [v] && v.lignes == [l] && l.quantite == 3
    ensures TotalProduitsVendus(d) == 1 != l.quantite
  {
  }
}
