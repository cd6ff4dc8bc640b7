/** Products: filtered, paged listing, lookup, creation, partial update, deletion
    request and stock adjustment (services/mock-product-service.ts). */
module ProductService {
  import opened Wrappers
  import opened Seqs
  import opened Text
  import opened Dates
  import opened Paging
  import opened Entities
  import opened BackOffice
  import Movements = StockMovementService

  /** `getAllProduits` parameters. */
  datatype ProductQuery = ProductQuery(
    page: Option<int>, limit: Option<int>, search: Option<string>,
    idCategorie: Option<string>, statut: Option<ProductStatus>, stockMin: Option<int>)

  /** `CreateProduitData`. */
  datatype NewProduct = NewProduct(
    codeProduit: string, nom: string, description: Option<string>, image: Option<string>,
    prixAchat: int, prixMin: int, prixVente: int, stock: int, seuilMin: Option<int>,
    garantieMois: Option<int>, idCategorie: string)

  /** `UpdateProduitData`: `None` is a field the caller left out. */
  datatype ProductPatch = ProductPatch(
    codeProduit: Option<string>, nom: Option<string>, description: Option<string>,
    image: Option<string>, prixAchat: Option<int>, prixMin: Option<int>, prixVente: Option<int>,
    stock: Option<int>, seuilMin: Option<int>, garantieMois: Option<int>, idCategorie: Option<string>)

  const NotFound := "Produit non trouvé"

  function HasId(id: string): Product -> bool
  {
    (p: Product) => p.idProduit == id
  }

  /** Case-insensitive: the lowered search text occurs in the lowered name or code. */
  predicate SearchHit(p: Product, search: string)
  {
    Contains(Lower(p.nom), Lower(search)) || Contains(Lower(p.codeProduit), Lower(search))
  }

  /** The listing's selection criterion, stated directly. */
  predicate Matches(p: Product, q: ProductQuery)
  {
    && (Given(q.search) ==> SearchHit(p, q.search.value))
    && (Given(q.idCategorie) ==> p.idCategorie == q.idCategorie.value)
    && (q.statut.Some? ==> p.statut == q.statut.value)
    && (q.stockMin.Some? ==> p.stock <= q.stockMin.value)
  }

  function Matcher(q: ProductQuery): Product -> bool
  {
    (p: Product) => Matches(p, q)
  }

  /** The filters the listing applies one after the other; the stock bound applies
      whenever it is given, 0 included. */
  function Filters(q: ProductQuery): seq<Option<Product -> bool>>
  {
    [ if Given(q.search) then Some((p: Product) => SearchHit(p, q.search.value)) else None,
      if Given(q.idCategorie) then Some((p: Product) => p.idCategorie == q.idCategorie.value) else None,
      if q.statut.Some? then Some((p: Product) => p.statut == q.statut.value) else None,
      if q.stockMin.Some? then Some((p: Product) => p.stock <= q.stockMin.value) else None ]
  }

  lemma FiltersMeanMatches(q: ProductQuery)
    ensures forall p :: PassesAll(p, Filters(q)) == Matches(p, q)
  {
    forall p ensures PassesAll(p, Filters(q)) == Matches(p, q) {
      var cs := Filters(q);
      assert PassesAll(p, cs) == ((cs[0].None? || cs[0].value(p)) && (cs[1].None? || cs[1].value(p))
        && (cs[2].None? || cs[2].value(p)) && (cs[3].None? || cs[3].value(p)));
    }
  }

  /** The successive filters keep, in store order, exactly the matching products. */
  function FilterProducts(ps: seq<Product>, q: ProductQuery): (r: seq<Product>)
    ensures r == Filter(ps, Matcher(q))
    ensures forall k :: 0 <= k < |r| ==> r[k] in ps && Matches(r[k], q)
    ensures forall k :: 0 <= k < |ps| && Matches(ps[k], q) ==> ps[k] in r
  {
    FilterChainIsConjunction(ps, Filters(q));
    FiltersMeanMatches(q);
    FilterExt(ps, PassesAllOf(Filters(q)), Matcher(q));
    FilterChain(ps, Filters(q))
  }

  /** `getAllProduits`: one page of the matching products and the paging metadata. */
  function GetAllProduits(ps: seq<Product>, q: ProductQuery): (r: Page<Product>)
    ensures r.meta.page == OrDefault(q.page, 1) && r.meta.limit == OrDefault(q.limit, 10)
    ensures r.meta.total == |Filter(ps, Matcher(q))|
    ensures r.items == Window(Filter(ps, Matcher(q)), r.meta.page, r.meta.limit)
    ensures forall k :: 0 <= k < |r.items| ==> r.items[k] in ps && Matches(r.items[k], q)
  {
    Paginate(FilterProducts(ps, q), q.page, q.limit)
  }

  /** `getProduitById`: the first product with the id, or the source's error. */
  function GetProduitById(ps: seq<Product>, id: string): (r: Result<Product>)
    ensures r.Err? <==> forall k :: 0 <= k < |ps| ==> ps[k].idProduit != id
    ensures r.Err? ==> r.msg == NotFound
    ensures r.Ok? ==> r.value.idProduit == id && r.value == ps[IndexWhere(ps, HasId(id))]
  {
    var p := FindFirst(ps, HasId(id));
    if p.None? then Err(NotFound) else Ok(p.value)
  }

  /** The record `createProduit` builds: the submitted fields, an id from the clock,
      status ACTIF, both dates now and the category with the submitted id. */
  function NewProductRecord(data: NewProduct, categories: seq<Category>, env: Env): (p: Product)
    ensures p.statut == Actif && p.dateCreation == env.now && p.dateModification == env.now
    ensures p.nom == data.nom && p.codeProduit == data.codeProduit && p.stock == data.stock
    ensures p.idCategorie == data.idCategorie && p.garantieMois == data.garantieMois
    ensures p.description == data.description && p.image == data.image && p.seuilMin == data.seuilMin
    ensures p.prixAchat == data.prixAchat && p.prixMin == data.prixMin && p.prixVente == data.prixVente
    ensures p.categorie.None? <==> forall k :: 0 <= k < |categories| ==> categories[k].idCategorie != data.idCategorie
    ensures p.categorie.Some? ==> p.categorie.value.idCategorie == data.idCategorie
  {
    Product("prod-" + NatToString(env.stamp), data.codeProduit, data.nom, data.description,
            data.image, data.prixAchat, data.prixMin, data.prixVente, data.stock, data.seuilMin,
            data.garantieMois, Actif, data.idCategorie, env.now, env.now,
            FindFirst(categories, (c: Category) => c.idCategorie == data.idCategorie))
  }

  /** `Object.assign(produit, data, { dateModification })`: every field the patch
      carries replaces the stored one; the others stay. */
  function ApplyPatch(p: Product, data: ProductPatch, now: Instant): (u: Product)
    ensures u.idProduit == p.idProduit && u.statut == p.statut && u.dateCreation == p.dateCreation
    ensures u.categorie == p.categorie && u.dateModification == now
    ensures data.nom.Some? ==> u.nom == data.nom.value
    ensures data.nom.None? ==> u.nom == p.nom
    ensures data.stock.Some? ==> u.stock == data.stock.value
    ensures data.stock.None? ==> u.stock == p.stock
    ensures data.prixVente.Some? ==> u.prixVente == data.prixVente.value
    ensures data.prixVente.None? ==> u.prixVente == p.prixVente
    ensures data.idCategorie.Some? ==> u.idCategorie == data.idCategorie.value
    ensures data.idCategorie.None? ==> u.idCategorie == p.idCategorie
    ensures u.codeProduit == (if data.codeProduit.Some? then data.codeProduit.value else p.codeProduit)
    ensures u.prixAchat == (if data.prixAchat.Some? then data.prixAchat.value else p.prixAchat)
    ensures u.prixMin == (if data.prixMin.Some? then data.prixMin.value else p.prixMin)
    ensures u.description == (if data.description.Some? then data.description else p.description)
    ensures u.image == (if data.image.Some? then data.image else p.image)
    ensures u.seuilMin == (if data.seuilMin.Some? then data.seuilMin else p.seuilMin)
    ensures u.garantieMois == (if data.garantieMois.Some? then data.garantieMois else p.garantieMois)
  {
    p.(codeProduit := GetOr(data.codeProduit, p.codeProduit),
       nom := GetOr(data.nom, p.nom),
       description := Override(data.description, p.description),
       image := Override(data.image, p.image),
       prixAchat := GetOr(data.prixAchat, p.prixAchat),
       prixMin := GetOr(data.prixMin, p.prixMin),
       prixVente := GetOr(data.prixVente, p.prixVente),
       stock := GetOr(data.stock, p.stock),
       seuilMin := Override(data.seuilMin, p.seuilMin),
       garantieMois := Override(data.garantieMois, p.garantieMois),
       idCategorie := GetOr(data.idCategorie, p.idCategorie),
       dateModification := now)
  }

  /** The movement `updateStock` records for a change of `quantite` units. */
  function StockMovement(p: Product, quantite: int, motif: string, env: Env): (m: Movement)
    ensures Movements.SignedQuantity(m) == quantite && m.quantite >= 0
    ensures m.typeMouvement == Entree <==> quantite > 0
    ensures m.typeMouvement != Ajustement
    ensures m.idProduit == p.idProduit && m.motif == Some(motif) && m.dateMouvement == env.now
  {
    Movement("mouv-" + NatToString(env.stamp), p.idProduit, "user-002",
             if quantite > 0 then Entree else Sortie,
             if quantite < 0 then -quantite else quantite,
             Some(motif), env.now, Some(ProductRef(p.nom, p.codeProduit)),
             Some(UserRef("stock", "stock@example.com")))
  }

  /** `createProduit`: appends the new product and returns it. */
  method CreateProduit(store: Store, data: NewProduct, env: Env) returns (p: Product)
    modifies store
    ensures p == NewProductRecord(data, old(store.categories), env)
    ensures store.Snapshot() == old(store.Snapshot()).(produits := old(store.produits) + [p])
  {
    p := NewProductRecord(data, store.categories, env);
    store.produits := store.produits + [p];
  }

  /** `updateProduit`: patches the first product with the id in place. */
  method UpdateProduit(store: Store, id: string, data: ProductPatch, env: Env) returns (r: Result<Product>)
    modifies store
    ensures r.Err? <==> GetProduitById(old(store.produits), id).Err?
    ensures r.Err? ==> r.msg == NotFound && store.Snapshot() == old(store.Snapshot())
    ensures r.Ok? ==>
      var i := IndexWhere(old(store.produits), HasId(id));
      r.value == ApplyPatch(old(store.produits)[i], data, env.now)
      && store.Snapshot() == old(store.Snapshot()).(produits := old(store.produits)[i := r.value])
  {
    var i := IndexWhere(store.produits, HasId(id));
    if i < 0 {
      return Err(NotFound);
    }
    var p := ApplyPatch(store.produits[i], data, env.now);
    store.produits := store.produits[i := p];
    r := Ok(p);
  }

  /** `demandeSuppression`: marks the product EN_ATTENTE_SUPPRESSION; the reason is
      not stored. */
  method DemandeSuppression(store: Store, id: string, raison: string) returns (r: Result<string>)
    modifies store
    ensures r.Err? <==> GetProduitById(old(store.produits), id).Err?
    ensures r.Err? ==> r.msg == NotFound && store.Snapshot() == old(store.Snapshot())
    ensures r.Ok? ==>
      var i := IndexWhere(old(store.produits), HasId(id));
      r.value == "Demande de suppression enregistrée"
      && store.Snapshot() == old(store.Snapshot()).(produits := old(store.produits)[i := old(store.produits)[i].(statut := EnAttenteSuppression)])
  {
    var i := IndexWhere(store.produits, HasId(id));
    if i < 0 {
      return Err(NotFound);
    }
    store.produits := store.produits[i := store.produits[i].(statut := EnAttenteSuppression)];
    r := Ok("Demande de suppression enregistrée");
  }

  /** `updateStock`: adds `quantite` to the stock and records the movement. */
  method UpdateStock(store: Store, id: string, quantite: int, motif: string, env: Env) returns (r: Result<Product>)
    modifies store
    ensures r.Err? <==> GetProduitById(old(store.produits), id).Err?
    ensures r.Err? ==> r.msg == NotFound && store.Snapshot() == old(store.Snapshot())
    ensures r.Ok? ==>
      var i := IndexWhere(old(store.produits), HasId(id));
      r.value == old(store.produits)[i].(stock := old(store.produits)[i].stock + quantite)
      && store.Snapshot() == old(store.Snapshot()).(
           produits := old(store.produits)[i := r.value],
           mouvementsStock := old(store.mouvementsStock) + [StockMovement(r.value, quantite, motif, env)])
  {
    var i := IndexWhere(store.produits, HasId(id));
    if i < 0 {
      return Err(NotFound);
    }
    var p := store.produits[i].(stock := store.produits[i].stock + quantite);
    store.produits := store.produits[i := p];
    store.mouvementsStock := store.mouvementsStock + [StockMovement(p, quantite, motif, env)];
    r := Ok(p);
  }

  /** A created product is found by its id, unless an earlier product already had it. */
  lemma CreatedIsFound(ps: seq<Product>, data: NewProduct, categories: seq<Category>, env: Env)
    requires GetProduitById(ps, "prod-" + NatToString(env.stamp)).Err?
    ensures var p := NewProductRecord(data, categories, env);
      GetProduitById(ps + [p], p.idProduit) == Ok(p) && p.statut == Actif
  {
    var p := NewProductRecord(data, categories, env);
    FindFirstAppendFresh(ps, p, HasId(p.idProduit));
  }

  /** Applying the same patch twice is applying it once. */
  lemma PatchIdempotent(p: Product, data: ProductPatch, now: Instant)
    ensures ApplyPatch(ApplyPatch(p, data, now), data, now) == ApplyPatch(p, data, now)
  {
  }

  /** After an update, looking the id up returns the patched product. */
  lemma UpdatedIsFound(ps: seq<Product>, id: string, data: ProductPatch, now: Instant)
    requires GetProduitById(ps, id).Ok?
    ensures var i := IndexWhere(ps, HasId(id));
      var u := ApplyPatch(ps[i], data, now);
      GetProduitById(ps[i := u], id) == Ok(u)
  {
    var i := IndexWhere(ps, HasId(id));
    IndexWhereReplace(ps, HasId(id), ApplyPatch(ps[i], data, now));
  }

  /** A second deletion request on the same id finds the same product and leaves the
      list as the first one left it. */
  lemma DeletionRequestIdempotent(ps: seq<Product>, id: string)
    requires GetProduitById(ps, id).Ok?
    ensures var i := IndexWhere(ps, HasId(id));
      var once := ps[i := ps[i].(statut := EnAttenteSuppression)];
      IndexWhere(once, HasId(id)) == i
      && once[i := once[i].(statut := EnAttenteSuppression)] == once
  {
    var i := IndexWhere(ps, HasId(id));
    IndexWhereReplace(ps, HasId(id), ps[i].(statut := EnAttenteSuppression));
  }
}
