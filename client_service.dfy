/** Clients: listing of the clients not deleted with their purchase totals, lookup,
    creation, update and soft deletion (services/mock-client-service.ts). */
module ClientService {
  import opened Wrappers
  import opened Seqs
  import opened Text
  import opened Dates
  import opened Paging
  import opened Entities
  import opened BackOffice

  /** `getAll` parameters that the listing reads. */
  datatype ClientQuery = ClientQuery(search: Option<string>, typeClient: Option<string>)

  /** `CreateClientData`. */
  datatype NewClient = NewClient(
    nom: string, email: string, telephone: string, adresse: string, ville: string,
    codePostal: string, pays: string, typeClient: string)

  /** `Partial<CreateClientData>`: `None` is a field the caller left out. */
  datatype ClientPatch = ClientPatch(
    nom: Option<string>, email: Option<string>, telephone: Option<string>, adresse: Option<string>,
    ville: Option<string>, codePostal: Option<string>, pays: Option<string>, typeClient: Option<string>)

  const NotFound := "Client not found"

  function HasId(id: string): Client -> bool
  {
    (c: Client) => c.idClient == id
  }

  function IsLive(): Client -> bool
  {
    (c: Client) => !c.supprime
  }

  function LiveWithId(id: string): Client -> bool
  {
    (c: Client) => c.idClient == id && !c.supprime
  }

  function SaleOf(id: string): Sale -> bool
  {
    (v: Sale) => v.idClient == id
  }

  function NetTotal(v: Sale): int
  {
    v.totalNet
  }

  /** The lowered search text occurs in the lowered name or e-mail, or in the phone
      number as stored. */
  predicate SearchHit(c: Client, search: string)
  {
    || Contains(Lower(c.nom), Lower(search))
    || Contains(Lower(c.email), Lower(search))
    || Contains(c.telephone, Lower(search))
  }

  /** The listing's selection criterion, stated directly. */
  predicate Matches(c: Client, q: ClientQuery)
  {
    && !c.supprime
    && (Given(q.search) ==> SearchHit(c, q.search.value))
    && (Given(q.typeClient) ==> c.typeClient == q.typeClient.value)
  }

  function Matcher(q: ClientQuery): Client -> bool
  {
    (c: Client) => Matches(c, q)
  }

  /** Deleted clients go first, then the optional filters one after the other. */
  function Filters(q: ClientQuery): seq<Option<Client -> bool>>
  {
    [ Some(IsLive()),
      if Given(q.search) then Some((c: Client) => SearchHit(c, q.search.value)) else None,
      if Given(q.typeClient) then Some((c: Client) => c.typeClient == q.typeClient.value) else None ]
  }

  lemma FiltersMeanMatches(q: ClientQuery)
    ensures forall c :: PassesAll(c, Filters(q)) == Matches(c, q)
  {
    forall c ensures PassesAll(c, Filters(q)) == Matches(c, q) {
      var cs := Filters(q);
      assert PassesAll(c, cs) == ((cs[0].None? || cs[0].value(c)) && (cs[1].None? || cs[1].value(c))
        && (cs[2].None? || cs[2].value(c)));
    }
  }

  /** The client with the purchase figures of its sales filled in. */
  function WithTotals(c: Client, ventes: seq<Sale>): Client
  {
    c.(totalAchats := Some(Spent(ventes, c.idClient)), nombreAchats := Some(Bought(ventes, c.idClient)))
  }

  /** The sum of the net totals of the client's sales. */
  function Spent(ventes: seq<Sale>, id: string): int
  {
    SumBy(Filter(ventes, SaleOf(id)), NetTotal)
  }

  /** The number of the client's sales. */
  function Bought(ventes: seq<Sale>, id: string): nat
  {
    |Filter(ventes, SaleOf(id))|
  }

  /** `getAll`: the clients not deleted that match, in store order, each with its totals. */
  function GetAll(clients: seq<Client>, ventes: seq<Sale>, q: ClientQuery): (r: Listing<Client>)
    ensures var kept := Filter(clients, Matcher(q));
      |r.data| == |kept| && forall k :: 0 <= k < |kept| ==> r.data[k] == WithTotals(kept[k], ventes)
    ensures forall k :: 0 <= k < |r.data| ==> !r.data[k].supprime && Matches(r.data[k], q)
    ensures r.meta == ListMeta(|r.data|, 1, 100)
  {
    FilterChainIsConjunction(clients, Filters(q));
    FiltersMeanMatches(q);
    FilterExt(clients, PassesAllOf(Filters(q)), Matcher(q));
    var kept := FilterChain(clients, Filters(q));
    var data := MapSeq(kept, (c: Client) => WithTotals(c, ventes));
    Unpaged(data)
  }

  /** `getById`: the first client with the id that is not deleted, with its totals. */
  function GetById(clients: seq<Client>, ventes: seq<Sale>, id: string): (r: Result<Client>)
    ensures r.Err? <==> forall k :: 0 <= k < |clients| ==> clients[k].idClient != id || clients[k].supprime
    ensures r.Err? ==> r.msg == NotFound
    ensures r.Ok? ==> r.value.idClient == id && !r.value.supprime
    ensures r.Ok? ==> r.value == WithTotals(clients[IndexWhere(clients, LiveWithId(id))], ventes)
  {
    var c := FindFirst(clients, LiveWithId(id));
    if c.None? then Err(NotFound) else Ok(WithTotals(c.value, ventes))
  }

  /** The record `create` builds. */
  function NewClientRecord(data: NewClient, env: Env): (c: Client)
    ensures !c.supprime && c.nom == data.nom && c.email == data.email && c.typeClient == data.typeClient
    ensures c.telephone == data.telephone && c.adresse == data.adresse && c.ville == data.ville
    ensures c.codePostal == data.codePostal && c.pays == data.pays
    ensures c.totalAchats.None? && c.nombreAchats.None?
    ensures c.dateCreation == env.now && c.dateModification == env.now
  {
    Client("client-" + NatToString(env.stamp), data.nom, data.email, data.telephone, data.adresse,
           data.ville, data.codePostal, data.pays, data.typeClient, false, None, None, env.now, env.now)
  }

  /** `Object.assign(client, data, { dateModification })`. */
  function ApplyPatch(c: Client, data: ClientPatch, now: Instant): (u: Client)
    ensures u.idClient == c.idClient && u.supprime == c.supprime && u.dateModification == now
    ensures u.nom == (if data.nom.Some? then data.nom.value else c.nom)
    ensures u.email == (if data.email.Some? then data.email.value else c.email)
    ensures u.typeClient == (if data.typeClient.Some? then data.typeClient.value else c.typeClient)
    ensures u.telephone == (if data.telephone.Some? then data.telephone.value else c.telephone)
    ensures u.adresse == (if data.adresse.Some? then data.adresse.value else c.adresse)
    ensures u.ville == (if data.ville.Some? then data.ville.value else c.ville)
    ensures u.codePostal == (if data.codePostal.Some? then data.codePostal.value else c.codePostal)
    ensures u.pays == (if data.pays.Some? then data.pays.value else c.pays)
    ensures u.dateCreation == c.dateCreation && u.totalAchats == c.totalAchats && u.nombreAchats == c.nombreAchats
  {
    c.(nom := GetOr(data.nom, c.nom), email := GetOr(data.email, c.email),
       telephone := GetOr(data.telephone, c.telephone), adresse := GetOr(data.adresse, c.adresse),
       ville := GetOr(data.ville, c.ville), codePostal := GetOr(data.codePostal, c.codePostal),
       pays := GetOr(data.pays, c.pays), typeClient := GetOr(data.typeClient, c.typeClient),
       dateModification := now)
  }

  /** `create`: appends the new client and returns it. */
  method Create(store: Store, data: NewClient, env: Env) returns (c: Client)
    modifies store
    ensures c == NewClientRecord(data, env)
    ensures store.Snapshot() == old(store.Snapshot()).(clients := old(store.clients) + [c])
  {
    c := NewClientRecord(data, env);
    store.clients := store.clients + [c];
  }

  /** `update`: patches the first client with the id, deleted or not. */
  method Update(store: Store, id: string, data: ClientPatch, env: Env) returns (r: Result<Client>)
    modifies store
    ensures r.Err? <==> forall k :: 0 <= k < |old(store.clients)| ==> old(store.clients)[k].idClient != id
    ensures r.Err? ==> r.msg == NotFound && store.Snapshot() == old(store.Snapshot())
    ensures r.Ok? ==>
      var i := IndexWhere(old(store.clients), HasId(id));
      r.value == ApplyPatch(old(store.clients)[i], data, env.now)
      && store.Snapshot() == old(store.Snapshot()).(clients := old(store.clients)[i := r.value])
  {
    var i := IndexWhere(store.clients, HasId(id));
    if i < 0 {
      return Err(NotFound);
    }
    var c := ApplyPatch(store.clients[i], data, env.now);
    store.clients := store.clients[i := c];
    r := Ok(c);
  }

  /** `delete`: marks the first client with the id as deleted; nothing is removed. */
  method Delete(store: Store, id: string) returns (r: Result<Client>)
    modifies store
    ensures r.Err? <==> forall k :: 0 <= k < |old(store.clients)| ==> old(store.clients)[k].idClient != id
    ensures r.Err? ==> r.msg == NotFound && store.Snapshot() == old(store.Snapshot())
    ensures r.Ok? ==>
      var i := IndexWhere(old(store.clients), HasId(id));
      r.value == old(store.clients)[i].(supprime := true)
      && store.Snapshot() == old(store.Snapshot()).(clients := old(store.clients)[i := r.value])
  {
    var i := IndexWhere(store.clients, HasId(id));
    if i < 0 {
      return Err(NotFound);
    }
    var c := store.clients[i].(supprime := true);
    store.clients := store.clients[i := c];
    r := Ok(c);
  }

  ghost predicate DistinctIds(cs: seq<Client>)
  {
    forall a, b :: 0 <= a < b < |cs| ==> cs[a].idClient != cs[b].idClient
  }

  /** With distinct ids, a deleted client stays in the store but neither `getById`
      nor `getAll` returns it any more. */
  lemma DeletedIsHidden(cs: seq<Client>, ventes: seq<Sale>, id: string, q: ClientQuery)
    requires DistinctIds(cs)
    requires exists k :: 0 <= k < |cs| && cs[k].idClient == id
    ensures var i := IndexWhere(cs, HasId(id));
      var after := cs[i := cs[i].(supprime := true)];
      |after| == |cs| && after[i].idClient == id
      && GetById(after, ventes, id).Err?
      && forall k :: 0 <= k < |GetAll(after, ventes, q).data| ==> GetAll(after, ventes, q).data[k].idClient != id
  {
    var i := IndexWhere(cs, HasId(id));
    var after := cs[i := cs[i].(supprime := true)];
    assert forall k :: 0 <= k < |after| && k != i ==> after[k].idClient != id;
    var kept := Filter(after, Matcher(q));
    var data := GetAll(after, ventes, q).data;
    forall k | 0 <= k < |data| ensures data[k].idClient != id {
      assert data[k] == WithTotals(kept[k], ventes);
      assert kept[k] in after && !kept[k].supprime;
    }
  }

  /** A deleted client is still reachable by `update` and `delete`, and deleting it
      again changes nothing. */
  lemma UpdateReachesDeleted(cs: seq<Client>, ventes: seq<Sale>, id: string)
    requires exists k :: 0 <= k < |cs| && cs[k].idClient == id
    ensures var i := IndexWhere(cs, HasId(id));
      var after := cs[i := cs[i].(supprime := true)];
      IndexWhere(after, HasId(id)) == i
      && after[i := after[i].(supprime := true)] == after
  {
    var i := IndexWhere(cs, HasId(id));
    IndexWhereReplace(cs, HasId(id), cs[i].(supprime := true));
  }

  /** Recording one more sale for a client adds its net total to the client's
      `totalAchats` and one to `nombreAchats`; a sale of another client changes nothing. */
  lemma TotalsAfterSale(c: Client, ventes: seq<Sale>, v: Sale)
    ensures v.idClient == c.idClient ==>
      && WithTotals(c, ventes + [v]).totalAchats == Some(WithTotals(c, ventes).totalAchats.value + v.totalNet)
      && WithTotals(c, ventes + [v]).nombreAchats == Some(WithTotals(c, ventes).nombreAchats.value + 1)
    ensures v.idClient != c.idClient ==> WithTotals(c, ventes + [v]) == WithTotals(c, ventes)
  {
    FiguresAfterSale(ventes, v, c.idClient);
  }

  /** The client's figures after one more sale. */
  lemma FiguresAfterSale(ventes: seq<Sale>, v: Sale, id: string)
    ensures Spent(ventes + [v], id) == Spent(ventes, id) + if v.idClient == id then v.totalNet else 0
    ensures Bought(ventes + [v], id) == Bought(ventes, id) + if v.idClient == id then 1 else 0
  {
    FilterSumSnoc(ventes, v, SaleOf(id), NetTotal);
    assert SaleOf(id)(v) <==> v.idClient == id;
  }
}
