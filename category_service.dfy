/** Categories: filtered, paged listing, lookup, creation, update, status change and
    deletion (services/mock-category-service.ts). */
module CategoryService {
  import opened Wrappers
  import opened Seqs
  import opened Text
  import opened Dates
  import opened Paging
  import opened Entities
  import opened BackOffice

  /** `getAllCategories` parameters; `statut` filters whenever it is given, `false` included. */
  datatype CategoryQuery = CategoryQuery(
    page: Option<int>, limit: Option<int>, search: Option<string>, statut: Option<bool>)

  /** `CreateCategorieData`. */
  datatype NewCategory = NewCategory(nom: string, description: Option<string>)

  /** `UpdateCategorieData`: `None` is a field the caller left out. */
  datatype CategoryPatch = CategoryPatch(nom: Option<string>, description: Option<string>, statut: Option<bool>)

  const NotFound := "Catégorie non trouvée"

  function HasId(id: string): Category -> bool
  {
    (c: Category) => c.idCategorie == id
  }

  /** The listing's selection criterion, stated directly. */
  predicate Matches(c: Category, q: CategoryQuery)
  {
    && (Given(q.search) ==> Contains(Lower(c.nom), Lower(q.search.value)))
    && (q.statut.Some? ==> c.statut == q.statut.value)
  }

  function Matcher(q: CategoryQuery): Category -> bool
  {
    (c: Category) => Matches(c, q)
  }

  /** The filters the listing applies one after the other. */
  function Filters(q: CategoryQuery): seq<Option<Category -> bool>>
  {
    [ if Given(q.search) then Some((c: Category) => Contains(Lower(c.nom), Lower(q.search.value))) else None,
      if q.statut.Some? then Some((c: Category) => c.statut == q.statut.value) else None ]
  }

  lemma FiltersMeanMatches(q: CategoryQuery)
    ensures forall c :: PassesAll(c, Filters(q)) == Matches(c, q)
  {
    forall c ensures PassesAll(c, Filters(q)) == Matches(c, q) {
      var cs := Filters(q);
      assert PassesAll(c, cs) == ((cs[0].None? || cs[0].value(c)) && (cs[1].None? || cs[1].value(c)));
    }
  }

  /** The successive filters keep, in store order, exactly the matching categories. */
  function FilterCategories(cs: seq<Category>, q: CategoryQuery): (r: seq<Category>)
    ensures r == Filter(cs, Matcher(q))
    ensures forall k :: 0 <= k < |r| ==> r[k] in cs && Matches(r[k], q)
    ensures forall k :: 0 <= k < |cs| && Matches(cs[k], q) ==> cs[k] in r
  {
    FilterChainIsConjunction(cs, Filters(q));
    FiltersMeanMatches(q);
    FilterExt(cs, PassesAllOf(Filters(q)), Matcher(q));
    FilterChain(cs, Filters(q))
  }

  /** `getAllCategories`: one page of the matching categories and the paging metadata. */
  function GetAllCategories(cs: seq<Category>, q: CategoryQuery): (r: Page<Category>)
    ensures r.meta.page == OrDefault(q.page, 1) && r.meta.limit == OrDefault(q.limit, 10)
    ensures r.meta.total == |Filter(cs, Matcher(q))|
    ensures r.items == Window(Filter(cs, Matcher(q)), r.meta.page, r.meta.limit)
    ensures forall k :: 0 <= k < |r.items| ==> r.items[k] in cs && Matches(r.items[k], q)
  {
    Paginate(FilterCategories(cs, q), q.page, q.limit)
  }

  /** `getCategorieById`: the first category with the id, or the source's error. */
  function GetCategorieById(cs: seq<Category>, id: string): (r: Result<Category>)
    ensures r.Err? <==> forall k :: 0 <= k < |cs| ==> cs[k].idCategorie != id
    ensures r.Err? ==> r.msg == NotFound
    ensures r.Ok? ==> r.value.idCategorie == id && r.value == cs[IndexWhere(cs, HasId(id))]
  {
    var c := FindFirst(cs, HasId(id));
    if c.None? then Err(NotFound) else Ok(c.value)
  }

  /** The record `createCategorie` builds. */
  function NewCategoryRecord(data: NewCategory, env: Env): (c: Category)
    ensures c.statut && c.nom == data.nom && c.description == data.description
    ensures c.dateCreation == env.now && c.dateModification == env.now
  {
    Category("cat-" + NatToString(env.stamp), data.nom, data.description, true, env.now, env.now)
  }

  /** `Object.assign(categorie, data, { dateModification })`. */
  function ApplyPatch(c: Category, data: CategoryPatch, now: Instant): (u: Category)
    ensures u.idCategorie == c.idCategorie && u.dateCreation == c.dateCreation && u.dateModification == now
    ensures u.nom == (if data.nom.Some? then data.nom.value else c.nom)
    ensures u.description == (if data.description.Some? then data.description else c.description)
    ensures u.statut == (if data.statut.Some? then data.statut.value else c.statut)
  {
    c.(nom := GetOr(data.nom, c.nom), description := Override(data.description, c.description),
       statut := GetOr(data.statut, c.statut), dateModification := now)
  }

  /** `createCategorie`: appends an active category and returns it. */
  method CreateCategorie(store: Store, data: NewCategory, env: Env) returns (c: Category)
    modifies store
    ensures c == NewCategoryRecord(data, env)
    ensures store.Snapshot() == old(store.Snapshot()).(categories := old(store.categories) + [c])
  {
    c := NewCategoryRecord(data, env);
    store.categories := store.categories + [c];
  }

  /** `updateCategorie`: patches the first category with the id in place. */
  method UpdateCategorie(store: Store, id: string, data: CategoryPatch, env: Env) returns (r: Result<Category>)
    modifies store
    ensures r.Err? <==> GetCategorieById(old(store.categories), id).Err?
    ensures r.Err? ==> r.msg == NotFound && store.Snapshot() == old(store.Snapshot())
    ensures r.Ok? ==>
      var i := IndexWhere(old(store.categories), HasId(id));
      r.value == ApplyPatch(old(store.categories)[i], data, env.now)
      && store.Snapshot() == old(store.Snapshot()).(categories := old(store.categories)[i := r.value])
  {
    var i := IndexWhere(store.categories, HasId(id));
    if i < 0 {
      return Err(NotFound);
    }
    var c := ApplyPatch(store.categories[i], data, env.now);
    store.categories := store.categories[i := c];
    r := Ok(c);
  }

  /** `updateCategorieStatut`: sets the status only; the modification date is left as it was. */
  method UpdateCategorieStatut(store: Store, id: string, statut: bool) returns (r: Result<Category>)
    modifies store
    ensures r.Err? <==> GetCategorieById(old(store.categories), id).Err?
    ensures r.Err? ==> r.msg == NotFound && store.Snapshot() == old(store.Snapshot())
    ensures r.Ok? ==>
      var i := IndexWhere(old(store.categories), HasId(id));
      r.value == old(store.categories)[i].(statut := statut)
      && store.Snapshot() == old(store.Snapshot()).(categories := old(store.categories)[i := r.value])
  {
    var i := IndexWhere(store.categories, HasId(id));
    if i < 0 {
      return Err(NotFound);
    }
    var c := store.categories[i].(statut := statut);
    store.categories := store.categories[i := c];
    r := Ok(c);
  }

  /** `deleteCategorie`: removes the first category with the id; products that name it
      are left as they are. */
  method DeleteCategorie(store: Store, id: string) returns (r: Result<string>)
    modifies store
    ensures r.Err? <==> GetCategorieById(old(store.categories), id).Err?
    ensures r.Err? ==> r.msg == NotFound && store.Snapshot() == old(store.Snapshot())
    ensures r.Ok? ==>
      var i := IndexWhere(old(store.categories), HasId(id));
      r.value == "Catégorie supprimée"
      && store.Snapshot() == old(store.Snapshot()).(categories := RemoveAt(old(store.categories), i))
  {
    var i := IndexWhere(store.categories, HasId(id));
    if i < 0 {
      return Err(NotFound);
    }
    store.categories := RemoveAt(store.categories, i);
    r := Ok("Catégorie supprimée");
  }

  ghost predicate DistinctIds(cs: seq<Category>)
  {
    forall a, b :: 0 <= a < b < |cs| ==> cs[a].idCategorie != cs[b].idCategorie
  }

  /** A created category is found by its id when that id was free. */
  lemma CreatedIsFound(cs: seq<Category>, data: NewCategory, env: Env)
    requires GetCategorieById(cs, "cat-" + NatToString(env.stamp)).Err?
    ensures var c := NewCategoryRecord(data, env);
      GetCategorieById(cs + [c], c.idCategorie) == Ok(c)
  {
    var c := NewCategoryRecord(data, env);
    FindFirstAppendFresh(cs, c, HasId(c.idCategorie));
  }

  /** With distinct ids, a deleted category can no longer be found and every other
      one still is, in the same order. */
  lemma {:induction false} DeletedIsGone(cs: seq<Category>, id: string, other: string)
    requires DistinctIds(cs) && GetCategorieById(cs, id).Ok?
    requires other != id
    ensures var rest := RemoveAt(cs, IndexWhere(cs, HasId(id)));
      GetCategorieById(rest, id).Err? && GetCategorieById(rest, other) == GetCategorieById(cs, other)
      && |rest| == |cs| - 1
  {
    var i := IndexWhere(cs, HasId(id));
    var rest := RemoveAt(cs, i);
    forall k | 0 <= k < |rest| ensures rest[k].idCategorie != id {
      if k < i {
        assert rest[k] == cs[k];
      } else {
        assert rest[k] == cs[k + 1];
      }
    }
    var j := IndexWhere(cs, HasId(other));
    if j >= 0 {
      var j' := if j < i then j else j - 1;
      assert rest[j'] == cs[j];
      forall k | 0 <= k < j' ensures rest[k].idCategorie != other {
        if k < i {
          assert rest[k] == cs[k];
        } else {
          assert rest[k] == cs[k + 1];
        }
      }
      assert IndexWhere(rest, HasId(other)) == j';
    } else {
      forall k | 0 <= k < |rest| ensures rest[k].idCategorie != other {
        if k < i {
          assert rest[k] == cs[k];
        } else {
          assert rest[k] == cs[k + 1];
        }
      }
    }
  }

  /** After an update, looking the id up returns the patched category. */
  lemma UpdatedIsFound(cs: seq<Category>, id: string, data: CategoryPatch, now: Instant)
    requires GetCategorieById(cs, id).Ok?
    ensures var i := IndexWhere(cs, HasId(id));
      var u := ApplyPatch(cs[i], data, now);
      GetCategorieById(cs[i := u], id) == Ok(u)
  {
    var i := IndexWhere(cs, HasId(id));
    IndexWhereReplace(cs, HasId(id), ApplyPatch(cs[i], data, now));
  }
}
