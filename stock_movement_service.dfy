/** Stock movements: filtered, paged listing, lookup and period statistics
    (services/mock-stock-movement-service.ts). */
module StockMovementService {
  import opened Wrappers
  import opened Seqs
  import opened Text
  import opened Dates
  import opened Paging
  import opened Entities

  /** `getAllMouvements` parameters; the two dates are the parsed `dateDebut`/`dateFin`. */
  datatype MovementQuery = MovementQuery(
    page: Option<int>, limit: Option<int>, idProduit: Option<string>,
    typeMouvement: Option<MovementType>, dateDebut: Option<Instant>, dateFin: Option<Instant>)

  function OfProduct(id: string): Movement -> bool
  {
    (m: Movement) => m.idProduit == id
  }

  function OfType(t: MovementType): Movement -> bool
  {
    (m: Movement) => m.typeMouvement == t
  }

  function NotOfType(t: MovementType): Movement -> bool
  {
    (m: Movement) => m.typeMouvement != t
  }

  /** Dated at or after `d` (`new Date(m.dateMouvement) >= new Date(dateDebut)`). */
  function From(d: Instant): Movement -> bool
  {
    (m: Movement) => Rank(m.dateMouvement) >= Rank(d)
  }

  /** Dated at or before `d`. */
  function Until(d: Instant): Movement -> bool
  {
    (m: Movement) => Rank(m.dateMouvement) <= Rank(d)
  }

  function HasId(id: string): Movement -> bool
  {
    (m: Movement) => m.idMouvement == id
  }

  /** The listing's selection criterion, stated directly. */
  predicate Matches(m: Movement, q: MovementQuery)
  {
    && (Given(q.idProduit) ==> m.idProduit == q.idProduit.value)
    && (q.typeMouvement.Some? ==> m.typeMouvement == q.typeMouvement.value)
    && (q.dateDebut.Some? ==> Rank(m.dateMouvement) >= Rank(q.dateDebut.value))
    && (q.dateFin.Some? ==> Rank(m.dateMouvement) <= Rank(q.dateFin.value))
  }

  function Matcher(q: MovementQuery): Movement -> bool
  {
    (m: Movement) => Matches(m, q)
  }

  /** The filters the listing applies one after the other. */
  function Filters(q: MovementQuery): seq<Option<Movement -> bool>>
  {
    [ if Given(q.idProduit) then Some(OfProduct(q.idProduit.value)) else None,
      if q.typeMouvement.Some? then Some(OfType(q.typeMouvement.value)) else None,
      if q.dateDebut.Some? then Some(From(q.dateDebut.value)) else None,
      if q.dateFin.Some? then Some(Until(q.dateFin.value)) else None ]
  }

  lemma FiltersMeanMatches(q: MovementQuery)
    ensures forall m :: PassesAll(m, Filters(q)) == Matches(m, q)
  {
    forall m ensures PassesAll(m, Filters(q)) == Matches(m, q) {
      var cs := Filters(q);
      assert PassesAll(m, cs) == ((cs[0].None? || cs[0].value(m)) && (cs[1].None? || cs[1].value(m))
        && (cs[2].None? || cs[2].value(m)) && (cs[3].None? || cs[3].value(m)));
    }
  }

  /** The successive filters keep, in store order, exactly the matching movements. */
  function FilterMovements(ms: seq<Movement>, q: MovementQuery): (r: seq<Movement>)
    ensures r == Filter(ms, Matcher(q))
    ensures forall k :: 0 <= k < |r| ==> r[k] in ms && Matches(r[k], q)
    ensures forall k :: 0 <= k < |ms| && Matches(ms[k], q) ==> ms[k] in r
  {
    FilterChainIsConjunction(ms, Filters(q));
    FiltersMeanMatches(q);
    FilterExt(ms, PassesAllOf(Filters(q)), Matcher(q));
    FilterChain(ms, Filters(q))
  }

  /** `getAllMouvements`: one page of the matching movements and the paging metadata. */
  function GetAllMouvements(ms: seq<Movement>, q: MovementQuery): (r: Page<Movement>)
    ensures r.meta.page == OrDefault(q.page, 1) && r.meta.limit == OrDefault(q.limit, 10)
    ensures r.meta.total == |Filter(ms, Matcher(q))|
    ensures r.items == Window(Filter(ms, Matcher(q)), r.meta.page, r.meta.limit)
    ensures forall k :: 0 <= k < |r.items| ==> r.items[k] in ms && Matches(r.items[k], q)
  {
    Paginate(FilterMovements(ms, q), q.page, q.limit)
  }

  /** `getMouvementById`: the first movement with the id, or the source's error. */
  function GetMouvementById(ms: seq<Movement>, id: string): (r: Result<Movement>)
    ensures r.Err? <==> forall k :: 0 <= k < |ms| ==> ms[k].idMouvement != id
    ensures r.Err? ==> r.msg == "Mouvement non trouvé"
    ensures r.Ok? ==> r.value.idMouvement == id && r.value == ms[IndexWhere(ms, HasId(id))]
  {
    var m := FindFirst(ms, HasId(id));
    if m.None? then Err("Mouvement non trouvé") else Ok(m.value)
  }

  /** The movements of the period `getStatistiquesMouvements` looks at. */
  function InPeriod(ms: seq<Movement>, dateDebut: Option<Instant>, dateFin: Option<Instant>): seq<Movement>
  {
    FilterChain(ms, [ if dateDebut.Some? then Some(From(dateDebut.value)) else None,
                      if dateFin.Some? then Some(Until(dateFin.value)) else None ])
  }

  function Quantity(m: Movement): int
  {
    m.quantite
  }

  /** A movement's effect on the balance the statistics report: entries add, exits
      subtract, adjustments are not counted. */
  function SignedQuantity(m: Movement): int
  {
    match m.typeMouvement
    case Entree => m.quantite
    case Sortie => -m.quantite
    case Ajustement => 0
  }

  datatype Stats = Stats(
    totalMouvements: nat, totalEntrees: int, totalSorties: int, solde: int,
    produitsAvecMouvements: seq<string>)

  /** `getStatistiquesMouvements`. */
  function GetStatistiquesMouvements(ms: seq<Movement>, dateDebut: Option<Instant>, dateFin: Option<Instant>): (r: Stats)
    ensures r.totalMouvements == |InPeriod(ms, dateDebut, dateFin)|
    ensures r.totalEntrees == SumBy(Filter(InPeriod(ms, dateDebut, dateFin), OfType(Entree)), Quantity)
    ensures r.totalSorties == SumBy(Filter(InPeriod(ms, dateDebut, dateFin), OfType(Sortie)), Quantity)
    ensures r.produitsAvecMouvements == []
  {
    var period := InPeriod(ms, dateDebut, dateFin);
    var entrees := SumBy(Filter(period, OfType(Entree)), Quantity);
    var sorties := SumBy(Filter(period, OfType(Sortie)), Quantity);
    Stats(|period|, entrees, sorties, entrees - sorties, [])
  }

  /** Entries minus exits is the sum of the signed quantities. */
  lemma {:induction false} BalanceIsSignedSum(ms: seq<Movement>)
    ensures SumBy(ms, SignedQuantity)
         == SumBy(Filter(ms, OfType(Entree)), Quantity) - SumBy(Filter(ms, OfType(Sortie)), Quantity)
  {
    if |ms| > 0 {
      BalanceIsSignedSum(ms[1..]);
      var e := if OfType(Entree)(ms[0]) then [ms[0]] else [];
      var s := if OfType(Sortie)(ms[0]) then [ms[0]] else [];
      SumByAppend(e, Filter(ms[1..], OfType(Entree)), Quantity);
      SumByAppend(s, Filter(ms[1..], OfType(Sortie)), Quantity);
    }
  }

  /** The reported balance is the net signed quantity of the period. */
  lemma StatsBalance(ms: seq<Movement>, dateDebut: Option<Instant>, dateFin: Option<Instant>)
    ensures var r := GetStatistiquesMouvements(ms, dateDebut, dateFin);
      r.solde == SumBy(InPeriod(ms, dateDebut, dateFin), SignedQuantity)
  {
    BalanceIsSignedSum(InPeriod(ms, dateDebut, dateFin));
  }

  /** Entries, exits and adjustments together account for every unit moved. */
  lemma {:induction false} TypesPartitionQuantity(ms: seq<Movement>)
    ensures SumBy(ms, Quantity)
         == SumBy(Filter(ms, OfType(Entree)), Quantity) + SumBy(Filter(ms, OfType(Sortie)), Quantity)
          + SumBy(Filter(ms, OfType(Ajustement)), Quantity)
  {
    SumBySplit(ms, Quantity, OfType(Entree), NotOfType(Entree));
    var rest := Filter(ms, NotOfType(Entree));
    SumBySplit(rest, Quantity, OfType(Sortie), NotOfType(Sortie));
    FilterThenFilter(ms, NotOfType(Entree), OfType(Sortie), OfType(Sortie));
    FilterThenFilter(ms, NotOfType(Entree), NotOfType(Sortie), OfType(Ajustement));
  }

  /** The statistics count the same movements as the listing asked for the same period only. */
  lemma StatsAgreeWithListing(ms: seq<Movement>, dateDebut: Option<Instant>, dateFin: Option<Instant>)
    ensures GetStatistiquesMouvements(ms, dateDebut, dateFin).totalMouvements
         == GetAllMouvements(ms, MovementQuery(None, None, None, None, dateDebut, dateFin)).meta.total
  {
    var q := MovementQuery(None, None, None, None, dateDebut, dateFin);
    var cs := [ if dateDebut.Some? then Some(From(dateDebut.value)) else None,
                if dateFin.Some? then Some(Until(dateFin.value)) else None ];
    FilterChainIsConjunction(ms, cs);
    FilterExt(ms, PassesAllOf(cs), Matcher(q));
  }
}
