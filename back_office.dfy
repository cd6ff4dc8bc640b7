/** The shared in-memory store every mock service reads and updates in place. */
module BackOffice {
  import opened Wrappers
  import opened Entities

  /** The whole store as one value, for stating what an operation leaves alone. */
  datatype State = State(
    produits: seq<Product>, ventes: seq<Sale>, factures: seq<Invoice>,
    paiements: seq<Payment>, garanties: seq<Warranty>, mouvementsStock: seq<Movement>,
    audits: seq<AuditLog>, clients: seq<Client>, categories: seq<Category>,
    validations: seq<Validation>, reclamations: Option<seq<Claim>>, users: seq<User>)

  class Store {
    var produits: seq<Product>
    var ventes: seq<Sale>
    var factures: seq<Invoice>
    var paiements: seq<Payment>
    var garanties: seq<Warranty>
    var mouvementsStock: seq<Movement>
    var audits: seq<AuditLog>
    var clients: seq<Client>
    var categories: seq<Category>
    var validations: seq<Validation>
    /** The claims list may be missing until the first claim is created. */
    var reclamations: Option<seq<Claim>>
    var users: seq<User>

    function Snapshot(): State
      reads this
    {
      State(produits, ventes, factures, paiements, garanties, mouvementsStock,
            audits, clients, categories, validations, reclamations, users)
    }

    constructor (init: State)
      ensures Snapshot() == init
    {
      produits, ventes, factures := init.produits, init.ventes, init.factures;
      paiements, garanties, mouvementsStock := init.paiements, init.garanties, init.mouvementsStock;
      audits, clients, categories := init.audits, init.clients, init.categories;
      validations, reclamations, users := init.validations, init.reclamations, init.users;
    }
  }
}
