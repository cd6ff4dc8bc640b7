/** The records the back office keeps, with the fields the services read or write. */
module Entities {
  import opened Wrappers
  import opened Dates

  datatype Role = Admin | StockManager | Cashier

  /** The role as the source spells it in paths and user records. */
  function RoleName(r: Role): string
  {
    match r
    case Admin => "admin"
    case StockManager => "stock_manager"
    case Cashier => "cashier"
  }

  /** A user account (`users` in the store and in the static dataset). */
  datatype User = User(
    id: string, username: string, email: string, password: Option<string>,
    avatar: Option<string>, role: Role, mustChangePassword: bool, isActive: bool)

  datatype Category = Category(
    idCategorie: string, nom: string, description: Option<string>, statut: bool,
    dateCreation: Instant, dateModification: Instant)

  datatype ProductStatus = Actif | EnAttenteSuppression | Supprime

  /** A product. `seuilMin` and `garantieMois` are optional on creation, so a
      created product may lack them (`undefined` in the source). */
  datatype Product = Product(
    idProduit: string, codeProduit: string, nom: string, description: Option<string>,
    image: Option<string>, prixAchat: int, prixMin: int, prixVente: int, stock: int,
    seuilMin: Option<int>, garantieMois: Option<int>, statut: ProductStatus,
    idCategorie: string, dateCreation: Instant, dateModification: Instant,
    categorie: Option<Category>)

  /** A client; `totalAchats`/`nombreAchats` are only filled in on the copies `getAll`
      and `getById` return. */
  datatype Client = Client(
    idClient: string, nom: string, email: string, telephone: string, adresse: string,
    ville: string, codePostal: string, pays: string, typeClient: string, supprime: bool,
    totalAchats: Option<int>, nombreAchats: Option<int>,
    dateCreation: Instant, dateModification: Instant)

  datatype SaleStatus = Commande | Validee | Annulee | Retournee

  /** A line as the caller submits it; `sousTotal` is the caller's figure. */
  datatype LineInput = LineInput(
    idProduit: string, quantite: int, prixUnitaire: int, remise: int, sousTotal: int)

  /** A stored sale line: the submitted line, an id and the product it names. */
  datatype SaleLine = SaleLine(
    idLigneVente: string, idProduit: string, quantite: int, prixUnitaire: int,
    remise: int, sousTotal: int, produit: Option<Product>)

  datatype Sale = Sale(
    idVente: string, numeroVente: string, idClient: string, idUser: string,
    dateVente: Instant, totalBrut: int, remise: int, totalNet: int, statut: SaleStatus,
    lignes: seq<SaleLine>, client: Option<Client>, user: Option<User>)

  datatype InvoiceStatus = Generee | Envoyee | Payee | Annulee

  datatype Invoice = Invoice(
    idFacture: string, numeroFacture: string, idVente: string, dateFacture: Instant,
    montantTotal: int, montantPaye: int, statut: InvoiceStatus, dateEcheance: Instant,
    dateCreation: Instant)

  datatype PaymentStatus = Valide | EnAttente | Annule

  /** A payment; `modePaiement` is whatever string the caller passed. */
  datatype Payment = Payment(
    idPaiement: string, idVente: string, montant: int, modePaiement: string,
    statut: PaymentStatus, datePaiement: Instant, reference: string, dateCreation: Instant)

  datatype WarrantyStatus = Active | Expiree | Utilisee | Annulee

  datatype Warranty = Warranty(
    idGarantie: string, idVente: string, idProduit: string, dateDebut: Instant,
    dateFin: Instant, statut: WarrantyStatus, description: string)

  datatype MovementType = Entree | Sortie | Ajustement

  /** The product and user summaries a movement carries. */
  datatype ProductRef = ProductRef(nom: string, codeProduit: string)
  datatype UserRef = UserRef(username: string, email: string)

  datatype Movement = Movement(
    idMouvement: string, idProduit: string, idUser: string, typeMouvement: MovementType,
    quantite: int, motif: Option<string>, dateMouvement: Instant,
    produit: Option<ProductRef>, user: Option<UserRef>)

  /** The values an audit entry records. */
  datatype Json = Undefined | Null | Str(s: string) | Num(n: int) | Obj(fields: seq<(string, Json)>)

  datatype AuditLog = AuditLog(
    idAudit: string, idUser: string, action: string, entite: string, idEntite: string,
    anciennesValeurs: Json, nouvellesValeurs: Json, dateAction: Instant,
    adresseIP: string, userAgent: string)

  datatype ValidationStatus = EnAttente | Approuvee | Rejetee

  datatype Validation = Validation(
    idValidation: string, kind: string, idEntite: string, statut: ValidationStatus,
    raison: string, dateCreation: Instant, dateValidation: Option<Instant>,
    idUserValidateur: Option<string>, motifRejet: Option<string>)

  datatype ClaimStatus = EnAttente | EnCours | Approuvee | Rejetee

  datatype Claim = Claim(
    idReclamation: string, idGarantie: string, idProduit: string, typeProbleme: string,
    description: string, photos: seq<string>, statut: ClaimStatus,
    motifRejet: Option<string>, produitRemplacementId: Option<string>,
    dateCreation: Instant, dateModification: Instant)

  datatype Promotion = Promotion(
    idPromotion: string, nom: string, codePromotion: string, supprime: bool)

  /** A generated file: name and text content. */
  datatype Document = Document(filename: string, content: string)

  /** What a service call observes of the world: `Date.now()` (`stamp`), `new Date()`
      (`now`), the k-th `Math.random()` printed as a string (`random(k)`) and
      `navigator.userAgent` when a navigator exists. One call sees one instant. */
  datatype Env = Env(stamp: nat, now: Instant, random: nat -> string, navigator: Option<string>)
}
