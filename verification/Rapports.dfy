/** The contents of the X, Z and A reports (rapports.ts): aggregation of invoices and of their lines. */
module Rapports {
  import opened Wrappers
  import opened Sommes
  import opened Dictionnaires
  import opened Groupes
  import opened Decimales
  import opened Calcul
  import opened Validation

  /** A line sold below its original price. */
  datatype Remise = Remise(quantite: string, prixUnitaire: int, prixOrigine: int)

  datatype FacturePourRapport = FacturePourRapport(
    genre: TypeFacture, statut: Statut, total: Option<int>, tva: Option<int>, reference: string,
    totaux: Option<TotauxFacture>, paiements: seq<Paiement>, remises: seq<Remise>)

  const RRR := "RRR"

  datatype Mouvement = Mouvement(entree: bool, montant: int, devise: string)

  datatype GroupeRapport = GroupeRapport(groupe: Groupe, taux: nat, total: int, base: int, tva: int)

  datatype TypeRapport = TypeRapport(genre: TypeFacture, nombre: int, total: int, base: int, tva: int, groupes: seq<GroupeRapport>)

  datatype Ensemble = Ensemble(nombre: int, total: int, tva: int)

  datatype Tiroir = Tiroir(devise: string, depots: int, retraits: int)

  datatype ContenuXZ = ContenuXZ(
    parType: seq<TypeRapport>, ventes: Ensemble, avoirs: Ensemble, netTotal: int, netTva: int,
    paiements: seq<(Moyen, int)>, remboursements: seq<(Moyen, int)>,
    lignesReduites: int, montantReductions: int, remisesRrr: int, taxeSpecifique: int,
    incompletes: int, provisoires: int, enEchec: int, especes: seq<Tiroir>)

  const ORDRE_TYPES: seq<TypeFacture> :=
    [TypeFacture.FV, TypeFacture.FT, TypeFacture.EV, TypeFacture.ET, TypeFacture.FA, TypeFacture.EA]

  // ------------------------------------------------------------------ what each invoice brings

  datatype Champ = Nombre | Total | Base | Tva

  /** Every amount that can be read in a report. */
  datatype Mesure =
    | DuType(genre: TypeFacture, champ: Champ)
    | DuGroupe(genre: TypeFacture, groupe: Groupe, champ: Champ)
    | Ventes(champ: Champ)
    | Avoirs(champ: Champ)
    | Net(champ: Champ)
    | Paye(moyen: Moyen)
    | Rembourse(moyen: Moyen)
    | LignesReduites
    | MontantReductions
    | RemisesRrr
    | TaxeSpecifique
    | Incompletes
    | Provisoires
    | EnEchec
    | Depots(devise: string)
    | Retraits(devise: string)

  /** The report shows no number of invoices by group, and no base for all sales together. */
  predicate Mesurable(m: Mesure) {
    match m
    case DuGroupe(_, _, c) => c != Nombre
    case Ventes(c) => c != Base
    case Avoirs(c) => c != Base
    case Net(c) => c == Total || c == Tva
    case _ => true
  }

  function Ou0(x: Option<int>): int {
    match x case Some(v) => v case None => 0
  }

  function GroupesFacture(f: FacturePourRapport): seq<TotalGroupe> {
    match f.totaux case Some(t) => t.groupes case None => []
  }

  function TaxeFacture(f: FacturePourRapport): int {
    match f.totaux case Some(t) => t.taxeSpecifique case None => 0
  }

  function ChampGroupe(g: TotalGroupe, c: Champ): int {
    match c case Nombre => 1 case Total => g.total case Base => g.base case Tva => g.tva
  }

  function DansGroupe(g: Groupe, c: Champ): TotalGroupe -> int {
    (x: TotalGroupe) => if x.groupe == g then ChampGroupe(x, c) else 0
  }

  function ChampFacture(f: FacturePourRapport, c: Champ): int {
    match c
    case Nombre => 1
    case Total => Ou0(f.total)
    case Base => Somme(GroupesFacture(f), BaseDe())
    case Tva => Ou0(f.tva)
  }

  function MontantPar(m: Moyen): Paiement -> int {
    (p: Paiement) => if p.moyen == m then p.montant else 0
  }

  function UnPar(m: Moyen): Paiement -> int {
    (p: Paiement) => if p.moyen == m then 1 else 0
  }

  /** BigInt division: truncated towards zero. */
  function DivTronquee(a: int, b: int): int
    requires b > 0
  {
    if a >= 0 then a / b else -((-a) / b)
  }

  /** The commercial reduction of a line, from thousandths of a cent. */
  function Reduction(difference: int): int {
    DivTronquee(2 * difference + 1000, 2000)
  }

  function ReductionDe(): Remise -> int {
    (l: Remise) =>
      match QuantiteEnMilliemes(l.quantite)
      case Ok(q) => Reduction((l.prixOrigine - l.prixUnitaire) * q)
      case Err(_) => 0
  }

  /**
   The reduction is the difference to the nearest cent exactly when the price was not raised by more than half a
   cent in all: the truncated division rounds the other way below zero, half a cent apart.
   */
  lemma ReductionArrondie(d: int)
    ensures -500 <= 1000 * Reduction(d) - d <= 500 <==> d >= -500 || -d % 1000 == 500
  {
  }

  /** What one invoice brings to an amount of the report. */
  function Contribution(f: FacturePourRapport, m: Mesure): int {
    var avoir := EstAvoir(f.genre);
    if f.statut != Confirmed then
      match m
      case Provisoires => if f.statut == Provisional || f.statut == Pending then 1 else 0
      case EnEchec => if f.statut == Failed then 1 else 0
      case Incompletes => if f.statut == Abandoned then 0 else 1
      case _ => 0
    else
      match m
      case DuType(t, c) => if f.genre == t then ChampFacture(f, c) else 0
      case DuGroupe(t, g, c) => if f.genre == t then Somme(GroupesFacture(f), DansGroupe(g, c)) else 0
      case Ventes(c) => if avoir then 0 else ChampFacture(f, c)
      case Avoirs(c) => if avoir then ChampFacture(f, c) else 0
      case Net(c) => if avoir then -ChampFacture(f, c) else ChampFacture(f, c)
      case Paye(p) => if avoir then 0 else Somme(f.paiements, MontantPar(p))
      case Rembourse(p) => if avoir then Somme(f.paiements, MontantPar(p)) else 0
      case LignesReduites => if avoir then 0 else |f.remises|
      case MontantReductions => if avoir then 0 else Somme(f.remises, ReductionDe())
      case RemisesRrr => if avoir && f.reference == RRR then Ou0(f.total) else 0
      case TaxeSpecifique => if avoir then 0 else TaxeFacture(f)
      case _ => 0
  }

  function Apport(m: Mesure): FacturePourRapport -> int {
    (f: FacturePourRapport) => Contribution(f, m)
  }

  function ApportEspeces(m: Mesure): Mouvement -> int {
    (x: Mouvement) =>
      match m
      case Depots(d) => if x.entree && x.devise == d then x.montant else 0
      case Retraits(d) => if !x.entree && x.devise == d then x.montant else 0
      case _ => 0
  }

  /** What the report must show. */
  function Attendu(fs: seq<FacturePourRapport>, ms: seq<Mouvement>, m: Mesure): int {
    Somme(fs, Apport(m)) + Somme(ms, ApportEspeces(m))
  }

  // ------------------------------------------------------------------ reading a report

  function LireChamp(t: TypeRapport, c: Champ): int {
    match c case Nombre => t.nombre case Total => t.total case Base => t.base case Tva => t.tva
  }

  function LireChampGroupe(g: GroupeRapport, c: Champ): int {
    match c case Nombre => 0 case Total => g.total case Base => g.base case Tva => g.tva
  }

  function LireEnsemble(e: Ensemble, c: Champ): int {
    match c case Nombre => e.nombre case Total => e.total case Base => 0 case Tva => e.tva
  }

  function LireGroupe(g: Groupe, c: Champ): GroupeRapport -> int {
    (x: GroupeRapport) => if x.groupe == g then LireChampGroupe(x, c) else 0
  }

  function LireType(t: TypeFacture, c: Champ): TypeRapport -> int {
    (x: TypeRapport) => if x.genre == t then LireChamp(x, c) else 0
  }

  function LireGroupeDuType(t: TypeFacture, g: Groupe, c: Champ): TypeRapport -> int {
    (x: TypeRapport) => if x.genre == t then Somme(x.groupes, LireGroupe(g, c)) else 0
  }

  function Identite(): int -> int {
    (x: int) => x
  }

  function LireDepots(d: string): Tiroir -> int {
    (e: Tiroir) => if e.devise == d then e.depots else 0
  }

  function LireRetraits(d: string): Tiroir -> int {
    (e: Tiroir) => if e.devise == d then e.retraits else 0
  }

  /** The amount that a reader finds in the report. */
  function Lecture(r: ContenuXZ, m: Mesure): int {
    match m
    case DuType(t, c) => Somme(r.parType, LireType(t, c))
    case DuGroupe(t, g, c) => Somme(r.parType, LireGroupeDuType(t, g, c))
    case Ventes(c) => LireEnsemble(r.ventes, c)
    case Avoirs(c) => LireEnsemble(r.avoirs, c)
    case Net(c) => if c == Total then r.netTotal else r.netTva
    case Paye(p) => Somme(r.paiements, Seulement(p, Identite()))
    case Rembourse(p) => Somme(r.remboursements, Seulement(p, Identite()))
    case LignesReduites => r.lignesReduites
    case MontantReductions => r.montantReductions
    case RemisesRrr => r.remisesRrr
    case TaxeSpecifique => r.taxeSpecifique
    case Incompletes => r.incompletes
    case Provisoires => r.provisoires
    case EnEchec => r.enEchec
    case Depots(d) => Somme(r.especes, LireDepots(d))
    case Retraits(d) => Somme(r.especes, LireRetraits(d))
  }

  // ------------------------------------------------------------------ totals by type and group

  datatype Cumul = Cumul(nombre: int, total: int, base: int, tva: int, groupes: map<Groupe, GroupeRapport>)

  const CUMUL_VIDE := Cumul(0, 0, 0, 0, map[])

  type ParType = map<TypeFacture, Cumul>

  function CumulDe(m: ParType, t: TypeFacture): Cumul {
    if t in m then m[t] else CUMUL_VIDE
  }

  function ChampCumul(c: Cumul, ch: Champ): int {
    match ch case Nombre => c.nombre case Total => c.total case Base => c.base case Tva => c.tva
  }

  function GroupeCumul(c: Cumul, g: Groupe, ch: Champ): int {
    if g in c.groupes then LireChampGroupe(c.groupes[g], ch) else 0
  }

  /** Each key holds the group that it names. */
  predicate BienRange(c: Cumul) {
    forall g :: g in c.groupes ==> c.groupes[g].groupe == g
  }

  /** The rate under which a group was first met. */
  function PremierTaux(gs: seq<TotalGroupe>, g: Groupe): Option<nat> {
    if gs == [] then None else
      var avant := PremierTaux(gs[..|gs| - 1], g);
      if avant.Some? then avant else if gs[|gs| - 1].groupe == g then Some(gs[|gs| - 1].taux) else None
  }

  function TauxCumul(c: Cumul, g: Groupe): Option<nat> {
    if g in c.groupes then Some(c.groupes[g].taux) else None
  }

  function OuTaux(a: Option<nat>, b: Option<nat>): Option<nat> {
    if a.Some? then a else b
  }

  method CumulerGroupesFacture(c: Cumul, gs: seq<TotalGroupe>) returns (r: Cumul)
    requires BienRange(c)
    ensures BienRange(r) && r.nombre == c.nombre && r.total == c.total && r.tva == c.tva
    ensures r.base == c.base + Somme(gs, BaseDe())
    ensures forall g, ch :: ch != Nombre ==> GroupeCumul(r, g, ch) == GroupeCumul(c, g, ch) + Somme(gs, DansGroupe(g, ch))
    ensures forall g :: TauxCumul(r, g) == OuTaux(TauxCumul(c, g), PremierTaux(gs, g))
  {
    r := c;
    for i := 0 to |gs|
      invariant BienRange(r) && r.nombre == c.nombre && r.total == c.total && r.tva == c.tva
      invariant r.base == c.base + Somme(gs[..i], BaseDe())
      invariant forall g, ch :: ch != Nombre ==> GroupeCumul(r, g, ch) == GroupeCumul(c, g, ch) + Somme(gs[..i], DansGroupe(g, ch))
      invariant forall g :: TauxCumul(r, g) == OuTaux(TauxCumul(c, g), PremierTaux(gs[..i], g))
    {
      var x := gs[i];
      var e := if x.groupe in r.groupes then r.groupes[x.groupe] else GroupeRapport(x.groupe, x.taux, 0, 0, 0);
      e := GroupeRapport(e.groupe, e.taux, e.total + x.total, e.base + x.base, e.tva + x.tva);
      assert gs[..i + 1][..i] == gs[..i];
      r := r.(groupes := r.groupes[x.groupe := e], base := r.base + x.base);
    }
    assert gs[..|gs|] == gs;
  }

  predicate BienRanges(m: ParType) {
    forall t :: t in m ==> BienRange(m[t])
  }

  ghost predicate TypesCumules(m: ParType, f: FacturePourRapport, r: ParType) {
    && r.Keys == m.Keys + {f.genre}
    && (forall t, ch :: ChampCumul(CumulDe(r, t), ch) == ChampCumul(CumulDe(m, t), ch) + Contribution(f, DuType(t, ch)))
    && (forall t, g, ch :: ch != Nombre ==>
          GroupeCumul(CumulDe(r, t), g, ch) == GroupeCumul(CumulDe(m, t), g, ch) + Contribution(f, DuGroupe(t, g, ch)))
    && (forall t, g :: TauxCumul(CumulDe(r, t), g) == OuTaux(TauxCumul(CumulDe(m, t), g), TauxDe(f, t, g)))
  }

  method CumulerType(m: ParType, f: FacturePourRapport) returns (r: ParType)
    requires BienRanges(m) && f.statut == Confirmed
    ensures BienRanges(r) && TypesCumules(m, f, r)
  {
    var c := CumulDe(m, f.genre);
    c := c.(nombre := c.nombre + 1, total := c.total + Ou0(f.total), tva := c.tva + Ou0(f.tva));
    c := CumulerGroupesFacture(c, GroupesFacture(f));
    r := m[f.genre := c];
    assert forall t :: t != f.genre ==> CumulDe(r, t) == CumulDe(m, t);
    forall t, g | t != f.genre
      ensures TauxCumul(CumulDe(r, t), g) == OuTaux(TauxCumul(CumulDe(m, t), g), None)
    {
    }
  }

  // ------------------------------------------------------------------ payments

  type Caisse = d: Dictionnaire<Moyen, int> | Valide(d) witness Vide<Moyen, int>()

  function EnCaisse(d: Caisse, p: Moyen): int {
    if p in d.valeurs then d.valeurs[p] else 0
  }

  ghost predicate CaisseCumulee(d: Caisse, ps: seq<Paiement>, r: Caisse) {
    && (forall p :: EnCaisse(r, p) == EnCaisse(d, p) + Somme(ps, MontantPar(p)))
    && (forall p :: p in r.valeurs <==> p in d.valeurs || Somme(ps, UnPar(p)) > 0)
  }

  method CumulerPaiements(d: Caisse, ps: seq<Paiement>) returns (r: Caisse)
    ensures CaisseCumulee(d, ps, r)
  {
    hide Somme;
    r := d;
    DebutPaiements(ps);
    for i := 0 to |ps|
      invariant forall p :: EnCaisse(r, p) == EnCaisse(d, p) + Somme(ps[..i], MontantPar(p))
      invariant forall p :: Somme(ps[..i], UnPar(p)) >= 0
      invariant forall p :: p in r.valeurs <==> p in d.valeurs || Somme(ps[..i], UnPar(p)) > 0
    {
      UnPaiement(ps, i);
      var p := ps[i].moyen;
      r := Mettre(r, p, EnCaisse(r, p) + ps[i].montant);
    }
    assert ps[..|ps|] == ps;
  }

  lemma DebutPaiements(ps: seq<Paiement>)
    ensures forall p :: Somme(ps[..0], MontantPar(p)) == 0 && Somme(ps[..0], UnPar(p)) == 0
  {
  }

  lemma UnPaiement(ps: seq<Paiement>, i: nat)
    requires i < |ps|
    ensures forall p :: Somme(ps[..i + 1], MontantPar(p)) == Somme(ps[..i], MontantPar(p)) + if ps[i].moyen == p then ps[i].montant else 0
    ensures forall p :: Somme(ps[..i + 1], UnPar(p)) == Somme(ps[..i], UnPar(p)) + if ps[i].moyen == p then 1 else 0
  {
    forall p
      ensures Somme(ps[..i + 1], MontantPar(p)) == Somme(ps[..i], MontantPar(p)) + if ps[i].moyen == p then ps[i].montant else 0
      ensures Somme(ps[..i + 1], UnPar(p)) == Somme(ps[..i], UnPar(p)) + if ps[i].moyen == p then 1 else 0
    {
      SommePrefixe(ps, i, MontantPar(p));
      SommePrefixe(ps, i, UnPar(p));
    }
  }

  // ------------------------------------------------------------------ reductions

  predicate RemisesLisibles(ls: seq<Remise>) {
    forall i :: 0 <= i < |ls| ==> QuantiteEnMilliemes(ls[i].quantite).Ok?
  }

  /** An unreadable quantity stops the report. */
  method CumulerReductions(ls: seq<Remise>) returns (r: Result<int, ErreurDecimale>)
    ensures r.Ok? <==> RemisesLisibles(ls)
    ensures r.Ok? ==> r.value == Somme(ls, ReductionDe())
  {
    hide QuantiteEnMilliemes, Reduction;
    var n := 0;
    for i := 0 to |ls|
      invariant RemisesLisibles(ls[..i]) && n == Somme(ls[..i], ReductionDe())
    {
      var q := QuantiteEnMilliemes(ls[i].quantite);
      if q.Err? {
        return Err(q.error);
      }
      SommePrefixe(ls, i, ReductionDe());
      n := n + Reduction((ls[i].prixOrigine - ls[i].prixUnitaire) * q.value);
    }
    assert ls[..|ls|] == ls;
    return Ok(n);
  }

  // ------------------------------------------------------------------ the loop over the invoices

  /** The variables of the loop of contenuRapportXZ. */
  datatype EnCours = EnCours(
    parType: ParType, paiements: Caisse, remboursements: Caisse,
    lignes: int, reductions: int, rrr: int, ts: int, provisoires: int, enEchec: int)

  const DEBUT := EnCours(map[], Vide(), Vide(), 0, 0, 0, 0, 0, 0)

  /** The amounts that the loop accumulates; the others are derived from them at the end. */
  predicate DeBase(m: Mesure) {
    match m
    case Ventes(_) => false
    case Avoirs(_) => false
    case Net(_) => false
    case Incompletes => false
    case Depots(_) => false
    case Retraits(_) => false
    case DuGroupe(_, _, c) => c != Nombre
    case _ => true
  }

  function Lu(c: EnCours, m: Mesure): int {
    match m
    case DuType(t, ch) => ChampCumul(CumulDe(c.parType, t), ch)
    case DuGroupe(t, g, ch) => GroupeCumul(CumulDe(c.parType, t), g, ch)
    case Paye(p) => EnCaisse(c.paiements, p)
    case Rembourse(p) => EnCaisse(c.remboursements, p)
    case LignesReduites => c.lignes
    case MontantReductions => c.reductions
    case RemisesRrr => c.rrr
    case TaxeSpecifique => c.ts
    case Provisoires => c.provisoires
    case EnEchec => c.enEchec
    case _ => 0
  }

  /** A confirmed sale whose reductions cannot be read stops the report. */
  predicate Lisible(f: FacturePourRapport) {
    f.statut == Confirmed && !EstAvoir(f.genre) ==> RemisesLisibles(f.remises)
  }

  predicate Lisibles(fs: seq<FacturePourRapport>) {
    forall i :: 0 <= i < |fs| ==> Lisible(fs[i])
  }

  /** How many payments by this means the confirmed sales, or credit notes, of the report hold. */
  function Vus(avoir: bool, p: Moyen): FacturePourRapport -> int {
    (f: FacturePourRapport) => if f.statut == Confirmed && EstAvoir(f.genre) == avoir then Somme(f.paiements, UnPar(p)) else 0
  }

  function TauxDe(f: FacturePourRapport, t: TypeFacture, g: Groupe): Option<nat> {
    if f.statut == Confirmed && f.genre == t then PremierTaux(GroupesFacture(f), g) else None
  }

  /** The rate under which a group of this type was first met. */
  function PremierTauxDuType(fs: seq<FacturePourRapport>, t: TypeFacture, g: Groupe): Option<nat> {
    if fs == [] then None else OuTaux(PremierTauxDuType(fs[..|fs| - 1], t, g), TauxDe(fs[|fs| - 1], t, g))
  }

  ghost predicate Present(fs: seq<FacturePourRapport>, t: TypeFacture) {
    exists i :: 0 <= i < |fs| && fs[i].statut == Confirmed && fs[i].genre == t
  }

  /** What the loop knows after the invoices fs. */
  ghost predicate Exact(c: EnCours, fs: seq<FacturePourRapport>) {
    && BienRanges(c.parType)
    && (forall m :: DeBase(m) ==> Lu(c, m) == Somme(fs, Apport(m)))
    && (forall t :: t in c.parType <==> Present(fs, t))
    && (forall t, g :: TauxCumul(CumulDe(c.parType, t), g) == PremierTauxDuType(fs, t, g))
    && (forall p :: p in c.paiements.valeurs <==> Somme(fs, Vus(false, p)) > 0)
    && (forall p :: p in c.remboursements.valeurs <==> Somme(fs, Vus(true, p)) > 0)
  }

  /** What the next invoice changes. */
  ghost predicate Suivant(c: EnCours, f: FacturePourRapport, d: EnCours) {
    && BienRanges(d.parType)
    && (forall m :: DeBase(m) ==> Lu(d, m) == Lu(c, m) + Contribution(f, m))
    && d.parType.Keys == c.parType.Keys + (if f.statut == Confirmed then {f.genre} else {})
    && (forall t, g :: TauxCumul(CumulDe(d.parType, t), g) == OuTaux(TauxCumul(CumulDe(c.parType, t), g), TauxDe(f, t, g)))
    && (forall p :: p in d.paiements.valeurs <==> p in c.paiements.valeurs || Vus(false, p)(f) > 0)
    && (forall p :: p in d.remboursements.valeurs <==> p in c.remboursements.valeurs || Vus(true, p)(f) > 0)
  }

  method AjouterIncomplete(c: EnCours, f: FacturePourRapport) returns (d: EnCours)
    requires BienRanges(c.parType) && f.statut != Confirmed
    ensures Suivant(c, f, d)
  {
    hide Somme, PremierTaux;
    d := c;
    if f.statut == Failed {
      d := d.(enEchec := d.enEchec + 1);
    } else if f.statut == Provisional || f.statut == Pending {
      d := d.(provisoires := d.provisoires + 1);
    }
    forall t, g
      ensures TauxCumul(CumulDe(d.parType, t), g) == OuTaux(TauxCumul(CumulDe(c.parType, t), g), TauxDe(f, t, g))
    {
    }
  }

  method AjouterFacture(c: EnCours, f: FacturePourRapport) returns (r: Result<EnCours, ErreurDecimale>)
    requires BienRanges(c.parType)
    ensures r.Ok? <==> Lisible(f)
    ensures r.Ok? ==> Suivant(c, f, r.value)
  {
    hide Somme, PremierTaux, TauxCumul, GroupeCumul, ChampCumul, Suivant, TypesCumules, CaisseCumulee;
    if f.statut != Confirmed {
      var incomplete := AjouterIncomplete(c, f);
      return Ok(incomplete);
    }
    var d := c;
    var parType := CumulerType(d.parType, f);
    var avoir := EstAvoir(f.genre);
    d := d.(parType := parType);
    if !avoir {
      d := d.(ts := d.ts + TaxeFacture(f));
    }
    if avoir && f.reference == RRR {
      d := d.(rrr := d.rrr + Ou0(f.total));
    }
    var caisse := CumulerPaiements(if avoir then d.remboursements else d.paiements, f.paiements);
    d := if avoir then d.(remboursements := caisse) else d.(paiements := caisse);
    if !avoir {
      var reductions := CumulerReductions(f.remises);
      if reductions.Err? {
        return Err(reductions.error);
      }
      d := d.(lignes := d.lignes + |f.remises|, reductions := d.reductions + reductions.value);
    }
    ConfirmeeSuivante(c, f, d);
    return Ok(d);
  }

  lemma ConfirmeeSuivante(c: EnCours, f: FacturePourRapport, d: EnCours)
    requires f.statut == Confirmed && BienRanges(d.parType) && TypesCumules(c.parType, f, d.parType)
    requires d.provisoires == c.provisoires && d.enEchec == c.enEchec
    requires !EstAvoir(f.genre) ==>
               && CaisseCumulee(c.paiements, f.paiements, d.paiements) && d.remboursements == c.remboursements
               && d.lignes == c.lignes + |f.remises| && d.reductions == c.reductions + Somme(f.remises, ReductionDe())
               && d.ts == c.ts + TaxeFacture(f) && d.rrr == c.rrr
    requires EstAvoir(f.genre) ==>
               && CaisseCumulee(c.remboursements, f.paiements, d.remboursements) && d.paiements == c.paiements
               && d.lignes == c.lignes && d.reductions == c.reductions && d.ts == c.ts
               && d.rrr == c.rrr + if f.reference == RRR then Ou0(f.total) else 0
    ensures Suivant(c, f, d)
  {
    hide Somme, PremierTaux, TauxCumul, GroupeCumul, ChampCumul, BienRanges, ChampFacture;
  }

  lemma DebutExact()
    ensures Exact(DEBUT, [])
  {
  }

  lemma {:induction false} VusPositifs(fs: seq<FacturePourRapport>, avoir: bool, p: Moyen)
    ensures Somme(fs, Vus(avoir, p)) >= 0
    ensures forall f :: Vus(avoir, p)(f) >= 0
  {
    forall f
      ensures Vus(avoir, p)(f) >= 0
    {
      SommePositive(f.paiements, UnPar(p));
    }
    SommePositive(fs, Vus(avoir, p));
  }

  lemma SuivantExact(c: EnCours, fs: seq<FacturePourRapport>, i: nat, d: EnCours)
    requires i < |fs| && Exact(c, fs[..i]) && Suivant(c, fs[i], d)
    ensures Exact(d, fs[..i + 1])
  {
    hide Somme, Contribution, PremierTaux, Lu, TauxCumul;
    var f := fs[i];
    assert fs[..i + 1][..i] == fs[..i];
    forall m | DeBase(m)
      ensures Lu(d, m) == Somme(fs[..i + 1], Apport(m))
    {
      SommePrefixe(fs, i, Apport(m));
    }
    forall p
      ensures p in d.paiements.valeurs <==> Somme(fs[..i + 1], Vus(false, p)) > 0
      ensures p in d.remboursements.valeurs <==> Somme(fs[..i + 1], Vus(true, p)) > 0
    {
      SommePrefixe(fs, i, Vus(false, p));
      SommePrefixe(fs, i, Vus(true, p));
      VusPositifs(fs[..i], false, p);
      VusPositifs(fs[..i], true, p);
    }
    forall t
      ensures t in d.parType <==> Present(fs[..i + 1], t)
    {
      PresentEnsuite(fs, i, t);
    }
  }

  lemma PresentEnsuite(fs: seq<FacturePourRapport>, i: nat, t: TypeFacture)
    requires i < |fs|
    ensures Present(fs[..i + 1], t) <==> Present(fs[..i], t) || (fs[i].statut == Confirmed && fs[i].genre == t)
  {
    var a, b := fs[..i], fs[..i + 1];
    if Present(a, t) {
      var k :| 0 <= k < |a| && a[k].statut == Confirmed && a[k].genre == t;
      assert b[k] == a[k];
    }
    if fs[i].statut == Confirmed && fs[i].genre == t {
      assert b[i] == fs[i];
    }
  }

  // ------------------------------------------------------------------ the lists of the report

  predicate GroupesRanges(gs: seq<GroupeRapport>) {
    forall i, j :: 0 <= i < j < |gs| ==> Rang(gs[i].groupe) < Rang(gs[j].groupe)
  }

  ghost predicate GroupeListe(gs: seq<GroupeRapport>, g: Groupe, taux: nat) {
    exists i :: 0 <= i < |gs| && gs[i].groupe == g && gs[i].taux == taux
  }

  /** The groups of one type, in alphabetical order. */
  method ListerGroupesDuType(c: Cumul) returns (r: seq<GroupeRapport>)
    requires BienRange(c)
    ensures GroupesRanges(r)
    ensures forall g, ch :: Somme(r, LireGroupe(g, ch)) == GroupeCumul(c, g, ch)
    ensures forall g, taux: nat :: GroupeListe(r, g, taux) <==> TauxCumul(c, g) == Some(taux)
  {
    hide Somme;
    r := [];
    forall g, ch
      ensures Somme(r, LireGroupe(g, ch)) == 0
    {
      SommeVide(LireGroupe(g, ch));
    }
    for n := 0 to |GROUPES|
      invariant GroupesRanges(r) && forall i :: 0 <= i < |r| ==> Rang(r[i].groupe) < n
      invariant forall g, ch :: Somme(r, LireGroupe(g, ch)) == if Rang(g) < n then GroupeCumul(c, g, ch) else 0
      invariant forall g, taux: nat :: GroupeListe(r, g, taux) <==> Rang(g) < n && TauxCumul(c, g) == Some(taux)
    {
      RangDansLaListe(n);
      RangInjectif();
      var g := GROUPES[n];
      if g in c.groupes {
        GroupeAjoute(r, c.groupes[g]);
        r := r + [c.groupes[g]];
      }
    }
    forall g ensures Rang(g) < |GROUPES| { GroupesComplet(g); }
  }

  lemma RangInjectif()
    ensures forall g, h :: Rang(g) == Rang(h) ==> g == h
  {
  }

  lemma GroupeAjoute(r: seq<GroupeRapport>, x: GroupeRapport)
    ensures forall g, ch :: Somme(r + [x], LireGroupe(g, ch)) == Somme(r, LireGroupe(g, ch)) + if x.groupe == g then LireChampGroupe(x, ch) else 0
    ensures forall g, taux: nat :: GroupeListe(r + [x], g, taux) <==> GroupeListe(r, g, taux) || (x.groupe == g && x.taux == taux)
  {
    forall g, ch
      ensures Somme(r + [x], LireGroupe(g, ch)) == Somme(r, LireGroupe(g, ch)) + if x.groupe == g then LireChampGroupe(x, ch) else 0
    {
      SommeAjout(r, x, LireGroupe(g, ch));
    }
    forall g, taux: nat
      ensures GroupeListe(r + [x], g, taux) <==> GroupeListe(r, g, taux) || (x.groupe == g && x.taux == taux)
    {
      var s := r + [x];
      assert s[|r|] == x;
      if GroupeListe(r, g, taux) {
        var i :| 0 <= i < |r| && r[i].groupe == g && r[i].taux == taux;
        assert s[i] == r[i];
      }
    }
  }

  function RangType(t: TypeFacture): nat {
    match t case FV => 0 case FT => 1 case EV => 2 case ET => 3 case FA => 4 case EA => 5
  }

  predicate TypesRanges(ts: seq<TypeRapport>) {
    forall i, j :: 0 <= i < j < |ts| ==> RangType(ts[i].genre) < RangType(ts[j].genre)
  }

  ghost predicate TypeListe(ts: seq<TypeRapport>, t: TypeFacture) {
    exists i :: 0 <= i < |ts| && ts[i].genre == t
  }

  ghost predicate TauxListe(ts: seq<TypeRapport>, t: TypeFacture, g: Groupe, taux: nat) {
    exists i :: 0 <= i < |ts| && ts[i].genre == t && GroupeListe(ts[i].groupes, g, taux)
  }

  /** One field of all the types that are, or are not, credit notes. */
  function LireTypes(avoir: bool, c: Champ): TypeRapport -> int {
    (x: TypeRapport) => if EstAvoir(x.genre) == avoir then LireChamp(x, c) else 0
  }

  function CumulSi(m: ParType, avoir: bool, c: Champ): TypeFacture -> int {
    (t: TypeFacture) => if EstAvoir(t) == avoir then ChampCumul(CumulDe(m, t), c) else 0
  }

  /** ts lists the types of rank below n. */
  ghost predicate TypesJusque(ts: seq<TypeRapport>, m: ParType, n: nat) {
    && TypesRanges(ts) && (forall i :: 0 <= i < |ts| ==> RangType(ts[i].genre) < n && GroupesRanges(ts[i].groupes))
    && (forall t :: TypeListe(ts, t) <==> t in m && RangType(t) < n)
    && (forall t, g, taux: nat :: TauxListe(ts, t, g, taux) <==> RangType(t) < n && TauxCumul(CumulDe(m, t), g) == Some(taux))
  }

  /** Read in ts, the amounts of the types of rank below n are those of m. */
  ghost predicate SommesJusque(ts: seq<TypeRapport>, m: ParType, n: nat)
    requires n <= |ORDRE_TYPES|
  {
    && (forall t, c :: Somme(ts, LireType(t, c)) == if RangType(t) < n then ChampCumul(CumulDe(m, t), c) else 0)
    && (forall t, g, c :: Somme(ts, LireGroupeDuType(t, g, c)) == if RangType(t) < n then GroupeCumul(CumulDe(m, t), g, c) else 0)
    && (forall a, c :: Somme(ts, LireTypes(a, c)) == Somme(ORDRE_TYPES[..n], CumulSi(m, a, c)))
  }

  lemma AucunType(m: ParType)
    ensures TypesJusque([], m, 0) && SommesJusque([], m, 0)
  {
    assert ORDRE_TYPES[..0] == [];
  }

  ghost predicate TypeFidele(x: TypeRapport, c: Cumul) {
    && GroupesRanges(x.groupes)
    && x.nombre == c.nombre && x.total == c.total && x.base == c.base && x.tva == c.tva
    && (forall g, ch :: Somme(x.groupes, LireGroupe(g, ch)) == GroupeCumul(c, g, ch))
    && (forall g, taux: nat :: GroupeListe(x.groupes, g, taux) <==> TauxCumul(c, g) == Some(taux))
  }

  lemma TypeAjoute(ts: seq<TypeRapport>, m: ParType, n: nat, x: TypeRapport)
    requires n < |ORDRE_TYPES| && ORDRE_TYPES[n] in m && TypesJusque(ts, m, n)
    requires x.genre == ORDRE_TYPES[n] && TypeFidele(x, m[x.genre])
    ensures TypesJusque(ts + [x], m, n + 1)
  {
    hide Somme, GroupeListe, GroupeCumul, TauxCumul, GroupesRanges, TypeListe, TauxListe;
    var s := ts + [x];
    assert s[|ts|] == x && RangType(x.genre) == n;
    TypeAjouteListe(ts, x);
  }

  lemma TypeAjouteListe(ts: seq<TypeRapport>, x: TypeRapport)
    ensures forall t :: TypeListe(ts + [x], t) <==> TypeListe(ts, t) || x.genre == t
    ensures forall t, g, taux: nat :: TauxListe(ts + [x], t, g, taux) <==> TauxListe(ts, t, g, taux) || (x.genre == t && GroupeListe(x.groupes, g, taux))
  {
    hide GroupeListe;
    var s := ts + [x];
    assert s[|ts|] == x;
    forall t
      ensures TypeListe(s, t) <==> TypeListe(ts, t) || x.genre == t
    {
      if TypeListe(ts, t) {
        var i :| 0 <= i < |ts| && ts[i].genre == t;
        assert s[i] == ts[i];
      }
    }
    forall t, g, taux: nat
      ensures TauxListe(s, t, g, taux) <==> TauxListe(ts, t, g, taux) || (x.genre == t && GroupeListe(x.groupes, g, taux))
    {
      if TauxListe(ts, t, g, taux) {
        var i :| 0 <= i < |ts| && ts[i].genre == t && GroupeListe(ts[i].groupes, g, taux);
        assert s[i] == ts[i];
      }
    }
  }

  lemma TypeAjouteSommes(ts: seq<TypeRapport>, m: ParType, n: nat, x: TypeRapport)
    requires n < |ORDRE_TYPES| && ORDRE_TYPES[n] in m && SommesJusque(ts, m, n)
    requires x.genre == ORDRE_TYPES[n] && TypeFidele(x, m[x.genre])
    ensures SommesJusque(ts + [x], m, n + 1)
  {
    hide Somme, GroupeCumul, GroupeListe, TauxCumul, GroupesRanges;
    assert RangType(x.genre) == n;
    forall t, c ensures Somme(ts + [x], LireType(t, c)) == Somme(ts, LireType(t, c)) + if x.genre == t then LireChamp(x, c) else 0
    {
      SommeAjout(ts, x, LireType(t, c));
    }
    forall t, g, c
      ensures Somme(ts + [x], LireGroupeDuType(t, g, c)) ==
              Somme(ts, LireGroupeDuType(t, g, c)) + if x.genre == t then Somme(x.groupes, LireGroupe(g, c)) else 0
    {
      SommeAjout(ts, x, LireGroupeDuType(t, g, c));
    }
    forall a, c
      ensures Somme(ts + [x], LireTypes(a, c)) == Somme(ts, LireTypes(a, c)) + LireTypes(a, c)(x)
      ensures Somme(ORDRE_TYPES[..n + 1], CumulSi(m, a, c)) == Somme(ORDRE_TYPES[..n], CumulSi(m, a, c)) + CumulSi(m, a, c)(x.genre)
    {
      SommeAjout(ts, x, LireTypes(a, c));
      SommePrefixe(ORDRE_TYPES, n, CumulSi(m, a, c));
    }
  }

  /** A type without invoices is not listed. */
  lemma TypeSaute(ts: seq<TypeRapport>, m: ParType, n: nat)
    requires n < |ORDRE_TYPES| && ORDRE_TYPES[n] !in m && TypesJusque(ts, m, n) && SommesJusque(ts, m, n)
    ensures TypesJusque(ts, m, n + 1) && SommesJusque(ts, m, n + 1)
  {
    hide Somme, GroupesRanges;
    assert RangType(ORDRE_TYPES[n]) == n;
    forall a, c
      ensures Somme(ORDRE_TYPES[..n + 1], CumulSi(m, a, c)) == Somme(ORDRE_TYPES[..n], CumulSi(m, a, c))
    {
      SommePrefixe(ORDRE_TYPES, n, CumulSi(m, a, c));
    }
  }

  /** The types of the report, in the order of the table of types. */
  method ListerTypes(m: ParType) returns (r: seq<TypeRapport>)
    requires BienRanges(m)
    ensures TypesJusque(r, m, |ORDRE_TYPES|) && SommesJusque(r, m, |ORDRE_TYPES|)
  {
    hide TypesJusque, SommesJusque, Somme, GroupesRanges, GroupeListe, GroupeCumul, TauxCumul;
    r := [];
    AucunType(m);
    for n := 0 to |ORDRE_TYPES|
      invariant TypesJusque(r, m, n) && SommesJusque(r, m, n)
    {
      var t := ORDRE_TYPES[n];
      if t in m {
        var groupes := ListerGroupesDuType(m[t]);
        var x := TypeRapport(t, m[t].nombre, m[t].total, m[t].base, m[t].tva, groupes);
        TypeAjoute(r, m, n, x);
        TypeAjouteSommes(r, m, n, x);
        r := r + [x];
      } else {
        TypeSaute(r, m, n);
      }
    }
  }

  function Un<V>(): V -> int {
    (x: V) => 1
  }

  predicate Decroissant(es: seq<(Moyen, int)>) {
    forall i, j :: 0 <= i < j < |es| ==> es[i].1 >= es[j].1
  }

  function Inserer(es: seq<(Moyen, int)>, x: (Moyen, int)): (r: seq<(Moyen, int)>)
    requires Decroissant(es)
    ensures multiset(r) == multiset(es) + multiset{x} && Decroissant(r)
    ensures |r| == |es| + 1 && r[0] == if es == [] || es[0].1 < x.1 then x else es[0]
  {
    if es == [] then [x] else
    if es[0].1 < x.1 then [x] + es else
      assert es == [es[0]] + es[1..];
      [es[0]] + Inserer(es[1..], x)
  }

  /** The largest amount first. */
  function Trie(es: seq<(Moyen, int)>): (r: seq<(Moyen, int)>)
    ensures multiset(r) == multiset(es) && Decroissant(r)
  {
    if es == [] then [] else
      assert es == es[..|es| - 1] + [es[|es| - 1]];
      Inserer(Trie(es[..|es| - 1]), es[|es| - 1])
  }

  function Liste(d: Caisse): seq<(Moyen, int)> {
    Trie(Entrees(d))
  }

  /** Each means of payment that was met is listed once, with its amount. */
  lemma ListeFidele(d: Caisse, p: Moyen)
    ensures Somme(Liste(d), Seulement(p, Identite())) == EnCaisse(d, p)
    ensures Somme(Liste(d), Seulement(p, Un())) == if p in d.valeurs then 1 else 0
  {
    var es := Entrees(d);
    SommeUneCle(es, p, Identite());
    SommeUneCle(es, p, Un());
    SommePermutation(Liste(d), es, Seulement(p, Identite()));
    SommePermutation(Liste(d), es, Seulement(p, Un()));
    if p in d.valeurs {
      var i :| 0 <= i < |d.cles| && d.cles[i] == p;
      assert es[i].0 == p;
    }
  }

  // ------------------------------------------------------------------ cash deposits and withdrawals

  function UneDevise(d: string): Tiroir -> int {
    (e: Tiroir) => if e.devise == d then 1 else 0
  }

  function EnDevise(d: string): Mouvement -> int {
    (x: Mouvement) => if x.devise == d then 1 else 0
  }

  ghost predicate EspecesFideles(es: seq<Tiroir>, ms: seq<Mouvement>) {
    forall d ::
      && Somme(es, LireDepots(d)) == Somme(ms, ApportEspeces(Depots(d)))
      && Somme(es, LireRetraits(d)) == Somme(ms, ApportEspeces(Retraits(d)))
      && Somme(es, UneDevise(d)) == if Somme(ms, EnDevise(d)) > 0 then 1 else 0
  }

  /** Where the currency d stands in es, or |es|. */
  function Place(es: seq<Tiroir>, d: string): (i: nat)
    ensures i <= |es| && (i < |es| ==> es[i].devise == d) && forall k :: 0 <= k < i ==> es[k].devise != d
  {
    if es == [] then 0 else if es[0].devise == d then 0 else 1 + Place(es[1..], d)
  }

  /** The map of the source by currency: as a list of entries in insertion order, each currency once. */
  method CumulerEspeces(ms: seq<Mouvement>) returns (es: seq<Tiroir>)
    ensures EspecesFideles(es, ms)
  {
    hide Somme, EspecesFideles;
    es := [];
    AucunMouvement();
    assert ms[..0] == [];
    for i := 0 to |ms|
      invariant EspecesFideles(es, ms[..i])
      invariant forall j, k :: 0 <= j < k < |es| ==> es[j].devise != es[k].devise
    {
      var m := ms[i];
      var k := Place(es, m.devise);
      ghost var avant := es;
      if k == |es| {
        es := es + [Tiroir(m.devise, 0, 0)];
      }
      var e := es[k];
      e := if m.entree then e.(depots := e.depots + m.montant) else e.(retraits := e.retraits + m.montant);
      es := es[k := e];
      UnMouvement(avant, ms, i, es);
    }
    assert ms[..|ms|] == ms;
  }

  lemma AucunMouvement()
    ensures EspecesFideles([], [])
  {
  }

  lemma UnMouvement(es: seq<Tiroir>, ms: seq<Mouvement>, i: nat, fs: seq<Tiroir>)
    requires i < |ms| && EspecesFideles(es, ms[..i])
    requires var m, k := ms[i], Place(es, ms[i].devise);
             var base := if k == |es| then es + [Tiroir(m.devise, 0, 0)] else es;
             fs == base[k := if m.entree then base[k].(depots := base[k].depots + m.montant)
                                         else base[k].(retraits := base[k].retraits + m.montant)]
    ensures EspecesFideles(fs, ms[..i + 1])
  {
    hide Somme;
    var m, k := ms[i], Place(es, ms[i].devise);
    var base := if k == |es| then es + [Tiroir(m.devise, 0, 0)] else es;
    forall d
      ensures Somme(fs, LireDepots(d)) == Somme(ms[..i + 1], ApportEspeces(Depots(d)))
      ensures Somme(fs, LireRetraits(d)) == Somme(ms[..i + 1], ApportEspeces(Retraits(d)))
      ensures Somme(fs, UneDevise(d)) == if Somme(ms[..i + 1], EnDevise(d)) > 0 then 1 else 0
    {
      SommePrefixe(ms, i, ApportEspeces(Depots(d)));
      SommePrefixe(ms, i, ApportEspeces(Retraits(d)));
      SommePrefixe(ms, i, EnDevise(d));
      SommePositive(ms[..i], EnDevise(d));
      SommeUnChange(base, k, fs[k], LireDepots(d));
      SommeUnChange(base, k, fs[k], LireRetraits(d));
      SommeUnChange(base, k, fs[k], UneDevise(d));
      DeviseAbsente(es, d);
      if k == |es| {
        SommeAjout(es, Tiroir(m.devise, 0, 0), LireDepots(d));
        SommeAjout(es, Tiroir(m.devise, 0, 0), LireRetraits(d));
        SommeAjout(es, Tiroir(m.devise, 0, 0), UneDevise(d));
      }
    }
  }

  lemma {:induction false} DeviseAbsente(es: seq<Tiroir>, d: string)
    ensures Somme(es, UneDevise(d)) >= 0
    ensures Somme(es, UneDevise(d)) > 0 <==> Place(es, d) < |es|
  {
    SommePositive(es, UneDevise(d));
    if es != [] {
      var n := |es| - 1;
      DeviseAbsente(es[..n], d);
      assert Place(es, d) < |es| <==> Place(es[..n], d) < n || es[n].devise == d;
    }
  }

  // ------------------------------------------------------------------ the X and Z report

  /** Order, presence and rates: what the report shows besides amounts. */
  ghost predicate Presentation(r: ContenuXZ, fs: seq<FacturePourRapport>, ms: seq<Mouvement>) {
    && TypesRanges(r.parType) && (forall i :: 0 <= i < |r.parType| ==> GroupesRanges(r.parType[i].groupes))
    && (forall t :: TypeListe(r.parType, t) <==> Present(fs, t))
    && (forall t, g, taux: nat :: TauxListe(r.parType, t, g, taux) <==> PremierTauxDuType(fs, t, g) == Some(taux))
    && Decroissant(r.paiements) && Decroissant(r.remboursements)
    && (forall p :: Somme(r.paiements, Seulement(p, Un())) == if Somme(fs, Vus(false, p)) > 0 then 1 else 0)
    && (forall p :: Somme(r.remboursements, Seulement(p, Un())) == if Somme(fs, Vus(true, p)) > 0 then 1 else 0)
    && (forall d :: Somme(r.especes, UneDevise(d)) == if Somme(ms, EnDevise(d)) > 0 then 1 else 0)
  }

  /** Every amount read in the report is the sum of what the invoices and the cash movements bring to it. */
  ghost predicate Fidele(r: ContenuXZ, fs: seq<FacturePourRapport>, ms: seq<Mouvement>) {
    forall m :: Mesurable(m) ==> Lecture(r, m) == Attendu(fs, ms, m)
  }

  ghost predicate EstRapport(r: ContenuXZ, fs: seq<FacturePourRapport>, ms: seq<Mouvement>) {
    Fidele(r, fs, ms) && Presentation(r, fs, ms)
  }

  method SommeDesTypes(types: seq<TypeRapport>, avoir: bool) returns (e: Ensemble)
    ensures forall c :: c != Base ==> LireEnsemble(e, c) == Somme(types, LireTypes(avoir, c))
  {
    e := Ensemble(0, 0, 0);
    for i := 0 to |types|
      invariant forall c :: c != Base ==> LireEnsemble(e, c) == Somme(types[..i], LireTypes(avoir, c))
    {
      var t := types[i];
      assert types[..i + 1][..i] == types[..i];
      if EstAvoir(t.genre) == avoir {
        e := Ensemble(e.nombre + t.nombre, e.total + t.total, e.tva + t.tva);
      }
    }
    assert types[..|types|] == types;
  }

  lemma SommeSurLesTypes(f: TypeFacture -> int)
    ensures Somme(ORDRE_TYPES, f) == f(TypeFacture.FV) + f(TypeFacture.FT) + f(TypeFacture.EV) + f(TypeFacture.ET) + f(TypeFacture.FA) + f(TypeFacture.EA)
  {
    SommePrefixe(ORDRE_TYPES, 0, f);
    SommePrefixe(ORDRE_TYPES, 1, f);
    SommePrefixe(ORDRE_TYPES, 2, f);
    SommePrefixe(ORDRE_TYPES, 3, f);
    SommePrefixe(ORDRE_TYPES, 4, f);
    SommePrefixe(ORDRE_TYPES, 5, f);
    assert ORDRE_TYPES[..6] == ORDRE_TYPES;
  }

  lemma ContributionParType(f: FacturePourRapport, c: Champ)
    ensures Contribution(f, Ventes(c)) == Contribution(f, DuType(TypeFacture.FV, c)) + Contribution(f, DuType(TypeFacture.FT, c)) +
                                          Contribution(f, DuType(TypeFacture.EV, c)) + Contribution(f, DuType(TypeFacture.ET, c))
    ensures Contribution(f, Avoirs(c)) == Contribution(f, DuType(TypeFacture.FA, c)) + Contribution(f, DuType(TypeFacture.EA, c))
    ensures Contribution(f, Net(c)) == Contribution(f, Ventes(c)) - Contribution(f, Avoirs(c))
  {
    hide ChampFacture;
  }

  /** All sales, all credit notes and the net, from the six types. */
  lemma {:induction false} ParTypes(fs: seq<FacturePourRapport>, c: Champ)
    ensures Somme(fs, Apport(Ventes(c))) ==
            Somme(fs, Apport(DuType(TypeFacture.FV, c))) + Somme(fs, Apport(DuType(TypeFacture.FT, c))) +
            Somme(fs, Apport(DuType(TypeFacture.EV, c))) + Somme(fs, Apport(DuType(TypeFacture.ET, c)))
    ensures Somme(fs, Apport(Avoirs(c))) == Somme(fs, Apport(DuType(TypeFacture.FA, c))) + Somme(fs, Apport(DuType(TypeFacture.EA, c)))
    ensures Somme(fs, Apport(Net(c))) == Somme(fs, Apport(Ventes(c))) - Somme(fs, Apport(Avoirs(c)))
  {
    hide Contribution;
    if fs != [] {
      ParTypes(fs[..|fs| - 1], c);
      ContributionParType(fs[|fs| - 1], c);
    }
  }

  lemma {:induction false} IncompletesParStatut(fs: seq<FacturePourRapport>)
    ensures Somme(fs, Apport(Incompletes)) == Somme(fs, Apport(Provisoires)) + Somme(fs, Apport(EnEchec))
  {
    hide Contribution;
    if fs != [] {
      IncompletesParStatut(fs[..|fs| - 1]);
      UneIncomplete(fs[|fs| - 1]);
    }
  }

  lemma UneIncomplete(f: FacturePourRapport)
    ensures Contribution(f, Incompletes) == Contribution(f, Provisoires) + Contribution(f, EnEchec)
  {
  }

  /** Invoices bring nothing to the cash amounts, nor cash movements to the others. */
  lemma Separation(fs: seq<FacturePourRapport>, ms: seq<Mouvement>, m: Mesure)
    ensures m.Depots? || m.Retraits? ==> Somme(fs, Apport(m)) == 0
    ensures !m.Depots? && !m.Retraits? ==> Somme(ms, ApportEspeces(m)) == 0
  {
    if m.Depots? || m.Retraits? {
      SommeNulle(fs, Apport(m));
    } else {
      SommeNulle(ms, ApportEspeces(m));
    }
  }

  /** The sums over the listed types are those over the invoices. */
  lemma EnsembleFidele(c: EnCours, fs: seq<FacturePourRapport>, types: seq<TypeRapport>, avoir: bool, ch: Champ)
    requires Exact(c, fs) && SommesJusque(types, c.parType, |ORDRE_TYPES|)
    ensures Somme(types, LireTypes(avoir, ch)) == Somme(fs, Apport(if avoir then Avoirs(ch) else Ventes(ch)))
  {
    hide Somme, Contribution, CumulDe, ChampCumul, TauxCumul, GroupeCumul, LireChamp, PremierTauxDuType, Present;
    assert ORDRE_TYPES[..|ORDRE_TYPES|] == ORDRE_TYPES;
    SommeSurLesTypes(CumulSi(c.parType, avoir, ch));
    ParTypes(fs, ch);
    forall t: TypeFacture
      ensures ChampCumul(CumulDe(c.parType, t), ch) == Somme(fs, Apport(DuType(t, ch)))
    {
      assert Lu(c, DuType(t, ch)) == Somme(fs, Apport(DuType(t, ch)));
    }
  }

  /** What is put together at the end of contenuRapportXZ. */
  ghost predicate Assemble(r: ContenuXZ, c: EnCours) {
    && TypesJusque(r.parType, c.parType, |ORDRE_TYPES|) && SommesJusque(r.parType, c.parType, |ORDRE_TYPES|)
    && (forall ch :: ch != Base ==> LireEnsemble(r.ventes, ch) == Somme(r.parType, LireTypes(false, ch)))
    && (forall ch :: ch != Base ==> LireEnsemble(r.avoirs, ch) == Somme(r.parType, LireTypes(true, ch)))
    && r.netTotal == r.ventes.total - r.avoirs.total && r.netTva == r.ventes.tva - r.avoirs.tva
    && r.paiements == Liste(c.paiements) && r.remboursements == Liste(c.remboursements)
    && r.lignesReduites == c.lignes && r.montantReductions == c.reductions && r.remisesRrr == c.rrr
    && r.taxeSpecifique == c.ts && r.provisoires == c.provisoires && r.enEchec == c.enEchec
    && r.incompletes == c.provisoires + c.enEchec
  }

  lemma LectureFidele(r: ContenuXZ, c: EnCours, fs: seq<FacturePourRapport>, ms: seq<Mouvement>, m: Mesure)
    requires Assemble(r, c) && Exact(c, fs) && EspecesFideles(r.especes, ms) && Mesurable(m)
    ensures Lecture(r, m) == Attendu(fs, ms, m)
  {
    hide Somme, Contribution, CumulDe, ChampCumul, TauxCumul, GroupeCumul, LireChamp, PremierTauxDuType, Present, TypesJusque, EnCaisse, Liste;
    Separation(fs, ms, m);
    IncompletesParStatut(fs);
    match m
    case DuType(t, ch) => assert Lu(c, m) == Somme(fs, Apport(m));
    case DuGroupe(t, g, ch) => assert Lu(c, m) == Somme(fs, Apport(m));
    case Ventes(ch) => EnsembleFidele(c, fs, r.parType, false, ch);
    case Avoirs(ch) => EnsembleFidele(c, fs, r.parType, true, ch);
    case Net(ch) =>
      EnsembleFidele(c, fs, r.parType, false, ch);
      EnsembleFidele(c, fs, r.parType, true, ch);
      ParTypes(fs, ch);
    case Paye(p) => assert Lu(c, m) == Somme(fs, Apport(m)); ListeFidele(c.paiements, p);
    case Rembourse(p) => assert Lu(c, m) == Somme(fs, Apport(m)); ListeFidele(c.remboursements, p);
    case Incompletes =>
      assert Lu(c, Provisoires) == Somme(fs, Apport(Provisoires));
      assert Lu(c, EnEchec) == Somme(fs, Apport(EnEchec));
    case Depots(_) =>
    case Retraits(_) =>
    case _ => assert Lu(c, m) == Somme(fs, Apport(m));
  }

  lemma AssembleFidele(r: ContenuXZ, c: EnCours, fs: seq<FacturePourRapport>, ms: seq<Mouvement>)
    requires Assemble(r, c) && Exact(c, fs) && EspecesFideles(r.especes, ms)
    ensures Fidele(r, fs, ms)
  {
    hide Assemble, Exact, EspecesFideles, Lecture, Attendu;
    forall m | Mesurable(m)
      ensures Lecture(r, m) == Attendu(fs, ms, m)
    {
      LectureFidele(r, c, fs, ms, m);
    }
  }

  lemma AssemblePresente(r: ContenuXZ, c: EnCours, fs: seq<FacturePourRapport>, ms: seq<Mouvement>)
    requires Assemble(r, c) && Exact(c, fs) && EspecesFideles(r.especes, ms)
    ensures Presentation(r, fs, ms)
  {
    hide Somme, Lu, Apport, CumulDe, TauxCumul, PremierTauxDuType, Present, SommesJusque, TypesRanges, GroupesRanges, TauxListe, TypeListe,
         BienRanges, LireEnsemble, ApportEspeces;
    forall p
      ensures Somme(r.paiements, Seulement(p, Un())) == if Somme(fs, Vus(false, p)) > 0 then 1 else 0
      ensures Somme(r.remboursements, Seulement(p, Un())) == if Somme(fs, Vus(true, p)) > 0 then 1 else 0
    {
      ListeFidele(c.paiements, p);
      ListeFidele(c.remboursements, p);
    }
    TypesPresentes(r.parType, c, fs);
  }

  lemma TypesPresentes(ts: seq<TypeRapport>, c: EnCours, fs: seq<FacturePourRapport>)
    requires TypesJusque(ts, c.parType, |ORDRE_TYPES|) && Exact(c, fs)
    ensures TypesRanges(ts) && forall i :: 0 <= i < |ts| ==> GroupesRanges(ts[i].groupes)
    ensures forall t :: TypeListe(ts, t) <==> Present(fs, t)
    ensures forall t, g, taux: nat :: TauxListe(ts, t, g, taux) <==> PremierTauxDuType(fs, t, g) == Some(taux)
  {
    hide Somme, Lu, Apport, CumulDe, TauxCumul, PremierTauxDuType, Present, TypesRanges, GroupesRanges, TauxListe, TypeListe, BienRanges;
    forall t ensures RangType(t) < |ORDRE_TYPES| { }
  }

  /** contenuRapportXZ */
  method ContenuRapportXZ(factures: seq<FacturePourRapport>, mouvements: seq<Mouvement>) returns (r: Result<ContenuXZ, ErreurDecimale>)
    ensures r.Ok? <==> Lisibles(factures)
    ensures r.Ok? ==> EstRapport(r.value, factures, mouvements)
  {
    hide Exact, Suivant, Lisible, SommesJusque, TypesJusque, EspecesFideles, Fidele, Presentation, Liste, BienRange;
    var c := DEBUT;
    DebutExact();
    assert factures[..0] == [];
    for i := 0 to |factures|
      invariant BienRanges(c.parType) && Exact(c, factures[..i]) && Lisibles(factures[..i])
    {
      var suite := AjouterFacture(c, factures[i]);
      if suite.Err? {
        return Err(suite.error);
      }
      SuivantExact(c, factures, i, suite.value);
      SuivantRange(c, factures[i], suite.value);
      c := suite.value;
    }
    assert factures[..|factures|] == factures;
    var types := ListerTypes(c.parType);
    var ventes := SommeDesTypes(types, false);
    var avoirs := SommeDesTypes(types, true);
    var especes := CumulerEspeces(mouvements);
    var contenu := ContenuXZ(
      types, ventes, avoirs, ventes.total - avoirs.total, ventes.tva - avoirs.tva, Liste(c.paiements), Liste(c.remboursements),
      c.lignes, c.reductions, c.rrr, c.ts, c.provisoires + c.enEchec, c.provisoires, c.enEchec, especes);
    AssemblePresente(contenu, c, factures, mouvements);
    AssembleFidele(contenu, c, factures, mouvements);
    return Ok(contenu);
  }

  lemma SuivantRange(c: EnCours, f: FacturePourRapport, d: EnCours)
    requires Suivant(c, f, d)
    ensures BienRanges(d.parType)
  {
  }
}
