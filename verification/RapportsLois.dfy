/** Laws of the X and Z reports: they add up, do not depend on order, and balance. */
module RapportsLois {
  import opened Wrappers
  import opened Sommes
  import opened Dictionnaires
  import opened Groupes
  import opened Decimales
  import opened Calcul
  import CalculLois
  import opened Validation
  import opened Rapports

  /** Two reports side by side show what one report over both shows. */
  lemma RapportAdditif(r: ContenuXZ, a: seq<FacturePourRapport>, ma: seq<Mouvement>, s: ContenuXZ, b: seq<FacturePourRapport>,
                       mb: seq<Mouvement>, t: ContenuXZ, m: Mesure)
    requires EstRapport(r, a, ma) && EstRapport(s, b, mb) && EstRapport(t, a + b, ma + mb) && Mesurable(m)
    ensures Lecture(t, m) == Lecture(r, m) + Lecture(s, m)
  {
    hide Presentation, Lecture, Apport, ApportEspeces, Somme;
    SommeConcat(a, b, Apport(m));
    SommeConcat(ma, mb, ApportEspeces(m));
  }

  /** A report does not depend on the order in which the invoices and the movements are read. */
  lemma RapportSansOrdre(r: ContenuXZ, a: seq<FacturePourRapport>, ma: seq<Mouvement>, s: ContenuXZ, b: seq<FacturePourRapport>,
                         mb: seq<Mouvement>, m: Mesure)
    requires EstRapport(r, a, ma) && EstRapport(s, b, mb) && Mesurable(m)
    requires multiset(a) == multiset(b) && multiset(ma) == multiset(mb)
    ensures Lecture(r, m) == Lecture(s, m)
  {
    hide Presentation, Lecture, Apport, ApportEspeces, Somme;
    SommePermutation(a, b, Apport(m));
    SommePermutation(ma, mb, ApportEspeces(m));
  }

  // ------------------------------------------------------------------ base + VAT = total

  /** The row holds the totals that calculerTotaux gave. */
  ghost predicate Calculee(f: FacturePourRapport) {
    exists ps, mode, taux :: TotauxDe(f, ps, mode, taux)
  }

  ghost predicate TotauxDe(f: FacturePourRapport, ps: seq<Poste>, mode: ModePrix, taux: Taux) {
    var t := TotauxAttendus(ps, mode, taux);
    f.totaux == Some(t) && f.total == Some(t.total) && f.tva == Some(t.tva)
  }

  ghost predicate ToutesCalculees(fs: seq<FacturePourRapport>) {
    forall i :: 0 <= i < |fs| ==> Calculee(fs[i])
  }

  function ChampDe(c: Champ): TotalGroupe -> int {
    (g: TotalGroupe) => ChampGroupe(g, c)
  }

  lemma FactureEquilibree(f: FacturePourRapport)
    requires Calculee(f)
    ensures ChampFacture(f, Base) + ChampFacture(f, Tva) == ChampFacture(f, Total)
    ensures forall c :: c != Nombre ==> ChampFacture(f, c) == Somme(GroupesFacture(f), ChampDe(c))
    ensures forall i :: 0 <= i < |GroupesFacture(f)| ==> GroupesFacture(f)[i].base + GroupesFacture(f)[i].tva == GroupesFacture(f)[i].total
  {
    var ps, mode, taux :| TotauxDe(f, ps, mode, taux);
    CalculLois.BasePlusTva(ps, mode, taux);
    var gs := GroupesFacture(f);
    SommeMemes(gs, BaseDe(), gs, ChampDe(Base));
    SommeMemes(gs, TvaDe(), gs, ChampDe(Tva));
    SommeMemes(gs, TotalDe(), gs, ChampDe(Total));
  }

  function DuTypeParGroupe(fs: seq<FacturePourRapport>, t: TypeFacture, c: Champ): Groupe -> int {
    (g: Groupe) => Somme(fs, Apport(DuGroupe(t, g, c)))
  }

  function DansListe(xs: seq<TotalGroupe>, c: Champ): Groupe -> int {
    (g: Groupe) => Somme(xs, DansGroupe(g, c))
  }

  lemma EntreeDePlus(xs: seq<TotalGroupe>, c: Champ, g: Groupe)
    requires xs != []
    ensures var x := xs[|xs| - 1];
            DansListe(xs, c)(g) == DansListe(xs[..|xs| - 1], c)(g) + CalculLois.Indicatrice(x.groupe, ChampGroupe(x, c))(g)
  {
  }

  /** Each group entry is counted under one group. */
  lemma {:induction false} GroupesParNom(gs: seq<Groupe>, xs: seq<TotalGroupe>, c: Champ)
    requires ToutesUneFois(gs)
    ensures Somme(gs, DansListe(xs, c)) == Somme(xs, ChampDe(c))
  {
    hide DansListe;
    if xs == [] {
      forall g ensures DansListe(xs, c)(g) == 0 { SansEntree(c, g); }
      SommeNulle(gs, DansListe(xs, c));
    } else {
      var debut, x := xs[..|xs| - 1], xs[|xs| - 1];
      GroupesParNom(gs, debut, c);
      forall g
        ensures DansListe(xs, c)(g) == DansListe(debut, c)(g) + CalculLois.Indicatrice(x.groupe, ChampGroupe(x, c))(g)
      {
        EntreeDePlus(xs, c, g);
      }
      SommeAjoutee(gs, DansListe(debut, c), CalculLois.Indicatrice(x.groupe, ChampGroupe(x, c)), DansListe(xs, c));
      CalculLois.SommeIndicatrice(gs, x.groupe, ChampGroupe(x, c));
    }
  }

  lemma SansEntree(c: Champ, g: Groupe)
    ensures DansListe([], c)(g) == 0
  {
  }

  lemma UneSeuleFacture(f: FacturePourRapport, t: TypeFacture, c: Champ, g: Groupe)
    ensures DuTypeParGroupe([f], t, c)(g) == Contribution(f, DuGroupe(t, g, c))
  {
    hide Somme, Contribution;
    SommeAjout([], f, Apport(DuGroupe(t, g, c)));
    SommeVide(Apport(DuGroupe(t, g, c)));
    assert [] + [f] == [f];
  }

  lemma ParGroupe(gs: seq<Groupe>, f: FacturePourRapport, t: TypeFacture, c: Champ)
    requires ToutesUneFois(gs) && Calculee(f) && c != Nombre
    ensures Somme(gs, DuTypeParGroupe([f], t, c)) == Contribution(f, DuType(t, c))
  {
    hide Calculee, Somme, ChampFacture, DuTypeParGroupe, ToutesUneFois;
    forall g ensures DuTypeParGroupe([f], t, c)(g) == Contribution(f, DuGroupe(t, g, c)) { UneSeuleFacture(f, t, c, g); }
    if f.statut == Confirmed && f.genre == t {
      SommeEgale(gs, DuTypeParGroupe([f], t, c), DansListe(GroupesFacture(f), c));
      GroupesParNom(gs, GroupesFacture(f), c);
      FactureEquilibree(f);
    } else {
      SommeNulle(gs, DuTypeParGroupe([f], t, c));
    }
  }

  lemma {:induction false} TypeParGroupe(gs: seq<Groupe>, fs: seq<FacturePourRapport>, t: TypeFacture, c: Champ)
    requires ToutesUneFois(gs) && ToutesCalculees(fs) && c != Nombre
    ensures Somme(gs, DuTypeParGroupe(fs, t, c)) == Somme(fs, Apport(DuType(t, c)))
  {
    hide Contribution, Calculee;
    if fs == [] {
      SommeNulle(gs, DuTypeParGroupe(fs, t, c));
    } else {
      var debut, f := fs[..|fs| - 1], fs[|fs| - 1];
      TypeParGroupe(gs, debut, t, c);
      ParGroupe(gs, f, t, c);
      forall g
        ensures DuTypeParGroupe(fs, t, c)(g) == DuTypeParGroupe(debut, t, c)(g) + DuTypeParGroupe([f], t, c)(g)
      {
        SommeConcat(debut, [f], Apport(DuGroupe(t, g, c)));
        assert debut + [f] == fs;
      }
      SommeAjoutee(gs, DuTypeParGroupe(debut, t, c), DuTypeParGroupe([f], t, c), DuTypeParGroupe(fs, t, c));
    }
  }

  lemma {:induction false} TypeEquilibre(fs: seq<FacturePourRapport>, t: TypeFacture)
    requires ToutesCalculees(fs)
    ensures Somme(fs, Apport(DuType(t, Base))) + Somme(fs, Apport(DuType(t, Tva))) == Somme(fs, Apport(DuType(t, Total)))
  {
    hide ChampFacture, Calculee;
    if fs != [] {
      TypeEquilibre(fs[..|fs| - 1], t);
      FactureEquilibree(fs[|fs| - 1]);
    }
  }

  function LireParGroupe(r: ContenuXZ, t: TypeFacture, c: Champ): Groupe -> int {
    (g: Groupe) => Lecture(r, DuGroupe(t, g, c))
  }

  /**
   When the invoices hold the totals that calculerTotaux gave, then for each type the base and the VAT make up
   the total, and the groups make up the type.
   */
  lemma RapportEquilibre(r: ContenuXZ, fs: seq<FacturePourRapport>, ms: seq<Mouvement>, t: TypeFacture, c: Champ)
    requires EstRapport(r, fs, ms) && ToutesCalculees(fs) && c != Nombre
    ensures Lecture(r, DuType(t, Base)) + Lecture(r, DuType(t, Tva)) == Lecture(r, DuType(t, Total))
    ensures Somme(GROUPES, LireParGroupe(r, t, c)) == Lecture(r, DuType(t, c))
  {
    hide Presentation, Lecture, Apport, ToutesCalculees;
    TypeEquilibre(fs, t);
    GroupesUneFois();
    TypeParGroupe(GROUPES, fs, t, c);
    forall m: Mesure ensures !m.Depots? && !m.Retraits? ==> Somme(ms, ApportEspeces(m)) == 0 { Separation(fs, ms, m); }
    SommeEgale(GROUPES, LireParGroupe(r, t, c), DuTypeParGroupe(fs, t, c));
  }

  // ------------------------------------------------------------------ payments and sales

  function SurMoyens(h: Moyen -> int): int {
    h(Especes) + h(Virement) + h(CarteBancaire) + h(MobileMoney) + h(Cheques) + h(Credit) + h(Autre)
  }

  function EntreesPar(es: seq<(Moyen, int)>): Moyen -> int {
    (p: Moyen) => Somme(es, Seulement(p, Identite()))
  }

  function PaiementsPar(ps: seq<Paiement>): Moyen -> int {
    (p: Moyen) => Somme(ps, MontantPar(p))
  }

  function ContributionPar(f: FacturePourRapport): Moyen -> int {
    (p: Moyen) => Contribution(f, Paye(p))
  }

  function VentesPar(fs: seq<FacturePourRapport>): Moyen -> int {
    (p: Moyen) => Somme(fs, Apport(Paye(p)))
  }

  lemma {:induction false} EntreesParMoyen(es: seq<(Moyen, int)>)
    ensures SurMoyens(EntreesPar(es)) == Somme(es, SurValeur(Identite()))
  {
    if es != [] {
      var debut, e := es[..|es| - 1], es[|es| - 1];
      EntreesParMoyen(debut);
      assert es == debut + [e];
      SommeAjout(debut, e, SurValeur<Moyen, int>(Identite()));
      forall p
        ensures EntreesPar(es)(p) == EntreesPar(debut)(p) + if e.0 == p then e.1 else 0
      {
        SommeAjout(debut, e, Seulement(p, Identite()));
      }
    }
  }

  lemma {:induction false} PaiementsParMoyen(ps: seq<Paiement>)
    ensures SurMoyens(PaiementsPar(ps)) == Somme(ps, MontantPaye())
  {
    if ps != [] {
      PaiementsParMoyen(ps[..|ps| - 1]);
    }
  }

  /** A sale that passed the checks of validerFacture. */
  predicate VenteValidee(f: FacturePourRapport) {
    f.statut == Confirmed && !EstAvoir(f.genre) ==>
      f.total.Some? && f.total.value > 0 && PaiementsConformes(PaiementsEffectifs(f.paiements, f.total.value), f.total.value)
  }

  predicate VentesValidees(fs: seq<FacturePourRapport>) {
    forall i :: 0 <= i < |fs| ==> VenteValidee(fs[i])
  }

  /** A sale stored without any payment. */
  predicate SansPaiement(f: FacturePourRapport) {
    f.statut == Confirmed && !EstAvoir(f.genre) && f.paiements == []
  }

  function NonEncaisse(): FacturePourRapport -> int {
    (f: FacturePourRapport) => if SansPaiement(f) then Ou0(f.total) else 0
  }

  lemma FactureEncaissee(f: FacturePourRapport)
    requires VenteValidee(f)
    ensures SurMoyens(ContributionPar(f)) == Contribution(f, Ventes(Total)) - NonEncaisse()(f)
  {
    PaiementsParMoyen(f.paiements);
  }

  lemma {:induction false} VentesEncaissees(fs: seq<FacturePourRapport>)
    requires VentesValidees(fs)
    ensures SurMoyens(VentesPar(fs)) == Somme(fs, Apport(Ventes(Total))) - Somme(fs, NonEncaisse())
  {
    hide Contribution, VenteValidee;
    if fs != [] {
      VentesEncaissees(fs[..|fs| - 1]);
      FactureEncaissee(fs[|fs| - 1]);
    }
  }

  lemma {:induction false} NonEncaisseNul(fs: seq<FacturePourRapport>)
    requires VentesValidees(fs)
    ensures Somme(fs, NonEncaisse()) >= 0
    ensures Somme(fs, NonEncaisse()) == 0 <==> forall i :: 0 <= i < |fs| ==> !SansPaiement(fs[i])
  {
    if fs != [] {
      NonEncaisseNul(fs[..|fs| - 1]);
    }
  }

  /**
   The payments that the report lists make up the sales, less the sales stored without a payment: validerFacture
   counts such a sale as paid in cash, the report does not.
   */
  lemma EncaissementsEtVentes(r: ContenuXZ, fs: seq<FacturePourRapport>, ms: seq<Mouvement>)
    requires EstRapport(r, fs, ms) && VentesValidees(fs)
    ensures Somme(r.paiements, SurValeur(Identite())) == r.ventes.total - Somme(fs, NonEncaisse())
    ensures Somme(r.paiements, SurValeur(Identite())) == r.ventes.total <==> forall i :: 0 <= i < |fs| ==> !SansPaiement(fs[i])
  {
    hide Presentation, Apport, VentesValidees, SansPaiement, Somme;
    EntreesParMoyen(r.paiements);
    VentesEncaissees(fs);
    NonEncaisseNul(fs);
    forall p
      ensures Somme(r.paiements, Seulement(p, Identite())) == Somme(fs, Apport(Paye(p)))
    {
      Separation(fs, ms, Paye(p));
      assert Lecture(r, Paye(p)) == Attendu(fs, ms, Paye(p));
    }
    Separation(fs, ms, Ventes(Total));
    assert Lecture(r, Ventes(Total)) == Attendu(fs, ms, Ventes(Total));
  }

  // ------------------------------------------------------------------ reductions

  predicate VenteConfirmee(f: FacturePourRapport) {
    f.statut == Confirmed && f.genre != TypeFacture.FA && f.genre != TypeFacture.EA
  }

  /** What the customer saved on a line, in thousandths of a cent. */
  function Economie(): Remise -> int {
    (l: Remise) =>
      match QuantiteEnMilliemes(l.quantite)
      case Ok(q) => (l.prixOrigine - l.prixUnitaire) * q
      case Err(_) => 0
  }

  function EconomieDesVentes(): FacturePourRapport -> int {
    (f: FacturePourRapport) => if VenteConfirmee(f) then Somme(f.remises, Economie()) else 0
  }

  function LignesRemisees(): FacturePourRapport -> int {
    (f: FacturePourRapport) => if VenteConfirmee(f) then |f.remises| else 0
  }

  /** No line was sold above its original price. */
  predicate SansHausse(ls: seq<Remise>) {
    forall i :: 0 <= i < |ls| ==> ls[i].prixUnitaire <= ls[i].prixOrigine
  }

  predicate VentesSansHausse(fs: seq<FacturePourRapport>) {
    forall i :: 0 <= i < |fs| && VenteConfirmee(fs[i]) ==> SansHausse(fs[i].remises)
  }

  lemma UneReduction(l: Remise)
    requires l.prixUnitaire <= l.prixOrigine
    ensures -1000 <= 2000 * ReductionDe()(l) - 2 * Economie()(l) <= 1000
  {
    hide QuantiteEnMilliemes;
    match QuantiteEnMilliemes(l.quantite)
    case Ok(q) =>
      var d := (l.prixOrigine - l.prixUnitaire) * q;
      assert d >= 0;
    case Err(_) =>
  }

  lemma {:induction false} ReductionsDesLignes(ls: seq<Remise>)
    requires SansHausse(ls)
    ensures -1000 * |ls| <= 2000 * Somme(ls, ReductionDe()) - 2 * Somme(ls, Economie()) <= 1000 * |ls|
  {
    hide ReductionDe, Economie;
    if ls != [] {
      ReductionsDesLignes(ls[..|ls| - 1]);
      UneReduction(ls[|ls| - 1]);
    }
  }

  lemma {:induction false} ReductionsDesVentes(fs: seq<FacturePourRapport>)
    requires VentesSansHausse(fs)
    ensures var n := Somme(fs, LignesRemisees());
            -1000 * n <= 2000 * Somme(fs, Apport(MontantReductions)) - 2 * Somme(fs, EconomieDesVentes()) <= 1000 * n
    ensures Somme(fs, Apport(LignesReduites)) == Somme(fs, LignesRemisees())
  {
    hide ReductionDe, Economie;
    if fs != [] {
      var f := fs[|fs| - 1];
      ReductionsDesVentes(fs[..|fs| - 1]);
      if VenteConfirmee(f) {
        ReductionsDesLignes(f.remises);
      }
    }
  }

  /**
   The commercial reductions of a report are what the customers of its confirmed sales saved on the original prices, to
   half a cent for each reduced line.
   */
  lemma ReductionsDuRapport(r: ContenuXZ, fs: seq<FacturePourRapport>, ms: seq<Mouvement>)
    requires EstRapport(r, fs, ms) && VentesSansHausse(fs)
    ensures r.lignesReduites == Somme(fs, LignesRemisees())
    ensures -1000 * r.lignesReduites <= 2000 * r.montantReductions - 2 * Somme(fs, EconomieDesVentes()) <= 1000 * r.lignesReduites
  {
    hide Presentation, Apport, VentesSansHausse, Somme;
    ReductionsDesVentes(fs);
    Separation(fs, ms, MontantReductions);
    Separation(fs, ms, LignesReduites);
    assert Lecture(r, MontantReductions) == Attendu(fs, ms, MontantReductions);
    assert Lecture(r, LignesReduites) == Attendu(fs, ms, LignesReduites);
  }

  // ------------------------------------------------------------------ counts and totals, status by status

  function SiStatut(s: Statut): FacturePourRapport -> int {
    (f: FacturePourRapport) => if f.statut == s then 1 else 0
  }

  function SiVente(c: Champ): FacturePourRapport -> int {
    (f: FacturePourRapport) => if VenteConfirmee(f) then ChampFacture(f, c) else 0
  }

  function SiAvoir(c: Champ): FacturePourRapport -> int {
    (f: FacturePourRapport) => if f.statut == Confirmed && !VenteConfirmee(f) then ChampFacture(f, c) else 0
  }

  function SiRrr(): FacturePourRapport -> int {
    (f: FacturePourRapport) => if f.statut == Confirmed && !VenteConfirmee(f) && f.reference == "RRR" then Ou0(f.total) else 0
  }

  function SiTaxe(): FacturePourRapport -> int {
    (f: FacturePourRapport) => if VenteConfirmee(f) then TaxeFacture(f) else 0
  }

  lemma ApportsDUneFacture(f: FacturePourRapport)
    ensures Contribution(f, Provisoires) == SiStatut(Provisional)(f) + SiStatut(Pending)(f)
    ensures Contribution(f, EnEchec) == SiStatut(Failed)(f)
    ensures Contribution(f, RemisesRrr) == SiRrr()(f) && Contribution(f, TaxeSpecifique) == SiTaxe()(f)
  {
    hide TaxeFacture, Ou0;
  }

  lemma {:induction false} ApportsParStatut(fs: seq<FacturePourRapport>)
    ensures Somme(fs, Apport(Provisoires)) == Somme(fs, SiStatut(Provisional)) + Somme(fs, SiStatut(Pending))
    ensures Somme(fs, Apport(EnEchec)) == Somme(fs, SiStatut(Failed))
    ensures Somme(fs, Apport(RemisesRrr)) == Somme(fs, SiRrr()) && Somme(fs, Apport(TaxeSpecifique)) == Somme(fs, SiTaxe())
  {
    hide TaxeFacture, Ou0, Contribution, SiStatut, SiRrr, SiTaxe;
    if fs != [] {
      ApportsParStatut(fs[..|fs| - 1]);
      ApportsDUneFacture(fs[|fs| - 1]);
    }
  }

  lemma {:induction false} VentesEtAvoirs(fs: seq<FacturePourRapport>, c: Champ)
    ensures Somme(fs, Apport(Ventes(c))) == Somme(fs, SiVente(c)) && Somme(fs, Apport(Avoirs(c))) == Somme(fs, SiAvoir(c))
  {
    hide ChampFacture;
    if fs != [] {
      VentesEtAvoirs(fs[..|fs| - 1], c);
    }
  }

  /**
   Only confirmed invoices count in the amounts: sales are all but FA and EA, which are the credit notes; pending and
   provisional invoices are counted as provisional, failed ones as failed, abandoned ones nowhere.
   */
  lemma RapportParStatut(r: ContenuXZ, fs: seq<FacturePourRapport>, ms: seq<Mouvement>)
    requires EstRapport(r, fs, ms)
    ensures r.provisoires == Somme(fs, SiStatut(Provisional)) + Somme(fs, SiStatut(Pending)) && r.enEchec == Somme(fs, SiStatut(Failed))
    ensures r.incompletes == r.provisoires + r.enEchec
    ensures r.ventes == Ensemble(Somme(fs, SiVente(Nombre)), Somme(fs, SiVente(Total)), Somme(fs, SiVente(Tva)))
    ensures r.avoirs == Ensemble(Somme(fs, SiAvoir(Nombre)), Somme(fs, SiAvoir(Total)), Somme(fs, SiAvoir(Tva)))
    ensures r.netTotal == r.ventes.total - r.avoirs.total && r.netTva == r.ventes.tva - r.avoirs.tva
    ensures r.remisesRrr == Somme(fs, SiRrr()) && r.taxeSpecifique == Somme(fs, SiTaxe())
  {
    hide Presentation, Apport, Somme;
    ApportsParStatut(fs);
    IncompletesParStatut(fs);
    forall c ensures Somme(fs, Apport(Ventes(c))) == Somme(fs, SiVente(c)) && Somme(fs, Apport(Avoirs(c))) == Somme(fs, SiAvoir(c))
      ensures Somme(fs, Apport(Net(c))) == Somme(fs, Apport(Ventes(c))) - Somme(fs, Apport(Avoirs(c)))
    {
      VentesEtAvoirs(fs, c);
      ParTypes(fs, c);
    }
    forall m: Mesure ensures !m.Depots? && !m.Retraits? ==> Somme(ms, ApportEspeces(m)) == 0 { Separation(fs, ms, m); }
    LuCommeAttendu(r, fs, ms);
  }

  /** Payments by means of payment, of the confirmed sales or of the confirmed credit notes. */
  function SiPaye(avoir: bool, p: Moyen): FacturePourRapport -> int {
    (f: FacturePourRapport) => if f.statut == Confirmed && VenteConfirmee(f) != avoir then Somme(f.paiements, MontantPar(p)) else 0
  }

  /** Cash put into the drawer counts as positive, cash taken out as negative. */
  function Solde(devise: string): Mouvement -> int {
    (x: Mouvement) => if x.devise != devise then 0 else if x.entree then x.montant else -x.montant
  }

  function Manie(devise: string): Mouvement -> int {
    (x: Mouvement) => if x.devise == devise then x.montant else 0
  }

  lemma {:induction false} PaiementsParSens(fs: seq<FacturePourRapport>, p: Moyen)
    ensures Somme(fs, Apport(Paye(p))) == Somme(fs, SiPaye(false, p)) && Somme(fs, Apport(Rembourse(p))) == Somme(fs, SiPaye(true, p))
  {
    hide Contribution, SiPaye;
    if fs != [] {
      PaiementsParSens(fs[..|fs| - 1], p);
      PaiementsDUneFacture(fs[|fs| - 1], p);
    }
  }

  lemma PaiementsDUneFacture(f: FacturePourRapport, p: Moyen)
    ensures Contribution(f, Paye(p)) == SiPaye(false, p)(f) && Contribution(f, Rembourse(p)) == SiPaye(true, p)(f)
  {
  }

  lemma {:induction false} SoldeDuTiroir(ms: seq<Mouvement>, d: string)
    ensures Somme(ms, ApportEspeces(Depots(d))) - Somme(ms, ApportEspeces(Retraits(d))) == Somme(ms, Solde(d))
    ensures Somme(ms, ApportEspeces(Depots(d))) + Somme(ms, ApportEspeces(Retraits(d))) == Somme(ms, Manie(d))
  {
    if ms != [] {
      SoldeDuTiroir(ms[..|ms| - 1], d);
    }
  }

  /**
   Payments come from the confirmed sales and refunds from the confirmed credit notes, by means of payment; for each
   currency, deposits less withdrawals are the balance of its cash movements, and together they are all of them.
   */
  lemma CaisseDuRapport(r: ContenuXZ, fs: seq<FacturePourRapport>, ms: seq<Mouvement>, p: Moyen, d: string)
    requires EstRapport(r, fs, ms)
    ensures Somme(r.paiements, Seulement(p, Identite())) == Somme(fs, SiPaye(false, p))
    ensures Somme(r.remboursements, Seulement(p, Identite())) == Somme(fs, SiPaye(true, p))
    ensures Somme(r.especes, LireDepots(d)) - Somme(r.especes, LireRetraits(d)) == Somme(ms, Solde(d))
    ensures Somme(r.especes, LireDepots(d)) + Somme(r.especes, LireRetraits(d)) == Somme(ms, Manie(d))
  {
    hide Presentation, Apport, Somme;
    PaiementsParSens(fs, p);
    SoldeDuTiroir(ms, d);
    Separation(fs, ms, Paye(p));
    Separation(fs, ms, Rembourse(p));
    Separation(fs, ms, Depots(d));
    Separation(fs, ms, Retraits(d));
    assert Lecture(r, Paye(p)) == Attendu(fs, ms, Paye(p)) && Lecture(r, Rembourse(p)) == Attendu(fs, ms, Rembourse(p));
    assert Lecture(r, Depots(d)) == Attendu(fs, ms, Depots(d)) && Lecture(r, Retraits(d)) == Attendu(fs, ms, Retraits(d));
  }

  lemma LuCommeAttendu(r: ContenuXZ, fs: seq<FacturePourRapport>, ms: seq<Mouvement>)
    requires Fidele(r, fs, ms)
    ensures r.provisoires == Attendu(fs, ms, Provisoires) && r.enEchec == Attendu(fs, ms, EnEchec) && r.incompletes == Attendu(fs, ms, Incompletes)
    ensures r.ventes == Ensemble(Attendu(fs, ms, Ventes(Nombre)), Attendu(fs, ms, Ventes(Total)), Attendu(fs, ms, Ventes(Tva)))
    ensures r.avoirs == Ensemble(Attendu(fs, ms, Avoirs(Nombre)), Attendu(fs, ms, Avoirs(Total)), Attendu(fs, ms, Avoirs(Tva)))
    ensures r.netTotal == Attendu(fs, ms, Net(Total)) && r.netTva == Attendu(fs, ms, Net(Tva))
    ensures r.remisesRrr == Attendu(fs, ms, RemisesRrr) && r.taxeSpecifique == Attendu(fs, ms, TaxeSpecifique)
  {
    hide Attendu;
    assert Lecture(r, Provisoires) == Attendu(fs, ms, Provisoires) && Lecture(r, EnEchec) == Attendu(fs, ms, EnEchec);
    assert Lecture(r, Incompletes) == Attendu(fs, ms, Incompletes);
    assert Lecture(r, Ventes(Nombre)) == Attendu(fs, ms, Ventes(Nombre)) && Lecture(r, Ventes(Total)) == Attendu(fs, ms, Ventes(Total));
    assert Lecture(r, Ventes(Tva)) == Attendu(fs, ms, Ventes(Tva)) && Lecture(r, Avoirs(Tva)) == Attendu(fs, ms, Avoirs(Tva));
    assert Lecture(r, Avoirs(Nombre)) == Attendu(fs, ms, Avoirs(Nombre)) && Lecture(r, Avoirs(Total)) == Attendu(fs, ms, Avoirs(Total));
    assert Lecture(r, Net(Total)) == Attendu(fs, ms, Net(Total)) && Lecture(r, Net(Tva)) == Attendu(fs, ms, Net(Tva));
    assert Lecture(r, RemisesRrr) == Attendu(fs, ms, RemisesRrr) && Lecture(r, TaxeSpecifique) == Attendu(fs, ms, TaxeSpecifique);
  }
}
