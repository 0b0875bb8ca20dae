/** From a paid sale to the lines and payments of its invoice (sources.ts); prices include VAT. */
module Sources {
  import opened Wrappers
  import opened Sommes
  import opened Groupes
  import opened Decimales
  import opened Calcul
  import opened CalculLois
  import opened Devises
  import opened Validation

  datatype Monnaie = Cdf | Usd

  datatype Produit = Produit(groupe: Option<Groupe>, categorie: Option<string>, taxeSpecifique: nat)

  /** Quantities are numbers in the source; here whole thousandths. */
  datatype LigneVente = LigneVente(quantite: Milliemes, prixUnitaire: int, produit: Option<Produit>)

  datatype PaiementVente = PaiementVente(methode: string, montant: int)

  /** defaut is default_tax_group; without one, VAT payers get B and the others K. */
  datatype Profil = Profil(defaut: Option<Groupe>, assujetti: bool)

  datatype ErreurSource = TauxIndisponible | ConversionImpossible | CalculImpossible(e: ErreurCalcul) | PaiementsIncoherents

  function GroupeParDefaut(p: Profil): Groupe {
    match p.defaut
    case Some(g) => g
    case None => if p.assujetti then Groupe.B else Groupe.K
  }

  /** The product's own group, else that of its category, else the default of the company. */
  function GroupeDuProduit(p: Option<Produit>, parCategorie: map<string, Groupe>, profil: Profil): Groupe {
    if p.Some? && p.value.groupe.Some? then p.value.groupe.value
    else if p.Some? && p.value.categorie.Some? && p.value.categorie.value != "" && p.value.categorie.value in parCategorie then
      parCategorie[p.value.categorie.value]
    else GroupeParDefaut(profil)
  }

  function MoyenDe(methode: string): Moyen {
    if methode == "cash" then Especes
    else if methode == "card" then CarteBancaire
    else if methode == "mobile_money" then MobileMoney
    else Autre
  }

  /** enCdf: francs are kept, dollars are converted; None when the source throws. */
  function EnCdf(m: Monnaie, taux: string, cents: int): Option<int> {
    if m == Cdf then Some(cents) else
      match UsdVersCdf(cents, taux)
      case Ok(c) => Some(c)
      case Err(_) => None
  }

  /** Specific taxes must come to whole cents, otherwise a later check of the source refuses the line. */
  function ArticleDe(l: LigneVente, m: Monnaie, taux: string, parCategorie: map<string, Groupe>, profil: Profil): Option<Ligne> {
    var brute := if l.produit.Some? then l.produit.value.taxeSpecifique * l.quantite else 0;
    var prix := EnCdf(m, taux, l.prixUnitaire);
    var taxe := if brute % 1000 == 0 then EnCdf(m, taux, brute / 1000) else None;
    if prix == None || taxe == None then None
    else Some(Ligne(prix.value, EnTexte(l.quantite), GroupeDuProduit(l.produit, parCategorie, profil), taxe.value))
  }

  function Articles(ls: seq<LigneVente>, m: Monnaie, taux: string, parCategorie: map<string, Groupe>, profil: Profil):
    (r: Option<seq<Ligne>>)
    ensures r.Some? ==> |r.value| == |ls|
    ensures r.Some? ==> forall i :: 0 <= i < |ls| ==> ArticleDe(ls[i], m, taux, parCategorie, profil) == Some(r.value[i])
  {
    if ls == [] then Some([]) else
      var debut := Articles(ls[..|ls| - 1], m, taux, parCategorie, profil);
      var a := ArticleDe(ls[|ls| - 1], m, taux, parCategorie, profil);
      if debut == None || a == None then None else Some(debut.value + [a.value])
  }

  /** The payments that count; without any, one cash payment. */
  function Valides(ps: seq<PaiementVente>): (r: seq<PaiementVente>)
    ensures r != []
  {
    var positifs := Positifs(ps);
    if positifs == [] then [PaiementVente("cash", 0)] else positifs
  }

  function Positifs(ps: seq<PaiementVente>): (r: seq<PaiementVente>)
    ensures forall i :: 0 <= i < |r| ==> r[i].montant > 0 && r[i] in ps
  {
    if ps == [] then [] else
      Positifs(ps[..|ps| - 1]) + if ps[|ps| - 1].montant > 0 then [ps[|ps| - 1]] else []
  }

  /** Each payment but the last is the conversion of what was paid. */
  ghost predicate PaiementsConvertis(ps: seq<Paiement>, vs: seq<PaiementVente>, m: Monnaie, taux: string) {
    && |ps| == |vs|
    && (forall i :: 0 <= i < |vs| - 1 ==> EnCdf(m, taux, vs[i].montant) == Some(ps[i].montant))
    && (forall i :: 0 <= i < |vs| ==> ps[i].moyen == MoyenDe(vs[i].methode)
                                      && ps[i].enUsd == (m == Usd) && ps[i].taux == if m == Usd then Some(taux) else None)
  }

  /** Converts the payments; the amount of the last one is left at zero. */
  method ConvertirPaiements(vs: seq<PaiementVente>, m: Monnaie, taux: string) returns (r: Option<seq<Paiement>>)
    requires vs != []
    ensures r.Some? <==> forall i :: 0 <= i < |vs| - 1 ==> EnCdf(m, taux, vs[i].montant).Some?
    ensures r.Some? ==> PaiementsConvertis(r.value, vs, m, taux) && r.value[|vs| - 1].montant == 0
  {
    var ps: seq<Paiement> := [];
    for i := 0 to |vs|
      invariant |ps| == i
      invariant forall k :: 0 <= k < i ==> ps[k].moyen == MoyenDe(vs[k].methode)
                                           && ps[k].enUsd == (m == Usd) && ps[k].taux == if m == Usd then Some(taux) else None
      invariant forall k :: 0 <= k < i ==> if k == |vs| - 1 then ps[k].montant == 0
                                           else EnCdf(m, taux, vs[k].montant) == Some(ps[k].montant)
    {
      var montant := if i == |vs| - 1 then Some(0) else EnCdf(m, taux, vs[i].montant);
      if montant == None {
        return None;
      }
      ps := ps + [Paiement(MoyenDe(vs[i].methode), montant.value, m == Usd, if m == Usd then Some(taux) else None)];
    }
    return Some(ps);
  }

  predicate TousPositifs(ps: seq<Paiement>) {
    forall i :: 0 <= i < |ps| ==> ps[i].montant > 0
  }

  function TauxOu(tauxUsd: Option<string>): string {
    if tauxUsd.Some? then tauxUsd.value else ""
  }

  /**
   What a sale must give: the converted lines, valid and worth something, and one payment for each payment of
   the sale, the others converted and all of them strictly positive, that add up to the total of calculerTotaux.
   */
  ghost predicate FactureDe(articles: seq<Ligne>, paiements: seq<Paiement>, lignes: seq<LigneVente>, pv: seq<PaiementVente>,
                            m: Monnaie, taux: string, profil: Profil, parCategorie: map<string, Groupe>) {
    && (m == Usd ==> taux != "")
    && Articles(lignes, m, taux, parCategorie, profil) == Some(articles)
    && articles != [] && LignesValides(articles)
    && TotauxAttendus(Postes(articles), Ttc, Taux2026).total > 0
    && PaiementsConvertis(paiements, Valides(pv), m, taux)
    && PaiementsConformes(paiements, TotauxAttendus(Postes(articles), Ttc, Taux2026).total)
  }

  /** The reason given for a refusal: the first step that fails. */
  ghost predicate ErreurJuste(e: ErreurSource, lignes: seq<LigneVente>, pv: seq<PaiementVente>, m: Monnaie, taux: string, profil: Profil,
                              parCategorie: map<string, Groupe>) {
    var articles := Articles(lignes, m, taux, parCategorie, profil);
    var calculable := articles.Some? && articles.value != [] && LignesValides(articles.value)
                      && TotauxAttendus(Postes(articles.value), Ttc, Taux2026).total > 0;
    var payable := forall i :: 0 <= i < |Valides(pv)| - 1 ==> EnCdf(m, taux, Valides(pv)[i].montant).Some?;
    match e
    case TauxIndisponible => m == Usd && taux == ""
    case CalculImpossible(_) => articles.Some? && !calculable
    case ConversionImpossible => articles == None || (calculable && !payable)
    case PaiementsIncoherents => calculable && payable
  }

  /** The payments are determined by the sale: the last one is what is left. */
  lemma PaiementsDetermines(ps: seq<Paiement>, qs: seq<Paiement>, vs: seq<PaiementVente>, m: Monnaie, taux: string)
    requires vs != [] && PaiementsConvertis(ps, vs, m, taux) && PaiementsConvertis(qs, vs, m, taux)
    requires Somme(ps, MontantPaye()) == Somme(qs, MontantPaye())
    ensures ps == qs
  {
    var n := |vs| - 1;
    forall i | 0 <= i < n
      ensures ps[i] == qs[i]
    {
      assert EnCdf(m, taux, vs[i].montant) == Some(ps[i].montant);
    }
    assert ps[..n] == qs[..n];
  }

  /**
   articlesEtPaiements. It answers exactly when the sale can be billed, and what it answers has strictly
   positive payments that add up to the total of the articles: the last payment absorbs the conversion rounding.
   */
  method ArticlesEtPaiements(lignes: seq<LigneVente>, paiementsVente: seq<PaiementVente>, m: Monnaie, tauxUsd: Option<string>,
                             profil: Profil, parCategorie: map<string, Groupe>)
    returns (r: Result<(seq<Ligne>, seq<Paiement>), ErreurSource>)
    ensures r.Ok? ==> FactureDe(r.value.0, r.value.1, lignes, paiementsVente, m, TauxOu(tauxUsd), profil, parCategorie)
    ensures r.Err? ==> forall articles, ps ::
                         !FactureDe(articles, ps, lignes, paiementsVente, m, TauxOu(tauxUsd), profil, parCategorie)
    ensures r == Err(TauxIndisponible) <==> m == Usd && (tauxUsd == None || tauxUsd == Some(""))
    ensures r.Err? ==> ErreurJuste(r.error, lignes, paiementsVente, m, TauxOu(tauxUsd), profil, parCategorie)
  {
    if m == Usd && (tauxUsd == None || tauxUsd.value == "") {
      return Err(TauxIndisponible);
    }
    var taux := TauxOu(tauxUsd);
    var articles := Articles(lignes, m, taux, parCategorie, profil);
    if articles == None {
      return Err(ConversionImpossible);
    }
    var totaux := CalculerTotaux(articles.value, Ttc, Taux2026);
    if totaux.Err? {
      return Err(CalculImpossible(totaux.error));
    }
    var convertis := ConvertirPaiements(Valides(paiementsVente), m, taux);
    if convertis == None {
      return Err(ConversionImpossible);
    }
    var ps := SolderPaiements(convertis.value, Valides(paiementsVente), totaux.value.total, m, taux);
    if !TousPositifs(ps) {
      forall qs | PaiementsConvertis(qs, Valides(paiementsVente), m, taux) && Somme(qs, MontantPaye()) == totaux.value.total
        ensures !TousPositifs(qs)
      {
        PaiementsDetermines(ps, qs, Valides(paiementsVente), m, taux);
      }
      return Err(PaiementsIncoherents);
    }
    return Ok((articles.value, ps));
  }

  /** The last payment is overwritten with what the others leave of the total. */
  method SolderPaiements(convertis: seq<Paiement>, ghost vs: seq<PaiementVente>, total: nat, m: Monnaie, taux: string)
    returns (ps: seq<Paiement>)
    requires vs != [] && PaiementsConvertis(convertis, vs, m, taux)
    ensures PaiementsConvertis(ps, vs, m, taux) && Somme(ps, MontantPaye()) == total
  {
    var n := |convertis| - 1;
    var dejaCompte := Sommer(convertis[..n], MontantPaye());
    ps := convertis[n := convertis[n].(montant := total - dejaCompte)];
    assert ps[..n] == convertis[..n];
  }

  /** Hence the payment check made before sending always accepts an invoice that comes from a sale. */
  method VenteAcceptee(lignes: seq<LigneVente>, paiementsVente: seq<PaiementVente>, m: Monnaie, tauxUsd: Option<string>,
                       profil: Profil, parCategorie: map<string, Groupe>)
    returns (r: Result<(seq<Ligne>, seq<Paiement>), ErreurSource>, erreurs: seq<ErreurPaiement>)
    ensures r.Ok? ==> erreurs == []
  {
    r := ArticlesEtPaiements(lignes, paiementsVente, m, tauxUsd, profil, parCategorie);
    erreurs := [];
    if r.Ok? {
      var totaux := CalculerTotaux(r.value.0, Ttc, Taux2026);
      assert totaux.Ok? && r.value.1 != [];
      erreurs := VerifierPaiements(r.value.1, totaux.value.total);
    }
  }

  // ------------------------------------------------------------------ the rounding absorbed by the last payment

  function QuantiteEntiere(): LigneVente -> int {
    (l: LigneVente) => l.quantite / 1000
  }

  function PrixVente(): LigneVente -> int {
    (l: LigneVente) => l.quantite / 1000 * l.prixUnitaire
  }

  function PayeVente(): PaiementVente -> int {
    (p: PaiementVente) => p.montant
  }

  /** A dollar ticket with whole quantities and no specific tax. */
  predicate LigneSimple(l: LigneVente) {
    l.quantite % 1000 == 0 && (l.produit.Some? ==> l.produit.value.taxeSpecifique == 0)
  }

  predicate TicketSimple(ls: seq<LigneVente>) {
    forall i :: 0 <= i < |ls| ==> LigneSimple(ls[i])
  }

  /** v francs for x dollars at the rate r / 10000, give or take k half cents. */
  predicate ConvertiADemiPres(v: int, x: int, r: nat, k: nat) {
    ADemiPres(v, r, x, 10000, k)
  }

  lemma {:induction false} ConversionFois(q: nat, x: nat, r: nat)
    ensures ConvertiADemiPres(q * EnFrancs(x, r), q * x, r, q)
  {
    var v := EnFrancs(x, r);
    if q == 0 {
      assert 0 * v == 0 && 0 * x == 0 && r * 0 == 0;
    } else {
      ConversionFois(q - 1, x, r);
      assert x * r == r * x;
      ArrondiProche(x * r, 10000, v);
      DemisAdditionnes((q - 1) * v, (q - 1) * x, q - 1, v, x, r, 10000);
      assert (q - 1) * v + v == q * v && (q - 1) * x + x == q * x;
    }
  }

  lemma DemisSommes(v: int, x: int, k: nat, w: int, y: int, j: nat, r: nat)
    requires ConvertiADemiPres(v, x, r, k) && ConvertiADemiPres(w, y, r, j)
    ensures ConvertiADemiPres(v + w, x + y, r, k + j)
    ensures ConvertiADemiPres(v - w, x - y, r, k + j)
  {
    assert r * (x + y) == r * x + r * y;
    assert r * (x - y) == r * x - r * y;
  }

  lemma ProduitEntier(prix: nat, q: nat)
    ensures DivArrondi(prix * (1000 * q), 1000) == q * prix
  {
    assert prix * (1000 * q) == 1000 * (q * prix);
    ArrondiProche(1000 * (q * prix), 1000, q * prix);
  }

  /** The line amount of a whole quantity is exact. */
  lemma MontantEntier(prix: nat, m: Milliemes)
    requires m % 1000 == 0 && m > 0 && prix > 0
    ensures MontantLigne(prix, EnTexte(m)) == Ok(m / 1000 * prix)
  {
    QuantiteAllerRetour(m);
    assert m == 1000 * (m / 1000);
    ProduitEntier(prix, m / 1000);
  }

  lemma ZeroFranc(r: nat)
    ensures EnFrancs(0, r) == 0
  {
    assert 0 * r == 0;
    ArrondiProche(0, 10000, 0);
  }

  /** The article of a line of a simple dollar ticket. */
  lemma ArticleSimple(l: LigneVente, taux: string, parCategorie: map<string, Groupe>, profil: Profil)
    requires LigneSimple(l) && TauxEnDixMilliemes(taux).Ok?
    requires ArticleDe(l, Usd, taux, parCategorie, profil).Some?
    ensures var a, r := ArticleDe(l, Usd, taux, parCategorie, profil).value, TauxEnDixMilliemes(taux).value;
            l.prixUnitaire >= 0 && a.prixUnitaire == EnFrancs(l.prixUnitaire, r) && a.taxeSpecifique == 0
            && a.quantite == EnTexte(l.quantite)
  {
    var r := TauxEnDixMilliemes(taux).value;
    assert 0 * l.quantite == 0;
    ZeroFranc(r);
  }

  lemma MontantDUneLigne(a: Ligne, m: Milliemes)
    requires LigneValide(a) && a.quantite == EnTexte(m) && m % 1000 == 0
    ensures Montant(a) == m / 1000 * a.prixUnitaire
  {
    QuantiteAllerRetour(m);
    MontantEntier(a.prixUnitaire, m);
  }

  /** One line of a simple dollar ticket. */
  lemma PosteSimple(l: LigneVente, taux: string, parCategorie: map<string, Groupe>, profil: Profil)
    requires LigneSimple(l) && TauxEnDixMilliemes(taux).Ok?
    requires ArticleDe(l, Usd, taux, parCategorie, profil).Some?
    requires LigneValide(ArticleDe(l, Usd, taux, parCategorie, profil).value)
    ensures var p := PosteDe(ArticleDe(l, Usd, taux, parCategorie, profil).value);
            && p.specifique == 0 && l.prixUnitaire >= 0
            && p.montant == l.quantite / 1000 * EnFrancs(l.prixUnitaire, TauxEnDixMilliemes(taux).value)
  {
    ArticleSimple(l, taux, parCategorie, profil);
    MontantDUneLigne(ArticleDe(l, Usd, taux, parCategorie, profil).value, l.quantite);
  }

  /** The postes of a simple dollar ticket: whole quantities times converted prices. */
  ghost predicate PostesSimples(ls: seq<LigneVente>, ps: seq<Poste>, r: nat) {
    && |ps| == |ls|
    && forall i :: 0 <= i < |ls| ==> ps[i].specifique == 0 && ls[i].prixUnitaire >= 0
                                     && ps[i].montant == ls[i].quantite / 1000 * EnFrancs(ls[i].prixUnitaire, r)
  }

  lemma {:induction false} TotalADemiPres(ls: seq<LigneVente>, ps: seq<Poste>, r: nat)
    requires PostesSimples(ls, ps, r)
    ensures Somme(ps, SpecifiqueDe()) == 0
    ensures Somme(ls, QuantiteEntiere()) >= 0
    ensures ConvertiADemiPres(Somme(ps, MontantDe()), Somme(ls, PrixVente()), r, Somme(ls, QuantiteEntiere()))
  {
    if ls == [] {
      assert r * 0 == 0;
    } else {
      var n := |ls| - 1;
      var debut, fin := ls[..n], ps[..n];
      assert PostesSimples(debut, fin, r);
      TotalADemiPres(debut, fin, r);
      ConversionFois(ls[n].quantite / 1000, ls[n].prixUnitaire, r);
      DemisSommes(Somme(fin, MontantDe()), Somme(debut, PrixVente()), Somme(debut, QuantiteEntiere()),
                  ps[n].montant, PrixVente()(ls[n]), QuantiteEntiere()(ls[n]), r);
    }
  }

  /** Amounts ps in francs are the conversions of the amounts vs in dollars. */
  ghost predicate ConvertisAuTaux(ps: seq<Paiement>, vs: seq<PaiementVente>, r: nat) {
    && |ps| == |vs|
    && forall i :: 0 <= i < |vs| ==> vs[i].montant >= 0 && ps[i].montant == EnFrancs(vs[i].montant, r)
  }

  lemma {:induction false} PayesADemiPres(vs: seq<PaiementVente>, ps: seq<Paiement>, r: nat)
    requires ConvertisAuTaux(ps, vs, r)
    ensures ConvertiADemiPres(Somme(ps, MontantPaye()), Somme(vs, PayeVente()), r, |vs|)
  {
    if vs == [] {
      assert r * 0 == 0;
    } else {
      var n := |vs| - 1;
      PayesADemiPres(vs[..n], ps[..n], r);
      ConversionFois(1, vs[n].montant, r);
      assert 1 * EnFrancs(vs[n].montant, r) == ps[n].montant && 1 * vs[n].montant == vs[n].montant;
      DemisSommes(Somme(ps[..n], MontantPaye()), Somme(vs[..n], PayeVente()), n, ps[n].montant, vs[n].montant, 1, r);
    }
  }

  lemma TotalSansTaxe(ps: seq<Poste>)
    requires SansTaxeSpecifique(ps) && Somme(ps, SpecifiqueDe()) == 0
    ensures Somme(ps, MontantDe()) == TotauxAttendus(ps, Ttc, Taux2026).total
  {
    TotalTtc(ps, Taux2026);
    TvaSpecifiqueNulle(ps, GROUPES);
  }

  lemma {:induction false} TvaSpecifiqueNulle(ps: seq<Poste>, gs: seq<Groupe>)
    requires SansTaxeSpecifique(ps)
    ensures Somme(gs, TvaSpecifique(ps, Taux2026)) == 0
  {
    if gs != [] {
      var g := gs[|gs| - 1];
      TvaSpecifiqueNulle(ps, gs[..|gs| - 1]);
      SpecifiqueNul(ps, g);
      assert 0 * Taux2026(g) == 0;
      ArrondiProche(0, 100, 0);
    }
  }

  /**
   For a dollar ticket with whole quantities and no specific tax, paid exactly by n payments, the last
   payment differs from its exact conversion by at most (sum of the quantities + n - 1) / 2 cents.
   */
  lemma DernierPaiement(ls: seq<LigneVente>, pv: seq<PaiementVente>, articles: seq<Ligne>, ps: seq<Paiement>,
                        taux: string, parCategorie: map<string, Groupe>, profil: Profil)
    requires TicketSimple(ls) && TauxEnDixMilliemes(taux).Ok?
    requires FactureDe(articles, ps, ls, pv, Usd, taux, profil, parCategorie)
    requires Somme(Valides(pv), PayeVente()) == Somme(ls, PrixVente())
    ensures var vs := Valides(pv);
            var k := Somme(ls, QuantiteEntiere()) + |vs| - 1;
            k >= 0 && ConvertiADemiPres(ps[|vs| - 1].montant, vs[|vs| - 1].montant, TauxEnDixMilliemes(taux).value, k)
  {
    var r, vs, postes := TauxEnDixMilliemes(taux).value, Valides(pv), Postes(articles);
    PostesDuTicket(ls, articles, taux, parCategorie, profil);
    TotalADemiPres(ls, postes, r);
    TotalSansTaxe(postes);
    ConvertisDuTicket(ps, vs, taux);
    DernierEstLeReste(vs, ps, r, Somme(postes, MontantDe()), Somme(ls, PrixVente()), Somme(ls, QuantiteEntiere()));
  }

  lemma ConvertisDuTicket(ps: seq<Paiement>, vs: seq<PaiementVente>, taux: string)
    requires vs != [] && TauxEnDixMilliemes(taux).Ok? && PaiementsConvertis(ps, vs, Usd, taux)
    ensures ConvertisAuTaux(ps[..|vs| - 1], vs[..|vs| - 1], TauxEnDixMilliemes(taux).value)
  {
    forall i | 0 <= i < |vs| - 1
      ensures vs[i].montant >= 0 && ps[i].montant == EnFrancs(vs[i].montant, TauxEnDixMilliemes(taux).value)
    {
    }
  }

  lemma PostesDuTicket(ls: seq<LigneVente>, articles: seq<Ligne>, taux: string, parCategorie: map<string, Groupe>, profil: Profil)
    requires TicketSimple(ls) && TauxEnDixMilliemes(taux).Ok?
    requires Articles(ls, Usd, taux, parCategorie, profil) == Some(articles) && LignesValides(articles)
    ensures PostesSimples(ls, Postes(articles), TauxEnDixMilliemes(taux).value)
  {
    forall i | 0 <= i < |ls|
      ensures Postes(articles)[i].specifique == 0 && ls[i].prixUnitaire >= 0
      ensures Postes(articles)[i].montant == ls[i].quantite / 1000 * EnFrancs(ls[i].prixUnitaire, TauxEnDixMilliemes(taux).value)
    {
      PosteSimple(ls[i], taux, parCategorie, profil);
    }
  }

  /** What is left after the other payments carries the rounding of the total and of each of them. */
  lemma DernierEstLeReste(vs: seq<PaiementVente>, ps: seq<Paiement>, r: nat, total: int, du: int, k: nat)
    requires vs != [] && |ps| == |vs| && ConvertisAuTaux(ps[..|vs| - 1], vs[..|vs| - 1], r)
    requires Somme(ps, MontantPaye()) == total && Somme(vs, PayeVente()) == du
    requires ConvertiADemiPres(total, du, r, k)
    ensures ConvertiADemiPres(ps[|vs| - 1].montant, vs[|vs| - 1].montant, r, k + |vs| - 1)
  {
    var n := |vs| - 1;
    PayesADemiPres(vs[..n], ps[..n], r);
    DemisSommes(total, du, k, Somme(ps[..n], MontantPaye()), Somme(vs[..n], PayeVente()), n, r);
  }

  // ------------------------------------------------------------------ what a sale becomes

  /** x dollars cents at the rate r, in francs to the nearest cent; francs are kept. */
  predicate Converti(m: Monnaie, taux: string, x: int, y: int) {
    match m
    case Cdf => y == x
    case Usd => TauxEnDixMilliemes(taux).Ok? && -10000 < 2 * (10000 * y - x * TauxEnDixMilliemes(taux).value) <= 10000
  }

  lemma EnCdfConverti(m: Monnaie, taux: string, x: int)
    requires EnCdf(m, taux, x).Some?
    ensures Converti(m, taux, x, EnCdf(m, taux, x).value)
  {
    hide TauxEnDixMilliemes, DivArrondi;
    if m == Usd {
      var r := TauxEnDixMilliemes(taux).value;
      ArrondiProche(x * r, 10000, DivArrondi(x * r, 10000));
    }
  }

  /**
   The article of a line: its price and its specific tax are converted to the nearest cent, its quantity can be read
   back; its group is the product's own, else that of its category, else the default of the company, else B for a VAT
   payer and K for the others.
   */
  lemma ArticleFidele(ls: seq<LigneVente>, articles: seq<Ligne>, m: Monnaie, taux: string, parCategorie: map<string, Groupe>,
                      profil: Profil, i: nat)
    requires Articles(ls, m, taux, parCategorie, profil) == Some(articles) && i < |ls|
    ensures |articles| == |ls|
    ensures var l, a := ls[i], articles[i];
            && Converti(m, taux, l.prixUnitaire, a.prixUnitaire)
            && (l.quantite > 0 ==> QuantiteEnMilliemes(a.quantite) == Ok(l.quantite))
            && (exists taxe :: 1000 * taxe == (if l.produit.Some? then l.produit.value.taxeSpecifique * l.quantite else 0)
                               && Converti(m, taux, taxe, a.taxeSpecifique))
            && (l.produit.Some? && l.produit.value.groupe.Some? ==> a.groupe == l.produit.value.groupe.value)
            && (SansGroupe(l) && DansCategorie(l, parCategorie) ==> a.groupe == parCategorie[l.produit.value.categorie.value])
            && (SansGroupe(l) && !DansCategorie(l, parCategorie) && profil.defaut.Some? ==> a.groupe == profil.defaut.value)
            && (SansGroupe(l) && !DansCategorie(l, parCategorie) && profil == Profil(None, true) ==> a.groupe == Groupe.B)
            && (SansGroupe(l) && !DansCategorie(l, parCategorie) && profil == Profil(None, false) ==> a.groupe == Groupe.K)
  {
    hide TauxEnDixMilliemes, QuantiteEnMilliemes, EnTexte, EnCdf, Converti;
    var l, a := ls[i], articles[i];
    assert ArticleDe(l, m, taux, parCategorie, profil) == Some(a);
    var brute := if l.produit.Some? then l.produit.value.taxeSpecifique * l.quantite else 0;
    EnCdfConverti(m, taux, l.prixUnitaire);
    EnCdfConverti(m, taux, brute / 1000);
    QuantiteAllerRetour(l.quantite);
    assert 1000 * (brute / 1000) == brute;
  }

  predicate SansGroupe(l: LigneVente) {
    l.produit.Some? ==> l.produit.value.groupe == None
  }

  predicate DansCategorie(l: LigneVente, parCategorie: map<string, Groupe>) {
    l.produit.Some? && l.produit.value.categorie.Some? && l.produit.value.categorie.value != "" && l.produit.value.categorie.value in parCategorie
  }

  /** Cash stays cash, a card a bank card, mobile money mobile money; every other means is "other". */
  lemma MoyensFideles(ps: seq<Paiement>, vs: seq<PaiementVente>, m: Monnaie, taux: string, i: nat)
    requires PaiementsConvertis(ps, vs, m, taux) && i < |vs|
    ensures (ps[i].moyen == Especes <==> vs[i].methode == "cash") && (ps[i].moyen == CarteBancaire <==> vs[i].methode == "card")
    ensures ps[i].moyen == MobileMoney <==> vs[i].methode == "mobile_money"
    ensures vs[i].methode !in {"cash", "card", "mobile_money"} ==> ps[i].moyen == Autre
  {
  }

  /** The payments kept are those of a positive amount, each as often as it was made. */
  lemma {:induction false} PositifsGardes(ps: seq<PaiementVente>, p: PaiementVente)
    ensures multiset(Positifs(ps))[p] == if p.montant > 0 then multiset(ps)[p] else 0
  {
    if ps != [] {
      PositifsGardes(ps[..|ps| - 1], p);
      assert ps == ps[..|ps| - 1] + [ps[|ps| - 1]];
    }
  }

  /** A company that pays no VAT, without group of its own nor by product, bills no VAT. */
  lemma SansTvaHorsAssujettis(ls: seq<LigneVente>, articles: seq<Ligne>, m: Monnaie, taux: string, parCategorie: map<string, Groupe>)
    requires Articles(ls, m, taux, parCategorie, Profil(None, false)) == Some(articles) && LignesValides(articles)
    requires forall i :: 0 <= i < |ls| ==> SansGroupe(ls[i]) && !DansCategorie(ls[i], parCategorie)
    ensures TotauxAttendus(Postes(articles), Ttc, Taux2026).tva == 0
  {
    hide QuantiteEnMilliemes, DivArrondi, Somme, ArticleDe, GroupesDe;
    var ps := Postes(articles);
    forall i | 0 <= i < |ps| ensures ps[i].groupe == Groupe.K {
      ArticleFidele(ls, articles, m, taux, parCategorie, Profil(None, false), i);
    }
    var t := TotauxAttendus(ps, Ttc, Taux2026);
    forall i | 0 <= i < |t.groupes|
      ensures TvaDe()(t.groupes[i]) == 0
    {
      GroupeListe(ps, GROUPES, Ttc, Taux2026, i);
      assert t.groupes[i].groupe == Groupe.K;
      var montant, specifique := MontantGroupe(ps, Groupe.K), SpecifiqueGroupe(ps, Groupe.K);
      ArrondiProche(montant * 0, 100, 0);
      ArrondiProche(specifique * 0, 100, 0);
    }
    SommeNulle(t.groupes, TvaDe());
  }
}
