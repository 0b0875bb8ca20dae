/** The contents of the A report (rapports.ts): one article by product, or code, or name, by price and by group. */
module RapportArticles {
  import opened Wrappers
  import opened Sommes
  import opened Dictionnaires
  import opened Groupes
  import opened Decimales

  datatype LigneA = LigneA(
    genre: TypeFacture, produit: Option<string>, code: Option<string>, nom: string, groupe: Groupe, prix: int,
    quantite: string, montant: int)

  datatype ArticleA = ArticleA(
    code: Option<string>, nom: string, groupe: Groupe, taux: nat, prix: int, vendu: string, retourne: string,
    montantVendu: int, montantRetourne: int, enStock: Option<int>)

  /**
   The source joins the three parts with bars: as neither a price nor a group holds one, two keys are equal
   exactly when their parts are.
   */
  datatype Cle = Cle(reference: string, prix: int, groupe: Groupe)

  function CleDe(l: LigneA): Cle {
    Cle(if l.produit.Some? then l.produit.value else if l.code.Some? then l.code.value else l.nom, l.prix, l.groupe)
  }

  /** An article while its lines are being added up. */
  datatype CumulA = CumulA(
    code: Option<string>, nom: string, groupe: Groupe, prix: int, produit: Option<string>,
    vendu: Milliemes, retourne: Milliemes, montantVendu: int, montantRetourne: int)

  // ------------------------------------------------------------------ what flows through the report

  datatype Flux = QuantiteVendue | QuantiteRetournee | MontantVendu | MontantRetourne

  /** In thousandths; 0 when the source would throw. */
  function Lue(quantite: string): (m: Milliemes) {
    match QuantiteEnMilliemes(quantite) case Ok(m) => m case Err(_) => 0
  }

  /** Sold on an invoice, returned on a credit note. */
  function ApportDe(l: LigneA, x: Flux): int {
    match x
    case QuantiteVendue => if EstAvoir(l.genre) then 0 else Lue(l.quantite)
    case QuantiteRetournee => if EstAvoir(l.genre) then Lue(l.quantite) else 0
    case MontantVendu => if EstAvoir(l.genre) then 0 else l.montant
    case MontantRetourne => if EstAvoir(l.genre) then l.montant else 0
  }

  function ApportLigne(x: Flux): LigneA -> int {
    (l: LigneA) => ApportDe(l, x)
  }

  function ApportSous(k: Cle, x: Flux): LigneA -> int {
    (l: LigneA) => if CleDe(l) == k then ApportDe(l, x) else 0
  }

  function FluxDe(c: CumulA, x: Flux): int {
    match x
    case QuantiteVendue => c.vendu
    case QuantiteRetournee => c.retourne
    case MontantVendu => c.montantVendu
    case MontantRetourne => c.montantRetourne
  }

  function FluxCumul(x: Flux): CumulA -> int {
    (c: CumulA) => FluxDe(c, x)
  }

  /** What a reader of the report finds: the printed quantities are read back. */
  function LireFlux(x: Flux): ArticleA -> int {
    (a: ArticleA) =>
      match x
      case QuantiteVendue => Lue(a.vendu)
      case QuantiteRetournee => Lue(a.retourne)
      case MontantVendu => a.montantVendu
      case MontantRetourne => a.montantRetourne
  }

  function PremiereLigne(ls: seq<LigneA>, k: Cle): (r: Option<LigneA>)
    ensures r.Some? ==> r.value in ls && CleDe(r.value) == k
    ensures r.None? ==> forall l :: l in ls ==> CleDe(l) != k
  {
    if ls == [] then None else
      var avant := PremiereLigne(ls[..|ls| - 1], k);
      if avant.Some? then avant else if CleDe(ls[|ls| - 1]) == k then Some(ls[|ls| - 1]) else None
  }

  // ------------------------------------------------------------------ the loop over the lines

  predicate Decrit(c: CumulA, l: LigneA) {
    c.code == l.code && c.nom == l.nom && c.groupe == l.groupe && c.prix == l.prix && c.produit == l.produit
  }

  type Articles = Dictionnaire<Cle, CumulA>

  function FluxSous(d: Articles, k: Cle, x: Flux): int {
    if k in d.valeurs then FluxDe(d.valeurs[k], x) else 0
  }

  ghost predicate ExactA(d: Articles, ls: seq<LigneA>) {
    && Valide(d)
    && (forall k :: k in d.valeurs <==> PremiereLigne(ls, k).Some?)
    && (forall k :: k in d.valeurs ==> Decrit(d.valeurs[k], PremiereLigne(ls, k).value))
    && (forall k, x :: FluxSous(d, k, x) == Somme(ls, ApportSous(k, x)))
    && (forall x :: Somme(Entrees(d), SurValeur(FluxCumul(x))) == Somme(ls, ApportLigne(x)))
  }

  function Nouveau(l: LigneA): CumulA {
    CumulA(l.code, l.nom, l.groupe, l.prix, l.produit, 0, 0, 0, 0)
  }

  function Ajoute(c: CumulA, l: LigneA, q: Milliemes): CumulA {
    if EstAvoir(l.genre) then c.(retourne := c.retourne + q, montantRetourne := c.montantRetourne + l.montant)
    else c.(vendu := c.vendu + q, montantVendu := c.montantVendu + l.montant)
  }

  lemma LigneAjoutee(d: Articles, ls: seq<LigneA>, i: nat, q: Milliemes, c: CumulA, e: Articles)
    requires i < |ls| && ExactA(d, ls[..i]) && QuantiteEnMilliemes(ls[i].quantite) == Ok(q)
    requires var k := CleDe(ls[i]);
             c == (if k in d.valeurs then d.valeurs[k] else Nouveau(ls[i])) && e == Mettre(d, k, Ajoute(c, ls[i], q))
    ensures ExactA(e, ls[..i + 1])
  {
    hide Somme, QuantiteEnMilliemes, CleDe, Mettre, Ajoute, FluxDe, ApportDe;
    var l, k := ls[i], CleDe(ls[i]);
    assert ls[..i + 1][..i] == ls[..i];
    AjouteFidele(c, l, q);
    NouveauVide(l);
    forall h, x
      ensures FluxSous(e, h, x) == Somme(ls[..i + 1], ApportSous(h, x))
    {
      SommePrefixe(ls, i, ApportSous(h, x));
    }
    forall x
      ensures Somme(Entrees(e), SurValeur(FluxCumul(x))) == Somme(ls[..i + 1], ApportLigne(x))
    {
      SommePrefixe(ls, i, ApportLigne(x));
      SommeMettre(d, k, Ajoute(c, l, q), FluxCumul(x));
    }
  }

  lemma AjouteFidele(c: CumulA, l: LigneA, q: Milliemes)
    requires QuantiteEnMilliemes(l.quantite) == Ok(q)
    ensures forall x :: FluxDe(Ajoute(c, l, q), x) == FluxDe(c, x) + ApportDe(l, x)
    ensures forall m :: Decrit(c, m) ==> Decrit(Ajoute(c, l, q), m)
  {
    hide QuantiteEnMilliemes;
  }

  lemma NouveauVide(l: LigneA)
    ensures Decrit(Nouveau(l), l) && forall x :: FluxDe(Nouveau(l), x) == 0
  {
  }

  predicate QuantitesLisibles(ls: seq<LigneA>) {
    forall i :: 0 <= i < |ls| ==> QuantiteEnMilliemes(ls[i].quantite).Ok?
  }

  method CumulerArticles(lignes: seq<LigneA>) returns (r: Result<Articles, ErreurDecimale>)
    ensures r.Ok? <==> QuantitesLisibles(lignes)
    ensures r.Ok? ==> ExactA(r.value, lignes)
  {
    hide ExactA, QuantiteEnMilliemes, Somme;
    var d: Articles := Vide();
    AucuneLigne();
    assert lignes[..0] == [];
    for i := 0 to |lignes|
      invariant Valide(d) && ExactA(d, lignes[..i]) && QuantitesLisibles(lignes[..i])
    {
      var l := lignes[i];
      var k := CleDe(l);
      var c := if k in d.valeurs then d.valeurs[k] else Nouveau(l);
      var q := QuantiteEnMilliemes(l.quantite);
      if q.Err? {
        return Err(q.error);
      }
      var e := Mettre(d, k, Ajoute(c, l, q.value));
      LigneAjoutee(d, lignes, i, q.value, c, e);
      d := e;
    }
    assert lignes[..|lignes|] == lignes;
    return Ok(d);
  }

  lemma AucuneLigne()
    ensures ExactA(Vide(), [])
  {
  }

  // ------------------------------------------------------------------ the report

  function Stock(produit: Option<string>, stock: map<string, int>): Option<int> {
    if produit.Some? && produit.value != "" && produit.value in stock then Some(stock[produit.value]) else None
  }

  function Imprime(c: CumulA, stock: map<string, int>): ArticleA {
    ArticleA(c.code, c.nom, c.groupe, Taux2026(c.groupe), c.prix, EnTexte(c.vendu), EnTexte(c.retourne),
             c.montantVendu, c.montantRetourne, Stock(c.produit, stock))
  }

  /** Printing an article loses nothing. */
  lemma ImprimeFidele(c: CumulA, stock: map<string, int>, x: Flux)
    ensures LireFlux(x)(Imprime(c, stock)) == FluxDe(c, x)
  {
    QuantiteAllerRetour(c.vendu);
    QuantiteAllerRetour(c.retourne);
  }

  /** The article a shows the lines of key k: their amounts, and the description found on the first of them. */
  ghost predicate Resume(a: ArticleA, ls: seq<LigneA>, k: Cle, stock: map<string, int>) {
    && (forall x :: LireFlux(x)(a) == Somme(ls, ApportSous(k, x)))
    && var l := PremiereLigne(ls, k);
       && l.Some? && a.code == l.value.code && a.nom == l.value.nom && a.groupe == l.value.groupe && a.prix == l.value.prix
       && a.taux == Taux2026(a.groupe) && a.enStock == Stock(l.value.produit, stock)
  }

  /**
   contenuRapportA: one article by key, in the order of the first lines; read back from the printed report, the
   quantities and amounts of each article, and their totals, are those of the lines.
   */
  method ContenuRapportA(lignes: seq<LigneA>, stock: map<string, int>) returns (r: Result<seq<ArticleA>, ErreurDecimale>, ghost cles: seq<Cle>)
    ensures r.Ok? <==> QuantitesLisibles(lignes)
    ensures r.Ok? ==> forall x :: Somme(r.value, LireFlux(x)) == Somme(lignes, ApportLigne(x))
    ensures r.Ok? ==> |cles| == |r.value| && forall i :: 0 <= i < |cles| ==> Resume(r.value[i], lignes, cles[i], stock)
    ensures r.Ok? ==> forall i, j :: 0 <= i < j < |cles| ==> cles[i] != cles[j]
    ensures r.Ok? ==> forall l :: l in lignes ==> CleDe(l) in cles
  {
    hide QuantiteEnMilliemes, Somme, QuantitesLisibles, CleDe, Resume, LireFlux;
    var d := CumulerArticles(lignes);
    if d.Err? {
      return Err(d.error), [];
    }
    cles := d.value.cles;
    var es := Entrees(d.value);
    var articles := seq(|es|, i requires 0 <= i < |es| => Imprime(es[i].1, stock));
    forall x
      ensures Somme(articles, LireFlux(x)) == Somme(lignes, ApportLigne(x))
    {
      forall i | 0 <= i < |es|
        ensures SurValeur(FluxCumul(x))(es[i]) == LireFlux(x)(articles[i])
      {
        ImprimeFidele(es[i].1, stock, x);
      }
      SommeMemes(es, SurValeur(FluxCumul(x)), articles, LireFlux(x));
    }
    forall i | 0 <= i < |es|
      ensures Resume(articles[i], lignes, cles[i], stock)
    {
      ArticleResume(d.value, lignes, cles[i], stock);
    }
    return Ok(articles), cles;
  }

  lemma ArticleResume(d: Articles, ls: seq<LigneA>, k: Cle, stock: map<string, int>)
    requires ExactA(d, ls) && k in d.valeurs
    ensures Resume(Imprime(d.valeurs[k], stock), ls, k, stock)
  {
    hide Somme, LireFlux, CleDe, Stock;
    var c := d.valeurs[k];
    forall x
      ensures LireFlux(x)(Imprime(c, stock)) == Somme(ls, ApportSous(k, x))
    {
      ImprimeFidele(c, stock, x);
      assert FluxSous(d, k, x) == FluxDe(c, x);
    }
  }

  // ------------------------------------------------------------------ line by line

  predicate DAvoir(l: LigneA) {
    l.genre == TypeFacture.FA || l.genre == TypeFacture.EA
  }

  function Quantite(): LigneA -> int {
    (l: LigneA) => Lue(l.quantite)
  }

  function MontantLu(): LigneA -> int {
    (l: LigneA) => l.montant
  }

  function Si(avoir: bool, f: LigneA -> int): LigneA -> int {
    (l: LigneA) => if DAvoir(l) == avoir then f(l) else 0
  }

  /** What is returned is what credit notes (FA, EA) hold; everything else is sold. */
  lemma {:induction false} FluxParType(ls: seq<LigneA>)
    ensures Somme(ls, ApportLigne(QuantiteVendue)) == Somme(ls, Si(false, Quantite()))
    ensures Somme(ls, ApportLigne(QuantiteRetournee)) == Somme(ls, Si(true, Quantite()))
    ensures Somme(ls, ApportLigne(MontantVendu)) == Somme(ls, Si(false, MontantLu()))
    ensures Somme(ls, ApportLigne(MontantRetourne)) == Somme(ls, Si(true, MontantLu()))
  {
    hide Lue;
    if ls != [] {
      FluxParType(ls[..|ls| - 1]);
    }
  }

  /**
   The article of a line shows its price and its group, and never mixes two products: lines under one key have the same
   product, or the same code when they have no product, or the same name when they have neither.
   */
  lemma ArticleDUneLigne(a: ArticleA, ls: seq<LigneA>, l: LigneA, m: LigneA, stock: map<string, int>)
    requires l in ls && m in ls && CleDe(m) == CleDe(l) && Resume(a, ls, CleDe(l), stock)
    ensures a.prix == l.prix == m.prix && a.groupe == l.groupe == m.groupe
    ensures l.produit.Some? && m.produit.Some? ==> l.produit == m.produit
    ensures l.produit.None? && m.produit.None? && l.code.Some? && m.code.Some? ==> l.code == m.code
    ensures l.produit.None? && m.produit.None? && l.code.None? && m.code.None? ==> l.nom == m.nom
  {
    hide Somme, LireFlux;
  }
}
