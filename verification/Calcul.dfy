/**
 The tax calculation of the normalised invoice (calcul.ts), in whole cents and thousandths: note de
 service 01/022, section 1.5.
 */
module Calcul {
  import opened Wrappers
  import opened Sommes
  import opened Groupes
  import opened Decimales

  datatype ModePrix = Ttc | Ht

  /** taxeSpecifique is for the whole quantity, 0 when the line has none. */
  datatype Ligne = Ligne(prixUnitaire: int, quantite: string, groupe: Groupe, taxeSpecifique: int)

  datatype TotalGroupe = TotalGroupe(groupe: Groupe, taux: nat, total: nat, base: nat, tva: nat)

  datatype TotauxFacture = TotauxFacture(
    groupes: seq<TotalGroupe>, montantsLignes: seq<nat>, taxeSpecifique: int, total: nat, tva: nat)

  datatype ErreurCalcul = SansArticle | PrixInvalide | QuantiteInvalide | TaxeInvalide | TotalNul

  // ------------------------------------------------------------------ rounding

  /** a / b to the nearest whole number, halves up. */
  function DivArrondi(a: nat, b: nat): nat
    requires b > 0
  {
    (2 * a + b) / (2 * b)
  }

  lemma Produit(x: int, y: int, z: int)
    requires x >= 0 && y <= z
    ensures x * y <= x * z
  {
  }

  /** The rounding error lies in (-1/2, 1/2], and no other whole number has that property. */
  lemma ArrondiProche(a: nat, b: nat, r: int)
    requires b > 0
    ensures -(b as int) < 2 * (b * r - a) <= b <==> r == DivArrondi(a, b)
  {
    var d := DivArrondi(a, b);
    assert 2 * (b * d) <= 2 * a + b < 2 * (b * d) + 2 * b by {
      assert 2 * b * d <= 2 * a + b < 2 * b * d + 2 * b;
      assert 2 * b * d == 2 * (b * d);
    }
    if r < d {
      Produit(b, r + 1, d);
      assert b * (r + 1) == b * r + b;
    } else if r > d {
      Produit(b, d + 1, r);
      assert b * (d + 1) == b * d + b;
    }
  }

  // ------------------------------------------------------------------ lines

  predicate LigneValide(l: Ligne) {
    l.prixUnitaire > 0 && QuantiteEnMilliemes(l.quantite).Ok? && l.taxeSpecifique >= 0
  }

  predicate LignesValides(ls: seq<Ligne>) {
    forall i :: 0 <= i < |ls| ==> LigneValide(ls[i])
  }

  /** montantLigne: unit price times quantity, to the nearest cent. */
  function MontantLigne(prix: int, quantite: string): Result<nat, ErreurCalcul> {
    if prix <= 0 then Err(PrixInvalide) else
      match QuantiteEnMilliemes(quantite)
      case Err(_) => Err(QuantiteInvalide)
      case Ok(q) => Ok(DivArrondi(prix * q, 1000))
  }

  /** The amount of a line, 0 when the source would throw. */
  function Montant(l: Ligne): nat {
    match MontantLigne(l.prixUnitaire, l.quantite)
    case Ok(m) => m
    case Err(_) => 0
  }

  /** What a valid line brings to the totals. */
  datatype Poste = Poste(groupe: Groupe, montant: nat, specifique: nat)

  function PosteDe(l: Ligne): Poste
    requires LigneValide(l)
  {
    Poste(l.groupe, Montant(l), l.taxeSpecifique)
  }

  function Postes(ls: seq<Ligne>): (ps: seq<Poste>)
    requires LignesValides(ls)
    ensures |ps| == |ls|
  {
    seq(|ls|, i requires 0 <= i < |ls| => PosteDe(ls[i]))
  }

  function MontantDans(g: Groupe): Poste -> int {
    (p: Poste) => if p.groupe == g then p.montant else 0
  }

  function SpecifiqueDans(g: Groupe): Poste -> int {
    (p: Poste) => if p.groupe == g then p.specifique else 0
  }

  function SpecifiqueDe(): Poste -> int {
    (p: Poste) => p.specifique
  }

  function MontantDe(): Poste -> int {
    (p: Poste) => p.montant
  }

  function MontantGroupe(ps: seq<Poste>, g: Groupe): nat {
    SommePositive(ps, MontantDans(g));
    Somme(ps, MontantDans(g))
  }

  function SpecifiqueGroupe(ps: seq<Poste>, g: Groupe): nat {
    SommePositive(ps, SpecifiqueDans(g));
    Somme(ps, SpecifiqueDans(g))
  }

  predicate GroupePresent(ps: seq<Poste>, g: Groupe) {
    exists i :: 0 <= i < |ps| && ps[i].groupe == g
  }

  // ------------------------------------------------------------------ groups

  /** Base, VAT and total of one group from its summed amounts (sections 1.5.6 to 1.5.10). */
  function CalculerGroupe(g: Groupe, montant: nat, specifique: nat, mode: ModePrix, t: nat): (r: TotalGroupe)
    ensures r.base + r.tva == r.total
  {
    if g == Groupe.N then
      TotalGroupe(g, 100, montant + specifique, 0, montant + specifique)
    else if mode == Ttc then
      var tvaLignes := DivArrondi(montant * t, 100 + t);
      TvaAuPlusMontant(montant, t);
      var base := montant - tvaLignes + specifique;
      var tva := tvaLignes + DivArrondi(specifique * t, 100);
      TotalGroupe(g, t, base + tva, base, tva)
    else
      var base := montant + specifique;
      var tva := DivArrondi(base * t, 100);
      TotalGroupe(g, t, base + tva, base, tva)
  }

  lemma TvaAuPlusMontant(montant: nat, t: nat)
    ensures DivArrondi(montant * t, 100 + t) <= montant
  {
    var v := DivArrondi(montant * t, 100 + t);
    ArrondiProche(montant * t, 100 + t, v);
    assert (100 + t) * (montant + 1) == 100 * montant + montant * t + 100 + t;
    if v > montant {
      Produit(100 + t, montant + 1, v);
    }
  }

  /** VAT rates in whole percent. */
  type Taux = Groupe -> nat

  function GroupeDe(ps: seq<Poste>, g: Groupe, mode: ModePrix, taux: Taux): TotalGroupe {
    CalculerGroupe(g, MontantGroupe(ps, g), SpecifiqueGroupe(ps, g), mode, taux(g))
  }

  /** The groups of gs present on the invoice, in the order of gs. */
  function GroupesDe(ps: seq<Poste>, gs: seq<Groupe>, mode: ModePrix, taux: Taux): seq<TotalGroupe> {
    if gs == [] then [] else
      var g := gs[|gs| - 1];
      GroupesDe(ps, gs[..|gs| - 1], mode, taux) + if GroupePresent(ps, g) then [GroupeDe(ps, g, mode, taux)] else []
  }

  function TotalDe(): TotalGroupe -> int {
    (g: TotalGroupe) => g.total
  }

  function BaseDe(): TotalGroupe -> int {
    (g: TotalGroupe) => g.base
  }

  function TvaDe(): TotalGroupe -> int {
    (g: TotalGroupe) => g.tva
  }

  /** The reference meaning of calculerTotaux on valid lines. */
  function TotauxAttendus(ps: seq<Poste>, mode: ModePrix, taux: Taux): TotauxFacture {
    var gs := GroupesDe(ps, GROUPES, mode, taux);
    SommePositive(gs, TotalDe());
    SommePositive(gs, TvaDe());
    TotauxFacture(gs, seq(|ps|, i requires 0 <= i < |ps| => ps[i].montant),
                  Somme(ps, SpecifiqueDe()), Somme(gs, TotalDe()), Somme(gs, TvaDe()))
  }

  /** Line amounts, in the order of the lines; fails on the first invalid price or quantity. */
  method MontantsDesLignes(lignes: seq<Ligne>) returns (r: Result<seq<nat>, ErreurCalcul>)
    ensures r.Ok? <==> forall i :: 0 <= i < |lignes| ==> MontantLigne(lignes[i].prixUnitaire, lignes[i].quantite).Ok?
    ensures r.Ok? ==> |r.value| == |lignes| && forall i :: 0 <= i < |lignes| ==> r.value[i] == Montant(lignes[i])
  {
    var montants: seq<nat> := [];
    for i := 0 to |lignes|
      invariant |montants| == i
      invariant forall k :: 0 <= k < i ==> MontantLigne(lignes[k].prixUnitaire, lignes[k].quantite) == Ok(montants[k])
    {
      match MontantLigne(lignes[i].prixUnitaire, lignes[i].quantite)
      case Err(e) => return Err(e);
      case Ok(m) => montants := montants + [m];
    }
    return Ok(montants);
  }

  /** The map holds exactly the groups present, with their summed amount and specific tax. */
  ghost predicate CumulExact(m: map<Groupe, (nat, nat)>, ps: seq<Poste>) {
    && (forall g :: g in m <==> GroupePresent(ps, g))
    && (forall g :: g in m ==> m[g] == (MontantGroupe(ps, g), SpecifiqueGroupe(ps, g)))
  }

  lemma {:induction false} GroupeAbsent(ps: seq<Poste>, g: Groupe)
    requires !GroupePresent(ps, g)
    ensures MontantGroupe(ps, g) == 0 == SpecifiqueGroupe(ps, g)
  {
    if ps != [] {
      assert !GroupePresent(ps[..|ps| - 1], g);
      GroupeAbsent(ps[..|ps| - 1], g);
    }
  }

  lemma GroupeAjout(ps: seq<Poste>, p: Poste, g: Groupe)
    ensures GroupePresent(ps + [p], g) <==> GroupePresent(ps, g) || p.groupe == g
    ensures MontantGroupe(ps + [p], g) == MontantGroupe(ps, g) + MontantDans(g)(p)
    ensures SpecifiqueGroupe(ps + [p], g) == SpecifiqueGroupe(ps, g) + SpecifiqueDans(g)(p)
  {
    SommeAjout(ps, p, MontantDans(g));
    SommeAjout(ps, p, SpecifiqueDans(g));
    assert (ps + [p])[|ps|] == p;
    assert forall i :: 0 <= i < |ps| ==> (ps + [p])[i] == ps[i];
  }

  lemma CumulAjout(m: map<Groupe, (nat, nat)>, ps: seq<Poste>, p: Poste, m': map<Groupe, (nat, nat)>)
    requires CumulExact(m, ps)
    requires var cumul := if p.groupe in m then m[p.groupe] else (0, 0);
             m' == m[p.groupe := (cumul.0 + p.montant, cumul.1 + p.specifique)]
    ensures CumulExact(m', ps + [p])
  {
    forall g: Groupe
      ensures g in m' <==> GroupePresent(ps + [p], g)
      ensures g in m' ==> m'[g] == (MontantGroupe(ps + [p], g), SpecifiqueGroupe(ps + [p], g))
    {
      GroupeAjout(ps, p, g);
      if g !in m {
        GroupeAbsent(ps, g);
      }
    }
  }

  /** Accumulates amounts and specific taxes per group; fails on the first negative specific tax. */
  method CumulerGroupes(lignes: seq<Ligne>, montants: seq<nat>)
    returns (r: Result<map<Groupe, (nat, nat)>, ErreurCalcul>, ghost ps: seq<Poste>)
    requires |montants| == |lignes|
    ensures r.Ok? <==> forall i :: 0 <= i < |lignes| ==> lignes[i].taxeSpecifique >= 0
    ensures r.Ok? ==> CumulExact(r.value, ps) && |ps| == |lignes|
    ensures r.Ok? ==> forall i :: 0 <= i < |lignes| ==>
                                    ps[i] == Poste(lignes[i].groupe, montants[i], lignes[i].taxeSpecifique)
  {
    var parGroupe: map<Groupe, (nat, nat)> := map[];
    ps := [];
    for i := 0 to |lignes|
      invariant |ps| == i
      invariant forall k :: 0 <= k < i ==> lignes[k].taxeSpecifique >= 0
                                           && ps[k] == Poste(lignes[k].groupe, montants[k], lignes[k].taxeSpecifique)
      invariant CumulExact(parGroupe, ps)
    {
      var l := lignes[i];
      if l.taxeSpecifique < 0 {
        return Err(TaxeInvalide), [];
      }
      var cumul := if l.groupe in parGroupe then parGroupe[l.groupe] else (0, 0);
      ghost var avant, p := parGroupe, Poste(l.groupe, montants[i], l.taxeSpecifique);
      parGroupe := parGroupe[l.groupe := (cumul.0 + montants[i], cumul.1 + l.taxeSpecifique)];
      CumulAjout(avant, ps, p, parGroupe);
      ps := ps + [p];
    }
    r := Ok(parGroupe);
  }

  /** The groups of the invoice, in the official order. */
  method ListerGroupes(ghost ps: seq<Poste>, parGroupe: map<Groupe, (nat, nat)>, mode: ModePrix, taux: Taux)
    returns (groupes: seq<TotalGroupe>)
    requires CumulExact(parGroupe, ps)
    ensures groupes == GroupesDe(ps, GROUPES, mode, taux)
  {
    groupes := [];
    for k := 0 to |GROUPES|
      invariant groupes == GroupesDe(ps, GROUPES[..k], mode, taux)
    {
      var g := GROUPES[k];
      assert GROUPES[..k + 1][..k] == GROUPES[..k];
      if g in parGroupe {
        groupes := groupes + [CalculerGroupe(g, parGroupe[g].0, parGroupe[g].1, mode, taux(g))];
      }
    }
    assert GROUPES[..|GROUPES|] == GROUPES;
  }

  method Sommer<T>(s: seq<T>, f: T -> int) returns (r: int)
    ensures r == Somme(s, f)
  {
    r := 0;
    for k := 0 to |s|
      invariant r == Somme(s[..k], f)
    {
      SommePrefixe(s, k, f);
      r := r + f(s[k]);
    }
    assert s[..|s|] == s;
  }

  /**
   calculerTotaux: amounts are accumulated per group in a map, then the groups are computed in the
   official order. It succeeds exactly on a non-empty invoice of valid lines with a positive total.
   */
  method CalculerTotaux(lignes: seq<Ligne>, mode: ModePrix, taux: Taux) returns (r: Result<TotauxFacture, ErreurCalcul>)
    ensures r.Ok? <==> lignes != [] && LignesValides(lignes) && TotauxAttendus(Postes(lignes), mode, taux).total > 0
    ensures r.Ok? ==> r.value == TotauxAttendus(Postes(lignes), mode, taux)
  {
    if |lignes| == 0 {
      return Err(SansArticle);
    }
    var montants := MontantsDesLignes(lignes);
    if montants.Err? {
      return Err(montants.error);
    }
    var parGroupe, ps := CumulerGroupes(lignes, montants.value);
    if parGroupe.Err? {
      return Err(parGroupe.error);
    }
    assert ps == Postes(lignes);
    var groupes := ListerGroupes(ps, parGroupe.value, mode, taux);
    var total := Sommer(groupes, TotalDe());
    var tva := Sommer(groupes, TvaDe());
    var specifique := SommerTaxes(lignes);
    SommePositive(groupes, TvaDe());
    if total <= 0 {
      return Err(TotalNul);
    }
    return Ok(TotauxFacture(groupes, montants.value, specifique, total, tva));
  }

  method SommerTaxes(lignes: seq<Ligne>) returns (r: int)
    requires LignesValides(lignes)
    ensures r == Somme(Postes(lignes), SpecifiqueDe())
  {
    r := 0;
    ghost var ps := Postes(lignes);
    for i := 0 to |lignes|
      invariant r == Somme(ps[..i], SpecifiqueDe())
    {
      SommePrefixe(ps, i, SpecifiqueDe());
      r := r + lignes[i].taxeSpecifique;
    }
    assert ps[..|ps|] == ps;
  }
}
