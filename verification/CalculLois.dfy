/** What the tax calculation promises over whole invoices. */
module CalculLois {
  import opened Wrappers
  import opened Sommes
  import opened Groupes
  import opened Decimales
  import opened Calcul

  // ------------------------------------------------------------------ conservation

  function MontantPar(ps: seq<Poste>): Groupe -> int {
    (g: Groupe) => MontantGroupe(ps, g)
  }

  function SpecifiquePar(ps: seq<Poste>): Groupe -> int {
    (g: Groupe) => SpecifiqueGroupe(ps, g)
  }

  /** The VAT that specific taxes bear in the "prices include VAT" mode (section 1.5.10). */
  function TvaSpecifique(ps: seq<Poste>, taux: Taux): Groupe -> int {
    (g: Groupe) => var s := SpecifiqueGroupe(ps, g);
                   if g == Groupe.N then 0 else DivArrondi(s * taux(g), 100)
  }

  function Indicatrice(h: Groupe, x: int): Groupe -> int {
    (g: Groupe) => if g == h then x else 0
  }

  lemma {:induction false} SommeIndicatrice(gs: seq<Groupe>, h: Groupe, x: int)
    ensures Somme(gs, Indicatrice(h, x)) == multiset(gs)[h] * x
  {
    if gs != [] {
      var debut, dernier := gs[..|gs| - 1], gs[|gs| - 1];
      assert gs == debut + [dernier];
      assert multiset(gs)[h] == multiset(debut)[h] + if dernier == h then 1 else 0;
      SommeIndicatrice(debut, h, x);
      UneFoisDePlus(multiset(debut)[h], x);
    }
  }

  lemma UneFoisDePlus(n: nat, x: int)
    ensures (n + 1) * x == n * x + x && (n + 0) * x == n * x
  {
  }

  /** Summing the group amounts over all the groups gives back the sum over the lines. */
  lemma {:induction false} GroupesEpuisentLesLignes(ps: seq<Poste>, gs: seq<Groupe>)
    requires ToutesUneFois(gs)
    ensures Somme(gs, MontantPar(ps)) == Somme(ps, MontantDe())
    ensures Somme(gs, SpecifiquePar(ps)) == Somme(ps, SpecifiqueDe())
  {
    if ps == [] {
      SommeEgale(gs, MontantPar(ps), Indicatrice(Groupe.A, 0));
      SommeEgale(gs, SpecifiquePar(ps), Indicatrice(Groupe.A, 0));
      SommeIndicatrice(gs, Groupe.A, 0);
    } else {
      var debut, l := ps[..|ps| - 1], ps[|ps| - 1];
      GroupesEpuisentLesLignes(debut, gs);
      UneLigneDePlus(ps, gs);
      SommeIndicatrice(gs, l.groupe, l.montant);
      SommeIndicatrice(gs, l.groupe, l.specifique);
      assert multiset(gs)[l.groupe] == 1;
    }
  }

  lemma UneLigneDePlus(ps: seq<Poste>, gs: seq<Groupe>)
    requires ps != []
    ensures var debut, l := ps[..|ps| - 1], ps[|ps| - 1];
            && Somme(gs, MontantPar(ps)) == Somme(gs, MontantPar(debut)) + Somme(gs, Indicatrice(l.groupe, l.montant))
            && Somme(gs, SpecifiquePar(ps))
            == Somme(gs, SpecifiquePar(debut)) + Somme(gs, Indicatrice(l.groupe, l.specifique))
  {
    var debut, l := ps[..|ps| - 1], ps[|ps| - 1];
    SommeAjoutee(gs, MontantPar(debut), Indicatrice(l.groupe, l.montant), MontantPar(ps));
    SommeAjoutee(gs, SpecifiquePar(debut), Indicatrice(l.groupe, l.specifique), SpecifiquePar(ps));
  }

  function TotalAttendu(ps: seq<Poste>, mode: ModePrix, taux: Taux): Groupe -> int
  {
    (g: Groupe) => GroupeDe(ps, g, mode, taux).total
  }

  lemma GroupeAbsentNul(ps: seq<Poste>, g: Groupe, mode: ModePrix, taux: Taux)
    requires !GroupePresent(ps, g)
    ensures GroupeDe(ps, g, mode, taux).total == 0 == GroupeDe(ps, g, mode, taux).tva
  {
    GroupeAbsent(ps, g);
    assert 0 * taux(g) == 0;
    ArrondiProche(0, 100 + taux(g), 0);
  }

  lemma GroupeEnPlus(ps: seq<Poste>, gs: seq<Groupe>, mode: ModePrix, taux: Taux, f: TotalGroupe -> int)
    requires gs != []
    requires f == TotalDe() || f == TvaDe()
    ensures var g, debut := gs[|gs| - 1], GroupesDe(ps, gs[..|gs| - 1], mode, taux);
            Somme(GroupesDe(ps, gs, mode, taux), f) == Somme(debut, f) + f(GroupeDe(ps, g, mode, taux))
  {
    var g, debut := gs[|gs| - 1], GroupesDe(ps, gs[..|gs| - 1], mode, taux);
    if GroupePresent(ps, g) {
      SommeAjout(debut, GroupeDe(ps, g, mode, taux), f);
    } else {
      assert GroupesDe(ps, gs, mode, taux) == debut + [] == debut;
      GroupeAbsentNul(ps, g, mode, taux);
    }
  }

  /** A group left out of the list counts for zero. */
  lemma {:induction false} SommeDesGroupes(ps: seq<Poste>, gs: seq<Groupe>, mode: ModePrix, taux: Taux)
    ensures Somme(GroupesDe(ps, gs, mode, taux), TotalDe()) == Somme(gs, TotalAttendu(ps, mode, taux))
  {
    hide CalculerGroupe, MontantGroupe, SpecifiqueGroupe, GroupePresent;
    if gs != [] {
      SommeDesGroupes(ps, gs[..|gs| - 1], mode, taux);
      GroupeEnPlus(ps, gs, mode, taux, TotalDe());
    }
  }

  lemma TotalTtcDuGroupe(ps: seq<Poste>, g: Groupe, taux: Taux)
    ensures GroupeDe(ps, g, Ttc, taux).total
         == MontantGroupe(ps, g) + SpecifiqueGroupe(ps, g) + TvaSpecifique(ps, taux)(g)
  {
  }

  lemma TotalTtcDesGroupes(ps: seq<Poste>, gs: seq<Groupe>, taux: Taux)
    requires ToutesUneFois(gs)
    ensures Somme(GroupesDe(ps, gs, Ttc, taux), TotalDe())
         == Somme(ps, MontantDe()) + Somme(ps, SpecifiqueDe()) + Somme(gs, TvaSpecifique(ps, taux))
  {
    SommeDesGroupes(ps, gs, Ttc, taux);
    GroupesEpuisentLesLignes(ps, gs);
    var deux := (g: Groupe) => MontantGroupe(ps, g) + SpecifiqueGroupe(ps, g);
    SommeAjoutee(gs, MontantPar(ps), SpecifiquePar(ps), deux);
    forall i | 0 <= i < |gs|
      ensures TotalAttendu(ps, Ttc, taux)(gs[i]) == deux(gs[i]) + TvaSpecifique(ps, taux)(gs[i])
    {
      TotalTtcDuGroupe(ps, gs[i], taux);
    }
    SommeAjoutee(gs, deux, TvaSpecifique(ps, taux), TotalAttendu(ps, Ttc, taux));
  }

  /**
   With prices including VAT, the customer pays the line amounts, the specific taxes and the rounded
   VAT on the specific taxes, and nothing else.
   */
  lemma TotalTtc(ps: seq<Poste>, taux: Taux)
    ensures TotauxAttendus(ps, Ttc, taux).total
         == Somme(ps, MontantDe()) + Somme(ps, SpecifiqueDe()) + Somme(GROUPES, TvaSpecifique(ps, taux))
  {
    GroupesUneFois();
    TotalTtcDesGroupes(ps, GROUPES, taux);
  }

  lemma {:induction false} GroupesEquilibres(ps: seq<Poste>, gs: seq<Groupe>, mode: ModePrix, taux: Taux)
    ensures forall i :: 0 <= i < |GroupesDe(ps, gs, mode, taux)| ==>
                          var g := GroupesDe(ps, gs, mode, taux)[i]; g.base + g.tva == g.total
  {
    if gs != [] {
      GroupesEquilibres(ps, gs[..|gs| - 1], mode, taux);
    }
  }

  /** Taxable amounts plus VAT make the total, for each group and for the invoice, in both price modes. */
  lemma BasePlusTva(ps: seq<Poste>, mode: ModePrix, taux: Taux)
    ensures var t := TotauxAttendus(ps, mode, taux);
            && (forall i :: 0 <= i < |t.groupes| ==> t.groupes[i].base + t.groupes[i].tva == t.groupes[i].total)
            && Somme(t.groupes, BaseDe()) + t.tva == t.total
  {
    GroupesEquilibres(ps, GROUPES, mode, taux);
    SommeAjoutee(GroupesDe(ps, GROUPES, mode, taux), BaseDe(), TvaDe(), TotalDe());
  }

  // ------------------------------------------------------------------ order

  lemma {:induction false} GroupesPermutes(a: seq<Poste>, b: seq<Poste>, gs: seq<Groupe>, mode: ModePrix, taux: Taux)
    requires multiset(a) == multiset(b)
    ensures GroupesDe(a, gs, mode, taux) == GroupesDe(b, gs, mode, taux)
  {
    if gs != [] {
      var g := gs[|gs| - 1];
      GroupesPermutes(a, b, gs[..|gs| - 1], mode, taux);
      SommePermutation(a, b, MontantDans(g));
      SommePermutation(a, b, SpecifiqueDans(g));
      PresencePermutee(a, b, g);
      PresencePermutee(b, a, g);
    }
  }

  lemma PresencePermutee(a: seq<Poste>, b: seq<Poste>, g: Groupe)
    requires multiset(a) == multiset(b)
    ensures GroupePresent(a, g) ==> GroupePresent(b, g)
  {
    if GroupePresent(a, g) {
      var i :| 0 <= i < |a| && a[i].groupe == g;
      assert a[i] in multiset(b);
    }
  }

  /** The order of the lines changes no amount of the invoice. */
  lemma OrdreIndifferent(a: seq<Poste>, b: seq<Poste>, mode: ModePrix, taux: Taux)
    requires multiset(a) == multiset(b)
    ensures var ta, tb := TotauxAttendus(a, mode, taux), TotauxAttendus(b, mode, taux);
            ta.groupes == tb.groupes && ta.total == tb.total && ta.tva == tb.tva && ta.taxeSpecifique == tb.taxeSpecifique
  {
    GroupesPermutes(a, b, GROUPES, mode, taux);
    SommePermutation(a, b, SpecifiqueDe());
  }

  // ------------------------------------------------------------------ splitting

  function Aplatir(parts: seq<seq<Poste>>): seq<Poste> {
    if parts == [] then [] else Aplatir(parts[..|parts| - 1]) + parts[|parts| - 1]
  }

  /** VAT of a group summed over separate invoices. */
  function TvaDesParts(parts: seq<seq<Poste>>, g: Groupe, mode: ModePrix, taux: Taux): nat
  {
    if parts == [] then 0
    else TvaDesParts(parts[..|parts| - 1], g, mode, taux) + GroupeDe(parts[|parts| - 1], g, mode, taux).tva
  }

  /** Without specific taxes, the VAT of a group is one rounded fraction num/den of its amount. */
  function Num(g: Groupe, t: nat): nat {
    if g == Groupe.N then 1 else t
  }

  function Den(g: Groupe, mode: ModePrix, t: nat): (r: nat)
    ensures r > 0
  {
    if g == Groupe.N then 1 else if mode == Ttc then 100 + t else 100
  }

  predicate SansTaxeSpecifique(ps: seq<Poste>) {
    forall i :: 0 <= i < |ps| ==> ps[i].specifique == 0
  }

  lemma {:induction false} SpecifiqueNul(ps: seq<Poste>, g: Groupe)
    requires SansTaxeSpecifique(ps)
    ensures SpecifiqueGroupe(ps, g) == 0
  {
    if ps != [] {
      SpecifiqueNul(ps[..|ps| - 1], g);
    }
  }

  lemma TvaEstUneFraction(ps: seq<Poste>, g: Groupe, mode: ModePrix, taux: Taux)
    requires SansTaxeSpecifique(ps)
    ensures GroupeDe(ps, g, mode, taux).tva == DivArrondi(MontantGroupe(ps, g) * Num(g, taux(g)), Den(g, mode, taux(g)))
  {
    SpecifiqueNul(ps, g);
    var m := MontantGroupe(ps, g);
    if g == Groupe.N {
      ArrondiProche(m * 1, 1, m);
    } else {
      assert 0 * taux(g) == 0;
      ArrondiProche(0, 100, 0);
    }
  }

  lemma {:induction false} PartsValides(parts: seq<seq<Poste>>)
    requires forall i :: 0 <= i < |parts| ==> SansTaxeSpecifique(parts[i])
    ensures SansTaxeSpecifique(Aplatir(parts))
  {
    if parts != [] {
      PartsValides(parts[..|parts| - 1]);
    }
  }

  /** |2 (d v - n m)| <= d k: v is n m / d, give or take k / 2. */
  predicate ADemiPres(v: int, n: nat, m: int, d: nat, k: nat) {
    -(d * k) <= 2 * (d * v - n * m) <= d * k
  }

  lemma DemisAdditionnes(v: int, m: int, k: nat, w: int, p: int, n: nat, d: nat)
    requires ADemiPres(v, n, m, d, k) && ADemiPres(w, n, p, d, 1)
    ensures ADemiPres(v + w, n, m + p, d, k + 1)
  {
    assert d * (v + w) == d * v + d * w;
    assert n * (m + p) == n * m + n * p;
    assert d * (k + 1) == d * k + d * 1;
  }

  lemma DemisCompares(s: int, k: nat, v: int, m: int, n: nat, d: nat)
    requires d > 0 && ADemiPres(s, n, m, d, k) && ADemiPres(v, n, m, d, 1)
    ensures -(k as int + 1) <= 2 * (s - v) <= k + 1
  {
    assert d * (2 * (s - v)) == 2 * (d * s - n * m) - 2 * (d * v - n * m);
    assert d * (k + 1) == d * k + d * 1;
    DiviserBornes(d, 2 * (s - v), k + 1);
  }

  lemma DiviserBornes(d: nat, x: int, k: nat)
    requires d > 0 && -(d * k) <= d * x <= d * k
    ensures -(k as int) <= x <= k
  {
    assert d * (k + 1) == d * k + d;
    assert d * (-(k as int) - 1) == -(d * k) - d;
    if x > k {
      Produit(d, k + 1, x);
    } else if x < -(k as int) {
      Produit(d, x, -(k as int) - 1);
    }
  }

  lemma TvaADemiPres(ps: seq<Poste>, g: Groupe, mode: ModePrix, taux: Taux)
    requires SansTaxeSpecifique(ps)
    ensures ADemiPres(GroupeDe(ps, g, mode, taux).tva, Num(g, taux(g)), MontantGroupe(ps, g), Den(g, mode, taux(g)), 1)
  {
    TvaEstUneFraction(ps, g, mode, taux);
    var m, n, d := MontantGroupe(ps, g), Num(g, taux(g)), Den(g, mode, taux(g));
    assert m * n == n * m;
    ArrondiProche(m * n, d, DivArrondi(m * n, d));
  }

  lemma UnePartDePlus(parts: seq<seq<Poste>>, g: Groupe, mode: ModePrix, taux: Taux)
    requires parts != []
    ensures var debut, p := parts[..|parts| - 1], parts[|parts| - 1];
            && TvaDesParts(parts, g, mode, taux) == TvaDesParts(debut, g, mode, taux) + GroupeDe(p, g, mode, taux).tva
            && MontantGroupe(Aplatir(parts), g) == MontantGroupe(Aplatir(debut), g) + MontantGroupe(p, g)
  {
    SommeConcat(Aplatir(parts[..|parts| - 1]), parts[|parts| - 1], MontantDans(g));
  }

  lemma {:induction false} EcartDesParts(parts: seq<seq<Poste>>, g: Groupe, mode: ModePrix, taux: Taux)
    requires forall i :: 0 <= i < |parts| ==> SansTaxeSpecifique(parts[i])
    ensures ADemiPres(TvaDesParts(parts, g, mode, taux), Num(g, taux(g)), MontantGroupe(Aplatir(parts), g),
                      Den(g, mode, taux(g)), |parts|)
  {
    var n, d := Num(g, taux(g)), Den(g, mode, taux(g));
    if parts == [] {
      assert n * 0 == 0 && d * 0 == 0;
    } else {
      var debut, p := parts[..|parts| - 1], parts[|parts| - 1];
      EcartDesParts(debut, g, mode, taux);
      TvaADemiPres(p, g, mode, taux);
      UnePartDePlus(parts, g, mode, taux);
      DemisAdditionnes(TvaDesParts(debut, g, mode, taux), MontantGroupe(Aplatir(debut), g), |debut|,
                       GroupeDe(p, g, mode, taux).tva, MontantGroupe(p, g), n, d);
    }
  }

  /** Splitting an invoice in k parts moves the VAT of a group by at most (k + 1) / 2 cents. */
  lemma FractionnementBorne(parts: seq<seq<Poste>>, g: Groupe, mode: ModePrix, taux: Taux)
    requires forall i :: 0 <= i < |parts| ==> SansTaxeSpecifique(parts[i])
    ensures var ecart := TvaDesParts(parts, g, mode, taux) - GroupeDe(Aplatir(parts), g, mode, taux).tva;
            -(|parts| as int + 1) <= 2 * ecart <= |parts| + 1
  {
    PartsValides(parts);
    EcartDesParts(parts, g, mode, taux);
    TvaADemiPres(Aplatir(parts), g, mode, taux);
    DemisCompares(TvaDesParts(parts, g, mode, taux), |parts|, GroupeDe(Aplatir(parts), g, mode, taux).tva,
                  MontantGroupe(Aplatir(parts), g), Num(g, taux(g)), Den(g, mode, taux(g)));
  }

  // ------------------------------------------------------------------ what bears VAT

  /** The same lines without their specific taxes. */
  function SansTaxes(ps: seq<Poste>): (r: seq<Poste>)
    ensures |r| == |ps| && SansTaxeSpecifique(r)
  {
    seq(|ps|, i requires 0 <= i < |ps| => ps[i].(specifique := 0))
  }

  lemma {:induction false} MontantsGardes(ps: seq<Poste>, g: Groupe)
    ensures MontantGroupe(SansTaxes(ps), g) == MontantGroupe(ps, g) && SpecifiqueGroupe(SansTaxes(ps), g) == 0
  {
    SommeMemes(SansTaxes(ps), MontantDans(g), ps, MontantDans(g));
    SpecifiqueNul(SansTaxes(ps), g);
  }

  /** From A to P, each group at most once, and among the first n. */
  predicate EnOrdre(rs: seq<TotalGroupe>, n: nat) {
    && (forall i :: 0 <= i < |rs| ==> Rang(rs[i].groupe) < n)
    && (forall i, j :: 0 <= i < j < |rs| ==> Rang(rs[i].groupe) < Rang(rs[j].groupe))
  }

  lemma UnDePlus(rs: seq<TotalGroupe>, n: nat, r: TotalGroupe)
    requires EnOrdre(rs, n) && Rang(r.groupe) == n
    ensures EnOrdre(rs, n + 1) && EnOrdre(rs + [r], n + 1)
  {
    hide Rang;
  }

  lemma {:induction false} GroupesDuDebut(ps: seq<Poste>, gs: seq<Groupe>, mode: ModePrix, taux: Taux)
    requires forall i :: 0 <= i < |gs| ==> Rang(gs[i]) == i
    ensures EnOrdre(GroupesDe(ps, gs, mode, taux), |gs|)
  {
    hide Rang, GroupeDe, GroupePresent;
    if gs != [] {
      var g := gs[|gs| - 1];
      GroupesDuDebut(ps, gs[..|gs| - 1], mode, taux);
      NomDuGroupe(ps, g, mode, taux);
      UnDePlus(GroupesDe(ps, gs[..|gs| - 1], mode, taux), |gs| - 1, GroupeDe(ps, g, mode, taux));
    }
  }

  lemma NomDuGroupe(ps: seq<Poste>, g: Groupe, mode: ModePrix, taux: Taux)
    ensures GroupeDe(ps, g, mode, taux).groupe == g
  {
    hide DivArrondi;
  }

  /** An invoice lists its groups from A to P, each of them once, and exactly those of its lines. */
  lemma GroupesEnOrdre(ps: seq<Poste>, mode: ModePrix, taux: Taux, g: Groupe)
    ensures var gs := TotauxAttendus(ps, mode, taux).groupes;
            && EnOrdre(gs, 16)
            && (Contient(gs, g) <==> exists k :: 0 <= k < |ps| && ps[k].groupe == g)
  {
    hide Rang, GroupeDe, GroupePresent, EnOrdre, Contient;
    forall i | 0 <= i < |GROUPES| ensures Rang(GROUPES[i]) == i { RangDansLaListe(i); }
    GroupesDuDebut(ps, GROUPES, mode, taux);
    GroupesComplet(g);
    GroupeEcrit(ps, GROUPES, mode, taux, g);
    PresentSsi(ps, g);
  }

  lemma PresentSsi(ps: seq<Poste>, g: Groupe)
    ensures GroupePresent(ps, g) <==> exists k :: 0 <= k < |ps| && ps[k].groupe == g
  {
  }

  predicate Contient(rs: seq<TotalGroupe>, g: Groupe) {
    exists i :: 0 <= i < |rs| && rs[i].groupe == g
  }

  lemma ContientAjout(rs: seq<TotalGroupe>, r: TotalGroupe, g: Groupe)
    ensures Contient(rs + [r], g) <==> Contient(rs, g) || r.groupe == g
  {
    assert (rs + [r])[|rs|] == r;
    assert forall i :: 0 <= i < |rs| ==> (rs + [r])[i] == rs[i];
  }

  lemma {:induction false} GroupeEcrit(ps: seq<Poste>, gs: seq<Groupe>, mode: ModePrix, taux: Taux, g: Groupe)
    ensures Contient(GroupesDe(ps, gs, mode, taux), g) <==> g in gs && GroupePresent(ps, g)
  {
    hide GroupeDe, GroupePresent;
    if gs != [] {
      var h, debut := gs[|gs| - 1], GroupesDe(ps, gs[..|gs| - 1], mode, taux);
      GroupeEcrit(ps, gs[..|gs| - 1], mode, taux, g);
      NomDuGroupe(ps, h, mode, taux);
      ContientAjout(debut, GroupeDe(ps, h, mode, taux), g);
      assert gs == gs[..|gs| - 1] + [h] && debut + [] == debut;
    }
  }

  lemma {:induction false} GroupeListe(ps: seq<Poste>, gs: seq<Groupe>, mode: ModePrix, taux: Taux, i: nat)
    requires i < |GroupesDe(ps, gs, mode, taux)|
    ensures var r := GroupesDe(ps, gs, mode, taux)[i]; r == GroupeDe(ps, r.groupe, mode, taux) && GroupePresent(ps, r.groupe)
  {
    hide GroupeDe, GroupePresent;
    if gs != [] {
      var debut := GroupesDe(ps, gs[..|gs| - 1], mode, taux);
      if i < |debut| {
        GroupeListe(ps, gs[..|gs| - 1], mode, taux, i);
      } else {
        NomDuGroupe(ps, gs[|gs| - 1], mode, taux);
      }
    }
  }

  /** The VAT of a group is the rate applied to its base, to half a cent in HT mode; TTC mode rounds twice. */
  lemma TvaDuTaux(g: Groupe, montant: nat, specifique: nat, mode: ModePrix, t: nat)
    requires g != Groupe.N
    ensures var r := CalculerGroupe(g, montant, specifique, mode, t);
            match mode
            case Ht => r.base == montant + specifique && -100 <= 2 * (100 * r.tva - t * r.base) <= 100
            case Ttc => -(200 + t) <= 2 * (100 * r.tva - t * r.base) <= 200 + t
  {
    hide DivArrondi;
    if mode == Ttc {
      var v, w := DivArrondi(montant * t, 100 + t), DivArrondi(specifique * t, 100);
      TvaAuPlusMontant(montant, t);
      ArrondiProche(montant * t, 100 + t, v);
      ArrondiProche(specifique * t, 100, w);
      DeuxArrondis(montant, specifique, t, v, w);
    } else {
      var base := montant + specifique;
      assert base * t == t * base;
      ArrondiProche(base * t, 100, DivArrondi(base * t, 100));
    }
  }

  lemma DeuxArrondis(montant: int, specifique: int, t: int, v: int, w: int)
    ensures 100 * (v + w) - t * (montant - v + specifique) == ((100 + t) * v - montant * t) + (100 * w - specifique * t)
  {
    assert t * (montant - v + specifique) == t * montant - t * v + t * specifique;
    assert (100 + t) * v == 100 * v + t * v;
  }

  /** Specific taxes go to the base, whole. */
  lemma TaxesDansLaBase(g: Groupe, montant: nat, specifique: nat, mode: ModePrix, t: nat)
    requires g != Groupe.N
    ensures CalculerGroupe(g, montant, specifique, mode, t).base == CalculerGroupe(g, montant, 0, mode, t).base + specifique
  {
  }

  /**
   Every group of an invoice but N shows its rate, a VAT that is this rate of its base to the rounding of the mode, and a
   base that its specific taxes raise by exactly their amount; in HT mode the base is the amounts and the specific taxes.
   The whole of group N is VAT.
   */
  lemma GroupesAuTaux(ps: seq<Poste>, mode: ModePrix, taux: Taux, i: nat)
    requires i < |TotauxAttendus(ps, mode, taux).groupes|
    ensures var r := TotauxAttendus(ps, mode, taux).groupes[i];
            if r.groupe == Groupe.N then
              r.taux == 100 && r.base == 0 && r.tva == Somme(ps, MontantDans(Groupe.N)) + Somme(ps, SpecifiqueDans(Groupe.N))
            else
              && r.taux == taux(r.groupe)
              && (mode == Ht ==> r.base == Somme(ps, MontantDans(r.groupe)) + Somme(ps, SpecifiqueDans(r.groupe)))
              && (mode == Ht ==> -100 <= 2 * (100 * r.tva - r.taux * r.base) <= 100)
              && (mode == Ttc ==> -(200 + r.taux) <= 2 * (100 * r.tva - r.taux * r.base) <= 200 + r.taux)
              && r.base == GroupeDe(SansTaxes(ps), r.groupe, mode, taux).base + Somme(ps, SpecifiqueDans(r.groupe))
  {
    hide DivArrondi, Somme, GroupesDe;
    GroupeListe(ps, GROUPES, mode, taux, i);
    var r := TotauxAttendus(ps, mode, taux).groupes[i];
    MontantsGardes(ps, r.groupe);
    if r.groupe != Groupe.N {
      TvaDuTaux(r.groupe, MontantGroupe(ps, r.groupe), SpecifiqueGroupe(ps, r.groupe), mode, taux(r.groupe));
      TaxesDansLaBase(r.groupe, MontantGroupe(ps, r.groupe), SpecifiqueGroupe(ps, r.groupe), mode, taux(r.groupe));
    }
  }

  /** Two cases observed on the test e-MCF: three items at 11 600 with specific taxes of 500 each, and 2 000 with VAT included. */
  lemma CasConstates()
    ensures CalculerGroupe(Groupe.B, 3480000, 150000, Ttc, Taux2026(Groupe.B)) == TotalGroupe(Groupe.B, 16, 3654000, 3150000, 504000)
    ensures CalculerGroupe(Groupe.B, 200000, 0, Ttc, Taux2026(Groupe.B)) == TotalGroupe(Groupe.B, 16, 200000, 172414, 27586)
  {
    ArrondiProche(3480000 * 16, 116, 480000);
    ArrondiProche(150000 * 16, 100, 24000);
    ArrondiProche(200000 * 16, 116, 27586);
    ArrondiProche(0 * 16, 100, 0);
  }

  /** The amount of each line is its price times its quantity, to the nearest cent, in the order of the lines. */
  lemma MontantsAuCentime(ls: seq<Ligne>, mode: ModePrix, taux: Taux, i: nat)
    requires LignesValides(ls) && i < |ls|
    ensures var ms := TotauxAttendus(Postes(ls), mode, taux).montantsLignes;
            |ms| == |ls| && -1000 < 2 * (1000 * ms[i] - ls[i].prixUnitaire * QuantiteEnMilliemes(ls[i].quantite).value) <= 1000
  {
    hide QuantiteEnMilliemes;
    assert LigneValide(ls[i]);
    var a := ls[i].prixUnitaire * QuantiteEnMilliemes(ls[i].quantite).value;
    ArrondiProche(a, 1000, DivArrondi(a, 1000));
  }

  // ------------------------------------------------------------------ the two price modes

  lemma EcartInchange(base: int, t: nat, v: int)
    ensures (100 + t) * v - (base + v) * t == 100 * v - base * t
  {
  }

  lemma GroupeSansTaxe(g: Groupe, montant: nat, t: nat)
    requires g != Groupe.N
    ensures var v := DivArrondi(montant * t, 100 + t); CalculerGroupe(g, montant, 0, Ttc, t) == TotalGroupe(g, t, montant, montant - v, v)
    ensures var v := DivArrondi(montant * t, 100); CalculerGroupe(g, montant, 0, Ht, t) == TotalGroupe(g, t, montant + v, montant, v)
  {
    hide DivArrondi;
    assert 0 * t == 0;
    ArrondiProche(0, 100, 0);
  }

  /** Billing an HT amount, then billing its total as TTC, finds the same base and VAT (group N apart). */
  lemma HtPuisTtc(g: Groupe, base: nat, t: nat)
    requires g != Groupe.N
    ensures var ht := CalculerGroupe(g, base, 0, Ht, t);
            var ttc := CalculerGroupe(g, ht.total, 0, Ttc, t);
            ttc.base == ht.base && ttc.tva == ht.tva && ttc.total == ht.total
  {
    hide DivArrondi, CalculerGroupe;
    GroupeSansTaxe(g, base, t);
    MemeTva(base, t);
    GroupeSansTaxe(g, base + DivArrondi(base * t, 100), t);
  }

  lemma MemeTva(base: nat, t: nat)
    ensures var v := DivArrondi(base * t, 100); DivArrondi((base + v) * t, 100 + t) == v
  {
    hide DivArrondi;
    var v := DivArrondi(base * t, 100);
    ArrondiProche(base * t, 100, v);
    EcartInchange(base, t, v);
    ArrondiProche((base + v) * t, 100 + t, v);
  }

  /** v is montant * t / (100 + t) and w is (montant - v) * t / 100, both to the nearest: they are close. */
  lemma TvaVoisines(montant: int, t: nat, v: int, w: int)
    requires t <= 100
    requires -(100 + t) <= 2 * ((100 + t) * v - montant * t) <= 100 + t
    requires -100 <= 2 * (100 * w - (montant - v) * t) <= 100
    ensures -1 <= w - v <= 1
  {
    assert (montant - v) * t == montant * t - v * t;
    assert (100 + t) * v == 100 * v + v * t;
  }

  /** Billing a TTC amount, then billing its base as HT, moves the VAT by at most one cent up to 100 %. */
  lemma TtcPuisHt(g: Groupe, montant: nat, t: nat)
    requires g != Groupe.N && t <= 100
    ensures var ttc := CalculerGroupe(g, montant, 0, Ttc, t);
            var ht := CalculerGroupe(g, ttc.base, 0, Ht, t);
            ht.base == ttc.base && -1 <= ht.tva - ttc.tva <= 1
  {
    hide DivArrondi, CalculerGroupe;
    var v := DivArrondi(montant * t, 100 + t);
    GroupeSansTaxe(g, montant, t);
    ArrondiProche(montant * t, 100 + t, v);
    TvaAuPlusMontant(montant, t);
    GroupeSansTaxe(g, montant - v, t);
    var w := DivArrondi((montant - v) * t, 100);
    ArrondiProche((montant - v) * t, 100, w);
    TvaVoisines(montant, t, v, w);
  }

  /** The one-cent drift does happen: 0.04 with VAT included holds 0.01 of it, 0.03 bears none. */
  lemma TtcPuisHtPeutDifferer()
    ensures CalculerGroupe(Groupe.B, 4, 0, Ttc, 16) == TotalGroupe(Groupe.B, 16, 4, 3, 1)
    ensures CalculerGroupe(Groupe.B, 3, 0, Ht, 16) == TotalGroupe(Groupe.B, 16, 3, 3, 0)
  {
    hide DivArrondi;
    ArrondiProche(4 * 16, 116, 1);
    ArrondiProche(3 * 16, 100, 0);
    ArrondiProche(0 * 16, 100, 0);
  }
}
