/**
 The credit notes of one sale (facture-normalisee.service.ts). What was already refunded is read from the stored
 lines, the new credit note is checked, then its row and its lines are inserted: four requests to the database,
 between which others may act, and after each of which the process may stop.
 */
module Avoirs {
  import opened Wrappers
  import opened Sommes
  import opened Groupes
  import opened Decimales
  import opened Calcul
  import opened Validation

  /** A stored credit note: its snapshot is what the DGI receives; its lines are what the next check will read. */
  datatype Avoir = Avoir(statut: Statut, lignes: seq<LigneAvoir>, stockees: bool)

  /** The statuses whose credit notes count as refunded. */
  predicate Compte(s: Statut) {
    s == Confirmed || s == Pending || s == Provisional
  }

  /** Summed over the credit notes that count. */
  function ParAvoir(f: LigneAvoir -> int): Avoir -> int {
    (a: Avoir) => if Compte(a.statut) then Somme(a.lignes, f) else 0
  }

  /** Summed over the stored lines of the credit notes that count. */
  function ParAvoirLu(f: LigneAvoir -> int): Avoir -> int {
    (a: Avoir) => if Compte(a.statut) && a.stockees then Somme(a.lignes, f) else 0
  }

  function QuantiteRemboursee(avoirs: seq<Avoir>, id: Id): int {
    Somme(avoirs, ParAvoir(QuantitePour(id)))
  }

  /** What verifierOrigine finds. */
  function QuantiteLue(avoirs: seq<Avoir>, id: Id): int {
    Somme(avoirs, ParAvoirLu(QuantitePour(id)))
  }

  // ------------------------------------------------------------------ steps

  type Acteur = nat

  /** How far the emission of a credit note has gone: accepted, or its row inserted at place i. */
  datatype Emission = Acceptee(lignes: seq<LigneAvoir>) | Inseree(i: nat)

  datatype Etat = Etat(avoirs: seq<Avoir>, emissions: map<Acteur, Emission>)

  datatype Pas =
    | Verifier(a: Acteur, lignes: seq<LigneAvoir>)
    | InsererRangee(a: Acteur)
    | InsererLignes(a: Acteur)
    | Arreter(a: Acteur)
    | ChangerStatut(i: nat, statut: Statut)

  ghost predicate DejaExact(deja: map<Id, Milliemes>, avoirs: seq<Avoir>) {
    forall id :: Deja(deja, id) == QuantiteLue(avoirs, id)
  }

  /** The relation between two consecutive states. A refused credit note leaves everything as it is. */
  ghost predicate Suivant(origine: seq<LigneOrigine>, e: Etat, p: Pas, e': Etat) {
    match p
    case Verifier(a, lignes) =>
      a !in e.emissions &&
      exists deja :: DejaExact(deja, e.avoirs) &&
                     e' == if AvoirConforme(origine, deja, lignes) then e.(emissions := e.emissions[a := Acceptee(lignes)]) else e
    case InsererRangee(a) =>
      a in e.emissions && e.emissions[a].Acceptee? &&
      e' == Etat(e.avoirs + [Avoir(Pending, e.emissions[a].lignes, false)], e.emissions[a := Inseree(|e.avoirs|)])
    case InsererLignes(a) =>
      a in e.emissions && e.emissions[a].Inseree? && e.emissions[a].i < |e.avoirs| &&
      var i := e.emissions[a].i;
      e' == Etat(e.avoirs[i := e.avoirs[i].(stockees := true)], e.emissions - {a})
    case Arreter(a) => e' == e.(emissions := e.emissions - {a})
    case ChangerStatut(i, s) =>
      e' == if i < |e.avoirs| then e.(avoirs := e.avoirs[i := e.avoirs[i].(statut := s)]) else e
  }

  /** etats is a stretch of a run, driven by pas. */
  ghost predicate Chemin(origine: seq<LigneOrigine>, etats: seq<Etat>, pas: seq<Pas>) {
    && |etats| == |pas| + 1
    && forall n :: 0 <= n < |pas| ==> Suivant(origine, etats[n], pas[n], etats[n + 1])
  }

  /** etats is a run of the system, from an empty table. */
  ghost predicate Execution(origine: seq<LigneOrigine>, etats: seq<Etat>, pas: seq<Pas>) {
    Chemin(origine, etats, pas) && etats[0] == Etat([], map[])
  }

  ghost predicate JamaisTropRembourse(origine: seq<LigneOrigine>, avoirs: seq<Avoir>) {
    forall k :: 0 <= k < |origine| ==> QuantiteRemboursee(avoirs, origine[k].id) <= origine[k].quantite
  }

  // ------------------------------------------------------------------ exactly when refunds stay within sales

  /** The lines still fit in what is left of each original line. */
  predicate Tient(origine: seq<LigneOrigine>, avoirs: seq<Avoir>, lignes: seq<LigneAvoir>) {
    forall k :: 0 <= k < |origine| ==>
      QuantiteRemboursee(avoirs, origine[k].id) + Somme(lignes, QuantitePour(origine[k].id)) <= origine[k].quantite
  }

  /** A credit note that starts to count, when its row is inserted or when its status comes back, must fit. */
  predicate Garde(origine: seq<LigneOrigine>, e: Etat, p: Pas) {
    match p
    case InsererRangee(a) => a in e.emissions && e.emissions[a].Acceptee? ==> Tient(origine, e.avoirs, e.emissions[a].lignes)
    case ChangerStatut(i, s) =>
      i < |e.avoirs| && Compte(s) && !Compte(e.avoirs[i].statut) ==> Tient(origine, e.avoirs, e.avoirs[i].lignes)
    case _ => true
  }

  /** The step takes refunds from within the sales to within the sales exactly when it meets the guard. */
  lemma PlafondConserveSsi(origine: seq<LigneOrigine>, e: Etat, p: Pas, e': Etat)
    requires Suivant(origine, e, p, e') && JamaisTropRembourse(origine, e.avoirs)
    ensures JamaisTropRembourse(origine, e'.avoirs) <==> Garde(origine, e, p)
  {
    forall k | 0 <= k < |origine|
      ensures QuantiteRemboursee(e'.avoirs, origine[k].id) == QuantiteRemboursee(e.avoirs, origine[k].id) + Ajout(e, p, origine[k].id)
    {
      QuantiteEnsuite(origine, e, p, e', origine[k].id);
    }
    forall k, i | 0 <= k < |origine| && 0 <= i < |e.avoirs|
      ensures Somme(e.avoirs[i].lignes, QuantitePour(origine[k].id)) >= 0
    {
      SommePositive(e.avoirs[i].lignes, QuantitePour(origine[k].id));
    }
  }

  /** What a step adds to the refunded quantity. */
  function Ajout(e: Etat, p: Pas, id: Id): int {
    match p
    case InsererRangee(a) => if a in e.emissions && e.emissions[a].Acceptee? then Somme(e.emissions[a].lignes, QuantitePour(id)) else 0
    case ChangerStatut(i, s) =>
      if i < |e.avoirs| && Compte(s) != Compte(e.avoirs[i].statut) then
        var q := Somme(e.avoirs[i].lignes, QuantitePour(id));
        if Compte(s) then q else -q
      else 0
    case _ => 0
  }

  lemma QuantiteEnsuite(origine: seq<LigneOrigine>, e: Etat, p: Pas, e': Etat, id: Id)
    requires Suivant(origine, e, p, e')
    ensures QuantiteRemboursee(e'.avoirs, id) == QuantiteRemboursee(e.avoirs, id) + Ajout(e, p, id)
  {
    hide AvoirConforme, DejaExact;
    var f := ParAvoir(QuantitePour(id));
    match p
    case InsererRangee(a) => SommeAjout(e.avoirs, Avoir(Pending, e.emissions[a].lignes, false), f);
    case InsererLignes(a) =>
      var i := e.emissions[a].i;
      SommeUnChange(e.avoirs, i, e.avoirs[i].(stockees := true), f);
    case ChangerStatut(i, s) =>
      if i < |e.avoirs| {
        SommeUnChange(e.avoirs, i, e.avoirs[i].(statut := s), f);
      }
    case _ =>
  }

  /**
   Over any run, with any number of emissions under way at once, stops and status changes, the refunded quantity of
   every original line stays within the quantity sold up to a point exactly when every step before it met the guard.
   */
  lemma {:induction false} RemboursementsBornesSsi(origine: seq<LigneOrigine>, etats: seq<Etat>, pas: seq<Pas>, n: nat)
    requires Execution(origine, etats, pas) && n < |etats|
    ensures (forall m :: 0 <= m <= n ==> JamaisTropRembourse(origine, etats[m].avoirs)) <==>
            (forall m :: 0 <= m < n ==> Garde(origine, etats[m], pas[m]))
  {
    hide JamaisTropRembourse, Garde, Suivant;
    if n == 0 {
      RienRembourse(origine);
    } else {
      RemboursementsBornesSsi(origine, etats, pas, n - 1);
      if JamaisTropRembourse(origine, etats[n - 1].avoirs) {
        PlafondConserveSsi(origine, etats[n - 1], pas[n - 1], etats[n]);
      }
    }
  }

  lemma RienRembourse(origine: seq<LigneOrigine>)
    ensures JamaisTropRembourse(origine, [])
  {
  }

  // ------------------------------------------------------------------ when the check suffices

  /** The lines of every credit note that counts were stored. */
  predicate ToutesStockees(avoirs: seq<Avoir>) {
    forall i :: 0 <= i < |avoirs| && Compte(avoirs[i].statut) ==> avoirs[i].stockees
  }

  /** Nothing happens to the credit notes of the sale between a check and the insertion it allows. */
  predicate UneALaFois(e: Etat, p: Pas) {
    (p.Verifier? || Revient(e, p)) ==> e.emissions == map[]
  }

  /** A credit note that no longer counted counts again. */
  predicate Revient(e: Etat, p: Pas) {
    p.ChangerStatut? && p.i < |e.avoirs| && Compte(p.statut) && !Compte(e.avoirs[p.i].statut)
  }

  /** One emission at a time, after earlier ones stored their lines; what comes back fits. */
  predicate Ordonnee(origine: seq<LigneOrigine>, e: Etat, p: Pas) {
    && UneALaFois(e, p)
    && (p.Verifier? ==> ToutesStockees(e.avoirs))
    && (Revient(e, p) ==> Tient(origine, e.avoirs, e.avoirs[p.i].lignes))
  }

  /** What was accepted still fits. */
  ghost predicate InvOrdonnee(origine: seq<LigneOrigine>, e: Etat) {
    && JamaisTropRembourse(origine, e.avoirs)
    && (forall a, b :: a in e.emissions && b in e.emissions ==> a == b)
    && forall a :: a in e.emissions && e.emissions[a].Acceptee? ==> Tient(origine, e.avoirs, e.emissions[a].lignes)
  }

  lemma AccepteTient(origine: seq<LigneOrigine>, avoirs: seq<Avoir>, deja: map<Id, Milliemes>, lignes: seq<LigneAvoir>)
    requires JamaisTropRembourse(origine, avoirs) && ToutesStockees(avoirs) && DejaExact(deja, avoirs)
    requires AvoirConforme(origine, deja, lignes)
    ensures Tient(origine, avoirs, lignes)
  {
    forall k | 0 <= k < |origine|
      ensures QuantiteRemboursee(avoirs, origine[k].id) + Somme(lignes, QuantitePour(origine[k].id)) <= origine[k].quantite
    {
      SommeEgale(avoirs, ParAvoirLu(QuantitePour(origine[k].id)), ParAvoir(QuantitePour(origine[k].id)));
      assert PlafondTenu(origine[k], deja, lignes);
      if !EstDemande(lignes, origine[k].id) {
        NonDemande(lignes, origine[k].id);
      }
    }
  }

  /** Removing refunds leaves at least as much room. */
  lemma TientEnsuite(origine: seq<LigneOrigine>, e: Etat, p: Pas, e': Etat, lignes: seq<LigneAvoir>)
    requires Suivant(origine, e, p, e') && Tient(origine, e.avoirs, lignes) && !p.InsererRangee? && !Revient(e, p)
    ensures Tient(origine, e'.avoirs, lignes)
  {
    forall k | 0 <= k < |origine|
      ensures QuantiteRemboursee(e'.avoirs, origine[k].id) <= QuantiteRemboursee(e.avoirs, origine[k].id)
    {
      QuantiteEnsuite(origine, e, p, e', origine[k].id);
      if p.ChangerStatut? && p.i < |e.avoirs| {
        SommePositive(e.avoirs[p.i].lignes, QuantitePour(origine[k].id));
      }
    }
  }

  lemma OrdreConserve(origine: seq<LigneOrigine>, e: Etat, p: Pas, e': Etat)
    requires Suivant(origine, e, p, e') && Ordonnee(origine, e, p) && InvOrdonnee(origine, e)
    ensures InvOrdonnee(origine, e') && Garde(origine, e, p)
  {
    hide JamaisTropRembourse, Tient, AvoirConforme, DejaExact, ToutesStockees;
    PlafondConserveSsi(origine, e, p, e');
    if p.Verifier? && e' != e {
      var deja :| DejaExact(deja, e.avoirs) && AvoirConforme(origine, deja, p.lignes);
      AccepteTient(origine, e.avoirs, deja, p.lignes);
    } else if !p.InsererRangee? && !Revient(e, p) {
      forall a | a in e.emissions && e.emissions[a].Acceptee?
        ensures Tient(origine, e'.avoirs, e.emissions[a].lignes)
      {
        TientEnsuite(origine, e, p, e', e.emissions[a].lignes);
      }
    }
  }

  /**
   When credit notes of one sale are issued one at a time, their lines are stored, and what comes back fits, the
   check of verifierAvoir is enough: refunds never exceed sales, even when one credit note names a line several times.
   */
  lemma {:induction false} RemboursementsBornes(origine: seq<LigneOrigine>, etats: seq<Etat>, pas: seq<Pas>, n: nat)
    requires Execution(origine, etats, pas) && n < |etats|
    requires forall m :: 0 <= m < n ==> Ordonnee(origine, etats[m], pas[m])
    ensures InvOrdonnee(origine, etats[n])
    ensures forall m :: 0 <= m < n ==> Garde(origine, etats[m], pas[m])
  {
    hide Garde, Suivant, Ordonnee;
    if n == 0 {
      RienRembourse(origine);
    } else {
      RemboursementsBornes(origine, etats, pas, n - 1);
      OrdreConserve(origine, etats[n - 1], pas[n - 1], etats[n]);
    }
  }

  // ------------------------------------------------------------------ each hypothesis is needed

  /** Lines that the check accepts on an untouched sale, and more than half of what was sold on one of its lines. */
  ghost predicate PlusDeLaMoitie(origine: seq<LigneOrigine>, lignes: seq<LigneAvoir>, k: nat) {
    AvoirConforme(origine, map[], lignes) && k < |origine| && 2 * Somme(lignes, QuantitePour(origine[k].id)) > origine[k].quantite
  }

  lemma DeuxFoisDepasse(origine: seq<LigneOrigine>, s: Statut, t: Statut, lignes: seq<LigneAvoir>, u: bool, v: bool, k: nat)
    requires PlusDeLaMoitie(origine, lignes, k) && Compte(s) && Compte(t)
    ensures !JamaisTropRembourse(origine, [Avoir(s, lignes, u), Avoir(t, lignes, v)])
  {
    var x, y, f := Avoir(s, lignes, u), Avoir(t, lignes, v), ParAvoir(QuantitePour(origine[k].id));
    SommeAjout([], x, f);
    SommeAjout([x], y, f);
    assert [] + [x] == [x] && [x] + [y] == [x, y];
  }

  /** Earlier credit notes that are not read: none, not stored, or not counted. */
  lemma RienLu(avoirs: seq<Avoir>)
    requires forall i :: 0 <= i < |avoirs| ==> !(Compte(avoirs[i].statut) && avoirs[i].stockees)
    ensures DejaExact(map[], avoirs)
  {
    forall id: Id
      ensures QuantiteLue(avoirs, id) == 0
    {
      SommeNulle(avoirs, ParAvoirLu(QuantitePour(id)));
    }
  }

  /** Two tills credit the same sale at once: both checks pass, and the refund is paid twice. */
  lemma DeuxEmissions(origine: seq<LigneOrigine>, lignes: seq<LigneAvoir>, k: nat) returns (etats: seq<Etat>, pas: seq<Pas>)
    requires PlusDeLaMoitie(origine, lignes, k)
    ensures Execution(origine, etats, pas) && !JamaisTropRembourse(origine, etats[|pas|].avoirs)
    ensures forall m :: 0 <= m < |pas| ==> !Revient(etats[m], pas[m]) && (pas[m].Verifier? ==> ToutesStockees(etats[m].avoirs))
  {
    hide JamaisTropRembourse, DejaExact, AvoirConforme;
    RienLu([]);
    var x := Avoir(Pending, lignes, false);
    pas := [Verifier(0, lignes), Verifier(1, lignes), InsererRangee(0), InsererRangee(1)];
    var e0, e1, e2 := Etat([], map[]), Etat([], map[0 := Acceptee(lignes)]), Etat([], map[0 := Acceptee(lignes), 1 := Acceptee(lignes)]);
    var e3, e4 := Etat([x], map[0 := Inseree(0), 1 := Acceptee(lignes)]), Etat([x, x], map[0 := Inseree(0), 1 := Inseree(1)]);
    etats := [e0, e1, e2, e3, e4];
    assert [] + [x] == [x] && [x] + [x] == [x, x];
    assert Suivant(origine, e0, pas[0], e1) && Suivant(origine, e1, pas[1], e2);
    assert Suivant(origine, e2, pas[2], e3) && Suivant(origine, e3, pas[3], e4);
    DeuxFoisDepasse(origine, Pending, Pending, lignes, false, false, k);
  }

  /** The lines of a credit note could not be stored: its row is sent later all the same, and never read by a check. */
  lemma LignesPerdues(origine: seq<LigneOrigine>, lignes: seq<LigneAvoir>, k: nat) returns (etats: seq<Etat>, pas: seq<Pas>)
    requires PlusDeLaMoitie(origine, lignes, k)
    ensures Execution(origine, etats, pas) && !JamaisTropRembourse(origine, etats[|pas|].avoirs)
    ensures forall m :: 0 <= m < |pas| ==> !Revient(etats[m], pas[m]) && UneALaFois(etats[m], pas[m])
  {
    hide JamaisTropRembourse, DejaExact, AvoirConforme;
    var x := Avoir(Pending, lignes, false);
    RienLu([]);
    RienLu([x]);
    pas := [Verifier(0, lignes), InsererRangee(0), Arreter(0), Verifier(1, lignes), InsererRangee(1)];
    var e0, e1, e2 := Etat([], map[]), Etat([], map[0 := Acceptee(lignes)]), Etat([x], map[0 := Inseree(0)]);
    var e3, e4, e5 := Etat([x], map[]), Etat([x], map[1 := Acceptee(lignes)]), Etat([x, x], map[1 := Inseree(1)]);
    etats := [e0, e1, e2, e3, e4, e5];
    assert [] + [x] == [x] && [x] + [x] == [x, x];
    assert Suivant(origine, e0, pas[0], e1) && Suivant(origine, e1, pas[1], e2) && Suivant(origine, e2, pas[2], e3);
    assert Suivant(origine, e3, pas[3], e4) && Suivant(origine, e4, pas[4], e5);
    DeuxFoisDepasse(origine, Pending, Pending, lignes, false, false, k);
  }

  /** The states and the steps of an emission that nothing disturbs. */
  function EtapesSeules(avoirs: seq<Avoir>, lignes: seq<LigneAvoir>): seq<Etat> {
    [Etat(avoirs, map[]), Etat(avoirs, map[0 := Acceptee(lignes)]),
     Etat(avoirs + [Avoir(Pending, lignes, false)], map[0 := Inseree(|avoirs|)]), Etat(avoirs + [Avoir(Pending, lignes, true)], map[])]
  }

  function PasSeuls(lignes: seq<LigneAvoir>): seq<Pas> {
    [Verifier(0, lignes), InsererRangee(0), InsererLignes(0)]
  }

  lemma EmissionSeule(origine: seq<LigneOrigine>, avoirs: seq<Avoir>, lignes: seq<LigneAvoir>)
    requires AvoirConforme(origine, map[], lignes)
    requires forall i :: 0 <= i < |avoirs| ==> !(Compte(avoirs[i].statut) && avoirs[i].stockees)
    ensures var es, ps := EtapesSeules(avoirs, lignes), PasSeuls(lignes);
            Suivant(origine, es[0], ps[0], es[1]) && Suivant(origine, es[1], ps[1], es[2]) && Suivant(origine, es[2], ps[2], es[3])
  {
    hide AvoirConforme, DejaExact;
    RienLu(avoirs);
    var x, y := Avoir(Pending, lignes, false), Avoir(Pending, lignes, true);
    assert (avoirs + [x])[|avoirs| := y] == avoirs + [y];
    assert map[0 := Inseree(|avoirs|)] - {0} == map[];
    assert map[0 := Acceptee(lignes)][0 := Inseree(|avoirs|)] == map[0 := Inseree(|avoirs|)];
  }

  /** A failed credit note is retried with success after another one was accepted. */
  lemma RetourDepasse(origine: seq<LigneOrigine>, lignes: seq<LigneAvoir>, k: nat) returns (etats: seq<Etat>, pas: seq<Pas>)
    requires PlusDeLaMoitie(origine, lignes, k)
    ensures Execution(origine, etats, pas) && !JamaisTropRembourse(origine, etats[|pas|].avoirs)
    ensures forall m :: 0 <= m < |pas| ==> UneALaFois(etats[m], pas[m]) && (pas[m].Verifier? ==> ToutesStockees(etats[m].avoirs))
  {
    hide JamaisTropRembourse, AvoirConforme, Somme;
    var y, z, w := Avoir(Pending, lignes, true), Avoir(Failed, lignes, true), Avoir(Confirmed, lignes, true);
    EmissionSeule(origine, [], lignes);
    EmissionSeule(origine, [z], lignes);
    var debut, suite := EtapesSeules([], lignes), EtapesSeules([z], lignes);
    assert debut[3].avoirs == [y] && suite[3].avoirs == [z, y];
    pas := PasSeuls(lignes) + [ChangerStatut(0, Failed)] + PasSeuls(lignes) + [ChangerStatut(0, Confirmed)];
    etats := debut + suite + [Etat([w, y], map[])];
    CheminsEnchaines(origine, debut, PasSeuls(lignes), suite, PasSeuls(lignes), ChangerStatut(0, Failed));
    var s := [Etat([w, y], map[])];
    CheminsEnchaines(origine, debut + suite, PasSeuls(lignes) + [ChangerStatut(0, Failed)] + PasSeuls(lignes), s, [], ChangerStatut(0, Confirmed));
    assert pas == (PasSeuls(lignes) + [ChangerStatut(0, Failed)] + PasSeuls(lignes)) + [ChangerStatut(0, Confirmed)] + [];
    DeuxFoisDepasse(origine, Confirmed, Pending, lignes, true, true, k);
  }

  lemma CheminsEnchaines(origine: seq<LigneOrigine>, es: seq<Etat>, ps: seq<Pas>, fs: seq<Etat>, qs: seq<Pas>, p: Pas)
    requires Chemin(origine, es, ps) && Chemin(origine, fs, qs) && Suivant(origine, es[|ps|], p, fs[0])
    ensures Chemin(origine, es + fs, ps + [p] + qs)
  {
    hide Suivant;
  }

  // ------------------------------------------------------------------ money

  function MontantRembourse(id: Id): LigneAvoir -> int {
    (l: LigneAvoir) => if Rembourse(l, id) && l.prixUnitaire >= 0 then DivArrondi(l.prixUnitaire * l.quantite.value, 1000) else 0
  }

  function Nombre(id: Id): LigneAvoir -> int {
    (l: LigneAvoir) => if Rembourse(l, id) then 1 else 0
  }

  /** m cents for a quantity q in n lines at the given price: at most half a cent of rounding per line. */
  predicate ArgentBorne(prix: nat, m: int, q: int, n: int) {
    2000 * m <= 2 * (prix * q) + 1000 * n
  }

  lemma ArgentAdditif(prix: nat, m: int, q: int, n: int, m': int, q': int, n': int)
    requires ArgentBorne(prix, m, q, n) && ArgentBorne(prix, m', q', n')
    ensures ArgentBorne(prix, m + m', q + q', n + n')
  {
    assert prix * (q + q') == prix * q + prix * q';
  }

  lemma ArgentUneLigne(prix: nat, q: nat)
    ensures ArgentBorne(prix, DivArrondi(prix * q, 1000), q, 1)
  {
    ArrondiProche(prix * q, 1000, DivArrondi(prix * q, 1000));
  }

  lemma {:induction false} MontantDesLignesBorne(o: LigneOrigine, lignes: seq<LigneAvoir>)
    requires forall i :: 0 <= i < |lignes| && Rembourse(lignes[i], o.id) ==> lignes[i].prixUnitaire == o.prixUnitaire
    ensures ArgentBorne(o.prixUnitaire, Somme(lignes, MontantRembourse(o.id)), Somme(lignes, QuantitePour(o.id)),
                        Somme(lignes, Nombre(o.id)))
  {
    if lignes == [] {
      assert o.prixUnitaire * 0 == 0;
    } else {
      var debut, l := lignes[..|lignes| - 1], lignes[|lignes| - 1];
      MontantDesLignesBorne(o, debut);
      if Rembourse(l, o.id) {
        ArgentUneLigne(o.prixUnitaire, l.quantite.value);
        ArgentAdditif(o.prixUnitaire, Somme(debut, MontantRembourse(o.id)), Somme(debut, QuantitePour(o.id)),
                      Somme(debut, Nombre(o.id)),
                      DivArrondi(o.prixUnitaire * l.quantite.value, 1000), l.quantite.value, 1);
      }
    }
  }

  lemma {:induction false} MontantDesAvoirsBorne(origine: seq<LigneOrigine>, k: nat, avoirs: seq<Avoir>)
    requires OrigineValide(origine) && k < |origine| && LignesConformes(origine, avoirs)
    ensures ArgentBorne(origine[k].prixUnitaire, Somme(avoirs, ParAvoir(MontantRembourse(origine[k].id))),
                        QuantiteRemboursee(avoirs, origine[k].id), Somme(avoirs, ParAvoir(Nombre(origine[k].id))))
  {
    var o := origine[k];
    if avoirs == [] {
      assert o.prixUnitaire * 0 == 0;
    } else {
      var debut, a := avoirs[..|avoirs| - 1], avoirs[|avoirs| - 1];
      assert LignesConformes(origine, debut);
      MontantDesAvoirsBorne(origine, k, debut);
      if Compte(a.statut) {
        forall i | 0 <= i < |a.lignes| && Rembourse(a.lignes[i], o.id)
          ensures a.lignes[i].prixUnitaire == o.prixUnitaire
        {
          assert LigneConforme(origine, avoirs[|avoirs| - 1].lignes[i]);
        }
        MontantDesLignesBorne(o, a.lignes);
        ArgentAdditif(o.prixUnitaire, Somme(debut, ParAvoir(MontantRembourse(o.id))), QuantiteRemboursee(debut, o.id),
                      Somme(debut, ParAvoir(Nombre(o.id))),
                      Somme(a.lignes, MontantRembourse(o.id)), Somme(a.lignes, QuantitePour(o.id)),
                      Somme(a.lignes, Nombre(o.id)));
      }
    }
  }

  // What the checks let through conforms, whatever happens in between.

  ghost predicate LignesConformes(origine: seq<LigneOrigine>, avoirs: seq<Avoir>) {
    forall a, i :: 0 <= a < |avoirs| && 0 <= i < |avoirs[a].lignes| ==> LigneConforme(origine, avoirs[a].lignes[i])
  }

  ghost predicate TousConformes(origine: seq<LigneOrigine>, e: Etat) {
    && LignesConformes(origine, e.avoirs)
    && forall a :: a in e.emissions && e.emissions[a].Acceptee? ==>
         forall i :: 0 <= i < |e.emissions[a].lignes| ==> LigneConforme(origine, e.emissions[a].lignes[i])
  }

  lemma {:induction false} ExecutionConforme(origine: seq<LigneOrigine>, etats: seq<Etat>, pas: seq<Pas>, n: nat)
    requires Execution(origine, etats, pas) && n < |etats|
    ensures TousConformes(origine, etats[n])
  {
    hide LigneConforme, PlafondRespecte, DejaExact;
    if n > 0 {
      ExecutionConforme(origine, etats, pas, n - 1);
      assert Suivant(origine, etats[n - 1], pas[n - 1], etats[n]);
    }
  }

  /**
   Over any run whose steps met the guard, the money refunded on one original line by n credit-note lines stays
   strictly below the amount sold plus (n + 1) / 2 cents.
   */
  lemma ArgentRembourseBorne(origine: seq<LigneOrigine>, etats: seq<Etat>, pas: seq<Pas>, n: nat, k: nat)
    requires OrigineValide(origine) && k < |origine| && Execution(origine, etats, pas) && n < |etats|
    requires forall m :: 0 <= m < n ==> Garde(origine, etats[m], pas[m])
    ensures var o, avoirs := origine[k], etats[n].avoirs;
            var vendu := DivArrondi(o.prixUnitaire * o.quantite, 1000);
            2 * (Somme(avoirs, ParAvoir(MontantRembourse(o.id))) - vendu) < Somme(avoirs, ParAvoir(Nombre(o.id))) + 1
  {
    hide Execution, Garde, Somme;
    var o, avoirs := origine[k], etats[n].avoirs;
    RemboursementsBornesSsi(origine, etats, pas, n);
    ExecutionConforme(origine, etats, pas, n);
    MontantDesAvoirsBorne(origine, k, avoirs);
    Produit(o.prixUnitaire, QuantiteRemboursee(avoirs, o.id), o.quantite);
    var a := o.prixUnitaire * o.quantite;
    ArrondiProche(a, 1000, DivArrondi(a, 1000));
  }

  // ------------------------------------------------------------------ what counts, and what is refunded

  function LuSous(s: Statut, id: Id): Avoir -> int {
    (a: Avoir) => if a.statut == s && a.stockees then Somme(a.lignes, QuantitePour(id)) else 0
  }

  /** Earlier refunds are the stored lines of the confirmed, pending and provisional credit notes, and of no other. */
  lemma {:induction false} LuParStatut(avoirs: seq<Avoir>, id: Id)
    ensures QuantiteLue(avoirs, id) ==
            Somme(avoirs, LuSous(Confirmed, id)) + Somme(avoirs, LuSous(Pending, id)) + Somme(avoirs, LuSous(Provisional, id))
  {
    if avoirs != [] {
      LuParStatut(avoirs[..|avoirs| - 1], id);
    }
  }

  /** Whatever happens, every line of a credit note names an original line, at its price and in its tax group. */
  lemma LignesDOrigine(origine: seq<LigneOrigine>, etats: seq<Etat>, pas: seq<Pas>, n: nat, a: nat, i: nat)
    requires Execution(origine, etats, pas) && n < |etats|
    requires a < |etats[n].avoirs| && i < |etats[n].avoirs[a].lignes|
    ensures var l := etats[n].avoirs[a].lignes[i];
            l.quantite.Some? && exists k :: 0 <= k < |origine| && l.ligneOrigine == Some(origine[k].id) &&
                                            l.prixUnitaire == origine[k].prixUnitaire && l.groupe == origine[k].groupe
  {
    hide Execution;
    ExecutionConforme(origine, etats, pas, n);
    assert LigneConforme(origine, etats[n].avoirs[a].lignes[i]);
  }

  // ------------------------------------------------------------------ the stored tables

  /** The credit notes stored for one sale, and the emissions under way. */
  class TableAvoirs {
    const origine: seq<LigneOrigine>
    var avoirs: seq<Avoir>
    var emissions: map<Acteur, Emission>

    constructor (origine: seq<LigneOrigine>)
      ensures this.origine == origine && Contenu() == Etat([], map[])
    {
      this.origine := origine;
      avoirs, emissions := [], map[];
    }

    function Contenu(): Etat
      reads this
    {
      Etat(avoirs, emissions)
    }

    /** The refunded quantities read back from the credit notes that count (verifierOrigine). */
    method DejaRembourse() returns (deja: map<Id, Milliemes>)
      ensures DejaExact(deja, avoirs)
    {
      deja := map[];
      for i := 0 to |avoirs|
        invariant DejaExact(deja, avoirs[..i])
      {
        ghost var avant := deja;
        if Compte(avoirs[i].statut) && avoirs[i].stockees {
          deja := AjouterLignes(deja, avoirs[i].lignes);
        }
        forall id: Id
          ensures Deja(deja, id) == QuantiteLue(avoirs[..i + 1], id)
        {
          assert Deja(avant, id) == QuantiteLue(avoirs[..i], id);
          SommePrefixe(avoirs, i, ParAvoirLu(QuantitePour(id)));
        }
      }
      assert avoirs[..|avoirs|] == avoirs;
    }

    static method AjouterLignes(deja: map<Id, Milliemes>, lignes: seq<LigneAvoir>) returns (r: map<Id, Milliemes>)
      ensures forall id :: Deja(r, id) == Deja(deja, id) + Somme(lignes, QuantitePour(id))
    {
      r := deja;
      for i := 0 to |lignes|
        invariant forall id :: Deja(r, id) == Deja(deja, id) + Somme(lignes[..i], QuantitePour(id))
      {
        var l := lignes[i];
        forall id: Id
          ensures Somme(lignes[..i + 1], QuantitePour(id)) == Somme(lignes[..i], QuantitePour(id)) + QuantitePour(id)(l)
        {
          SommePrefixe(lignes, i, QuantitePour(id));
        }
        if l.ligneOrigine.Some? && l.quantite.Some? {
          r := r[l.ligneOrigine.value := Deja(r, l.ligneOrigine.value) + l.quantite.value];
        }
      }
      assert lignes[..|lignes|] == lignes;
    }

    /** The check of a new credit note. */
    method Verifier(a: Acteur, lignes: seq<LigneAvoir>) returns (erreurs: seq<ErreurAvoir>)
      requires OrigineValide(origine) && a !in emissions
      modifies this
      ensures Suivant(origine, old(Contenu()), Pas.Verifier(a, lignes), Contenu())
      ensures avoirs == old(avoirs) && emissions == if erreurs == [] then old(emissions)[a := Acceptee(lignes)] else old(emissions)
    {
      hide AvoirConforme, DejaExact;
      var deja := DejaRembourse();
      erreurs := VerifierAvoir(origine, deja, lignes);
      if erreurs == [] {
        emissions := emissions[a := Acceptee(lignes)];
      }
    }

    method InsererRangee(a: Acteur)
      requires a in emissions && emissions[a].Acceptee?
      modifies this
      ensures Suivant(origine, old(Contenu()), Pas.InsererRangee(a), Contenu())
    {
      avoirs, emissions := avoirs + [Avoir(Pending, emissions[a].lignes, false)], emissions[a := Inseree(|avoirs|)];
    }

    method InsererLignes(a: Acteur)
      requires a in emissions && emissions[a].Inseree? && emissions[a].i < |avoirs|
      modifies this
      ensures Suivant(origine, old(Contenu()), Pas.InsererLignes(a), Contenu())
    {
      var i := emissions[a].i;
      avoirs, emissions := avoirs[i := avoirs[i].(stockees := true)], emissions - {a};
    }

    method Arreter(a: Acteur)
      modifies this
      ensures Suivant(origine, old(Contenu()), Pas.Arreter(a), Contenu())
    {
      emissions := emissions - {a};
    }

    method MettreStatut(i: nat, statut: Statut)
      modifies this
      ensures Suivant(origine, old(Contenu()), ChangerStatut(i, statut), Contenu())
    {
      if i < |avoirs| {
        avoirs := avoirs[i := avoirs[i].(statut := statut)];
      }
    }

    /**
     emettre, for a credit note, when nobody else acts meanwhile: refused with its errors, or stored as pending;
     when its lines cannot be stored the row stays.
     */
    method EmettreAvoir(a: Acteur, lignes: seq<LigneAvoir>, rangeeEcrite: bool, lignesEcrites: bool)
      returns (erreurs: seq<ErreurAvoir>, ghost etats: seq<Etat>, ghost pas: seq<Pas>)
      requires OrigineValide(origine) && a !in emissions
      modifies this
      ensures Chemin(origine, etats, pas) && etats[0] == old(Contenu()) && etats[|pas|] == Contenu()
      ensures emissions == old(emissions)
      ensures avoirs == if erreurs == [] && rangeeEcrite then old(avoirs) + [Avoir(Pending, lignes, lignesEcrites)] else old(avoirs)
    {
      hide Suivant;
      ghost var e0 := Contenu();
      erreurs := Verifier(a, lignes);
      ghost var e1 := Contenu();
      etats, pas := [e0, e1], [Pas.Verifier(a, lignes)];
      if erreurs != [] {
        return;
      }
      if rangeeEcrite {
        InsererRangee(a);
        etats, pas := etats + [Contenu()], pas + [Pas.InsererRangee(a)];
        if lignesEcrites {
          InsererLignes(a);
          etats, pas := etats + [Contenu()], pas + [Pas.InsererLignes(a)];
          return;
        }
      }
      Arreter(a);
      etats, pas := etats + [Contenu()], pas + [Pas.Arreter(a)];
    }
  }
}
