/** Checks made before an invoice is sent (validation.ts): payments and credit notes. */
module Validation {
  import opened Wrappers
  import opened Sommes
  import opened Groupes
  import opened Decimales
  import opened Calcul

  // ------------------------------------------------------------------ payments

  datatype Moyen = Especes | Virement | CarteBancaire | MobileMoney | Cheques | Credit | Autre

  /** enUsd: the customer handed over dollars; the amount is in cents of CDF all the same. */
  datatype Paiement = Paiement(moyen: Moyen, montant: int, enUsd: bool, taux: Option<string>)

  datatype ErreurPaiement = MontantNul(i: nat) | TauxManquant(i: nat) | SommeDifferente

  function MontantPaye(): Paiement -> int {
    (p: Paiement) => p.montant
  }

  predicate SansTaux(p: Paiement) {
    p.enUsd && (p.taux == None || p.taux == Some(""))
  }

  /** An invoice without payments counts as paid in cash. */
  function PaiementsEffectifs(paiements: seq<Paiement>, total: nat): seq<Paiement> {
    if paiements == [] then [Paiement(Especes, total, false, None)] else paiements
  }

  /** The payment part of validerFacture: exactly the faulty payments are reported, and a wrong sum. */
  method VerifierPaiements(paiements: seq<Paiement>, total: nat) returns (erreurs: seq<ErreurPaiement>)
    ensures paiements == [] ==> (erreurs == [] <==> total > 0)
    ensures var ps := PaiementsEffectifs(paiements, total);
            && (forall i: nat :: MontantNul(i) in erreurs <==> i < |ps| && ps[i].montant <= 0)
            && (forall i: nat :: TauxManquant(i) in erreurs <==> i < |ps| && ps[i].enUsd && (ps[i].taux == None || ps[i].taux == Some("")))
            && (SommeDifferente in erreurs <==> Somme(ps, MontantPaye()) != total)
            && (erreurs == [] <==> PaiementsConformes(ps, total))
  {
    var ps := PaiementsEffectifs(paiements, total);
    erreurs := [];
    var somme := 0;
    for i := 0 to |ps|
      invariant forall k: nat :: MontantNul(k) in erreurs <==> k < i && ps[k].montant <= 0
      invariant forall k: nat :: TauxManquant(k) in erreurs <==> k < i && SansTaux(ps[k])
      invariant SommeDifferente !in erreurs
      invariant erreurs == [] <==> forall k :: 0 <= k < i ==> ps[k].montant > 0 && !SansTaux(ps[k])
    {
      if ps[i].montant <= 0 {
        erreurs := erreurs + [MontantNul(i)];
      }
      if SansTaux(ps[i]) {
        erreurs := erreurs + [TauxManquant(i)];
      }
    }
    somme := Sommer(ps, MontantPaye());
    if somme != total {
      erreurs := erreurs + [SommeDifferente];
    }
  }

  /** What VerifierPaiements lets through. */
  predicate PaiementsConformes(ps: seq<Paiement>, total: nat) {
    && (forall i :: 0 <= i < |ps| ==> ps[i].montant > 0 && !SansTaux(ps[i]))
    && Somme(ps, MontantPaye()) == total
  }

  // ------------------------------------------------------------------ credit notes

  type Id = string

  /** A line of the original invoice; its quantity is positive with three decimals (migration 090, line 226). */
  datatype LigneOrigine = LigneOrigine(id: Id, prixUnitaire: nat, quantite: Milliemes, groupe: Groupe)

  /** quantite is what quantiteEnMilliemes reads in the text of the line, None when it refuses it. */
  datatype LigneAvoir = LigneAvoir(ligneOrigine: Option<Id>, prixUnitaire: int, quantite: Option<Milliemes>, groupe: Groupe)

  datatype ErreurAvoir =
    | ArticleInconnu(i: nat)
    | PrixDifferent(i: nat)
    | GroupeDifferent(i: nat)
    | QuantiteRefusee(i: nat)
    | TropGrande(id: Id)

  /** Stored lines have distinct identifiers (primary key). */
  predicate OrigineValide(origine: seq<LigneOrigine>) {
    forall i, j :: 0 <= i < j < |origine| ==> origine[i].id != origine[j].id
  }

  predicate Rembourse(l: LigneAvoir, id: Id) {
    l.ligneOrigine == Some(id) && l.quantite.Some?
  }

  /** The quantity that a credit-note line asks back on the original line id. */
  function QuantitePour(id: Id): LigneAvoir -> int {
    (l: LigneAvoir) => if Rembourse(l, id) then l.quantite.value else 0
  }

  /** Same article, same price, same tax group, valid quantity. */
  predicate LigneConforme(origine: seq<LigneOrigine>, l: LigneAvoir) {
    && l.quantite.Some?
    && exists k :: 0 <= k < |origine| && l.ligneOrigine == Some(origine[k].id)
                   && l.prixUnitaire == origine[k].prixUnitaire && l.groupe == origine[k].groupe
  }

  function Deja(deja: map<Id, Milliemes>, id: Id): Milliemes {
    if id in deja then deja[id] else 0
  }

  predicate EstDemande(lignes: seq<LigneAvoir>, id: Id) {
    exists i :: 0 <= i < |lignes| && Rembourse(lignes[i], id)
  }

  /** The original line o is not asked back, or stays within what was sold. */
  predicate PlafondTenu(o: LigneOrigine, deja: map<Id, Milliemes>, lignes: seq<LigneAvoir>) {
    EstDemande(lignes, o.id) ==> Deja(deja, o.id) + Somme(lignes, QuantitePour(o.id)) <= o.quantite
  }

  predicate PlafondRespecte(origine: seq<LigneOrigine>, deja: map<Id, Milliemes>, lignes: seq<LigneAvoir>) {
    forall k :: 0 <= k < |origine| ==> PlafondTenu(origine[k], deja, lignes)
  }

  /** Every line conforms, and no original line named by the credit note is refunded beyond what was sold. */
  predicate AvoirConforme(origine: seq<LigneOrigine>, deja: map<Id, Milliemes>, lignes: seq<LigneAvoir>) {
    && (forall i :: 0 <= i < |lignes| ==> LigneConforme(origine, lignes[i]))
    && PlafondRespecte(origine, deja, lignes)
  }

  /** parId finds each original line by its identifier. */
  ghost predicate Index(origine: seq<LigneOrigine>, parId: map<Id, LigneOrigine>) {
    && (forall k :: 0 <= k < |origine| ==> origine[k].id in parId && parId[origine[k].id] == origine[k])
    && (forall id :: id in parId ==> exists k :: 0 <= k < |origine| && origine[k].id == id && parId[id] == origine[k])
  }

  method IndexerParId(origine: seq<LigneOrigine>) returns (parId: map<Id, LigneOrigine>)
    requires OrigineValide(origine)
    ensures Index(origine, parId)
  {
    parId := map[];
    for i := 0 to |origine|
      invariant forall k :: 0 <= k < i ==> origine[k].id in parId && parId[origine[k].id] == origine[k]
      invariant forall id :: id in parId ==> exists k :: 0 <= k < i && origine[k].id == id && parId[id] == origine[k]
    {
      parId := parId[origine[i].id := origine[i]];
    }
  }

  /** demande holds, in order of first mention, exactly the known original lines asked back, with their quantity. */
  ghost predicate DemandeExacte(parId: map<Id, LigneOrigine>, ordre: seq<Id>, demande: map<Id, nat>, lignes: seq<LigneAvoir>) {
    && (forall id :: id in ordre <==> id in demande)
    && (forall id :: id in demande <==> id in parId && EstDemande(lignes, id))
    && (forall id :: id in demande ==> demande[id] == Somme(lignes, QuantitePour(id)))
  }

  lemma {:induction false} NonDemande(lignes: seq<LigneAvoir>, id: Id)
    requires !EstDemande(lignes, id)
    ensures Somme(lignes, QuantitePour(id)) == 0
  {
    if lignes != [] {
      assert !Rembourse(lignes[|lignes| - 1], id);
      assert forall i :: 0 <= i < |lignes| - 1 ==> lignes[..|lignes| - 1][i] == lignes[i];
      NonDemande(lignes[..|lignes| - 1], id);
    }
  }

  lemma DemandeAjout(lignes: seq<LigneAvoir>, l: LigneAvoir, id: Id)
    ensures EstDemande(lignes + [l], id) <==> EstDemande(lignes, id) || Rembourse(l, id)
    ensures Somme(lignes + [l], QuantitePour(id)) == Somme(lignes, QuantitePour(id)) + QuantitePour(id)(l)
  {
    SommeAjout(lignes, l, QuantitePour(id));
    assert (lignes + [l])[|lignes|] == l;
    assert forall i :: 0 <= i < |lignes| ==> (lignes + [l])[i] == lignes[i];
  }

  /** One more credit-note line, recorded under its original line when it is known and readable. */
  method NoterDemande(parId: map<Id, LigneOrigine>, ordre: seq<Id>, demande: map<Id, nat>,
                      ghost vues: seq<LigneAvoir>, l: LigneAvoir)
    returns (ordre': seq<Id>, demande': map<Id, nat>)
    requires DemandeExacte(parId, ordre, demande, vues)
    ensures DemandeExacte(parId, ordre', demande', vues + [l])
  {
    ordre', demande' := ordre, demande;
    forall id: Id
      ensures EstDemande(vues + [l], id) <==> EstDemande(vues, id) || Rembourse(l, id)
      ensures Somme(vues + [l], QuantitePour(id)) == Somme(vues, QuantitePour(id)) + QuantitePour(id)(l)
      ensures !EstDemande(vues, id) ==> Somme(vues, QuantitePour(id)) == 0
    {
      DemandeAjout(vues, l, id);
      if !EstDemande(vues, id) {
        NonDemande(vues, id);
      }
    }
    if l.ligneOrigine.Some? && l.ligneOrigine.value in parId {
      var id := l.ligneOrigine.value;
      match l.quantite
      case None =>
      case Some(q) =>
        if id !in demande {
          ordre' := ordre + [id];
        }
        demande' := demande[id := (if id in demande then demande[id] else 0) + q];
    }
  }

  /** The errors reported for line i of the credit note: unknown article, other price, other tax group, refused quantity. */
  ghost predicate ErreursDeLigne(origine: seq<LigneOrigine>, i: nat, l: LigneAvoir, erreurs: seq<ErreurAvoir>) {
    && (ArticleInconnu(i) in erreurs <==> forall k :: 0 <= k < |origine| ==> l.ligneOrigine != Some(origine[k].id))
    && (PrixDifferent(i) in erreurs <==>
          exists k :: 0 <= k < |origine| && l.ligneOrigine == Some(origine[k].id) && l.prixUnitaire != origine[k].prixUnitaire)
    && (GroupeDifferent(i) in erreurs <==>
          exists k :: 0 <= k < |origine| && l.ligneOrigine == Some(origine[k].id) && l.groupe != origine[k].groupe)
    && (QuantiteRefusee(i) in erreurs <==> exists k :: 0 <= k < |origine| && l.ligneOrigine == Some(origine[k].id) && l.quantite == None)
  }

  /** What is wrong with line i, taken alone. */
  method ControlerLigne(origine: seq<LigneOrigine>, parId: map<Id, LigneOrigine>, i: nat, l: LigneAvoir)
    returns (erreurs: seq<ErreurAvoir>)
    requires Index(origine, parId)
    ensures erreurs == [] <==> LigneConforme(origine, l)
    ensures forall e :: e in erreurs ==> !e.TropGrande? && e.i == i
    ensures ErreursDeLigne(origine, i, l, erreurs)
  {
    if l.ligneOrigine == None || l.ligneOrigine.value !in parId {
      return [ArticleInconnu(i)];
    }
    var o := parId[l.ligneOrigine.value];
    erreurs := [];
    if l.prixUnitaire != o.prixUnitaire {
      erreurs := erreurs + [PrixDifferent(i)];
    }
    if l.groupe != o.groupe {
      erreurs := erreurs + [GroupeDifferent(i)];
    }
    if l.quantite == None {
      erreurs := erreurs + [QuantiteRefusee(i)];
    }
  }

  lemma ErreursAjoutees(origine: seq<LigneOrigine>, lignes: seq<LigneAvoir>, i: nat, erreurs: seq<ErreurAvoir>, es: seq<ErreurAvoir>)
    requires i < |lignes| && (forall e :: e in erreurs ==> !e.TropGrande? && e.i < i) && (forall e :: e in es ==> !e.TropGrande? && e.i == i)
    requires forall k :: 0 <= k < i ==> ErreursDeLigne(origine, k, lignes[k], erreurs)
    requires ErreursDeLigne(origine, i, lignes[i], es)
    ensures forall k :: 0 <= k <= i ==> ErreursDeLigne(origine, k, lignes[k], erreurs + es)
  {
    forall k | 0 <= k <= i
      ensures ErreursDeLigne(origine, k, lignes[k], erreurs + es)
    {
      MemesErreurs(origine, k, lignes[k], if k < i then erreurs else es, erreurs + es);
    }
  }

  lemma MemesErreurs(origine: seq<LigneOrigine>, i: nat, l: LigneAvoir, es: seq<ErreurAvoir>, es': seq<ErreurAvoir>)
    requires ErreursDeLigne(origine, i, l, es)
    requires forall e: ErreurAvoir :: !e.TropGrande? && e.i == i ==> (e in es <==> e in es')
    ensures ErreursDeLigne(origine, i, l, es')
  {
  }

  lemma RienDemande(parId: map<Id, LigneOrigine>)
    ensures DemandeExacte(parId, [], map[], [])
  {
  }

  method ControlerLignes(origine: seq<LigneOrigine>, parId: map<Id, LigneOrigine>, lignes: seq<LigneAvoir>)
    returns (erreurs: seq<ErreurAvoir>, ordre: seq<Id>, demande: map<Id, nat>)
    requires Index(origine, parId)
    ensures erreurs == [] <==> forall i :: 0 <= i < |lignes| ==> LigneConforme(origine, lignes[i])
    ensures forall e :: e in erreurs ==> !e.TropGrande? && e.i < |lignes|
    ensures forall i :: 0 <= i < |lignes| ==> ErreursDeLigne(origine, i, lignes[i], erreurs)
    ensures DemandeExacte(parId, ordre, demande, lignes)
  {
    hide DemandeExacte, LigneConforme, ErreursDeLigne;
    erreurs, ordre, demande := [], [], map[];
    RienDemande(parId);
    assert lignes[..0] == [];
    for i := 0 to |lignes|
      invariant DemandeExacte(parId, ordre, demande, lignes[..i])
      invariant erreurs == [] <==> forall k :: 0 <= k < i ==> LigneConforme(origine, lignes[k])
      invariant forall e :: e in erreurs ==> !e.TropGrande? && e.i < i
      invariant forall k :: 0 <= k < i ==> ErreursDeLigne(origine, k, lignes[k], erreurs)
    {
      var es := ControlerLigne(origine, parId, i, lignes[i]);
      ErreursAjoutees(origine, lignes, i, erreurs, es);
      erreurs := erreurs + es;
      assert lignes[..i + 1] == lignes[..i] + [lignes[i]];
      ordre, demande := NoterDemande(parId, ordre, demande, lignes[..i], lignes[i]);
    }
    assert lignes[..|lignes|] == lignes;
  }

  predicate Depasse(parId: map<Id, LigneOrigine>, deja: map<Id, Milliemes>, demande: map<Id, nat>, id: Id) {
    id in parId && id in demande && Deja(deja, id) + demande[id] > parId[id].quantite
  }

  method ControlerQuantites(parId: map<Id, LigneOrigine>, deja: map<Id, Milliemes>, ordre: seq<Id>, demande: map<Id, nat>)
    returns (erreurs: seq<ErreurAvoir>)
    requires forall id :: id in ordre <==> id in demande
    requires forall id :: id in demande ==> id in parId
    ensures forall id :: TropGrande(id) in erreurs <==> Depasse(parId, deja, demande, id)
    ensures forall e :: e in erreurs ==> e.TropGrande?
    ensures erreurs == [] <==> forall id :: id in demande ==> !Depasse(parId, deja, demande, id)
  {
    erreurs := [];
    for j := 0 to |ordre|
      invariant forall id :: TropGrande(id) in erreurs <==> id in ordre[..j] && Depasse(parId, deja, demande, id)
      invariant forall e :: e in erreurs ==> e.TropGrande?
    {
      var id := ordre[j];
      if Deja(deja, id) + demande[id] > parId[id].quantite {
        erreurs := erreurs + [TropGrande(id)];
      }
    }
    assert ordre[..|ordre|] == ordre;
    if erreurs != [] {
      assert erreurs[0] == TropGrande(erreurs[0].id);
      assert TropGrande(erreurs[0].id) in erreurs;
    }
  }

  lemma PlafondParId(origine: seq<LigneOrigine>, parId: map<Id, LigneOrigine>, deja: map<Id, Milliemes>,
                     ordre: seq<Id>, demande: map<Id, nat>, lignes: seq<LigneAvoir>)
    requires Index(origine, parId) && DemandeExacte(parId, ordre, demande, lignes)
    ensures (forall id :: id in demande ==> !Depasse(parId, deja, demande, id)) <==> PlafondRespecte(origine, deja, lignes)
  {
    if PlafondRespecte(origine, deja, lignes) {
      forall id | id in demande
        ensures !Depasse(parId, deja, demande, id)
      {
        var k :| 0 <= k < |origine| && origine[k].id == id && parId[id] == origine[k];
      }
    }
  }

  /**
   verifierAvoir. The list of errors is empty exactly for a conforming credit note; each line is reported for exactly
   what is wrong with it, and the original lines reported are exactly those that would be refunded beyond what was sold.
   */
  method VerifierAvoir(origine: seq<LigneOrigine>, deja: map<Id, Milliemes>, lignes: seq<LigneAvoir>)
    returns (erreurs: seq<ErreurAvoir>)
    requires OrigineValide(origine)
    ensures erreurs == [] <==> AvoirConforme(origine, deja, lignes)
    ensures forall i :: 0 <= i < |lignes| ==> ErreursDeLigne(origine, i, lignes[i], erreurs)
    ensures forall k :: 0 <= k < |origine| ==>
                          (TropGrande(origine[k].id) in erreurs <==> !PlafondTenu(origine[k], deja, lignes))
  {
    hide ErreursDeLigne, LigneConforme;
    var parId := IndexerParId(origine);
    var erreursLignes, ordre, demande := ControlerLignes(origine, parId, lignes);
    var erreursQuantites := ControlerQuantites(parId, deja, ordre, demande);
    PlafondParId(origine, parId, deja, ordre, demande, lignes);
    erreurs := erreursLignes + erreursQuantites;
    forall i | 0 <= i < |lignes|
      ensures ErreursDeLigne(origine, i, lignes[i], erreurs)
    {
      MemesErreurs(origine, i, lignes[i], erreursLignes, erreurs);
    }
  }
}
