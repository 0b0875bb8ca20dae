/**
 The stored row of one invoice and the attempts made on it (facture-normalisee.service.ts), over every run:
 requests and answers may be lost, demands may expire, the process may stop, database writes may fail.
 Attempts on one invoice are sequential.
 */
module FactureNormalisee {
  import opened Wrappers
  import opened Groupes
  import opened Calcul
  import opened Requete
  import opened Emcf
  import opened Normalisation

  /** The columns that the protocol reads or writes; the empty code stands for null. */
  datatype Rangee = Rangee(statut: Statut, code: string, uid: Option<Uid>, totaux: TotauxFacture, essais: nat)

  const ECART := "ECART"
  const A_VERIFIER := "A_VERIFIER"

  /** genre.toUpperCase() */
  function NomDuGenre(g: Genre): string {
    match g
    case Reseau => "RESEAU" case Delai => "DELAI" case Jeton => "JETON" case Http => "HTTP" case Refus => "REFUS"
    case Reponse => "REPONSE"
  }

  function CodeDe(e: ErreurEmcf): string {
    if e.code != "" then e.code else NomDuGenre(e.genre)
  }

  /** miseAJour: what becomes of the row, outcome by outcome. */
  function MiseAJour(r: Rangee, issue: Issue): Rangee
    requires !issue.Arretee?
  {
    var s := r.(essais := r.essais + 1);
    match issue
    case Confirmee(uid, _, _) => s.(statut := Confirmed, code := "", uid := Some(uid))
    case Injoignable(e) => s.(statut := Provisional, code := NomDuGenre(e.genre), uid := None)
    case EcartConstate(_, _, _) => s.(statut := Failed, code := ECART, uid := None)
    case AVerifier(uid, _, _) => s.(statut := Failed, code := A_VERIFIER, uid := Some(uid))
    case Refusee(e, uid) => s.(statut := Failed, code := CodeDe(e), uid := uid)
  }

  /** recalculerSiEcart: after a disagreement the totals are computed again from the stored lines. */
  function Recalculee(r: Rangee, recalcul: Option<TotauxFacture>): Rangee {
    if r.code == ECART && recalcul.Some? then r.(totaux := recalcul.value) else r
  }

  function ReprendreDuJournal(r: Rangee, uid: Uid): Rangee {
    r.(statut := Confirmed, code := "", uid := Some(uid))
  }

  // ------------------------------------------------------------------ steps

  /** What surrounds an attempt: the company's profile and token, and whether each database write succeeds. */
  datatype Alea = Alea(profilActif: bool, jetonLisible: bool, recalculEcrit: bool, repriseEcrite: bool, majEcrite: bool)

  datatype Monde = Monde(vue: Vue, rangee: Rangee)

  /** Confirmed and abandoned invoices are left alone. */
  predicate Close(r: Rangee) {
    r.statut == Confirmed || r.statut == Abandoned
  }

  /** tenter: what one attempt does. issue is its outcome, Arretee when no demand was made. */
  ghost predicate TenterPossible(rn: string, recalcul: Option<TotauxFacture>, a: Alea, m: Monde, issue: Issue, m': Monde) {
    if Close(m.rangee) then m' == m && issue == Arretee else
      var r := if a.recalculEcrit then Recalculee(m.rangee, recalcul) else m.rangee;
      var deja := ConfirmationDuJournal(m.vue.journal);
      if r.code == A_VERIFIER || !a.profilActif then m' == Monde(m.vue, r) && issue == Arretee
      else if deja.Some? && a.repriseEcrite then m' == Monde(m.vue, ReprendreDuJournal(r, deja.value)) && issue == Arretee
      else
        && m'.rangee == (if issue.Arretee? || !a.majEcrite then r else MiseAJour(r, issue))
        && if a.jetonLisible then Tentative(rn, r.uid, m.vue, m'.vue, r.totaux, issue)
           else m'.vue == m.vue && issue == Refusee(ErreurEmcf(Jeton, ""), None)
  }

  datatype Pas = Temps | Prise(bloquee: bool) | Tenter(alea: Alea, issue: Issue)

  /** The steps of a run: time passes, the retry job claims the row, or an attempt is made. */
  ghost predicate PasPossible(rn: string, recalcul: Option<TotauxFacture>, m: Monde, p: Pas, m': Monde) {
    match p
    case Temps =>
      Evolue(rn, m.vue.serveur, m'.vue.serveur, m.vue.serveur.enVol) && m' == Monde(m.vue.(serveur := m'.vue.serveur), m.rangee)
    case Prise(bloquee) =>
      m' == if m.rangee.statut == Provisional || (m.rangee.statut == Pending && bloquee)
            then Monde(m.vue, m.rangee.(statut := Pending)) else m
    case Tenter(a, issue) => TenterPossible(rn, recalcul, a, m, issue, m')
  }

  /** The attempt will be sent: nothing in the row or in the journal stops it, and its profile and token allow it. */
  predicate Envoie(a: Alea, m: Monde) {
    && !Close(m.rangee) && m.rangee.code != A_VERIFIER && a.profilActif && a.jetonLisible
    && (ConfirmationDuJournal(m.vue.journal).None? || !a.repriseEcrite)
  }

  /** Nothing is sent while a demand of ours is finalised, or may still be. */
  ghost predicate SansDoublon(rn: string, p: Pas, m: Monde) {
    p.Tenter? && Envoie(p.alea, m) ==> ARisque(rn, m.vue.serveur) == {}
  }

  /**
   When the process stops, or the row cannot be updated, after an attempt that was sent, nothing is finalised or may
   still be, or the journal holds the confirmation.
   */
  ghost predicate ArretTolere(rn: string, p: Pas, m: Monde, m': Monde) {
    p.Tenter? && Envoie(p.alea, m) && !p.alea.majEcrite ==>
      ARisque(rn, m'.vue.serveur) == {} || ConfirmationDuJournal(m'.vue.journal).Some?
  }

  /** Nothing is sent when a confirmation is found in the journal: it is written to the row. */
  predicate RepriseEcrite(p: Pas, m: Monde) {
    p.Tenter? && ConfirmationDuJournal(m.vue.journal).Some? ==> !Envoie(p.alea, m)
  }

  /** A demand whose only CONFIRM was answered by a definite error is not finalised, and will not be. */
  ghost predicate RefusDefinitif(rn: string, p: Pas, m: Monde, m': Monde) {
    && p.Tenter? && p.issue.Refusee? && p.issue.uidRefuse.Some? && !p.issue.erreur.Incertaine()
    && m.vue.envois <= m'.vue.envois && UneSeule(m'.vue.envois[|m.vue.envois|..])
    ==> p.issue.uidRefuse.value !in ARisque(rn, m'.vue.serveur)
  }

  ghost predicate Hypotheses(rn: string, p: Pas, m: Monde, m': Monde) {
    ArretTolere(rn, p, m, m') && RepriseEcrite(p, m) && RefusDefinitif(rn, p, m, m')
  }

  predicate RecalculEcrit(p: Pas) {
    p.Tenter? ==> p.alea.recalculEcrit
  }

  ghost predicate Depart(rn: string, m: Monde) {
    && Coherent(m.vue.serveur) && ARisque(rn, m.vue.serveur) == {}
    && m.vue.journal == [] && m.vue.envois == []
    && m.rangee.statut == Pending && m.rangee.code == "" && m.rangee.uid == None
  }

  /** A run of the system from the creation of the row, whose number is new. */
  ghost predicate Execution(rn: string, recalcul: Option<TotauxFacture>, ms: seq<Monde>, ps: seq<Pas>) {
    && |ms| == |ps| + 1 && Depart(rn, ms[0])
    && forall i :: 0 <= i < |ps| ==> PasPossible(rn, recalcul, ms[i], ps[i], ms[i + 1])
  }

  // ------------------------------------------------------------------ at most once

  /** The row will never be sent again: it is closed, to be checked, or its confirmation is in the journal. */
  predicate Scellee(m: Monde) {
    Close(m.rangee) || m.rangee.code == A_VERIFIER || ConfirmationDuJournal(m.vue.journal).Some?
  }

  ghost predicate AuPlusUne(s: set<Uid>) {
    forall u, v :: u in s && v in s ==> u == v
  }

  ghost predicate Inv(rn: string, m: Monde) {
    var s := m.vue.serveur;
    && Coherent(s)
    && AuPlusUne(ARisque(rn, s))
    && (!Scellee(m) ==> ARisque(rn, s) == {})
    && (m.rangee.statut == Confirmed ==>
          m.rangee.uid.Some? && m.rangee.uid.value in s.finalisees && Notre(rn, s, m.rangee.uid.value))
    && (ConfirmationDuJournal(m.vue.journal).Some? ==>
          var u := ConfirmationDuJournal(m.vue.journal).value; u in s.finalisees && Notre(rn, s, u))
  }

  lemma TempsConserveInv(rn: string, m: Monde, m': Monde)
    requires Inv(rn, m) && PasPossible(rn, None, m, Temps, m')
    ensures Inv(rn, m')
  {
    var s, t := m.vue.serveur, m'.vue.serveur;
    ARisqueEvolue(rn, s, t, s.enVol);
  }

  /** An attempt that is sent, while nothing is at risk. */
  lemma TentativeConserveInv(rn: string, m: Monde, r: Rangee, issue: Issue, m': Monde, majEcrite: bool)
    requires Inv(rn, m) && !Scellee(m) && !Close(r) && r.code != A_VERIFIER
    requires Tentative(rn, r.uid, m.vue, m'.vue, r.totaux, issue)
    requires m'.rangee == if issue.Arretee? || !majEcrite then r else MiseAJour(r, issue)
    requires !majEcrite ==> ARisque(rn, m'.vue.serveur) == {} || ConfirmationDuJournal(m'.vue.journal).Some?
    requires RefusDefinitif(rn, Tenter(Alea(true, true, true, true, majEcrite), issue), m, m')
    ensures Inv(rn, m')
  {
    hide NombreDemandes, SansConfirmation, ConfirmeSeulement, Accord, EcartsDe, Conversation;
  }

  lemma TenterConserveInv(rn: string, recalcul: Option<TotauxFacture>, a: Alea, m: Monde, issue: Issue, m': Monde)
    requires Inv(rn, m) && TenterPossible(rn, recalcul, a, m, issue, m') && Hypotheses(rn, Tenter(a, issue), m, m')
    ensures Inv(rn, m') && SansDoublon(rn, Tenter(a, issue), m)
  {
    hide Tentative, MiseAJour;
    if !Close(m.rangee) {
      var r := if a.recalculEcrit then Recalculee(m.rangee, recalcul) else m.rangee;
      if r.code != A_VERIFIER && a.profilActif && !(ConfirmationDuJournal(m.vue.journal).Some? && a.repriseEcrite) {
        if a.jetonLisible {
          TentativeConserveInv(rn, m, r, issue, m', a.majEcrite);
        } else {
          RefusSansEnvoi(r, issue);
        }
      }
    }
  }

  lemma RefusSansEnvoi(r: Rangee, issue: Issue)
    requires issue.Refusee?
    ensures MiseAJour(r, issue).statut == Failed
    ensures issue.erreur == ErreurEmcf(Jeton, "") ==> MiseAJour(r, issue).code != ECART
  {
  }

  lemma PasConserveInv(rn: string, recalcul: Option<TotauxFacture>, m: Monde, p: Pas, m': Monde)
    requires Inv(rn, m) && PasPossible(rn, recalcul, m, p, m') && Hypotheses(rn, p, m, m')
    ensures Inv(rn, m') && SansDoublon(rn, p, m)
  {
    match p
    case Temps => TempsConserveInv(rn, m, m');
    case Prise(_) =>
    case Tenter(a, issue) => TenterConserveInv(rn, recalcul, a, m, issue, m');
  }

  lemma {:induction false} ExecutionConserveInv(rn: string, recalcul: Option<TotauxFacture>, ms: seq<Monde>, ps: seq<Pas>, n: nat)
    requires Execution(rn, recalcul, ms, ps) && n < |ms|
    requires forall i :: 0 <= i < n ==> Hypotheses(rn, ps[i], ms[i], ms[i + 1])
    ensures Inv(rn, ms[n]) && forall i :: 0 <= i < n ==> SansDoublon(rn, ps[i], ms[i])
  {
    hide SansDoublon, Hypotheses, PasPossible, Inv;
    if n == 0 {
      DepartAccorde(rn, ms[0]);
    } else {
      ExecutionConserveInv(rn, recalcul, ms, ps, n - 1);
      PasConserveInv(rn, recalcul, ms[n - 1], ps[n - 1], ms[n]);
    }
  }

  /**
   Over any run, at most one demand is ever finalised for the invoice number; none is while the row is neither
   confirmed, nor abandoned, nor to be checked, nor recoverable from the journal; and a confirmed row carries the
   uid of the finalised demand.
   */
  lemma AuPlusUneFinalisee(rn: string, recalcul: Option<TotauxFacture>, ms: seq<Monde>, ps: seq<Pas>, n: nat, u: Uid, v: Uid)
    requires Execution(rn, recalcul, ms, ps) && n < |ms|
    requires forall i :: 0 <= i < n ==> Hypotheses(rn, ps[i], ms[i], ms[i + 1])
    requires u in ms[n].vue.serveur.finalisees && Notre(rn, ms[n].vue.serveur, u)
    requires v in ms[n].vue.serveur.finalisees && Notre(rn, ms[n].vue.serveur, v)
    ensures u == v && Scellee(ms[n])
    ensures ms[n].rangee.statut == Confirmed ==> ms[n].rangee.uid == Some(u)
  {
    hide Hypotheses;
    ExecutionConserveInv(rn, recalcul, ms, ps, n);
    var s := ms[n].vue.serveur;
    assert u in ARisque(rn, s) && v in ARisque(rn, s);
    if ms[n].rangee.statut == Confirmed {
      assert ms[n].rangee.uid.value in ARisque(rn, s);
    }
  }

  /**
   What an attempt that was sent and recorded leaves behind: one more attempt; only a confirmed outcome confirms the row,
   only an unreachable server leaves it to the retry job, and an invoice to be checked is never sent again; the uid is
   kept to be read again after a refusal of CONFIRM, and forgotten when nothing can be pending any more.
   */
  lemma SuiteDesIssues(rn: string, recalcul: Option<TotauxFacture>, a: Alea, m: Monde, issue: Issue, m': Monde, b: Alea, bloquee: bool, m'': Monde)
    requires TenterPossible(rn, recalcul, a, m, issue, m') && Envoie(a, m) && a.majEcrite && !issue.Arretee?
    requires PasPossible(rn, recalcul, m', Prise(bloquee), m'')
    ensures m'.rangee.essais == m.rangee.essais + 1
    ensures m'.rangee.statut == Confirmed <==> issue.Confirmee?
    ensures m''.rangee.statut == Pending <==> issue.Injoignable?
    ensures issue.AVerifier? ==> !Envoie(b, m'')
    ensures issue.EcartConstate? ==> m'.rangee.code == ECART
    ensures m'.rangee.uid == match issue
                             case Confirmee(uid, _, _) => Some(uid)
                             case AVerifier(uid, _, _) => Some(uid)
                             case Refusee(_, uid) => uid
                             case _ => None
  {
    hide Tentative;
  }

  /**
   The totals of a row change only when it is attempted again after a disagreement, and become those of its stored lines
   unless these give none or the write fails.
   */
  lemma TotauxSaufEcart(rn: string, recalcul: Option<TotauxFacture>, m: Monde, p: Pas, m': Monde)
    requires PasPossible(rn, recalcul, m, p, m')
    ensures var refaite := p.Tenter? && p.alea.recalculEcrit && m.rangee.code == "ECART" && m.rangee.statut != Confirmed
                           && m.rangee.statut != Abandoned && recalcul.Some?;
            m'.rangee.totaux == if refaite then recalcul.value else m.rangee.totaux
  {
    hide Tentative;
  }

  // ------------------------------------------------------------------ exactly when a second demand can be finalised

  lemma {:induction false} UidNouveau(s: set<Uid>) returns (u: Uid)
    ensures forall v :: v in s ==> v < u
    decreases |s|
  {
    if s == {} {
      u := 0;
    } else {
      var x :| x in s;
      var v := UidNouveau(s - {x});
      u := if v <= x then x + 1 else v;
      forall y | y in s ensures y < u { assert y == x || y in s - {x}; }
    }
  }

  /** One attempt with the surroundings a finalises a demand of ours that was not finalised before. */
  ghost predicate PeutFinaliser(rn: string, recalcul: Option<TotauxFacture>, a: Alea, m: Monde) {
    exists issue, m', w :: TenterPossible(rn, recalcul, a, m, issue, m') && Nouvelle(rn, m.vue.serveur, m'.vue.serveur, w)
  }

  predicate Nouvelle(rn: string, s: Serveur, t: Serveur, w: Uid) {
    w in t.finalisees && Notre(rn, t, w) && w !in s.finalisees
  }

  /**
   Whatever the state, an attempt can finalise one more demand of our number exactly when it is sent: when the row is
   neither closed nor to be checked, the profile and the token are usable, and no confirmation is recovered from the
   journal. If one was finalised already, these are exactly the attempts that can finalise the invoice twice.
   */
  lemma SecondeFinalisation(rn: string, recalcul: Option<TotauxFacture>, a: Alea, m: Monde)
    requires Coherent(m.vue.serveur)
    ensures PeutFinaliser(rn, recalcul, a, m) <==> Envoie(a, m)
  {
    hide Tentative, MiseAJour;
    if Envoie(a, m) {
      var u := UidNouveau(m.vue.serveur.demandes.Keys);
      var r := if a.recalculEcrit then Recalculee(m.rangee, recalcul) else m.rangee;
      var mt := MontantsDe(r.totaux);
      AccordPossible(r.totaux);
      EnvoiPossible(rn, recalcul, a, m, u, mt, true);
      var m' := ApresEnvoi(rn, recalcul, a, m, u, mt, true);
      assert Nouvelle(rn, m.vue.serveur, m'.vue.serveur, u);
    } else {
      forall issue, m', w | TenterPossible(rn, recalcul, a, m, issue, m')
        ensures !Nouvelle(rn, m.vue.serveur, m'.vue.serveur, w)
      {
        assert m'.vue == m.vue;
      }
    }
  }

  /**
   Hence the exact hypothesis on whole runs: at most one demand is finalised as long as no attempt is sent while one is
   finalised, or may still be.
   */
  lemma {:induction false} AuPlusUneSansDoublon(rn: string, recalcul: Option<TotauxFacture>, ms: seq<Monde>, ps: seq<Pas>, n: nat)
    requires Execution(rn, recalcul, ms, ps) && n < |ms|
    requires forall i :: 0 <= i < n ==> SansDoublon(rn, ps[i], ms[i])
    ensures Coherent(ms[n].vue.serveur) && AuPlusUne(ARisque(rn, ms[n].vue.serveur))
  {
    hide SansDoublon;
    if n > 0 {
      AuPlusUneSansDoublon(rn, recalcul, ms, ps, n - 1);
      PasSansDoublon(rn, recalcul, ms[n - 1], ps[n - 1], ms[n]);
    }
  }

  lemma PasSansDoublon(rn: string, recalcul: Option<TotauxFacture>, m: Monde, p: Pas, m': Monde)
    requires PasPossible(rn, recalcul, m, p, m') && SansDoublon(rn, p, m)
    requires Coherent(m.vue.serveur) && AuPlusUne(ARisque(rn, m.vue.serveur))
    ensures Coherent(m'.vue.serveur) && AuPlusUne(ARisque(rn, m'.vue.serveur))
  {
    hide Tentative, MiseAJour, ARisque;
    match p
    case Temps => ARisqueEvolue(rn, m.vue.serveur, m'.vue.serveur, m.vue.serveur.enVol);
    case Prise(_) =>
    case Tenter(a, issue) =>
      if Envoie(a, m) {
        var r := if a.recalculEcrit then Recalculee(m.rangee, recalcul) else m.rangee;
        UneAuPlus(rn, r.uid, m.vue, m'.vue, r.totaux, issue);
      }
  }

  lemma UneAuPlus(rn: string, uidEnAttente: Option<Uid>, v: Vue, w: Vue, nos: TotauxFacture, issue: Issue)
    requires Tentative(rn, uidEnAttente, v, w, nos, issue) && ARisque(rn, v.serveur) == {}
    ensures Coherent(w.serveur) && AuPlusUne(ARisque(rn, w.serveur))
  {
    hide ARisque, NombreDemandes, SansConfirmation, ConfirmeSeulement, Accord, EcartsDe, Conversation;
  }

  ghost predicate Deux(rn: string, s: Serveur, u: Uid, w: Uid) {
    u != w && {u, w} <= s.finalisees && Notre(rn, s, u) && Notre(rn, s, w)
  }

  /** The run goes on with one attempt, with the surroundings a, after which another demand than u is finalised too. */
  ghost predicate SuiteDouble(rn: string, recalcul: Option<TotauxFacture>, ms: seq<Monde>, ps: seq<Pas>, a: Alea, u: Uid) {
    exists issue, m', w :: Execution(rn, recalcul, ms + [m'], ps + [Tenter(a, issue)]) && Deux(rn, m'.vue.serveur, u, w)
  }

  /**
   Once a demand is finalised, in any run that sent nothing in vain so far, the next attempt can finalise a second one
   exactly when it is sent.
   */
  lemma SuiteDoubleSsi(rn: string, recalcul: Option<TotauxFacture>, ms: seq<Monde>, ps: seq<Pas>, a: Alea, u: Uid)
    requires Execution(rn, recalcul, ms, ps) && forall i :: 0 <= i < |ps| ==> SansDoublon(rn, ps[i], ms[i])
    requires u in ms[|ps|].vue.serveur.finalisees && Notre(rn, ms[|ps|].vue.serveur, u)
    ensures SuiteDouble(rn, recalcul, ms, ps, a, u) <==> Envoie(a, ms[|ps|])
  {
    hide SansDoublon, PasPossible, Envoie, Notre, Coherent;
    var m := ms[|ps|];
    AuPlusUneSansDoublon(rn, recalcul, ms, ps, |ps|);
    SecondeFinalisation(rn, recalcul, a, m);
    if Envoie(a, m) {
      var issue, m', w :| TenterPossible(rn, recalcul, a, m, issue, m') && Nouvelle(rn, m.vue.serveur, m'.vue.serveur, w);
      EnvoiSuit(rn, recalcul, a, m, issue, m', u);
      RunDePlus(rn, recalcul, ms, ps, Tenter(a, issue), m');
      assert Deux(rn, m'.vue.serveur, u, w);
    } else {
      forall issue, m', w | Execution(rn, recalcul, ms + [m'], ps + [Tenter(a, issue)])
        ensures !Deux(rn, m'.vue.serveur, u, w)
      {
        RienDeNouveau(rn, recalcul, ms, ps, a, issue, m');
        assert w in m.vue.serveur.finalisees && Notre(rn, m.vue.serveur, w) ==> w in ARisque(rn, m.vue.serveur);
        assert u in ARisque(rn, m.vue.serveur);
      }
    }
  }

  lemma RunDePlus(rn: string, recalcul: Option<TotauxFacture>, ms: seq<Monde>, ps: seq<Pas>, p: Pas, m': Monde)
    requires Execution(rn, recalcul, ms, ps) && PasPossible(rn, recalcul, ms[|ps|], p, m')
    ensures Execution(rn, recalcul, ms + [m'], ps + [p])
  {
    hide PasPossible, Depart;
  }

  lemma EnvoiSuit(rn: string, recalcul: Option<TotauxFacture>, a: Alea, m: Monde, issue: Issue, m': Monde, u: Uid)
    requires TenterPossible(rn, recalcul, a, m, issue, m') && u in m.vue.serveur.finalisees && Notre(rn, m.vue.serveur, u)
    ensures PasPossible(rn, recalcul, m, Tenter(a, issue), m')
    ensures u in m'.vue.serveur.finalisees && Notre(rn, m'.vue.serveur, u)
  {
    hide MiseAJour, Confirme, NombreDemandes, SansConfirmation, EcartsDe, ARisque, Conversation;
  }

  lemma RienDeNouveau(rn: string, recalcul: Option<TotauxFacture>, ms: seq<Monde>, ps: seq<Pas>, a: Alea, issue: Issue, m': Monde)
    requires |ms| == |ps| + 1 && Execution(rn, recalcul, ms + [m'], ps + [Tenter(a, issue)]) && !Envoie(a, ms[|ps|])
    ensures m'.vue == ms[|ps|].vue
  {
    hide MiseAJour, Tentative;
    assert PasPossible(rn, recalcul, (ms + [m'])[|ps|], (ps + [Tenter(a, issue)])[|ps|], (ms + [m'])[|ps| + 1]);
  }

  /** A row that is confirmed or abandoned never changes again, and nothing more is sent for it. */
  lemma {:induction false} ConfirmeePourToujours(rn: string, recalcul: Option<TotauxFacture>, ms: seq<Monde>, ps: seq<Pas>, i: nat, j: nat)
    requires Execution(rn, recalcul, ms, ps) && i <= j < |ms|
    requires ms[i].rangee.statut == Confirmed || ms[i].rangee.statut == Abandoned
    ensures ms[j].rangee == ms[i].rangee && ms[j].vue.envois == ms[i].vue.envois
    decreases j
  {
    if i < j {
      ConfirmeePourToujours(rn, recalcul, ms, ps, i, j - 1);
      assert PasPossible(rn, recalcul, ms[j - 1], ps[j - 1], ms[j]);
    }
  }

  /**
   Crash recovery: when a confirmation reached the journal but not the row, the next attempt confirms the row
   with the uid that the server finalised, and sends nothing.
   */
  lemma RepriseSansEnvoi(rn: string, recalcul: Option<TotauxFacture>, a: Alea, b: Alea, m: Monde, issue: Issue, m': Monde,
                         suite: Issue, m'': Monde)
    requires Inv(rn, m) && !Scellee(m)
    requires TenterPossible(rn, recalcul, a, m, issue, m') && !a.majEcrite && issue.Confirmee?
    requires ConfirmationDuJournal(m'.vue.journal).Some?
    requires TenterPossible(rn, recalcul, b, m', suite, m'') && b.profilActif && b.repriseEcrite
    ensures m''.rangee.statut == Confirmed && m''.rangee.uid == Some(issue.uid) && issue.uid in m''.vue.serveur.finalisees
    ensures m''.vue == m'.vue
  {
    hide NombreDemandes, SansConfirmation, ConfirmeSeulement, Accord, EcartsDe, Conversation;
  }

  // ------------------------------------------------------------------ confirmed means agreed

  /** The amounts of every demand at risk agree with those of the row. */
  ghost predicate AccordDuRisque(rn: string, m: Monde) {
    forall u :: u in ARisque(rn, m.vue.serveur) ==> Accord(m.rangee.totaux, m.vue.serveur.demandes[u].montants)
  }

  /** The attempt recomputes the totals of an open row whose confirmation is in the journal. */
  predicate RecalculeConfirmee(recalcul: Option<TotauxFacture>, p: Pas, m: Monde) {
    && p.Tenter? && p.alea.recalculEcrit && recalcul.Some?
    && !Close(m.rangee) && m.rangee.code == ECART && ConfirmationDuJournal(m.vue.journal).Some?
  }

  /** Such a recomputation must not change an amount: this can be checked before it is written. */
  ghost predicate GardeRecalcul(recalcul: Option<TotauxFacture>, p: Pas, m: Monde) {
    RecalculeConfirmee(recalcul, p, m) ==> MemesMontants(m.rangee.totaux, recalcul.value)
  }

  lemma TotauxGardes(r: Rangee, issue: Issue)
    requires !issue.Arretee?
    ensures MiseAJour(r, issue).totaux == r.totaux
  {
  }

  /** An attempt that is sent: whatever it puts at risk agrees with the totals it was made on. */
  lemma EnvoiAccorde(rn: string, m: Monde, r: Rangee, issue: Issue, m': Monde, majEcrite: bool)
    requires Inv(rn, m) && !Scellee(m) && Tentative(rn, r.uid, m.vue, m'.vue, r.totaux, issue)
    requires m'.rangee == if issue.Arretee? || !majEcrite then r else MiseAJour(r, issue)
    ensures AccordDuRisque(rn, m')
  {
    hide NombreDemandes, SansConfirmation, ConfirmeSeulement, Accord, EcartsDe, Conversation;
    if !issue.Arretee? {
      TotauxGardes(r, issue);
    }
  }

  /** An attempt that is not sent changes no demand, and the totals of the row only by recomputing them. */
  lemma SansEnvoi(rn: string, recalcul: Option<TotauxFacture>, a: Alea, m: Monde, issue: Issue, m': Monde)
    requires TenterPossible(rn, recalcul, a, m, issue, m') && !Envoie(a, m)
    ensures m'.vue == m.vue
    ensures m'.rangee.totaux == if !Close(m.rangee) && a.recalculEcrit then Recalculee(m.rangee, recalcul).totaux else m.rangee.totaux
  {
    hide Tentative, MiseAJour;
    var r := if a.recalculEcrit then Recalculee(m.rangee, recalcul) else m.rangee;
    if !issue.Arretee? {
      TotauxGardes(r, issue);
    }
  }

  lemma TempsAccordSsi(rn: string, m: Monde, m': Monde)
    requires Inv(rn, m) && AccordDuRisque(rn, m) && PasPossible(rn, None, m, Temps, m')
    ensures AccordDuRisque(rn, m')
  {
    hide Accord;
    ARisqueEvolue(rn, m.vue.serveur, m'.vue.serveur, m.vue.serveur.enVol);
  }

  /** A step keeps the agreement exactly when it meets the guard. */
  lemma PasAccordSsi(rn: string, recalcul: Option<TotauxFacture>, m: Monde, p: Pas, m': Monde)
    requires Inv(rn, m) && AccordDuRisque(rn, m) && PasPossible(rn, recalcul, m, p, m') && Hypotheses(rn, p, m, m')
    ensures AccordDuRisque(rn, m') <==> GardeRecalcul(recalcul, p, m)
  {
    hide Accord, Tentative, MiseAJour, MemesMontants;
    match p
    case Temps => TempsAccordSsi(rn, m, m');
    case Prise(_) =>
    case Tenter(a, issue) =>
      var r := if a.recalculEcrit then Recalculee(m.rangee, recalcul) else m.rangee;
      if Envoie(a, m) {
        EnvoiAccorde(rn, m, r, issue, m', a.majEcrite);
      } else {
        SansEnvoi(rn, recalcul, a, m, issue, m');
        if RecalculeConfirmee(recalcul, p, m) {
          var u := ConfirmationDuJournal(m.vue.journal).value;
          assert u in ARisque(rn, m.vue.serveur);
          AccordSsi(m.rangee.totaux, recalcul.value, m.vue.serveur.demandes[u].montants);
        } else if m'.rangee.totaux != m.rangee.totaux {
          assert ARisque(rn, m.vue.serveur) == {};
        }
      }
  }

  /** Over any run, the amounts at risk agree with the row up to a point exactly when every step before it met the guard. */
  lemma {:induction false} AccordSurExecutionSsi(rn: string, recalcul: Option<TotauxFacture>, ms: seq<Monde>, ps: seq<Pas>, n: nat)
    requires Execution(rn, recalcul, ms, ps) && n < |ms|
    requires forall i :: 0 <= i < n ==> Hypotheses(rn, ps[i], ms[i], ms[i + 1])
    ensures (forall m :: 0 <= m <= n ==> AccordDuRisque(rn, ms[m])) <==> (forall m :: 0 <= m < n ==> GardeRecalcul(recalcul, ps[m], ms[m]))
  {
    hide Hypotheses, PasPossible, Inv, AccordDuRisque, GardeRecalcul;
    if n == 0 {
      DepartAccorde(rn, ms[0]);
    } else {
      AccordSurExecutionSsi(rn, recalcul, ms, ps, n - 1);
      ExecutionConserveInv(rn, recalcul, ms, ps, n - 1);
      if AccordDuRisque(rn, ms[n - 1]) {
        PasAccordSsi(rn, recalcul, ms[n - 1], ps[n - 1], ms[n]);
      }
    }
  }

  lemma DepartAccorde(rn: string, m: Monde)
    requires Depart(rn, m)
    ensures Inv(rn, m) && AccordDuRisque(rn, m)
  {
  }

  /**
   A confirmed row designates a demand that the server finalised under our number, and whose sixteen groups and
   totals equal those of the row to the cent.
   */
  lemma ConfirmeeEtConcordante(rn: string, recalcul: Option<TotauxFacture>, ms: seq<Monde>, ps: seq<Pas>, n: nat)
    requires Execution(rn, recalcul, ms, ps) && n < |ms| && ms[n].rangee.statut == Confirmed
    requires forall i :: 0 <= i < n ==> Hypotheses(rn, ps[i], ms[i], ms[i + 1]) && GardeRecalcul(recalcul, ps[i], ms[i])
    ensures ms[n].rangee.uid.Some?
    ensures var s, u := ms[n].vue.serveur, ms[n].rangee.uid.value;
            u in s.finalisees && Notre(rn, s, u) && Accord(ms[n].rangee.totaux, s.demandes[u].montants)
  {
    hide Hypotheses, GardeRecalcul, PasPossible, Accord;
    AccordSurExecutionSsi(rn, recalcul, ms, ps, n);
    ExecutionConserveInv(rn, recalcul, ms, ps, n);
    assert ms[n].rangee.uid.value in ARisque(rn, ms[n].vue.serveur);
  }

  // When every recomputation is written, the guard is met: an attempt is never made on totals that are out of date.

  ghost predicate AJour(rn: string, recalcul: Option<TotauxFacture>, m: Monde) {
    m.rangee.code == ECART && ARisque(rn, m.vue.serveur) != {} && recalcul.Some? ==> m.rangee.totaux == recalcul.value
  }

  lemma EnvoiAJour(rn: string, recalcul: Option<TotauxFacture>, m: Monde, r: Rangee, issue: Issue, m': Monde, majEcrite: bool)
    requires Inv(rn, m) && !Scellee(m) && r == Recalculee(m.rangee, recalcul) && Tentative(rn, r.uid, m.vue, m'.vue, r.totaux, issue)
    requires m'.rangee == if issue.Arretee? || !majEcrite then r else MiseAJour(r, issue)
    requires RefusDefinitif(rn, Tenter(SEREIN, issue), m, m')
    ensures AJour(rn, recalcul, m')
  {
    hide NombreDemandes, SansConfirmation, ConfirmeSeulement, Accord, EcartsDe, Conversation;
  }

  lemma PasAJour(rn: string, recalcul: Option<TotauxFacture>, m: Monde, p: Pas, m': Monde)
    requires Inv(rn, m) && AJour(rn, recalcul, m) && PasPossible(rn, recalcul, m, p, m') && Hypotheses(rn, p, m, m') && RecalculEcrit(p)
    ensures AJour(rn, recalcul, m') && GardeRecalcul(recalcul, p, m)
  {
    hide Tentative, MiseAJour;
    match p
    case Temps => ARisqueEvolue(rn, m.vue.serveur, m'.vue.serveur, m.vue.serveur.enVol);
    case Prise(_) =>
    case Tenter(a, issue) =>
      var r := Recalculee(m.rangee, recalcul);
      if RecalculeConfirmee(recalcul, p, m) {
        assert ConfirmationDuJournal(m.vue.journal).value in ARisque(rn, m.vue.serveur);
      }
      if Envoie(a, m) {
        EnvoiAJour(rn, recalcul, m, r, issue, m', a.majEcrite);
      } else {
        SansEnvoi(rn, recalcul, a, m, issue, m');
        if issue.Refusee? {
          RefusSansEnvoi(r, issue);
        }
      }
  }

  lemma {:induction false} RecalculEcritSuffit(rn: string, recalcul: Option<TotauxFacture>, ms: seq<Monde>, ps: seq<Pas>, n: nat)
    requires Execution(rn, recalcul, ms, ps) && n < |ms|
    requires forall i :: 0 <= i < n ==> Hypotheses(rn, ps[i], ms[i], ms[i + 1]) && RecalculEcrit(ps[i])
    ensures AJour(rn, recalcul, ms[n]) && forall i :: 0 <= i < n ==> GardeRecalcul(recalcul, ps[i], ms[i])
  {
    hide Hypotheses, PasPossible, Inv, GardeRecalcul, RecalculEcrit;
    if n > 0 {
      RecalculEcritSuffit(rn, recalcul, ms, ps, n - 1);
      ExecutionConserveInv(rn, recalcul, ms, ps, n - 1);
      PasAJour(rn, recalcul, ms[n - 1], ps[n - 1], ms[n]);
    }
  }

  // ------------------------------------------------------------------ the hypotheses are needed

  const SUCCES := Elements("C", "Q")

  /** The demand of the last attempt, if any, is no longer there; a new one, u, is received with the amounts mt. */
  function DebutEnvois(uidEnAttente: Option<Uid>, u: Uid, mt: Montants): seq<Envoi> {
    (match uidEnAttente case Some(x) => [EnvoiDetails(x, Err(ErreurEmcf(Http, "")))] case None => [])
    + [EnvoiDemande(Ok(ReponseDemande(Some(u), mt)))]
  }

  lemma DebutObtenu(rn: string, uidEnAttente: Option<Uid>, u: Uid, mt: Montants)
    ensures var es := DebutEnvois(uidEnAttente, u, mt);
            Obtention(rn, uidEnAttente, es, Ok(DemandeRecue(u, mt))) && SansConfirmation(es) && NombreDemandes(es) <= 1
  {
    var e := EnvoiDemande(Ok(ReponseDemande(Some(u), mt)));
    UnEnvoi(e);
    assert [] + [e] == [e];
    if uidEnAttente.Some? {
      var f := EnvoiDetails(uidEnAttente.value, Err(ErreurEmcf(Http, "")));
      UnEnvoi(f);
      NombreDemandesConcat([f], [e]);
      assert ([f] + [e])[1..] == [e];
    }
  }

  /** A new demand u is received with the amounts mt and finalised by a CONFIRM answered r; e is what the journal keeps of it. */
  function Finalisee(v: Vue, rn: string, uidEnAttente: Option<Uid>, u: Uid, mt: Montants, r: Result<Elements, ErreurEmcf>, e: seq<Echange>): Vue {
    Vue(Serveur(v.serveur.demandes[u := Demande(rn, mt)], {}, v.serveur.finalisees + {u}, v.serveur.enVol),
        v.journal + e, v.envois + (DebutEnvois(uidEnAttente, u, mt) + Confirmations(DemandeRecue(u, mt), [r])))
  }

  const REFUS := ErreurEmcf(Reponse, "")

  lemma FinaliseePossible(v: Vue, rn: string, uidEnAttente: Option<Uid>, u: Uid, nos: TotauxFacture, mt: Montants,
                          r: Result<Elements, ErreurEmcf>, e: seq<Echange>)
    requires Coherent(v.serveur) && u !in v.serveur.demandes && Accord(nos, mt)
    requires (r == Ok(SUCCES) && (e == [] || e == [Echange(u, true, Some(SUCCES))])) || (r == Err(REFUS) && e == [Echange(u, true, None)])
    ensures Tentative(rn, uidEnAttente, v, Finalisee(v, rn, uidEnAttente, u, mt, r, e), nos,
                      if r.Ok? then Confirmee(u, mt, SUCCES) else Refusee(REFUS, Some(u)))
  {
    hide Accord, NombreDemandes, Conversation, DebutEnvois, Suite, Connue, ARisque, ConfirmationDuJournal, ConfirmeSeulement, Confirmations;
    var w, d, debut := Finalisee(v, rn, uidEnAttente, u, mt, r, e), DemandeRecue(u, mt), DebutEnvois(uidEnAttente, u, mt);
    var es := w.envois[|v.envois|..];
    ServeurFinalise(v, rn, uidEnAttente, u, mt, r, e);
    JournalDeLEnvoi(v.journal, u, e);
    EnvoisFinalises(v, rn, uidEnAttente, u, nos, mt, r, e);
    assert ConfirmeSeulement(es, d, [r]);
  }

  lemma ServeurFinalise(v: Vue, rn: string, uidEnAttente: Option<Uid>, u: Uid, mt: Montants, r: Result<Elements, ErreurEmcf>, e: seq<Echange>)
    requires Coherent(v.serveur) && u !in v.serveur.demandes
    ensures var w := Finalisee(v, rn, uidEnAttente, u, mt, r, e);
            && Suite(v.serveur, w.serveur) && Connue(rn, w.serveur, DemandeRecue(u, mt)) && u in w.serveur.finalisees
            && ARisque(rn, w.serveur) <= ARisque(rn, v.serveur) + {u}
  {
    hide DebutEnvois, Confirmations;
  }

  lemma JournalDeLEnvoi(j: seq<Echange>, u: Uid, e: seq<Echange>)
    requires e == [] || e == [Echange(u, true, Some(SUCCES))] || e == [Echange(u, true, None)]
    ensures ConfirmationDuJournal(j) == None ==>
              ConfirmationDuJournal(j + e) == if e == [Echange(u, true, Some(SUCCES))] then Some(u) else None
  {
    if e == [] {
      assert j + e == j;
    } else {
      assert (j + e)[|j + e| - 1] == e[0] && (j + e)[..|j + e| - 1] == j;
    }
  }

  lemma EnvoisFinalises(v: Vue, rn: string, uidEnAttente: Option<Uid>, u: Uid, nos: TotauxFacture, mt: Montants,
                        r: Result<Elements, ErreurEmcf>, e: seq<Echange>)
    requires Accord(nos, mt) && (r == Ok(SUCCES) || r == Err(REFUS))
    ensures var w, d := Finalisee(v, rn, uidEnAttente, u, mt, r, e), DemandeRecue(u, mt);
            var es := w.envois[|v.envois|..];
            && v.envois <= w.envois && ConfirmeSeulement(es, d, [r]) && NombreDemandes(es) <= 1 && UneSeule(es)
            && Conversation(rn, uidEnAttente, nos, es, if r.Ok? then Confirmee(u, mt, SUCCES) else Refusee(REFUS, Some(u)))
  {
    hide Accord, Obtention, NombreDemandes, Conversation, DebutEnvois, ConfirmeSeulement, UneSeule, SansConfirmation, Confirmations;
    var w, d, debut := Finalisee(v, rn, uidEnAttente, u, mt, r, e), DemandeRecue(u, mt), DebutEnvois(uidEnAttente, u, mt);
    DebutObtenu(rn, uidEnAttente, u, mt);
    EnvoisJusquAuConfirm(rn, uidEnAttente, nos, debut, d, r, if r.Ok? then Confirmee(u, mt, SUCCES) else Refusee(REFUS, Some(u)));
    assert w.envois[|v.envois|..] == debut + Confirmations(d, [r]);
  }

  lemma EnvoisJusquAuConfirm(rn: string, uidEnAttente: Option<Uid>, nos: TotauxFacture, debut: seq<Envoi>, d: DemandeRecue,
                             r: Result<Elements, ErreurEmcf>, issue: Issue)
    requires Obtention(rn, uidEnAttente, debut, Ok(d)) && SansConfirmation(debut) && NombreDemandes(debut) <= 1
    requires Accord(nos, d.montants) && IssueDesReponses(d, [r], issue)
    ensures var es := debut + Confirmations(d, [r]);
            && ConfirmeSeulement(es, d, [r]) && NombreDemandes(es) <= 1 && UneSeule(es)
            && Conversation(rn, uidEnAttente, nos, es, issue)
  {
    hide Accord, Obtention, NombreDemandes, Conversation, SuiteDeLaDemande, IssueDesReponses, ConfirmeSeulement, UneSeule, SansConfirmation,
         Confirmations;
    var es := debut + Confirmations(d, [r]);
    assert debut[0..] == debut && es[0..] == es;
    EnvoisConfirmes([], debut, es, d, [r]);
    DemandeConfirmee(nos, d, [r], issue);
    ConversationEnDeux(rn, uidEnAttente, nos, es, |debut|, Ok(d), issue);
  }

  function Journalise(u: Uid, journalise: bool): seq<Echange> {
    if journalise then [Echange(u, true, Some(SUCCES))] else []
  }

  function ApresEnvoi(rn: string, recalcul: Option<TotauxFacture>, a: Alea, m: Monde, u: Uid, mt: Montants, journalise: bool): Monde {
    var r := if a.recalculEcrit then Recalculee(m.rangee, recalcul) else m.rangee;
    Monde(Finalisee(m.vue, rn, r.uid, u, mt, Ok(SUCCES), Journalise(u, journalise)),
          if a.majEcrite then MiseAJour(r, Confirmee(u, mt, SUCCES)) else r)
  }

  /** An attempt that is sent may find a server that agrees, and be confirmed. */
  lemma EnvoiPossible(rn: string, recalcul: Option<TotauxFacture>, a: Alea, m: Monde, u: Uid, mt: Montants, journalise: bool)
    requires Coherent(m.vue.serveur) && Envoie(a, m) && u !in m.vue.serveur.demandes
    requires Accord((if a.recalculEcrit then Recalculee(m.rangee, recalcul) else m.rangee).totaux, mt)
    ensures TenterPossible(rn, recalcul, a, m, Confirmee(u, mt, SUCCES), ApresEnvoi(rn, recalcul, a, m, u, mt, journalise))
  {
    hide Accord, Tentative, MiseAJour;
    var r := if a.recalculEcrit then Recalculee(m.rangee, recalcul) else m.rangee;
    FinaliseePossible(m.vue, rn, r.uid, u, r.totaux, mt, Ok(SUCCES), Journalise(u, journalise));
  }

  const SEREIN := Alea(true, true, true, true, true)

  /** A first attempt leads from m to m'; the next one is sent and finalises w. */
  lemma SuiviDUnEnvoi(rn: string, recalcul: Option<TotauxFacture>, m: Monde, p: Pas, m': Monde, a: Alea, mt: Montants, u: Uid, w: Uid)
    returns (ms: seq<Monde>, ps: seq<Pas>)
    requires Depart(rn, m) && PasPossible(rn, recalcul, m, p, m')
    requires Coherent(m'.vue.serveur) && Envoie(a, m') && w !in m'.vue.serveur.demandes && u in m'.vue.serveur.finalisees && Notre(rn, m'.vue.serveur, u)
    requires Accord((if a.recalculEcrit then Recalculee(m'.rangee, recalcul) else m'.rangee).totaux, mt)
    ensures ms == [m, m', ApresEnvoi(rn, recalcul, a, m', w, mt, true)] && ps == [p, Tenter(a, Confirmee(w, mt, SUCCES))]
    ensures Execution(rn, recalcul, ms, ps) && Deux(rn, ms[2].vue.serveur, u, w)
  {
    hide Accord, Tentative, MiseAJour;
    EnvoiPossible(rn, recalcul, a, m', w, mt, true);
    var m'' := ApresEnvoi(rn, recalcul, a, m', w, mt, true);
    assert PasPossible(rn, recalcul, m', Tenter(a, Confirmee(w, mt, SUCCES)), m'');
    ms, ps := [m, m', m''], [p, Tenter(a, Confirmee(w, mt, SUCCES))];
  }

  /** From any start: the recovered confirmation is not written, and the invoice is sent again and finalised twice. */
  lemma RepriseNonEcrite(rn: string, recalcul: Option<TotauxFacture>, m: Monde, u: Uid, w: Uid) returns (ms: seq<Monde>, ps: seq<Pas>)
    requires Depart(rn, m) && u !in m.vue.serveur.demandes && w !in m.vue.serveur.demandes && u != w
    ensures Execution(rn, recalcul, ms, ps) && ms[0] == m && Deux(rn, ms[|ps|].vue.serveur, u, w)
    ensures forall i :: 0 <= i < |ps| ==> ArretTolere(rn, ps[i], ms[i], ms[i + 1]) && RefusDefinitif(rn, ps[i], ms[i], ms[i + 1]) && RecalculEcrit(ps[i])
  {
    hide Accord, Tentative, Execution;
    var mt, a := MontantsDe(m.rangee.totaux), SEREIN.(majEcrite := false);
    AccordPossible(m.rangee.totaux);
    EnvoiPossible(rn, recalcul, a, m, u, mt, true);
    var m' := ApresEnvoi(rn, recalcul, a, m, u, mt, true);
    ms, ps := SuiviDUnEnvoi(rn, recalcul, m, Tenter(a, Confirmee(u, mt, SUCCES)), m', SEREIN.(repriseEcrite := false), mt, u, w);
  }

  /** From any start: a confirmation that reaches neither the journal nor the row is lost, and the invoice is sent again. */
  lemma ConfirmationPerdue(rn: string, recalcul: Option<TotauxFacture>, m: Monde, u: Uid, w: Uid) returns (ms: seq<Monde>, ps: seq<Pas>)
    requires Depart(rn, m) && u !in m.vue.serveur.demandes && w !in m.vue.serveur.demandes && u != w
    ensures Execution(rn, recalcul, ms, ps) && ms[0] == m && Deux(rn, ms[|ps|].vue.serveur, u, w)
    ensures forall i :: 0 <= i < |ps| ==> RepriseEcrite(ps[i], ms[i]) && RefusDefinitif(rn, ps[i], ms[i], ms[i + 1]) && RecalculEcrit(ps[i])
  {
    hide Accord, Tentative, Execution;
    var mt, a := MontantsDe(m.rangee.totaux), SEREIN.(majEcrite := false);
    AccordPossible(m.rangee.totaux);
    EnvoiPossible(rn, recalcul, a, m, u, mt, false);
    var m' := ApresEnvoi(rn, recalcul, a, m, u, mt, false);
    ms, ps := SuiviDUnEnvoi(rn, recalcul, m, Tenter(a, Confirmee(u, mt, SUCCES)), m', SEREIN, mt, u, w);
  }

  /**
   From any start: the demand is finalised but its CONFIRM is answered by an error (a 200 whose body cannot be read,
   say); the invoice counts as refused, and the next attempt finalises another demand.
   */
  lemma RefusTrompeur(rn: string, recalcul: Option<TotauxFacture>, m: Monde, u: Uid, w: Uid) returns (ms: seq<Monde>, ps: seq<Pas>)
    requires Depart(rn, m) && u !in m.vue.serveur.demandes && w !in m.vue.serveur.demandes && u != w
    ensures Execution(rn, recalcul, ms, ps) && ms[0] == m && Deux(rn, ms[|ps|].vue.serveur, u, w)
    ensures forall i :: 0 <= i < |ps| ==> ArretTolere(rn, ps[i], ms[i], ms[i + 1]) && RepriseEcrite(ps[i], ms[i]) && RecalculEcrit(ps[i])
  {
    hide Accord, Tentative, Execution;
    var mt, issue := MontantsDe(m.rangee.totaux), Refusee(REFUS, Some(u));
    var e := [Echange(u, true, None)];
    AccordPossible(m.rangee.totaux);
    FinaliseePossible(m.vue, rn, None, u, m.rangee.totaux, mt, Err(REFUS), e);
    var m' := Monde(Finalisee(m.vue, rn, None, u, mt, Err(REFUS), e), MiseAJour(m.rangee, issue));
    assert m'.rangee == Rangee(Failed, "REPONSE", Some(u), m.rangee.totaux, m.rangee.essais + 1);
    ms, ps := SuiviDUnEnvoi(rn, recalcul, m, Tenter(SEREIN, issue), m', SEREIN, mt, u, w);
  }

  /** A new demand x disagrees with the row and is cancelled. */
  function Annulee(v: Vue, rn: string, uidEnAttente: Option<Uid>, x: Uid, mt: Montants): Vue {
    Vue(Serveur(v.serveur.demandes[x := Demande(rn, mt)], {}, v.serveur.finalisees, v.serveur.enVol),
        v.journal, v.envois + (DebutEnvois(uidEnAttente, x, mt) + [EnvoiAnnulation(x)]))
  }

  lemma AnnuleePossible(v: Vue, rn: string, uidEnAttente: Option<Uid>, x: Uid, nos: TotauxFacture, mt: Montants)
    requires Coherent(v.serveur) && x !in v.serveur.demandes && !Accord(nos, mt)
    ensures Tentative(rn, uidEnAttente, v, Annulee(v, rn, uidEnAttente, x, mt), nos, EcartConstate(x, EcartsDe(nos, mt, Champs()), mt))
  {
    hide Accord, Obtention, NombreDemandes, Conversation, DebutEnvois;
    AucunEcartSsiAccord(nos, mt);
    var debut, issue := DebutEnvois(uidEnAttente, x, mt), EcartConstate(x, EcartsDe(nos, mt, Champs()), mt);
    var es := Annulee(v, rn, uidEnAttente, x, mt).envois[|v.envois|..];
    DebutObtenu(rn, uidEnAttente, x, mt);
    assert es == debut + [EnvoiAnnulation(x)];
    assert es[..|debut|] == debut && es[|debut|..] == [EnvoiAnnulation(x)];
    UnEnvoi(EnvoiAnnulation(x));
    NombreDemandesConcat(debut, [EnvoiAnnulation(x)]);
    ConversationEnDeux(rn, uidEnAttente, nos, es, |debut|, Ok(DemandeRecue(x, mt)), issue);
  }

  lemma TotalDifferent(nos: TotauxFacture, autres: TotauxFacture)
    requires nos.total != autres.total
    ensures !Accord(nos, MontantsDe(autres))
  {
    AccordPossible(autres);
    assert Concorde(autres, MontantsDe(autres), Champ.Total);
    assert !Concorde(nos, MontantsDe(autres), Champ.Total);
  }

  /**
   From any start: after a disagreement, an attempt is confirmed on the old totals because the recomputed ones could not
   be written, its row update is lost, and the next attempt recomputes before it recovers: the confirmed row then shows
   totals that are not those of the finalised demand, although every other hypothesis holds.
   */
  lemma RecalculPerdu(rn: string, totaux: TotauxFacture, m: Monde, x: Uid, u: Uid) returns (ms: seq<Monde>, ps: seq<Pas>)
    requires Depart(rn, m) && x !in m.vue.serveur.demandes && u !in m.vue.serveur.demandes && u != x
    requires totaux.total != m.rangee.totaux.total
    ensures Execution(rn, Some(totaux), ms, ps) && ms[0] == m
    ensures forall i :: 0 <= i < |ps| ==> Hypotheses(rn, ps[i], ms[i], ms[i + 1])
    ensures var f := ms[|ps|];
            && f.rangee.statut == Confirmed && f.rangee.uid == Some(u) && u in f.vue.serveur.demandes
            && !Accord(f.rangee.totaux, f.vue.serveur.demandes[u].montants)
  {
    hide Accord, Hypotheses, PasPossible, Depart, MontantsDe, Recalculee;
    TotalDifferent(m.rangee.totaux, totaux);
    TotalDifferent(totaux, m.rangee.totaux);
    AccordPossible(m.rangee.totaux);
    var m1, p1 := ApresEcart(rn, m, x, MontantsDe(totaux));
    var m2, p2 := EnvoiPerdu(rn, Some(totaux), m1, u, MontantsDe(m.rangee.totaux));
    var m3, p3 := RepriseApresRecalcul(rn, totaux, m2, u);
    ms, ps := [m, m1, m2, m3], [p1, p2, p3];
  }

  /** The first attempt disagrees with the DGI. */
  lemma ApresEcart(rn: string, m: Monde, x: Uid, mt: Montants) returns (m': Monde, p: Pas)
    requires Depart(rn, m) && x !in m.vue.serveur.demandes && !Accord(m.rangee.totaux, mt)
    ensures forall recalcul :: PasPossible(rn, recalcul, m, p, m')
    ensures Hypotheses(rn, p, m, m') && Coherent(m'.vue.serveur) && m'.vue.journal == []
    ensures m' == Monde(Annulee(m.vue, rn, None, x, mt), m.rangee.(statut := Failed, code := ECART, essais := m.rangee.essais + 1))
  {
    hide Accord, Tentative;
    var ecart := EcartConstate(x, EcartsDe(m.rangee.totaux, mt, Champs()), mt);
    AnnuleePossible(m.vue, rn, None, x, m.rangee.totaux, mt);
    m', p := Monde(Annulee(m.vue, rn, None, x, mt), MiseAJour(m.rangee, ecart)), Tenter(SEREIN, ecart);
  }

  /** An attempt is confirmed and journaled, but neither the recomputation before it nor the row after it is written. */
  lemma EnvoiPerdu(rn: string, recalcul: Option<TotauxFacture>, m: Monde, u: Uid, mt: Montants) returns (m': Monde, p: Pas)
    requires Coherent(m.vue.serveur) && !Close(m.rangee) && m.rangee.code != A_VERIFIER && m.vue.journal == []
    requires u !in m.vue.serveur.demandes && Accord(m.rangee.totaux, mt)
    ensures PasPossible(rn, recalcul, m, p, m') && Hypotheses(rn, p, m, m')
    ensures m' == Monde(Finalisee(m.vue, rn, m.rangee.uid, u, mt, Ok(SUCCES), Journalise(u, true)), m.rangee)
    ensures ConfirmationDuJournal(m'.vue.journal) == Some(u)
  {
    hide Accord, Tentative;
    var a := SEREIN.(recalculEcrit := false, majEcrite := false);
    EnvoiPossible(rn, recalcul, a, m, u, mt, true);
    m', p := ApresEnvoi(rn, recalcul, a, m, u, mt, true), Tenter(a, Confirmee(u, mt, SUCCES));
    assert ConfirmationDuJournal(m'.vue.journal) == Some(u);
  }

  /** The next attempt recomputes, then recovers the confirmation. */
  lemma RepriseApresRecalcul(rn: string, totaux: TotauxFacture, m: Monde, u: Uid) returns (m': Monde, p: Pas)
    requires !Close(m.rangee) && m.rangee.code == ECART && ConfirmationDuJournal(m.vue.journal) == Some(u)
    ensures PasPossible(rn, Some(totaux), m, p, m') && Hypotheses(rn, p, m, m')
    ensures m'.vue == m.vue && m'.rangee.statut == Confirmed && m'.rangee.uid == Some(u) && m'.rangee.totaux == totaux
  {
    hide Tentative;
    m', p := Monde(m.vue, ReprendreDuJournal(Recalculee(m.rangee, Some(totaux)), u)), Tenter(SEREIN, Arretee);
  }

  // ------------------------------------------------------------------ the stored invoice

  /** totauxDesLignesEnregistrees: nothing when the stored lines cannot be used. */
  ghost function TotauxEnregistres(lignes: seq<Ligne>, mode: ModePrix): Option<TotauxFacture> {
    if lignes != [] && LignesValides(lignes) && TotauxAttendus(Postes(lignes), mode, Taux2026).total > 0
    then Some(TotauxAttendus(Postes(lignes), mode, Taux2026)) else None
  }

  /** What the outside world decides between two reads of the row. */
  datatype Choix = Attendre | Reprendre(bloquee: bool) | Essayer(alea: Alea)

  class Facture {
    const client: EmcfClient
    const lignes: seq<Ligne>
    const mode: ModePrix
    var rangee: Rangee

    constructor (rn: string, serveur: Serveur, lignes: seq<Ligne>, mode: ModePrix, totaux: TotauxFacture)
      requires Coherent(serveur) && ARisque(rn, serveur) == {}
      ensures fresh(client) && client.rn == rn && client.serveur == serveur
      ensures rangee.totaux == totaux && this.lignes == lignes && this.mode == mode
      ensures Depart(rn, Etat())
    {
      client := new EmcfClient(rn, serveur);
      this.lignes, this.mode := lignes, mode;
      rangee := Rangee(Pending, "", None, totaux, 0);
    }

    ghost function Etat(): Monde
      reads this, client
    {
      Monde(client.Etat(), rangee)
    }

    ghost function Recalcul(): Option<TotauxFacture> {
      TotauxEnregistres(lignes, mode)
    }

    method RecalculerSiEcart(ecrit: bool)
      modifies this
      ensures rangee == if ecrit then Recalculee(old(rangee), Recalcul()) else old(rangee)
    {
      if rangee.code != ECART {
        return;
      }
      var totaux := CalculerTotaux(lignes, mode, Taux2026);
      if totaux.Err? || totaux.value == rangee.totaux || !ecrit {
        return;
      }
      rangee := rangee.(totaux := totaux.value);
    }

    /** One attempt, at the first emission or later. */
    method Tenter(a: Alea) returns (issue: Issue)
      requires Coherent(client.serveur)
      modifies this, client
      ensures TenterPossible(client.rn, Recalcul(), a, old(Etat()), issue, Etat())
    {
      hide Tentative, ConfirmationDuJournal, MiseAJour, Recalculee, TotauxEnregistres;
      if rangee.statut == Confirmed || rangee.statut == Abandoned {
        return Arretee;
      }
      RecalculerSiEcart(a.recalculEcrit);
      if rangee.code == A_VERIFIER || !a.profilActif {
        return Arretee;
      }
      var deja := ConfirmationDuJournal(client.journal);
      if deja.Some? && a.repriseEcrite {
        rangee := ReprendreDuJournal(rangee, deja.value);
        return Arretee;
      }
      if a.jetonLisible {
        issue := Normaliser(client, rangee.totaux, rangee.uid);
      } else {
        issue := Refusee(ErreurEmcf(Jeton, ""), None);
      }
      if a.majEcrite && !issue.Arretee? {
        rangee := MiseAJour(rangee, issue);
      }
    }

    /** The retry job takes a provisional row, or one left pending for too long. */
    method Prendre(bloquee: bool)
      modifies this
      ensures PasPossible(client.rn, Recalcul(), old(Etat()), Pas.Prise(bloquee), Etat())
    {
      if rangee.statut == Provisional || (rangee.statut == Pending && bloquee) {
        rangee := rangee.(statut := Pending);
      }
    }

    /** Whatever is decided outside, what happens to the invoice is a run of the system. */
    method Vivre(choix: seq<Choix>) returns (ghost ms: seq<Monde>, ghost ps: seq<Pas>)
      requires Depart(client.rn, Etat())
      modifies this, client
      ensures Execution(client.rn, Recalcul(), ms, ps) && |ps| == |choix|
      ensures ms[0] == old(Etat()) && ms[|ps|] == Etat()
    {
      hide TenterPossible, Evolue, ARisque, TotauxEnregistres;
      ms, ps := [Etat()], [];
      for i := 0 to |choix|
        invariant |ps| == i && |ms| == i + 1 && ms[0] == old(Etat()) && ms[i] == Etat()
        invariant Coherent(client.serveur)
        invariant Execution(client.rn, Recalcul(), ms, ps)
      {
        ghost var p: Pas;
        match choix[i] {
          case Attendre =>
            client.Attendre();
            p := Temps;
          case Reprendre(bloquee) =>
            Prendre(bloquee);
            p := Prise(bloquee);
          case Essayer(a) =>
            var issue := Tenter(a);
            p := Pas.Tenter(a, issue);
        }
        PasCoherent(client.rn, Recalcul(), ms[i], p, Etat());
        ms, ps := ms + [Etat()], ps + [p];
      }
    }
  }

  lemma PasCoherent(rn: string, recalcul: Option<TotauxFacture>, m: Monde, p: Pas, m': Monde)
    requires Coherent(m.vue.serveur) && PasPossible(rn, recalcul, m, p, m')
    ensures Coherent(m'.vue.serveur)
  {
    hide NombreDemandes, SansConfirmation, ConfirmeSeulement, Accord, EcartsDe, ARisque;
  }
}
