/** One normalisation attempt (normalisation.ts): demand, comparison, confirmation. */
module Normalisation {
  import opened Wrappers
  import opened Calcul
  import opened Requete
  import opened Emcf

  /** The demand that the attempt works on. */
  datatype DemandeRecue = DemandeRecue(uid: Uid, montants: Montants)

  /** Arretee: the process stopped before any CONFIRM was sent; it is not an outcome of the source. */
  datatype Issue =
    | Confirmee(uid: Uid, montantsDgi: Montants, elements: Elements)
    | Refusee(erreur: ErreurEmcf, uidRefuse: Option<Uid>)
    | EcartConstate(uid: Uid, ecarts: seq<Ecart>, montantsDgi: Montants)
    | Injoignable(erreur: ErreurEmcf)
    | AVerifier(uid: Uid, montantsDgi: Montants, erreur: ErreurEmcf)
    | Arretee

  const CODE_DOUBLON_EN_ATTENTE := "63"

  /** The demand is known to the server under our number, with these amounts. */
  predicate Connue(rn: string, s: Serveur, d: DemandeRecue) {
    d.uid in s.demandes && s.demandes[d.uid] == Demande(rn, d.montants)
  }

  // ------------------------------------------------------------------ what an attempt may send

  function NombreDemandes(es: seq<Envoi>): nat {
    if es == [] then 0 else NombreDemandes(es[..|es| - 1]) + if es[|es| - 1].EnvoiDemande? then 1 else 0
  }

  lemma {:induction false} NombreDemandesConcat(a: seq<Envoi>, b: seq<Envoi>)
    ensures NombreDemandes(a + b) == NombreDemandes(a) + NombreDemandes(b)
  {
    if b == [] {
      assert a + b == a;
    } else {
      assert (a + b)[..|a + b| - 1] == a + b[..|b| - 1];
      NombreDemandesConcat(a, b[..|b| - 1]);
    }
  }

  lemma UnEnvoi(e: Envoi)
    ensures NombreDemandes([e]) == if e.EnvoiDemande? then 1 else 0
  {
    assert [e][..0] == [];
  }

  ghost predicate SansConfirmation(es: seq<Envoi>) {
    forall i :: 0 <= i < |es| ==> !es[i].EnvoiConfirmation?
  }

  /** The same CONFIRM, once for each of the answers rs. */
  function Confirmations(d: DemandeRecue, rs: seq<Result<Elements, ErreurEmcf>>): (es: seq<Envoi>)
    ensures |es| == |rs|
  {
    seq(|rs|, i requires 0 <= i < |rs| => EnvoiConfirmation(d.uid, MontantsDeConfirmation(d.montants), rs[i]))
  }

  // ------------------------------------------------------------------ what the answers call for

  /** A demand with our number is already pending. */
  predicate Doublon(e: ErreurEmcf) {
    e.genre == Refus && e.code == CODE_DOUBLON_EN_ATTENTE
  }

  /** The details answered are those of a demand of ours. */
  predicate Repond(rn: string, e: Envoi) {
    e.EnvoiDetails? && e.details.Ok? && e.details.value.rn == rn
  }

  function DemandeRelue(e: Envoi): DemandeRecue
    requires e.EnvoiDetails? && e.details.Ok?
  {
    DemandeRecue(e.uid, e.details.value.montants)
  }

  /** The pending demands are listed, then read one by one up to the first that is ours. */
  ghost predicate Recherche(rn: string, es: seq<Envoi>, trouvee: Option<DemandeRecue>) {
    && es != [] && es[0].EnvoiStatut?
    && if es[0].enAttente.Err? then |es| == 1 && trouvee == None else
         var uids, n := es[0].enAttente.value, |es| - 1;
         && n <= |uids| && (forall i :: 1 <= i <= n ==> es[i].EnvoiDetails? && es[i].uid == uids[i - 1])
         && (forall i :: 1 <= i < n ==> !Repond(rn, es[i]))
         && match trouvee
            case None => n == |uids| && (n > 0 ==> !Repond(rn, es[n]))
            case Some(d) => n > 0 && Repond(rn, es[n]) && d == DemandeRelue(es[n])
  }

  /** A new demand: its answer decides, unless it is lost or a demand is pending already, which is then looked for. */
  ghost predicate NouvelleDemande(rn: string, es: seq<Envoi>, r: Result<DemandeRecue, Issue>) {
    && es != [] && es[0].EnvoiDemande?
    && match es[0].reponse
       case Ok(x) =>
         |es| == 1 && r == if x.uid.Some? then Ok(DemandeRecue(x.uid.value, x.montants)) else Err(Refusee(ErreurEmcf(Reponse, ""), None))
       case Err(e) =>
         if e.Incertaine() || Doublon(e) then
           exists trouvee :: Recherche(rn, es[1..], trouvee) &&
             r == if trouvee.Some? then Ok(trouvee.value) else Err(if Doublon(e) then Refusee(e, None) else Injoignable(e))
         else |es| == 1 && r == Err(Refusee(e, None))
  }

  /** The demand of the last attempt is read again first, and kept if it is still ours. */
  ghost predicate Obtention(rn: string, uidEnAttente: Option<Uid>, es: seq<Envoi>, r: Result<DemandeRecue, Issue>) {
    match uidEnAttente
    case None => NouvelleDemande(rn, es, r)
    case Some(uid) =>
      && es != [] && es[0].EnvoiDetails? && es[0].uid == uid
      && if Repond(rn, es[0]) then |es| == 1 && r == Ok(DemandeRelue(es[0])) else NouvelleDemande(rn, es[1..], r)
  }

  /**
   After one CONFIRM, or two when the first answer was lost: success with its elements, a definite refusal of the only
   CONFIRM, or an invoice to be checked, when a success lacks its codes or the second answer is an error.
   */
  ghost predicate IssueDesReponses(d: DemandeRecue, rs: seq<Result<Elements, ErreurEmcf>>, issue: Issue) {
    && (|rs| == 1 || (|rs| == 2 && rs[0].Err? && rs[0].error.Incertaine()))
    && var r := rs[|rs| - 1];
       match issue
       case Confirmee(uid, m, e) => uid == d.uid && m == d.montants && r == Ok(e) && Utilisable(e)
       case Refusee(e, uid) => |rs| == 1 && uid == Some(d.uid) && r == Err(e) && !e.Incertaine()
       case AVerifier(uid, m, e) =>
         uid == d.uid && m == d.montants && ((r.Ok? && !Utilisable(r.value) && e == ErreurEmcf(Reponse, "")) || (|rs| == 2 && r == Err(e)))
       case _ => false
  }

  /** What follows the demand d: cancelled when it disagrees with ours, else confirmed. */
  ghost predicate SuiteDeLaDemande(nos: TotauxFacture, d: DemandeRecue, es: seq<Envoi>, issue: Issue) {
    || (es == [] && issue == Arretee)
    || (!Accord(nos, d.montants) && es == [EnvoiAnnulation(d.uid)] && issue == EcartConstate(d.uid, EcartsDe(nos, d.montants, Champs()), d.montants))
    || (Accord(nos, d.montants) && exists rs :: es == Confirmations(d, rs) && IssueDesReponses(d, rs, issue))
  }

  /** The whole attempt, as its requests and answers tell it. */
  ghost predicate Conversation(rn: string, uidEnAttente: Option<Uid>, nos: TotauxFacture, es: seq<Envoi>, issue: Issue) {
    exists k, r :: 0 <= k <= |es| && Obtention(rn, uidEnAttente, es[..k], r) && SuiteDeLObtention(nos, r, es[k..], issue)
  }

  ghost predicate SuiteDeLObtention(nos: TotauxFacture, r: Result<DemandeRecue, Issue>, es: seq<Envoi>, issue: Issue) {
    if r.Err? then es == [] && issue == r.error else SuiteDeLaDemande(nos, r.value, es, issue)
  }

  // ------------------------------------------------------------------ before CONFIRM

  /**
   From v to w, no CONFIRM was sent and at most n demands were; nothing more is at risk, and the journal of
   CONFIRM exchanges is the same.
   */
  ghost predicate SansRisque(rn: string, v: Vue, w: Vue, n: nat) {
    && Suite(v.serveur, w.serveur)
    && ARisque(rn, w.serveur) <= ARisque(rn, v.serveur)
    && w.journal == v.journal
    && v.envois <= w.envois
    && SansConfirmation(w.envois[|v.envois|..])
    && NombreDemandes(w.envois[|v.envois|..]) <= n
  }

  lemma SansRisqueEnsuite(rn: string, u: Vue, v: Vue, w: Vue, m: nat, n: nat)
    requires SansRisque(rn, u, v, m) && SansRisque(rn, v, w, n)
    ensures SansRisque(rn, u, w, m + n)
  {
    var a, b := v.envois[|u.envois|..], w.envois[|v.envois|..];
    assert w.envois[|u.envois|..] == a + b;
    NombreDemandesConcat(a, b);
  }

  /** One request other than CONFIRM. */
  lemma UnPasSansRisque(rn: string, v: Vue, w: Vue, e: Envoi)
    requires Coherent(v.serveur) && Evolue(rn, v.serveur, w.serveur, v.serveur.enVol)
    requires w.journal == v.journal && w.envois == v.envois + [e] && !e.EnvoiConfirmation?
    ensures SansRisque(rn, v, w, if e.EnvoiDemande? then 1 else 0)
  {
    ARisqueEvolue(rn, v.serveur, w.serveur, v.serveur.enVol);
    assert w.envois[|v.envois|..] == [e];
    UnEnvoi(e);
  }

  /** relireDemande: the details of a demand, when it bears our number. */
  method RelireDemande(client: EmcfClient, uid: Uid) returns (r: Option<DemandeRecue>)
    requires Coherent(client.serveur)
    modifies client
    ensures SansRisque(client.rn, old(client.Etat()), client.Etat(), 0)
    ensures r.Some? ==> r.value.uid == uid && Connue(client.rn, client.serveur, r.value)
    ensures |client.envois| == |old(client.envois)| + 1
    ensures var e := client.envois[|old(client.envois)|];
            && client.envois == old(client.envois) + [e] && e.EnvoiDetails? && e.uid == uid
            && (r.Some? <==> Repond(client.rn, e)) && (r.Some? ==> r.value == DemandeRelue(e))
  {
    var d := client.Details(uid);
    UnPasSansRisque(client.rn, old(client.Etat()), client.Etat(), EnvoiDetails(uid, d));
    if d.Err? || d.value.rn != client.rn {
      return None;
    }
    return Some(DemandeRecue(uid, d.value.montants));
  }

  /** The first i pending demands were read, and none is ours. */
  ghost predicate RechercheVaine(rn: string, uids: seq<Uid>, es: seq<Envoi>, i: nat) {
    && i <= |uids| && |es| == i + 1 && es[0] == EnvoiStatut(Ok(uids))
    && forall k :: 1 <= k <= i ==> es[k].EnvoiDetails? && es[k].uid == uids[k - 1] && !Repond(rn, es[k])
  }

  lemma UneRelecture(rn: string, uids: seq<Uid>, es: seq<Envoi>, i: nat, e: Envoi)
    requires RechercheVaine(rn, uids, es, i) && i < |uids| && e.EnvoiDetails? && e.uid == uids[i]
    ensures Repond(rn, e) ==> Recherche(rn, es + [e], Some(DemandeRelue(e)))
    ensures !Repond(rn, e) ==> RechercheVaine(rn, uids, es + [e], i + 1)
  {
    hide Repond;
  }

  lemma FinDeRecherche(rn: string, uids: seq<Uid>, es: seq<Envoi>)
    requires RechercheVaine(rn, uids, es, |uids|)
    ensures Recherche(rn, es, None)
  {
    hide Repond;
  }

  /** retrouverDemandeEnAttente: looks for our number among the pending demands. */
  method RetrouverDemandeEnAttente(client: EmcfClient) returns (r: Option<DemandeRecue>)
    requires Coherent(client.serveur)
    modifies client
    ensures SansRisque(client.rn, old(client.Etat()), client.Etat(), 0)
    ensures r.Some? ==> Connue(client.rn, client.serveur, r.value)
    ensures Recherche(client.rn, client.envois[|old(client.envois)|..], r)
  {
    hide Suite, ARisque, NombreDemandes, SansConfirmation, RechercheVaine, Repond;
    ghost var debut := client.envois;
    var enAttente := client.Statut();
    UnPasSansRisque(client.rn, old(client.Etat()), client.Etat(), EnvoiStatut(enAttente));
    assert client.envois[|debut|..] == [EnvoiStatut(enAttente)];
    SuiteCoherente(client.rn, old(client.Etat()), client.Etat(), 0);
    if enAttente.Err? {
      return None;
    }
    DebutDeRecherche(client.rn, enAttente.value);
    for i := 0 to |enAttente.value|
      invariant Coherent(client.serveur) && SansRisque(client.rn, old(client.Etat()), client.Etat(), 0)
      invariant RechercheVaine(client.rn, enAttente.value, client.envois[|debut|..], i)
    {
      ghost var avant := client.Etat();
      var d := RelireDemande(client, enAttente.value[i]);
      SansRisqueEnsuite(client.rn, old(client.Etat()), avant, client.Etat(), 0, 0);
      SuiteCoherente(client.rn, avant, client.Etat(), 0);
      ghost var e := client.envois[|avant.envois|];
      assert client.envois[|debut|..] == avant.envois[|debut|..] + [e];
      UneRelecture(client.rn, enAttente.value, avant.envois[|debut|..], i, e);
      if d.Some? {
        return d;
      }
    }
    FinDeRecherche(client.rn, enAttente.value, client.envois[|debut|..]);
    return None;
  }

  lemma DebutDeRecherche(rn: string, uids: seq<Uid>)
    ensures RechercheVaine(rn, uids, [EnvoiStatut(Ok(uids))], 0)
  {
  }

  lemma SuiteCoherente(rn: string, v: Vue, w: Vue, n: nat)
    requires SansRisque(rn, v, w, n)
    ensures Coherent(w.serveur)
  {
  }

  /**
   Steps 0 and 1: the demand of an earlier attempt if it is still pending, else a new demand; when its answer
   is lost or says that one is already pending, the pending demands are searched before giving up.
   */
  method ObtenirDemande(client: EmcfClient, uidEnAttente: Option<Uid>) returns (r: Result<DemandeRecue, Issue>)
    requires Coherent(client.serveur)
    modifies client
    ensures SansRisque(client.rn, old(client.Etat()), client.Etat(), 1)
    ensures r.Ok? ==> Connue(client.rn, client.serveur, r.value)
    ensures r.Err? ==> (r.error.Refusee? && r.error.uidRefuse == None) || r.error.Injoignable?
    ensures Coherent(client.serveur) && Obtention(client.rn, uidEnAttente, client.envois[|old(client.envois)|..], r)
  {
    ghost var debut := client.Etat();
    SansRisqueRien(client.rn, debut);
    if uidEnAttente.Some? {
      var relue := RelireDemande(client, uidEnAttente.value);
      assert client.envois[|debut.envois|..] == [client.envois[|debut.envois|]];
      if relue.Some? {
        return Ok(relue.value);
      }
    }
    ghost var avant := client.Etat();
    r := DemanderOuRetrouver(client);
    SansRisqueEnsuite(client.rn, debut, avant, client.Etat(), 0, 1);
    assert uidEnAttente.Some? ==> client.envois[|debut.envois|..] == [avant.envois[|debut.envois|]] + client.envois[|avant.envois|..];
  }

  method DemanderOuRetrouver(client: EmcfClient) returns (r: Result<DemandeRecue, Issue>)
    requires Coherent(client.serveur)
    modifies client
    ensures SansRisque(client.rn, old(client.Etat()), client.Etat(), 1)
    ensures r.Ok? ==> Connue(client.rn, client.serveur, r.value)
    ensures r.Err? ==> (r.error.Refusee? && r.error.uidRefuse == None) || r.error.Injoignable?
    ensures NouvelleDemande(client.rn, client.envois[|old(client.envois)|..], r)
  {
    hide Recherche;
    ghost var debut := client.Etat();
    var reponse := client.DemanderFacture();
    UnPasSansRisque(client.rn, debut, client.Etat(), EnvoiDemande(reponse));
    assert client.envois[|debut.envois|..] == [EnvoiDemande(reponse)];
    if reponse.Ok? {
      if reponse.value.uid == None {
        return Err(Refusee(ErreurEmcf(Reponse, ""), None));
      }
      return Ok(DemandeRecue(reponse.value.uid.value, reponse.value.montants));
    }
    var erreur := reponse.error;
    var doublon := erreur.genre == Refus && erreur.code == CODE_DOUBLON_EN_ATTENTE;
    if erreur.Incertaine() || doublon {
      ghost var apres := client.Etat();
      var retrouvee := RetrouverDemandeEnAttente(client);
      SansRisqueEnsuite(client.rn, debut, apres, client.Etat(), 1, 0);
      assert client.envois[|debut.envois|..] == [EnvoiDemande(reponse)] + client.envois[|apres.envois|..];
      assert client.envois[|debut.envois|..][1..] == client.envois[|apres.envois|..];
      if retrouvee.Some? {
        return Ok(retrouvee.value);
      }
      return Err(if doublon then Refusee(erreur, None) else Injoignable(erreur));
    }
    return Err(Refusee(erreur, None));
  }

  lemma SansRisqueRien(rn: string, v: Vue)
    requires Coherent(v.serveur)
    ensures SansRisque(rn, v, v, 0)
  {
    assert v.envois[|v.envois|..] == [];
  }

  // ------------------------------------------------------------------ CONFIRM

  /**
   After CONFIRM of the demand d answered by rs: only d can be at risk, nothing but these CONFIRM was sent, and the
   journal shows no usable confirmation yet.
   */
  ghost predicate EnConfirmation(rn: string, v: Vue, w: Vue, d: DemandeRecue, rs: seq<Result<Elements, ErreurEmcf>>) {
    && Suite(v.serveur, w.serveur)
    && ARisque(rn, w.serveur) <= ARisque(rn, v.serveur) + (if rs == [] then {} else {d.uid})
    && w.envois == v.envois + Confirmations(d, rs)
    && (ConfirmationDuJournal(v.journal) == None ==> ConfirmationDuJournal(w.journal) == None)
  }

  lemma JournalInutilisable(uid: Uid, r: Result<Elements, ErreurEmcf>, avant: seq<Echange>, apres: seq<Echange>)
    requires JournalSuivant(uid, r, avant, apres)
    ensures r.Err? || !Utilisable(r.value) ==>
              (ConfirmationDuJournal(avant) == None ==> ConfirmationDuJournal(apres) == None)
    ensures r.Ok? && Utilisable(r.value) ==>
              ConfirmationDuJournal(apres) == ConfirmationDuJournal(avant) || ConfirmationDuJournal(apres) == Some(uid)
  {
    if apres != avant {
      assert apres[..|apres| - 1] == avant;
    }
  }

  /** What an attempt that reached CONFIRM can answer, and what is then at risk. */
  ghost predicate IssueDeConfirmation(rn: string, v: Vue, w: Vue, d: DemandeRecue, rs: seq<Result<Elements, ErreurEmcf>>, issue: Issue) {
    && Suite(v.serveur, w.serveur)
    && w.envois == v.envois + Confirmations(d, rs) && IssueDesReponses(d, rs, issue)
    && ARisque(rn, w.serveur) <= ARisque(rn, v.serveur) + {d.uid}
    && (issue.Confirmee? ==> issue.uid in w.serveur.finalisees)
    && (ConfirmationDuJournal(v.journal) == None ==>
          ConfirmationDuJournal(w.journal) == None || (issue.Confirmee? && ConfirmationDuJournal(w.journal) == Some(issue.uid)))
  }

  /**
   Step 3: at most two CONFIRM, both with the same uid and amounts. A lost answer is followed by one new CONFIRM;
   after that, anything but a usable confirmation leaves the invoice to be checked.
   */
  method Confirmer(client: EmcfClient, d: DemandeRecue) returns (issue: Issue, ghost rs: seq<Result<Elements, ErreurEmcf>>)
    requires Coherent(client.serveur) && Connue(client.rn, client.serveur, d)
    modifies client
    ensures IssueDeConfirmation(client.rn, old(client.Etat()), client.Etat(), d, rs, issue)
  {
    hide Suite, ARisque, ConfirmationDuJournal, JournalSuivant, ConfirmationPossible;
    ghost var v := client.Etat();
    var montants := MontantsDeConfirmation(d.montants);
    var essai := 1;
    rs := [];
    DebutConfirmation(client.rn, v, d);
    while essai <= 2
      invariant 1 <= essai <= 2 && |rs| == essai - 1 && (essai == 2 ==> rs[0].Err? && rs[0].error.Incertaine())
      invariant Coherent(client.serveur) && EnConfirmation(client.rn, v, client.Etat(), d, rs)
    {
      ghost var avant := client.Etat();
      var r := client.Confirmer(d.uid, montants);
      UneConfirmation(client.rn, v, avant, client.Etat(), d, rs, r);
      rs := rs + [r];
      match r {
        case Ok(elements) =>
          if !Utilisable(elements) {
            issue := AVerifier(d.uid, d.montants, ErreurEmcf(Reponse, ""));
            return;
          }
          issue := Confirmee(d.uid, d.montants, elements);
          return;
        case Err(erreur) =>
          if erreur.Incertaine() && essai == 1 {
            essai := essai + 1;
            continue;
          }
          if erreur.Incertaine() || essai == 2 {
            issue := AVerifier(d.uid, d.montants, erreur);
            return;
          }
          issue := Refusee(erreur, Some(d.uid));
          return;
      }
    }
    assert false;
  }

  lemma DebutConfirmation(rn: string, v: Vue, d: DemandeRecue)
    requires Coherent(v.serveur)
    ensures EnConfirmation(rn, v, v, d, [])
  {
  }

  /** One more CONFIRM of the demand d. */
  lemma UneConfirmation(rn: string, v: Vue, avant: Vue, apres: Vue, d: DemandeRecue, rs: seq<Result<Elements, ErreurEmcf>>,
                        r: Result<Elements, ErreurEmcf>)
    requires Coherent(v.serveur) && EnConfirmation(rn, v, avant, d, rs) && Connue(rn, v.serveur, d)
    requires ConfirmationPossible(rn, avant.serveur, d.uid, r, apres.serveur)
    requires JournalSuivant(d.uid, r, avant.journal, apres.journal)
    requires apres.envois == avant.envois + [EnvoiConfirmation(d.uid, MontantsDeConfirmation(d.montants), r)]
    ensures Coherent(apres.serveur) && Suite(v.serveur, apres.serveur)
    ensures apres.envois == v.envois + Confirmations(d, rs + [r])
    ensures ARisque(rn, apres.serveur) <= ARisque(rn, v.serveur) + {d.uid}
    ensures r.Ok? ==> d.uid in apres.serveur.finalisees
    ensures r.Err? || !Utilisable(r.value) ==>
              (ConfirmationDuJournal(v.journal) == None ==> ConfirmationDuJournal(apres.journal) == None)
    ensures r.Ok? && Utilisable(r.value) && ConfirmationDuJournal(v.journal) == None ==>
              ConfirmationDuJournal(apres.journal) == None || ConfirmationDuJournal(apres.journal) == Some(d.uid)
  {
    ARisqueEvolue(rn, avant.serveur, apres.serveur, avant.serveur.enVol + {d.uid});
    JournalInutilisable(d.uid, r, avant.journal, apres.journal);
    assert Confirmations(d, rs + [r]) == Confirmations(d, rs) + [EnvoiConfirmation(d.uid, MontantsDeConfirmation(d.montants), r)];
  }

  // ------------------------------------------------------------------ the whole attempt

  /** es ends with CONFIRM of the demand d answered by rs, and holds no other. */
  ghost predicate ConfirmeSeulement(es: seq<Envoi>, d: DemandeRecue, rs: seq<Result<Elements, ErreurEmcf>>) {
    1 <= |rs| <= 2 && |rs| <= |es| && SansConfirmation(es[..|es| - |rs|]) && es[|es| - |rs|..] == Confirmations(d, rs)
  }

  /** es holds exactly one CONFIRM, its last request. */
  ghost predicate UneSeule(es: seq<Envoi>) {
    es != [] && es[|es| - 1].EnvoiConfirmation? && SansConfirmation(es[..|es| - 1])
  }

  /**
   What one attempt does to the world, outcome by outcome: es are the requests sent. Nothing new is at risk
   unless the outcome says so; only amounts that agree with ours are ever confirmed; the outcome is the one that the
   answers call for.
   */
  ghost predicate Tentative(rn: string, uidEnAttente: Option<Uid>, v: Vue, w: Vue, nos: TotauxFacture, issue: Issue) {
    && Suite(v.serveur, w.serveur) && v.envois <= w.envois
    && (ConfirmationDuJournal(v.journal) == None ==>
          ConfirmationDuJournal(w.journal) == None ||
          (issue.Confirmee? && ConfirmationDuJournal(w.journal) == Some(issue.uid)))
    && var es := w.envois[|v.envois|..];
    && NombreDemandes(es) <= 1
    && Conversation(rn, uidEnAttente, nos, es, issue)
    && match issue
       case Confirmee(uid, m, e) =>
         && Confirme(rn, v, w, nos, DemandeRecue(uid, m), es)
         && Utilisable(e) && uid in w.serveur.finalisees
       case AVerifier(uid, m, _) => Confirme(rn, v, w, nos, DemandeRecue(uid, m), es)
       case Refusee(e, Some(uid)) =>
         !e.Incertaine() && UneSeule(es) && exists m :: Confirme(rn, v, w, nos, DemandeRecue(uid, m), es)
       case EcartConstate(uid, ecarts, m) =>
         && ecarts != [] && ecarts == EcartsDe(nos, m, Champs())
         && SansConfirmation(es) && es != [] && es[|es| - 1] == EnvoiAnnulation(uid)
         && ARisque(rn, w.serveur) <= ARisque(rn, v.serveur)
       case _ => SansConfirmation(es) && ARisque(rn, w.serveur) <= ARisque(rn, v.serveur)
  }

  /** The demand d, whose amounts agree with ours, is the only one confirmed. */
  ghost predicate Confirme(rn: string, v: Vue, w: Vue, nos: TotauxFacture, d: DemandeRecue, es: seq<Envoi>) {
    && Connue(rn, w.serveur, d) && Accord(nos, d.montants) && (exists rs :: ConfirmeSeulement(es, d, rs))
    && ARisque(rn, w.serveur) <= ARisque(rn, v.serveur) + {d.uid}
  }

  lemma DemandeSeule(rn: string, v: Vue, u: Vue, w: Vue, nos: TotauxFacture, d: DemandeRecue, rs: seq<Result<Elements, ErreurEmcf>>,
                     es: seq<Envoi>)
    requires Connue(rn, w.serveur, d) && Accord(nos, d.montants) && ConfirmeSeulement(es, d, rs)
    requires ARisque(rn, u.serveur) <= ARisque(rn, v.serveur) && ARisque(rn, w.serveur) <= ARisque(rn, u.serveur) + {d.uid}
    ensures Confirme(rn, v, w, nos, d, es)
  {
    hide Connue, Accord, ConfirmeSeulement, ARisque;
  }

  lemma EnvoisConfirmes(a: seq<Envoi>, b: seq<Envoi>, c: seq<Envoi>, d: DemandeRecue, rs: seq<Result<Elements, ErreurEmcf>>)
    requires a <= b && SansConfirmation(b[|a|..]) && NombreDemandes(b[|a|..]) <= 1
    requires 1 <= |rs| <= 2 && c == b + Confirmations(d, rs)
    ensures a <= c && ConfirmeSeulement(c[|a|..], d, rs) && NombreDemandes(c[|a|..]) <= 1
    ensures |rs| == 1 ==> UneSeule(c[|a|..])
    ensures c[|a|..][..|b| - |a|] == b[|a|..] && c[|a|..][|b| - |a|..] == Confirmations(d, rs)
  {
    var p, es := b[|a|..], c[|a|..];
    assert es == p + Confirmations(d, rs);
    SansDemande(d, rs);
    NombreDemandesConcat(p, Confirmations(d, rs));
    assert es[..|es| - |rs|] == p && es[|es| - |rs|..] == Confirmations(d, rs);
  }

  lemma ConnueEnsuite(rn: string, s: Serveur, t: Serveur, d: DemandeRecue)
    requires Connue(rn, s, d) && Suite(s, t)
    ensures Connue(rn, t, d)
  {
  }

  lemma SuiteTransitive(s: Serveur, t: Serveur, u: Serveur)
    requires Coherent(s) && Suite(s, t) && Suite(t, u)
    ensures Suite(s, u)
  {
  }

  /** A harmless beginning, then CONFIRM. */
  lemma TentativeConfirmee(rn: string, uidEnAttente: Option<Uid>, v: Vue, u: Vue, w: Vue, nos: TotauxFacture, d: DemandeRecue,
                           rs: seq<Result<Elements, ErreurEmcf>>, issue: Issue)
    requires Coherent(v.serveur)
    requires SansRisque(rn, v, u, 1) && Connue(rn, u.serveur, d) && Accord(nos, d.montants)
    requires Obtention(rn, uidEnAttente, u.envois[|v.envois|..], Ok(d))
    requires IssueDeConfirmation(rn, u, w, d, rs, issue)
    ensures Tentative(rn, uidEnAttente, v, w, nos, issue)
  {
    hide Suite, Connue, Accord, ConfirmeSeulement, NombreDemandes, SansConfirmation, ARisque, ConfirmationDuJournal, Obtention, UneSeule,
         Conversation, SuiteDeLaDemande, Confirme;
    var es := w.envois[|v.envois|..];
    EnvoisConfirmes(v.envois, u.envois, w.envois, d, rs);
    ConnueEnsuite(rn, u.serveur, w.serveur, d);
    SuiteTransitive(v.serveur, u.serveur, w.serveur);
    DemandeConfirmee(nos, d, rs, issue);
    ConversationEnDeux(rn, uidEnAttente, nos, es, |u.envois| - |v.envois|, Ok(d), issue);
    DemandeSeule(rn, v, u, w, nos, d, rs, es);
    assert d == DemandeRecue(d.uid, d.montants);
  }

  lemma DemandeConfirmee(nos: TotauxFacture, d: DemandeRecue, rs: seq<Result<Elements, ErreurEmcf>>, issue: Issue)
    requires Accord(nos, d.montants) && IssueDesReponses(d, rs, issue)
    ensures SuiteDeLaDemande(nos, d, Confirmations(d, rs), issue)
  {
  }

  lemma ConversationEnDeux(rn: string, uidEnAttente: Option<Uid>, nos: TotauxFacture, es: seq<Envoi>, k: nat,
                           r: Result<DemandeRecue, Issue>, issue: Issue)
    requires k <= |es| && Obtention(rn, uidEnAttente, es[..k], r) && SuiteDeLObtention(nos, r, es[k..], issue)
    ensures Conversation(rn, uidEnAttente, nos, es, issue)
  {
  }

  lemma {:induction false} SansDemande(d: DemandeRecue, rs: seq<Result<Elements, ErreurEmcf>>)
    ensures NombreDemandes(Confirmations(d, rs)) == 0
  {
    if rs != [] {
      SansDemande(d, rs[..|rs| - 1]);
      assert Confirmations(d, rs)[..|rs| - 1] == Confirmations(d, rs[..|rs| - 1]);
    }
  }

  /** normaliser: the attempt on the invoice of this client, whose amounts are nosTotaux. */
  method Normaliser(client: EmcfClient, nosTotaux: TotauxFacture, uidEnAttente: Option<Uid>) returns (issue: Issue)
    requires Coherent(client.serveur)
    modifies client
    ensures Tentative(client.rn, uidEnAttente, old(client.Etat()), client.Etat(), nosTotaux, issue)
  {
    hide Obtention, ConfirmationDuJournal, Suite, ARisque, Accord, EcartsDe, NombreDemandes, IssueDesReponses;
    ghost var v := client.Etat();
    var demande := ObtenirDemande(client, uidEnAttente);
    ghost var u := client.Etat();
    ghost var es := u.envois[|v.envois|..];
    assert es[..|es|] == es && es[|es|..] == [];
    if demande.Err? {
      ConversationEnDeux(client.rn, uidEnAttente, nosTotaux, es, |es|, demande, demande.error);
      return demande.error;
    }
    if * {
      ConversationEnDeux(client.rn, uidEnAttente, nosTotaux, es, |es|, demande, Arretee);
      return Arretee;
    }
    var d := demande.value;
    var ecarts := ComparerMontants(nosTotaux, d.montants);
    if ecarts != [] {
      client.Annuler(d.uid);
      UnPasSansRisque(client.rn, u, client.Etat(), EnvoiAnnulation(d.uid));
      SansRisqueEnsuite(client.rn, v, u, client.Etat(), 1, 0);
      ghost var tous := client.envois[|v.envois|..];
      assert tous[..|es|] == es && tous[|es|..] == [EnvoiAnnulation(d.uid)];
      ConversationEnDeux(client.rn, uidEnAttente, nosTotaux, tous, |es|, demande, EcartConstate(d.uid, ecarts, d.montants));
      return EcartConstate(d.uid, ecarts, d.montants);
    }
    ghost var rs;
    issue, rs := Confirmer(client, d);
    TentativeConfirmee(client.rn, uidEnAttente, v, u, client.Etat(), nosTotaux, d, rs, issue);
  }
}
