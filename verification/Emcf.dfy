/**
 The e-MCF server and the network, as the client of one invoice sees them (emcf.client.ts).

 Nothing is known of the server but its rules: between two observations demands expire or are cancelled,
 other invoices come and go, and a CONFIRM still travelling may arrive. Every answer may be lost. A method
 of EmcfClient draws any outcome that the rules allow, and the proofs hold for all of them.
 */
module Emcf {
  import opened Wrappers
  import opened Requete

  type Uid = nat

  datatype Genre = Reseau | Delai | Jeton | Http | Refus | Reponse

  datatype ErreurEmcf = ErreurEmcf(genre: Genre, code: string) {
    /** The request may or may not have been processed. */
    predicate Incertaine() {
      genre == Delai || genre == Reseau
    }
  }

  /** A demand received by the server: the invoice number, and the amounts it computed. */
  datatype Demande = Demande(rn: string, montants: Montants)

  /** What a demand answers: without uid, the answer is unusable. */
  datatype ReponseDemande = ReponseDemande(uid: Option<Uid>, montants: Montants)

  /** Security elements; an empty text is a missing one. */
  datatype Elements = Elements(codeDEFDGI: string, qrCode: string)

  predicate Utilisable(e: Elements) {
    e.codeDEFDGI != "" && e.qrCode != ""
  }

  /** enVol: the demands for which a CONFIRM may still arrive. */
  datatype Serveur = Serveur(demandes: map<Uid, Demande>, enAttente: set<Uid>, finalisees: set<Uid>, enVol: set<Uid>)

  predicate Coherent(s: Serveur) {
    s.enAttente <= s.demandes.Keys && s.finalisees <= s.demandes.Keys && s.enVol <= s.demandes.Keys
  }

  /** Demands are never forgotten nor changed; what is finalised stays so. */
  predicate Suite(s: Serveur, t: Serveur) {
    && Coherent(t)
    && (forall u | u in s.demandes :: u in t.demandes && t.demandes[u] == s.demandes[u])
    && s.finalisees <= t.finalisees
    && (forall u | u in t.enAttente && u in s.demandes :: u in s.enAttente)
  }

  predicate Notre(rn: string, s: Serveur, u: Uid) {
    u in s.demandes && s.demandes[u].rn == rn
  }

  /**
   What can happen while confirms are the only CONFIRM requests on their way for the number rn: a demand is
   finalised only by a CONFIRM that finds it pending. Nothing is assumed about the other numbers.
   */
  predicate Evolue(rn: string, s: Serveur, t: Serveur, confirms: set<Uid>) {
    && Suite(s, t)
    && (forall u | u in t.finalisees && Notre(rn, t, u) && u !in s.finalisees :: u in confirms && u in s.enAttente)
    && (forall u | u in t.enVol && Notre(rn, t, u) :: u in confirms)
  }

  /** The demands of the number rn that are finalised, or that a travelling CONFIRM may still finalise. */
  function ARisque(rn: string, s: Serveur): set<Uid> {
    set u | u in s.finalisees + s.enVol && Notre(rn, s, u)
  }

  /** An accepted demand gets a new uid, and the amounts that the server keeps for it. */
  predicate DemandePossible(rn: string, s: Serveur, r: Result<ReponseDemande, ErreurEmcf>, t: Serveur) {
    && Evolue(rn, s, t, s.enVol)
    && (r.Ok? && r.value.uid.Some? ==>
          var u := r.value.uid.value;
          u !in s.demandes && u in t.demandes && t.demandes[u] == Demande(rn, r.value.montants))
  }

  predicate DetailsPossibles(rn: string, s: Serveur, uid: Uid, r: Result<Demande, ErreurEmcf>, t: Serveur) {
    && Evolue(rn, s, t, s.enVol)
    && (r.Ok? ==> uid in t.demandes && t.demandes[uid] == r.value)
  }

  /**
   A successful CONFIRM has finalised the demand. After any error, even a definite one, the demand may be finalised
   or not.
   */
  predicate ConfirmationPossible(rn: string, s: Serveur, uid: Uid, r: Result<Elements, ErreurEmcf>, t: Serveur) {
    && Evolue(rn, s, t, s.enVol + {uid})
    && (r.Ok? ==> uid in t.finalisees)
  }

  /** The requests sent, in order, with the answers received; the answer to a cancellation is ignored. */
  datatype Envoi =
    | EnvoiStatut(enAttente: Result<seq<Uid>, ErreurEmcf>)
    | EnvoiDemande(reponse: Result<ReponseDemande, ErreurEmcf>)
    | EnvoiDetails(uid: Uid, details: Result<Demande, ErreurEmcf>)
    | EnvoiConfirmation(uid: Uid, montants: (Valeur, Valeur), elements: Result<Elements, ErreurEmcf>)
    | EnvoiAnnulation(uid: Uid)

  /** A line of the exchange journal for a CONFIRM: HTTP status 200 or not, and the elements received. */
  datatype Echange = Echange(uid: Uid, http200: bool, elements: Option<Elements>)

  /** confirmationDuJournal: the last CONFIRM answered by a 200, if its elements are usable. */
  function ConfirmationDuJournal(journal: seq<Echange>): Option<Uid> {
    if journal == [] then None else
      var e := journal[|journal| - 1];
      if !e.http200 then ConfirmationDuJournal(journal[..|journal| - 1])
      else if e.elements.Some? && Utilisable(e.elements.value) then Some(e.uid)
      else None
  }

  /** What the answer of a CONFIRM writes in the journal; a refusal may come with a 200 too. */
  predicate EchangePossible(uid: Uid, r: Result<Elements, ErreurEmcf>, e: Echange) {
    && e.uid == uid
    && match r
       case Ok(el) => e.http200 && e.elements == Some(el)
       case Err(err) => e.elements == None && (err.Incertaine() ==> !e.http200)
  }

  /** The exchange was journaled, or writing the journal failed. */
  predicate JournalSuivant(uid: Uid, r: Result<Elements, ErreurEmcf>, avant: seq<Echange>, apres: seq<Echange>) {
    apres == avant || (|apres| == |avant| + 1 && avant <= apres && EchangePossible(uid, r, apres[|avant|]))
  }

  /** The demands at risk only come from those already at risk and from the CONFIRM requests on their way. */
  lemma ARisqueEvolue(rn: string, s: Serveur, t: Serveur, confirms: set<Uid>)
    requires Coherent(s) && Evolue(rn, s, t, confirms)
    ensures ARisque(rn, t) <= ARisque(rn, s) + confirms
    ensures confirms == s.enVol ==> ARisque(rn, t) <= ARisque(rn, s)
  {
  }

  /** The state of the world seen from a client, at one instant. */
  datatype Vue = Vue(serveur: Serveur, journal: seq<Echange>, envois: seq<Envoi>)

  /** The client of one invoice, whose number is rn, with its journal of exchanges. */
  class EmcfClient {
    const rn: string
    var serveur: Serveur
    var journal: seq<Echange>
    ghost var envois: seq<Envoi>

    constructor (rn: string, serveur: Serveur)
      ensures this.rn == rn && this.serveur == serveur && journal == [] && envois == []
    {
      this.rn, this.serveur, this.journal, this.envois := rn, serveur, [], [];
    }

    ghost function Etat(): Vue
      reads this
    {
      Vue(serveur, journal, envois)
    }

    /** The world goes on by itself. */
    method Attendre()
      requires Coherent(serveur)
      modifies this`serveur
      ensures Evolue(rn, old(serveur), serveur, old(serveur).enVol)
    {
      var t: Serveur := *;
      if Evolue(rn, serveur, t, serveur.enVol) {
        serveur := t;
      }
    }

    method Statut() returns (r: Result<seq<Uid>, ErreurEmcf>)
      requires Coherent(serveur)
      modifies this`serveur, this`envois
      ensures Evolue(rn, old(serveur), serveur, old(serveur).enVol)
      ensures envois == old(envois) + [EnvoiStatut(r)]
    {
      Attendre();
      r := *;
      envois := envois + [EnvoiStatut(r)];
    }

    method DemanderFacture() returns (r: Result<ReponseDemande, ErreurEmcf>)
      requires Coherent(serveur)
      modifies this`serveur, this`envois
      ensures DemandePossible(rn, old(serveur), r, serveur)
      ensures envois == old(envois) + [EnvoiDemande(r)]
    {
      var t: Serveur := *;
      r := *;
      if DemandePossible(rn, serveur, r, t) {
        serveur := t;
      } else {
        r := Err(ErreurEmcf(Reseau, ""));
      }
      envois := envois + [EnvoiDemande(r)];
    }

    method Details(uid: Uid) returns (r: Result<Demande, ErreurEmcf>)
      requires Coherent(serveur)
      modifies this`serveur, this`envois
      ensures DetailsPossibles(rn, old(serveur), uid, r, serveur)
      ensures envois == old(envois) + [EnvoiDetails(uid, r)]
    {
      var t: Serveur := *;
      r := *;
      if DetailsPossibles(rn, serveur, uid, r, t) {
        serveur := t;
      } else {
        r := Err(ErreurEmcf(Reseau, ""));
      }
      envois := envois + [EnvoiDetails(uid, r)];
    }

    method Annuler(uid: Uid)
      requires Coherent(serveur)
      modifies this`serveur, this`envois
      ensures Evolue(rn, old(serveur), serveur, old(serveur).enVol)
      ensures envois == old(envois) + [EnvoiAnnulation(uid)]
    {
      envois := envois + [EnvoiAnnulation(uid)];
      Attendre();
    }

    /** The exchange is journaled, unless writing the journal fails. */
    method Confirmer(uid: Uid, montants: (Valeur, Valeur)) returns (r: Result<Elements, ErreurEmcf>)
      requires Coherent(serveur)
      modifies this
      ensures ConfirmationPossible(rn, old(serveur), uid, r, serveur)
      ensures JournalSuivant(uid, r, old(journal), journal)
      ensures envois == old(envois) + [EnvoiConfirmation(uid, montants, r)]
    {
      var t: Serveur := *;
      r := *;
      if ConfirmationPossible(rn, serveur, uid, r, t) {
        serveur := t;
      } else {
        r := Err(ErreurEmcf(Reseau, ""));
      }
      envois := envois + [EnvoiConfirmation(uid, montants, r)];
      var e: Echange := *;
      if EchangePossible(uid, r, e) {
        journal := journal + [e];
      }
    }
  }

  /** The confirmation found in the journal is that of the last exchange answered by a 200, if it holds both codes. */
  lemma {:induction false} DerniereConfirmation(journal: seq<Echange>, u: Uid)
    ensures ConfirmationDuJournal(journal) == Some(u) <==>
              exists i :: 0 <= i < |journal| && ConfirmationEn(journal, i, u)
  {
    if journal != [] {
      var n := |journal| - 1;
      DerniereConfirmation(journal[..n], u);
      forall i | 0 <= i < n
        ensures !journal[n].http200 ==> (ConfirmationEn(journal, i, u) <==> ConfirmationEn(journal[..n], i, u))
        ensures journal[n].http200 ==> !ConfirmationEn(journal, i, u)
      {
      }
      assert ConfirmationDuJournal(journal) == Some(u) && journal[n].http200 ==> ConfirmationEn(journal, n, u);
      if !journal[n].http200 && ConfirmationDuJournal(journal) == Some(u) {
        var i :| 0 <= i < n && ConfirmationEn(journal[..n], i, u);
        assert ConfirmationEn(journal, i, u);
      }
    }
  }

  /** Exchange i confirms the demand u, and no later exchange was answered by a 200. */
  predicate ConfirmationEn(journal: seq<Echange>, i: nat, u: Uid)
    requires i < |journal|
  {
    && journal[i].http200 && journal[i].uid == u && journal[i].elements.Some?
    && journal[i].elements.value.codeDEFDGI != "" && journal[i].elements.value.qrCode != ""
    && forall k :: i < k < |journal| ==> !journal[k].http200
  }
}
