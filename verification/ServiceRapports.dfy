/** The operations of rapports-fiscaux.service.ts that read and append to the journal of reports. */
module ServiceRapports {
  import opened Wrappers
  import opened Decimales
  import opened Rapports
  import opened RapportsFiscaux

  const PAGE: nat := 1000

  /** toutLire: pages are read until a short one. */
  method ToutLire<T>(table: seq<T>) returns (sortie: seq<T>)
    ensures sortie == table
  {
    sortie := [];
    var debut := 0;
    while true
      invariant debut == |sortie| <= |table| && sortie == table[..debut]
      decreases |table| - debut
    {
      var page := if debut + PAGE <= |table| then table[debut..debut + PAGE] else table[debut..];
      sortie := sortie + page;
      if |page| < PAGE {
        return;
      }
      debut := debut + PAGE;
    }
  }

  datatype ErreurRapport = PeriodeInvalide | Illisible(e: ErreurDecimale) | Conflit | Refuse

  class RapportsFiscauxService {
    const profil: Profil
    var horloge: Instant
    var premiere: Option<Instant>
    var confirmees: seq<Datee<FacturePourRapport>>
    var suspens: seq<Datee<FacturePourRapport>>
    var mouvements: seq<Datee<Mouvement>>
    var journal: seq<Rapport>

    constructor (profil: Profil, horloge: Instant)
      ensures Initial(Tables()) && this.profil == profil && this.horloge == horloge
      ensures confirmees == [] && suspens == [] && mouvements == [] && premiere == None
    {
      this.profil, this.horloge := profil, horloge;
      premiere, confirmees, suspens, mouvements, journal := None, [], [], [], [];
    }

    function Tables(): Etat
      reads this
    {
      Etat(profil, horloge, premiere, confirmees, suspens, mouvements, journal, map[])
    }

    /** derniers: the Z with the highest number. */
    method DernierZ() returns (z: Option<Rapport>)
      ensures z == Dernier(journal)
    {
      z := None;
      for i := 0 to |journal|
        invariant z == Dernier(journal[..i])
      {
        assert journal[..i + 1][..i] == journal[..i];
        var r := journal[i];
        if r.genre == Z && (z.None? || r.numero > z.value.numero) {
          z := Some(r);
        }
      }
      assert journal[..|journal|] == journal;
    }

    method DebutDepuisDernier() returns (debut: Instant)
      ensures debut == Debut(Tables())
    {
      var dernier := DernierZ();
      if dernier.Some? {
        return dernier.value.fin;
      }
      var dates := MinOption(MinOption(profil.activation, premiere), profil.creation);
      debut := if dates.Some? then dates.value else horloge;
    }

    method CalculXZ(debut: Instant, fin: Instant) returns (r: Result<ContenuXZ, ErreurDecimale>)
      ensures r.Ok? <==> Lisibles(FacturesLues(Tables(), debut, fin))
      ensures r.Ok? ==> RapportDePeriode(r.value, Tables(), debut, fin)
    {
      hide Lisibles, EstRapport;
      var c := ToutLire(Periode(confirmees, debut, fin));
      var s := ToutLire(Periode(suspens, debut, fin));
      var m := ToutLire(Periode(mouvements, debut, fin));
      r := ContenuRapportXZ(c + s, m);
      if r.Ok? {
        assert EstRapportOrdonne(r.value, c + s, m, c + s, m);
      }
    }

    /** enregistrer: the journal refuses a number that is taken, and a period that ends before it starts. */
    method Enregistrer(genre: Genre, numero: nat, debut: Instant, fin: Instant) returns (r: Result<Rapport, ErreurRapport>)
      modifies this`journal
      ensures r.Ok? <==> Lisibles(FacturesLues(old(Tables()), debut, fin)) && debut <= fin && (genre == Z ==> NumeroLibre(old(journal), numero))
      ensures r.Ok? ==> RapportDePeriode(r.value.contenu, old(Tables()), debut, fin)
      ensures r.Ok? ==> r.value == Rapport(genre, numero, debut, fin, r.value.contenu, |confirmees|, |mouvements|)
      ensures journal == if r.Ok? then old(journal) + [r.value] else old(journal)
    {
      hide RapportDePeriode, Lisibles, FacturesLues;
      var contenu := CalculXZ(debut, fin);
      if contenu.Err? {
        return Err(Illisible(contenu.error));
      }
      if genre == Z && !NumeroLibre(journal, numero) {
        return Err(Conflit);
      }
      if debut > fin {
        return Err(Refuse);
      }
      var rapport := Rapport(genre, numero, debut, fin, contenu.value, |confirmees|, |mouvements|);
      journal := journal + [rapport];
      return Ok(rapport);
    }

    /** X since the last Z, or XP over a chosen period: one step of the state machine, or nothing. */
    method RapportX(periode: Option<(Instant, Instant)>) returns (r: Result<Rapport, ErreurRapport>)
      modifies this`journal
      ensures r.Ok? <==> var b := Bornes(old(Tables()), periode);
                         b.Some? && b.value.0 <= b.value.1 && Lisibles(FacturesLues(old(Tables()), b.value.0, b.value.1))
      ensures r.Err? ==> journal == old(journal)
      ensures r.Ok? ==> var p := Pas.RapportX(periode, r.value.contenu);
                        Possible(old(Tables()), p) && Tables() == Apres(old(Tables()), p)
      ensures Memes(old(Tables()), Tables())
    {
      hide RapportDePeriode, Lisibles, FacturesLues, Debut, Zs, NumeroLibre;
      var debut: Instant;
      var fin := horloge;
      if periode.Some? {
        debut, fin := periode.value.0, periode.value.1;
        if fin > horloge {
          fin := horloge;
        }
        if fin <= debut || fin - debut > PERIODE_MAX {
          return Err(PeriodeInvalide);
        }
      } else {
        debut := DebutDepuisDernier();
      }
      r := Enregistrer(if periode.Some? then XP else X, 0, debut, fin);
      if r.Ok? {
        XMemes(old(Tables()), Pas.RapportX(periode, r.value.contenu));
      }
    }

    /** Z: closes everything since the last Z; the steps of a closing with nothing in between, or nothing. */
    method RapportZ() returns (r: Result<Rapport, ErreurRapport>)
      requires Inv(Tables())
      modifies this`journal
      ensures r.Ok? <==> Debut(old(Tables())) <= horloge && Lisibles(FacturesLues(old(Tables()), Debut(old(Tables())), horloge))
      ensures r.Err? ==> journal == old(journal)
      ensures r.Ok? ==> var ps := Fermeture(0, r.value.contenu);
                        Faisable(old(Tables()), ps) && Tables() == Parcours(old(Tables()), ps)
      ensures r.Ok? ==> r.value.numero == |Zs(old(journal))| + 1 && r.value.debut == Debut(old(Tables())) && r.value.fin == horloge
      ensures Inv(Tables())
    {
      hide RapportDePeriode, Lisibles, FacturesLues, Debut, Zs, NumeroLibre, Inv, Fermeture, Faisable, Parcours, Dernier;
      ghost var e := Tables();
      var dernier := DernierZ();
      var debut := DebutDepuisDernier();
      var numero := if dernier.Some? then dernier.value.numero + 1 else 1;
      NumeroDuProchain(e);
      ChaineSaine(e);
      NumeroSuivant(journal, numero);
      r := Enregistrer(Z, numero, debut, horloge);
      if r.Ok? {
        UneFermeture(e, 0, r.value.contenu);
        ParcoursConserveInv(e, Fermeture(0, r.value.contenu));
      }
    }
  }

  lemma ChaineSaine(e: Etat)
    requires Inv(e)
    ensures Enchaines(Zs(e.journal))
  {
  }
}
