/** Comparison of the amounts returned by the e-MCF with ours (requete.ts). */
module Requete {
  import opened Wrappers
  import opened Groupes
  import opened Calcul

  /** A field of the answer: total, taxable amount or VAT of a group, or one of the two grand totals. */
  datatype Champ = Ta(g: Groupe) | Ha(g: Groupe) | Va(g: Groupe) | Total | VTotal

  /** A value of the answer: null, a number (exact), or something that is not a finite number. */
  datatype Valeur = Nul | Nombre(r: real) | Illisible

  /** The fields present in the answer. */
  type Montants = map<Champ, Valeur>

  datatype Ecart = Ecart(champ: Champ, nous: int, dgi: Option<int>)

  /** enCentimes: to the nearest cent; None stands for NaN. */
  function EnCentimes(v: Valeur): Option<int> {
    match v
    case Nul => Some(0)
    case Nombre(r) => Some((r * 100.0 + 0.5).Floor)
    case Illisible => None
  }

  /** The entry of a group: the last one, as in a Map built from the list. */
  function EntreeDe(gs: seq<TotalGroupe>, g: Groupe): Option<TotalGroupe> {
    if gs == [] then None
    else if gs[|gs| - 1].groupe == g then Some(gs[|gs| - 1])
    else EntreeDe(gs[..|gs| - 1], g)
  }

  /** Our amount for a field; a group we do not have counts for zero. */
  function Attendu(nous: TotauxFacture, c: Champ): int {
    match c
    case Ta(g) => (match EntreeDe(nous.groupes, g) case Some(e) => e.total case None => 0)
    case Ha(g) => (match EntreeDe(nous.groupes, g) case Some(e) => e.base case None => 0)
    case Va(g) => (match EntreeDe(nous.groupes, g) case Some(e) => e.tva case None => 0)
    case Total => nous.total
    case VTotal => nous.tva
  }

  /** Their amount for a field, in cents; an absent field counts for zero. */
  function Recu(dgi: Montants, c: Champ): Option<int> {
    if c in dgi then EnCentimes(dgi[c]) else Some(0)
  }

  predicate Concorde(nous: TotauxFacture, dgi: Montants, c: Champ) {
    Recu(dgi, c) == Some(Attendu(nous, c))
  }

  /** Every amount of the sixteen groups, and both totals, equal ours to the cent. */
  ghost predicate Accord(nous: TotauxFacture, dgi: Montants) {
    forall c :: Concorde(nous, dgi, c)
  }

  function ChampsDe(g: Groupe): seq<Champ> {
    [Ta(g), Ha(g), Va(g)]
  }

  function ChampsDes(gs: seq<Groupe>): seq<Champ> {
    if gs == [] then [] else ChampsDes(gs[..|gs| - 1]) + ChampsDe(gs[|gs| - 1])
  }

  function Champs(): seq<Champ> {
    ChampsDes(GROUPES) + [Total, VTotal]
  }

  /** The disagreements among cs, in order. */
  function EcartsDe(nous: TotauxFacture, dgi: Montants, cs: seq<Champ>): seq<Ecart> {
    if cs == [] then [] else
      var c := cs[|cs| - 1];
      EcartsDe(nous, dgi, cs[..|cs| - 1])
      + if Concorde(nous, dgi, c) then [] else [Ecart(c, Attendu(nous, c), Recu(dgi, c))]
  }

  lemma {:induction false} ChampsDesContient(gs: seq<Groupe>, g: Groupe)
    requires g in gs
    ensures Ta(g) in ChampsDes(gs) && Ha(g) in ChampsDes(gs) && Va(g) in ChampsDes(gs)
  {
    var debut, dernier := gs[..|gs| - 1], gs[|gs| - 1];
    assert gs == debut + [dernier];
    if g == dernier {
      assert ChampsDe(g)[0] == Ta(g) && ChampsDe(g)[1] == Ha(g) && ChampsDe(g)[2] == Va(g);
    } else {
      ChampsDesContient(debut, g);
    }
  }

  lemma ChampsComplet(c: Champ)
    ensures c in Champs()
  {
    match c
    case Total => assert [Total, VTotal][0] == Total;
    case VTotal => assert [Total, VTotal][1] == VTotal;
    case _ =>
      GroupesComplet(c.g);
      ChampsDesContient(GROUPES, c.g);
  }

  /** A field is reported exactly when it disagrees. */
  lemma {:induction false} EcartSsi(nous: TotauxFacture, dgi: Montants, cs: seq<Champ>, c: Champ)
    ensures Ecart(c, Attendu(nous, c), Recu(dgi, c)) in EcartsDe(nous, dgi, cs) <==> c in cs && !Concorde(nous, dgi, c)
  {
    if cs != [] {
      assert cs == cs[..|cs| - 1] + [cs[|cs| - 1]];
      EcartSsi(nous, dgi, cs[..|cs| - 1], c);
    }
  }

  lemma {:induction false} EcartsVides(nous: TotauxFacture, dgi: Montants, cs: seq<Champ>)
    ensures EcartsDe(nous, dgi, cs) == [] <==> forall c :: c in cs ==> Concorde(nous, dgi, c)
  {
    if cs != [] {
      assert cs == cs[..|cs| - 1] + [cs[|cs| - 1]];
      EcartsVides(nous, dgi, cs[..|cs| - 1]);
    }
  }

  /** No disagreement is reported exactly when every amount agrees: only then may the invoice be confirmed. */
  lemma AucunEcartSsiAccord(nous: TotauxFacture, dgi: Montants)
    ensures EcartsDe(nous, dgi, Champs()) == [] <==> Accord(nous, dgi)
  {
    EcartsVides(nous, dgi, Champs());
    forall c: Champ
      ensures c in Champs()
    {
      ChampsComplet(c);
    }
  }

  lemma {:induction false} EntreeUnique(gs: seq<TotalGroupe>, i: nat)
    requires i < |gs| && forall j, k :: 0 <= j < k < |gs| ==> gs[j].groupe != gs[k].groupe
    ensures EntreeDe(gs, gs[i].groupe) == Some(gs[i])
  {
    if i < |gs| - 1 {
      EntreeUnique(gs[..|gs| - 1], i);
    }
  }

  lemma {:induction false} EntreeConnue(gs: seq<TotalGroupe>, g: Groupe)
    ensures match EntreeDe(gs, g) case Some(e) => e in gs && e.groupe == g case None => forall i :: 0 <= i < |gs| ==> gs[i].groupe != g
  {
    if gs != [] {
      EntreeConnue(gs[..|gs| - 1], g);
    }
  }

  /**
   Agreement, amount by amount: total, base and VAT of each of our groups, zero for the groups that we do not have, and
   both totals of the invoice.
   */
  lemma AccordMontantParMontant(nous: TotauxFacture, dgi: Montants)
    requires forall j, k :: 0 <= j < k < |nous.groupes| ==> nous.groupes[j].groupe != nous.groupes[k].groupe
    ensures Accord(nous, dgi) <==>
              && (forall e :: e in nous.groupes ==>
                    Recu(dgi, Ta(e.groupe)) == Some(e.total) && Recu(dgi, Ha(e.groupe)) == Some(e.base) && Recu(dgi, Va(e.groupe)) == Some(e.tva))
              && (forall g :: (forall i :: 0 <= i < |nous.groupes| ==> nous.groupes[i].groupe != g) ==>
                    Recu(dgi, Ta(g)) == Some(0) && Recu(dgi, Ha(g)) == Some(0) && Recu(dgi, Va(g)) == Some(0))
              && Recu(dgi, Champ.Total) == Some(nous.total) && Recu(dgi, VTotal) == Some(nous.tva)
  {
    hide Recu, EntreeDe;
    forall g: Groupe
      ensures match EntreeDe(nous.groupes, g)
              case Some(e) => e in nous.groupes && e.groupe == g
              case None => forall i :: 0 <= i < |nous.groupes| ==> nous.groupes[i].groupe != g
    {
      EntreeConnue(nous.groupes, g);
    }
    forall i | 0 <= i < |nous.groupes|
      ensures EntreeDe(nous.groupes, nous.groupes[i].groupe) == Some(nous.groupes[i])
    {
      EntreeUnique(nous.groupes, i);
    }
    if Accord(nous, dgi) {
      forall e | e in nous.groupes
        ensures Recu(dgi, Ta(e.groupe)) == Some(e.total) && Recu(dgi, Ha(e.groupe)) == Some(e.base) && Recu(dgi, Va(e.groupe)) == Some(e.tva)
      {
        assert Concorde(nous, dgi, Ta(e.groupe)) && Concorde(nous, dgi, Ha(e.groupe)) && Concorde(nous, dgi, Va(e.groupe));
      }
      forall g: Groupe | forall i :: 0 <= i < |nous.groupes| ==> nous.groupes[i].groupe != g
        ensures Recu(dgi, Ta(g)) == Some(0) && Recu(dgi, Ha(g)) == Some(0) && Recu(dgi, Va(g)) == Some(0)
      {
        assert Concorde(nous, dgi, Ta(g)) && Concorde(nous, dgi, Ha(g)) && Concorde(nous, dgi, Va(g));
      }
      assert Concorde(nous, dgi, Champ.Total) && Concorde(nous, dgi, VTotal);
    }
  }

  /** Amounts equal to ours, field by field. */
  function MontantsDe(nous: TotauxFacture): Montants {
    map c | c in Champs() :: Nombre(Attendu(nous, c) as real / 100.0)
  }

  /** The server may always agree. */
  lemma AccordPossible(nous: TotauxFacture)
    ensures Accord(nous, MontantsDe(nous))
  {
    forall c
      ensures Concorde(nous, MontantsDe(nous), c)
    {
      ChampsComplet(c);
      CentimesExacts(Attendu(nous, c));
    }
  }

  /** Totals that no comparison can tell apart. */
  ghost predicate MemesMontants(a: TotauxFacture, b: TotauxFacture) {
    forall c :: Attendu(a, c) == Attendu(b, c)
  }

  /** Amounts that agree with some totals agree with others exactly when those show the same amounts. */
  lemma AccordSsi(a: TotauxFacture, b: TotauxFacture, dgi: Montants)
    requires Accord(a, dgi)
    ensures Accord(b, dgi) <==> MemesMontants(a, b)
  {
    hide Recu, Attendu;
    if Accord(b, dgi) {
      forall c ensures Attendu(a, c) == Attendu(b, c) { assert Concorde(a, dgi, c) && Concorde(b, dgi, c); }
    } else {
      var c :| !Concorde(b, dgi, c);
      assert Concorde(a, dgi, c);
    }
  }

  lemma CentimesExacts(x: int)
    ensures EnCentimes(Nombre(x as real / 100.0)) == Some(x)
  {
    assert x as real / 100.0 * 100.0 == x as real;
  }

  lemma {:induction false} EcartsConcat(nous: TotauxFacture, dgi: Montants, a: seq<Champ>, b: seq<Champ>)
    ensures EcartsDe(nous, dgi, a + b) == EcartsDe(nous, dgi, a) + EcartsDe(nous, dgi, b)
  {
    if b == [] {
      assert a + b == a;
    } else {
      assert (a + b)[..|a + b| - 1] == a + b[..|b| - 1];
      EcartsConcat(nous, dgi, a, b[..|b| - 1]);
    }
  }

  method IndexerGroupes(gs: seq<TotalGroupe>) returns (parGroupe: map<Groupe, TotalGroupe>)
    ensures forall g :: EntreeDe(gs, g) == if g in parGroupe then Some(parGroupe[g]) else None
  {
    parGroupe := map[];
    for i := 0 to |gs|
      invariant forall g :: EntreeDe(gs[..i], g) == if g in parGroupe then Some(parGroupe[g]) else None
    {
      assert gs[..i + 1][..i] == gs[..i];
      parGroupe := parGroupe[gs[i].groupe := gs[i]];
    }
    assert gs[..|gs|] == gs;
  }

  /** Compares the given fields; a group field that is absent or null counts for zero. */
  method ComparerChamps(nous: TotauxFacture, dgi: Montants, champs: seq<(Champ, int)>) returns (ecarts: seq<Ecart>)
    requires forall i :: 0 <= i < |champs| ==> champs[i].1 == Attendu(nous, champs[i].0)
    ensures ecarts == EcartsDe(nous, dgi, seq(|champs|, i requires 0 <= i < |champs| => champs[i].0))
  {
    ecarts := [];
    ghost var cs := seq(|champs|, i requires 0 <= i < |champs| => champs[i].0);
    for i := 0 to |champs|
      invariant ecarts == EcartsDe(nous, dgi, cs[..i])
    {
      var (champ, attendu) := champs[i];
      assert cs[..i + 1][..i] == cs[..i];
      if champ !in dgi || dgi[champ] == Nul {
        if attendu != 0 {
          ecarts := ecarts + [Ecart(champ, attendu, Some(0))];
        }
      } else {
        var recu := EnCentimes(dgi[champ]);
        if recu != Some(attendu) {
          ecarts := ecarts + [Ecart(champ, attendu, recu)];
        }
      }
    }
    assert cs[..|cs|] == cs;
  }

  /** One group: its total, its taxable amount and its VAT. */
  method ComparerGroupe(nous: TotauxFacture, dgi: Montants, parGroupe: map<Groupe, TotalGroupe>, g: Groupe) returns (ecarts: seq<Ecart>)
    requires forall h :: EntreeDe(nous.groupes, h) == if h in parGroupe then Some(parGroupe[h]) else None
    ensures ecarts == EcartsDe(nous, dgi, ChampsDe(g))
  {
    hide EcartsDe, Concorde, Recu;
    var e := if g in parGroupe then parGroupe[g] else TotalGroupe(g, 0, 0, 0, 0);
    var champs := [(Ta(g), e.total), (Ha(g), e.base), (Va(g), e.tva)];
    ecarts := ComparerChamps(nous, dgi, champs);
    assert seq(|champs|, i requires 0 <= i < |champs| => champs[i].0) == ChampsDe(g);
  }

  /** comparerMontants: group by group, then the two totals. */
  method ComparerMontants(nous: TotauxFacture, dgi: Montants) returns (ecarts: seq<Ecart>)
    ensures ecarts == EcartsDe(nous, dgi, Champs())
    ensures ecarts == [] <==> Accord(nous, dgi)
  {
    hide Concorde, Recu, Accord, EntreeDe, ChampsDe;
    ecarts := [];
    var parGroupe := IndexerGroupes(nous.groupes);
    for k := 0 to |GROUPES|
      invariant ecarts == EcartsDe(nous, dgi, ChampsDes(GROUPES[..k]))
    {
      var es := ComparerGroupe(nous, dgi, parGroupe, GROUPES[k]);
      assert GROUPES[..k + 1][..k] == GROUPES[..k];
      EcartsConcat(nous, dgi, ChampsDes(GROUPES[..k]), ChampsDe(GROUPES[k]));
      ecarts := ecarts + es;
    }
    assert GROUPES[..|GROUPES|] == GROUPES;
    var totaux := [(Total, nous.total as int), (VTotal, nous.tva as int)];
    var es := ComparerChamps(nous, dgi, totaux);
    assert seq(|totaux|, i requires 0 <= i < |totaux| => totaux[i].0) == [Total, VTotal];
    EcartsConcat(nous, dgi, ChampsDes(GROUPES), [Total, VTotal]);
    ecarts := ecarts + es;
    AucunEcartSsiAccord(nous, dgi);
  }

  /** montantsDeConfirmation: the e-MCF's own totals are sent back. */
  function MontantsDeConfirmation(dgi: Montants): (Valeur, Valeur) {
    (if Total in dgi then dgi[Total] else Illisible, if VTotal in dgi then dgi[VTotal] else Illisible)
  }

  /** A number of units is read to the nearest cent, halves up. */
  lemma CentimesProches(r: real, c: int)
    ensures EnCentimes(Nombre(r)) == Some(c) <==> c as real - 0.5 <= 100.0 * r < c as real + 0.5
  {
  }

  /**
   When the amounts agree, CONFIRM sends back our total, then our VAT, to the cent, exactly when the DGI sent them; it may
   only leave out an amount that is zero, and what CONFIRM then sends is not a number.
   */
  lemma ConfirmationDeNosMontants(nous: TotauxFacture, dgi: Montants)
    requires Accord(nous, dgi)
    ensures var (total, tva) := MontantsDeConfirmation(dgi);
            && (EnCentimes(total) == Some(nous.total) <==> Champ.Total in dgi) && (EnCentimes(tva) == Some(nous.tva) <==> VTotal in dgi)
    ensures (Champ.Total !in dgi ==> nous.total == 0) && (VTotal !in dgi ==> nous.tva == 0)
  {
    assert Concorde(nous, dgi, Champ.Total) && Concorde(nous, dgi, VTotal);
  }
}
