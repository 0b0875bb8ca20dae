/** Reference tables of the normalised invoice (groupes.ts). */
module Groupes {

  datatype Groupe = A | B | C | D | E | F | G | H | I | J | K | L | M | N | O | P

  const GROUPES: seq<Groupe> :=
    [Groupe.A, Groupe.B, Groupe.C, Groupe.D, Groupe.E, Groupe.F, Groupe.G, Groupe.H,
     Groupe.I, Groupe.J, Groupe.K, Groupe.L, Groupe.M, Groupe.N, Groupe.O, Groupe.P]

  /** VAT rates in whole percent; N is apart: its whole amount is VAT. */
  function Taux2026(g: Groupe): nat {
    match g
    case B => 16
    case F => 16
    case C => 5
    case G => 5
    case O => 1
    case P => 1
    case _ => 0
  }

  datatype TypeFacture = FV | FT | FA | EV | ET | EA

  /** What becomes of an invoice in the database. */
  datatype Statut = Provisional | Pending | Confirmed | Failed | Abandoned

  predicate EstAvoir(t: TypeFacture) {
    t == FA || t == EA
  }

  lemma GroupesComplet(g: Groupe)
    ensures g in GROUPES
  {
    match g
    case A => assert GROUPES[0] == g;
    case B => assert GROUPES[1] == g;
    case C => assert GROUPES[2] == g;
    case D => assert GROUPES[3] == g;
    case E => assert GROUPES[4] == g;
    case F => assert GROUPES[5] == g;
    case G => assert GROUPES[6] == g;
    case H => assert GROUPES[7] == g;
    case I => assert GROUPES[8] == g;
    case J => assert GROUPES[9] == g;
    case K => assert GROUPES[10] == g;
    case L => assert GROUPES[11] == g;
    case M => assert GROUPES[12] == g;
    case N => assert GROUPES[13] == g;
    case O => assert GROUPES[14] == g;
    case P => assert GROUPES[15] == g;
  }

  /** Each group occurs once in gs. */
  ghost predicate ToutesUneFois(gs: seq<Groupe>) {
    forall g :: multiset(gs)[g] == 1
  }

  function Rang(g: Groupe): nat {
    match g
    case A => 0 case B => 1 case C => 2 case D => 3 case E => 4 case F => 5 case G => 6 case H => 7
    case I => 8 case J => 9 case K => 10 case L => 11 case M => 12 case N => 13 case O => 14 case P => 15
  }

  lemma RangDansLaListe(i: nat)
    requires i < |GROUPES|
    ensures Rang(GROUPES[i]) == i
  {
  }

  lemma {:induction false} UneSeuleFois<T>(s: seq<T>, x: T)
    requires x in s && forall i, j :: 0 <= i < j < |s| ==> s[i] != s[j]
    ensures multiset(s)[x] == 1
  {
    var debut, dernier := s[..|s| - 1], s[|s| - 1];
    assert s == debut + [dernier];
    if x == dernier {
      assert x !in multiset(debut);
    } else {
      UneSeuleFois(debut, x);
    }
  }

  lemma GroupesUneFois()
    ensures ToutesUneFois(GROUPES)
  {
    forall i, j | 0 <= i < j < |GROUPES|
      ensures GROUPES[i] != GROUPES[j]
    {
      RangDansLaListe(i);
      RangDansLaListe(j);
    }
    forall g: Groupe
      ensures multiset(GROUPES)[g] == 1
    {
      GroupesComplet(g);
      UneSeuleFois(GROUPES, g);
    }
  }
}
