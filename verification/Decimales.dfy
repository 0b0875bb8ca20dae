/**
 Decimal texts: the parser behind quantities (3 decimals) and exchange rates (4 decimals), and the
 quantity printer of the article report.
 */
module Decimales {
  import opened Wrappers

  type Milliemes = nat

  datatype ErreurDecimale = MalFormee | NonPositive

  predicate EstChiffre(c: char) {
    '0' <= c <= '9'
  }

  predicate TousChiffres(s: string) {
    forall i :: 0 <= i < |s| ==> EstChiffre(s[i])
  }

  /** ASCII part of the white space that JavaScript's trim removes. */
  predicate EstEspace(c: char) {
    c == ' ' || c == '\t' || c == '\n' || c == '\r' || c == '\U{0B}' || c == '\U{0C}'
  }

  function SansEspacesAvant(s: string): string {
    if s != "" && EstEspace(s[0]) then SansEspacesAvant(s[1..]) else s
  }

  function SansEspacesApres(s: string): string {
    if s != "" && EstEspace(s[|s| - 1]) then SansEspacesApres(s[..|s| - 1]) else s
  }

  /** Only the first comma is replaced, as String.replace does. */
  function VirguleEnPoint(s: string): string {
    if s == "" then "" else if s[0] == ',' then "." + s[1..] else [s[0]] + VirguleEnPoint(s[1..])
  }

  function AvantPoint(s: string): (r: string)
    ensures r <= s
  {
    if s == "" || s[0] == '.' then "" else [s[0]] + AvantPoint(s[1..])
  }

  /** The number a digit string writes, most significant digit first. */
  function Entier(s: string): nat
    requires TousChiffres(s)
  {
    if s == "" then 0 else 10 * Entier(s[..|s| - 1]) + (s[|s| - 1] as int - '0' as int)
  }

  function Zeros(n: nat): (r: string)
    ensures |r| == n && TousChiffres(r)
  {
    seq(n, _ => '0')
  }

  function Puissance10(d: nat): (r: nat)
    ensures r > 0
  {
    if d == 0 then 1 else 10 * Puissance10(d - 1)
  }

  /** The number written "ent.dec", in units of 10^-d: the decimals are padded with zeros. */
  function Nombre(ent: string, dec: string, d: nat): nat
    requires TousChiffres(ent) && TousChiffres(dec) && |dec| <= d
  {
    Entier(ent) * Puissance10(d) + Entier(dec + Zeros(d - |dec|))
  }

  /** Surrounding white space removed, a comma read as a point. */
  function Nettoyer(q: string): string {
    VirguleEnPoint(SansEspacesApres(SansEspacesAvant(q)))
  }

  /** Digits, then optionally a point and one to d digits. */
  predicate BienForme(s: string, d: nat) {
    var ent := AvantPoint(s);
    && ent != "" && TousChiffres(ent)
    && (|ent| < |s| ==> 1 <= |s| - |ent| - 1 <= d && TousChiffres(s[|ent| + 1..]))
  }

  function Decimales(s: string): string {
    var ent := AvantPoint(s);
    if |ent| == |s| then "" else s[|ent| + 1..]
  }

  /**
   A decimal text as a whole number of 10^-d: digits, then optionally a point (or comma) and one to d
   digits. Zero is refused.
   */
  function Lire(q: string, d: nat): Result<nat, ErreurDecimale> {
    var s := Nettoyer(q);
    if !BienForme(s, d) then Err(MalFormee)
    else
      var m := Nombre(AvantPoint(s), Decimales(s), d);
      if m == 0 then Err(NonPositive) else Ok(m)
  }

  /** quantiteEnMilliemes. */
  function QuantiteEnMilliemes(q: string): Result<Milliemes, ErreurDecimale> {
    Lire(q, 3)
  }

  /** tauxEnDixMilliemes. */
  function TauxEnDixMilliemes(taux: string): Result<nat, ErreurDecimale> {
    Lire(taux, 4)
  }

  // ------------------------------------------------------------------ printing

  function Chiffre(n: nat): (c: char)
    requires n < 10
    ensures EstChiffre(c) && c as int - '0' as int == n
  {
    (n + '0' as int) as char
  }

  /** Decimal writing of a natural number, without leading zeros. */
  function Ecrire(n: nat): (s: string)
    ensures s != "" && TousChiffres(s) && Entier(s) == n
  {
    if n < 10 then [Chiffre(n)] else
      var debut := Ecrire(n / 10);
      var s := debut + [Chiffre(n % 10)];
      assert s[..|s| - 1] == debut;
      s
  }

  /** Number.toFixed(3) of a number of thousandths. */
  function TroisDecimales(m: Milliemes): string {
    Ecrire(m / 1000) + "." + [Chiffre(m / 100 % 10), Chiffre(m / 10 % 10), Chiffre(m % 10)]
  }

  function SansZerosFinaux(s: string): string {
    if s != "" && s[|s| - 1] == '0' then SansZerosFinaux(s[..|s| - 1]) else s
  }

  /** The effect of replacing the pattern "an optional point, then zeros to the end" by nothing. */
  function SansDecimalesNulles(s: string): string {
    var r := SansZerosFinaux(s);
    if |r| < |s| && r != "" && r[|r| - 1] == '.' then r[..|r| - 1] else r
  }

  function EnTexte(m: Milliemes): string {
    var s := SansDecimalesNulles(TroisDecimales(m));
    if s == "" then "0" else s
  }

  // ------------------------------------------------------------------ the round trip

  lemma {:induction false} AvantPointConcat(ent: string, reste: string)
    requires TousChiffres(ent) && (reste == "" || reste[0] == '.')
    ensures AvantPoint(ent + reste) == ent
  {
    if ent == "" {
      assert ent + reste == reste;
    } else {
      assert EstChiffre(ent[0]);
      assert (ent + reste)[1..] == ent[1..] + reste;
      AvantPointConcat(ent[1..], reste);
    }
  }

  lemma {:induction false} SansVirgule(s: string)
    requires forall i :: 0 <= i < |s| ==> s[i] != ','
    ensures VirguleEnPoint(s) == s
  {
    if s != "" {
      SansVirgule(s[1..]);
    }
  }

  lemma NettoyageNeutre(s: string)
    requires s != "" && EstChiffre(s[0]) && EstChiffre(s[|s| - 1])
    requires forall i :: 0 <= i < |s| ==> s[i] != ','
    ensures Nettoyer(s) == s
  {
    SansVirgule(s);
  }

  /** The text "ent" or "ent.dec". */
  function Ecriture(ent: string, dec: string): string {
    if dec == "" then ent else ent + "." + dec
  }

  lemma EcritureBienFormee(ent: string, dec: string, d: nat)
    requires ent != "" && TousChiffres(ent) && TousChiffres(dec) && |dec| <= d
    ensures var s := Ecriture(ent, dec); BienForme(s, d) && AvantPoint(s) == ent && Decimales(s) == dec
  {
    var reste := if dec == "" then "" else "." + dec;
    assert Ecriture(ent, dec) == ent + reste;
    AvantPointConcat(ent, reste);
    if dec != "" {
      assert Ecriture(ent, dec)[|ent| + 1..] == dec;
    }
  }

  /** Reading a well-formed text: its whole part, and its decimals padded to d digits. */
  lemma LireBienForme(ent: string, dec: string, d: nat)
    requires ent != "" && TousChiffres(ent) && TousChiffres(dec) && |dec| <= d
    ensures var m := Nombre(ent, dec, d);
            Lire(Ecriture(ent, dec), d) == if m == 0 then Err(NonPositive) else Ok(m)
  {
    var s := Ecriture(ent, dec);
    EcritureBienFormee(ent, dec, d);
    assert EstChiffre(s[0]) && EstChiffre(s[|s| - 1]) by {
      assert s[0] == ent[0];
      assert s[|s| - 1] == if dec == "" then ent[|ent| - 1] else dec[|dec| - 1];
    }
    assert forall i :: 0 <= i < |s| ==> s[i] == '.' || EstChiffre(s[i]);
    NettoyageNeutre(s);
  }

  // ------------------------------------------------------------------ exactly what is read

  predicate TousEspaces(s: string) {
    forall i :: 0 <= i < |s| ==> EstEspace(s[i])
  }

  /** White space, digits, then optionally a point or a comma and one to d digits, white space. */
  predicate Forme(q: string, d: nat, avant: string, ent: string, sep: string, dec: string, apres: string) {
    && q == avant + (ent + sep + dec) + apres && TousEspaces(avant) && TousEspaces(apres)
    && ent != "" && TousChiffres(ent) && TousChiffres(dec) && |dec| <= d
    && if dec == "" then sep == "" else sep == "." || sep == ","
  }

  lemma {:induction false} EspacesAvant(avant: string, s: string)
    requires TousEspaces(avant) && (s == "" || !EstEspace(s[0]))
    ensures SansEspacesAvant(avant + s) == s
  {
    if avant == "" {
      assert avant + s == s;
    } else {
      assert (avant + s)[1..] == avant[1..] + s && (avant + s)[0] == avant[0];
      EspacesAvant(avant[1..], s);
    }
  }

  lemma {:induction false} EspacesApres(s: string, apres: string)
    requires TousEspaces(apres) && (s == "" || !EstEspace(s[|s| - 1]))
    ensures SansEspacesApres(s + apres) == s
  {
    if apres == "" {
      assert s + apres == s;
    } else {
      var n := |apres| - 1;
      assert (s + apres)[..|s + apres| - 1] == s + apres[..n] && (s + apres)[|s + apres| - 1] == apres[n];
      EspacesApres(s, apres[..n]);
    }
  }

  lemma {:induction false} UneVirgule(a: string, b: string)
    requires forall i :: 0 <= i < |a| ==> a[i] != ','
    ensures VirguleEnPoint(a + "," + b) == a + "." + b
  {
    if a == "" {
      assert a + "," + b == "," + b && ("," + b)[1..] == b && a + "." + b == "." + b;
    } else {
      assert (a + "," + b)[1..] == a[1..] + "," + b && (a + "," + b)[0] == a[0];
      UneVirgule(a[1..], b);
      assert [a[0]] + (a[1..] + "." + b) == a + "." + b;
    }
  }

  lemma {:induction false} PremiereVirgule(s: string) returns (i: nat)
    ensures i <= |s| && (i < |s| ==> s[i] == ',') && forall k :: 0 <= k < i ==> s[k] != ','
  {
    i := 0;
    if s != "" && s[0] != ',' {
      i := PremiereVirgule(s[1..]);
      assert forall k :: 0 < k <= i ==> s[k] == s[1..][k - 1];
      i := i + 1;
    }
  }

  lemma {:induction false} DebutBlanc(q: string) returns (avant: string)
    ensures TousEspaces(avant) && q == avant + SansEspacesAvant(q)
  {
    avant := "";
    if q != "" && EstEspace(q[0]) {
      var a := DebutBlanc(q[1..]);
      avant := [q[0]] + a;
      assert q == [q[0]] + q[1..];
    }
  }

  lemma {:induction false} FinBlanche(q: string) returns (apres: string)
    ensures TousEspaces(apres) && q == SansEspacesApres(q) + apres
  {
    apres := "";
    if q != "" && EstEspace(q[|q| - 1]) {
      var a := FinBlanche(q[..|q| - 1]);
      apres := a + [q[|q| - 1]];
      assert q == q[..|q| - 1] + [q[|q| - 1]];
    } else {
      assert q == q + "";
    }
  }

  /** A text of the right form is read as its whole part and its padded decimals. */
  lemma LectureDeForme(q: string, d: nat, avant: string, ent: string, sep: string, dec: string, apres: string)
    requires Forme(q, d, avant, ent, sep, dec, apres)
    ensures var m := Nombre(ent, dec, d); Lire(q, d) == if m == 0 then Err(NonPositive) else Ok(m)
  {
    var s := ent + sep + dec;
    assert s[0] == ent[0] && s[|s| - 1] == if dec == "" then ent[|ent| - 1] else dec[|dec| - 1];
    assert q == avant + (s + apres) && (s + apres)[0] == s[0];
    EspacesAvant(avant, s + apres);
    EspacesApres(s, apres);
    var t := Ecriture(ent, dec);
    if sep == "," {
      UneVirgule(ent, dec);
    } else {
      assert s == t;
      SansVirgule(s);
    }
    assert Nettoyer(q) == t;
    EcritureBienFormee(ent, dec, d);
  }

  /** No other text is read. */
  lemma FormeDeLecture(q: string, d: nat) returns (avant: string, ent: string, sep: string, dec: string, apres: string)
    requires Lire(q, d) != Err(MalFormee)
    ensures Forme(q, d, avant, ent, sep, dec, apres)
  {
    hide SansEspacesAvant, SansEspacesApres, VirguleEnPoint, AvantPoint, BienForme, TousEspaces;
    avant := DebutBlanc(q);
    apres := FinBlanche(SansEspacesAvant(q));
    var s := SansEspacesApres(SansEspacesAvant(q));
    ent, sep, dec := FormeSansEspaces(s, d);
    assert q == avant + (s + apres);
  }

  lemma FormeSansEspaces(s: string, d: nat) returns (ent: string, sep: string, dec: string)
    requires BienForme(VirguleEnPoint(s), d)
    ensures s == ent + sep + dec && ent != "" && TousChiffres(ent) && TousChiffres(dec) && |dec| <= d
    ensures if dec == "" then sep == "" else sep == "." || sep == ","
  {
    hide VirguleEnPoint, BienForme, TousChiffres;
    var t := VirguleEnPoint(s);
    var i := PremiereVirgule(s);
    ent, sep, dec := Decoupe(t, d);
    if i == |s| {
      SansVirgule(s);
    } else {
      assert s == s[..i] + "," + s[i + 1..];
      UneVirgule(s[..i], s[i + 1..]);
      UnPoint(s[..i], s[i + 1..]);
      PointUnique(ent, sep, dec, t, i);
      sep := ",";
    }
  }

  lemma Decoupe(t: string, d: nat) returns (ent: string, sep: string, dec: string)
    requires BienForme(t, d)
    ensures t == ent + sep + dec && ent != "" && TousChiffres(ent) && TousChiffres(dec) && |dec| <= d
    ensures if dec == "" then sep == "" else sep == "."
  {
    hide AvantPoint;
    ent, sep, dec := AvantPoint(t), "", "";
    FinDeAvantPoint(t);
    if |ent| < |t| {
      sep, dec := ".", t[|ent| + 1..];
    } else {
      assert t == ent + "" + "";
    }
  }

  lemma UnPoint(a: string, b: string)
    ensures var t := a + "." + b; t[|a|] == '.' && t[..|a|] == a && t[|a| + 1..] == b
  {
  }

  lemma {:induction false} FinDeAvantPoint(t: string)
    ensures |AvantPoint(t)| < |t| ==> t[|AvantPoint(t)|] == '.'
    ensures |AvantPoint(t)| < |t| ==> t == AvantPoint(t) + "." + t[|AvantPoint(t)| + 1..]
  {
    if t != "" && t[0] != '.' {
      FinDeAvantPoint(t[1..]);
    }
  }

  lemma PointUnique(ent: string, sep: string, dec: string, t: string, i: nat)
    requires t == ent + sep + dec && TousChiffres(ent) && TousChiffres(dec) && (if dec == "" then sep == "" else sep == ".")
    requires i < |t| && t[i] == '.'
    ensures i == |ent| && sep == "." && t[..i] == ent && t[i + 1..] == dec
  {
    assert forall k :: 0 <= k < |ent| ==> EstChiffre(ent[k]) && t[k] == ent[k];
    assert forall k :: |ent| + |sep| <= k < |t| ==> EstChiffre(dec[k - |ent| - |sep|]) && t[k] == dec[k - |ent| - |sep|];
  }

  /** A text is read, or refused as worth nothing, exactly when it has the right form; every other text is malformed. */
  lemma LectureExacte(q: string, d: nat)
    ensures Lire(q, d) != Err(MalFormee) <==> exists avant, ent, sep, dec, apres :: Forme(q, d, avant, ent, sep, dec, apres)
  {
    if Lire(q, d) != Err(MalFormee) {
      var avant, ent, sep, dec, apres := FormeDeLecture(q, d);
    } else {
      forall avant, ent, sep, dec, apres | Forme(q, d, avant, ent, sep, dec, apres)
        ensures false
      {
        LectureDeForme(q, d, avant, ent, sep, dec, apres);
      }
    }
  }

  lemma EntierTrois(a: char, b: char, c: char)
    requires EstChiffre(a) && EstChiffre(b) && EstChiffre(c)
    ensures Entier([a, b, c]) == 100 * (a as int - '0' as int) + 10 * (b as int - '0' as int) + (c as int - '0' as int)
  {
    assert [a, b, c][..2] == [a, b] && [a, b][..1] == [a] && [a][..0] == "";
    assert Entier([a]) == a as int - '0' as int;
    assert Entier([a, b]) == 10 * Entier([a]) + (b as int - '0' as int);
  }

  /** The decimals that remain once the final zeros are gone. */
  function DecimalesUtiles(m: Milliemes): (dec: string)
    ensures |dec| <= 3 && TousChiffres(dec)
    ensures dec + Zeros(3 - |dec|) == [Chiffre(m / 100 % 10), Chiffre(m / 10 % 10), Chiffre(m % 10)]
  {
    var a, b, c := Chiffre(m / 100 % 10), Chiffre(m / 10 % 10), Chiffre(m % 10);
    if c != '0' then [a, b, c] else if b != '0' then [a, b] else if a != '0' then [a] else ""
  }

  lemma FormeEnTexte(m: Milliemes)
    ensures EnTexte(m) == Ecriture(Ecrire(m / 1000), DecimalesUtiles(m))
  {
    var ent := Ecrire(m / 1000);
    var a, b, c := Chiffre(m / 100 % 10), Chiffre(m / 10 % 10), Chiffre(m % 10);
    var s0 := ent + ".";
    var s1, s2, s3 := s0 + [a], s0 + [a, b], s0 + [a, b, c];
    assert TroisDecimales(m) == s3;
    assert s3[..|s3| - 1] == s2 && s2[..|s2| - 1] == s1 && s1[..|s1| - 1] == s0 && s0[..|s0| - 1] == ent;
    assert SansZerosFinaux(s0) == s0;
    assert SansZerosFinaux(s1) == if a == '0' then s0 else s1;
    assert SansZerosFinaux(s2) == if b == '0' then SansZerosFinaux(s1) else s2;
    assert SansZerosFinaux(s3) == if c == '0' then SansZerosFinaux(s2) else s3;
  }

  /** Reading a printed quantity gives it back; a printed zero is refused. */
  lemma QuantiteAllerRetour(m: Milliemes)
    ensures QuantiteEnMilliemes(EnTexte(m)) == if m == 0 then Err(NonPositive) else Ok(m)
  {
    FormeEnTexte(m);
    LireBienForme(Ecrire(m / 1000), DecimalesUtiles(m), 3);
    assert Nombre(Ecrire(m / 1000), DecimalesUtiles(m), 3) == m by {
      EntierTrois(Chiffre(m / 100 % 10), Chiffre(m / 10 % 10), Chiffre(m % 10));
      MilleEstPuissance();
      MilliemesEnChiffres(m);
    }
  }

  lemma MilleEstPuissance()
    ensures Puissance10(3) == 1000
  {
    assert Puissance10(1) == 10;
    assert Puissance10(2) == 100;
  }

  lemma MilliemesEnChiffres(m: nat)
    ensures m == m / 1000 * 1000 + 100 * (m / 100 % 10) + 10 * (m / 10 % 10) + m % 10
  {
    assert m / 100 == m / 10 / 10;
    assert m / 1000 == m / 100 / 10;
  }

  /** Two different quantities are never printed alike. */
  lemma EnTexteInjectif(m: Milliemes, n: Milliemes)
    requires EnTexte(m) == EnTexte(n)
    ensures m == n
  {
    QuantiteAllerRetour(m);
    QuantiteAllerRetour(n);
  }

  lemma {:induction false} SansZeroInitial(n: nat)
    requires n > 0
    ensures Ecrire(n)[0] != '0'
  {
    if n >= 10 {
      SansZeroInitial(n / 10);
      assert Ecrire(n)[0] == Ecrire(n / 10)[0];
    }
  }

  /** A printed quantity has no useless zero: none before a whole part, none nor a point at the end of its decimals. */
  lemma EnTexteSansZeroInutile(m: Milliemes)
    ensures var t := EnTexte(m);
            && t != "" && (m >= 1000 ==> t[0] != '0') && (m < 1000 ==> t[0] == '0' && (|t| > 1 ==> t[1] == '.'))
            && ('.' in t ==> t[|t| - 1] != '0' && t[|t| - 1] != '.')
  {
    hide EnTexte;
    FormeEnTexte(m);
    var ent, dec := Ecrire(m / 1000), DecimalesUtiles(m);
    if m >= 1000 {
      SansZeroInitial(m / 1000);
    }
    assert dec == "" ==> forall i :: 0 <= i < |ent| ==> EstChiffre(ent[i]);
    if dec != "" {
      assert Ecriture(ent, dec)[|ent| + |dec|] == dec[|dec| - 1];
    }
  }
}
