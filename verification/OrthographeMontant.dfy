/**
 The spelling rules of the amounts in words (montant-en-lettres.ts): which words stand in the text of a number, and
 how they are joined, told from the number alone.
 */
module OrthographeMontant {
  import opened Wrappers
  import opened MontantEnLettres
  import opened LectureMontant

  // ------------------------------------------------------------------ words and tokens

  /** A word of the vocabulary stands in the list exactly when its token does. */
  lemma MotPresent(js: seq<Jeton>, j: Jeton)
    ensures Texte(j) in Textes(js) <==> j in js
  {
    hide Texte, Reconnaitre;
    TexteReconnu(j);
    forall i | 0 <= i < |js|
      ensures Texte(js[i]) == Texte(j) <==> js[i] == j
    {
      TexteReconnu(js[i]);
    }
    if j in js {
      var i :| 0 <= i < |js| && js[i] == j;
      assert Textes(js)[i] == Texte(j);
    }
  }

  // ------------------------------------------------------------------ below a thousand

  /** A round number of hundreds, at least two of them. */
  predicate Rond(g: nat) {
    g % 100 == 0 && g >= 200
  }

  /** Twenty-one to seventy-one: "et" stands before "un" or "onze". */
  predicate AvecEt(g: nat) {
    g % 100 == 21 || g % 100 == 31 || g % 100 == 41 || g % 100 == 51 || g % 100 == 61 || g % 100 == 71
  }

  /** Words that are neither those of units nor those of plain tens. */
  predicate Remarquable(j: Jeton) {
    !SousCent(j) || j == Vingts || j == Zero
  }

  lemma MotsDesUnites(u: nat, j: Jeton)
    requires u < 20 && Remarquable(j)
    ensures j in JetonsUnite(u) <==> j == Zero && u == 0
  {
  }

  lemma MotsDesDizaines(d: nat, j: Jeton)
    requires 2 <= d < 10 && Remarquable(j)
    ensures j !in JetonsDizaine(d)
  {
  }

  lemma MotsDeCent(n: nat, final: bool, j: Jeton)
    requires n < 100 && Remarquable(j)
    ensures j in JetonsCent(n, final) <==> (j == Zero && n == 0) || (j == Vingts && final && n == 80) || (j == Et && AvecEt(n))
  {
    hide JetonsUnite, JetonsDizaine;
    if n < 20 {
      MotsDesUnites(n, j);
    } else {
      MotsDesUnites(UniteApres(n), j);
      MotsDesDizaines(n / 10, j);
    }
  }

  /** Where a group below a thousand calls for the word j; final: its "cents" and "vingts" may take their s. */
  predicate AttenduMille(n: nat, final: bool, j: Jeton) {
    match j
    case Zero => n == 0
    case Vingts => final && n % 100 == 80
    case Et => AvecEt(n)
    case Cents => final && Rond(n)
    case Cent => n >= 100 && !(final && Rond(n))
    case _ => false
  }

  lemma MotsDeMille(n: nat, final: bool, j: Jeton)
    requires n < 1000 && Remarquable(j)
    ensures j in JetonsMille(n, final) <==> AttenduMille(n, final, j)
  {
    hide JetonsUnite, JetonsCent, Remarquable;
    MotsDeCent(n % 100, final, j);
    if n >= 200 {
      MotsDesUnites(n / 100, j);
    }
  }

  // ------------------------------------------------------------------ whole numbers

  predicate EstNomDeRang(j: Jeton) {
    j == Mille || EstRang(j)
  }

  /** Where a group and the name of its rank call for the word j. */
  predicate AttenduGroupe(m: nat, un: Jeton, plusieurs: Jeton, j: Jeton) {
    m > 0 && (AttenduMille(m, true, j) || j == if m > 1 then plusieurs else un)
  }

  predicate AttenduMilliers(m: nat, j: Jeton) {
    m > 0 && ((m > 1 && AttenduMille(m, false, j)) || j == Mille)
  }

  /** Where the number n calls for the word j. */
  predicate Attendu(n: nat, j: Jeton) {
    if n == 0 then j == Zero else
      || AttenduGroupe(n / 1_000_000_000, Milliard, Milliards, j) || AttenduGroupe(n / 1_000_000 % 1000, Million, Millions, j)
      || AttenduMilliers(n / 1000 % 1000, j) || (n % 1000 > 0 && AttenduMille(n % 1000, true, j))
  }

  lemma MotsDuGroupe(m: nat, un: Jeton, plusieurs: Jeton, j: Jeton)
    requires m < 1000 && Remarquable(j)
    ensures j in JetonsGroupe(m, un, plusieurs) <==> AttenduGroupe(m, un, plusieurs, j)
  {
    hide JetonsMille, Remarquable, AttenduMille;
    MotsDeMille(m, true, j);
  }

  lemma MotsDesMilliers(m: nat, j: Jeton)
    requires m < 1000 && Remarquable(j)
    ensures j in JetonsMilliers(m) <==> AttenduMilliers(m, j)
  {
    hide JetonsMille, Remarquable, AttenduMille;
    MotsDeMille(m, false, j);
  }

  lemma MotsDuReste(m: nat, j: Jeton)
    requires m < 1000 && Remarquable(j)
    ensures j in JetonsUnites(m) <==> m > 0 && AttenduMille(m, true, j)
  {
    hide JetonsMille, Remarquable, AttenduMille;
    MotsDeMille(m, true, j);
  }

  lemma MotsDuNombre(n: nat, j: Jeton)
    requires n <= MAXIMUM && Remarquable(j)
    ensures j in JetonsNombre(n) <==> Attendu(n, j)
  {
    hide JetonsGroupe, JetonsMilliers, JetonsUnites, Remarquable, AttenduGroupe, AttenduMilliers, AttenduMille;
    Tranches(n);
    MotsDuGroupe(n / 1_000_000_000, Milliard, Milliards, j);
    MotsDuGroupe(n / 1_000_000 % 1000, Million, Millions, j);
    MotsDesMilliers(n / 1000 % 1000, j);
    MotsDuReste(n % 1000, j);
  }

  lemma ReglesDesCentaines(n: nat)
    requires n <= MAXIMUM
    ensures var a, b, c, d := n / 1_000_000_000, n / 1_000_000 % 1000, n / 1000 % 1000, n % 1000;
            && (Attendu(n, Cents) <==> Rond(a) || Rond(b) || Rond(d))
            && (Attendu(n, Cent) <==> (a >= 100 && !Rond(a)) || (b >= 100 && !Rond(b)) || c >= 100 || (d >= 100 && !Rond(d)))
            && (Attendu(n, Vingts) <==> a % 100 == 80 || b % 100 == 80 || d % 100 == 80)
            && (Attendu(n, Et) <==> AvecEt(a) || AvecEt(b) || AvecEt(c) || AvecEt(d))
  {
  }

  lemma ReglesDesRangs(n: nat)
    requires n <= MAXIMUM
    ensures var a, b, c := n / 1_000_000_000, n / 1_000_000 % 1000, n / 1000 % 1000;
            && (Attendu(n, Zero) <==> n == 0) && (Attendu(n, Mille) <==> c > 0)
            && (Attendu(n, Million) <==> b == 1) && (Attendu(n, Millions) <==> b > 1)
            && (Attendu(n, Milliard) <==> a == 1) && (Attendu(n, Milliards) <==> a > 1)
  {
  }

  // ------------------------------------------------------------------ the rules, on the text

  ghost predicate EstMot(w: string, s: string) {
    w in Mots(s)
  }

  /**
   Number by number, which words stand in the text: "cents" takes its s exactly when it ends a group of billions,
   millions or units, "vingts" likewise, "cent", "mille", "million(s)" and "milliard(s)" stand where the number has
   them, and "et" only for 21 to 71. a, b, c, d: billions, millions, thousands and units.
   */
  lemma MotsDuTexte(n: nat)
    requires n <= MAXIMUM
    ensures var t, a, b, c, d := EnLettres(n), n / 1_000_000_000, n / 1_000_000 % 1000, n / 1000 % 1000, n % 1000;
            && (EstMot("zéro", t) <==> n == 0)
            && (EstMot("cents", t) <==> Rond(a) || Rond(b) || Rond(d))
            && (EstMot("cent", t) <==> (a >= 100 && !Rond(a)) || (b >= 100 && !Rond(b)) || c >= 100 || (d >= 100 && !Rond(d)))
            && (EstMot("vingts", t) <==> a % 100 == 80 || b % 100 == 80 || d % 100 == 80)
            && (EstMot("et", t) <==> AvecEt(a) || AvecEt(b) || AvecEt(c) || AvecEt(d))
            && (EstMot("mille", t) <==> c > 0)
            && (EstMot("million", t) <==> b == 1) && (EstMot("millions", t) <==> b > 1)
            && (EstMot("milliard", t) <==> a == 1) && (EstMot("milliards", t) <==> a > 1)
  {
    hide EnLettres, EstMot, Rond, AvecEt, Texte, Remarquable, Attendu;
    ReglesDesCentaines(n);
    ReglesDesRangs(n);
    UnMot(n, Zero);
    UnMot(n, Cents);
    UnMot(n, Cent);
    UnMot(n, Vingts);
    UnMot(n, Et);
    UnMot(n, Mille);
    UnMot(n, Million);
    UnMot(n, Millions);
    UnMot(n, Milliard);
    UnMot(n, Milliards);
    TextesDesMots();
    TextesDesRangs();
  }

  lemma TextesDesMots()
    ensures Texte(Zero) == "zéro" && Texte(Cents) == "cents" && Texte(Cent) == "cent" && Texte(Vingts) == "vingts" && Texte(Et) == "et"
    ensures Remarquable(Zero) && Remarquable(Cents) && Remarquable(Cent) && Remarquable(Vingts) && Remarquable(Et)
  {
  }

  lemma TextesDesRangs()
    ensures Texte(Mille) == "mille" && Texte(Million) == "million" && Texte(Millions) == "millions"
    ensures Texte(Milliard) == "milliard" && Texte(Milliards) == "milliards"
    ensures Remarquable(Mille) && Remarquable(Million) && Remarquable(Millions) && Remarquable(Milliard) && Remarquable(Milliards)
  {
  }

  lemma UnMot(n: nat, j: Jeton)
    requires n <= MAXIMUM
    ensures Remarquable(j) ==> (EstMot(Texte(j), EnLettres(n)) <==> Attendu(n, j))
  {
    hide Texte, EnLettres, JetonsNombre, Mots, Textes, Assembler, Attendu, Remarquable;
    if Remarquable(j) {
      EcritNombre(n);
      MotPresent(JetonsNombre(n), j);
      MotsDuNombre(n, j);
    }
  }

  lemma Tranches(n: nat)
    ensures n % 1_000_000_000 / 1_000_000 == n / 1_000_000 % 1000 && n % 1_000_000 / 1000 == n / 1000 % 1000
  {
    assert n == n / 1_000_000_000 * 1_000_000_000 + n % 1_000_000_000;
    assert n / 1_000_000 == n / 1_000_000_000 * 1000 + n % 1_000_000_000 / 1_000_000;
    assert n == n / 1_000_000 * 1_000_000 + n % 1_000_000;
    assert n / 1000 == n / 1_000_000 * 1000 + n % 1_000_000 / 1000;
  }

  /** The words of a number, read in its text, with a hyphen between two words below a hundred and a space elsewhere. */
  lemma TraitsDUnion(n: nat)
    requires n <= MAXIMUM
    ensures var js := Jetons(Mots(EnLettres(n))); js.Some? && EnLettres(n) == Assembler(js.value)
  {
    hide EnLettres, JetonsNombre, Mots, Assembler;
    EcritNombre(n);
    TextesReconnus(JetonsNombre(n));
  }

  /** The same for an amount. */
  lemma TraitsDUnionDuMontant(cents: nat, d: Devise)
    requires cents / 100 <= MAXIMUM
    ensures var js := Jetons(Mots(Phrase(cents, d))); js.Some? && Phrase(cents, d) == Assembler(js.value)
  {
    hide Phrase, JetonsPhrase, Mots, Assembler;
    EcritPhrase(cents, d);
    TextesReconnus(JetonsPhrase(cents, d));
  }

  // ------------------------------------------------------------------ "mille", never "un mille"

  lemma RangUnique(js: seq<Jeton>, j: Jeton, ks: seq<Jeton>, i: nat)
    requires j !in js && j !in ks && i < |js + [j] + ks| && (js + [j] + ks)[i] == j
    ensures i == |js|
  {
  }

  lemma FinDuGroupe(m: nat, un: Jeton, plusieurs: Jeton)
    requires m < 1000
    ensures m > 0 ==> var js := JetonsGroupe(m, un, plusieurs); js != [] && (js[|js| - 1] == un || js[|js| - 1] == plusieurs)
  {
  }

  /** For one thousand, "mille" follows nothing, or the name of the millions or billions. */
  lemma MilleSansUn(n: nat, i: nat)
    requires n <= MAXIMUM && n / 1000 % 1000 == 1
    requires var ws := Mots(EnLettres(n)); i < |ws| && ws[i] == "mille"
    ensures i == 0 || Mots(EnLettres(n))[i - 1] in {"million", "millions", "milliard", "milliards"}
  {
    hide EnLettres, JetonsNombre, Mots, Texte, Assembler;
    EcritNombre(n);
    TextesDesRangs();
    TexteReconnu(Mille);
    TexteReconnu(JetonsNombre(n)[i]);
    MilleApresRang(n, i);
  }

  lemma MilleApresRang(n: nat, i: nat)
    requires n <= MAXIMUM && n / 1000 % 1000 == 1 && i < |JetonsNombre(n)| && JetonsNombre(n)[i] == Mille
    ensures i == 0 || EstRang(JetonsNombre(n)[i - 1])
  {
    hide JetonsGroupe, JetonsUnites;
    var a, b, d := n / 1_000_000_000, n % 1_000_000_000 / 1_000_000, n % 1000;
    Tranches(n);
    var ja, jb, ks := JetonsGroupe(a, Milliard, Milliards), JetonsGroupe(b, Million, Millions), JetonsUnites(d);
    var js := ja + jb;
    assert JetonsNombre(n) == js + [Mille] + ks;
    MotsDuGroupe(a, Milliard, Milliards, Mille);
    MotsDuGroupe(b, Million, Millions, Mille);
    MotsDuReste(d, Mille);
    RangUnique(js, Mille, ks, i);
    FinDuGroupe(a, Milliard, Milliards);
    FinDuGroupe(b, Million, Millions);
    if i > 0 {
      assert JetonsNombre(n)[i - 1] == js[|js| - 1];
      assert b == 0 ==> jb == [] by { GroupeVide(Million, Millions); }
      assert a == 0 ==> ja == [] by { GroupeVide(Milliard, Milliards); }
    }
  }

  lemma GroupeVide(un: Jeton, plusieurs: Jeton)
    ensures JetonsGroupe(0, un, plusieurs) == []
  {
  }

  // ------------------------------------------------------------------ amounts

  function DernierMotDe(s: string): string {
    Mots(s)[|Mots(s)| - 1]
  }

  /** The currency is in the plural from two units on, the subdivision from two cents on; no cents, no subdivision. */
  lemma MotsDuMontant(cents: nat, d: Devise)
    requires cents / 100 <= MAXIMUM
    ensures var t, entier, reste := Phrase(cents, d), cents / 100, cents % 100;
            && (EstMot("franc", t) <==> d == CDF && entier <= 1) && (EstMot("francs", t) <==> d == CDF && entier >= 2)
            && (EstMot("dollar", t) <==> d == USD && entier <= 1) && (EstMot("dollars", t) <==> d == USD && entier >= 2)
            && (EstMot("centime", t) <==> d == CDF && reste == 1) && (EstMot("centimes", t) <==> d == CDF && reste >= 2)
            && DernierMotDe(t) == match d
                 case CDF => if reste == 0 then "congolais" else if reste == 1 then "centime" else "centimes"
                 case USD => if reste == 1 then "cent" else if reste > 1 then "cents" else if entier <= 1 then "américain" else "américains"
  {
    hide Phrase, Mots, JetonsPhrase, Texte, EstMot, Assembler, DernierMotDe;
    TextesDesFrancs();
    TextesDesDollars();
    MotMonetaire(cents, d, Franc);
    MotMonetaire(cents, d, Francs);
    MotMonetaire(cents, d, Dollar);
    MotMonetaire(cents, d, Dollars);
    MotMonetaire(cents, d, Centime);
    MotMonetaire(cents, d, Centimes);
    FinDuMontant(cents, d);
  }

  lemma TextesDesFrancs()
    ensures Texte(Franc) == "franc" && Texte(Francs) == "francs" && Texte(Congolais) == "congolais"
    ensures Texte(Centime) == "centime" && Texte(Centimes) == "centimes"
  {
  }

  lemma TextesDesDollars()
    ensures Texte(Dollar) == "dollar" && Texte(Dollars) == "dollars" && Texte(Americain) == "américain" && Texte(Americains) == "américains"
    ensures Texte(Cent) == "cent" && Texte(Cents) == "cents"
  {
  }

  lemma MotMonetaire(cents: nat, d: Devise, j: Jeton)
    requires cents / 100 <= MAXIMUM && Monetaire(j)
    ensures EstMot(Texte(j), Phrase(cents, d)) <==>
              j in JetonsMonnaie(d, cents / 100 <= 1) || (cents % 100 > 0 && j == JetonSubdivision(d, cents % 100 == 1))
  {
    hide Phrase, Mots, JetonsPhrase, JetonsNombre, Texte, Assembler, JetonsMonnaie, JetonSubdivision, Attendu, Remarquable;
    EcritPhrase(cents, d);
    MotPresent(JetonsPhrase(cents, d), j);
    MotsDeLaPhrase(cents, d, j);
    JamaisAttendu(cents / 100, j);
    JamaisAttendu(cents % 100, j);
    MotsDuNombre(cents / 100, j);
    MotsDuNombre(cents % 100, j);
  }

  lemma MotsDeLaPhrase(cents: nat, d: Devise, j: Jeton)
    requires cents / 100 <= MAXIMUM && Monetaire(j)
    ensures j in JetonsPhrase(cents, d) <==>
              || j in JetonsNombre(cents / 100) || j in JetonsMonnaie(d, cents / 100 <= 1)
              || (cents % 100 > 0 && (j in JetonsNombre(cents % 100) || j == JetonSubdivision(d, cents % 100 == 1)))
  {
    hide JetonsNombre, JetonsMonnaie, JetonSubdivision, FinitParMillion, EnLettres;
  }

  lemma JamaisAttendu(n: nat, j: Jeton)
    requires Monetaire(j)
    ensures Remarquable(j) && !Attendu(n, j)
  {
  }

  lemma FinDuMontant(cents: nat, d: Devise)
    requires cents / 100 <= MAXIMUM
    ensures DernierMotDe(Phrase(cents, d)) ==
              Texte(if cents % 100 > 0 then JetonSubdivision(d, cents % 100 == 1) else JetonsMonnaie(d, cents / 100 <= 1)[1])
  {
    hide Phrase, Mots, JetonsNombre, Texte, Assembler, FinitParMillion, EnLettres;
    EcritPhrase(cents, d);
    var js := JetonsPhrase(cents, d);
    assert Mots(Phrase(cents, d))[|js| - 1] == Texte(js[|js| - 1]);
  }

  /** The first letter is a capital, and the only one. */
  lemma InitialeCapitale(cents: nat, d: Devise)
    requires cents / 100 <= MAXIMUM
    ensures var t := Capitaliser(Phrase(cents, d));
            t != "" && 'A' <= t[0] <= 'Z' && forall i :: 0 < i < |t| ==> !('A' <= t[i] <= 'Z')
  {
    hide Phrase, Mots, JetonsPhrase, Texte, Assembler;
    var s, js := Phrase(cents, d), JetonsPhrase(cents, d);
    EcritPhrase(cents, d);
    SansCapitale(js);
    PremiereLettre(js);
  }

  predicate EnMinuscules(w: string) {
    w != "" && 'a' <= w[0] <= 'z' && forall i :: 0 <= i < |w| ==> !('A' <= w[i] <= 'Z')
  }

  lemma PetitMotSansCapitale(j: Jeton)
    requires SousCent(j)
    ensures EnMinuscules(Texte(j))
  {
  }

  lemma MonnaieSansCapitale(j: Jeton)
    requires Monetaire(j)
    ensures EnMinuscules(Texte(j))
  {
  }

  lemma RangSansCapitale(j: Jeton)
    requires !SousCent(j) && !Monetaire(j)
    ensures EnMinuscules(Texte(j))
  {
  }

  lemma MotSansCapitale(j: Jeton)
    ensures EnMinuscules(Texte(j))
  {
    hide Texte, EnMinuscules, SousCent, Monetaire;
    if SousCent(j) {
      PetitMotSansCapitale(j);
    } else if Monetaire(j) {
      MonnaieSansCapitale(j);
    } else {
      RangSansCapitale(j);
    }
  }

  lemma {:induction false} SansCapitale(js: seq<Jeton>)
    ensures forall i :: 0 <= i < |Assembler(js)| ==> !('A' <= Assembler(js)[i] <= 'Z')
  {
    hide Texte;
    if js != [] {
      MotSansCapitale(js[|js| - 1]);
      SansCapitale(js[..|js| - 1]);
    }
  }

  lemma {:induction false} PremiereLettre(js: seq<Jeton>)
    requires js != []
    ensures Assembler(js) != "" && 'a' <= Assembler(js)[0] <= 'z'
  {
    hide Texte;
    MotSansCapitale(js[|js| - 1]);
    if |js| > 1 {
      PremiereLettre(js[..|js| - 1]);
    }
  }
}
