/** A reader of the amounts in words, and the proof that it undoes the printer. */
module LectureMontant {
  import opened Wrappers
  import opened MontantEnLettres

  // ------------------------------------------------------------------ words and tokens

  predicate Separateur(c: char) {
    c == ' ' || c == '-'
  }

  /** The words between spaces and hyphens. */
  function Mots(s: string): (ws: seq<string>)
    ensures ws != []
  {
    if s == "" then [""] else
      var ws := Mots(s[1..]);
      if Separateur(s[0]) then [""] + ws else [[s[0]] + ws[0]] + ws[1..]
  }

  datatype Jeton =
    | Zero | Un | Deux | Trois | Quatre | Cinq | Six | Sept | Huit | Neuf | Dix | Onze | Douze | Treize | Quatorze
    | Quinze | Seize | Vingt | Vingts | Trente | Quarante | Cinquante | Soixante | Cent | Cents | Mille
    | Million | Millions | Milliard | Milliards | Et | De
    | Franc | Francs | Congolais | Dollar | Dollars | Americain | Americains | Centime | Centimes

  function Texte(j: Jeton): string {
    match j
    case Zero => "zéro" case Un => "un" case Deux => "deux" case Trois => "trois" case Quatre => "quatre"
    case Cinq => "cinq" case Six => "six" case Sept => "sept" case Huit => "huit" case Neuf => "neuf"
    case Dix => "dix" case Onze => "onze" case Douze => "douze" case Treize => "treize" case Quatorze => "quatorze"
    case Quinze => "quinze" case Seize => "seize" case Vingt => "vingt" case Vingts => "vingts"
    case Trente => "trente" case Quarante => "quarante" case Cinquante => "cinquante" case Soixante => "soixante"
    case Cent => "cent" case Cents => "cents" case Mille => "mille" case Million => "million"
    case Millions => "millions" case Milliard => "milliard" case Milliards => "milliards" case Et => "et"
    case De => "de" case Franc => "franc" case Francs => "francs" case Congolais => "congolais"
    case Dollar => "dollar" case Dollars => "dollars" case Americain => "américain"
    case Americains => "américains" case Centime => "centime" case Centimes => "centimes"
  }

  function ReconnaitreMonnaie(w: string): Option<Jeton> {
    if w == "franc" then Some(Franc) else if w == "francs" then Some(Francs) else if w == "congolais" then Some(Congolais)
    else if w == "dollar" then Some(Dollar) else if w == "dollars" then Some(Dollars)
    else if w == "américain" then Some(Americain) else if w == "américains" then Some(Americains)
    else if w == "centime" then Some(Centime) else if w == "centimes" then Some(Centimes)
    else None
  }

  function ReconnaitreNombre(w: string): Option<Jeton> {
    if w == "zéro" then Some(Zero) else if w == "un" then Some(Un) else if w == "deux" then Some(Deux)
    else if w == "trois" then Some(Trois) else if w == "quatre" then Some(Quatre) else if w == "cinq" then Some(Cinq)
    else if w == "six" then Some(Six) else if w == "sept" then Some(Sept) else if w == "huit" then Some(Huit)
    else if w == "neuf" then Some(Neuf) else if w == "dix" then Some(Dix) else if w == "onze" then Some(Onze)
    else if w == "douze" then Some(Douze) else if w == "treize" then Some(Treize) else if w == "quatorze" then Some(Quatorze)
    else if w == "quinze" then Some(Quinze) else if w == "seize" then Some(Seize) else if w == "vingt" then Some(Vingt)
    else if w == "vingts" then Some(Vingts) else if w == "trente" then Some(Trente) else if w == "quarante" then Some(Quarante)
    else if w == "cinquante" then Some(Cinquante) else if w == "soixante" then Some(Soixante) else if w == "cent" then Some(Cent)
    else if w == "cents" then Some(Cents) else if w == "mille" then Some(Mille) else if w == "million" then Some(Million)
    else if w == "millions" then Some(Millions) else if w == "milliard" then Some(Milliard)
    else if w == "milliards" then Some(Milliards) else if w == "et" then Some(Et) else if w == "de" then Some(De)
    else None
  }

  function Reconnaitre(w: string): Option<Jeton> {
    if ReconnaitreMonnaie(w).Some? then ReconnaitreMonnaie(w) else ReconnaitreNombre(w)
  }

  predicate Monetaire(j: Jeton) {
    j.Franc? || j.Francs? || j.Congolais? || j.Dollar? || j.Dollars? || j.Americain? || j.Americains? || j.Centime? || j.Centimes?
  }

  // Words of currencies.

  lemma FrancReconnu(j: Jeton)
    requires j.Franc? || j.Francs? || j.Congolais? || j.Centime? || j.Centimes?
    ensures ReconnaitreMonnaie(Texte(j)) == Some(j)
  {
  }

  lemma DollarReconnu(j: Jeton)
    requires j.Dollar? || j.Dollars? || j.Americain? || j.Americains?
    ensures ReconnaitreMonnaie(Texte(j)) == Some(j)
  {
  }

  lemma MonnaieReconnue(j: Jeton)
    requires Monetaire(j)
    ensures ReconnaitreMonnaie(Texte(j)) == Some(j)
  {
    hide ReconnaitreMonnaie, Texte;
    if j.Dollar? || j.Dollars? || j.Americain? || j.Americains? {
      DollarReconnu(j);
    } else {
      FrancReconnu(j);
    }
  }

  // Words of units and tens.

  lemma SimpleSansMonnaie(j: Jeton)
    requires Simple(j).Some?
    ensures ReconnaitreMonnaie(Texte(j)) == None
  {
  }

  lemma PetitReconnu(j: Jeton)
    requires Simple(j).Some? && Simple(j).value < 9
    ensures ReconnaitreNombre(Texte(j)) == Some(j)
  {
  }

  lemma MoyenReconnu(j: Jeton)
    requires Simple(j).Some? && 9 <= Simple(j).value < 16
    ensures ReconnaitreNombre(Texte(j)) == Some(j)
  {
  }

  lemma DizaineReconnue(j: Jeton)
    requires Simple(j).Some? && Simple(j).value >= 16
    ensures ReconnaitreNombre(Texte(j)) == Some(j)
  {
  }

  lemma SimpleReconnu(j: Jeton)
    requires Simple(j).Some?
    ensures ReconnaitreNombre(Texte(j)) == Some(j)
  {
    hide ReconnaitreNombre, Texte;
    if Simple(j).value < 9 {
      PetitReconnu(j);
    } else if Simple(j).value < 16 {
      MoyenReconnu(j);
    } else {
      DizaineReconnue(j);
    }
  }

  // Words of ranks (hundreds, thousands, millions) and links ("et", "de").

  lemma RangSansMonnaie(j: Jeton)
    requires Simple(j).None? && !Monetaire(j)
    ensures ReconnaitreMonnaie(Texte(j)) == None
  {
  }

  predicate Milliers(j: Jeton) {
    j.Mille? || j.Million? || j.Millions? || j.Milliard? || j.Milliards?
  }

  lemma MilliersReconnus(j: Jeton)
    requires Milliers(j)
    ensures ReconnaitreNombre(Texte(j)) == Some(j)
  {
    match j
    case Mille => assert Texte(j) == "mille";
    case Million => assert Texte(j) == "million";
    case Millions => assert Texte(j) == "millions";
    case Milliard => assert Texte(j) == "milliard";
    case Milliards => assert Texte(j) == "milliards";
  }

  lemma LiaisonReconnue(j: Jeton)
    requires Simple(j).None? && !Monetaire(j) && !Milliers(j)
    ensures ReconnaitreNombre(Texte(j)) == Some(j)
  {
  }

  lemma RangReconnu(j: Jeton)
    requires Simple(j).None? && !Monetaire(j)
    ensures ReconnaitreNombre(Texte(j)) == Some(j)
  {
    hide ReconnaitreNombre, Texte;
    if Milliers(j) {
      MilliersReconnus(j);
    } else {
      LiaisonReconnue(j);
    }
  }

  /** Every word of the vocabulary is recognised. */
  lemma TexteReconnu(j: Jeton)
    ensures Reconnaitre(Texte(j)) == Some(j)
  {
    hide ReconnaitreMonnaie, ReconnaitreNombre, Texte;
    if Simple(j).Some? {
      SimpleSansMonnaie(j);
      SimpleReconnu(j);
    } else if Monetaire(j) {
      MonnaieReconnue(j);
    } else {
      RangSansMonnaie(j);
      RangReconnu(j);
    }
  }

  /** Tokens of a list of words; None when one of them is unknown. */
  function Jetons(ws: seq<string>): Option<seq<Jeton>> {
    if ws == [] then Some([]) else
      var debut, dernier := Jetons(ws[..|ws| - 1]), Reconnaitre(ws[|ws| - 1]);
      if debut == None || dernier == None then None else Some(debut.value + [dernier.value])
  }

  function Textes(js: seq<Jeton>): (ws: seq<string>)
    ensures |ws| == |js| && forall i :: 0 <= i < |js| ==> ws[i] == Texte(js[i])
  {
    seq(|js|, i requires 0 <= i < |js| => Texte(js[i]))
  }

  lemma {:induction false} TextesReconnus(js: seq<Jeton>)
    ensures Jetons(Textes(js)) == Some(js)
  {
    hide Reconnaitre, Texte;
    if js != [] {
      var n := |js| - 1;
      TextesReconnus(js[..n]);
      assert Textes(js)[..n] == Textes(js[..n]);
      TexteReconnu(js[n]);
      assert js == js[..n] + [js[n]];
    }
  }

  /** Words of numbers below a hundred; they are joined by hyphens, all others by spaces. */
  predicate SousCent(j: Jeton) {
    (Simple(j).Some? && j != Et && j != De) || j == Vingt || j == Vingts
  }

  function Entre(a: Jeton, b: Jeton): char {
    if SousCent(a) && SousCent(b) then '-' else ' '
  }

  /** The words js with a hyphen between two words of numbers below a hundred, a space elsewhere. */
  function Assembler(js: seq<Jeton>): string {
    if js == [] then "" else if |js| == 1 then Texte(js[0])
    else Assembler(js[..|js| - 1]) + [Entre(js[|js| - 2], js[|js| - 1])] + Texte(js[|js| - 1])
  }

  lemma {:induction false} AssemblerConcat(a: seq<Jeton>, b: seq<Jeton>)
    requires a != [] && b != []
    ensures Assembler(a + b) == Assembler(a) + [Entre(a[|a| - 1], b[0])] + Assembler(b)
  {
    hide Texte, Entre;
    var n := |b| - 1;
    assert (a + b)[..|a + b| - 1] == a + b[..n];
    if n > 0 {
      AssemblerConcat(a, b[..n]);
      assert (a + b[..n])[|a + b[..n]| - 1] == b[n - 1];
    } else {
      assert a + b[..n] == a;
    }
  }

  /** The text s is made of exactly the words js, joined as they should be. */
  ghost predicate Ecrit(s: string, js: seq<Jeton>) {
    js != [] && Mots(s) == Textes(js) && s == Assembler(js)
  }

  predicate MotEntier(w: string) {
    forall i :: 0 <= i < |w| ==> !Separateur(w[i])
  }

  lemma {:induction false} MotSeul(w: string)
    requires MotEntier(w)
    ensures Mots(w) == [w]
  {
    if w != "" {
      MotSeul(w[1..]);
      assert [w[0]] + w[1..] == w;
    }
  }

  /** A separator separates. */
  lemma {:induction false} MotsConcat(a: string, c: char, b: string)
    requires Separateur(c)
    ensures Mots(a + [c] + b) == Mots(a) + Mots(b)
    decreases |a|
  {
    if a == "" {
      assert (a + [c] + b)[1..] == b;
    } else {
      assert (a + [c] + b)[1..] == a[1..] + [c] + b;
      MotsConcat(a[1..], c, b);
    }
  }

  lemma TexteEntierSimple(j: Jeton)
    requires Simple(j).Some?
    ensures MotEntier(Texte(j))
  {
  }

  lemma TexteEntierMonnaie(j: Jeton)
    requires Monetaire(j)
    ensures MotEntier(Texte(j))
  {
  }

  lemma TexteEntierRang(j: Jeton)
    requires Simple(j).None? && !Monetaire(j)
    ensures MotEntier(Texte(j))
  {
  }

  lemma TexteEntierAutre(j: Jeton)
    requires Simple(j).None?
    ensures MotEntier(Texte(j))
  {
    hide Texte;
    if Monetaire(j) {
      TexteEntierMonnaie(j);
    } else {
      TexteEntierRang(j);
    }
  }

  lemma EcritSeul(j: Jeton)
    ensures Ecrit(Texte(j), [j])
  {
    hide Texte, Mots;
    if Simple(j).Some? {
      TexteEntierSimple(j);
    } else {
      TexteEntierAutre(j);
    }
    MotSeul(Texte(j));
    assert Textes([j]) == [Texte(j)];
  }

  lemma EcritConcat(a: string, ja: seq<Jeton>, c: char, b: string, jb: seq<Jeton>)
    requires Ecrit(a, ja) && Ecrit(b, jb) && c == Entre(ja[|ja| - 1], jb[0])
    ensures Ecrit(a + [c] + b, ja + jb)
  {
    hide Texte, Mots, Assembler;
    AssemblerConcat(ja, jb);
    MotsConcat(a, c, b);
    assert Textes(ja + jb) == Textes(ja) + Textes(jb);
  }

  // ------------------------------------------------------------------ what is printed, in tokens

  function JetonUnite(u: nat): Jeton
    requires u < 17
  {
    if u == 0 then Zero else if u == 1 then Un else if u == 2 then Deux else if u == 3 then Trois else if u == 4 then Quatre
    else if u == 5 then Cinq else if u == 6 then Six else if u == 7 then Sept else if u == 8 then Huit else if u == 9 then Neuf
    else if u == 10 then Dix else if u == 11 then Onze else if u == 12 then Douze else if u == 13 then Treize
    else if u == 14 then Quatorze else if u == 15 then Quinze else Seize
  }

  function JetonsUnite(u: nat): seq<Jeton>
    requires u < 20
  {
    if u < 17 then [JetonUnite(u)] else [Dix, JetonUnite(u - 10)]
  }

  function JetonsDizaine(d: nat): seq<Jeton>
    requires 2 <= d < 10
  {
    if d == 2 then [Vingt] else if d == 3 then [Trente] else if d == 4 then [Quarante] else if d == 5 then [Cinquante]
    else if d <= 7 then [Soixante] else [Quatre, Vingt]
  }

  function JetonsComposes(d: nat, u: nat, final: bool): seq<Jeton>
    requires 2 <= d < 10 && u < 20
  {
    if u == 0 then (if d == 8 && final then [Quatre, Vingts] else JetonsDizaine(d))
    else if (u == 1 || u == 11) && d != 8 && d != 9 then JetonsDizaine(d) + ([Et] + JetonsUnite(u))
    else JetonsDizaine(d) + JetonsUnite(u)
  }

  function JetonsCent(n: nat, final: bool): seq<Jeton>
    requires n < 100
  {
    if n < 20 then JetonsUnite(n) else JetonsComposes(n / 10, UniteApres(n), final)
  }

  function JetonsCentaines(c: nat, pluriel: bool): seq<Jeton>
    requires 1 <= c < 10
  {
    if c == 1 then [Cent] else JetonsUnite(c) + [if pluriel then Cents else Cent]
  }

  function JetonsMille(n: nat, final: bool): seq<Jeton>
    requires n < 1000
  {
    var c, reste := n / 100, n % 100;
    if c == 0 then JetonsCent(reste, final)
    else JetonsCentaines(c, reste == 0 && final) + if reste == 0 then [] else JetonsCent(reste, final)
  }

  function JetonsGroupe(m: nat, un: Jeton, plusieurs: Jeton): seq<Jeton>
    requires m < 1000
  {
    if m == 0 then [] else JetonsMille(m, true) + [if m > 1 then plusieurs else un]
  }

  function JetonsMilliers(m: nat): seq<Jeton>
    requires m < 1000
  {
    if m == 0 then [] else if m == 1 then [Mille] else JetonsMille(m, false) + [Mille]
  }

  function JetonsUnites(m: nat): seq<Jeton>
    requires m < 1000
  {
    if m == 0 then [] else JetonsMille(m, true)
  }

  function JetonsNombre(n: nat): seq<Jeton>
    requires n <= MAXIMUM
  {
    if n == 0 then [Zero] else
      JetonsGroupe(n / 1_000_000_000, Milliard, Milliards) + JetonsGroupe(n % 1_000_000_000 / 1_000_000, Million, Millions)
      + JetonsMilliers(n % 1_000_000 / 1000) + JetonsUnites(n % 1000)
  }

  // ------------------------------------------------------------------ the text is made of these tokens

  lemma UniteTexte(u: nat)
    requires u < 17
    ensures Unite(u) == Texte(JetonUnite(u))
  {
  }

  lemma DixCompose()
    ensures Unite(17) == Texte(Dix) + ['-'] + Texte(Sept)
    ensures Unite(18) == Texte(Dix) + ['-'] + Texte(Huit)
    ensures Unite(19) == Texte(Dix) + ['-'] + Texte(Neuf)
  {
  }

  lemma EcritUnite(u: nat)
    requires u < 20
    ensures Ecrit(Unite(u), JetonsUnite(u))
  {
    if u < 17 {
      UniteTexte(u);
      EcritSeul(JetonUnite(u));
    } else {
      DixCompose();
      EcritSeul(Dix);
      EcritSeul(JetonUnite(u - 10));
      EcritConcat(Texte(Dix), [Dix], '-', Texte(JetonUnite(u - 10)), [JetonUnite(u - 10)]);
      assert [Dix] + [JetonUnite(u - 10)] == JetonsUnite(u);
    }
  }

  lemma QuatreVingtCompose()
    ensures "quatre-vingt" == Texte(Quatre) + ['-'] + Texte(Vingt)
    ensures "quatre-vingts" == Texte(Quatre) + ['-'] + Texte(Vingts)
  {
  }

  lemma EcritQuatreVingt(j: Jeton)
    requires j == Vingt || j == Vingts
    ensures Ecrit(if j == Vingt then "quatre-vingt" else "quatre-vingts", [Quatre, j])
  {
    QuatreVingtCompose();
    EcritSeul(Quatre);
    EcritSeul(j);
    EcritConcat(Texte(Quatre), [Quatre], '-', Texte(j), [j]);
    assert [Quatre] + [j] == [Quatre, j];
  }

  lemma EcritDizaine(d: nat)
    requires 2 <= d < 10
    ensures Ecrit(Dizaine(d), JetonsDizaine(d))
  {
    if d < 8 {
      EcritSeul(JetonsDizaine(d)[0]);
      assert Dizaine(d) == Texte(JetonsDizaine(d)[0]);
    } else {
      EcritQuatreVingt(Vingt);
    }
  }

  lemma EtCompose(a: string, b: string)
    ensures a + " et " + b == a + [' '] + (Texte(Et) + [' '] + b)
  {
  }

  lemma BoutsConcat(a: seq<Jeton>, b: seq<Jeton>)
    requires a != [] && b != []
    ensures (a + b)[0] == a[0] && (a + b)[|a + b| - 1] == b[|b| - 1]
  {
  }

  lemma BoutsSousCent(d: nat, u: nat)
    requires 2 <= d < 10 && u < 20
    ensures SousCent(JetonsUnite(u)[0]) && SousCent(JetonsUnite(u)[|JetonsUnite(u)| - 1])
    ensures SousCent(JetonsDizaine(d)[0]) && SousCent(JetonsDizaine(d)[|JetonsDizaine(d)| - 1])
  {
  }

  lemma EcritCompose(d: nat, u: nat, final: bool)
    requires 2 <= d < 10 && u < 20
    ensures Ecrit(Composer(d, u, final), JetonsComposes(d, u, final))
  {
    hide Mots, Unite, Dizaine, JetonsUnite, JetonsDizaine, Texte, Assembler, Ecrit;
    BoutsSousCent(d, u);
    EcritDizaine(d);
    EcritUnite(u);
    if u == 0 {
      EcritQuatreVingt(Vingts);
    } else if (u == 1 || u == 11) && d != 8 && d != 9 {
      EtCompose(Dizaine(d), Unite(u));
      EcritSeul(Et);
      EcritConcat(Texte(Et), [Et], ' ', Unite(u), JetonsUnite(u));
      EcritConcat(Dizaine(d), JetonsDizaine(d), ' ', Texte(Et) + [' '] + Unite(u), [Et] + JetonsUnite(u));
    } else {
      EcritConcat(Dizaine(d), JetonsDizaine(d), '-', Unite(u), JetonsUnite(u));
    }
  }

  lemma EcritCent(n: nat, final: bool)
    requires n < 100
    ensures Ecrit(MoinsDeCent(n, final), JetonsCent(n, final))
  {
    if n < 20 {
      EcritUnite(n);
    } else {
      EcritCompose(n / 10, UniteApres(n), final);
    }
  }

  /** The hundreds, as moinsDeMille writes them. */
  function Centaines(c: nat, pluriel: bool): string
    requires 1 <= c < 10
  {
    if c == 1 then "cent" else Unite(c) + " " + if pluriel then "cents" else "cent"
  }

  lemma EcritCentaines(c: nat, pluriel: bool)
    requires 1 <= c < 10
    ensures Ecrit(Centaines(c, pluriel), JetonsCentaines(c, pluriel))
  {
    var j := if pluriel then Cents else Cent;
    EcritSeul(Cent);
    if c > 1 {
      EcritUnite(c);
      EcritSeul(j);
      EcritConcat(Unite(c), JetonsUnite(c), ' ', Texte(j), [j]);
      assert Unite(c) + " " + Texte(j) == Unite(c) + [' '] + Texte(j);
    }
  }

  lemma EcritMille(n: nat, final: bool)
    requires n < 1000
    ensures Ecrit(MoinsDeMille(n, final), JetonsMille(n, final))
  {
    hide Ecrit, MoinsDeCent, JetonsCent;
    var c, reste := n / 100, n % 100;
    EcritCent(reste, final);
    if c > 0 {
      var pluriel := reste == 0 && final;
      EcritCentaines(c, pluriel);
      if reste == 0 {
        assert JetonsCentaines(c, pluriel) + [] == JetonsCentaines(c, pluriel);
      } else {
        EcritConcat(Centaines(c, pluriel), JetonsCentaines(c, pluriel), ' ', MoinsDeCent(reste, final), JetonsCent(reste, final));
        assert Centaines(c, pluriel) + " " + MoinsDeCent(reste, final) == Centaines(c, pluriel) + [' '] + MoinsDeCent(reste, final);
      }
    }
  }

  /** A group and the name of its rank. */
  lemma EcritAvecRang(m: nat, final: bool, j: Jeton)
    requires m < 1000 && !SousCent(j)
    ensures Ecrit(MoinsDeMille(m, final) + " " + Texte(j), JetonsMille(m, final) + [j])
  {
    hide MoinsDeMille, JetonsMille, Texte, Mots, Assembler, Ecrit;
    EcritMille(m, final);
    EcritSeul(j);
    EcritConcat(MoinsDeMille(m, final), JetonsMille(m, final), ' ', Texte(j), [j]);
    assert MoinsDeMille(m, final) + " " + Texte(j) == MoinsDeMille(m, final) + [' '] + Texte(j);
  }

  /** A list of at most one part, written with the tokens js (none without part). */
  ghost predicate PartieEcrite(parties: seq<string>, js: seq<Jeton>) {
    |parties| <= 1 && if parties == [] then js == [] else Ecrit(parties[0], js)
  }

  lemma GroupesEcrits(m: nat)
    requires m < 1000
    ensures PartieEcrite(PartieMilliards(m), JetonsGroupe(m, Milliard, Milliards))
    ensures PartieEcrite(PartieMillions(m), JetonsGroupe(m, Million, Millions))
  {
    hide MoinsDeMille, JetonsMille, Mots;
    EcritAvecRang(m, true, if m > 1 then Milliards else Milliard);
    EcritAvecRang(m, true, if m > 1 then Millions else Million);
  }

  lemma MilliersEcrits(m: nat)
    requires m < 1000
    ensures PartieEcrite(PartieMilliers(m), JetonsMilliers(m))
  {
    hide MoinsDeMille, JetonsMille, Mots;
    EcritAvecRang(m, false, Mille);
    EcritSeul(Mille);
  }

  lemma UnitesEcrites(m: nat)
    requires m < 1000
    ensures PartieEcrite(PartieUnites(m), JetonsUnites(m))
  {
    EcritMille(m, true);
  }

  /** Joined parts, written with the tokens js. */
  ghost predicate JointEcrit(parties: seq<string>, js: seq<Jeton>) {
    if parties == [] then js == [] else Ecrit(Joindre(parties), js)
  }

  /** The words js end with the name of a rank, if there are any. */
  predicate FinDeRang(js: seq<Jeton>) {
    js != [] ==> !SousCent(js[|js| - 1])
  }

  lemma FinsDeRang(a: nat, b: nat, c: nat)
    requires a < 1000 && b < 1000 && c < 1000
    ensures var ja, jb, jc := JetonsGroupe(a, Milliard, Milliards), JetonsGroupe(b, Million, Millions), JetonsMilliers(c);
            FinDeRang([]) && FinDeRang(ja) && FinDeRang(ja + jb) && FinDeRang(ja + jb + jc)
  {
    hide JetonsMille;
  }

  lemma JoindreUne(parties: seq<string>, js: seq<Jeton>, p: seq<string>, jp: seq<Jeton>)
    requires JointEcrit(parties, js) && PartieEcrite(p, jp) && FinDeRang(js)
    ensures JointEcrit(parties + p, js + jp)
  {
    hide Mots, Textes, Assembler, Texte, SousCent;
    if p == [] {
      assert parties + p == parties && js + jp == js;
    } else if parties == [] {
      assert parties + p == p && js + jp == jp;
    } else {
      var tout := parties + p;
      assert tout[..|tout| - 1] == parties && tout[|tout| - 1] == p[0];
      EcritConcat(Joindre(parties), js, ' ', p[0], jp);
      assert Joindre(tout) == Joindre(parties) + [' '] + p[0];
    }
  }

  lemma EcritNombre(n: nat)
    requires n <= MAXIMUM
    ensures Ecrit(EnLettres(n), JetonsNombre(n))
  {
    hide MoinsDeMille, JetonsMille, Ecrit, Joindre, FinDeRang, Parties, PartieEcrite, JointEcrit,
         PartieMilliards, PartieMillions, PartieMilliers, PartieUnites, JetonsGroupe, JetonsMilliers, JetonsUnites;
    if n == 0 {
      EcritSeul(Zero);
    } else {
      PartiesEcrites(n);
      PartiesNonVides(n);
      JointNonVide(Parties(n), JetonsNombre(n));
    }
  }

  lemma JointNonVide(parties: seq<string>, js: seq<Jeton>)
    requires JointEcrit(parties, js) && parties != []
    ensures Ecrit(Joindre(parties), js)
  {
  }

  lemma PartiesEcrites(n: nat)
    requires 0 < n <= MAXIMUM
    ensures JointEcrit(Parties(n), JetonsNombre(n))
  {
    hide MoinsDeMille, JetonsMille, Ecrit, Joindre, FinDeRang, PartieEcrite, JointEcrit,
         PartieMilliards, PartieMillions, PartieMilliers, PartieUnites, JetonsGroupe, JetonsMilliers, JetonsUnites;
    var a, b, c, d := n / 1_000_000_000, n % 1_000_000_000 / 1_000_000, n % 1_000_000 / 1000, n % 1000;
    GroupesEcrits(a);
    GroupesEcrits(b);
    MilliersEcrits(c);
    UnitesEcrites(d);
    FinsDeRang(a, b, c);
    var ja, jb, jc, jd := JetonsGroupe(a, Milliard, Milliards), JetonsGroupe(b, Million, Millions), JetonsMilliers(c), JetonsUnites(d);
    RienJoint();
    JoindreUne([], [], PartieMilliards(a), ja);
    assert [] + PartieMilliards(a) == PartieMilliards(a) && [] + ja == ja;
    JoindreUne(PartieMilliards(a), ja, PartieMillions(b), jb);
    JoindreUne(PartieMilliards(a) + PartieMillions(b), ja + jb, PartieMilliers(c), jc);
    JoindreUne(PartieMilliards(a) + PartieMillions(b) + PartieMilliers(c), ja + jb + jc, PartieUnites(d), jd);
  }

  lemma RienJoint()
    ensures JointEcrit([], [])
  {
  }

  lemma Decomposition(n: nat)
    requires n <= MAXIMUM
    ensures n == n / 1_000_000_000 * 1_000_000_000 + n % 1_000_000_000 / 1_000_000 * 1_000_000
                 + n % 1_000_000 / 1000 * 1000 + n % 1000
  {
    var r, q := n % 1_000_000_000, n % 1_000_000;
    assert n == n / 1_000_000_000 * 1_000_000_000 + r;
    assert r % 1_000_000 == q by {
      assert n == (n / 1_000_000_000 * 1000 + r / 1_000_000) * 1_000_000 + r % 1_000_000;
    }
    assert q % 1000 == n % 1000 by {
      assert n == (n / 1_000_000 * 1000 + q / 1000) * 1000 + q % 1000;
    }
  }

  lemma PartiesNonVides(n: nat)
    requires 0 < n <= MAXIMUM
    ensures Parties(n) != []
  {
    Decomposition(n);
  }

  // ------------------------------------------------------------------ reading tokens

  /** Reading state: the thousands already closed, and the group being read. */
  datatype Lecture = Lecture(total: nat, courant: nat)

  /** Value of the tokens that simply add up. */
  function Simple(j: Jeton): Option<nat> {
    match j
    case Zero => Some(0) case Un => Some(1) case Deux => Some(2) case Trois => Some(3) case Quatre => Some(4)
    case Cinq => Some(5) case Six => Some(6) case Sept => Some(7) case Huit => Some(8) case Neuf => Some(9)
    case Dix => Some(10) case Onze => Some(11) case Douze => Some(12) case Treize => Some(13) case Quatorze => Some(14)
    case Quinze => Some(15) case Seize => Some(16) case Trente => Some(30) case Quarante => Some(40)
    case Cinquante => Some(50) case Soixante => Some(60) case Et => Some(0) case De => Some(0)
    case _ => None
  }

  /** "quatre" before "vingt" multiplies it; "cent" and "mille" alone stand for one of them. */
  function Pas(e: Lecture, j: Jeton): Option<Lecture> {
    var Lecture(t, c) := e;
    match j
    case Vingt => Some(Lecture(t, if c % 100 == 4 then c + 76 else c + 20))
    case Vingts => Some(Lecture(t, if c % 100 == 4 then c + 76 else c + 20))
    case Cent => Some(Lecture(t, if c == 0 then 100 else c * 100))
    case Cents => Some(Lecture(t, if c == 0 then 100 else c * 100))
    case Mille => Some(Lecture(t + (if c == 0 then 1 else c) * 1000, 0))
    case Million => Some(Lecture(t + c * 1_000_000, 0))
    case Millions => Some(Lecture(t + c * 1_000_000, 0))
    case Milliard => Some(Lecture(t + c * 1_000_000_000, 0))
    case Milliards => Some(Lecture(t + c * 1_000_000_000, 0))
    case _ => match Simple(j)
              case Some(v) => Some(Lecture(t, c + v))
              case None => None
  }

  function Lire(js: seq<Jeton>, e: Lecture): Option<Lecture> {
    if js == [] then Some(e) else
      match Pas(e, js[0])
      case Some(e') => Lire(js[1..], e')
      case None => None
  }

  function LireNombre(js: seq<Jeton>): Option<nat> {
    match Lire(js, Lecture(0, 0))
    case Some(e) => Some(e.total + e.courant)
    case None => None
  }

  lemma {:induction false} LireConcat(a: seq<Jeton>, b: seq<Jeton>, e: Lecture)
    ensures Lire(a + b, e) == match Lire(a, e) case Some(f) => Lire(b, f) case None => None
  {
    if a == [] {
      assert a + b == b;
    } else {
      assert (a + b)[1..] == a[1..] + b;
      match Pas(e, a[0])
      case Some(f) => LireConcat(a[1..], b, f);
      case None =>
    }
  }

  lemma LireUn(j: Jeton, e: Lecture)
    ensures Lire([j], e) == Pas(e, j)
  {
    assert [j][1..] == [];
  }

  lemma LireDeux(j: Jeton, k: Jeton, e: Lecture)
    ensures Lire([j, k], e) == match Pas(e, j) case Some(f) => Pas(f, k) case None => None
  {
    assert [j, k][1..] == [k];
    match Pas(e, j)
    case Some(f) => LireUn(k, f);
    case None =>
  }

  lemma LireUnite(u: nat, e: Lecture)
    requires u < 20
    ensures Lire(JetonsUnite(u), e) == Some(Lecture(e.total, e.courant + u))
  {
    hide Lire;
    if u < 17 {
      LireUn(JetonUnite(u), e);
    } else {
      LireDeux(Dix, JetonUnite(u - 10), e);
    }
  }

  /** The value of the tens word: seventy and ninety build on sixty and eighty. */
  function BaseDizaine(d: nat): nat {
    if d == 7 then 60 else if d == 9 then 80 else 10 * d
  }

  lemma LireQuatreVingt(j: Jeton, e: Lecture)
    requires (j == Vingt || j == Vingts) && e.courant % 100 == 0
    ensures Lire([Quatre, j], e) == Some(Lecture(e.total, e.courant + 80))
  {
    hide Lire;
    LireDeux(Quatre, j, e);
  }

  lemma LireDizaine(d: nat, e: Lecture)
    requires 2 <= d < 10 && e.courant % 100 == 0
    ensures Lire(JetonsDizaine(d), e) == Some(Lecture(e.total, e.courant + BaseDizaine(d)))
  {
    hide Lire;
    if d < 8 {
      LireUn(JetonsDizaine(d)[0], e);
    } else {
      LireQuatreVingt(Vingt, e);
    }
  }

  lemma LireEt(et: seq<Jeton>, e: Lecture)
    requires et == [] || et == [Et]
    ensures Lire(et, e) == Some(e)
  {
    LireUn(Et, e);
  }

  lemma LireCompose(d: nat, u: nat, final: bool, e: Lecture)
    requires 2 <= d < 10 && u < 20 && e.courant % 100 == 0
    ensures Lire(JetonsComposes(d, u, final), e) == Some(Lecture(e.total, e.courant + BaseDizaine(d) + u))
  {
    hide Lire, JetonsUnite, JetonsDizaine;
    var f := Lecture(e.total, e.courant + BaseDizaine(d));
    LireDizaine(d, e);
    if u == 0 {
      LireQuatreVingt(Vingts, e);
    } else {
      LireUnite(u, f);
      LireEt([Et], f);
      LireConcat([Et], JetonsUnite(u), f);
      LireConcat(JetonsDizaine(d), [Et] + JetonsUnite(u), e);
      LireConcat(JetonsDizaine(d), JetonsUnite(u), e);
    }
  }

  lemma LireCent(n: nat, final: bool, e: Lecture)
    requires n < 100 && e.courant % 100 == 0
    ensures Lire(JetonsCent(n, final), e) == Some(Lecture(e.total, e.courant + n))
  {
    hide Lire, JetonsUnite, JetonsComposes;
    if n < 20 {
      LireUnite(n, e);
    } else {
      LireCompose(n / 10, UniteApres(n), final, e);
    }
  }

  lemma LireCentaines(c: nat, pluriel: bool, t: nat)
    requires 1 <= c < 10
    ensures Lire(JetonsCentaines(c, pluriel), Lecture(t, 0)) == Some(Lecture(t, 100 * c))
  {
    if c > 1 {
      LireUnite(c, Lecture(t, 0));
      LireConcat(JetonsUnite(c), [if pluriel then Cents else Cent], Lecture(t, 0));
      LireUn(if pluriel then Cents else Cent, Lecture(t, c));
    }
  }

  lemma LireMille(n: nat, final: bool, t: nat)
    requires n < 1000
    ensures Lire(JetonsMille(n, final), Lecture(t, 0)) == Some(Lecture(t, n))
  {
    var c, reste := n / 100, n % 100;
    if c == 0 {
      LireCent(reste, final, Lecture(t, 0));
    } else {
      var centaines := JetonsCentaines(c, reste == 0 && final);
      LireCentaines(c, reste == 0 && final, t);
      LireCent(reste, final, Lecture(t, 100 * c));
      LireConcat(centaines, if reste == 0 then [] else JetonsCent(reste, final), Lecture(t, 0));
    }
  }

  lemma LireAvecRang(m: nat, final: bool, j: Jeton, t: nat)
    requires m < 1000
    ensures Lire(JetonsMille(m, final) + [j], Lecture(t, 0)) == Pas(Lecture(t, m), j)
  {
    LireMille(m, final, t);
    LireConcat(JetonsMille(m, final), [j], Lecture(t, 0));
    LireUn(j, Lecture(t, m));
  }

  lemma LireMilliards(m: nat, t: nat)
    requires m < 1000
    ensures Lire(JetonsGroupe(m, Milliard, Milliards), Lecture(t, 0)) == Some(Lecture(t + m * 1_000_000_000, 0))
  {
    hide Lire, JetonsMille;
    LireEt([], Lecture(t, 0));
    if m > 0 {
      LireAvecRang(m, true, if m > 1 then Milliards else Milliard, t);
    }
  }

  lemma LireMillions(m: nat, t: nat)
    requires m < 1000
    ensures Lire(JetonsGroupe(m, Million, Millions), Lecture(t, 0)) == Some(Lecture(t + m * 1_000_000, 0))
  {
    hide Lire, JetonsMille;
    LireEt([], Lecture(t, 0));
    if m > 0 {
      LireAvecRang(m, true, if m > 1 then Millions else Million, t);
    }
  }

  lemma LireMilliers(m: nat, t: nat)
    requires m < 1000
    ensures Lire(JetonsMilliers(m), Lecture(t, 0)) == Some(Lecture(t + m * 1000, 0))
  {
    hide Lire, JetonsMille;
    LireUn(Mille, Lecture(t, 0));
    LireAvecRang(m, false, Mille, t);
    LireEt([], Lecture(t, 0));
  }

  lemma LireRienOuMille(m: nat, t: nat)
    requires m < 1000
    ensures Lire(JetonsUnites(m), Lecture(t, 0)) == Some(Lecture(t, m))
  {
    LireMille(m, true, t);
  }

  lemma LireQuatre(ja: seq<Jeton>, jb: seq<Jeton>, jc: seq<Jeton>, jd: seq<Jeton>,
                   e: Lecture, f: Lecture, g: Lecture, h: Lecture)
    requires Lire(ja, e) == Some(f) && Lire(jb, f) == Some(g) && Lire(jc, g) == Some(h)
    ensures Lire(ja + jb + jc + jd, e) == Lire(jd, h)
  {
    LireConcat(ja + jb + jc, jd, e);
    LireConcat(ja + jb, jc, e);
    LireConcat(ja, jb, e);
  }

  /** Reading the tokens of a number gives it back. */
  lemma LireJetonsNombre(n: nat)
    requires n <= MAXIMUM
    ensures LireNombre(JetonsNombre(n)) == Some(n)
  {
    hide Lire, JetonsMille, JetonsGroupe, JetonsMilliers;
    if n == 0 {
      LireUn(Zero, Lecture(0, 0));
    } else {
      var a, b, c, d := n / 1_000_000_000, n % 1_000_000_000 / 1_000_000, n % 1_000_000 / 1000, n % 1000;
      var ta := a * 1_000_000_000;
      var tb := ta + b * 1_000_000;
      var tc := tb + c * 1000;
      LireMilliards(a, 0);
      LireMillions(b, ta);
      LireMilliers(c, tb);
      LireRienOuMille(d, tc);
      LireQuatre(JetonsGroupe(a, Milliard, Milliards), JetonsGroupe(b, Million, Millions), JetonsMilliers(c), JetonsUnites(d),
                 Lecture(0, 0), Lecture(ta, 0), Lecture(tb, 0), Lecture(tc, 0));
      Decomposition(n);
    }
  }

  // ------------------------------------------------------------------ the left inverse of the number printer

  /** The reader: words, tokens, value. */
  function LireTexte(s: string): Option<nat> {
    match Jetons(Mots(s))
    case Some(js) => LireNombre(js)
    case None => None
  }

  /** Reading a number written in words gives it back, for every number that the printer accepts. */
  lemma NombreRelu(n: nat)
    requires n <= MAXIMUM
    ensures LireTexte(EnLettres(n)) == Some(n)
  {
    EcritNombre(n);
    TextesReconnus(JetonsNombre(n));
    LireJetonsNombre(n);
  }

  // ------------------------------------------------------------------ amounts

  function JetonsMonnaie(d: Devise, un: bool): seq<Jeton> {
    match d
    case CDF => [if un then Franc else Francs, Congolais]
    case USD => if un then [Dollar, Americain] else [Dollars, Americains]
  }

  function JetonSubdivision(d: Devise, un: bool): Jeton {
    match d
    case CDF => if un then Centime else Centimes
    case USD => if un then Cent else Cents
  }

  function JetonsReste(reste: nat, d: Devise): seq<Jeton>
    requires reste < 100
  {
    if reste == 0 then [] else [Et] + JetonsNombre(reste) + [JetonSubdivision(d, reste == 1)]
  }

  function JetonsPhrase(cents: nat, d: Devise): seq<Jeton>
    requires cents / 100 <= MAXIMUM
  {
    var entier := cents / 100;
    JetonsNombre(entier) + (if FinitParMillion(EnLettres(entier)) then [De] else [])
    + JetonsMonnaie(d, entier <= 1) + JetonsReste(cents % 100, d)
  }

  lemma FrancsComposes()
    ensures Monnaie(CDF, true) == Texte(Franc) + [' '] + Texte(Congolais)
    ensures Monnaie(CDF, false) == Texte(Francs) + [' '] + Texte(Congolais)
  {
  }

  lemma DollarCompose()
    ensures Monnaie(USD, true) == Texte(Dollar) + [' '] + Texte(Americain)
  {
  }

  lemma DollarsComposes()
    ensures Monnaie(USD, false) == Texte(Dollars) + [' '] + Texte(Americains)
  {
  }

  lemma EcritMonnaie(d: Devise, un: bool)
    ensures Ecrit(Monnaie(d, un), JetonsMonnaie(d, un))
  {
    hide Texte, Mots, Monnaie;
    FrancsComposes();
    DollarCompose();
    DollarsComposes();
    var a, b := JetonsMonnaie(d, un)[0], JetonsMonnaie(d, un)[1];
    EcritSeul(a);
    EcritSeul(b);
    EcritConcat(Texte(a), [a], ' ', Texte(b), [b]);
    assert JetonsMonnaie(d, un) == [a] + [b];
  }

  lemma EcritReste(reste: nat, d: Devise)
    requires 0 < reste < 100
    ensures Ecrit("et " + EnLettres(reste) + " " + Subdivision(d, reste == 1), JetonsReste(reste, d))
  {
    hide Mots, EnLettres, JetonsNombre, Assembler, Ecrit;
    var j := JetonSubdivision(d, reste == 1);
    EcritSeul(Et);
    EcritSeul(j);
    EcritNombre(reste);
    EcritConcat(Texte(Et), [Et], ' ', EnLettres(reste), JetonsNombre(reste));
    EcritConcat(Texte(Et) + [' '] + EnLettres(reste), [Et] + JetonsNombre(reste), ' ', Texte(j), [j]);
    assert "et " == Texte(Et) + [' '] && Subdivision(d, reste == 1) == Texte(j);
    assert "et " + EnLettres(reste) + " " + Texte(j) == Texte(Et) + [' '] + EnLettres(reste) + [' '] + Texte(j);
  }

  lemma EcritEntier(entier: nat, d: Devise)
    requires entier <= MAXIMUM
    ensures var lettres := EnLettres(entier);
            var de := FinitParMillion(lettres);
            Ecrit(lettres + (if de then " de" else "") + " " + Monnaie(d, entier <= 1),
                  JetonsNombre(entier) + (if de then [De] else []) + JetonsMonnaie(d, entier <= 1))
  {
    hide Mots, EnLettres, JetonsNombre, FinitParMillion, Monnaie, Assembler, Ecrit;
    var lettres := EnLettres(entier);
    var de := FinitParMillion(lettres);
    var debut, jDebut := lettres + (if de then " de" else ""), JetonsNombre(entier) + (if de then [De] else []);
    EcritNombre(entier);
    EcritSeul(De);
    EcritMonnaie(d, entier <= 1);
    if de {
      EcritConcat(lettres, JetonsNombre(entier), ' ', Texte(De), [De]);
      assert debut == lettres + [' '] + Texte(De);
    } else {
      assert debut == lettres && jDebut == JetonsNombre(entier);
    }
    EcritConcat(debut, jDebut, ' ', Monnaie(d, entier <= 1), JetonsMonnaie(d, entier <= 1));
    assert debut + " " + Monnaie(d, entier <= 1) == debut + [' '] + Monnaie(d, entier <= 1);
  }

  lemma EcritPhrase(cents: nat, d: Devise)
    requires cents / 100 <= MAXIMUM
    ensures Ecrit(Phrase(cents, d), JetonsPhrase(cents, d))
  {
    hide Mots, EnLettres, JetonsNombre, FinitParMillion, Monnaie, JetonsMonnaie, Subdivision, Ecrit;
    var entier, reste := cents / 100, cents % 100;
    var lettres := EnLettres(entier);
    var de := FinitParMillion(lettres);
    var debut := lettres + (if de then " de" else "") + " " + Monnaie(d, entier <= 1);
    var jDebut := JetonsNombre(entier) + (if de then [De] else []) + JetonsMonnaie(d, entier <= 1);
    EcritEntier(entier, d);
    if reste == 0 {
      assert jDebut + [] == jDebut && debut + "" == debut;
    } else {
      var fin := "et " + EnLettres(reste) + " " + Subdivision(d, reste == 1);
      EcritReste(reste, d);
      EcritConcat(debut, jDebut, ' ', fin, JetonsReste(reste, d));
      assert " et " == [' '] + "et ";
      assert Phrase(cents, d) == debut + [' '] + fin;
    }
  }

  // ------------------------------------------------------------------ reading amounts

  function DeviseDe(j: Jeton): Option<Devise> {
    match j
    case Franc => Some(CDF) case Francs => Some(CDF) case Dollar => Some(USD) case Dollars => Some(USD)
    case _ => None
  }

  /** Position of the first token that names a currency. */
  function Position(js: seq<Jeton>): (k: nat)
    ensures k <= |js| && (k < |js| ==> DeviseDe(js[k]).Some?)
  {
    if js == [] || DeviseDe(js[0]).Some? then 0 else 1 + Position(js[1..])
  }

  /** The number before the currency, then the number between "et" and the name of the subdivision. */
  function LireMontant(js: seq<Jeton>): Option<(nat, Devise)> {
    var k := Position(js);
    if k + 2 > |js| then None else
      var reste := js[k + 2..];
      match (LireNombre(js[..k]), if |reste| < 2 then Some(0) else LireNombre(reste[1..|reste| - 1]))
      case (Some(entier), Some(cents)) => Some((100 * entier + cents, DeviseDe(js[k]).value))
      case _ => None
  }

  function Decapitaliser(s: string): string {
    if s != "" && 'A' <= s[0] <= 'Z' then [s[0] - 'A' + 'a'] + s[1..] else s
  }

  function LirePhrase(s: string): Option<(nat, Devise)> {
    match Jetons(Mots(Decapitaliser(s)))
    case Some(js) => LireMontant(js)
    case None => None
  }

  /** Tokens that read as a number name no currency. */
  lemma {:induction false} NombreSansDevise(js: seq<Jeton>, e: Lecture)
    requires Lire(js, e).Some?
    ensures forall i :: 0 <= i < |js| ==> DeviseDe(js[i]) == None
  {
    if js != [] {
      NombreSansDevise(js[1..], Pas(e, js[0]).value);
      assert DeviseDe(js[0]) == None;
      assert forall i :: 1 <= i < |js| ==> js[i] == js[1..][i - 1];
    }
  }

  lemma {:induction false} PositionApres(a: seq<Jeton>, b: seq<Jeton>)
    requires forall i :: 0 <= i < |a| ==> DeviseDe(a[i]) == None
    requires b != [] && DeviseDe(b[0]).Some?
    ensures Position(a + b) == |a|
  {
    if a == [] {
      assert a + b == b;
    } else {
      assert (a + b)[1..] == a[1..] + b;
      PositionApres(a[1..], b);
    }
  }

  lemma LireAvecDe(n: nat, de: bool)
    requires n <= MAXIMUM
    ensures LireNombre(JetonsNombre(n) + if de then [De] else []) == Some(n)
    ensures Lire(JetonsNombre(n) + if de then [De] else [], Lecture(0, 0)).Some?
  {
    hide Lire, JetonsNombre;
    LireJetonsNombre(n);
    var e := Lire(JetonsNombre(n), Lecture(0, 0)).value;
    LireConcat(JetonsNombre(n), if de then [De] else [], Lecture(0, 0));
    LireUn(De, e);
    LireEt([], e);
  }

  /** A number, a currency in two words, then nothing or a number between two words. */
  lemma LireMontantDecoupe(a: seq<Jeton>, m: seq<Jeton>, r: seq<Jeton>, js: seq<Jeton>)
    requires js == a + m + r && |m| == 2 && DeviseDe(m[0]).Some?
    requires forall i :: 0 <= i < |a| ==> DeviseDe(a[i]) == None
    requires LireNombre(a).Some? && (|r| >= 2 ==> LireNombre(r[1..|r| - 1]).Some?)
    ensures LireMontant(js) == Some((100 * LireNombre(a).value + (if |r| < 2 then 0 else LireNombre(r[1..|r| - 1]).value),
                                     DeviseDe(m[0]).value))
  {
    hide LireNombre;
    assert js == a + (m + r);
    PositionApres(a, m + r);
    assert js[..|a|] == a && js[|a|] == m[0] && js[|a| + 2..] == r;
  }

  lemma LireJetonsReste(reste: nat, d: Devise)
    requires 0 < reste < 100
    ensures var r := JetonsReste(reste, d); |r| >= 2 && LireNombre(r[1..|r| - 1]) == Some(reste)
  {
    hide JetonsNombre, LireNombre;
    LireJetonsNombre(reste);
    var r := JetonsReste(reste, d);
    assert r[1..|r| - 1] == JetonsNombre(reste);
  }

  lemma LireJetonsPhrase(cents: nat, d: Devise)
    requires cents / 100 <= MAXIMUM
    ensures LireMontant(JetonsPhrase(cents, d)) == Some((cents, d))
  {
    hide JetonsNombre, Lire, LireNombre, LireMontant, FinitParMillion, EnLettres;
    var entier, reste := cents / 100, cents % 100;
    var de := FinitParMillion(EnLettres(entier));
    var a := JetonsNombre(entier) + if de then [De] else [];
    LireAvecDe(entier, de);
    NombreSansDevise(a, Lecture(0, 0));
    if reste > 0 {
      LireJetonsReste(reste, d);
    }
    LireMontantDecoupe(a, JetonsMonnaie(d, entier <= 1), JetonsReste(reste, d), JetonsPhrase(cents, d));
  }

  lemma LettreInitiale(j: Jeton)
    ensures Texte(j) != "" && 'a' <= Texte(j)[0] <= 'z'
  {
  }

  lemma PremierCaractere(s: string)
    requires Mots(s)[0] != ""
    ensures s != "" && s[0] == Mots(s)[0][0]
  {
  }

  lemma CapitaleReversible(s: string)
    requires s != "" && 'a' <= s[0] <= 'z'
    ensures Decapitaliser(Capitaliser(s)) == s
  {
    assert [s[0]] + s[1..] == s;
  }

  /** Reading an amount in words gives back its cents and its currency, for every amount that the printer accepts. */
  lemma MontantRelu(cents: nat, d: Devise)
    requires cents / 100 <= MAXIMUM
    ensures LirePhrase(Capitaliser(Phrase(cents, d))) == Some((cents, d))
  {
    hide Phrase, Mots, JetonsPhrase, Texte, LireMontant;
    var s, js := Phrase(cents, d), JetonsPhrase(cents, d);
    EcritPhrase(cents, d);
    assert js != [] && Mots(s)[0] == Texte(js[0]);
    LettreInitiale(js[0]);
    PremierCaractere(s);
    CapitaleReversible(s);
    TextesReconnus(js);
    LireJetonsPhrase(cents, d);
  }

  /** Two different amounts never share a wording. */
  lemma LibelleInjectif(a: nat, d: Devise, b: nat, e: Devise)
    requires a / 100 <= MAXIMUM && b / 100 <= MAXIMUM
    requires Capitaliser(Phrase(a, d)) == Capitaliser(Phrase(b, e))
    ensures a == b && d == e
  {
    MontantRelu(a, d);
    MontantRelu(b, e);
  }

  // ------------------------------------------------------------------ "un million de francs"

  predicate EstRang(j: Jeton) {
    j == Million || j == Millions || j == Milliard || j == Milliards
  }

  /** The text s ends with the whole word w. */
  ghost predicate FinMot(s: string, w: string) {
    |w| <= |s| && s[|s| - |w|..] == w && (|w| < |s| ==> Separateur(s[|s| - |w| - 1])) && MotEntier(w)
  }

  lemma FinAvant(s: string, n: nat)
    requires s != "" && n <= |s| - 1
    ensures s[|s| - n..] == s[1..][|s| - 1 - n..]
    ensures n < |s| - 1 ==> s[|s| - n - 1] == s[1..][|s| - 2 - n]
    ensures n == |s| - 1 ==> s[|s| - n - 1] == s[0] && s[1..][|s| - 1 - n..] == s[1..]
  {
  }

  lemma FinMotAvant(s: string, w: string)
    requires s != "" && FinMot(s[1..], w) && (w == s[1..] ==> Separateur(s[0]))
    ensures FinMot(s, w)
  {
    hide MotEntier, Separateur;
    FinAvant(s, |w|);
  }

  lemma FinMotEntier(s: string, w: string)
    requires FinMot(s, w)
    ensures MotEntier(w)
  {
  }

  lemma MotEntierFin(s: string)
    requires MotEntier(s)
    ensures FinMot(s, s)
  {
    assert s[0..] == s;
  }

  lemma MotsSuivants(s: string)
    requires s != ""
    ensures var ws := Mots(s[1..]); var n := |ws| - 1;
            if Separateur(s[0]) || n > 0 then |Mots(s)| > 1 && Mots(s)[|Mots(s)| - 1] == ws[n]
            else Mots(s) == [[s[0]] + ws[0]]
  {
  }

  /** The last word ends the text, after a separator or nothing. */
  lemma {:induction false} DernierMot(s: string)
    ensures FinMot(s, Mots(s)[|Mots(s)| - 1])
    ensures |Mots(s)| == 1 ==> Mots(s)[0] == s
  {
    hide FinMot, MotEntier, Mots;
    if s == "" {
      MotSeulVide();
    } else {
      var t := s[1..];
      DernierMot(t);
      MotsSuivants(s);
      var w := Mots(t)[|Mots(t)| - 1];
      FinMotEntier(t, w);
      if |Mots(t)| == 1 && !Separateur(s[0]) {
        assert [s[0]] + t == s;
        MotPlusLong(s);
        MotEntierFin(s);
      } else {
        if w == t {
          MotSeul(t);
        }
        FinMotAvant(s, w);
      }
    }
  }

  lemma MotSeulVide()
    ensures Mots("") == [""] && FinMot("", "")
  {
  }

  lemma MotPlusLong(s: string)
    requires s != "" && MotEntier(s[1..]) && !Separateur(s[0])
    ensures MotEntier(s)
  {
    forall i | 0 <= i < |s|
      ensures !Separateur(s[i])
    {
      if i > 0 {
        assert s[i] == s[1..][i - 1];
      }
    }
  }

  /** A text ends with a word without separator exactly when its last word does. */
  lemma FinitParDernierMot(s: string, m: string)
    requires MotEntier(m)
    ensures var ws := Mots(s); FinitPar(s, m) <==> FinitPar(ws[|ws| - 1], m)
  {
    hide Mots;
    DernierMot(s);
    var ws := Mots(s);
    var w := ws[|ws| - 1];
    if |w| < |m| <= |s| {
      assert s[|s| - |m|..][|m| - |w| - 1] == s[|s| - |w| - 1];
    } else if |m| <= |w| {
      assert s[|s| - |m|..] == w[|w| - |m|..];
    }
  }

  lemma SimpleSansMillion(j: Jeton)
    requires Simple(j).Some?
    ensures !FinitParMillion(Texte(j))
  {
  }

  lemma AutreFinitParMillion(j: Jeton)
    requires Simple(j).None? && !Monetaire(j)
    ensures FinitParMillion(Texte(j)) <==> EstRang(j)
  {
  }

  lemma RangsEntiers()
    ensures MotEntier("million") && MotEntier("millions") && MotEntier("milliard") && MotEntier("milliards")
  {
  }

  lemma {:induction false} LuSansMonnaie(js: seq<Jeton>, e: Lecture)
    requires Lire(js, e).Some?
    ensures forall i :: 0 <= i < |js| ==> !Monetaire(js[i])
  {
    if js != [] {
      LuSansMonnaie(js[1..], Pas(e, js[0]).value);
      assert forall i :: 1 <= i < |js| ==> js[i] == js[1..][i - 1];
    }
  }

  predicate FinSansRang(js: seq<Jeton>) {
    js != [] && !EstRang(js[|js| - 1])
  }

  lemma DernierDeCent(n: nat, final: bool)
    requires n < 100
    ensures FinSansRang(JetonsCent(n, final))
  {
    assert forall u :: 0 <= u < 20 ==> FinSansRang(JetonsUnite(u));
  }

  lemma DernierDeMille(m: nat, final: bool)
    requires 0 < m < 1000
    ensures FinSansRang(JetonsMille(m, final))
  {
    hide JetonsCent;
    DernierDeCent(m % 100, final);
  }

  lemma DernierJeton(n: nat)
    requires n <= MAXIMUM
    ensures var js := JetonsNombre(n); js != [] && (EstRang(js[|js| - 1]) <==> n > 0 && n % 1_000_000 == 0)
  {
    hide JetonsMille;
    var a, b, c, d := n / 1_000_000_000, n % 1_000_000_000 / 1_000_000, n % 1_000_000 / 1000, n % 1000;
    Decomposition(n);
    assert n % 1_000_000 == c * 1000 + d;
    if d > 0 {
      DernierDeMille(d, true);
    } else if c > 0 {
      assert JetonsMilliers(c)[|JetonsMilliers(c)| - 1] == Mille;
    } else if b > 0 {
      assert JetonsNombre(n) == JetonsGroupe(a, Milliard, Milliards) + JetonsGroupe(b, Million, Millions);
    } else if a > 0 {
      assert JetonsNombre(n) == JetonsGroupe(a, Milliard, Milliards);
    }
  }

  /** "de" is written exactly after a whole number of millions. */
  lemma DeApresLesMillions(n: nat)
    requires n <= MAXIMUM
    ensures FinitParMillion(EnLettres(n)) <==> n > 0 && n % 1_000_000 == 0
  {
    hide EnLettres, JetonsNombre, Mots, Texte;
    var s, js := EnLettres(n), JetonsNombre(n);
    EcritNombre(n);
    DernierJeton(n);
    LireJetonsNombre(n);
    LuSansMonnaie(js, Lecture(0, 0));
    var j := js[|js| - 1];
    assert Mots(s)[|Mots(s)| - 1] == Texte(j);
    RangsEntiers();
    FinitParDernierMot(s, "million");
    FinitParDernierMot(s, "millions");
    FinitParDernierMot(s, "milliard");
    FinitParDernierMot(s, "milliards");
    if Simple(j).Some? {
      SimpleSansMillion(j);
    } else {
      AutreFinitParMillion(j);
    }
  }
}
