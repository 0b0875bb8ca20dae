/** Amounts written in French words on the invoice (montant-en-lettres.ts). */
module MontantEnLettres {
  import opened Wrappers

  const MAXIMUM := 999_999_999_999

  function Unite(u: nat): string
    requires u < 20
  {
    if u == 0 then "zéro" else if u == 1 then "un" else if u == 2 then "deux" else if u == 3 then "trois"
    else if u == 4 then "quatre" else if u == 5 then "cinq" else if u == 6 then "six" else if u == 7 then "sept"
    else if u == 8 then "huit" else if u == 9 then "neuf" else if u == 10 then "dix" else if u == 11 then "onze"
    else if u == 12 then "douze" else if u == 13 then "treize" else if u == 14 then "quatorze"
    else if u == 15 then "quinze" else if u == 16 then "seize" else if u == 17 then "dix-sept"
    else if u == 18 then "dix-huit" else "dix-neuf"
  }

  function Dizaine(d: nat): string
    requires 2 <= d < 10
  {
    if d == 2 then "vingt" else if d == 3 then "trente" else if d == 4 then "quarante" else if d == 5 then "cinquante"
    else if d <= 7 then "soixante" else "quatre-vingt"
  }

  /** Tens and units; final: nothing follows, so that "quatre-vingts" takes its s. */
  function Composer(d: nat, u: nat, final: bool): string
    requires 2 <= d < 10 && u < 20
  {
    if u == 0 then (if d == 8 && final then "quatre-vingts" else Dizaine(d))
    else if (u == 1 || u == 11) && d != 8 && d != 9 then Dizaine(d) + " et " + Unite(u)
    else Dizaine(d) + "-" + Unite(u)
  }

  /** Seventy and ninety count from sixty and eighty. */
  function UniteApres(n: nat): (u: nat)
    requires n < 100
    ensures u < 20
  {
    n % 10 + if n / 10 == 7 || n / 10 == 9 then 10 else 0
  }

  /** 0 to 99. */
  function MoinsDeCent(n: nat, final: bool): string
    requires n < 100
  {
    if n < 20 then Unite(n) else Composer(n / 10, UniteApres(n), final)
  }

  /** 0 to 999. */
  function MoinsDeMille(n: nat, final: bool): string
    requires n < 1000
  {
    var c, reste := n / 100, n % 100;
    if c == 0 then MoinsDeCent(reste, final) else
      var cent := if c == 1 then "cent" else Unite(c) + " " + if reste == 0 && final then "cents" else "cent";
      if reste == 0 then cent else cent + " " + MoinsDeCent(reste, final)
  }

  function Joindre(parties: seq<string>): string {
    if parties == [] then "" else if |parties| == 1 then parties[0]
    else Joindre(parties[..|parties| - 1]) + " " + parties[|parties| - 1]
  }

  function PartieMilliards(m: nat): seq<string>
    requires m < 1000
  {
    if m == 0 then [] else [MoinsDeMille(m, true) + " " + if m > 1 then "milliards" else "milliard"]
  }

  function PartieMillions(m: nat): seq<string>
    requires m < 1000
  {
    if m == 0 then [] else [MoinsDeMille(m, true) + " " + if m > 1 then "millions" else "million"]
  }

  /** "mille" and not "un mille"; no s before "mille". */
  function PartieMilliers(m: nat): seq<string>
    requires m < 1000
  {
    if m == 0 then [] else if m == 1 then ["mille"] else [MoinsDeMille(m, false) + " " + "mille"]
  }

  function PartieUnites(m: nat): seq<string>
    requires m < 1000
  {
    if m == 0 then [] else [MoinsDeMille(m, true)]
  }

  function Parties(n: nat): seq<string>
    requires n <= MAXIMUM
  {
    PartieMilliards(n / 1_000_000_000) + PartieMillions(n % 1_000_000_000 / 1_000_000) + PartieMilliers(n % 1_000_000 / 1000) + PartieUnites(n % 1000)
  }

  function EnLettres(n: nat): string
    requires n <= MAXIMUM
  {
    if n == 0 then "zéro" else Joindre(Parties(n))
  }

  /** nombreEnLettres: the parts are pushed one after the other, then joined. */
  method NombreEnLettres(n: int) returns (r: Result<string, string>)
    ensures r == if 0 <= n <= MAXIMUM then Ok(EnLettres(n)) else Err("Nombre hors limites")
  {
    if n < 0 || n > MAXIMUM {
      return Err("Nombre hors limites");
    }
    if n == 0 {
      return Ok("zéro");
    }
    hide MoinsDeMille;
    var parties: seq<string> := [];
    var milliards, millions, milliers, unites := n / 1_000_000_000, n % 1_000_000_000 / 1_000_000, n % 1_000_000 / 1000, n % 1000;
    if milliards > 0 {
      parties := parties + [MoinsDeMille(milliards, true) + " " + if milliards > 1 then "milliards" else "milliard"];
    }
    assert parties == PartieMilliards(milliards);
    if millions > 0 {
      parties := parties + [MoinsDeMille(millions, true) + " " + if millions > 1 then "millions" else "million"];
    }
    assert parties == PartieMilliards(milliards) + PartieMillions(millions);
    if milliers > 0 {
      parties := parties + [if milliers == 1 then "mille" else MoinsDeMille(milliers, false) + " " + "mille"];
    }
    assert parties == PartieMilliards(milliards) + PartieMillions(millions) + PartieMilliers(milliers);
    if unites > 0 {
      parties := parties + [MoinsDeMille(unites, true)];
    }
    assert parties == PartieMilliards(milliards) + PartieMillions(millions) + PartieMilliers(milliers) + PartieUnites(unites);
    return Ok(Joindre(parties));
  }

  // ------------------------------------------------------------------ amounts

  datatype Devise = CDF | USD

  function Monnaie(d: Devise, un: bool): string {
    match d
    case CDF => if un then "franc congolais" else "francs congolais"
    case USD => if un then "dollar américain" else "dollars américains"
  }

  function Subdivision(d: Devise, un: bool): string {
    match d
    case CDF => if un then "centime" else "centimes"
    case USD => if un then "cent" else "cents"
  }

  predicate FinitPar(s: string, fin: string) {
    |fin| <= |s| && s[|s| - |fin|..] == fin
  }

  /** "un million de francs": the text ends with "million" or "milliard", possibly with an s. */
  predicate FinitParMillion(s: string) {
    FinitPar(s, "million") || FinitPar(s, "millions") || FinitPar(s, "milliard") || FinitPar(s, "milliards")
  }

  function Majuscule(c: char): char {
    if 'a' <= c <= 'z' then c - 'a' + 'A' else c
  }

  function Capitaliser(s: string): string {
    if s == "" then "" else [Majuscule(s[0])] + s[1..]
  }

  /** The amount before its first letter is capitalised. */
  function Phrase(cents: nat, d: Devise): string
    requires cents / 100 <= MAXIMUM
  {
    var entier, reste := cents / 100, cents % 100;
    var lettres := EnLettres(entier);
    lettres + (if FinitParMillion(lettres) then " de" else "") + " " + Monnaie(d, entier <= 1)
    + if reste > 0 then " et " + EnLettres(reste) + " " + Subdivision(d, reste == 1) else ""
  }

  /** montantEnLettres: whole currency units, then the cents when there are some. */
  method EcrireMontant(cents: int, devise: Devise) returns (r: Result<string, string>)
    ensures r.Ok? <==> 0 <= cents && cents / 100 <= MAXIMUM
    ensures r.Ok? ==> r.value == Capitaliser(Phrase(cents, devise))
  {
    if cents < 0 {
      return Err("Montant invalide");
    }
    var entier, reste := cents / 100, cents % 100;
    var lettres := NombreEnLettres(entier);
    if lettres.Err? {
      return Err(lettres.error);
    }
    var de := if FinitParMillion(lettres.value) then " de" else "";
    var texte := lettres.value + de + " " + Monnaie(devise, entier <= 1);
    if reste > 0 {
      var centimes := NombreEnLettres(reste);
      assert centimes.Ok?;
      texte := texte + (" et " + centimes.value + " " + Subdivision(devise, reste == 1));
    }
    assert texte == Phrase(cents, devise);
    return Ok(Capitaliser(texte));
  }
}
