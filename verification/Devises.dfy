/** Conversion between US dollars and Congolese francs at a rate written with up to four decimals. */
module Devises {
  import opened Wrappers
  import opened Decimales
  import opened Calcul

  datatype ErreurDevise = MontantInvalide | TauxInvalide

  /** One dollar is worth r / 10000 francs. */
  function EnFrancs(usd: nat, r: nat): nat {
    DivArrondi(usd * r, 10000)
  }

  function EnDollars(cdf: nat, r: nat): nat
    requires r > 0
  {
    DivArrondi(cdf * 10000, r)
  }

  function UsdVersCdf(usdCents: int, taux: string): Result<nat, ErreurDevise> {
    if usdCents < 0 then Err(MontantInvalide) else
      match TauxEnDixMilliemes(taux)
      case Err(_) => Err(TauxInvalide)
      case Ok(r) => Ok(EnFrancs(usdCents, r))
  }

  function CdfVersUsd(cdfCents: int, taux: string): Result<nat, ErreurDevise> {
    if cdfCents < 0 then Err(MontantInvalide) else
      match TauxEnDixMilliemes(taux)
      case Err(_) => Err(TauxInvalide)
      case Ok(r) => Ok(EnDollars(cdfCents, r))
  }

  lemma AllerRetour(x: nat, r: nat)
    requires r >= 10000
    ensures EnDollars(EnFrancs(x, r), r) == x
  {
    var y := EnFrancs(x, r);
    ArrondiProche(x * r, 10000, y);
    assert r * x == x * r;
    ArrondiProche(y * 10000, r, x);
  }

  /** Below one franc per dollar, the first 10000 cents cannot all keep distinct values. */
  lemma {:induction false} PremiersConfondus(r: nat, n: nat) returns (x: nat)
    requires r < 10000 && EnFrancs(n, r) < n
    ensures EnFrancs(x, r) == EnFrancs(x + 1, r)
    decreases n
  {
    var u, v := EnFrancs(n - 1, r), EnFrancs(n, r);
    ArrondiProche((n - 1) * r, 10000, u);
    ArrondiProche(n * r, 10000, v);
    assert (n - 1) * r == n * r - r;
    if u == v {
      x := n - 1;
    } else {
      x := PremiersConfondus(r, n - 1);
    }
  }

  /**
   A dollar amount survives the trip to francs and back, whatever the amount, exactly at the rates of
   at least one franc per dollar.
   */
  lemma AllerRetourSsi(taux: string)
    requires TauxEnDixMilliemes(taux).Ok?
    ensures TauxEnDixMilliemes(taux).value >= 10000 <==>
            forall x: nat :: CdfVersUsd(UsdVersCdf(x, taux).value, taux) == Ok(x)
  {
    var r := TauxEnDixMilliemes(taux).value;
    if r >= 10000 {
      forall x: nat
        ensures CdfVersUsd(UsdVersCdf(x, taux).value, taux) == Ok(x)
      {
        AllerRetour(x, r);
      }
    } else {
      ArrondiProche(10000 * r, 10000, r);
      var x := PremiersConfondus(r, 10000);
      assert UsdVersCdf(x, taux) == UsdVersCdf(x + 1, taux);
      assert CdfVersUsd(UsdVersCdf(x, taux).value, taux) == CdfVersUsd(UsdVersCdf(x + 1, taux).value, taux);
      assert !(CdfVersUsd(UsdVersCdf(x, taux).value, taux) == Ok(x)
               && CdfVersUsd(UsdVersCdf(x + 1, taux).value, taux) == Ok(x + 1));
    }
  }

  /** Dollars are worth their francs to the nearest cent, at the rate as it is written: a whole part and four decimals. */
  lemma ConversionAuCentime(x: nat, ent: string, dec: string)
    requires ent != "" && TousChiffres(ent) && |dec| == 4 && TousChiffres(dec)
    ensures var r, y := 10_000 * Entier(ent) + Entier(dec), UsdVersCdf(x, ent + "." + dec);
            if r == 0 then y == Err(TauxInvalide) else y.Ok? && -10_000 < 2 * (10_000 * y.value - x * r) <= 10_000
  {
    hide DivArrondi, Lire, Entier;
    TauxEcrit(ent, dec);
    var r := 10_000 * Entier(ent) + Entier(dec);
    ArrondiProche(x * r, 10_000, DivArrondi(x * r, 10_000));
  }

  lemma TauxEcrit(ent: string, dec: string)
    requires ent != "" && TousChiffres(ent) && |dec| == 4 && TousChiffres(dec)
    ensures var r := 10_000 * Entier(ent) + Entier(dec);
            Lire(ent + "." + dec, 4) == if r == 0 then Err(NonPositive) else Ok(r)
  {
    hide Lire, Entier;
    LireBienForme(ent, dec, 4);
    assert dec + Zeros(0) == dec;
    DixMille();
  }

  lemma DixMille()
    ensures Puissance10(4) == 10_000
  {
  }
}
