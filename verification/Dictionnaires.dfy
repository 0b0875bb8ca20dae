/** Maps that keep the order in which their keys were first set, as JavaScript's Map does. */
module Dictionnaires {
  import opened Sommes

  datatype Dictionnaire<K(==), V> = Dictionnaire(cles: seq<K>, valeurs: map<K, V>)

  predicate Valide<K(==), V>(d: Dictionnaire<K, V>) {
    && (forall k | k in d.cles :: k in d.valeurs)
    && (forall k | k in d.valeurs :: k in d.cles)
    && forall i, j :: 0 <= i < j < |d.cles| ==> d.cles[i] != d.cles[j]
  }

  function Vide<K(==), V>(): (d: Dictionnaire<K, V>)
    ensures Valide(d)
  {
    Dictionnaire([], map[])
  }

  function Mettre<K(==), V>(d: Dictionnaire<K, V>, k: K, v: V): (r: Dictionnaire<K, V>)
    requires Valide(d)
    ensures Valide(r) && r.valeurs == d.valeurs[k := v] && d.cles <= r.cles
  {
    Dictionnaire(if k in d.valeurs then d.cles else d.cles + [k], d.valeurs[k := v])
  }

  function Entrees<K(==), V>(d: Dictionnaire<K, V>): (es: seq<(K, V)>)
    requires Valide(d)
    ensures |es| == |d.cles|
    ensures forall i :: 0 <= i < |es| ==> es[i] == (d.cles[i], d.valeurs[d.cles[i]])
  {
    seq(|d.cles|, i requires 0 <= i < |d.cles| => (d.cles[i], d.valeurs[d.cles[i]]))
  }

  function Seulement<K(==), V>(k: K, f: V -> int): ((K, V)) -> int {
    (e: (K, V)) => if e.0 == k then f(e.1) else 0
  }

  /** In a list whose keys differ, a key that is present is read exactly once. */
  lemma {:induction false} SommeUneCle<K, V>(es: seq<(K, V)>, k: K, f: V -> int)
    requires forall i, j :: 0 <= i < j < |es| ==> es[i].0 != es[j].0
    ensures (forall i :: 0 <= i < |es| ==> es[i].0 != k) ==> Somme(es, Seulement(k, f)) == 0
    ensures forall i :: 0 <= i < |es| && es[i].0 == k ==> Somme(es, Seulement(k, f)) == f(es[i].1)
  {
    if es != [] {
      SommeUneCle(es[..|es| - 1], k, f);
    }
  }

  function SurValeur<K, V>(f: V -> int): ((K, V)) -> int {
    (e: (K, V)) => f(e.1)
  }

  /** Setting a key changes a sum over the values by the difference between the new value and the old one. */
  lemma SommeMettre<K, V>(d: Dictionnaire<K, V>, k: K, v: V, f: V -> int)
    requires Valide(d)
    ensures Somme(Entrees(Mettre(d, k, v)), SurValeur(f)) ==
            Somme(Entrees(d), SurValeur(f)) - (if k in d.valeurs then f(d.valeurs[k]) else 0) + f(v)
  {
    var es, r := Entrees(d), Entrees(Mettre(d, k, v));
    if k in d.valeurs {
      var i :| 0 <= i < |d.cles| && d.cles[i] == k;
      assert r == es[i := (k, v)];
      SommeUnChange(es, i, (k, v), SurValeur(f));
    } else {
      assert r == es + [(k, v)];
      SommeAjout(es, (k, v), SurValeur<K, V>(f));
    }
  }
}
