/**
 The journal of X and Z reports (rapports-fiscaux.service.ts): closings of periods over every run, with several
 closings under way at once and invoices written late.
 */
module RapportsFiscaux {
  import opened Wrappers
  import opened Sommes
  import opened Groupes
  import opened Rapports

  type Instant = int

  /** A row and its date: confirmed_at for a confirmed invoice, created_at otherwise. */
  datatype Datee<T> = Datee(valeur: T, instant: Instant)

  datatype Genre = X | XP | Z

  /**
   A row of the journal of reports. The last two fields are not stored: they remember how many confirmed
   invoices and cash movements the tables held when the report was computed.
   */
  datatype Rapport = Rapport(
    genre: Genre, numero: nat, debut: Instant, fin: Instant, contenu: ContenuXZ, confirmeesLues: nat, mouvementsLus: nat)

  /** What a closing has read so far; rows are read by how many were written. */
  datatype Lectures = Lectures(confirmees: Option<nat>, suspens: Option<seq<FacturePourRapport>>, mouvements: Option<nat>)

  const RIEN_LU := Lectures(None, None, None)

  /** How far a closing has gone: its number, then its period, then its contents are known. */
  datatype Cloture =
    | Numerotee(numero: nat)
    | Ouverte(numero: nat, debut: Instant, fin: Instant, lectures: Lectures)
    | Lue(rapport: Rapport)

  type Acteur = nat

  datatype Profil = Profil(activation: Option<Instant>, creation: Option<Instant>)

  /** The tables of one company, in the order in which rows were written; premiere: creation of its first invoice. */
  datatype Etat = Etat(
    profil: Profil, horloge: Instant, premiere: Option<Instant>,
    confirmees: seq<Datee<FacturePourRapport>>, suspens: seq<Datee<FacturePourRapport>>, mouvements: seq<Datee<Mouvement>>,
    journal: seq<Rapport>, clotures: map<Acteur, Cloture>)

  // ------------------------------------------------------------------ reading a period

  predicate Dans(i: Instant, debut: Instant, fin: Instant) {
    debut < i <= fin
  }

  /** The rows dated after debut, and up to fin included. */
  function Periode<T>(xs: seq<Datee<T>>, debut: Instant, fin: Instant): seq<T> {
    if xs == [] then [] else
      var x := xs[|xs| - 1];
      Periode(xs[..|xs| - 1], debut, fin) + if Dans(x.instant, debut, fin) then [x.valeur] else []
  }

  function DansPeriode<T>(f: T -> int, debut: Instant, fin: Instant): Datee<T> -> int {
    (x: Datee<T>) => if Dans(x.instant, debut, fin) then f(x.valeur) else 0
  }

  lemma {:induction false} SommePeriode<T>(xs: seq<Datee<T>>, debut: Instant, fin: Instant, f: T -> int)
    ensures Somme(Periode(xs, debut, fin), f) == Somme(xs, DansPeriode(f, debut, fin))
  {
    if xs != [] {
      var x, p := xs[|xs| - 1], Periode(xs[..|xs| - 1], debut, fin);
      SommePeriode(xs[..|xs| - 1], debut, fin, f);
      SommeAjout(p, x.valeur, f);
      assert p + [] == p;
    }
  }

  lemma {:induction false} PeriodeInclus<T>(xs: seq<Datee<T>>, debut: Instant, fin: Instant, v: T)
    requires v in Periode(xs, debut, fin)
    ensures exists x :: x in xs && x.valeur == v
  {
    if v in Periode(xs[..|xs| - 1], debut, fin) {
      PeriodeInclus(xs[..|xs| - 1], debut, fin, v);
    } else {
      assert xs[|xs| - 1] in xs;
    }
  }

  /** The contents are those of a report over these rows, in some order. */
  ghost predicate RapportDe(c: ContenuXZ, fs: seq<FacturePourRapport>, ms: seq<Mouvement>) {
    exists gs, ns :: EstRapportOrdonne(c, fs, ms, gs, ns)
  }

  ghost predicate EstRapportOrdonne(c: ContenuXZ, fs: seq<FacturePourRapport>, ms: seq<Mouvement>, gs: seq<FacturePourRapport>, ns: seq<Mouvement>) {
    multiset(gs) == multiset(fs) && multiset(ns) == multiset(ms) && EstRapport(c, gs, ns)
  }

  lemma LectureDe(c: ContenuXZ, fs: seq<FacturePourRapport>, ms: seq<Mouvement>, m: Mesure)
    requires RapportDe(c, fs, ms) && Mesurable(m)
    ensures Lecture(c, m) == Attendu(fs, ms, m)
  {
    hide Presentation, Lecture, Apport, ApportEspeces, Somme;
    var gs, ns :| EstRapportOrdonne(c, fs, ms, gs, ns);
    SommePermutation(gs, fs, Apport(m));
    SommePermutation(ns, ms, ApportEspeces(m));
  }

  /** What calculXZ reads for a period. */
  function FacturesLues(e: Etat, debut: Instant, fin: Instant): seq<FacturePourRapport> {
    Periode(e.confirmees, debut, fin) + Periode(e.suspens, debut, fin)
  }

  ghost predicate RapportDePeriode(c: ContenuXZ, e: Etat, debut: Instant, fin: Instant) {
    RapportDe(c, FacturesLues(e, debut, fin), Periode(e.mouvements, debut, fin))
  }

  // ------------------------------------------------------------------ the last Z

  /** derniers: the Z with the highest number. */
  function Dernier(journal: seq<Rapport>): Option<Rapport> {
    if journal == [] then None else
      var avant, r := Dernier(journal[..|journal| - 1]), journal[|journal| - 1];
      if r.genre != Z then avant
      else if avant.None? || r.numero > avant.value.numero then Some(r)
      else avant
  }

  function MinOption(a: Option<Instant>, b: Option<Instant>): Option<Instant> {
    if a.None? then b else if b.None? || a.value <= b.value then a else b
  }

  /** debutDepuisDernier: the end of the last Z, else the first known date, else now. */
  function Debut(e: Etat): Instant {
    match Dernier(e.journal)
    case Some(z) => z.fin
    case None =>
      match MinOption(MinOption(e.profil.activation, e.premiere), e.profil.creation)
      case Some(i) => i
      case None => e.horloge
  }

  function Numero(e: Etat): nat {
    match Dernier(e.journal) case Some(z) => z.numero + 1 case None => 1
  }

  /** The unique index on (type, number). */
  predicate NumeroLibre(journal: seq<Rapport>, n: nat) {
    forall i :: 0 <= i < |journal| && journal[i].genre == Z ==> journal[i].numero != n
  }

  // ------------------------------------------------------------------ steps

  datatype Pas =
    | Tic(h: Instant)
    | Creer(f: FacturePourRapport)
    | Changer(suspens: seq<Datee<FacturePourRapport>>)
    | Confirmer(k: nat, f: FacturePourRapport, instant: Instant)
    | Bouger(mouvement: Mouvement, instant: Instant)
    | RapportX(periode: Option<(Instant, Instant)>, contenu: ContenuXZ)
    | Numeroter(a: Acteur)
    | Ouvrir(a: Acteur)
    | LireConfirmees(a: Acteur)
    | LireSuspens(a: Acteur)
    | LireMouvements(a: Acteur)
    | Calculer(a: Acteur, contenu: ContenuXZ)
    | Inserer(a: Acteur)
    | Abandonner(a: Acteur)

  const PERIODE_MAX: int := 366 * 24 * 3600 * 1000

  /** The end of a chosen period is never in the future; the period is not empty and covers at most a year. */
  function Bornes(e: Etat, periode: Option<(Instant, Instant)>): Option<(Instant, Instant)> {
    match periode
    case None => Some((Debut(e), e.horloge))
    case Some((debut, fin)) =>
      var borne := if fin > e.horloge then e.horloge else fin;
      if borne <= debut || borne - debut > PERIODE_MAX then None else Some((debut, borne))
  }

  predicate Incomplete(f: FacturePourRapport) {
    f.statut == Provisional || f.statut == Pending || f.statut == Failed
  }

  predicate ToutLu(e: Etat, o: Cloture) {
    && o.Ouverte? && o.lectures.confirmees.Some? && o.lectures.suspens.Some? && o.lectures.mouvements.Some?
    && o.lectures.confirmees.value <= |e.confirmees| && o.lectures.mouvements.value <= |e.mouvements|
  }

  /** The contents are those of a report over what the closing read, each table at its own moment. */
  ghost predicate RapportDesLectures(c: ContenuXZ, e: Etat, o: Cloture)
    requires ToutLu(e, o)
  {
    RapportDe(c, Periode(e.confirmees[..o.lectures.confirmees.value], o.debut, o.fin) + o.lectures.suspens.value,
              Periode(e.mouvements[..o.lectures.mouvements.value], o.debut, o.fin))
  }

  /**
   What can happen. The date of a confirmation is taken before the row is written, and the clock may have moved
   between the two; a closing reads its number, then its period, then each of the tables, then writes its
   report, and anything may happen in between.
   */
  ghost predicate Possible(e: Etat, p: Pas) {
    match p
    case Tic(h) => h >= e.horloge
    case Creer(f) => Incomplete(f)
    case Changer(suspens) =>
      forall i :: 0 <= i < |suspens| ==> Incomplete(suspens[i].valeur) && exists j :: 0 <= j < |e.suspens| && e.suspens[j].instant == suspens[i].instant
    case Confirmer(k, f, instant) => k < |e.suspens| && f.statut == Confirmed && instant <= e.horloge
    case Bouger(_, instant) => instant <= e.horloge
    case RapportX(periode, c) =>
      var b := Bornes(e, periode);
      b.Some? && b.value.0 <= b.value.1 && RapportDePeriode(c, e, b.value.0, b.value.1)
    case Numeroter(a) => a !in e.clotures
    case Ouvrir(a) => a in e.clotures && e.clotures[a].Numerotee?
    case LireConfirmees(a) => a in e.clotures && e.clotures[a].Ouverte?
    case LireSuspens(a) => a in e.clotures && e.clotures[a].Ouverte?
    case LireMouvements(a) => a in e.clotures && e.clotures[a].Ouverte?
    case Calculer(a, c) => a in e.clotures && ToutLu(e, e.clotures[a]) && RapportDesLectures(c, e, e.clotures[a])
    case Inserer(a) => a in e.clotures && e.clotures[a].Lue?
    case Abandonner(a) => a in e.clotures
  }

  /** A report is written unless its number is taken, or its period ends before it starts. */
  predicate Inserable(journal: seq<Rapport>, r: Rapport) {
    NumeroLibre(journal, r.numero) && r.debut <= r.fin
  }

  function AvecLectures(e: Etat, a: Acteur, l: Lectures): Etat
    requires a in e.clotures && e.clotures[a].Ouverte?
  {
    e.(clotures := e.clotures[a := e.clotures[a].(lectures := l)])
  }

  function RapportLu(o: Cloture, c: ContenuXZ): Rapport
    requires o.Ouverte? && o.lectures.confirmees.Some? && o.lectures.mouvements.Some?
  {
    Rapport(Z, o.numero, o.debut, o.fin, c, o.lectures.confirmees.value, o.lectures.mouvements.value)
  }

  function Apres(e: Etat, p: Pas): Etat {
    match p
    case Tic(h) => e.(horloge := h)
    case Creer(f) =>
      e.(suspens := e.suspens + [Datee(f, e.horloge)], premiere := if e.premiere.Some? then e.premiere else Some(e.horloge))
    case Changer(suspens) => e.(suspens := suspens)
    case Confirmer(k, f, instant) =>
      if k < |e.suspens| then
        e.(suspens := e.suspens[..k] + e.suspens[k + 1..], confirmees := e.confirmees + [Datee(f, instant)])
      else e
    case Bouger(m, instant) => e.(mouvements := e.mouvements + [Datee(m, instant)])
    case RapportX(periode, c) =>
      var b := Bornes(e, periode);
      if b.Some? then
        e.(journal := e.journal +
             [Rapport(if periode.Some? then XP else X, 0, b.value.0, b.value.1, c, |e.confirmees|, |e.mouvements|)])
      else e
    case Numeroter(a) => e.(clotures := e.clotures[a := Numerotee(Numero(e))])
    case Ouvrir(a) =>
      if a in e.clotures && e.clotures[a].Numerotee? then
        e.(clotures := e.clotures[a := Ouverte(e.clotures[a].numero, Debut(e), e.horloge, RIEN_LU)])
      else e
    case LireConfirmees(a) =>
      if a in e.clotures && e.clotures[a].Ouverte? then
        AvecLectures(e, a, e.clotures[a].lectures.(confirmees := Some(|e.confirmees|)))
      else e
    case LireSuspens(a) =>
      if a in e.clotures && e.clotures[a].Ouverte? then
        AvecLectures(e, a, e.clotures[a].lectures.(suspens := Some(Periode(e.suspens, e.clotures[a].debut, e.clotures[a].fin))))
      else e
    case LireMouvements(a) =>
      if a in e.clotures && e.clotures[a].Ouverte? then
        AvecLectures(e, a, e.clotures[a].lectures.(mouvements := Some(|e.mouvements|)))
      else e
    case Calculer(a, c) =>
      if a in e.clotures && ToutLu(e, e.clotures[a]) then
        e.(clotures := e.clotures[a := Lue(RapportLu(e.clotures[a], c))])
      else e
    case Inserer(a) =>
      if a in e.clotures && e.clotures[a].Lue? then
        var r := e.clotures[a].rapport;
        e.(clotures := e.clotures - {a}, journal := if Inserable(e.journal, r) then e.journal + [r] else e.journal)
      else e
    case Abandonner(a) => e.(clotures := e.clotures - {a})
  }

  function Parcours(e: Etat, ps: seq<Pas>): Etat {
    if ps == [] then e else Apres(Parcours(e, ps[..|ps| - 1]), ps[|ps| - 1])
  }

  ghost predicate Faisable(e: Etat, ps: seq<Pas>) {
    ps != [] ==> Faisable(e, ps[..|ps| - 1]) && Possible(Parcours(e, ps[..|ps| - 1]), ps[|ps| - 1])
  }

  /** No report yet, and no closing under way. */
  predicate Initial(e: Etat) {
    && e.journal == [] && e.clotures == map[]
    && (forall i :: 0 <= i < |e.confirmees| ==> e.confirmees[i].valeur.statut == Confirmed)
    && (forall i :: 0 <= i < |e.suspens| ==> Incomplete(e.suspens[i].valeur))
  }

  // ------------------------------------------------------------------ the Z reports follow each other

  function Zs(journal: seq<Rapport>): seq<Rapport> {
    if journal == [] then [] else
      Zs(journal[..|journal| - 1]) + if journal[|journal| - 1].genre == Z then [journal[|journal| - 1]] else []
  }

  /** Numbered from 1, each starts where the one before ends, and was computed after it. */
  predicate Enchaines(zs: seq<Rapport>) {
    && (forall k :: 0 <= k < |zs| ==> zs[k].numero == k + 1 && zs[k].debut <= zs[k].fin)
    && forall k :: 0 <= k < |zs| - 1 ==>
         && zs[k + 1].debut == zs[k].fin
         && zs[k].confirmeesLues <= zs[k + 1].confirmeesLues && zs[k].mouvementsLus <= zs[k + 1].mouvementsLus
  }

  /** The Z r, with number |zs| + 1, would prolong the chain. */
  predicate Prolonge(zs: seq<Rapport>, debut: Instant) {
    zs != [] ==> debut == zs[|zs| - 1].fin
  }

  /** Amounts that only confirmed invoices and cash movements bring. */
  predicate Cumulable(m: Mesure) {
    Mesurable(m) && !m.Incompletes? && !m.Provisoires? && !m.EnEchec?
  }

  /** The report shows the rows that were written when it was computed. */
  ghost predicate ContenuExact(e: Etat, r: Rapport) {
    && r.confirmeesLues <= |e.confirmees| && r.mouvementsLus <= |e.mouvements| && r.fin <= e.horloge
    && forall m :: Cumulable(m) ==>
         Lecture(r.contenu, m) == Attendu(Periode(e.confirmees[..r.confirmeesLues], r.debut, r.fin),
                                          Periode(e.mouvements[..r.mouvementsLus], r.debut, r.fin), m)
  }

  ghost predicate ClotureSaine(e: Etat, c: Cloture) {
    var zs := Zs(e.journal);
    match c
    case Numerotee(n) => 1 <= n <= |zs| + 1
    case Ouverte(n, debut, fin, l) =>
      && 1 <= n <= |zs| + 1 && fin <= e.horloge
      && (l.confirmees.Some? ==> l.confirmees.value <= |e.confirmees|) && (l.mouvements.Some? ==> l.mouvements.value <= |e.mouvements|)
      && (l.suspens.Some? ==> forall f :: f in l.suspens.value ==> Incomplete(f))
      && (n == |zs| + 1 ==>
            && Prolonge(zs, debut)
            && (zs != [] && l.confirmees.Some? ==> zs[|zs| - 1].confirmeesLues <= l.confirmees.value)
            && (zs != [] && l.mouvements.Some? ==> zs[|zs| - 1].mouvementsLus <= l.mouvements.value))
    case Lue(r) =>
      && r.genre == Z && 1 <= r.numero <= |zs| + 1 && ContenuExact(e, r)
      && (r.numero == |zs| + 1 ==>
            && Prolonge(zs, r.debut)
            && (zs != [] ==> zs[|zs| - 1].confirmeesLues <= r.confirmeesLues && zs[|zs| - 1].mouvementsLus <= r.mouvementsLus))
  }

  ghost predicate Inv(e: Etat) {
    && (forall i :: 0 <= i < |e.confirmees| ==> e.confirmees[i].valeur.statut == Confirmed)
    && (forall i :: 0 <= i < |e.suspens| ==> Incomplete(e.suspens[i].valeur))
    && Enchaines(Zs(e.journal))
    && (forall k :: 0 <= k < |Zs(e.journal)| ==> ContenuExact(e, Zs(e.journal)[k]))
    && (forall a :: a in e.clotures ==> ClotureSaine(e, e.clotures[a]))
  }

  lemma ZsAjout(journal: seq<Rapport>, r: Rapport)
    ensures Zs(journal + [r]) == Zs(journal) + if r.genre == Z then [r] else []
  {
    assert (journal + [r])[..|journal|] == journal;
  }

  lemma EnchainesDebut(zs: seq<Rapport>, r: Rapport)
    requires Enchaines(zs + [r])
    ensures Enchaines(zs)
  {
    var ts := zs + [r];
    forall k | 0 <= k < |zs| - 1
      ensures zs[k + 1].debut == zs[k].fin
      ensures zs[k].confirmeesLues <= zs[k + 1].confirmeesLues && zs[k].mouvementsLus <= zs[k + 1].mouvementsLus
    {
      assert ts[k] == zs[k] && ts[k + 1] == zs[k + 1];
    }
    assert forall k :: 0 <= k < |zs| ==> ts[k] == zs[k];
  }

  /** The report r may come after the chain zs. */
  predicate Suit(zs: seq<Rapport>, r: Rapport) {
    && r.numero == |zs| + 1 && r.debut <= r.fin
    && (zs != [] ==>
          var z := zs[|zs| - 1];
          r.debut == z.fin && z.confirmeesLues <= r.confirmeesLues && z.mouvementsLus <= r.mouvementsLus)
  }

  lemma EnchainesAjout(zs: seq<Rapport>, r: Rapport)
    requires Enchaines(zs) && Suit(zs, r)
    ensures Enchaines(zs + [r])
  {
    var ts := zs + [r];
    forall k | 0 <= k < |ts| - 1
      ensures ts[k + 1].debut == ts[k].fin
      ensures ts[k].confirmeesLues <= ts[k + 1].confirmeesLues && ts[k].mouvementsLus <= ts[k + 1].mouvementsLus
    {
      assert ts[k] == zs[k];
      if k + 1 < |zs| {
        assert ts[k + 1] == zs[k + 1];
      }
    }
  }

  lemma EnchainesFin(zs: seq<Rapport>)
    requires Enchaines(zs) && zs != []
    ensures zs[|zs| - 1].numero == |zs|
  {
  }

  lemma {:induction false} DernierDesZ(journal: seq<Rapport>)
    requires Enchaines(Zs(journal))
    ensures var zs := Zs(journal); Dernier(journal) == if zs == [] then None else Some(zs[|zs| - 1])
  {
    hide Enchaines;
    if journal != [] {
      var avant, r := journal[..|journal| - 1], journal[|journal| - 1];
      assert journal == avant + [r];
      ZsAjout(avant, r);
      if r.genre == Z {
        EnchainesDebut(Zs(avant), r);
        EnchainesFin(Zs(avant) + [r]);
        if Zs(avant) != [] {
          EnchainesFin(Zs(avant));
        }
      } else {
        assert Zs(avant) + [] == Zs(avant);
      }
      DernierDesZ(avant);
    }
  }

  lemma {:induction false} NumeroLibreSsi(journal: seq<Rapport>, n: nat)
    ensures NumeroLibre(journal, n) <==> forall z :: z in Zs(journal) ==> z.numero != n
  {
    if journal != [] {
      var avant, r := journal[..|journal| - 1], journal[|journal| - 1];
      NumeroLibreSsi(avant, n);
      assert NumeroLibre(journal, n) <==> NumeroLibre(avant, n) && (r.genre == Z ==> r.numero != n);
    }
  }

  /** The only free number that a closing can hold is the next one. */
  lemma NumeroSuivant(journal: seq<Rapport>, n: nat)
    requires Enchaines(Zs(journal)) && 1 <= n <= |Zs(journal)| + 1
    ensures NumeroLibre(journal, n) <==> n == |Zs(journal)| + 1
  {
    var zs := Zs(journal);
    NumeroLibreSsi(journal, n);
    if n <= |zs| {
      assert zs[n - 1] in zs && zs[n - 1].numero == n;
    }
  }

  lemma InitialSain(e: Etat)
    requires Initial(e)
    ensures Inv(e)
  {
  }

  /** Tables only grow: what a report showed stays exact. */
  predicate Grandit(e: Etat, t: Etat) {
    e.confirmees <= t.confirmees && e.mouvements <= t.mouvements && e.horloge <= t.horloge
  }

  lemma ResteExact(e: Etat, t: Etat, r: Rapport)
    requires Grandit(e, t) && ContenuExact(e, r)
    ensures ContenuExact(t, r)
  {
    hide Cumulable, Lecture, Attendu, Periode;
    assert t.confirmees[..r.confirmeesLues] == e.confirmees[..r.confirmeesLues];
    assert t.mouvements[..r.mouvementsLus] == e.mouvements[..r.mouvementsLus];
  }

  lemma ClotureResteSaine(e: Etat, t: Etat, c: Cloture)
    requires Grandit(e, t) && Zs(t.journal) == Zs(e.journal) && ClotureSaine(e, c)
    ensures ClotureSaine(t, c)
  {
    hide ContenuExact, Zs;
    if c.Lue? {
      ResteExact(e, t, c.rapport);
    }
  }

  /** Steps that touch neither the Z reports nor the closings. */
  lemma PasOrdinaire(e: Etat, t: Etat)
    requires Inv(e) && Grandit(e, t) && Zs(t.journal) == Zs(e.journal)
    requires forall a :: a in t.clotures ==> a in e.clotures && t.clotures[a] == e.clotures[a]
    requires forall i :: 0 <= i < |t.confirmees| ==> t.confirmees[i].valeur.statut == Confirmed
    requires forall i :: 0 <= i < |t.suspens| ==> Incomplete(t.suspens[i].valeur)
    ensures Inv(t)
  {
    hide ContenuExact, ClotureSaine, Zs, Enchaines, Grandit;
    forall k | 0 <= k < |Zs(t.journal)| ensures ContenuExact(t, Zs(t.journal)[k]) { ResteExact(e, t, Zs(t.journal)[k]); }
    forall a | a in t.clotures ensures ClotureSaine(t, t.clotures[a]) { ClotureResteSaine(e, t, t.clotures[a]); }
  }

  /** What is computed from the rows read is exact: incomplete sales bring nothing to the amounts that add up. */
  lemma LuExact(e: Etat, r: Rapport, gs: seq<FacturePourRapport>)
    requires r.confirmeesLues <= |e.confirmees| && r.mouvementsLus <= |e.mouvements| && r.fin <= e.horloge
    requires RapportDe(r.contenu, Periode(e.confirmees[..r.confirmeesLues], r.debut, r.fin) + gs,
                       Periode(e.mouvements[..r.mouvementsLus], r.debut, r.fin))
    requires forall f :: f in gs ==> Incomplete(f)
    ensures ContenuExact(e, r)
  {
    hide Lecture, Somme, Periode, RapportDe;
    var fs := Periode(e.confirmees[..r.confirmeesLues], r.debut, r.fin);
    var ms := Periode(e.mouvements[..r.mouvementsLus], r.debut, r.fin);
    forall m | Cumulable(m)
      ensures Lecture(r.contenu, m) == Attendu(fs, ms, m)
    {
      LectureDe(r.contenu, fs + gs, ms, m);
      SommeConcat(fs, gs, Apport(m));
      forall i | 0 <= i < |gs| ensures Apport(m)(gs[i]) == 0 {
        assert Incomplete(gs[i]);
      }
      SommeNulle(gs, Apport(m));
    }
  }

  lemma PeriodeIncomplete(e: Etat, debut: Instant, fin: Instant)
    requires forall i :: 0 <= i < |e.suspens| ==> Incomplete(e.suspens[i].valeur)
    ensures forall f :: f in Periode(e.suspens, debut, fin) ==> Incomplete(f)
  {
    hide Periode, Incomplete;
    forall f | f in Periode(e.suspens, debut, fin) ensures Incomplete(f) {
      PeriodeInclus(e.suspens, debut, fin, f);
    }
  }

  /** A step of a closing before it is written. */
  lemma PasDeCloture(e: Etat, t: Etat, a: Acteur)
    requires Inv(e) && a in t.clotures && t == e.(clotures := e.clotures[a := t.clotures[a]]) && ClotureSaine(e, t.clotures[a])
    ensures Inv(t)
  {
    hide ContenuExact, ClotureSaine, Zs, Enchaines;
    forall k | 0 <= k < |Zs(t.journal)| ensures ContenuExact(t, Zs(t.journal)[k]) { ResteExact(e, t, Zs(t.journal)[k]); }
    forall b | b in t.clotures ensures ClotureSaine(t, t.clotures[b]) { ClotureResteSaine(e, t, t.clotures[b]); }
  }

  lemma LireConserveInv(e: Etat, p: Pas)
    requires Inv(e) && Possible(e, p) && (p.LireConfirmees? || p.LireSuspens? || p.LireMouvements?)
    ensures Inv(Apres(e, p))
  {
    hide ContenuExact, RapportDesLectures, Zs, Enchaines, Periode, Incomplete;
    var t := Apres(e, p);
    assert ClotureSaine(e, e.clotures[p.a]);
    DerniersLus(e);
    PeriodeIncomplete(e, e.clotures[p.a].debut, e.clotures[p.a].fin);
    assert ClotureSaine(e, t.clotures[p.a]);
    PasDeCloture(e, t, p.a);
  }

  lemma CalculerConserveInv(e: Etat, a: Acteur, c: ContenuXZ)
    requires Inv(e) && Possible(e, Calculer(a, c))
    ensures Inv(Apres(e, Calculer(a, c)))
  {
    hide ContenuExact, RapportDe, Zs, Enchaines, Periode, Incomplete;
    var t, o := Apres(e, Calculer(a, c)), e.clotures[a];
    assert ClotureSaine(e, o);
    LuExact(e, t.clotures[a].rapport, o.lectures.suspens.value);
    PasDeCloture(e, t, a);
  }

  lemma DerniersLus(e: Etat)
    requires Inv(e)
    ensures var zs := Zs(e.journal);
            zs != [] ==> zs[|zs| - 1].confirmeesLues <= |e.confirmees| && zs[|zs| - 1].mouvementsLus <= |e.mouvements|
  {
    var zs := Zs(e.journal);
    if zs != [] {
      assert ContenuExact(e, zs[|zs| - 1]);
    }
  }

  /** A closing that is written prolongs the chain. */
  lemma InsertionConserveInv(e: Etat, a: Acteur)
    requires Inv(e) && Possible(e, Inserer(a)) && Inserable(e.journal, e.clotures[a].rapport)
    ensures Inv(Apres(e, Inserer(a)))
    ensures Zs(Apres(e, Inserer(a)).journal) == Zs(e.journal) + [e.clotures[a].rapport]
  {
    hide ContenuExact, Zs, Enchaines, NumeroLibre;
    var t, r, zs := Apres(e, Inserer(a)), e.clotures[a].rapport, Zs(e.journal);
    assert ClotureSaine(e, e.clotures[a]);
    NumeroSuivant(e.journal, r.numero);
    ZsAjout(e.journal, r);
    EnchainesAjout(zs, r);
    forall k | 0 <= k < |zs + [r]| ensures ContenuExact(t, (zs + [r])[k]) {
      ResteExact(e, t, (zs + [r])[k]);
    }
    forall b | b in t.clotures ensures ClotureSaine(t, t.clotures[b]) {
      assert ClotureSaine(e, e.clotures[b]);
      if t.clotures[b].Lue? {
        ResteExact(e, t, t.clotures[b].rapport);
      }
    }
  }

  lemma InsererConserveInv(e: Etat, a: Acteur)
    requires Inv(e) && Possible(e, Inserer(a))
    ensures Inv(Apres(e, Inserer(a)))
  {
    hide ContenuExact, Zs, Enchaines, NumeroLibre;
    if Inserable(e.journal, e.clotures[a].rapport) {
      InsertionConserveInv(e, a);
    } else {
      PasOrdinaire(e, Apres(e, Inserer(a)));
    }
  }

  lemma PasConserveInv(e: Etat, p: Pas)
    requires Inv(e) && Possible(e, p)
    ensures Inv(Apres(e, p))
  {
    hide ContenuExact, RapportDePeriode, RapportDesLectures, Zs;
    var t := Apres(e, p);
    match p
    case Numeroter(a) =>
      DernierDesZ(e.journal);
      PasDeCloture(e, t, a);
    case Ouvrir(a) =>
      assert ClotureSaine(e, e.clotures[a]);
      DernierDesZ(e.journal);
      PasDeCloture(e, t, a);
    case LireConfirmees(_) => LireConserveInv(e, p);
    case LireSuspens(_) => LireConserveInv(e, p);
    case LireMouvements(_) => LireConserveInv(e, p);
    case Calculer(a, c) => CalculerConserveInv(e, a, c);
    case Inserer(a) => InsererConserveInv(e, a);
    case RapportX(periode, c) =>
      if t.journal != e.journal {
        ZsAjout(e.journal, t.journal[|e.journal|]);
      }
      PasOrdinaire(e, t);
    case _ => PasOrdinaire(e, t);
  }

  /** Every run keeps the Z reports numbered, chained and exact, whatever the closings under way. */
  lemma {:induction false} ParcoursConserveInv(e: Etat, ps: seq<Pas>)
    requires Inv(e) && Faisable(e, ps)
    ensures Inv(Parcours(e, ps))
  {
    if ps != [] {
      ParcoursConserveInv(e, ps[..|ps| - 1]);
      PasConserveInv(Parcours(e, ps[..|ps| - 1]), ps[|ps| - 1]);
    }
  }

  /** Without any Z, a period starts at the earliest known date, or now when none is known. */
  lemma DebutLePlusTot(e: Etat)
    requires Dernier(e.journal) == None
    ensures (e.profil.activation.Some? ==> Debut(e) <= e.profil.activation.value) && (e.premiere.Some? ==> Debut(e) <= e.premiere.value)
    ensures e.profil.creation.Some? ==> Debut(e) <= e.profil.creation.value
    ensures Some(Debut(e)) == e.profil.activation || Some(Debut(e)) == e.premiere || Some(Debut(e)) == e.profil.creation ||
            (e.profil.activation == None && e.premiere == None && e.profil.creation == None && Debut(e) == e.horloge)
  {
  }

  /** A chosen period is not empty, does not reach into the future, and covers at most 366 days; no other is refused. */
  lemma PeriodeChoisie(e: Etat, debut: Instant, fin: Instant)
    ensures var b := Bornes(e, Some((debut, fin)));
            && (b.Some? <==> debut < fin && debut < e.horloge && (fin - debut <= 31_622_400_000 || e.horloge - debut <= 31_622_400_000))
            && (b.Some? ==> b.value.0 == debut && b.value.1 <= fin && b.value.1 <= e.horloge && (b.value.1 == fin || b.value.1 == e.horloge))
  {
  }

  // ------------------------------------------------------------------ each invoice in exactly one Z

  /** The confirmed invoice i is counted in the Z k. */
  predicate DansZ(e: Etat, i: nat, k: nat) {
    var zs := Zs(e.journal);
    i < |e.confirmees| && k < |zs| && i < zs[k].confirmeesLues && Dans(e.confirmees[i].instant, zs[k].debut, zs[k].fin)
  }

  /** A Z counts the invoices dated after its start, its last instant included. */
  lemma FinComprise(e: Etat, i: nat, k: nat)
    requires k < |Zs(e.journal)| && i < |e.confirmees| && i < Zs(e.journal)[k].confirmeesLues
    ensures DansZ(e, i, k) <==> Zs(e.journal)[k].debut < e.confirmees[i].instant <= Zs(e.journal)[k].fin
  {
  }

  lemma {:induction false} ChaineCroissante(zs: seq<Rapport>, j: nat, k: nat)
    requires Enchaines(zs) && j <= k < |zs|
    ensures zs[j].debut <= zs[k].debut && zs[j].fin <= zs[k].fin && (j < k ==> zs[j].fin <= zs[k].debut)
    ensures zs[j].confirmeesLues <= zs[k].confirmeesLues && zs[j].mouvementsLus <= zs[k].mouvementsLus
  {
    if j < k {
      ChaineCroissante(zs, j, k - 1);
      assert zs[k - 1 + 1].debut == zs[k - 1].fin;
    }
  }

  /** No invoice is counted twice. */
  lemma AuPlusUnZ(e: Etat, i: nat, k: nat, l: nat)
    requires Inv(e) && DansZ(e, i, k) && DansZ(e, i, l)
    ensures k == l
  {
    if k < l {
      ChaineCroissante(Zs(e.journal), k, l);
    } else if l < k {
      ChaineCroissante(Zs(e.journal), l, k);
    }
  }

  /** The periods of the Z reports leave no gap. */
  lemma {:induction false} Couvrant(zs: seq<Rapport>, n: nat, t: Instant) returns (k: nat)
    requires Enchaines(zs) && n < |zs| && Dans(t, zs[0].debut, zs[n].fin)
    ensures k <= n && Dans(t, zs[k].debut, zs[k].fin)
  {
    if t > zs[n].debut {
      k := n;
    } else {
      assert zs[n - 1 + 1].debut == zs[n - 1].fin;
      k := Couvrant(zs, n - 1, t);
    }
  }

  /** Every Z that was computed before the invoice i was written ends before its confirmation. */
  ghost predicate ATemps(e: Etat, i: nat)
    requires i < |e.confirmees|
  {
    forall k :: 0 <= k < |Zs(e.journal)| && Zs(e.journal)[k].confirmeesLues <= i ==> Zs(e.journal)[k].fin < e.confirmees[i].instant
  }

  /**
   A confirmed invoice is counted in one Z, and only one, exactly when its date lies between the start of the
   first Z and the end of the last, and it was written before any Z that ends at its date or later was computed.
   */
  lemma ExactementUnZ(e: Etat, i: nat)
    requires Inv(e) && i < |e.confirmees|
    ensures var zs, t := Zs(e.journal), e.confirmees[i].instant;
            (exists k: nat :: DansZ(e, i, k)) <==> zs != [] && Dans(t, zs[0].debut, zs[|zs| - 1].fin) && ATemps(e, i)
    ensures forall k: nat, l: nat :: DansZ(e, i, k) && DansZ(e, i, l) ==> k == l
  {
    hide ContenuExact, Zs, ClotureSaine;
    var zs, t := Zs(e.journal), e.confirmees[i].instant;
    forall k: nat | DansZ(e, i, k)
      ensures Dans(t, zs[0].debut, zs[|zs| - 1].fin) && ATemps(e, i)
    {
      ChaineCroissante(zs, 0, k);
      ChaineCroissante(zs, k, |zs| - 1);
      forall l | 0 <= l < |zs| && zs[l].confirmeesLues <= i
        ensures zs[l].fin < t
      {
        if k <= l {
          ChaineCroissante(zs, k, l);
        } else {
          ChaineCroissante(zs, l, k);
        }
      }
    }
    if zs != [] && Dans(t, zs[0].debut, zs[|zs| - 1].fin) && ATemps(e, i) {
      var k := Couvrant(zs, |zs| - 1, t);
      assert DansZ(e, i, k);
    }
    forall k: nat, l: nat | DansZ(e, i, k) && DansZ(e, i, l)
      ensures k == l
    {
      AuPlusUnZ(e, i, k, l);
    }
  }

  // ------------------------------------------------------------------ runs without late writes

  /** The closing has read the confirmed invoices. */
  predicate AConfirmees(c: Cloture) {
    c.Lue? || (c.Ouverte? && c.lectures.confirmees.Some?)
  }

  predicate AMouvements(c: Cloture) {
    c.Lue? || (c.Ouverte? && c.lectures.mouvements.Some?)
  }

  function FinDe(c: Cloture): Instant
    requires !c.Numerotee?
  {
    if c.Lue? then c.rapport.fin else c.fin
  }

  /** Nothing is written with a date that a report, written or not, covers in rows that it has already read. */
  ghost predicate SansRetard(e: Etat, p: Pas) {
    match p
    case Confirmer(_, _, t) =>
      && (forall k :: 0 <= k < |Zs(e.journal)| ==> Zs(e.journal)[k].fin < t)
      && forall a :: a in e.clotures && AConfirmees(e.clotures[a]) ==> FinDe(e.clotures[a]) < t
    case Bouger(_, t) =>
      && (forall k :: 0 <= k < |Zs(e.journal)| ==> Zs(e.journal)[k].fin < t)
      && forall a :: a in e.clotures && AMouvements(e.clotures[a]) ==> FinDe(e.clotures[a]) < t
    case _ => true
  }

  ghost predicate TousSansRetard(e: Etat, ps: seq<Pas>) {
    ps != [] ==> TousSansRetard(e, ps[..|ps| - 1]) && SansRetard(Parcours(e, ps[..|ps| - 1]), ps[|ps| - 1])
  }

  ghost predicate RienApres(e: Etat, r: Rapport) {
    && (forall i :: r.confirmeesLues <= i < |e.confirmees| ==> r.fin < e.confirmees[i].instant)
    && forall i :: r.mouvementsLus <= i < |e.mouvements| ==> r.fin < e.mouvements[i].instant
  }

  ghost predicate RienApresLectures(e: Etat, c: Cloture) {
    match c
    case Numerotee(_) => true
    case Ouverte(_, _, fin, l) =>
      && (l.confirmees.Some? ==> forall i :: l.confirmees.value <= i < |e.confirmees| ==> fin < e.confirmees[i].instant)
      && (l.mouvements.Some? ==> forall i :: l.mouvements.value <= i < |e.mouvements| ==> fin < e.mouvements[i].instant)
    case Lue(r) => RienApres(e, r)
  }

  ghost predicate Ponctuel(e: Etat) {
    && (forall k :: 0 <= k < |Zs(e.journal)| ==> RienApres(e, Zs(e.journal)[k]))
    && forall a :: a in e.clotures ==> RienApresLectures(e, e.clotures[a])
  }

  lemma InsertionPonctuelle(e: Etat, a: Acteur)
    requires Inv(e) && Ponctuel(e) && Possible(e, Inserer(a))
    ensures Ponctuel(Apres(e, Inserer(a)))
  {
    hide ContenuExact, Zs, Enchaines, NumeroLibre;
    var t := Apres(e, Inserer(a));
    if Inserable(e.journal, e.clotures[a].rapport) {
      InsertionConserveInv(e, a);
    }
    assert RienApresLectures(e, e.clotures[a]);
    assert forall r :: RienApres(e, r) ==> RienApres(t, r);
    assert forall c :: RienApresLectures(e, c) ==> RienApresLectures(t, c);
  }

  lemma PasPonctuel(e: Etat, p: Pas)
    requires Inv(e) && Ponctuel(e) && Possible(e, p) && SansRetard(e, p)
    ensures Ponctuel(Apres(e, p))
  {
    hide Inv, RapportDePeriode, RapportDesLectures, Zs, Numero, Debut, Periode;
    match p
    case Inserer(a) => InsertionPonctuelle(e, a);
    case RapportX(_, _) => XMemes(e, p);
    case Confirmer(_, _, _) => EcriturePonctuelle(e, p);
    case Bouger(_, _) => EcriturePonctuelle(e, p);
    case _ =>
  }

  lemma EcriturePonctuelle(e: Etat, p: Pas)
    requires Ponctuel(e) && Possible(e, p) && SansRetard(e, p) && (p.Confirmer? || p.Bouger?)
    ensures Ponctuel(Apres(e, p))
  {
    hide Zs;
  }

  lemma {:induction false} ParcoursPonctuel(e: Etat, ps: seq<Pas>)
    requires Initial(e) && Faisable(e, ps) && TousSansRetard(e, ps)
    ensures Inv(Parcours(e, ps)) && Ponctuel(Parcours(e, ps))
  {
    InitialSain(e);
    if ps != [] {
      ParcoursPonctuel(e, ps[..|ps| - 1]);
      PasConserveInv(Parcours(e, ps[..|ps| - 1]), ps[|ps| - 1]);
      PasPonctuel(Parcours(e, ps[..|ps| - 1]), ps[|ps| - 1]);
    }
  }

  /**
   In every run without late writes, each invoice confirmed between the start of the first Z and the end of the
   last is counted in exactly one Z.
   */
  lemma ChaqueFactureDansUnZ(e: Etat, ps: seq<Pas>, i: nat)
    requires Initial(e) && Faisable(e, ps) && TousSansRetard(e, ps) && i < |Parcours(e, ps).confirmees|
    ensures var t := Parcours(e, ps); var zs := Zs(t.journal);
            (exists k: nat :: DansZ(t, i, k)) <==> zs != [] && Dans(t.confirmees[i].instant, zs[0].debut, zs[|zs| - 1].fin)
    ensures forall k: nat, l: nat :: DansZ(Parcours(e, ps), i, k) && DansZ(Parcours(e, ps), i, l) ==> k == l
  {
    ParcoursPonctuel(e, ps);
    ExactementUnZ(Parcours(e, ps), i);
  }

  // ------------------------------------------------------------------ the Z reports add up

  lemma {:induction false} PeriodeComplete<T>(xs: seq<Datee<T>>, n: nat, debut: Instant, fin: Instant)
    requires n <= |xs| && forall i :: n <= i < |xs| ==> fin < xs[i].instant
    ensures Periode(xs[..n], debut, fin) == Periode(xs, debut, fin)
  {
    if n < |xs| {
      PeriodeComplete(xs[..|xs| - 1], n, debut, fin);
      assert xs[..|xs| - 1][..n] == xs[..n];
    } else {
      assert xs[..n] == xs;
    }
  }

  lemma UneDate<T>(x: Datee<T>, a: Instant, b: Instant, c: Instant, f: T -> int)
    requires a <= b <= c
    ensures DansPeriode(f, a, c)(x) == DansPeriode(f, a, b)(x) + DansPeriode(f, b, c)(x)
  {
    var v := f(x.valeur);
    assert DansPeriode(f, a, c)(x) == if Dans(x.instant, a, c) then v else 0;
    assert DansPeriode(f, a, b)(x) == if Dans(x.instant, a, b) then v else 0;
    assert DansPeriode(f, b, c)(x) == if Dans(x.instant, b, c) then v else 0;
  }

  lemma PeriodesJointes<T>(xs: seq<Datee<T>>, a: Instant, b: Instant, c: Instant, f: T -> int)
    requires a <= b <= c
    ensures Somme(Periode(xs, a, b), f) + Somme(Periode(xs, b, c), f) == Somme(Periode(xs, a, c), f)
  {
    SommePeriode(xs, a, b, f);
    SommePeriode(xs, b, c, f);
    SommePeriode(xs, a, c, f);
    forall i | 0 <= i < |xs|
      ensures DansPeriode(f, a, c)(xs[i]) == DansPeriode(f, a, b)(xs[i]) + DansPeriode(f, b, c)(xs[i])
    {
      UneDate(xs[i], a, b, c, f);
    }
    SommeAjoutee(xs, DansPeriode(f, a, b), DansPeriode(f, b, c), DansPeriode(f, a, c));
  }

  /** All that happened in a period. */
  function AttenduPeriode(e: Etat, debut: Instant, fin: Instant, m: Mesure): int {
    Attendu(Periode(e.confirmees, debut, fin), Periode(e.mouvements, debut, fin), m)
  }

  function LireContenu(m: Mesure): Rapport -> int {
    (r: Rapport) => Lecture(r.contenu, m)
  }

  lemma ZComplet(e: Etat, r: Rapport, m: Mesure)
    requires ContenuExact(e, r) && RienApres(e, r) && Cumulable(m)
    ensures LireContenu(m)(r) == AttenduPeriode(e, r.debut, r.fin, m)
  {
    hide Lecture, Attendu, Periode, Cumulable;
    PeriodeComplete(e.confirmees, r.confirmeesLues, r.debut, r.fin);
    PeriodeComplete(e.mouvements, r.mouvementsLus, r.debut, r.fin);
  }

  lemma {:induction false} SommeDesPremiersZ(e: Etat, n: nat, m: Mesure)
    requires Inv(e) && Ponctuel(e) && Cumulable(m) && 1 <= n <= |Zs(e.journal)|
    ensures var zs := Zs(e.journal); Somme(zs[..n], LireContenu(m)) == AttenduPeriode(e, zs[0].debut, zs[n - 1].fin, m)
  {
    hide Zs, ContenuExact, RienApres, Cumulable, Periode, ClotureSaine, LireContenu, Apport, ApportEspeces;
    var zs := Zs(e.journal);
    var z := zs[n - 1];
    ZComplet(e, z, m);
    SommePrefixe(zs, n - 1, LireContenu(m));
    if n == 1 {
      SommeVide(LireContenu(m));
    } else {
      SommeDesPremiersZ(e, n - 1, m);
      ChaineCroissante(zs, 0, n - 2);
      assert zs[n - 2 + 1].debut == zs[n - 2].fin;
      PeriodesJointes(e.confirmees, zs[0].debut, z.debut, z.fin, Apport(m));
      PeriodesJointes(e.mouvements, zs[0].debut, z.debut, z.fin, ApportEspeces(m));
    }
  }

  /**
   In every run without late writes, the Z reports added up show, amount by amount, what one report over their
   whole span would show.
   */
  lemma SommeDesZ(e: Etat, ps: seq<Pas>, c: ContenuXZ, m: Mesure)
    requires Initial(e) && Faisable(e, ps) && TousSansRetard(e, ps) && Cumulable(m)
    requires Zs(Parcours(e, ps).journal) != []
    requires var t := Parcours(e, ps); var zs := Zs(t.journal); RapportDePeriode(c, t, zs[0].debut, zs[|zs| - 1].fin)
    ensures Somme(Zs(Parcours(e, ps).journal), LireContenu(m)) == Lecture(c, m)
  {
    hide Zs, RapportDe, Cumulable, Periode, ClotureSaine, LireContenu, Incomplete, Faisable, TousSansRetard, Parcours, Initial, Enchaines;
    var t := Parcours(e, ps);
    var zs := Zs(t.journal);
    ParcoursPonctuel(e, ps);
    assert zs[..|zs|] == zs;
    SommeDesPremiersZ(t, |zs|, m);
    assert ContenuExact(t, zs[|zs| - 1]);
    var r := Rapport(Z, 0, zs[0].debut, zs[|zs| - 1].fin, c, |t.confirmees|, |t.mouvements|);
    assert t.confirmees[..|t.confirmees|] == t.confirmees && t.mouvements[..|t.mouvements|] == t.mouvements;
    PeriodeIncomplete(t, r.debut, r.fin);
    assert RapportDePeriode(c, t, r.debut, r.fin);
    LuExact(t, r, Periode(t.suspens, r.debut, r.fin));
  }

  // ------------------------------------------------------------------ an instant may be lost

  /** Closing now, from a state with no closing of this actor under way. */
  function Fermeture(a: Acteur, c: ContenuXZ): seq<Pas> {
    [Numeroter(a), Ouvrir(a), LireConfirmees(a), LireSuspens(a), LireMouvements(a), Calculer(a, c), Inserer(a)]
  }

  function EnFermeture(e: Etat, a: Acteur, c: Cloture): Etat {
    e.(clotures := e.clotures[a := c])
  }

  /** The closing of the period that ends now, after the given reads. */
  function OuverteIci(e: Etat, l: Lectures): Cloture {
    Ouverte(Numero(e), Debut(e), e.horloge, l)
  }

  function ZIci(e: Etat, c: ContenuXZ): Rapport {
    Rapport(Z, Numero(e), Debut(e), e.horloge, c, |e.confirmees|, |e.mouvements|)
  }

  /** The state after n steps of a closing that nothing disturbs. */
  function PendantFermeture(e: Etat, a: Acteur, c: ContenuXZ, n: nat): Etat
    requires n <= 7
  {
    var confirmees, suspens := Some(|e.confirmees|), Some(Periode(e.suspens, Debut(e), e.horloge));
    if n == 0 then e
    else if n == 1 then EnFermeture(e, a, Numerotee(Numero(e)))
    else if n == 2 then EnFermeture(e, a, OuverteIci(e, RIEN_LU))
    else if n == 3 then EnFermeture(e, a, OuverteIci(e, Lectures(confirmees, None, None)))
    else if n == 4 then EnFermeture(e, a, OuverteIci(e, Lectures(confirmees, suspens, None)))
    else if n == 5 then EnFermeture(e, a, OuverteIci(e, Lectures(confirmees, suspens, Some(|e.mouvements|))))
    else if n == 6 then EnFermeture(e, a, Lue(ZIci(e, c)))
    else e.(journal := e.journal + [ZIci(e, c)])
  }

  lemma UnPasDeFermeture(e: Etat, a: Acteur, c: ContenuXZ, n: nat)
    requires Inv(e) && a !in e.clotures && Debut(e) <= e.horloge && RapportDePeriode(c, e, Debut(e), e.horloge) && n < 7
    ensures var t, p := PendantFermeture(e, a, c, n), Fermeture(a, c)[n];
            Possible(t, p) && Apres(t, p) == PendantFermeture(e, a, c, n + 1)
  {
    hide Zs, Enchaines, NumeroLibre, ContenuExact, ClotureSaine, RapportDe, Periode, Dernier;
    var t := PendantFermeture(e, a, c, n);
    assert e.confirmees[..|e.confirmees|] == e.confirmees && e.mouvements[..|e.mouvements|] == e.mouvements;
    assert n > 0 ==> EffaceDerniere(e, a, t.clotures);
    if n == 6 {
      NumeroDuProchain(e);
      NumeroSuivant(e.journal, Numero(e));
      assert t.clotures - {a} == e.clotures;
    }
  }

  /** Setting the closing of a again forgets what it was. */
  predicate EffaceDerniere(e: Etat, a: Acteur, m: map<Acteur, Cloture>) {
    a in m && m == e.clotures[a := m[a]]
  }

  /** What one closing does when nothing else happens meanwhile. */
  lemma UneFermeture(e: Etat, a: Acteur, c: ContenuXZ)
    requires Inv(e) && a !in e.clotures && Debut(e) <= e.horloge && RapportDePeriode(c, e, Debut(e), e.horloge)
    ensures Faisable(e, Fermeture(a, c))
    ensures Parcours(e, Fermeture(a, c)) == e.(journal := e.journal + [ZIci(e, c)])
  {
    hide Fermeture, PendantFermeture, Inv, RapportDePeriode, Debut, ZIci;
    DebutDeFermeture(e, a, c, 7);
    assert Fermeture(a, c)[..7] == Fermeture(a, c) && PendantFermeture(e, a, c, 7) == e.(journal := e.journal + [ZIci(e, c)]) by {
      FinDeFermeture(e, a, c);
    }
  }

  lemma FinDeFermeture(e: Etat, a: Acteur, c: ContenuXZ)
    ensures Fermeture(a, c)[..7] == Fermeture(a, c) && PendantFermeture(e, a, c, 7) == e.(journal := e.journal + [ZIci(e, c)])
    ensures PendantFermeture(e, a, c, 0) == e && |Fermeture(a, c)| == 7
  {
  }

  lemma {:induction false} DebutDeFermeture(e: Etat, a: Acteur, c: ContenuXZ, n: nat)
    requires Inv(e) && a !in e.clotures && Debut(e) <= e.horloge && RapportDePeriode(c, e, Debut(e), e.horloge) && n <= 7
    ensures |Fermeture(a, c)| == 7
    ensures Faisable(e, Fermeture(a, c)[..n]) && Parcours(e, Fermeture(a, c)[..n]) == PendantFermeture(e, a, c, n)
  {
    hide Fermeture, PendantFermeture, Inv, RapportDePeriode, Debut, Possible, Apres, Faisable, Parcours;
    FinDeFermeture(e, a, c);
    if n == 0 {
      ParcoursVide(e);
    } else {
      DebutDeFermeture(e, a, c, n - 1);
      UnPasDeFermeture(e, a, c, n - 1);
      ParcoursAjout(e, Fermeture(a, c)[..n - 1], Fermeture(a, c)[n - 1]);
      assert Fermeture(a, c)[..n] == Fermeture(a, c)[..n - 1] + [Fermeture(a, c)[n - 1]];
    }
  }

  lemma ParcoursVide(e: Etat)
    ensures Parcours(e, []) == e && Faisable(e, [])
  {
  }

  lemma ParcoursAjout(e: Etat, ps: seq<Pas>, p: Pas)
    ensures Parcours(e, ps + [p]) == Apres(Parcours(e, ps), p)
    ensures Faisable(e, ps + [p]) <==> Faisable(e, ps) && Possible(Parcours(e, ps), p)
  {
    hide Apres, Possible;
    assert (ps + [p])[..|ps|] == ps;
  }

  lemma NumeroDuProchain(e: Etat)
    requires Inv(e)
    ensures Numero(e) == |Zs(e.journal)| + 1
  {
    hide Zs, ContenuExact, ClotureSaine;
    DernierDesZ(e.journal);
  }

  lemma PasGrandit(e: Etat, p: Pas)
    requires Possible(e, p)
    ensures Grandit(e, Apres(e, p)) && Zs(e.journal) <= Zs(Apres(e, p).journal)
  {
    hide Zs, RapportDePeriode, Inserable, Bornes, Numero, Debut;
    var t := Apres(e, p);
    if t.journal != e.journal {
      ZsAjout(e.journal, t.journal[|e.journal|]);
    }
  }

  lemma {:induction false} ParcoursGrandit(e: Etat, ps: seq<Pas>)
    requires Faisable(e, ps)
    ensures Grandit(e, Parcours(e, ps)) && Zs(e.journal) <= Zs(Parcours(e, ps).journal)
  {
    hide Zs, Possible, Apres;
    if ps != [] {
      ParcoursGrandit(e, ps[..|ps| - 1]);
      PasGrandit(Parcours(e, ps[..|ps| - 1]), ps[|ps| - 1]);
    }
  }

  /**
   An invoice written after a Z with a date that this Z covers is in no Z, whatever happens next; an invoice
   confirmed at the very instant at which a Z ended is one of them.
   */
  lemma InstantPerdu(e: Etat, k: nat, f: FacturePourRapport, instant: Instant, ps: seq<Pas>, z: nat)
    requires Inv(e) && Possible(e, Confirmer(k, f, instant))
    requires Zs(e.journal) != [] && instant <= Zs(e.journal)[|Zs(e.journal)| - 1].fin
    requires Faisable(Apres(e, Confirmer(k, f, instant)), ps)
    ensures !DansZ(Parcours(Apres(e, Confirmer(k, f, instant)), ps), |e.confirmees|, z)
  {
    hide Zs, ContenuExact, RapportDePeriode, ClotureSaine, Faisable, Parcours;
    var t := Apres(e, Confirmer(k, f, instant));
    var u, i := Parcours(t, ps), |e.confirmees|;
    PasConserveInv(e, Confirmer(k, f, instant));
    ParcoursConserveInv(t, ps);
    ParcoursGrandit(t, ps);
    DerniersLus(e);
    assert t.confirmees[i].instant == instant && u.confirmees[i] == t.confirmees[i];
    var n := |Zs(e.journal)| - 1;
    assert Zs(u.journal)[n] == Zs(e.journal)[n];
    assert !ATemps(u, i);
    ExactementUnZ(u, i);
  }

  /** From any state where an invoice is pending, a Z and then its confirmation in the same instant lose it. */
  lemma MemeInstant(e: Etat, a: Acteur, c: ContenuXZ, k: nat, f: FacturePourRapport, ps: seq<Pas>, z: nat)
    requires Inv(e) && a !in e.clotures && Debut(e) <= e.horloge && RapportDePeriode(c, e, Debut(e), e.horloge)
    requires k < |e.suspens| && f.statut == Confirmed
    requires Faisable(Apres(Parcours(e, Fermeture(a, c)), Confirmer(k, f, e.horloge)), ps)
    ensures Faisable(e, Fermeture(a, c)) && Possible(Parcours(e, Fermeture(a, c)), Confirmer(k, f, e.horloge))
    ensures !DansZ(Parcours(Apres(Parcours(e, Fermeture(a, c)), Confirmer(k, f, e.horloge)), ps), |e.confirmees|, z)
  {
    hide Zs, ContenuExact, RapportDePeriode, ClotureSaine, Enchaines, Fermeture, DansZ;
    UneFermeture(e, a, c);
    var t := Parcours(e, Fermeture(a, c));
    ParcoursConserveInv(e, Fermeture(a, c));
    ZsAjout(e.journal, t.journal[|e.journal|]);
    InstantPerdu(t, k, f, e.horloge, ps, z);
  }

  // ------------------------------------------------------------------ X changes nothing

  lemma {:induction false} DernierSurZ(journal: seq<Rapport>)
    ensures Dernier(journal) == Dernier(Zs(journal))
  {
    if journal != [] {
      var avant, r := journal[..|journal| - 1], journal[|journal| - 1];
      DernierSurZ(avant);
      if r.genre == Z {
        assert Zs(journal)[..|Zs(journal)| - 1] == Zs(avant);
      } else {
        assert Zs(journal) == Zs(avant);
      }
    }
  }

  /** Two states that differ at most by reports other than Z. */
  predicate Memes(e: Etat, t: Etat) {
    t == e.(journal := t.journal) && Zs(e.journal) == Zs(t.journal)
  }

  function SansX(ps: seq<Pas>): seq<Pas> {
    if ps == [] then [] else
      SansX(ps[..|ps| - 1]) + if ps[|ps| - 1].RapportX? then [] else [ps[|ps| - 1]]
  }

  lemma MemesLectures(e: Etat, t: Etat)
    requires Memes(e, t)
    ensures Debut(t) == Debut(e) && Numero(t) == Numero(e)
    ensures forall n :: NumeroLibre(t.journal, n) == NumeroLibre(e.journal, n)
  {
    hide Zs, NumeroLibre;
    DernierSurZ(e.journal);
    DernierSurZ(t.journal);
    forall n ensures NumeroLibre(t.journal, n) == NumeroLibre(e.journal, n) {
      NumeroLibreSsi(e.journal, n);
      NumeroLibreSsi(t.journal, n);
    }
  }

  /** What a report reads does not depend on the journal. */
  lemma LectureSansJournal(c: ContenuXZ, e: Etat, t: Etat, o: Cloture)
    requires t == e.(journal := t.journal) && ToutLu(e, o)
    ensures RapportDesLectures(c, t, o) == RapportDesLectures(c, e, o)
  {
    hide RapportDe, Periode;
  }

  lemma PasMemes(e: Etat, t: Etat, p: Pas)
    requires Memes(e, t) && Possible(e, p) && !p.RapportX?
    ensures Possible(t, p) && Memes(Apres(e, p), Apres(t, p))
  {
    hide Zs, NumeroLibre, RapportDePeriode, RapportDesLectures, Debut, Numero;
    MemesLectures(e, t);
    match p
    case Calculer(a, c) => LectureSansJournal(c, e, t, e.clotures[a]);
    case Inserer(a) =>
      var r := e.clotures[a].rapport;
      ZsAjout(e.journal, r);
      ZsAjout(t.journal, r);
    case _ =>
  }

  lemma XMemes(e: Etat, p: Pas)
    requires p.RapportX?
    ensures Memes(e, Apres(e, p))
  {
    hide Zs, Bornes;
    var t := Apres(e, p);
    if t.journal != e.journal {
      ZsAjout(e.journal, t.journal[|e.journal|]);
    }
  }

  /**
   X reports close nothing: any run without its X reports is a run too, with the same tables, the same closings
   under way and the same Z reports.
   */
  lemma {:induction false} XInvisible(e: Etat, ps: seq<Pas>)
    requires Faisable(e, ps)
    ensures Faisable(e, SansX(ps)) && Memes(Parcours(e, ps), Parcours(e, SansX(ps)))
  {
    hide Possible, Apres, Memes, Zs;
    if ps == [] {
      MemesSoi(e);
    } else {
      var debut, p := ps[..|ps| - 1], ps[|ps| - 1];
      XInvisible(e, debut);
      var s, t := Parcours(e, debut), Parcours(e, SansX(debut));
      if p.RapportX? {
        XMemes(s, p);
        assert SansX(ps) == SansX(debut);
        MemesEnsuite(s, Apres(s, p), t);
      } else {
        PasMemes(s, t, p);
        assert SansX(ps)[..|SansX(ps)| - 1] == SansX(debut);
      }
    }
  }

  lemma MemesSoi(e: Etat)
    ensures Memes(e, e)
  {
  }

  lemma MemesEnsuite(e: Etat, t: Etat, u: Etat)
    requires Memes(e, t) && Memes(e, u)
    ensures Memes(t, u)
  {
  }

  // ------------------------------------------------------------------ from the first invoice on

  /** Not after the creation of any invoice, past or to come. */
  predicate AvantTout(e: Etat, d: Instant) {
    d <= e.horloge && (e.premiere.Some? ==> d <= e.premiere.value)
  }

  /** The period of a closing that may still become the first Z starts before everything. */
  predicate OuvreAvantTout(e: Etat, c: Cloture) {
    match c
    case Numerotee(_) => true
    case Ouverte(_, debut, fin, _) => debut <= fin ==> AvantTout(e, debut)
    case Lue(r) => r.debut <= r.fin ==> AvantTout(e, r.debut)
  }

  ghost predicate DepuisLeDebut(e: Etat) {
    && (e.premiere.None? ==> e.confirmees == [] && e.suspens == [])
    && (e.premiere.Some? ==> AvantTout(e, e.premiere.value))
    && (forall i :: 0 <= i < |e.suspens| ==> e.premiere.Some? && e.premiere.value <= e.suspens[i].instant)
    && (forall i :: 0 <= i < |e.confirmees| ==> e.premiere.Some? && e.premiere.value < e.confirmees[i].instant)
    && (Zs(e.journal) != [] ==> AvantTout(e, Zs(e.journal)[0].debut))
    && (Zs(e.journal) == [] ==> forall a :: a in e.clotures ==> OuvreAvantTout(e, e.clotures[a]))
  }

  /** An invoice is confirmed after its creation. */
  predicate ApresCreation(e: Etat, p: Pas) {
    p.Confirmer? && p.k < |e.suspens| ==> e.suspens[p.k].instant < p.instant
  }

  ghost predicate TousApresCreation(e: Etat, ps: seq<Pas>) {
    ps != [] ==> TousApresCreation(e, ps[..|ps| - 1]) && ApresCreation(Parcours(e, ps[..|ps| - 1]), ps[|ps| - 1])
  }

  /** A company that has neither invoices nor reports. */
  predicate Vierge(e: Etat) {
    Initial(e) && e.premiere == None && e.confirmees == [] && e.suspens == []
  }

  lemma OuvrirAvantTout(e: Etat)
    requires DepuisLeDebut(e) && Zs(e.journal) == [] && Enchaines(Zs(e.journal)) && Debut(e) <= e.horloge
    ensures AvantTout(e, Debut(e))
  {
    DernierDesZ(e.journal);
  }

  lemma InsererDepuisLeDebut(e: Etat, a: Acteur)
    requires Inv(e) && DepuisLeDebut(e) && Possible(e, Inserer(a))
    ensures DepuisLeDebut(Apres(e, Inserer(a)))
  {
    hide ContenuExact, Zs, Enchaines, NumeroLibre;
    var t := Apres(e, Inserer(a));
    if Inserable(e.journal, e.clotures[a].rapport) {
      InsertionConserveInv(e, a);
      assert OuvreAvantTout(e, e.clotures[a]) || Zs(e.journal) != [];
    }
  }

  lemma FacturesDepuisLeDebut(e: Etat, p: Pas)
    requires DepuisLeDebut(e) && Possible(e, p) && ApresCreation(e, p) && (p.Creer? || p.Changer? || p.Confirmer?)
    ensures DepuisLeDebut(Apres(e, p))
  {
    hide Zs, Incomplete;
    var t := Apres(e, p);
    assert forall a :: a in e.clotures && OuvreAvantTout(e, e.clotures[a]) ==> OuvreAvantTout(t, e.clotures[a]);
    match p
    case Creer(_) =>
    case Changer(suspens) => assert suspens != [] ==> 0 <= 0 < |suspens| && suspens[0] in suspens;
    case Confirmer(k, _, instant) => assert e.suspens[k].instant < instant;
  }

  lemma ClotureDepuisLeDebut(e: Etat, p: Pas)
    requires Inv(e) && DepuisLeDebut(e) && Possible(e, p) && !p.Tic? && !p.Creer? && !p.Changer? && !p.Confirmer? && !p.Bouger? && !p.RapportX? && !p.Inserer?
    ensures DepuisLeDebut(Apres(e, p))
  {
    hide ContenuExact, RapportDePeriode, RapportDesLectures, Zs, Enchaines, Debut, ClotureSaine;
    if p.Ouvrir? && Zs(e.journal) == [] && Debut(e) <= e.horloge {
      OuvrirAvantTout(e);
    }
  }

  lemma PasDepuisLeDebut(e: Etat, p: Pas)
    requires Inv(e) && DepuisLeDebut(e) && Possible(e, p) && ApresCreation(e, p)
    ensures DepuisLeDebut(Apres(e, p))
  {
    hide Inv, RapportDePeriode, Zs, Bornes, Numero;
    match p
    case Tic(_) =>
    case Bouger(_, _) =>
    case RapportX(_, _) => XMemes(e, p);
    case Inserer(a) => InsererDepuisLeDebut(e, a);
    case Creer(_) => FacturesDepuisLeDebut(e, p);
    case Changer(_) => FacturesDepuisLeDebut(e, p);
    case Confirmer(_, _, _) => FacturesDepuisLeDebut(e, p);
    case _ => ClotureDepuisLeDebut(e, p);
  }

  lemma {:induction false} ParcoursDepuisLeDebut(e: Etat, ps: seq<Pas>)
    requires Vierge(e) && Faisable(e, ps) && TousApresCreation(e, ps)
    ensures Inv(Parcours(e, ps)) && DepuisLeDebut(Parcours(e, ps))
  {
    InitialSain(e);
    if ps != [] {
      ParcoursDepuisLeDebut(e, ps[..|ps| - 1]);
      PasConserveInv(Parcours(e, ps[..|ps| - 1]), ps[|ps| - 1]);
      PasDepuisLeDebut(Parcours(e, ps[..|ps| - 1]), ps[|ps| - 1]);
    }
  }

  /**
   The Z reports partition the life of a company: in every run from its creation, without late writes, each
   invoice confirmed up to the end of the last Z is counted in exactly one Z.
   */
  lemma ZPartagentLeTemps(e: Etat, ps: seq<Pas>, i: nat)
    requires Vierge(e) && Faisable(e, ps) && TousSansRetard(e, ps) && TousApresCreation(e, ps)
    requires var t := Parcours(e, ps);
             && i < |t.confirmees| && Zs(t.journal) != []
             && t.confirmees[i].instant <= Zs(t.journal)[|Zs(t.journal)| - 1].fin
    ensures exists k: nat :: DansZ(Parcours(e, ps), i, k) && forall l: nat :: DansZ(Parcours(e, ps), i, l) ==> l == k
  {
    hide Zs, DansZ, Faisable, TousSansRetard, TousApresCreation, ContenuExact, ClotureSaine, Enchaines;
    var t := Parcours(e, ps);
    ParcoursDepuisLeDebut(e, ps);
    ChaqueFactureDansUnZ(e, ps, i);
    assert Dans(t.confirmees[i].instant, Zs(t.journal)[0].debut, Zs(t.journal)[|Zs(t.journal)| - 1].fin);
    var k: nat :| DansZ(t, i, k);
  }
}
