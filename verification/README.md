# Verified model of the fiscal invoicing engine

This project models, in Dafny, the logic that produces normalised invoices (factures normalisées) for the
e-MCF server of the Congolese tax authority, and four smaller components of the same back end: the exchange
office, the charges on a card, the sliding-window limiter of logins, and card numbers. `dafny verify
dfyconfig.toml` checks the whole project.

Operations keep the names of the source; lemmas state what the operations promise. Code that updates state step
by step is a class or a method proved against a specification; state machines whose steps belong to several
actors are values with a step relation.

## What is where

| File | Source | Contents |
|---|---|---|
| `Emcf.dfy` | `emcf.client.ts` | the server and the network, as one invoice sees them |
| `Normalisation.dfy` | `normalisation.ts` | one attempt: demand, comparison, confirmation |
| `FactureNormalisee.dfy` | `facture-normalisee.service.ts` | the stored row, every run of attempts |
| `Requete.dfy` | `requete.ts` | comparison of amounts |
| `Calcul.dfy`, `CalculLois.dfy`, `Devises.dfy`, `Decimales.dfy`, `Groupes.dfy` | `calcul.ts`, `groupes.ts` | totals, rounding, currencies, quantities |
| `Validation.dfy`, `Avoirs.dfy` | `validation.ts`, `facture-normalisee.service.ts` | payments, credit notes over every run |
| `Sources.dfy` | `sources.ts` | from a sale to an invoice |
| `MontantEnLettres.dfy`, `LectureMontant.dfy`, `OrthographeMontant.dfy` | `montant-en-lettres.ts` | the printer of amounts in words, a reader that undoes it, and the spelling rules that it keeps |
| `Rapports.dfy`, `RapportsLois.dfy`, `RapportArticles.dfy` | `rapports.ts` | X, Z and A reports |
| `RapportsFiscaux.dfy`, `ServiceRapports.dfy` | `rapports-fiscaux.service.ts` | the journal of reports, closings of periods |
| `Exchange.dfy`, `Cards.dfy`, `CardsService.dfy`, `LoginAttempts.dfy`, `CardNumber.dfy` | `exchange.rules.ts`, `cards.service.ts`, `login-attempts.service.ts`, `card-number.ts` | the other components |
| `Sommes.dfy`, `Dictionnaires.dfy`, `Wrappers.dfy` | | sums, ordered maps, `Option` and `Result` |

## Hypotheses

At most one demand is finalised in every run in which no attempt is sent while a demand of ours is finalised or may
still be (`AuPlusUneSansDoublon`); once one is, the attempts that can finalise another are exactly those that are
sent (`SuiteDoubleSsi`). The code meets that condition under the hypotheses below; everything else (loss of any
request or answer, expiry of demands, a CONFIRM that arrives late, failures of the database, any number of
retries) is left open.

- Attempts on one invoice are sequential: only the retry job claims a row before an attempt.
- A demand gets a new uid, and its number and amounts never change on the server.
- CONFIRM finalises only a demand that is still pending, and answers with success only for a finalised one.
- `RefusDefinitif`: a demand whose only CONFIRM was answered by a definite error (one that is not uncertain) is not
  finalised, and will not be. The code relies on it even for a 200 answer whose body cannot be read
  (`emcf.client.ts:177-198`); `RefusTrompeur` shows that it must.
- `ArretTolere`: when the process stops, or the row cannot be updated, after an attempt that was sent, nothing is at
  risk or the journal holds the confirmation; `ConfirmationPerdue` shows the need.
- `RepriseEcrite`: no attempt is sent when the journal holds a confirmation; `RepriseNonEcrite` shows the need.
- For the agreement of the amounts only, `GardeRecalcul`: no recomputation changes the amounts of a row whose
  confirmation is in the journal. This is exact (`AccordSurExecutionSsi`), holds when recomputed totals are always
  written (`RecalculEcritSuffit`), and fails otherwise (`RecalculPerdu`).

Refunds stay within sales exactly when each credit note fits at the moment it starts to count
(`RemboursementsBornesSsi`). The check made by the code ensures it when credit notes of one sale are issued one at a
time, their lines are stored, and a failed one that is retried still fits (`Ordonnee`); `DeuxEmissions`,
`LignesPerdues` and `RetourDepasse` show that each of the three is needed.

The Z reports need that no row is written with a date that a report covers in rows that it has already read
(`TousSansRetard`), and that an invoice is confirmed after its creation.

## What the proofs found

- `tenter` goes on to send the invoice again when the confirmation it found in the journal cannot be written to
  the row: two demands may be finalised (`RepriseNonEcrite`).
- An invoice whose confirmation reaches neither the journal nor the row (`ConfirmationPerdue`), or whose CONFIRM is
  processed but answered by an error (`RefusTrompeur`), may be finalised twice. In all these cases the exact condition
  is that of `SecondeFinalisation`, which can be checked before the attempt.
- A confirmed row may show totals that are not those of the finalised demand (`RecalculPerdu`; exactly when, in
  `AccordSurExecutionSsi`).
- More than what was sold can be refunded by two credit notes issued at once (`DeuxEmissions`), after one whose lines
  could not be stored (`LignesPerdues`), or by retrying a failed one (`RetourDepasse`). The exact condition is the
  guard of `RemboursementsBornesSsi`, which can be checked before the row is inserted and before the retry.
- An invoice confirmed in the instant at which a Z ends, or dated before it and written after it, is in no Z
  (`MemeInstant`, `InstantPerdu`, and exactly when in `ExactementUnZ`).
- When the DGI leaves a zero amount out of its answer, the comparison accepts it, but CONFIRM then sends something that
  is not a number (`ConfirmationDeNosMontants`: exactly then).
- The payments of a report are less than the sales as soon as a sale is stored without a payment, although such a
  sale is validated as paid in cash (`EncaissementsEtVentes`).
- Freezing a card does not stop a payment under way: its charge may end up approved (`FreezeMayBeOvertaken`).
- The currency round trip fails for some amount at every rate below 1 CDF per USD (`AllerRetourSsi`).
- `docs/FACTURE_NORMALISEE.md:23` says that the tax is rounded up; the code rounds to the nearest cent, halves up.
  The model follows the code.
- `validation.ts:190` says that only confirmed credit notes count as refunded; the caller also counts pending and
  provisional ones. The model follows the code.

## Model

| member | source | states |
|---|---|---|
| `FactureNormalisee.AuPlusUneFinalisee` | linkpay-api/src/facture-normalisee/facture-normalisee.service.ts:269-311 | the code meets that condition: over every run under the stated hypotheses, at most one demand is finalised for the invoice number; if one is, the row is closed, to be checked, or recoverable from the journal; a confirmed row carries that demand's uid |
| `FactureNormalisee.SecondeFinalisation` | linkpay-api/src/facture-normalisee/facture-normalisee.service.ts:272-295 | in every state, an attempt can finalise one more demand of our number if and only if it is sent: the row is neither closed nor to be checked, the profile and the token are usable, and no confirmation is recovered from the journal |
| `FactureNormalisee.SuiteDoubleSsi` | linkpay-api/src/facture-normalisee/facture-normalisee.service.ts:269-311 | once a demand is finalised, a run that sent nothing in vain so far can go on with an attempt that finalises a second demand if and only if that attempt is sent |
| `FactureNormalisee.AuPlusUneSansDoublon` | linkpay-api/src/facture-normalisee/facture-normalisee.service.ts:269-311 | in every run in which no attempt is sent while a demand of ours is finalised or may still be, at most one demand is at risk, whatever else happens |
| `FactureNormalisee.ConfirmeeEtConcordante` | linkpay-api/src/facture-normalisee/facture-normalisee.service.ts:273-276 | in every run whose recomputations meet the guard, a confirmed row designates a demand finalised under our number whose sixteen groups and two totals equal those of the row to the cent |
| `FactureNormalisee.AccordSurExecutionSsi` | linkpay-api/src/facture-normalisee/facture-normalisee.service.ts:273-288 | over every run, the amounts of the demands at risk agree with the row up to a point if and only if every attempt before it that recomputed the totals of a row whose confirmation was in the journal changed none of the compared amounts |
| `FactureNormalisee.RecalculEcritSuffit` | linkpay-api/src/facture-normalisee/facture-normalisee.service.ts:314-330 | when recomputed totals are always written, every attempt meets that guard |
| `FactureNormalisee.ConfirmeePourToujours` | linkpay-api/src/facture-normalisee/facture-normalisee.service.ts:272 | once confirmed or abandoned, a row never changes again and nothing more is sent for it |
| `FactureNormalisee.RepriseSansEnvoi` | linkpay-api/src/facture-normalisee/facture-normalisee.service.ts:282-288 | a confirmation that reached the journal but not the row is recovered by the next attempt, with the uid that was finalised and without sending anything |
| `FactureNormalisee.RepriseNonEcrite` | linkpay-api/src/facture-normalisee/facture-normalisee.service.ts:284-288 | from any start: if the recovered confirmation cannot be written to the row, the attempt goes on and a run finalises two demands of the same number, although every other hypothesis holds |
| `FactureNormalisee.ConfirmationPerdue` | linkpay-api/src/facture-normalisee/facture-normalisee.service.ts:298-309 | from any start: a confirmation that reaches neither the journal nor the row leads to a run that finalises two demands of the same number, although every other hypothesis holds |
| `FactureNormalisee.RefusTrompeur` | linkpay-api/src/facture-normalisee/emcf.client.ts:177-198 | from any start: a CONFIRM that is processed but answered by an error leads to a run that finalises two demands of the same number, although every other hypothesis holds |
| `FactureNormalisee.RecalculPerdu` | linkpay-api/src/facture-normalisee/facture-normalisee.service.ts:314-330 | from any start: when recomputed totals cannot be written before an attempt that is confirmed, a run under every other hypothesis ends with a confirmed row whose totals are not those of the finalised demand |
| `FactureNormalisee.PasConserveInv` | linkpay-api/src/facture-normalisee/facture-normalisee.service.ts:489-537 | each step (time, claim by the retry job, attempt) keeps: at most one demand at risk, none while the row is not sealed, and a confirmed row or journaled confirmation points to a finalised demand of ours; and no attempt is sent while a demand is at risk |
| `FactureNormalisee.SuiteDesIssues` | linkpay-api/src/facture-normalisee/facture-normalisee.service.ts:489-537 | after an attempt that was sent and recorded: the row is confirmed exactly by a confirmed outcome, taken again by the retry job exactly after an unreachable one, never sent again after a doubtful one; the uid is kept to be read again exactly where one may be pending |
| `FactureNormalisee.TotauxSaufEcart` | linkpay-api/src/facture-normalisee/facture-normalisee.service.ts:314-330 | the totals of a row change exactly when it is attempted again after a disagreement, its stored lines give totals and the write succeeds; they become those totals |
| `FactureNormalisee.Facture.Tenter` | linkpay-api/src/facture-normalisee/facture-normalisee.service.ts:269-311 | one attempt: left alone when closed or to be checked, recovered from the journal, or one normalisation on the stored totals and uid followed by the update of the row |
| `FactureNormalisee.Facture.RecalculerSiEcart` | linkpay-api/src/facture-normalisee/facture-normalisee.service.ts:314-330 | after a disagreement the totals become those of the stored lines, unless these are unusable or the write fails |
| `FactureNormalisee.Facture.Prendre` | linkpay-api/src/facture-normalisee/facture-normalisee.service.ts:347-357 | the claim of the retry job: only a provisional row, or a pending one blocked for too long, becomes pending; nothing else changes |
| `FactureNormalisee.Facture.Vivre` | linkpay-api/src/facture-normalisee/facture-normalisee.service.ts:336-366 | whatever is decided outside, the object's history is a run of the state machine, so the lemmas on runs hold for it |
| `FactureNormalisee.Facture.constructor` | linkpay-api/src/facture-normalisee/facture-normalisee.service.ts:214-245 | a new row is pending, without error code nor uid, and its number has nothing finalised or on its way: the start of a run |
| `Normalisation.Normaliser` | linkpay-api/src/facture-normalisee/normalisation.ts:31-97 | the whole attempt, as a conversation: which demand is retained and which outcome is answered follow from the answers alone; at most one demand is sent; CONFIRM only for a demand known under our number whose amounts agree with ours, once or twice with the same uid and amounts; a refusal that bears a uid has a definite error and follows a single CONFIRM; a disagreement is cancelled and never confirmed; what can be finalised afterwards, outcome by outcome |
| `Normalisation.Confirmer` | linkpay-api/src/facture-normalisee/normalisation.ts:73-94 | the outcome is dictated by the answers: a second, identical CONFIRM only after an uncertain error; confirmed with the usable elements of the last answer; refused only when the single CONFIRM met a definite error; to be checked after any second error or unusable elements; only that demand is put at risk, and no usable confirmation is left in the journal by another outcome than confirmed |
| `Normalisation.ObtenirDemande` | linkpay-api/src/facture-normalisee/normalisation.ts:39-64 | the pending demand of an earlier attempt if it can be read again under our number, else a new demand, else, when its answer is lost or says that one is pending, the first pending demand of ours; otherwise refused or unreachable as that answer says; at most one demand and no CONFIRM is sent |
| `Normalisation.RelireDemande` | linkpay-api/src/facture-normalisee/normalisation.ts:100-109 | a demand is taken back only if it bears our number; nothing but the details is read |
| `Normalisation.RetrouverDemandeEnAttente` | linkpay-api/src/facture-normalisee/normalisation.ts:111-123 | the pending demands are read one by one, in their order, up to the first that is ours; no demand and no CONFIRM is sent |
| `Normalisation.TentativeConfirmee` | linkpay-api/src/facture-normalisee/normalisation.ts:66-93 | a harmless beginning followed by CONFIRM composes into one attempt: the uid put at risk is the one whose amounts were compared, and the conversations follow each other |
| `Emcf.EmcfClient.Confirmer` | linkpay-api/src/facture-normalisee/emcf.client.ts:122-124 | what a CONFIRM may answer and leave behind, an error leaving the demand finalised or not, and what it may write in the journal (possibly nothing) |
| `Emcf.DerniereConfirmation` | linkpay-api/src/facture-normalisee/facture-normalisee.service.ts:370-394 | a confirmation is found in the journal if and only if the last CONFIRM answered by a 200 holds both codes; its uid is that of this CONFIRM |
| `Requete.ComparerMontants` | linkpay-api/src/facture-normalisee/requete.ts:122-151 | reports exactly the disagreements, field by field and in order, with both amounts; absent group fields count for zero |
| `Requete.AucunEcartSsiAccord` | linkpay-api/src/facture-normalisee/requete.ts:118-151 | the list is empty if and only if total, base and VAT of all sixteen groups and both invoice totals equal ours to the cent |
| `Requete.EcartSsi` | linkpay-api/src/facture-normalisee/requete.ts:125-149 | a field is reported if and only if it is compared and disagrees |
| `Requete.AccordMontantParMontant` | linkpay-api/src/facture-normalisee/requete.ts:122-151 | agreement, written amount by amount: total, base and VAT of each of our groups, zero for the groups that we do not have, and both totals |
| `Requete.ConfirmationDeNosMontants` | linkpay-api/src/facture-normalisee/requete.ts:153-154 | after an agreement CONFIRM sends back our total and our VAT, in this order, if and only if the DGI sent them; it may only have left out zeros |
| `Requete.CentimesProches` | linkpay-api/src/facture-normalisee/requete.ts:18-23 | an amount in units is read as the nearest cent, halves up |
| `Calcul.CalculerTotaux` | linkpay-api/src/facture-normalisee/calcul.ts:76-127 | answers if and only if there is a line, every line is valid and the total is positive; the answer is the reference totals, whose laws follow |
| `Calcul.ArrondiProche` | linkpay-api/src/facture-normalisee/calcul.ts:61-62 | the rounding is the only integer whose error lies in (-1/2, 1/2]: nearest, halves up |
| `CalculLois.BasePlusTva` | linkpay-api/src/facture-normalisee/calcul.ts:104-123 | base + VAT = total for every group and for the invoice, in both price modes |
| `CalculLois.TotalTtc` | linkpay-api/src/facture-normalisee/calcul.ts:107-114 | with prices including VAT, the total is the sum of the line amounts, of the specific taxes and of their rounded VAT, group N bearing none |
| `CalculLois.GroupesAuTaux` | linkpay-api/src/facture-normalisee/calcul.ts:98-119 | for every group but N, with any specific tax: the VAT is the rate of the base to the rounding of the mode (half a cent in HT mode, half a cent on the prices and half a cent on the specific tax in TTC mode), and the specific taxes raise the base by exactly their amount; in HT mode the base is amounts plus specific taxes; group N has no base |
| `CalculLois.CasConstates` | linkpay-api/src/facture-normalisee/calcul.ts:108-111 | the two cases observed on the server of the authority: 36,540 = 31,500 + 5,040 with specific taxes, and 2,000 = 1,724.14 + 275.86 |
| `CalculLois.MontantsAuCentime` | linkpay-api/src/facture-normalisee/calcul.ts:64-70 | the amount of each line is its price times its quantity in thousandths, to the nearest cent, in the order of the lines |
| `CalculLois.GroupesEnOrdre` | linkpay-api/src/facture-normalisee/calcul.ts:94-119 | an invoice lists exactly the groups of its lines, from A to P, each of them once |
| `CalculLois.OrdreIndifferent` | linkpay-api/src/facture-normalisee/calcul.ts:84-120 | permuting the lines changes no group, total, VAT nor specific tax |
| `CalculLois.FractionnementBorne` | linkpay-api/src/facture-normalisee/calcul.ts:94-120 | splitting an invoice without specific tax into k invoices moves the VAT of a group by at most (k + 1) / 2 cents |
| `CalculLois.HtPuisTtc` | linkpay-api/src/facture-normalisee/calcul.ts:104-119 | billing again in TTC mode the total of an HT group gives the same base, VAT and total, for every rate and amount (group N apart) |
| `CalculLois.TtcPuisHt` | linkpay-api/src/facture-normalisee/calcul.ts:104-119 | TTC then HT keeps the base and moves the VAT by at most one cent for rates up to 100 % |
| `Devises.AllerRetourSsi` | linkpay-api/src/facture-normalisee/calcul.ts:144-154 | USD to CDF and back is the identity for every amount if and only if the rate is at least 1 CDF per USD |
| `Devises.AllerRetour` | linkpay-api/src/facture-normalisee/calcul.ts:144-154 | the round trip on one amount, at any rate of at least 1 CDF per USD |
| `Devises.ConversionAuCentime` | linkpay-api/src/facture-normalisee/calcul.ts:134-147 | dollars give francs to the nearest cent, at the rate as it is written: a whole part and four decimals |
| `Decimales.QuantiteAllerRetour` | linkpay-api/src/facture-normalisee/rapports.ts:189-192 | reading a printed quantity gives it back for every m > 0; a printed zero is refused |
| `Decimales.EnTexteInjectif` | linkpay-api/src/facture-normalisee/rapports.ts:189-192 | two different quantities are never printed alike |
| `Decimales.EnTexteSansZeroInutile` | linkpay-api/src/facture-normalisee/rapports.ts:189-192 | a printed quantity has no useless zero, before its whole part or after its decimals |
| `Decimales.LireBienForme` | linkpay-api/src/facture-normalisee/calcul.ts:52-59 | a text of digits with 1 to 3 decimals is read as its whole part and its padded decimals, and refused only when it is zero |
| `Decimales.LectureExacte` | linkpay-api/src/facture-normalisee/calcul.ts:52-59 | a text is read, or refused as worth nothing, if and only if it is digits, optionally a point or a comma and one to three (or four) digits, between white space; every other text is malformed |
| `Decimales.LectureDeForme` | linkpay-api/src/facture-normalisee/calcul.ts:52-59 | whatever the white space and the separator, such a text is read as its whole part and its padded decimals |
| `Validation.VerifierPaiements` | linkpay-api/src/facture-normalisee/validation.ts:164-174 | exactly the payments that are not positive, those in USD without a rate and a wrong sum are reported; no error if and only if the payments are positive, rated and sum to the total; an invoice without payments is accepted as paid in full |
| `Validation.VerifierAvoir` | linkpay-api/src/facture-normalisee/validation.ts:192-225 | no error if and only if each line names an original line with its price and group and a valid quantity, and no original line is refunded, over all the lines naming it and earlier refunds, beyond the quantity sold; each line is reported for exactly what is wrong with it (article, price, group, quantity), and the excess errors are exactly the original lines exceeded |
| `Validation.ControlerQuantites` | linkpay-api/src/facture-normalisee/validation.ts:215-223 | an original line is reported if and only if earlier refunds plus the requested quantity exceed the quantity sold |
| `Avoirs.RemboursementsBornes` | linkpay-api/src/facture-normalisee/facture-normalisee.service.ts:410-448 | when credit notes of one sale are issued one at a time, earlier ones have their lines stored, and one that comes back fits, the check is enough: over every run the refunded quantity of each original line never exceeds the quantity sold, and every step meets the guard |
| `Avoirs.RemboursementsBornesSsi` | linkpay-api/src/facture-normalisee/facture-normalisee.service.ts:207-262 | over every run, with concurrent emissions, stops between their requests and any status changes, refunds stay within sales up to a point if and only if every step before it that makes a credit note count (row inserted, or status coming back) finds room for its lines on each original line |
| `Avoirs.DeuxEmissions` | linkpay-api/src/facture-normalisee/facture-normalisee.service.ts:426-446 | for any lines that refund more than half of what was sold: two emissions at once both pass the check, and a run refunds more than was sold |
| `Avoirs.LignesPerdues` | linkpay-api/src/facture-normalisee/facture-normalisee.service.ts:257-260 | for any such lines: a credit note whose lines could not be stored is never read by a later check, and a run refunds more than was sold |
| `Avoirs.RetourDepasse` | linkpay-api/src/facture-normalisee/gestion-fiscale.service.ts:444-447 | for any such lines: a failed credit note that is retried with success after another was accepted: a run refunds more than was sold |
| `Avoirs.LuParStatut` | linkpay-api/src/facture-normalisee/facture-normalisee.service.ts:426-440 | earlier refunds are the stored lines of the confirmed, pending and provisional credit notes, and of no other |
| `Avoirs.LignesDOrigine` | linkpay-api/src/facture-normalisee/validation.ts:200-214 | over every run, each line of a credit note names an original line, at its price and in its group |
| `Avoirs.ArgentRembourseBorne` | linkpay-api/src/facture-normalisee/calcul.ts:64-70 | over every run whose steps meet the guard, n credit-note lines on one sold line refund strictly less than its amount plus (n + 1) / 2 cents |
| `Avoirs.TableAvoirs.DejaRembourse` | linkpay-api/src/facture-normalisee/facture-normalisee.service.ts:426-440 | the accumulated map is the refunded quantity, line by line, over the stored lines of the credit notes whose status counts |
| `Avoirs.TableAvoirs.Verifier` | linkpay-api/src/facture-normalisee/facture-normalisee.service.ts:426-446 | the check of a credit note is one step of the runs: accepted exactly when it conforms to what is read at that moment; nothing is stored yet |
| `Avoirs.TableAvoirs.EmettreAvoir` | linkpay-api/src/facture-normalisee/facture-normalisee.service.ts:207-262 | an emission that nobody disturbs is a stretch of a run: checked, refused with its errors or stored as pending, the row staying when its lines cannot be stored |
| `Sources.ArticlesEtPaiements` | linkpay-api/src/facture-normalisee/sources.ts:67-109 | answers if and only if some invoice fits the sale; the answer has valid articles and strictly positive payments, all but the last converted, summing exactly to the total of calculerTotaux; a refusal names the first step that fails |
| `Sources.ArticleFidele` | linkpay-api/src/facture-normalisee/sources.ts:30-91 | the article of a line: price and specific tax converted to the nearest cent, a quantity that reads back, and the group of the product, else of its category, else of the company, else B or K |
| `Sources.MoyensFideles` | linkpay-api/src/facture-normalisee/sources.ts:39-45 | cash, card and mobile money keep their means of payment, every other method is "other" |
| `Sources.PositifsGardes` | linkpay-api/src/facture-normalisee/sources.ts:93-94 | the payments kept are those of a positive amount, each as often as it was made |
| `Sources.SansTvaHorsAssujettis` | linkpay-api/src/facture-normalisee/sources.ts:15-16 | a company outside VAT, without group of its own nor by product, bills no VAT |
| `Sources.VenteAcceptee` | linkpay-api/src/facture-normalisee/validation.ts:164-174 | whatever a sale gives passes the payment check made before sending |
| `Sources.PaiementsDetermines` | linkpay-api/src/facture-normalisee/sources.ts:97-106 | the payments are determined by the sale and the total |
| `Sources.DernierPaiement` | linkpay-api/src/facture-normalisee/sources.ts:92-106 | for a dollar ticket with whole quantities, no specific tax and n payments covering it, the last payment differs from its exact conversion by at most (sum of quantities + n - 1) / 2 cents |
| `LectureMontant.NombreRelu` | linkpay-api/src/facture-normalisee/montant-en-lettres.ts:35-49 | a reader of the words gives back n for every number printed |
| `LectureMontant.MontantRelu` | linkpay-api/src/facture-normalisee/montant-en-lettres.ts:60-71 | a reader of the sentence gives back the amount in cents and the currency |
| `LectureMontant.LibelleInjectif` | linkpay-api/src/facture-normalisee/montant-en-lettres.ts:60-71 | two amounts with the same wording are the same amount in the same currency |
| `LectureMontant.DeApresLesMillions` | linkpay-api/src/facture-normalisee/montant-en-lettres.ts:65-68 | "de" is written if and only if the number is a non-zero multiple of a million |
| `OrthographeMontant.MotsDuTexte` | linkpay-api/src/facture-normalisee/montant-en-lettres.ts:15-49 | on the words of the text and the number only: "cents" stands in it if and only if the billions, the millions or the units are a multiple of a hundred from 200 on, "vingts" if and only if one of them ends in 80, and likewise for "cent", "et", "mille", "million(s)", "milliard(s)" and "zéro" |
| `OrthographeMontant.MilleSansUn` | linkpay-api/src/facture-normalisee/montant-en-lettres.ts:45-46 | for one thousand, "mille" comes first or after the millions or billions: never "un mille" |
| `OrthographeMontant.TraitsDUnion` | linkpay-api/src/facture-normalisee/montant-en-lettres.ts:15-23 | a hyphen between two words below a hundred, a space everywhere else |
| `OrthographeMontant.TraitsDUnionDuMontant` | linkpay-api/src/facture-normalisee/montant-en-lettres.ts:60-71 | the same for a whole amount |
| `OrthographeMontant.MotsDuMontant` | linkpay-api/src/facture-normalisee/montant-en-lettres.ts:63-69 | the currency is plural from two units on, the subdivision from two cents on, and stands only when there are cents; the last word |
| `OrthographeMontant.InitialeCapitale` | linkpay-api/src/facture-normalisee/montant-en-lettres.ts:70 | the first letter is a capital, and the only one |
| `MontantEnLettres.NombreEnLettres` | linkpay-api/src/facture-normalisee/montant-en-lettres.ts:35-49 | refuses exactly the numbers out of range; otherwise gives the wording whose reading and whose spelling rules are proved |
| `MontantEnLettres.EcrireMontant` | linkpay-api/src/facture-normalisee/montant-en-lettres.ts:60-71 | refuses exactly negative and too large amounts; otherwise gives the sentence whose reading and whose spelling rules are proved |
| `Rapports.ContenuRapportXZ` | linkpay-api/src/facture-normalisee/rapports.ts:67-159 | answers if and only if every quantity it needs is readable; every amount read in the answer (by type, by group, means of payment, reductions, credit notes, cash) is the sum of what each invoice or movement brings to it; types, groups, rates, currencies and means of payment are listed exactly once and in order when met |
| `Rapports.ReductionArrondie` | linkpay-api/src/facture-normalisee/rapports.ts:115-117 | the truncated division gives the nearest cent if and only if the price was not raised by more than half a cent in all, or falls exactly half-way |
| `Rapports.ParTypes` | linkpay-api/src/facture-normalisee/rapports.ts:127-136 | all sales, all credit notes and the net are the sums over their types |
| `RapportsLois.RapportAdditif` | linkpay-api/src/facture-normalisee/rapports.ts:67-159 | two reports added amount by amount show what one report over both sets of invoices shows |
| `RapportsLois.RapportSansOrdre` | linkpay-api/src/facture-normalisee/rapports.ts:78-121 | no amount depends on the order in which invoices and movements are read |
| `RapportsLois.RapportEquilibre` | linkpay-api/src/facture-normalisee/rapports.ts:94-104 | when the rows hold the totals of calculerTotaux, base + VAT = total for each type, and the groups of a type add up to it |
| `RapportsLois.EncaissementsEtVentes` | linkpay-api/src/facture-normalisee/rapports.ts:109-112 | the listed payments add up to the sales less the sales stored without a payment, hence equal the sales if and only if there are none |
| `RapportsLois.ReductionsDuRapport` | linkpay-api/src/facture-normalisee/rapports.ts:113-119 | the reductions are what the customers of the confirmed sales saved on the original prices, to half a cent per reduced line, and the reduced lines are counted (a reduced price is never above the original one: `validation.ts:114-117`) |
| `RapportsLois.RapportParStatut` | linkpay-api/src/facture-normalisee/rapports.ts:78-148 | status by status: only confirmed invoices bring amounts; sales are all types but FA and EA, which are the credit notes; provisional and pending, failed and abandoned ones; net, RRR reductions and specific taxes |
| `RapportsLois.CaisseDuRapport` | linkpay-api/src/facture-normalisee/rapports.ts:109-144 | payments come from the confirmed sales and refunds from the confirmed credit notes, by means of payment; deposits less withdrawals are the balance of the cash movements of each currency |
| `RapportArticles.ContenuRapportA` | linkpay-api/src/facture-normalisee/rapports.ts:195-227 | one article per (reference, price, group); read back from the printed report, the quantities and amounts sold and returned of each article, and their totals, are those of the lines; descriptions are those of the first line |
| `RapportArticles.ImprimeFidele` | linkpay-api/src/facture-normalisee/rapports.ts:224-226 | printing an article loses nothing of its quantities and amounts |
| `RapportArticles.FluxParType` | linkpay-api/src/facture-normalisee/rapports.ts:214-221 | returned is what credit notes hold, sold is everything else |
| `RapportArticles.ArticleDUneLigne` | linkpay-api/src/facture-normalisee/rapports.ts:198 | the article of a line shows its price and group, and never mixes two products |
| `RapportsFiscaux.ZPartagentLeTemps` | linkpay-api/src/facture-normalisee/rapports-fiscaux.service.ts:123-175 | in every run from an empty company, with concurrent closings, without late writes and with invoices confirmed after their creation, each invoice confirmed up to the last Z end is counted in exactly one Z |
| `RapportsFiscaux.ExactementUnZ` | linkpay-api/src/facture-normalisee/rapports-fiscaux.service.ts:223-234 | in every reachable state, an invoice is in one Z, and only one, if and only if its date lies in the span of the Z reports and it was written before any Z ending at or after its date was computed |
| `RapportsFiscaux.AuPlusUnZ` | linkpay-api/src/facture-normalisee/rapports-fiscaux.service.ts:231-232 | no invoice is ever counted in two Z reports |
| `RapportsFiscaux.SommeDesZ` | linkpay-api/src/facture-normalisee/rapports-fiscaux.service.ts:223-265 | the Z reports added up show, amount by amount, what one report over their whole span shows |
| `RapportsFiscaux.ParcoursConserveInv` | linkpay-api/src/facture-normalisee/rapports-fiscaux.service.ts:124-129 | in every run the Z reports are numbered from 1 and chained (each starts where the one before ends), and each shows exactly the rows written when it was computed |
| `RapportsFiscaux.NumeroSuivant` | linkpay-api/src/facture-normalisee/rapports-fiscaux.service.ts:193-195 | the unique index lets a closing through if and only if it holds the next number |
| `RapportsFiscaux.DebutLePlusTot` | linkpay-api/src/facture-normalisee/rapports-fiscaux.service.ts:162-175 | before any Z, a period starts at the earliest known date, or now when none is known |
| `RapportsFiscaux.PeriodeChoisie` | linkpay-api/src/facture-normalisee/rapports-fiscaux.service.ts:110-117 | a chosen period is refused exactly when it is empty, future or longer than 366 days; it never reaches into the future |
| `RapportsFiscaux.FinComprise` | linkpay-api/src/facture-normalisee/rapports-fiscaux.service.ts:231-232 | a Z counts the invoices dated after its start, its last instant included |
| `RapportsFiscaux.InstantPerdu` | linkpay-api/src/facture-normalisee/rapports-fiscaux.service.ts:231-232 | an invoice written after a Z with a date that this Z covers is in no Z of any continuation |
| `RapportsFiscaux.MemeInstant` | linkpay-api/src/facture-normalisee/rapports-fiscaux.service.ts:124-129 | from any state with a pending invoice, a closing and then its confirmation in the same instant is possible and loses the invoice for every Z to come |
| `RapportsFiscaux.XInvisible` | linkpay-api/src/facture-normalisee/rapports-fiscaux.service.ts:104-121 | removing the X reports from a run leaves a run with the same tables and the same Z reports |
| `ServiceRapports.RapportsFiscauxService.RapportX` | linkpay-api/src/facture-normalisee/rapports-fiscaux.service.ts:105-121 | X or periodic X: refused exactly for an empty, reversed or too long period or unreadable rows; otherwise one step of the state machine; the Z reports are unchanged |
| `ServiceRapports.RapportsFiscauxService.RapportZ` | linkpay-api/src/facture-normalisee/rapports-fiscaux.service.ts:124-129 | the closing that nobody disturbs composes the steps of the state machine, with the next number, from the end of the last Z to now, and keeps the chain |
| `ServiceRapports.RapportsFiscauxService.DernierZ` | linkpay-api/src/facture-normalisee/rapports-fiscaux.service.ts:145-159 | the Z with the highest number |
| `ServiceRapports.RapportsFiscauxService.DebutDepuisDernier` | linkpay-api/src/facture-normalisee/rapports-fiscaux.service.ts:162-175 | the end of the last Z, else the earliest known date, else now |
| `ServiceRapports.RapportsFiscauxService.CalculXZ` | linkpay-api/src/facture-normalisee/rapports-fiscaux.service.ts:223-266 | the contents are those of a report over exactly the rows of the period |
| `ServiceRapports.ToutLire` | linkpay-api/src/facture-normalisee/rapports-fiscaux.service.ts:345-353 | reading by pages of a thousand rows gives the whole table |
| `Exchange.NoArbitrageIff` | linkpay-api/src/exchange/exchange.rules.ts:47-55 | no finite sequence of exchanges, in any directions and amounts and even overdrawn, enriches a wallet if and only if buy <= sell; otherwise a wallet that can pay each order is enriched |
| `Exchange.ValueNeverIncreases` | linkpay-api/src/exchange/exchange.rules.ts:47-55 | for every rate m between buy and sell, 100 cdf + m usd never increases over a sequence of exchanges |
| `Exchange.GainAccounting` | linkpay-api/src/exchange/exchange.rules.ts:47-55 | over n exchanges at a fixed market rate, each gain is non-negative and the client's loss lies between 100 times the total gain and that plus 99 n |
| `Exchange.FloorDivIsFloor` | linkpay-api/src/exchange/exchange.rules.ts:28-31 | the corrected truncating division is the floor, for both signs |
| `Exchange.AmountsRoundedDown` | linkpay-api/src/exchange/exchange.rules.ts:47-55 | dollars give whole francs, less than one franc below their value at the buying rate; francs give cents, less than one cent below their value at the selling rate |
| `Exchange.RateToNearestHundredth` | linkpay-api/src/exchange/exchange.rules.ts:32 | a typed rate is taken to the nearest hundredth, halves up |
| `Exchange.GuardReachesHundredths` | linkpay-api/src/exchange/exchange.service.ts:344-350 | the guard buy <= sell on the rates as typed holds for the rates in hundredths |
| `Cards.PaymentIsExclusive` | linkpay-api/src/cards/cards.service.ts:645-670 | in every interleaving of approvals, refusals, cancellations and reconciliations, at most one approver is between claim and completion, a pending charge has none, at most one payment succeeds, and an approved charge was paid or its request was seen paid |
| `Cards.RefusalIsFinal` | linkpay-api/src/cards/cards.service.ts:597-607 | a refusal by the holder or a cancellation by the seller that takes effect is never undone by any continuation |
| `Cards.ClosedCanBeApprovedIff` | linkpay-api/src/cards/cards.service.ts:242-249 | a closed charge can still end up approved if and only if an approver is between its claim and its completion |
| `Cards.FreezeMayBeOvertaken` | linkpay-api/src/cards/cards.service.ts:242-249 | a run in which freezing the card cancels a charge under payment, which nevertheless ends up approved |
| `Cards.PaidRequestStays` | linkpay-api/src/cards/cards.service.ts:564-581 | no operation takes back a request that was paid, nor moves the deadline or the clock backwards |
| `CardsService.ChargeService.Approve` | linkpay-api/src/cards/cards.service.ts:645-670 | with any steps of the others in between, the caller's own steps are exactly those of its outcome: nothing is paid without a claim that was won, a refused payment gives the charge back; an approval leaves the charge approved and paid once; a charge is claimed, and so paid, only if the deadline had not passed and the card is usable |
| `CardsService.ChargeService.ReconcileCharge` | linkpay-api/src/cards/cards.service.ts:564-581 | the charge is settled exactly if it is open and its request is paid; closed exactly if it was found pending after its deadline, or processing more than ten minutes after it, and its request is not paid; left alone otherwise; in exactly the steps of that case; the row may have changed since it was read |
| `CardsService.ChargeService.DeclineCharge` | linkpay-api/src/cards/cards.service.ts:672-680 | refuses if and only if the charge is pending; the charge is then declined whatever the others do meanwhile |
| `CardsService.ChargeService.CancelCharge` | linkpay-api/src/cards/cards.service.ts:597-607 | cancels if and only if the charge is pending when the update meets it; it then stays cancelled whatever the others do; otherwise it is reconciled as it was found |
| `CardsService.ChargeService.FreezeCharge` | linkpay-api/src/cards/cards.service.ts:242-249 | cancels if and only if the charge is open; a charge that was pending stays cancelled, one under payment may only become approved |
| `CardsService.ChargeService.Others` | linkpay-api/src/cards/cards.service.ts:652-667 | what an operation may find between two of its updates: its own position is untouched, a settled charge does not move, a closed one can only become approved; the clock does not go back and the deadline stays |
| `LoginAttempts.LoginAttemptsService.Reserve` | linkpay-api/src/auth/login-attempts.service.ts:109-124 | the answer and the new table of a reservation: refused while locked, else counted, locking at the fifth live failure; other accounts keep their entries, up to pruning |
| `LoginAttempts.AtMostFivePerWindow` | linkpay-api/src/auth/login-attempts.service.ts:109-124 | for any run with a clock that never goes back and no release, every half-open window of LOGIN_WINDOW_MS holds at most MAX_FAILED_LOGINS admitted attempts of an account since its last success |
| `LoginAttempts.RefusedExactlyAfterFive` | linkpay-api/src/auth/login-attempts.service.ts:109-124 | over any such run an attempt is refused if and only if the last five admitted ones fit in one window and the lock since the last of them has not ended, until exactly that end; the lock is announced exactly by the fifth |
| `LoginAttempts.ReleaseUndoesReserve` | linkpay-api/src/auth/login-attempts.service.ts:127-131 | an admitted attempt that did not lock, once given back, changes no later answer to any account |
| `LoginAttempts.PruneInvisible` | linkpay-api/src/auth/login-attempts.service.ts:193-197 | prune changes no later answer, for any account and any continuation |
| `LoginAttempts.PruneKeepsFutures` | linkpay-api/src/auth/login-attempts.service.ts:193-197 | with or without pruning along the run, every account has the same future |
| `CardNumber.LuhnCheckDigit` | linkpay-api/src/cards/card-number.ts:11-22 | the digit that brings the weighted sum of the whole number to a multiple of ten |
| `CardNumber.ValidIffStandardSum` | linkpay-api/src/cards/card-number.ts:11-26 | a number is valid if and only if it has sixteen digits whose sum, every second one doubled from the right and its own digits added, is a multiple of ten |
| `CardNumber.SingleErrorDetected` | linkpay-api/src/cards/card-number.ts:11-22 | changing one digit of the body always changes the check digit, for every length |
| `CardNumber.TranspositionDetected` | linkpay-api/src/cards/card-number.ts:11-22 | swapping two adjacent different digits keeps the check digit if and only if they are 0 and 9 |
| `CardNumber.MistypedNumberRefused` | linkpay-api/src/cards/card-number.ts:24-26 | a valid number with any one digit changed, the check digit included, is refused |
| `CardNumber.GenerateCardNumber` | linkpay-api/src/cards/card-number.ts:29-34 | every generated number is valid |

## Left out

- `reprendre`: its loop over several rows, which stops at the first unreachable answer, is reduced to the claim of one row followed by an attempt.
- Cards.PaymentIsExclusive: each conditional update of the database is one atomic step of a state machine over values; the wallet payment is opaque, and either succeeds or fails. Creating charges, and several charges of one card, are omitted.
- RapportsFiscaux.ZPartagentLeTemps: incomplete sales (provisional, pending, failed) are shown by each report but not added over reports, because an invoice leaves that state; their sums are not claimed.
- RapportArticles.ContenuRapportA: articles are listed in the order of their first lines; the final sort by name follows a locale and is not modelled.
- Rapports.ContenuRapportXZ: among equal amounts, the order of the means of payment is not specified; labels of types are omitted.
- ServiceRapports.ToutLire: pages are cut from one fixed answer; the database may order rows of equal dates differently from page to page.
- ServiceRapports.RapportsFiscauxService.CalculXZ: the sequential call reads the three tables in one state; a closing that reads them at different moments is covered by the state machine of `RapportsFiscaux`. X reports are read in one state in both.
- ServiceRapports.RapportsFiscauxService.RapportZ: the sequential call; interleaved closings are covered by the state machine of `RapportsFiscaux`. Rights of the caller, headers and unparsable dates are omitted.
- LoginAttempts.LoginAttemptsService.Reserve: the branch that counts in the database, the normalisation of account names and `recordFailure` are omitted; the in-memory branch is modelled.
- Validation.VerifierPaiements: means of payment are an enumeration, so that the refusal of an unknown means is not modelled.
- Avoirs.TableAvoirs.Verifier: the rows and the lines of earlier credit notes are read in one state; the exact condition does not depend on what was read.
- Requete.ConfirmationDeNosMontants: amounts sent as texts with a decimal comma, which the comparison reads and CONFIRM does not, are not modelled.
- Decimales.LireBienForme: white space is the ASCII part of what `trim` removes; numbers given as JavaScript numbers instead of texts are omitted.
- Sources.DernierPaiement: quantities are whole, as the bound needs; other tickets are covered by `ArticlesEtPaiements` only.
- Emcf.EmcfClient.Confirmer: HTTP, JSON, timeouts and the token are replaced by the outcomes that the rules allow; errors that are not of the e-MCF client are omitted.
- Exchange rates with their time limits, daily and monthly limits, and the database function that moves the money.
- The field checks of `validerFacture` (customer, names, codes, comments), credit notes by commercial reduction (RRR), and the text of the request sent.
- The report A in the journal of reports: its chain of periods is that of the Z reports, with another number series.
- Amounts are mathematical integers, prices and rates exact numbers: the limits of floating point beyond 2^53 are not modelled.
- French error messages, audit, notifications, QR codes, printing, PINs and access rights.
