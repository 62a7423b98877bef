# Rescisão calculator — a verified model

This project models the settlement ("rescisão") engine of the Angular
component `App` in `src/app/app.ts`: the termination-settlement calculator of
Brazilian labour law. From one input record (salary, admission and
termination dates, termination type, whether and how notice is given, vested
vacation days and the prior FGTS balance) the component

- computes the time worked as whole months and a day remainder, by calendar
  subtraction with a borrow from the month before the termination month;
- computes the receivable amounts (balance of salary, proportional 13th
  salary, expired and proportional vacation, their one-third bonuses, notice
  pay), the FGTS amounts (8% of the receivables, the prior balance and the
  termination penalty) and the withholdings (INSS on the receivables, IRRF on
  the receivables less INSS, by the 2024 tables);
- appends each positive amount, under a fixed description, to one of three
  lists, accumulates their totals, and stores the totals, the net amount and
  the "computed" flag on the component.

Layout, one module per file:

- `calendar.dfy` (`Calendar`): dates, the Gregorian month lengths, the
  JavaScript `new Date(y, m, 0).getDate()` month length, and the time worked.
- `verbas.dfy` (`Verbas`): the line-item formulas, with money as exact `real`.
- `tabelas.dfy` (`Tabelas`): the INSS and IRRF tables. Each cascaded `if`
  chain is proved equal to a generic evaluation of the table given as data.
  Over that evaluation INSS is proved nondecreasing and continuous.
- `rescisao.dfy` (`Rescisao`): what one computation yields, as functions of the
  record. Each list is the filter of its candidate items to those with a
  positive amount, and each total is the sum of the positive parts.
- `app.dfy` (`Componente`): the class `App` with the component's fields. Its
  methods update the lists and totals in place. `CalcularRescisao` is proved
  to leave exactly the lists the `Rescisao` functions describe, with
  consistent totals.

Quirks of the code that the model keeps:

- The FGTS penalty is listed as "Multa FGTS 40%" even at the 20% rate of a
  mutual agreement (`Rescisao.MultaAcordoRotulada40`).
- The penalty is computed on the prior FGTS balance alone.
- `calcularAvisoPrevio` reads the notice kind from the record, not from its
  arguments.
- With notice and a blank notice kind, as in the empty form, the notice is
  paid the indemnified amount, because the amount tests for "trabalhado",
  yet it is listed as "Aviso Prévio Trabalhado", because the label tests for
  "indenizado" (`Rescisao.AvisoEmBrancoRotuladoTrabalhado`).
- The day remainder of the time worked can stay negative
  (`Calendar.DiasPodemSerNegativos`).
- With a date that does not parse, the computation stops after clearing the
  results and leaves the "computed" flag as it was.
- The month-length constructor reads the years 0 to 99 as 1900 to 1999. So
  29 February of year 0 gives a balance of salary above the monthly salary
  (`Verbas.SaldoSalarioAnoZero`).
- IRRF is never negative (`Tabelas.Irrf` ensures `r >= 0.0`): the first
  taxed bracket gives exactly 0 at 2259.20 (0.075 · 2259.20 = 169.44), and
  every later bracket starts above 0.
- IRRF is not monotone: the rounded deductions make it drop just above
  2826.65 (`Tabelas.IrrfNaoMonotona`).

## Model

| member | source | states |
|---|---|---|
| Calendar.DayZero | src/app/app.ts:176 | day 0 of a month index is the length of the month before it: 31 for index 0 (December of the year before), the Gregorian length otherwise, for years other than 0 |
| Calendar.TempoTrabalho | src/app/app.ts:169-187 | months = 12·(year difference) + month difference − 1 exactly when the termination day is before the admission day; days = day difference plus the length of the month before the termination month in that case; days lie in [−2, 30], are negative only after a borrow, and months are ≥ 0 when admission is not after termination |
| Calendar.DiasPodemSerNegativos | src/app/app.ts:172-178 | there are valid dates, admission not after termination, whose day remainder is negative (31 Jan → 1 Mar 2023 gives −2) |
| Calendar.TempoTrabalhoAnoBissexto | src/app/app.ts:174-178 | the borrow takes the length of February of a leap year: 10 Jan 2023 → 5 Mar 2024 is 13 months and 24 days |
| Verbas.SaldoSalario | src/app/app.ts:189-193 | the balance times the month length is the salary times the termination day; it is the full salary on the last day of the month and lies in [0, salary] for a nonnegative salary outside year 0 |
| Verbas.ProRata | src/app/app.ts:192 | a daily rate times a day count, times the month length, is the salary times the days; within the month it lies between 0 and the salary |
| Verbas.SaldoSalarioAnoZero | src/app/app.ts:190 | on 29 February of year 0 the balance exceeds the salary, because the month length is taken from 1900 |
| Verbas.DecimoTerceiro | src/app/app.ts:195-198 | twelve times the amount is the salary times the complete months; twelve complete months give the full salary; nonnegative for nonnegative inputs |
| Verbas.ArredondaMeioMes | src/app/app.ts:196 | a day remainder of 15 or more pays one more full month, and less than 15 pays nothing, each as an if-and-only-if |
| Verbas.FeriasVencidas | src/app/app.ts:200-202 | thirty times the amount is the salary times the vested days; 30 days give the full salary; nonnegative for nonnegative inputs |
| Verbas.FeriasProporcionais | src/app/app.ts:204-207 | always equal to the proportional 13th salary |
| Verbas.AvisoPrevio | src/app/app.ts:209-221 | zero for any type other than without cause or mutual agreement; the salary for worked notice; otherwise the salary plus a tenth of it per month worked up to 20, so between one and three salaries, and three salaries from 20 months on |
| Verbas.AvisoIndenizado | src/app/app.ts:216-218 | 30 days plus 3 per month capped at 60, at a thirtieth of the salary per day, is one salary plus a tenth per month capped at 20, in [salary, 3·salary] |
| Verbas.MultaFgts | src/app/app.ts:223-230 | 40% of the balance without cause, 20% by mutual agreement, 0 otherwise; in [0, 40%] of a nonnegative balance |
| Tabelas.Inss | src/app/app.ts:243-256 | 7.5% of the base up to 1412.00, the ceiling 908.8618 from 7786.02 on, never above the ceiling, and in [0, 14% of the base] for a nonnegative base |
| Tabelas.ProgressivaLipschitz | src/app/app.ts:245-255 | a marginal-rate table with increasing bounds and rates in [0, t] grows by between 0 and t per unit of base |
| Tabelas.InssPorFaixas | src/app/app.ts:243-256 | the cascaded chain is the marginal-rate evaluation of the brackets 1412.00/7.5%, 2666.68/9%, 4000.03/12%, 7786.02/14% |
| Tabelas.InssMonotonaContinua | src/app/app.ts:243-256 | INSS is nondecreasing and grows by at most 14% of any increase of the base, so it is continuous at every bracket edge |
| Tabelas.Irrf | src/app/app.ts:258-271 | zero up to 2259.20, never negative, and at most 27.5% of a nonnegative base |
| Tabelas.IrrfPorFaixas | src/app/app.ts:258-271 | the cascaded chain is the rate-minus-deduction evaluation of the 2024 brackets, with 27.5% − 896.00 above 4664.68 |
| Tabelas.IrrfNaoMonotona | src/app/app.ts:262-265 | there are bases a < b with IRRF(a) > IRRF(b) |
| Rescisao.TextosDistintos | src/app/app.ts:76-157 | the thirteen item descriptions are pairwise distinct texts |
| Rescisao.Lancar | src/app/app.ts:75-78 | one append step: the list gains the item exactly when its amount is positive, and the running total grows by the amount's positive part |
| Rescisao.FiltrarPertence | src/app/app.ts:75-121 | an item is listed if and only if it is a candidate with a positive amount |
| Rescisao.SomaFiltrar | src/app/app.ts:67-121 | every listed amount is positive and the listed amounts sum to the positive parts of all candidate amounts |
| Rescisao.SomaReceber | src/app/app.ts:71-121 | the receivables are positive and total the positive parts of the five amounts and the two one-thirds, plus the notice only when the form says there is notice |
| Rescisao.FiltrarReceber | src/app/app.ts:71-121 | the receivables are, in order, each candidate kept when positive: balance, 13th, expired vacation, proportional vacation, their thirds, then the notice under its kind's label when there is notice |
| Rescisao.RotulosReceber | src/app/app.ts:71-121 | an item (label, v) is a receivable if and only if v is the amount belonging to that label and is positive: each third is its vacation amount / 3, the notice sits under "indemnified" only for that kind and only when there is notice |
| Rescisao.AvisoListadoTrabalhado | src/app/app.ts:116-121 | with notice and any kind other than "indenizado", a positive notice amount is listed under the worked-notice label |
| Rescisao.AvisoEmBrancoRotuladoTrabalhado | src/app/app.ts:115-121 | with notice, a blank kind, a notice-paying termination type, a positive salary and admission not after termination, the receivables list the indemnified notice amount under the worked-notice label; from 20 months on it is three salaries |
| Rescisao.RotulosFgts | src/app/app.ts:123-143 | an item (label, v) is an FGTS item if and only if v is positive and is 8% of the receivable total, the prior balance, or the penalty on the prior balance, by label |
| Rescisao.SomaFgts | src/app/app.ts:123-143 | the FGTS items are positive and total the positive parts of 8% of the receivables, the prior balance and the penalty |
| Rescisao.MultaAcordoRotulada40 | src/app/app.ts:139-142 | a mutual agreement's 20% penalty is listed under the text "Multa FGTS 40%" |
| Rescisao.ItensDescontos | src/app/app.ts:145-159 | the withholdings are positive and total the positive parts of INSS on the receivables and IRRF on the receivables less INSS |
| Rescisao.SomaDescontos | src/app/app.ts:145-159 | for nonnegative receivables the withholdings total exactly INSS plus IRRF on the total less INSS, and never exceed the receivables |
| Rescisao.LiquidoNaoNegativo | src/app/app.ts:161-165 | the net amount, receivables less withholdings, is never negative and does not depend on the FGTS balance |
| Componente.App.constructor | src/app/app.ts:28-47 | the form starts empty, every list empty, every total zero, not computed |
| Componente.App.CalcularRescisao | src/app/app.ts:49-167 | the record is unchanged; with an unparsable date every list is empty and every total zero, and the flag keeps its value; otherwise the lists are the record's receivables, FGTS items and withholdings, and the flag is set; in both cases every total is its list's sum, the net is receivables less withholdings, and every listed amount is positive |
| Componente.App.CalcularParcelas | src/app/app.ts:62-116 | the five receivable amounts are the formulas applied to the record and its time worked |
| Componente.App.LancarValoresReceber | src/app/app.ts:71-121 | the receivables list becomes the positive candidates in order, and the returned total is its sum |
| Componente.App.LancarValoresFgts | src/app/app.ts:123-143 | the FGTS list becomes the positive FGTS candidates for the receivable total, and the returned total is its sum |
| Componente.App.LancarValoresDescontos | src/app/app.ts:145-159 | the withholdings list becomes the positive INSS and IRRF amounts for the receivable total, and the returned total is its sum |
| Componente.App.CalcularAvisoPrevio | src/app/app.ts:209-221 | the notice pay by the kind stored in the record: zero without the right to notice, the salary for worked notice, the capped indemnified amount otherwise |
| Componente.App.LimparResultados | src/app/app.ts:232-241 | every list is empty and every total zero; the record and the flag are unchanged |
| Componente.App.LimparCalculos | src/app/app.ts:273-286 | the record is the empty form, every list is empty, every total zero, and the flag is false |

## Left out

- Parsing of the date strings and the `isNaN(getTime())` test: a parse is a `Date` triple, and a successful parse is `ValidDate`. The day rollover of lenient parsing and the time-zone shift between UTC parsing and local-time reading are not modelled.
- Floating-point rounding: money is exact `real`, so the model states the decimal formulas, not IEEE-754 double results.
- The Angular decorator, imports, template and form bindings: user-interface code.
- The `resultado` field is only cleared, as the component never fills it.
- Salary periods, their validation, day-weighted salary averages and per-period FGTS accrual: no such code exists in the component.
- The descriptions are the enumeration `Descricao`, whose `Texto` gives the exact strings of the code; `Rescisao.TextosDistintos` shows that no two share a text.
- Componente.App.CalcularRescisao: computes the five receivable amounts (`CalcularParcelas`) before it appends any of them, where the code interleaves computing and appending. The formulas are pure, so the lists and totals are the same.
- Componente.App.CalcularRescisao: the three append sections are separate methods (`LancarValoresReceber`, `LancarValoresFgts`, `LancarValoresDescontos`) called in the code's order.
- Componente.App.CalcularParcelas: computes the time worked itself instead of receiving it from `CalcularRescisao`.
