/** The line-item formulas of the settlement: balance of salary, 13th
    salary, expired and proportional vacation, notice pay and the FGTS
    penalty. Money is exact `real` arithmetic. */
module Verbas {
  import opened Calendar

  /** The two termination types that give notice pay and an FGTS penalty. */
  const SemJustaCausa := "demissao-sem-justa-causa"
  const AcordoMutuo := "acordo-mutuo"

  /** The notice kind that is paid as one plain month. */
  const Trabalhado := "trabalhado"

  predicate TemDireitoAviso(tipoRescisao: string) {
    tipoRescisao == SemJustaCausa || tipoRescisao == AcordoMutuo
  }

  function Min(a: int, b: int): int {
    if a <= b then a else b
  }

  /** calcularSaldoSalario: the salary pro rata for the days of the
      termination month up to and including the termination day. The month
      length is the JavaScript `Date` constructor's (`DayZero`), which reads
      the years 0 to 99 as 1900 to 1999. */
  function SaldoSalario(salario: real, demissao: Date): (r: real)
    requires ValidDate(demissao)
    ensures r * DayZero(demissao.year, demissao.month) as real == salario * demissao.day as real
    ensures demissao.day == DayZero(demissao.year, demissao.month) ==> r == salario
    ensures demissao.year != 0 && salario >= 0.0 ==> 0.0 <= r <= salario
  {
    var diasMes := DayZero(demissao.year, demissao.month);
    var diasTrabalhados := demissao.day;
    ProRata(salario, diasTrabalhados, diasMes);
    (salario / diasMes as real) * diasTrabalhados as real
  }

  /** The pro rata share of `dias` out of `diasMes` days: multiplied back by
      the month length it gives the salary times the days, and for a day
      count within the month it lies between zero and the salary. */
  lemma ProRata(salario: real, dias: int, diasMes: int)
    requires diasMes > 0
    ensures (salario / diasMes as real) * dias as real * diasMes as real == salario * dias as real
    ensures dias == diasMes ==> (salario / diasMes as real) * dias as real == salario
    ensures salario >= 0.0 && 0 <= dias <= diasMes ==>
      0.0 <= (salario / diasMes as real) * dias as real <= salario
  {
    var diaria := salario / diasMes as real;
    assert diaria * diasMes as real == salario;
    assert diaria * dias as real * diasMes as real == diaria * diasMes as real * dias as real;
    if salario >= 0.0 && 0 <= dias <= diasMes {
      Proporcao(diaria, dias, diasMes);
      assert 0.0 <= diaria * dias as real <= diaria * diasMes as real;
    }
  }

  /** 29 February of year 0 is a valid proleptic Gregorian date, but the
      JavaScript constructor measures February of 1900, a common year, so
      the balance of salary exceeds the monthly salary. */
  lemma SaldoSalarioAnoZero()
    ensures exists salario: real, d: Date ::
      ValidDate(d) && salario > 0.0 && SaldoSalario(salario, d) > salario
  {
    var d := Date(0, 2, 29);
    assert DayZero(0, 2) == 28;
    assert SaldoSalario(28.0, d) * 28.0 == 28.0 * 29.0;
  }

  /** Whole months, with a remainder of 15 days or more counted as one more. */
  function MesesCompletos(meses: int, dias: int): (n: int)
    ensures meses <= n <= meses + 1
  {
    meses + (if dias >= 15 then 1 else 0)
  }

  /** calcularDecimoTerceiro: one twelfth of the salary per complete month. */
  function DecimoTerceiro(salario: real, meses: int, dias: int): (r: real)
    ensures r * 12.0 == salario * MesesCompletos(meses, dias) as real
    ensures MesesCompletos(meses, dias) == 12 ==> r == salario
    ensures salario >= 0.0 && meses >= 0 ==> r >= 0.0
  {
    (salario / 12.0) * MesesCompletos(meses, dias) as real
  }

  /** Half a month or more of remaining days is paid as a full month, and
      less than half a month is not paid at all. */
  lemma {:induction false} ArredondaMeioMes(salario: real, meses: int, dias: int)
    requires salario != 0.0
    ensures DecimoTerceiro(salario, meses, dias) == DecimoTerceiro(salario, meses + 1, 0) <==> dias >= 15
    ensures DecimoTerceiro(salario, meses, dias) == DecimoTerceiro(salario, meses, 0) <==> dias < 15
  {
    var um := salario / 12.0;
    assert um != 0.0;
    if dias >= 15 {
      assert DecimoTerceiro(salario, meses, dias) == um * (meses + 1) as real;
      assert DecimoTerceiro(salario, meses, 0) == um * meses as real;
    } else {
      assert DecimoTerceiro(salario, meses, dias) == um * meses as real;
      assert DecimoTerceiro(salario, meses + 1, 0) == um * (meses + 1) as real;
    }
  }

  /** calcularFeriasVencidas: one thirtieth of the salary per vested day. */
  function FeriasVencidas(salario: real, diasVencidas: real): (r: real)
    ensures r * 30.0 == salario * diasVencidas
    ensures diasVencidas == 30.0 ==> r == salario
    ensures salario >= 0.0 && diasVencidas >= 0.0 ==> r >= 0.0
  {
    (salario / 30.0) * diasVencidas
  }

  /** calcularFeriasProporcionais: the same formula, and so always the same
      value, as the proportional 13th salary. */
  function FeriasProporcionais(salario: real, meses: int, dias: int): (r: real)
    ensures r == DecimoTerceiro(salario, meses, dias)
  {
    var mesesCompletos := meses + (if dias >= 15 then 1 else 0);
    (salario / 12.0) * mesesCompletos as real
  }

  /** calcularAvisoPrevio. The notice kind is a parameter here; the
      component reads it from its input record (App.CalcularAvisoPrevio). */
  function AvisoPrevio(salario: real, tipoRescisao: string, tipoAvisoPrevio: string, mesesTrabalhados: int): (r: real)
    ensures !TemDireitoAviso(tipoRescisao) ==> r == 0.0
    ensures TemDireitoAviso(tipoRescisao) && tipoAvisoPrevio == Trabalhado ==> r == salario
    // indemnified: one month plus a tenth of a month per month worked, for at most 20 months
    ensures TemDireitoAviso(tipoRescisao) && tipoAvisoPrevio != Trabalhado ==>
      r == salario + salario / 10.0 * Min(mesesTrabalhados, 20) as real
    ensures TemDireitoAviso(tipoRescisao) && salario >= 0.0 && mesesTrabalhados >= 0 ==>
      salario <= r <= 3.0 * salario
    ensures TemDireitoAviso(tipoRescisao) && tipoAvisoPrevio != Trabalhado && mesesTrabalhados >= 20 ==>
      r == 3.0 * salario
  {
    if TemDireitoAviso(tipoRescisao) then
      if tipoAvisoPrevio == Trabalhado then
        salario
      else
        var diasAdicionais := Min(mesesTrabalhados * 3, 60);
        var diasTotais := 30 + diasAdicionais;
        var valor := (salario / 30.0) * diasTotais as real;
        AvisoIndenizado(salario, mesesTrabalhados, valor);
        valor
    else
      0.0
  }

  /** The indemnified notice in days, 30 plus 3 per month worked up to 60,
      is one month plus a tenth of a month per month worked up to 20, so
      between one and three months of salary. */
  lemma AvisoIndenizado(salario: real, mesesTrabalhados: int, r: real)
    requires r == (salario / 30.0) * (30 + Min(mesesTrabalhados * 3, 60)) as real
    ensures r == salario + salario / 10.0 * Min(mesesTrabalhados, 20) as real
    ensures salario >= 0.0 && mesesTrabalhados >= 0 ==> salario <= r <= 3.0 * salario
    ensures mesesTrabalhados >= 20 ==> r == 3.0 * salario
  {
    var meses := Min(mesesTrabalhados, 20);
    var dia := salario / 30.0;
    assert Min(mesesTrabalhados * 3, 60) == 3 * meses;
    assert r == dia * (30.0 + 3.0 * meses as real);
    assert dia * (30.0 + 3.0 * meses as real) == 30.0 * dia + 3.0 * (dia * meses as real);
    assert salario / 10.0 * meses as real == 3.0 * (dia * meses as real);
    if salario >= 0.0 && mesesTrabalhados >= 0 {
      Proporcao(dia, meses, 20);
      assert dia * 20 as real == 20.0 * dia;
      assert 0.0 <= dia * meses as real <= 20.0 * dia;
    }
  }

  /** A nonnegative rate times a count between 0 and `n` lies between 0 and
      the rate times `n`. */
  lemma Proporcao(taxa: real, k: int, n: int)
    ensures taxa >= 0.0 && 0 <= k <= n ==> 0.0 <= taxa * k as real <= taxa * n as real
  {
    if taxa >= 0.0 && 0 <= k <= n {
      assert taxa * n as real - taxa * k as real == taxa * (n - k) as real;
    }
  }

  /** calcularMultaFgts: 40% of the prior FGTS balance without cause, 20% by
      mutual agreement, nothing otherwise. */
  function MultaFgts(saldoFgts: real, tipoRescisao: string): (r: real)
    ensures tipoRescisao == SemJustaCausa ==> r == saldoFgts * 0.4
    ensures tipoRescisao == AcordoMutuo ==> r == saldoFgts * 0.2
    ensures tipoRescisao != SemJustaCausa && tipoRescisao != AcordoMutuo ==> r == 0.0
    ensures saldoFgts >= 0.0 ==> 0.0 <= r <= saldoFgts * 0.4
  {
    if tipoRescisao == SemJustaCausa then
      saldoFgts * 0.4
    else if tipoRescisao == AcordoMutuo then
      saldoFgts * 0.2
    else
      0.0
  }
}
