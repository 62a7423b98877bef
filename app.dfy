/** The settlement component: the input record, the three result lists and
    the totals are fields that the computation and the two reset operations
    update in place. */
module Componente {
  import opened Calendar
  import opened Verbas
  import opened Tabelas
  import opened Rescisao

  class App {
    var dadosFuncionario: DadosFuncionario
    /** Never filled; only cleared. */
    var resultado: seq<Item>
    var valoresReceber: seq<Item>
    var valoresFgts: seq<Item>
    var valoresDescontos: seq<Item>
    var totalLiquido: real
    var totalReceber: real
    var totalFgts: real
    var totalDescontos: real
    var resultadoCalculado: bool

    /** Every total is the sum of its list, the net amount is receivables
        less withholdings, and every listed amount is positive. */
    ghost predicate Consistente()
      reads this
    {
      && totalReceber == Soma(valoresReceber)
      && totalFgts == Soma(valoresFgts)
      && totalDescontos == Soma(valoresDescontos)
      && totalLiquido == totalReceber - totalDescontos
      && Positivos(valoresReceber) && Positivos(valoresFgts) && Positivos(valoresDescontos)
    }

    /** No result: every list empty and every total zero. */
    ghost predicate Limpo()
      reads this
    {
      && resultado == [] && valoresReceber == [] && valoresFgts == [] && valoresDescontos == []
      && totalReceber == 0.0 && totalFgts == 0.0 && totalDescontos == 0.0 && totalLiquido == 0.0
    }

    constructor ()
      ensures dadosFuncionario == DadosIniciais
      ensures Limpo() && Consistente() && !resultadoCalculado
    {
      dadosFuncionario := DadosIniciais;
      resultado := [];
      valoresReceber := [];
      valoresFgts := [];
      valoresDescontos := [];
      totalLiquido := 0.0;
      totalReceber := 0.0;
      totalFgts := 0.0;
      totalDescontos := 0.0;
      resultadoCalculado := false;
    }

    /** calcularRescisao. With a date that does not parse it stops after
        clearing the lists and totals, leaving `resultadoCalculado` as it
        was. Otherwise the lists are those of the record, the totals their
        sums, and the result is marked as computed. */
    method CalcularRescisao()
      modifies this
      ensures dadosFuncionario == old(dadosFuncionario)
      ensures !DatasValidas(dadosFuncionario) ==>
        Limpo() && resultadoCalculado == old(resultadoCalculado)
      ensures DatasValidas(dadosFuncionario) ==>
        && resultado == []
        && valoresReceber == ValoresReceber(dadosFuncionario)
        && valoresFgts == ValoresFgts(dadosFuncionario, totalReceber)
        && valoresDescontos == ValoresDescontos(totalReceber)
        && resultadoCalculado
      ensures Consistente()
    {
      LimparResultados();

      var dataAdmissao := dadosFuncionario.dataAdmissao;
      var dataDemissao := dadosFuncionario.dataDemissao;

      if !ValidDate(dataAdmissao) || !ValidDate(dataDemissao) {
        return;
      }

      // receivables, FGTS, withholdings
      ghost var d := dadosFuncionario;
      var parcelas := CalcularParcelas();
      var totalBrutoReceber := LancarValoresReceber(parcelas);
      ghost var receber := valoresReceber;
      assert receber == ValoresReceber(d);
      var totalBrutoFgts := LancarValoresFgts(totalBrutoReceber);
      ghost var fgts := valoresFgts;
      var totalBrutoDescontos := LancarValoresDescontos(totalBrutoReceber);
      ghost var descontos := valoresDescontos;

      totalReceber := totalBrutoReceber;
      totalFgts := totalBrutoFgts;
      totalDescontos := totalBrutoDescontos;
      totalLiquido := totalBrutoReceber - totalBrutoDescontos;
      resultadoCalculado := true;
      assert dadosFuncionario == d && valoresReceber == receber && valoresFgts == fgts && valoresDescontos == descontos;
    }

    /** The five receivable amounts of calcularRescisao, each by its own
        formula from the salary, the termination date, the time worked and
        the record. */
    method CalcularParcelas() returns (p: Parcelas)
      requires DatasValidas(dadosFuncionario)
      ensures p == ParcelasDoRegistro(dadosFuncionario)
    {
      var tempoTrabalho := TempoTrabalho(dadosFuncionario.dataAdmissao, dadosFuncionario.dataDemissao);
      var salario := dadosFuncionario.salario;
      var mesesTrabalhados := tempoTrabalho.meses;
      var diasTrabalhados := tempoTrabalho.dias;
      var saldoSalario := SaldoSalario(salario, dadosFuncionario.dataDemissao);
      var decimoTerceiro := DecimoTerceiro(salario, mesesTrabalhados, diasTrabalhados);
      var feriasVencidas := FeriasVencidas(salario, dadosFuncionario.diasFeriasVencidas);
      var feriasProporcionais := FeriasProporcionais(salario, mesesTrabalhados, diasTrabalhados);
      var avisoPrevio := CalcularAvisoPrevio(salario, dadosFuncionario.tipoRescisao, mesesTrabalhados);
      p := Parcelas(saldoSalario, decimoTerceiro, feriasVencidas, feriasProporcionais, avisoPrevio);
    }

    /** The receivables section of calcularRescisao: starting from the
        cleared list, each amount is appended when positive, the two
        one-third items after the vacation amounts, the notice only when the
        form says there is notice; the returned total is the list's sum. */
    method LancarValoresReceber(p: Parcelas) returns (totalBrutoReceber: real)
      requires valoresReceber == []
      modifies this`valoresReceber
      ensures valoresReceber == Filtrar(CandidatosReceber(p, dadosFuncionario.temAvisoPrevio, dadosFuncionario.tipoAvisoPrevio))
      ensures Positivos(valoresReceber) && totalBrutoReceber == Soma(valoresReceber)
    {
      totalBrutoReceber := 0.0;

      valoresReceber, totalBrutoReceber := Lancar(valoresReceber, totalBrutoReceber, SaldoDeSalario, p.saldoSalario);
      assert valoresReceber == SePositivo(Item(SaldoDeSalario, p.saldoSalario));
      assert totalBrutoReceber == Positivo(p.saldoSalario);
      valoresReceber, totalBrutoReceber :=
        Lancar(valoresReceber, totalBrutoReceber, DecimoTerceiroProporcional, p.decimoTerceiro);
      valoresReceber, totalBrutoReceber := Lancar(valoresReceber, totalBrutoReceber, FeriasVencidasItem, p.feriasVencidas);
      valoresReceber, totalBrutoReceber :=
        Lancar(valoresReceber, totalBrutoReceber, FeriasProporcionaisItem, p.feriasProporcionais);

      var umTercoFeriasVencidas := p.feriasVencidas / 3.0;
      valoresReceber, totalBrutoReceber :=
        Lancar(valoresReceber, totalBrutoReceber, TercoFeriasVencidas, umTercoFeriasVencidas);

      var umTercoFeriasProporcionais := p.feriasProporcionais / 3.0;
      valoresReceber, totalBrutoReceber :=
        Lancar(valoresReceber, totalBrutoReceber, TercoFeriasProporcionais, umTercoFeriasProporcionais);

      if dadosFuncionario.temAvisoPrevio == Sim {
        var descricaoAviso :=
          if dadosFuncionario.tipoAvisoPrevio == Indenizado then AvisoPrevioIndenizado else AvisoPrevioTrabalhado;
        valoresReceber, totalBrutoReceber := Lancar(valoresReceber, totalBrutoReceber, descricaoAviso, p.avisoPrevio);
      } else {
        assert valoresReceber == valoresReceber + [];
      }
      assert valoresReceber == SePositivo(Item(SaldoDeSalario, p.saldoSalario))
         + SePositivo(Item(DecimoTerceiroProporcional, p.decimoTerceiro))
         + SePositivo(Item(FeriasVencidasItem, p.feriasVencidas))
         + SePositivo(Item(FeriasProporcionaisItem, p.feriasProporcionais))
         + SePositivo(Item(TercoFeriasVencidas, p.feriasVencidas / 3.0))
         + SePositivo(Item(TercoFeriasProporcionais, p.feriasProporcionais / 3.0))
         + (if dadosFuncionario.temAvisoPrevio == Sim
            then SePositivo(Item(RotuloAviso(dadosFuncionario.tipoAvisoPrevio), p.avisoPrevio)) else []);
      assert totalBrutoReceber == Positivo(p.saldoSalario) + Positivo(p.decimoTerceiro) + Positivo(p.feriasVencidas)
                    + Positivo(p.feriasProporcionais) + Positivo(p.feriasVencidas / 3.0)
                    + Positivo(p.feriasProporcionais / 3.0)
                    + (if dadosFuncionario.temAvisoPrevio == Sim then Positivo(p.avisoPrevio) else 0.0);
      assert valoresReceber == Filtrar(CandidatosReceber(p, dadosFuncionario.temAvisoPrevio, dadosFuncionario.tipoAvisoPrevio))
          && Positivos(valoresReceber) && totalBrutoReceber == Soma(valoresReceber) by {
        FiltrarReceber(p, dadosFuncionario.temAvisoPrevio, dadosFuncionario.tipoAvisoPrevio);
        SomaReceber(p, dadosFuncionario.temAvisoPrevio, dadosFuncionario.tipoAvisoPrevio);
      }
    }

    /** The FGTS section of calcularRescisao: 8% of the receivable total, the
        prior balance and the penalty, each appended when positive. */
    method LancarValoresFgts(totalBrutoReceber: real) returns (totalBrutoFgts: real)
      requires valoresFgts == []
      modifies this`valoresFgts
      ensures valoresFgts == ValoresFgts(dadosFuncionario, totalBrutoReceber)
      ensures Positivos(valoresFgts) && totalBrutoFgts == Soma(valoresFgts)
    {
      totalBrutoFgts := 0.0;

      var fgtsMes := totalBrutoReceber * 0.08;
      valoresFgts, totalBrutoFgts := Lancar(valoresFgts, totalBrutoFgts, FgtsDoMes, fgtsMes);
      assert valoresFgts == SePositivo(Item(FgtsDoMes, fgtsMes));

      valoresFgts, totalBrutoFgts := Lancar(valoresFgts, totalBrutoFgts, SaldoFgtsAnterior, dadosFuncionario.saldoFgts);

      var multaFgts := MultaFgts(dadosFuncionario.saldoFgts, dadosFuncionario.tipoRescisao);
      valoresFgts, totalBrutoFgts := Lancar(valoresFgts, totalBrutoFgts, MultaFgts40, multaFgts);

      assert valoresFgts == ValoresFgts(dadosFuncionario, totalBrutoReceber)
          && Positivos(valoresFgts) && totalBrutoFgts == Soma(valoresFgts) by {
        FiltrarTres(CandidatosFgts(dadosFuncionario, totalBrutoReceber));
        SomaFgts(dadosFuncionario, totalBrutoReceber);
      }
    }

    /** The withholdings section of calcularRescisao: INSS on the receivable
        total, then IRRF on the total less INSS, each appended when positive. */
    method LancarValoresDescontos(totalBrutoReceber: real) returns (totalBrutoDescontos: real)
      requires valoresDescontos == []
      modifies this`valoresDescontos
      ensures valoresDescontos == ValoresDescontos(totalBrutoReceber)
      ensures Positivos(valoresDescontos) && totalBrutoDescontos == Soma(valoresDescontos)
    {
      totalBrutoDescontos := 0.0;

      var inss := Inss(totalBrutoReceber);
      valoresDescontos, totalBrutoDescontos := Lancar(valoresDescontos, totalBrutoDescontos, InssItem, inss);
      assert valoresDescontos == SePositivo(Item(InssItem, inss));

      var irrf := Irrf(totalBrutoReceber - inss);
      valoresDescontos, totalBrutoDescontos := Lancar(valoresDescontos, totalBrutoDescontos, IrrfItem, irrf);

      FiltrarDois(CandidatosDescontos(totalBrutoReceber));
      ItensDescontos(totalBrutoReceber);
    }

    /** calcularAvisoPrevio takes the notice kind from the record, not from
        its arguments. */
    function CalcularAvisoPrevio(salario: real, tipoRescisao: string, mesesTrabalhados: int): (r: real)
      reads this
      ensures !TemDireitoAviso(tipoRescisao) ==> r == 0.0
      ensures TemDireitoAviso(tipoRescisao) && dadosFuncionario.tipoAvisoPrevio == Trabalhado ==> r == salario
      ensures TemDireitoAviso(tipoRescisao) && dadosFuncionario.tipoAvisoPrevio != Trabalhado ==>
        r == salario + salario / 10.0 * Min(mesesTrabalhados, 20) as real
    {
      AvisoPrevio(salario, tipoRescisao, dadosFuncionario.tipoAvisoPrevio, mesesTrabalhados)
    }

    /** limparResultados: clears the lists and totals; neither the record
        nor `resultadoCalculado` changes. */
    method LimparResultados()
      modifies this
      ensures valoresReceber == [] && valoresFgts == [] && valoresDescontos == [] && resultado == []
      ensures totalReceber == 0.0 && totalFgts == 0.0 && totalDescontos == 0.0 && totalLiquido == 0.0
      ensures dadosFuncionario == old(dadosFuncionario)
      ensures resultadoCalculado == old(resultadoCalculado)
    {
      valoresReceber := [];
      valoresFgts := [];
      valoresDescontos := [];
      resultado := [];
      totalReceber := 0.0;
      totalFgts := 0.0;
      totalDescontos := 0.0;
      totalLiquido := 0.0;
    }

    /** limparCalculos: empties the form and the result, and marks the result
        as not computed. */
    method LimparCalculos()
      modifies this
      ensures dadosFuncionario == DadosIniciais
      ensures Limpo() && Consistente() && !resultadoCalculado
    {
      dadosFuncionario := DadosIniciais;
      LimparResultados();
      resultadoCalculado := false;
    }
  }
}
