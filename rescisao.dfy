/** What one settlement computation produces from the input record: the
    three item lists and their totals, as functions of the record. The
    component class in app.dfy builds the same lists step by step. */
module Rescisao {
  import opened Calendar
  import opened Verbas
  import opened Tabelas

  /** One line of the result: a description and an amount. */
  datatype Item = Item(descricao: Descricao, valor: real)

  /** The form's input record. The dates are the parsed form fields. */
  datatype DadosFuncionario = DadosFuncionario(
    salario: real,
    dataAdmissao: Date,
    dataDemissao: Date,
    tipoRescisao: string,
    temAvisoPrevio: string,
    tipoAvisoPrevio: string,
    diasFeriasVencidas: real,
    saldoFgts: real)

  /** The empty form. */
  const DadosIniciais := DadosFuncionario(0.0, EmptyDate, EmptyDate, "", "", "", 0.0, 0.0)

  const Sim := "sim"
  const Indenizado := "indenizado"

  /** The fixed descriptions the component gives its items. */
  datatype Descricao =
    | SaldoDeSalario | DecimoTerceiroProporcional | FeriasVencidasItem | FeriasProporcionaisItem
    | TercoFeriasVencidas | TercoFeriasProporcionais | AvisoPrevioIndenizado | AvisoPrevioTrabalhado
    | FgtsDoMes | SaldoFgtsAnterior | MultaFgts40 | InssItem | IrrfItem

  /** The text shown for each description. The FGTS penalty says 40% at the
      20% rate of a mutual agreement too. */
  function Texto(descricao: Descricao): string {
    match descricao
    case SaldoDeSalario => "Saldo de Salário"
    case DecimoTerceiroProporcional => "13º Salário Proporcional"
    case FeriasVencidasItem => "Férias Vencidas"
    case FeriasProporcionaisItem => "Férias Proporcionais"
    case TercoFeriasVencidas => "1/3 Férias Vencidas"
    case TercoFeriasProporcionais => "1/3 Férias Proporcionais"
    case AvisoPrevioIndenizado => "Aviso Prévio Indenizado"
    case AvisoPrevioTrabalhado => "Aviso Prévio Trabalhado"
    case FgtsDoMes => "FGTS do Mês da Rescisão"
    case SaldoFgtsAnterior => "Saldo FGTS Anterior"
    case MultaFgts40 => "Multa FGTS 40%"
    case InssItem => "INSS"
    case IrrfItem => "IRRF"
  }

  /** No two descriptions share a text, so the enumeration loses nothing. */
  lemma TextosDistintos(a: Descricao, b: Descricao)
    requires a != b
    ensures Texto(a) != Texto(b)
  {
  }

  /** Both dates parse; otherwise nothing is computed. */
  predicate DatasValidas(d: DadosFuncionario) {
    ValidDate(d.dataAdmissao) && ValidDate(d.dataDemissao)
  }

  function Soma(itens: seq<Item>): real
  {
    if itens == [] then 0.0 else itens[0].valor + Soma(itens[1..])
  }

  lemma {:induction false} SomaConcatena(a: seq<Item>, b: seq<Item>)
    ensures Soma(a + b) == Soma(a) + Soma(b)
  {
    if a != [] {
      assert (a + b)[0] == a[0];
      assert (a + b)[1..] == a[1..] + b;
      SomaConcatena(a[1..], b);
    } else {
      assert a + b == b;
    }
  }

  predicate Positivos(itens: seq<Item>) {
    forall i :: 0 <= i < |itens| ==> itens[i].valor > 0.0
  }

  function Positivo(x: real): real {
    if x > 0.0 then x else 0.0
  }

  /** The item itself when its amount is positive, nothing otherwise. */
  function SePositivo(item: Item): seq<Item> {
    if item.valor > 0.0 then [item] else []
  }

  /** The candidates whose amount is positive, in their order: the component
      appends each candidate item only when its amount is positive. */
  function Filtrar(candidatos: seq<Item>): seq<Item>
    decreases |candidatos|
  {
    if candidatos == [] then []
    else Filtrar(candidatos[..|candidatos| - 1]) + SePositivo(candidatos[|candidatos| - 1])
  }

  /** The sum of the positive parts of the candidates' amounts. */
  function SomaPositivos(candidatos: seq<Item>): real
    decreases |candidatos|
  {
    if candidatos == [] then 0.0
    else SomaPositivos(candidatos[..|candidatos| - 1]) + Positivo(candidatos[|candidatos| - 1].valor)
  }

  /** An item is kept exactly when it is a candidate with a positive amount. */
  lemma {:induction false} FiltrarPertence(candidatos: seq<Item>, item: Item)
    ensures item in Filtrar(candidatos) <==> item in candidatos && item.valor > 0.0
    decreases |candidatos|
  {
    if candidatos != [] {
      var n := |candidatos| - 1;
      FiltrarPertence(candidatos[..n], item);
      assert candidatos == candidatos[..n] + [candidatos[n]];
    }
  }

  /** Every kept amount is positive, and the kept amounts add up to the
      positive parts of all the candidates' amounts. */
  lemma {:induction false} SomaFiltrar(candidatos: seq<Item>)
    ensures Positivos(Filtrar(candidatos))
    ensures Soma(Filtrar(candidatos)) == SomaPositivos(candidatos) >= 0.0
    decreases |candidatos|
  {
    if candidatos != [] {
      var n := |candidatos| - 1;
      var antes, ultimo := Filtrar(candidatos[..n]), SePositivo(candidatos[n]);
      SomaFiltrar(candidatos[..n]);
      SomaConcatena(antes, ultimo);
      if candidatos[n].valor > 0.0 {
        assert ultimo[1..] == [];
        assert (antes + ultimo)[|antes|] == candidatos[n];
      } else {
        assert antes + ultimo == antes;
      }
    }
  }

  /** Filtering and summing the positive parts one prefix further. */
  lemma FiltrarPasso(candidatos: seq<Item>, k: int)
    requires 0 <= k < |candidatos|
    ensures Filtrar(candidatos[..k + 1]) == Filtrar(candidatos[..k]) + SePositivo(candidatos[k])
    ensures SomaPositivos(candidatos[..k + 1]) == SomaPositivos(candidatos[..k]) + Positivo(candidatos[k].valor)
  {
    assert candidatos[..k + 1][..k] == candidatos[..k];
  }

  /** One step of the component: a positive amount is appended under its
      description and added to the running total, anything else is skipped.
      So the list gains exactly the filtered item, and the total grows by
      the amount's positive part. */
  method Lancar(itens: seq<Item>, total: real, descricao: Descricao, valor: real)
    returns (itens': seq<Item>, total': real)
    ensures itens' == itens + SePositivo(Item(descricao, valor))
    ensures total' == total + Positivo(valor)
    ensures valor > 0.0 <==> |itens'| == |itens| + 1
  {
    itens', total' := itens, total;
    if valor > 0.0 {
      itens' := itens' + [Item(descricao, valor)];
      total' := total' + valor;
    } else {
      assert itens + [] == itens;
    }
  }

  /** The notice item says "indemnified" only for that exact kind. */
  function RotuloAviso(tipoAvisoPrevio: string): Descricao {
    if tipoAvisoPrevio == Indenizado then AvisoPrevioIndenizado else AvisoPrevioTrabalhado
  }

  /** The five computed receivable amounts of one record. */
  datatype Parcelas = Parcelas(
    saldoSalario: real,
    decimoTerceiro: real,
    feriasVencidas: real,
    feriasProporcionais: real,
    avisoPrevio: real)

  /** The five receivable amounts of a record whose dates parse, each by its
      formula; the component computes them one by one (App.CalcularParcelas). */
  function ParcelasDoRegistro(d: DadosFuncionario): Parcelas
    requires DatasValidas(d)
  {
    var t := TempoTrabalho(d.dataAdmissao, d.dataDemissao);
    Parcelas(
      SaldoSalario(d.salario, d.dataDemissao),
      DecimoTerceiro(d.salario, t.meses, t.dias),
      FeriasVencidas(d.salario, d.diasFeriasVencidas),
      FeriasProporcionais(d.salario, t.meses, t.dias),
      AvisoPrevio(d.salario, d.tipoRescisao, d.tipoAvisoPrevio, t.meses))
  }

  /** The candidate receivables, in the order the component considers them:
      the one-third items are the vacation amounts divided by three, and the
      notice is a candidate only when the form says there is notice. */
  function CandidatosReceber(p: Parcelas, temAvisoPrevio: string, tipoAvisoPrevio: string): seq<Item>
  {
    [ Item(SaldoDeSalario, p.saldoSalario)
    , Item(DecimoTerceiroProporcional, p.decimoTerceiro)
    , Item(FeriasVencidasItem, p.feriasVencidas)
    , Item(FeriasProporcionaisItem, p.feriasProporcionais)
    , Item(TercoFeriasVencidas, p.feriasVencidas / 3.0)
    , Item(TercoFeriasProporcionais, p.feriasProporcionais / 3.0) ]
    + (if temAvisoPrevio == Sim then [Item(RotuloAviso(tipoAvisoPrevio), p.avisoPrevio)] else [])
  }

  /** The receivables of a record whose dates parse. */
  function ValoresReceber(d: DadosFuncionario): seq<Item>
    requires DatasValidas(d)
  {
    Filtrar(CandidatosReceber(ParcelasDoRegistro(d), d.temAvisoPrevio, d.tipoAvisoPrevio))
  }

  /** The candidate FGTS items, given the receivable total. */
  function CandidatosFgts(d: DadosFuncionario, totalReceber: real): seq<Item>
  {
    [ Item(FgtsDoMes, totalReceber * 0.08)
    , Item(SaldoFgtsAnterior, d.saldoFgts)
    , Item(MultaFgts40, MultaFgts(d.saldoFgts, d.tipoRescisao)) ]
  }

  function ValoresFgts(d: DadosFuncionario, totalReceber: real): seq<Item>
  {
    Filtrar(CandidatosFgts(d, totalReceber))
  }

  /** The candidate withholdings, given the receivable total: INSS on the
      total, IRRF on the total less INSS. */
  function CandidatosDescontos(totalReceber: real): seq<Item>
  {
    var inss := Inss(totalReceber);
    [Item(InssItem, inss), Item(IrrfItem, Irrf(totalReceber - inss))]
  }

  function ValoresDescontos(totalReceber: real): seq<Item>
  {
    Filtrar(CandidatosDescontos(totalReceber))
  }

  /** All listed receivables are positive and their total is the sum of the
      positive parts of the amounts, the notice counting only when the form
      says there is notice. */
  lemma SomaReceber(p: Parcelas, temAvisoPrevio: string, tipoAvisoPrevio: string)
    ensures var r := Filtrar(CandidatosReceber(p, temAvisoPrevio, tipoAvisoPrevio));
      && Positivos(r)
      && Soma(r) == Positivo(p.saldoSalario) + Positivo(p.decimoTerceiro) + Positivo(p.feriasVencidas)
                    + Positivo(p.feriasProporcionais) + Positivo(p.feriasVencidas / 3.0)
                    + Positivo(p.feriasProporcionais / 3.0)
                    + (if temAvisoPrevio == Sim then Positivo(p.avisoPrevio) else 0.0)
  {
    var c := CandidatosReceber(p, temAvisoPrevio, tipoAvisoPrevio);
    SomaFiltrar(c);
    if temAvisoPrevio == Sim {
      FiltrarSete(c);
    } else {
      FiltrarSeis(c);
    }
  }

  /** The filtered receivables, candidate by candidate. */
  lemma FiltrarReceber(p: Parcelas, temAvisoPrevio: string, tipoAvisoPrevio: string)
    ensures Filtrar(CandidatosReceber(p, temAvisoPrevio, tipoAvisoPrevio))
      == SePositivo(Item(SaldoDeSalario, p.saldoSalario))
         + SePositivo(Item(DecimoTerceiroProporcional, p.decimoTerceiro))
         + SePositivo(Item(FeriasVencidasItem, p.feriasVencidas))
         + SePositivo(Item(FeriasProporcionaisItem, p.feriasProporcionais))
         + SePositivo(Item(TercoFeriasVencidas, p.feriasVencidas / 3.0))
         + SePositivo(Item(TercoFeriasProporcionais, p.feriasProporcionais / 3.0))
         + (if temAvisoPrevio == Sim then SePositivo(Item(RotuloAviso(tipoAvisoPrevio), p.avisoPrevio)) else [])
  {
    var c := CandidatosReceber(p, temAvisoPrevio, tipoAvisoPrevio);
    if temAvisoPrevio == Sim {
      FiltrarSete(c);
    } else {
      FiltrarSeis(c);
    }
  }

  /** Seven, six, three and two candidates, one by one. */
  lemma FiltrarSete(c: seq<Item>)
    requires |c| == 7
    ensures Filtrar(c) == SePositivo(c[0]) + SePositivo(c[1]) + SePositivo(c[2])
                          + SePositivo(c[3]) + SePositivo(c[4]) + SePositivo(c[5]) + SePositivo(c[6])
    ensures SomaPositivos(c) == Positivo(c[0].valor) + Positivo(c[1].valor) + Positivo(c[2].valor)
                                + Positivo(c[3].valor) + Positivo(c[4].valor) + Positivo(c[5].valor)
                                + Positivo(c[6].valor)
  {
    FiltrarSeis(c[..6]);
    FiltrarPasso(c, 6);
    assert c[..7] == c;
  }

  lemma FiltrarSeis(c: seq<Item>)
    requires |c| == 6
    ensures Filtrar(c) == SePositivo(c[0]) + SePositivo(c[1]) + SePositivo(c[2])
                          + SePositivo(c[3]) + SePositivo(c[4]) + SePositivo(c[5])
    ensures SomaPositivos(c) == Positivo(c[0].valor) + Positivo(c[1].valor) + Positivo(c[2].valor)
                                + Positivo(c[3].valor) + Positivo(c[4].valor) + Positivo(c[5].valor)
  {
    FiltrarTres(c[..3]);
    FiltrarPasso(c, 3);
    FiltrarPasso(c, 4);
    FiltrarPasso(c, 5);
    assert c[..6] == c;
  }

  lemma FiltrarTres(c: seq<Item>)
    requires |c| == 3
    ensures Filtrar(c) == SePositivo(c[0]) + SePositivo(c[1]) + SePositivo(c[2])
    ensures SomaPositivos(c) == Positivo(c[0].valor) + Positivo(c[1].valor) + Positivo(c[2].valor)
  {
    FiltrarDois(c[..2]);
    FiltrarPasso(c, 2);
    assert c[..3] == c;
  }

  lemma FiltrarDois(c: seq<Item>)
    requires |c| == 2
    ensures Filtrar(c) == SePositivo(c[0]) + SePositivo(c[1])
    ensures SomaPositivos(c) == Positivo(c[0].valor) + Positivo(c[1].valor)
  {
    FiltrarPasso(c, 0);
    FiltrarPasso(c, 1);
    assert c[..0] == [];
    assert c[..2] == c;
  }

  /** The amount that belongs under each receivable label: each one-third
      item is its vacation amount divided by three, and the notice amount
      belongs under the label of the notice kind, and only when the form
      says there is notice. Other labels carry nothing. */
  function Esperado(p: Parcelas, temAvisoPrevio: string, tipoAvisoPrevio: string, descricao: Descricao): real
  {
    if descricao == SaldoDeSalario then p.saldoSalario
    else if descricao == DecimoTerceiroProporcional then p.decimoTerceiro
    else if descricao == FeriasVencidasItem then p.feriasVencidas
    else if descricao == FeriasProporcionaisItem then p.feriasProporcionais
    else if descricao == TercoFeriasVencidas then p.feriasVencidas / 3.0
    else if descricao == TercoFeriasProporcionais then p.feriasProporcionais / 3.0
    else if descricao == AvisoPrevioIndenizado then
      (if temAvisoPrevio == Sim && tipoAvisoPrevio == Indenizado then p.avisoPrevio else 0.0)
    else if descricao == AvisoPrevioTrabalhado then
      (if temAvisoPrevio == Sim && tipoAvisoPrevio != Indenizado then p.avisoPrevio else 0.0)
    else 0.0
  }

  /** The receivables are exactly the labels whose amount is positive, each
      with that amount. */
  lemma RotulosReceber(p: Parcelas, temAvisoPrevio: string, tipoAvisoPrevio: string, descricao: Descricao, v: real)
    ensures Item(descricao, v) in Filtrar(CandidatosReceber(p, temAvisoPrevio, tipoAvisoPrevio))
            <==> v == Esperado(p, temAvisoPrevio, tipoAvisoPrevio, descricao) > 0.0
  {
    FiltrarPertence(CandidatosReceber(p, temAvisoPrevio, tipoAvisoPrevio), Item(descricao, v));
  }

  /** A form that says there is notice but leaves its kind blank, as the
      empty form does: the amount is the indemnified one, since the kind is
      not "trabalhado", yet it is listed under the worked-notice label, since
      the kind is not "indenizado". From 20 months on that is three salaries. */
  lemma AvisoEmBrancoRotuladoTrabalhado(d: DadosFuncionario)
    requires DatasValidas(d) && NotAfter(d.dataAdmissao, d.dataDemissao)
    requires d.temAvisoPrevio == Sim && d.tipoAvisoPrevio == ""
    requires TemDireitoAviso(d.tipoRescisao) && d.salario > 0.0
    ensures var meses := TempoTrabalho(d.dataAdmissao, d.dataDemissao).meses;
      && Item(AvisoPrevioTrabalhado, AvisoPrevio(d.salario, d.tipoRescisao, Indenizado, meses)) in ValoresReceber(d)
      && (meses >= 20 ==> Item(AvisoPrevioTrabalhado, 3.0 * d.salario) in ValoresReceber(d))
  {
    var meses := TempoTrabalho(d.dataAdmissao, d.dataDemissao).meses;
    var p := ParcelasDoRegistro(d);
    assert p.avisoPrevio == AvisoPrevio(d.salario, d.tipoRescisao, d.tipoAvisoPrevio, meses);
    assert p.avisoPrevio == AvisoPrevio(d.salario, d.tipoRescisao, Indenizado, meses) >= d.salario;
    AvisoListadoTrabalhado(p, d.tipoAvisoPrevio);
  }

  /** With notice and a kind other than "indenizado", a positive notice
      amount is listed under the worked-notice label. */
  lemma AvisoListadoTrabalhado(p: Parcelas, tipoAvisoPrevio: string)
    requires tipoAvisoPrevio != Indenizado && p.avisoPrevio > 0.0
    ensures Item(AvisoPrevioTrabalhado, p.avisoPrevio) in Filtrar(CandidatosReceber(p, Sim, tipoAvisoPrevio))
  {
    RotulosReceber(p, Sim, tipoAvisoPrevio, AvisoPrevioTrabalhado, p.avisoPrevio);
  }

  /** The amount that belongs under each FGTS label: 8% of the receivable
      total, the prior balance, and the penalty on the prior balance alone.
      The penalty label says 40% whatever the rate. */
  function EsperadoFgts(d: DadosFuncionario, totalReceber: real, descricao: Descricao): real
  {
    if descricao == FgtsDoMes then totalReceber * 0.08
    else if descricao == SaldoFgtsAnterior then d.saldoFgts
    else if descricao == MultaFgts40 then MultaFgts(d.saldoFgts, d.tipoRescisao)
    else 0.0
  }

  /** The FGTS items are exactly the labels whose amount is positive, with
      that amount. */
  lemma RotulosFgts(d: DadosFuncionario, totalReceber: real, descricao: Descricao, v: real)
    ensures Item(descricao, v) in ValoresFgts(d, totalReceber)
            <==> v == EsperadoFgts(d, totalReceber, descricao) > 0.0
  {
    FiltrarPertence(CandidatosFgts(d, totalReceber), Item(descricao, v));
  }

  /** The FGTS items are positive and sum to the positive parts of the three
      amounts. */
  lemma SomaFgts(d: DadosFuncionario, totalReceber: real)
    ensures var f := ValoresFgts(d, totalReceber);
      && Positivos(f)
      && Soma(f) == Positivo(totalReceber * 0.08) + Positivo(d.saldoFgts)
                    + Positivo(MultaFgts(d.saldoFgts, d.tipoRescisao))
  {
    var c := CandidatosFgts(d, totalReceber);
    SomaFiltrar(c);
    FiltrarTres(c);
  }

  /** A mutual agreement's 20% penalty is listed under the 40% label. */
  lemma MultaAcordoRotulada40(d: DadosFuncionario, totalReceber: real)
    requires d.tipoRescisao == AcordoMutuo && d.saldoFgts > 0.0
    ensures Item(MultaFgts40, d.saldoFgts * 0.2) in ValoresFgts(d, totalReceber)
    ensures Texto(MultaFgts40) == "Multa FGTS 40%"
  {
    RotulosFgts(d, totalReceber, MultaFgts40, d.saldoFgts * 0.2);
  }

  /** Whatever the receivable total, the withholdings are positive and sum
      to the positive parts of INSS and IRRF. */
  lemma ItensDescontos(totalReceber: real)
    ensures var ds := ValoresDescontos(totalReceber);
      && Positivos(ds)
      && Soma(ds) == Positivo(Inss(totalReceber)) + Positivo(Irrf(totalReceber - Inss(totalReceber)))
  {
    var c := CandidatosDescontos(totalReceber);
    SomaFiltrar(c);
    FiltrarDois(c);
  }

  /** For a nonnegative receivable total the withholdings are INSS on the
      total and IRRF on the total less INSS, listed when positive, and they
      never exceed the total. */
  lemma SomaDescontos(totalReceber: real)
    requires totalReceber >= 0.0
    ensures var ds := ValoresDescontos(totalReceber);
      && Positivos(ds)
      && Soma(ds) == Inss(totalReceber) + Irrf(totalReceber - Inss(totalReceber))
      && Soma(ds) <= totalReceber
  {
    var inss := Inss(totalReceber);
    var irrf := Irrf(totalReceber - inss);
    ItensDescontos(totalReceber);
    assert inss <= totalReceber * 0.14;
    assert irrf <= (totalReceber - inss) * 0.275;
  }

  /** Net amount: receivables less withholdings; FGTS is not subtracted. */
  function Liquido(d: DadosFuncionario): real
    requires DatasValidas(d)
  {
    var totalReceber := Soma(ValoresReceber(d));
    totalReceber - Soma(ValoresDescontos(totalReceber))
  }

  /** The net amount is never negative, and the FGTS balance has no effect
      on it. */
  lemma LiquidoNaoNegativo(d: DadosFuncionario, saldoFgts: real)
    requires DatasValidas(d)
    ensures Liquido(d) >= 0.0
    ensures Liquido(d.(saldoFgts := saldoFgts)) == Liquido(d)
  {
    SomaFiltrar(CandidatosReceber(ParcelasDoRegistro(d), d.temAvisoPrevio, d.tipoAvisoPrevio));
    SomaDescontos(Soma(ValoresReceber(d)));
  }
}
