/** The two 2024 withholding tables: the social-security contribution (INSS),
    progressive by marginal rates up to a ceiling, and the income-tax
    withholding (IRRF), rate times base minus a fixed deduction per bracket.
    Each is written as the component's cascaded `if` chain and proved equal
    to a generic evaluation of the same table given as data. */
module Tabelas {

  /** INSS contribution at and above the ceiling of the top bracket. */
  const InssTeto: real := 908.8618

  /** calcularINSS. */
  function Inss(salarioBase: real): (r: real)
    ensures salarioBase <= 1412.00 ==> r == salarioBase * 0.075
    ensures salarioBase >= 7786.02 ==> r == InssTeto
    ensures r <= InssTeto
    ensures salarioBase >= 0.0 ==> 0.0 <= r <= salarioBase * 0.14
  {
    if salarioBase <= 1412.00 then
      salarioBase * 0.075
    else if salarioBase <= 2666.68 then
      (1412.00 * 0.075) + ((salarioBase - 1412.00) * 0.09)
    else if salarioBase <= 4000.03 then
      (1412.00 * 0.075) + ((2666.68 - 1412.00) * 0.09) + ((salarioBase - 2666.68) * 0.12)
    else if salarioBase <= 7786.02 then
      (1412.00 * 0.075) + ((2666.68 - 1412.00) * 0.09) + ((4000.03 - 2666.68) * 0.12)
      + ((salarioBase - 4000.03) * 0.14)
    else
      (1412.00 * 0.075) + ((2666.68 - 1412.00) * 0.09) + ((4000.03 - 2666.68) * 0.12)
      + ((7786.02 - 4000.03) * 0.14)
  }

  /** A bracket of a marginal-rate table: the rate applies to the part of
      the base between the previous bracket's upper bound and `limite`. */
  datatype Faixa = Faixa(limite: real, aliquota: real)

  const FaixasInss: seq<Faixa> :=
    [Faixa(1412.00, 0.075), Faixa(2666.68, 0.09), Faixa(4000.03, 0.12), Faixa(7786.02, 0.14)]

  /** Upper bounds strictly increase from `piso`. */
  predicate Crescente(piso: real, faixas: seq<Faixa>)
    decreases |faixas|
  {
    faixas == [] || (piso < faixas[0].limite && Crescente(faixas[0].limite, faixas[1..]))
  }

  /** Every marginal rate lies in [0, teto]. */
  predicate AliquotasAte(faixas: seq<Faixa>, teto: real) {
    forall i :: 0 <= i < |faixas| ==> 0.0 <= faixas[i].aliquota <= teto
  }

  /** Marginal-rate evaluation: each bracket taxes its own slice of the base,
      nothing is taxed above the last bound. */
  function Progressiva(base: real, piso: real, faixas: seq<Faixa>): real
    decreases |faixas|
  {
    if faixas == [] then 0.0
    else if base <= faixas[0].limite then faixas[0].aliquota * (base - piso)
    else faixas[0].aliquota * (faixas[0].limite - piso) + Progressiva(base, faixas[0].limite, faixas[1..])
  }

  /** The slice of one bracket between `a` and `b` grows by at most `teto`
      per unit. */
  lemma DentroDaFaixa(aliquota: real, teto: real, piso: real, a: real, b: real)
    requires 0.0 <= aliquota <= teto && a <= b
    ensures 0.0 <= aliquota * (b - piso) - aliquota * (a - piso) <= teto * (b - a)
  {
    assert aliquota * (b - piso) - aliquota * (a - piso) == aliquota * (b - a);
  }

  /** The same when `b` crosses into the next brackets, whose growth from
      `limite` to `b` is `cauda`. */
  lemma CruzaFaixa(aliquota: real, teto: real, piso: real, limite: real, a: real, b: real, cauda: real,
                    va: real, vb: real)
    requires 0.0 <= aliquota <= teto && a <= limite < b
    requires 0.0 <= cauda <= teto * (b - limite)
    requires va == aliquota * (a - piso) && vb == aliquota * (limite - piso) + cauda
    ensures 0.0 <= vb - va <= teto * (b - a)
  {
    assert aliquota * (limite - piso) - aliquota * (a - piso) == aliquota * (limite - a);
    assert aliquota * (limite - a) <= teto * (limite - a);
    assert teto * (limite - a) + teto * (b - limite) == teto * (b - a);
  }

  /** A nonnegative rate times a nonnegative width is nonnegative. */
  lemma ProdutoNaoNegativo(teto: real, largura: real)
    requires 0.0 <= teto && 0.0 <= largura
    ensures 0.0 <= teto * largura
  {
  }

  /** Both ends inside the first bracket. */
  lemma NaPrimeiraFaixa(a: real, b: real, piso: real, faixas: seq<Faixa>, teto: real)
    requires faixas != [] && a <= b <= faixas[0].limite && 0.0 <= faixas[0].aliquota <= teto
    ensures 0.0 <= Progressiva(b, piso, faixas) - Progressiva(a, piso, faixas) <= teto * (b - a)
  {
    var f := faixas[0];
    assert Progressiva(b, piso, faixas) == f.aliquota * (b - piso);
    assert Progressiva(a, piso, faixas) == f.aliquota * (a - piso);
    DentroDaFaixa(f.aliquota, teto, piso, a, b);
  }

  /** `a` inside the first bracket and `b` beyond it, given the growth of
      the remaining brackets from the first bound to `b`. */
  lemma SaiDaPrimeiraFaixa(a: real, b: real, piso: real, faixas: seq<Faixa>, teto: real)
    requires faixas != [] && a <= faixas[0].limite < b && 0.0 <= faixas[0].aliquota <= teto
    requires Crescente(piso, faixas)
    requires 0.0 <= Progressiva(b, faixas[0].limite, faixas[1..]) - Progressiva(faixas[0].limite, faixas[0].limite, faixas[1..])
                <= teto * (b - faixas[0].limite)
    ensures 0.0 <= Progressiva(b, piso, faixas) - Progressiva(a, piso, faixas) <= teto * (b - a)
  {
    var f, resto := faixas[0], faixas[1..];
    var cauda := Progressiva(b, f.limite, resto);
    assert Progressiva(f.limite, f.limite, resto) == 0.0;
    CruzaFaixa(f.aliquota, teto, piso, f.limite, a, b, cauda, Progressiva(a, piso, faixas), Progressiva(b, piso, faixas));
  }

  /** Both ends beyond the first bracket: the first bracket adds the same
      amount to both. */
  lemma AlemDaPrimeiraFaixa(a: real, b: real, piso: real, faixas: seq<Faixa>)
    requires faixas != [] && faixas[0].limite < a <= b
    ensures Progressiva(b, piso, faixas) - Progressiva(a, piso, faixas)
            == Progressiva(b, faixas[0].limite, faixas[1..]) - Progressiva(a, faixas[0].limite, faixas[1..])
  {
  }

  /** A marginal-rate table with rates in [0, teto] is nondecreasing and
      grows by at most `teto` per unit of base, hence continuous. */
  lemma {:induction false} ProgressivaLipschitz(a: real, b: real, piso: real, faixas: seq<Faixa>, teto: real)
    requires a <= b
    requires 0.0 <= teto && Crescente(piso, faixas) && AliquotasAte(faixas, teto)
    ensures 0.0 <= Progressiva(b, piso, faixas) - Progressiva(a, piso, faixas) <= teto * (b - a)
    decreases |faixas|
  {
    if faixas == [] {
      ProdutoNaoNegativo(teto, b - a);
    } else {
      var f, resto := faixas[0], faixas[1..];
      assert 0.0 <= f.aliquota <= teto;
      assert AliquotasAte(resto, teto) by {
        forall i | 0 <= i < |resto| ensures 0.0 <= resto[i].aliquota <= teto {
          assert resto[i] == faixas[i + 1];
        }
      }
      if b <= f.limite {
        NaPrimeiraFaixa(a, b, piso, faixas, teto);
      } else if a <= f.limite {
        ProgressivaLipschitz(f.limite, b, f.limite, resto, teto);
        SaiDaPrimeiraFaixa(a, b, piso, faixas, teto);
      } else {
        ProgressivaLipschitz(a, b, f.limite, resto, teto);
        AlemDaPrimeiraFaixa(a, b, piso, faixas);
      }
    }
  }

  /** The cascaded INSS chain is the marginal-rate evaluation of the 2024 table. */
  lemma InssPorFaixas(salarioBase: real)
    ensures Inss(salarioBase) == Progressiva(salarioBase, 0.0, FaixasInss)
  {
    var f := FaixasInss;
    assert f[1..][1..][1..][1..] == [];
    if salarioBase > 1412.00 {
      assert Progressiva(salarioBase, 0.0, f) == 1412.00 * 0.075 + Progressiva(salarioBase, 1412.00, f[1..]);
      if salarioBase > 2666.68 {
        assert Progressiva(salarioBase, 1412.00, f[1..])
          == (2666.68 - 1412.00) * 0.09 + Progressiva(salarioBase, 2666.68, f[1..][1..]);
        if salarioBase > 4000.03 {
          assert Progressiva(salarioBase, 2666.68, f[1..][1..])
            == (4000.03 - 2666.68) * 0.12 + Progressiva(salarioBase, 4000.03, f[1..][1..][1..]);
        }
      }
    }
  }

  /** INSS is nondecreasing and continuous at every bracket edge: it never
      grows by more than the top rate, 14%, per unit of base. */
  lemma InssMonotonaContinua(a: real, b: real)
    requires a <= b
    ensures 0.0 <= Inss(b) - Inss(a) <= 0.14 * (b - a)
  {
    InssPorFaixas(a);
    InssPorFaixas(b);
    assert Crescente(0.0, FaixasInss) by {
      var f := FaixasInss;
      assert Crescente(7786.02, []);
      assert f[1..][1..][1..] == [Faixa(7786.02, 0.14)];
      assert Crescente(4000.03, f[1..][1..][1..]);
      assert Crescente(2666.68, f[1..][1..]);
      assert Crescente(1412.00, f[1..]);
    }
    ProgressivaLipschitz(a, b, 0.0, FaixasInss, 0.14);
  }

  /** calcularIRRF. */
  function Irrf(baseCalculo: real): (r: real)
    ensures baseCalculo <= 2259.20 ==> r == 0.0
    ensures r >= 0.0
    ensures baseCalculo >= 0.0 ==> r <= baseCalculo * 0.275
  {
    if baseCalculo <= 2259.20 then
      0.0
    else if baseCalculo <= 2826.65 then
      (baseCalculo * 0.075) - 169.44
    else if baseCalculo <= 3751.05 then
      (baseCalculo * 0.15) - 381.44
    else if baseCalculo <= 4664.68 then
      (baseCalculo * 0.225) - 662.77
    else
      (baseCalculo * 0.275) - 896.00
  }

  /** A bracket of a rate-minus-deduction table, for bases up to `limite`. */
  datatype FaixaIr = FaixaIr(limite: real, aliquota: real, deducao: real)

  const FaixasIrrf: seq<FaixaIr> :=
    [ FaixaIr(2259.20, 0.0, 0.0), FaixaIr(2826.65, 0.075, 169.44)
    , FaixaIr(3751.05, 0.15, 381.44), FaixaIr(4664.68, 0.225, 662.77) ]

  /** Rate and deduction of the open bracket above the last bound. */
  const AliquotaIrTopo: real := 0.275
  const DeducaoIrTopo: real := 896.00

  /** Rate-minus-deduction evaluation: the first bracket whose bound is not
      below the base applies, and the open bracket's rate and deduction
      above all bounds. */
  function PorDeducao(base: real, faixas: seq<FaixaIr>, aliquotaTopo: real, deducaoTopo: real): real
    decreases |faixas|
  {
    if faixas == [] then base * aliquotaTopo - deducaoTopo
    else if base <= faixas[0].limite then base * faixas[0].aliquota - faixas[0].deducao
    else PorDeducao(base, faixas[1..], aliquotaTopo, deducaoTopo)
  }

  /** The cascaded IRRF chain is the evaluation of the 2024 table. */
  lemma IrrfPorFaixas(baseCalculo: real)
    ensures Irrf(baseCalculo) == PorDeducao(baseCalculo, FaixasIrrf, AliquotaIrTopo, DeducaoIrTopo)
  {
    var f := FaixasIrrf;
    assert f[1..][1..][1..][1..] == [];
    if baseCalculo > 2259.20 {
      assert PorDeducao(baseCalculo, f, AliquotaIrTopo, DeducaoIrTopo) == PorDeducao(baseCalculo, f[1..], AliquotaIrTopo, DeducaoIrTopo);
      if baseCalculo > 2826.65 {
        assert PorDeducao(baseCalculo, f[1..], AliquotaIrTopo, DeducaoIrTopo) == PorDeducao(baseCalculo, f[1..][1..], AliquotaIrTopo, DeducaoIrTopo);
        if baseCalculo > 3751.05 {
          assert PorDeducao(baseCalculo, f[1..][1..], AliquotaIrTopo, DeducaoIrTopo)
            == PorDeducao(baseCalculo, f[1..][1..][1..], AliquotaIrTopo, DeducaoIrTopo);
        }
      }
    }
  }

  /** IRRF is not monotone: the rounded deductions of the table make it drop
      just above 2826.65, from 42.55875 to 42.55825 at 2826.655. */
  lemma IrrfNaoMonotona()
    ensures exists a: real, b: real :: a < b && Irrf(a) > Irrf(b)
  {
    assert Irrf(2826.65) == 42.55875;
    assert Irrf(2826.655) == 42.55825;
  }
}
