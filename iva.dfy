/** The VAT (IVA) codec: every net/VAT breakdown of a tax-inclusive amount in
    the system is the division by IVA_FACTOR written here. Amounts are exact
    reals; rounding only ever happens when a value is displayed. */
module Iva {

  /** Chilean VAT rate (19%) and the factor that turns a net amount into a
      tax-inclusive one. */
  const IVA_RATE: real := 0.19
  const IVA_FACTOR: real := 1.0 + IVA_RATE

  /** A tax-inclusive amount split into its net part and its VAT part. */
  datatype Desglose = Desglose(neto: real, iva: real)

  /** The net part of a tax-inclusive amount: `total / IVA_FACTOR`. */
  function Neto(conIva: real): (n: real)
    ensures n * IVA_FACTOR == conIva
    ensures conIva > 0.0 ==> 0.0 < n < conIva
  {
    conIva / IVA_FACTOR
  }

  /** `neto = total / IVA_FACTOR`, `iva = total - neto`. */
  function Desglosar(conIva: real): (d: Desglose)
    ensures d.neto + d.iva == conIva
    ensures d.neto * IVA_FACTOR == conIva
    ensures d.iva == d.neto * IVA_RATE
    ensures conIva > 0.0 ==> d.neto > 0.0 && d.iva > 0.0
  {
    var n := Neto(conIva);
    Desglose(n, conIva - n)
  }

  /** A stored net amount shown with VAT included (`neto * IVA_FACTOR`). */
  function ConIva(neto: real): (g: real)
    ensures Neto(g) == neto
  {
    neto * IVA_FACTOR
  }

  /** Splitting and then re-adding VAT gives back the tax-inclusive amount,
      and adding VAT to a net amount and splitting it again gives back the
      net amount. */
  lemma RoundTrip(conIva: real, neto: real)
    ensures ConIva(Desglosar(conIva).neto) == conIva
    ensures Desglosar(ConIva(neto)).neto == neto
  {
  }

  /** The VAT part is always the same share, 0.19/1.19, of the gross amount. */
  lemma ShareOfVat(conIva: real)
    ensures Desglosar(conIva).iva * IVA_FACTOR == conIva * IVA_RATE
  {
  }

  /** The split is linear: splitting `q` units at a tax-inclusive unit price
      gives `q` times the unit's net price. */
  lemma NetoLineal(cantidad: int, precioConIva: real)
    ensures Neto(cantidad as real * precioConIva) == cantidad as real * Neto(precioConIva)
  {
    var q := cantidad as real;
    calc {
      Neto(q * precioConIva) * IVA_FACTOR;
      q * precioConIva;
      { assert precioConIva == Neto(precioConIva) * IVA_FACTOR; }
      q * (Neto(precioConIva) * IVA_FACTOR);
      (q * Neto(precioConIva)) * IVA_FACTOR;
    }
  }

  /** Two sale totals worked through the split: 2 units at 1190 give net 2000
      and VAT 380; a 11900 expense gives net 10000 and VAT 1900. */
  lemma Ejemplos()
    ensures Desglosar(2.0 * 1190.0) == Desglose(2000.0, 380.0)
    ensures Desglosar(11900.0) == Desglose(10000.0, 1900.0)
  {
  }
}
