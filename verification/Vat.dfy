/** `split_vat` of apps/billing/invoices.py.  Money is in cents; the rate is the decimal
    `vat_rate() / 100`, so 12 per cent is Decimal(12, 2). */
module Vat {
  import opened Decimals

  datatype Split = Split(subtotal: nat, vat: int, total: nat)

  /** total / (1 + rate), to the cent. */
  function Extract(total: nat, rate: Decimal): nat {
    ToCents(Quotient(Shift(total, rate.scale), 100 * (Pow10(rate.scale) + rate.coefficient)))
  }

  /** The tax on a subtotal, to the cent. */
  function TaxOn(subtotal: nat, rate: Decimal): nat {
    HalfUp(subtotal * rate.coefficient, Pow10(rate.scale))
  }

  /** (subtotal, vat, total) for an amount; `included` says that prices contain the tax. */
  function SplitVat(amount: Decimal, rate: Decimal, included: bool): Split {
    if rate.coefficient == 0 then Split(ToCents(amount), 0, ToCents(amount))
    else if included then
      var total := ToCents(amount);
      Split(Extract(total, rate), total - Extract(total, rate), total)
    else
      var subtotal := ToCents(amount);
      Split(subtotal, TaxOn(subtotal, rate), subtotal + TaxOn(subtotal, rate))
  }

  function Cents(n: nat): Decimal {
    Decimal(n, 2)
  }

  lemma WholeCents(n: nat)
    ensures ToCents(Cents(n)) == n
  {
    assert Pow10(2) == 100 by {
      assert Pow10(1) == 10;
    }
    HalfUpIs(100 * n, 100, n);
  }

  /** Extraction, on the exact quotient: the 28 digits in between lose nothing. */
  lemma ExtractedSubtotal(total: nat, rate: Decimal)
    requires total * Pow10(rate.scale) < SAFE
    ensures var one := Pow10(rate.scale);
            Extract(total, rate) == HalfUp(total * one, one + rate.coefficient)
  {
    var one := Pow10(rate.scale);
    ShiftIs(total, rate.scale);
    DoubleRounding(total * one, 100 * (one + rate.coefficient));
    HalfUpScales(total * one, one + rate.coefficient, 100);
  }

  /** The document adds up on either side of the tax, no part of it is negative, and the
      amount given is the side it was quoted on. */
  lemma SplitAddsUp(amount: Decimal, rate: Decimal, included: bool)
    requires included && rate.coefficient > 0 ==> ToCents(amount) * Pow10(rate.scale) < SAFE
    ensures var s := SplitVat(amount, rate, included);
            && s.subtotal + s.vat == s.total && s.vat >= 0
            && (rate.coefficient == 0 ==> s.vat == 0)
            && (included || rate.coefficient == 0 ==> s.total == ToCents(amount))
            && (!included || rate.coefficient == 0 ==> s.subtotal == ToCents(amount))
  {
    if rate.coefficient > 0 && included {
      ExtractedWithinHalfCent(ToCents(amount), rate);
    }
  }

  /** The extracted base is the cent nearest to total / (1 + rate), within half a cent of it,
      and no more than the total. */
  lemma ExtractedWithinHalfCent(total: nat, rate: Decimal)
    requires rate.coefficient > 0 && total * Pow10(rate.scale) < SAFE
    ensures var one, subtotal := Pow10(rate.scale), Extract(total, rate);
            && -(one + rate.coefficient) <= 2 * (total * one) - (one + rate.coefficient) * (2 * subtotal)
                                         <= one + rate.coefficient
            && subtotal <= total
  {
    ExtractedSubtotal(total, rate);
    NearestBase(total, Pow10(rate.scale), rate.coefficient);
  }

  lemma NearestBase(total: nat, one: nat, r: nat)
    requires one > 0 && r > 0
    ensures total * one >= 0
    ensures var subtotal := HalfUp(total * one, one + r);
            && -(one + r) <= 2 * (total * one) - (one + r) * (2 * subtotal) <= one + r
            && subtotal <= total
  {
    var subtotal := HalfUp(total * one, one + r);
    HalfUpIs(total * one, one + r, subtotal);
    NotAbove(total, subtotal, one, r);
  }

  lemma NotAbove(total: nat, subtotal: nat, one: nat, r: nat)
    requires one > 0 && r > 0 && (one + r) * (2 * subtotal) <= 2 * (total * one) + (one + r)
    ensures subtotal <= total
  {
    var d := one + r;
    MulLeq(total, one, d);
    assert total * d == d * total;
    MulTwice(d, total);
    MulSum(d, 2 * total, 2);
    FactorLess(d, 2 * subtotal, 2 * total + 2);
  }

  /** VAT round trip: adding the tax to an amount and extracting it again from the total gives
      back the same subtotal, tax and total, at any positive rate. */
  lemma AddedVatIsExtracted(amount: Decimal, rate: Decimal)
    requires rate.coefficient > 0
    requires SplitVat(amount, rate, false).total * Pow10(rate.scale) < SAFE
    ensures var added := SplitVat(amount, rate, false);
            SplitVat(Cents(added.total), rate, true) == added
  {
    var added := SplitVat(amount, rate, false);
    WholeCents(added.total);
    ExtractedSubtotal(added.total, rate);
    Undone(added.subtotal, Pow10(rate.scale), rate.coefficient);
  }

  lemma Undone(subtotal: nat, one: nat, r: nat)
    requires one > 0 && r > 0
    ensures HalfUp((subtotal + HalfUp(subtotal * r, one)) * one, one + r) == subtotal
  {
    var vat := HalfUp(subtotal * r, one);
    HalfUpIs(subtotal * r, one, vat);
    HalfUpIs((subtotal + vat) * one, one + r, subtotal);
    assert one * (2 * vat) == 2 * (vat * one) by {
      MulTwice(one, vat);
    }
    assert (subtotal + vat) * one == subtotal * one + vat * one by {
      MulSum(one, subtotal, vat);
    }
    assert (one + r) * (2 * subtotal) == 2 * (subtotal * one) + 2 * (subtotal * r) by {
      MulSum(2 * subtotal, one, r);
      MulTwice(subtotal, one);
      MulTwice(subtotal, r);
    }
  }

  /** The added tax is the cent nearest to subtotal times rate, within half a cent of it. */
  lemma AddedWithinHalfCent(amount: Decimal, rate: Decimal)
    requires rate.coefficient > 0
    ensures var s := SplitVat(amount, rate, false);
            var one: int := Pow10(rate.scale);
            -one <= 2 * (s.subtotal * rate.coefficient) - one * (2 * s.vat) <= one
  {
    var s := SplitVat(amount, rate, false);
    HalfUpIs(s.subtotal * rate.coefficient, Pow10(rate.scale), s.vat);
  }
}
