/** Realized-PnL money values as the backtest engine reports them
    (`"1,234.50 USD"`, `"-87.20 CNY"`), and the two ways the scripts turn
    them back into numbers. */
module Money {
  import opened Wrappers
  import opened Text

  /** A decimal amount: a sign, the integer digits and the fraction digits
      (none for a currency printed without decimals). */
  datatype Amount = Amount(negative: bool, whole: string, frac: string)

  predicate ValidAmount(a: Amount)
  {
    a.whole != [] && AllDigits(a.whole) && AllDigits(a.frac)
  }

  function AmountValue(a: Amount): real
    requires ValidAmount(a)
  {
    var m := LiteralValue(a.whole, a.frac);
    if a.negative then -m else m
  }

  /** Integer digits with a ',' between every group of three, counted from
      the right: `"1234567"` becomes `"1,234,567"`. */
  function Grouped(ds: string): (r: string)
    requires AllDigits(ds)
    ensures forall i :: 0 <= i < |r| ==> IsDigit(r[i]) || r[i] == ','
    ensures |ds| > 3 ==> ',' in r
    decreases |ds|
  {
    if |ds| <= 3 then ds
    else
      var head := Grouped(ds[..|ds| - 3]);
      var r := head + "," + ds[|ds| - 3..];
      assert r[|head|] == ',';
      r
  }

  /** The amount as printed, with or without thousands separators. */
  function AmountText(a: Amount, grouped: bool): string
    requires ValidAmount(a)
  {
    (if a.negative then "-" else "")
    + (if grouped then Grouped(a.whole) else a.whole)
    + (if a.frac == [] then "" else "." + a.frac)
  }

  /** A money value as printed: amount, one space, currency code. */
  function MoneyText(a: Amount, currency: string, grouped: bool): string
    requires ValidAmount(a)
  {
    AmountText(a, grouped) + " " + currency
  }

  /** A `realized_pnl` cell: either the engine's text form or a number. */
  datatype Realized = Str(s: string) | Num(v: real)

  /** The `pnl_numeric` conversion of the quickstart report: a string has every
      " USD" and then every "," deleted and the rest read by `float`; a number
      is taken as it is. None where `float` raises. */
  function ParsePnl(x: Realized): (r: Option<real>)
    ensures x.Num? ==> r == Some(x.v)
    ensures x.Str? && r.Some? ==> x.s != []
  {
    match x
    case Str(s) => ParseFloat(Remove(Remove(s, " USD"), ","))
    case Num(v) => Some(v)
  }

  /** The A-share report's conversion: `float(str(pnl).split()[0])`, the
      number in the first whitespace-separated token. None where the
      indexing or `float` raises. */
  function ParseToken(s: string): (r: Option<real>)
    ensures (forall i :: 0 <= i < |s| ==> IsSpace(s[i])) ==> r.None?
    ensures r.Some? ==> exists k: nat, t :: TokenAt(s, k, t) && t != [] && ParseFloat(t) == r
    ensures forall k: nat, t :: TokenAt(s, k, t) && t != [] && NoSpace(t) ==> r == ParseFloat(t)
  {
    FirstTokenUnique(s);
    match FirstToken(s)
    case None => None
    case Some(t) => ParseFloat(t)
  }

  // -------------------------------------------------------------- lemmas

  /** A digit string holds no separator, sign or space. */
  lemma DigitsFree(ds: string)
    requires AllDigits(ds)
    ensures ',' !in ds && ' ' !in ds && '.' !in ds && NoSpace(ds)
  {
  }

  /** Deleting the separators restores the digits. */
  lemma {:induction false} UngroupDigits(ds: string)
    requires AllDigits(ds)
    ensures Remove(Grouped(ds), ",") == ds
    decreases |ds|
  {
    if |ds| <= 3 {
      DigitsFree(ds);
      RemoveAbsent(ds, ',');
    } else {
      var head, tail := ds[..|ds| - 3], ds[|ds| - 3..];
      assert Grouped(ds) == Grouped(head) + ("," + tail);
      UngroupDigits(head);
      UngroupStep(Grouped(head), head, tail);
      assert ds == head + tail;
    }
  }

  /** One more separator and group of digits is deleted down to the digits. */
  lemma UngroupStep(g: string, head: string, tail: string)
    requires AllDigits(tail) && Remove(g, ",") == head
    ensures Remove(g + ("," + tail), ",") == head + tail
  {
    RemoveCharConcat(g, "," + tail, ',');
    RemoveCharConcat(",", tail, ',');
    DigitsFree(tail);
    RemoveAbsent(tail, ',');
    assert Remove(",", [',']) == [] by {
      assert ","[..1] == [','];
      assert ","[1..] == [];
    }
  }

  /** The unsigned body of an amount (no sign) reads back as its magnitude. */
  lemma ParseAmountBody(a: Amount)
    requires ValidAmount(a)
    ensures ParseUnsigned(a.whole + (if a.frac == [] then "" else "." + a.frac))
         == Some(LiteralValue(a.whole, a.frac))
  {
    if a.frac == [] {
      assert a.whole + "" == a.whole;
      ParseUnsignedWhole(a.whole);
    } else {
      assert a.whole + ("." + a.frac) == a.whole + "." + a.frac;
      ParseUnsignedLiteral(a.whole, a.frac);
    }
  }

  /** The printed amount without separators is read by `float` as the
      amount's value. */
  lemma ParseAmountText(a: Amount)
    requires ValidAmount(a)
    ensures ParseFloat(AmountText(a, false)) == Some(AmountValue(a))
  {
    ParseAmountBody(a);
    if a.negative {
      ParseNegativeText(a);
    } else {
      ParsePositiveText(a);
    }
  }

  lemma ParseNegativeText(a: Amount)
    requires ValidAmount(a) && a.negative
    requires ParseUnsigned(a.whole + (if a.frac == [] then "" else "." + a.frac))
          == Some(LiteralValue(a.whole, a.frac))
    ensures ParseFloat(AmountText(a, false)) == Some(AmountValue(a))
  {
    var body := a.whole + (if a.frac == [] then "" else "." + a.frac);
    assert AmountText(a, false) == "-" + body;
    ParseFloatNegative(body);
  }

  lemma ParsePositiveText(a: Amount)
    requires ValidAmount(a) && !a.negative
    requires ParseUnsigned(a.whole + (if a.frac == [] then "" else "." + a.frac))
          == Some(LiteralValue(a.whole, a.frac))
    ensures ParseFloat(AmountText(a, false)) == Some(AmountValue(a))
  {
    var body := a.whole + (if a.frac == [] then "" else "." + a.frac);
    assert AmountText(a, false) == body;
    assert body[0] == a.whole[0];
    ParseFloatUnsigned(body);
  }

  /** Deleting every "," from either printed form of an amount leaves the
      form without separators. */
  lemma UngroupAmountText(a: Amount, grouped: bool)
    requires ValidAmount(a)
    ensures Remove(AmountText(a, grouped), ",") == AmountText(a, false)
  {
    var sign := if a.negative then "-" else "";
    var w := if grouped then Grouped(a.whole) else a.whole;
    var fracPart := if a.frac == [] then "" else "." + a.frac;
    assert AmountText(a, grouped) == sign + (w + fracPart);
    assert AmountText(a, false) == sign + (a.whole + fracPart);
    RemoveCharConcat(sign, w + fracPart, ',');
    RemoveCharConcat(w, fracPart, ',');
    if grouped {
      UngroupDigits(a.whole);
    } else {
      DigitsFree(a.whole);
      RemoveCharSpec(a.whole, ',');
    }
    RemoveCharSpec(sign, ',');
    DigitsFree(a.frac);
    assert ',' !in fracPart by {
      if a.frac != [] { assert fracPart == ['.'] + a.frac; }
    }
    RemoveCharSpec(fracPart, ',');
  }

  /** Neither printed form of an amount contains a space. */
  lemma AmountTextNoSpace(a: Amount, grouped: bool)
    requires ValidAmount(a)
    ensures NoSpace(AmountText(a, grouped)) && ' ' !in AmountText(a, grouped)
    ensures AmountText(a, grouped) != []
  {
    var t := AmountText(a, grouped);
    var w := if grouped then Grouped(a.whole) else a.whole;
    var sign := if a.negative then "-" else "";
    var fracPart := if a.frac == [] then "" else "." + a.frac;
    assert t == sign + w + fracPart;
    assert w != [] by { if grouped { assert |Grouped(a.whole)| > 0 by { GroupedNonEmpty(a.whole); } } }
    forall i | 0 <= i < |t| ensures !IsSpace(t[i]) {
      if i < |sign| { assert t[i] == '-'; }
      else if i < |sign| + |w| { assert t[i] == w[i - |sign|]; }
      else if i == |sign| + |w| { assert t[i] == '.'; }
      else { assert t[i] == a.frac[i - |sign| - |w| - 1]; }
    }
  }

  lemma GroupedNonEmpty(ds: string)
    requires ds != [] && AllDigits(ds)
    ensures Grouped(ds) != []
  {
  }

  /** The quickstart conversion reads every "<amount> USD" string, with or
      without separators, as the amount's value. */
  lemma ParsePnlOfMoneyText(a: Amount, grouped: bool)
    requires ValidAmount(a)
    ensures ParsePnl(Str(MoneyText(a, "USD", grouped))) == Some(AmountValue(a))
  {
    var t := AmountText(a, grouped);
    assert MoneyText(a, "USD", grouped) == t + " USD";
    AmountTextNoSpace(a, grouped);
    RemoveSuffix(t, " USD");
    UngroupAmountText(a, grouped);
    ParseAmountText(a);
  }

  /** The A-share conversion reads "<amount> <currency>", printed without
      separators, as the amount's value, whatever the currency. */
  lemma ParseTokenOfMoneyText(a: Amount, currency: string)
    requires ValidAmount(a)
    ensures ParseToken(MoneyText(a, currency, false)) == Some(AmountValue(a))
  {
    AmountTextNoSpace(a, false);
    FirstTokenOfWord(AmountText(a, false), currency);
    ParseAmountText(a);
  }

  /** The example of the quickstart report: "1,234.50 USD" reads as 1234.50. */
  lemma ParsePnlExample()
    ensures ParsePnl(Str("1,234.50 USD")) == Some(1234.50)
  {
    var a := Amount(false, "1234", "50");
    ExampleText();
    ParsePnlOfMoneyText(a, true);
    ExampleValue();
  }

  lemma ExampleText()
    ensures ValidAmount(Amount(false, "1234", "50"))
    ensures MoneyText(Amount(false, "1234", "50"), "USD", true) == "1,234.50 USD"
  {
    var a := Amount(false, "1234", "50");
    assert ValidAmount(a);
    assert Grouped("1234") == "1,234" by {
      assert "1234"[..1] == "1";
      assert "1234"[1..] == "234";
      assert Grouped("1") == "1";
    }
    assert AmountText(a, true) == "1,234" + ".50";
  }

  lemma Digits1234()
    ensures DigitsValue("1234") == 1234
  {
    assert "1"[..0] == "";
    assert DigitsValue("1") == 1;
    assert "12"[..1] == "1";
    assert DigitsValue("12") == 12;
    assert "123"[..2] == "12";
    assert DigitsValue("123") == 123;
    assert "1234"[..3] == "123";
  }

  lemma Digits50()
    ensures DigitsValue("50") == 50
  {
    assert "5"[..0] == "";
    assert DigitsValue("5") == 5;
    assert "50"[..1] == "5";
  }

  lemma ExampleValue()
    ensures ValidAmount(Amount(false, "1234", "50"))
    ensures AmountValue(Amount(false, "1234", "50")) == 1234.50
  {
    Digits1234();
    Digits50();
    assert Pow10(2) == 100;
    assert LiteralValue("1234", "50") == 1234.0 + 50.0 / 100.0;
  }
}
