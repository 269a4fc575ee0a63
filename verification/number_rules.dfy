/** The "p% on n", "p% of n" and "p% off n" rule handlers of
    libsmartcalc/src/worker/rules/number_rules.rs. All three read the
    number (or price) field `number` and the percent field `p` the same way
    and differ only in the amount they compute; the result is money when
    `number` carried a currency and a plain number otherwise. */
module NumberRules {
  import opened Wrappers
  import opened Types
  import opened RuleFields

  /** The number and the percent, read in the source's order, or the error
      the handlers return for the first check that fails. */
  function ReadNumberAndPercent(tools: Tools, fields: FieldMap): (r: Result<(real, real), string>)
    ensures !("number" in fields && "p" in fields) ==> r == Err("Number type not valid")
    ensures ("number" in fields && "p" in fields && tools.getNumberOrPrice("number", fields).None?) ==>
      r == Err("Number information not valid")
    ensures ("number" in fields && "p" in fields && tools.getNumberOrPrice("number", fields).Some? &&
             tools.getPercent("p", fields).None?) ==> r == Err("Percent information not valid")
    ensures r.Ok? <==>
      "number" in fields && "p" in fields &&
      tools.getNumberOrPrice("number", fields).Some? && tools.getPercent("p", fields).Some?
    ensures r.Ok? ==>
      r.value.0 == tools.getNumberOrPrice("number", fields).value && r.value.1 == tools.getPercent("p", fields).value
  {
    if "number" in fields && "p" in fields then
      match tools.getNumberOrPrice("number", fields)
      case None => Err("Number information not valid")
      case Some(number) =>
        match tools.getPercent("p", fields)
        case None => Err("Percent information not valid")
        case Some(percent) => Ok((number, percent))
    else
      Err("Number type not valid")
  }

  /** `number_on`: n increased by p percent of itself. */
  function NumberOn(tools: Tools, fields: FieldMap): (r: Result<TokenType, string>)
    ensures r.Err? <==> ReadNumberAndPercent(tools, fields).Err?
    ensures r.Err? ==> r.error == ReadNumberAndPercent(tools, fields).error
    ensures r.Ok? ==>
      var (n, p) := ReadNumberAndPercent(tools, fields).value;
      r.value == WithCurrency(n + n * p / 100.0, tools.getCurrency("number", fields))
  {
    match ReadNumberAndPercent(tools, fields)
    case Err(e) => Err(e)
    case Ok((number, percent)) =>
      var calculated := number + ((number * percent) / 100.0);
      Ok(WithCurrency(calculated, tools.getCurrency("number", fields)))
  }

  /** `number_of`: p percent of n. */
  function NumberOf(tools: Tools, fields: FieldMap): (r: Result<TokenType, string>)
    ensures r.Err? <==> ReadNumberAndPercent(tools, fields).Err?
    ensures r.Err? ==> r.error == ReadNumberAndPercent(tools, fields).error
    ensures r.Ok? ==>
      var (n, p) := ReadNumberAndPercent(tools, fields).value;
      r.value == WithCurrency(n * p / 100.0, tools.getCurrency("number", fields))
  {
    match ReadNumberAndPercent(tools, fields)
    case Err(e) => Err(e)
    case Ok((number, percent)) =>
      var calculated := (number * percent) / 100.0;
      Ok(WithCurrency(calculated, tools.getCurrency("number", fields)))
  }

  /** `number_off`: n decreased by p percent of itself. */
  function NumberOff(tools: Tools, fields: FieldMap): (r: Result<TokenType, string>)
    ensures r.Err? <==> ReadNumberAndPercent(tools, fields).Err?
    ensures r.Err? ==> r.error == ReadNumberAndPercent(tools, fields).error
    ensures r.Ok? ==>
      var (n, p) := ReadNumberAndPercent(tools, fields).value;
      r.value == WithCurrency(n - n * p / 100.0, tools.getCurrency("number", fields))
  {
    match ReadNumberAndPercent(tools, fields)
    case Err(e) => Err(e)
    case Ok((number, percent)) =>
      var calculated := number - ((number * percent) / 100.0);
      Ok(WithCurrency(calculated, tools.getCurrency("number", fields)))
  }

  // ---------------------------------------------------------------------
  // How the three handlers relate
  // ---------------------------------------------------------------------

  /** "on" adds and "off" subtracts exactly the "of" amount, so the two
      together make twice the number; all three agree on success, on the
      error and on the currency tag. */
  lemma OnOfOffRelation(tools: Tools, fields: FieldMap)
    ensures NumberOn(tools, fields).Ok? <==> NumberOf(tools, fields).Ok?
    ensures NumberOff(tools, fields).Ok? <==> NumberOf(tools, fields).Ok?
    ensures NumberOf(tools, fields).Err? ==>
      NumberOn(tools, fields) == NumberOf(tools, fields) == NumberOff(tools, fields)
    ensures NumberOf(tools, fields).Ok? ==>
      var n := tools.getNumberOrPrice("number", fields).value;
      var on, of, off := NumberOn(tools, fields).value, NumberOf(tools, fields).value, NumberOff(tools, fields).value;
      && (on.Money? <==> of.Money?) && (off.Money? <==> of.Money?)
      && (of.Money? ==> on.currency == of.currency == off.currency)
      && Amount(on) == n + Amount(of)
      && Amount(off) == n - Amount(of)
      && Amount(on) + Amount(off) == 2.0 * n
  {
  }

  /** With a zero percent "on" and "off" leave the number as it is and "of"
      is zero. */
  lemma ZeroPercent(tools: Tools, fields: FieldMap)
    requires NumberOf(tools, fields).Ok?
    requires tools.getPercent("p", fields) == Some(0.0)
    ensures Amount(NumberOn(tools, fields).value) == tools.getNumberOrPrice("number", fields).value
    ensures Amount(NumberOff(tools, fields).value) == tools.getNumberOrPrice("number", fields).value
    ensures Amount(NumberOf(tools, fields).value) == 0.0
  {
  }

  /** "6% on 40" is 42.4, "6% of 40" is 2.4 and "6% off 40" is 37.6. */
  lemma SixPercentOfForty(tools: Tools, fields: FieldMap)
    requires "number" in fields && "p" in fields
    requires tools.getNumberOrPrice("number", fields) == Some(40.0)
    requires tools.getPercent("p", fields) == Some(6.0)
    requires tools.getCurrency("number", fields) == None
    ensures NumberOn(tools, fields) == Ok(TokenType.Number(42.4))
    ensures NumberOf(tools, fields) == Ok(TokenType.Number(2.4))
    ensures NumberOff(tools, fields) == Ok(TokenType.Number(37.6))
  {
  }
}
