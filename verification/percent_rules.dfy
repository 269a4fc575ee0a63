/** The percentage rule handlers of
    libsmartcalc/src/worker/rules/percent_rules.rs: "p% of n",
    "part is what % of total" and "n is p% of what". */
module PercentRules {
  import opened Wrappers
  import opened Types
  import opened RuleFields

  /** `percent_calculator`: p percent of a number. */
  function PercentCalculator(tools: Tools, fields: FieldMap): (r: Result<TokenType, string>)
    ensures !("p" in fields && "number" in fields) ==> r == Err("Percent not valid")
    ensures "p" in fields && "number" in fields && tools.getNumber("number", fields).None? ==>
      r == Err("Number information not valid")
    ensures ("p" in fields && "number" in fields && tools.getNumber("number", fields).Some? &&
             tools.getPercent("p", fields).None?) ==> r == Err("Percent information not valid")
    ensures r.Ok? <==>
      "p" in fields && "number" in fields &&
      tools.getNumber("number", fields).Some? && tools.getPercent("p", fields).Some?
    ensures r.Ok? ==>
      r.value == TokenType.Number(tools.getPercent("p", fields).value * tools.getNumber("number", fields).value / 100.0)
  {
    if "p" in fields && "number" in fields then
      match tools.getNumber("number", fields)
      case None => Err("Number information not valid")
      case Some(number) =>
        match tools.getPercent("p", fields)
        case None => Err("Percent information not valid")
        case Some(percent) =>
          var amount := (percent * number) / 100.0;
          assert amount == tools.getPercent("p", fields).value * tools.getNumber("number", fields).value / 100.0;
          Ok(TokenType.Number(amount))
    else
      Err("Percent not valid")
  }

  /** The source divides by `total` without a guard; over the reals that
      division is undefined, so a readable total must not be zero whenever
      the division is reached. */
  predicate TotalIsNonZero(tools: Tools, fields: FieldMap)
  {
    "part" in fields && "total" in fields &&
    tools.getNumberOrPrice("total", fields).Some? && tools.getNumberOrPrice("part", fields).Some?
    ==> tools.getNumberOrPrice("total", fields).value != 0.0
  }

  /** `find_numbers_percent`: which percentage of `total` is `part`. The
      total is read before the part. */
  function FindNumbersPercent(tools: Tools, fields: FieldMap): (r: Result<TokenType, string>)
    requires TotalIsNonZero(tools, fields)
    ensures !("part" in fields && "total" in fields) ==> r == Err("Find percent not valid")
    ensures "part" in fields && "total" in fields && tools.getNumberOrPrice("total", fields).None? ==>
      r == Err("Total number information not valid")
    ensures ("part" in fields && "total" in fields && tools.getNumberOrPrice("total", fields).Some? &&
             tools.getNumberOrPrice("part", fields).None?) ==> r == Err("Part number information not valid")
    ensures r.Ok? <==>
      "part" in fields && "total" in fields &&
      tools.getNumberOrPrice("total", fields).Some? && tools.getNumberOrPrice("part", fields).Some?
    ensures r.Ok? ==>
      r.value.Percent? &&
      r.value.value * tools.getNumberOrPrice("total", fields).value == tools.getNumberOrPrice("part", fields).value * 100.0
  {
    if "part" in fields && "total" in fields then
      match tools.getNumberOrPrice("total", fields)
      case None => Err("Total number information not valid")
      case Some(total) =>
        match tools.getNumberOrPrice("part", fields)
        case None => Err("Part number information not valid")
        case Some(part) => Ok(TokenType.Percent((part * 100.0) / total))
    else
      Err("Find percent not valid")
  }

  /** The same unguarded division, by the percent of "n is p% of what". */
  predicate PercentPartIsNonZero(tools: Tools, fields: FieldMap)
  {
    "number_part" in fields && "percent_part" in fields &&
    tools.getNumberOrPrice("number_part", fields).Some? && tools.getPercent("percent_part", fields).Some?
    ==> tools.getPercent("percent_part", fields).value != 0.0
  }

  /** `find_total_from_percent`: the total of which `number_part` is
      `percent_part` percent, as money when the number carried a currency. */
  function FindTotalFromPercent(tools: Tools, fields: FieldMap): (r: Result<TokenType, string>)
    requires PercentPartIsNonZero(tools, fields)
    ensures !("number_part" in fields && "percent_part" in fields) ==> r == Err("Find percent not valid")
    ensures ("number_part" in fields && "percent_part" in fields &&
             tools.getNumberOrPrice("number_part", fields).None?) ==> r == Err("Number part information not valid")
    ensures ("number_part" in fields && "percent_part" in fields &&
             tools.getNumberOrPrice("number_part", fields).Some? && tools.getPercent("percent_part", fields).None?) ==>
      r == Err("Percent part information not valid")
    ensures r.Ok? <==>
      "number_part" in fields && "percent_part" in fields &&
      tools.getNumberOrPrice("number_part", fields).Some? && tools.getPercent("percent_part", fields).Some?
    ensures r.Ok? ==>
      (r.value.Money? <==> tools.getCurrency("number_part", fields).Some?) &&
      (r.value.Number? <==> tools.getCurrency("number_part", fields).None?) &&
      (r.value.Money? ==> r.value.currency == tools.getCurrency("number_part", fields).value) &&
      r.value.value * tools.getPercent("percent_part", fields).value ==
        tools.getNumberOrPrice("number_part", fields).value * 100.0
  {
    if "number_part" in fields && "percent_part" in fields then
      match tools.getNumberOrPrice("number_part", fields)
      case None => Err("Number part information not valid")
      case Some(numberPart) =>
        match tools.getPercent("percent_part", fields)
        case None => Err("Percent part information not valid")
        case Some(percentPart) =>
          Ok(WithCurrency((numberPart * 100.0) / percentPart, tools.getCurrency("number_part", fields)))
    else
      Err("Find percent not valid")
  }

  // ---------------------------------------------------------------------
  // Round trips between the handlers
  // ---------------------------------------------------------------------

  /** "n is p% of what" inverts "p% of x": taking p percent of the total it
      finds gives back n. */
  lemma TotalFromPercentInverts(tools: Tools, fields: FieldMap, again: FieldMap)
    requires PercentPartIsNonZero(tools, fields)
    requires FindTotalFromPercent(tools, fields).Ok?
    requires "p" in again && "number" in again
    requires tools.getPercent("p", again) == tools.getPercent("percent_part", fields)
    requires tools.getNumber("number", again) == Some(Amount(FindTotalFromPercent(tools, fields).value))
    ensures PercentCalculator(tools, again) == Ok(TokenType.Number(tools.getNumberOrPrice("number_part", fields).value))
  {
    var n := tools.getNumberOrPrice("number_part", fields).value;
    var p := tools.getPercent("percent_part", fields).value;
    var total := Amount(FindTotalFromPercent(tools, fields).value);
    assert total == (n * 100.0) / p;
    assert p * total / 100.0 == n;
    assert tools.getPercent("p", again).value == p && tools.getNumber("number", again).value == total;
    assert PercentCalculator(tools, again).value.value == p * total / 100.0;
  }

  /** "part is what % of total" inverts "p% of total": the percentage it
      finds, taken of the total, gives back the part. */
  lemma NumbersPercentInverts(tools: Tools, fields: FieldMap, again: FieldMap)
    requires TotalIsNonZero(tools, fields)
    requires FindNumbersPercent(tools, fields).Ok?
    requires "p" in again && "number" in again
    requires tools.getPercent("p", again) == Some(FindNumbersPercent(tools, fields).value.value)
    requires tools.getNumber("number", again) == tools.getNumberOrPrice("total", fields)
    ensures PercentCalculator(tools, again) == Ok(TokenType.Number(tools.getNumberOrPrice("part", fields).value))
  {
    var total := tools.getNumberOrPrice("total", fields).value;
    var part := tools.getNumberOrPrice("part", fields).value;
    var q := FindNumbersPercent(tools, fields).value.value;
    assert q * total / 100.0 == part;
    assert tools.getPercent("p", again).value == q && tools.getNumber("number", again).value == total;
    assert PercentCalculator(tools, again).value.value == q * total / 100.0;
  }

  // ---------------------------------------------------------------------
  // The source's unit tests, as facts about the handlers
  // ---------------------------------------------------------------------

  /** "20 is 10% of what" gives 200 and "180 is 10% of what" gives 1800. */
  lemma TotalFromPercentExamples(tools: Tools, fields: FieldMap)
    requires "number_part" in fields && "percent_part" in fields
    requires tools.getPercent("percent_part", fields) == Some(10.0)
    requires tools.getCurrency("number_part", fields) == None
    ensures tools.getNumberOrPrice("number_part", fields) == Some(20.0) ==>
      FindTotalFromPercent(tools, fields) == Ok(TokenType.Number(200.0))
    ensures tools.getNumberOrPrice("number_part", fields) == Some(180.0) ==>
      FindTotalFromPercent(tools, fields) == Ok(TokenType.Number(1800.0))
  {
  }

  /** "15 is what % of 100" gives 15%. */
  lemma NumbersPercentExample(tools: Tools, fields: FieldMap)
    requires "part" in fields && "total" in fields
    requires tools.getNumberOrPrice("part", fields) == Some(15.0)
    requires tools.getNumberOrPrice("total", fields) == Some(100.0)
    ensures FindNumbersPercent(tools, fields) == Ok(TokenType.Percent(15.0))
  {
  }
}
