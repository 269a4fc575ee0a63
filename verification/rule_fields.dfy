/** What a rule handler receives: the tokens its pattern captured, keyed by
    field name, and the readers of `worker::tools` that interpret them. The
    readers' code is not part of this model, so they are parameters: every
    property below holds whatever they return. */
module RuleFields {
  import opened Wrappers
  import opened Types

  /** The captured fields, `BTreeMap<String, &TokenLocation>`. */
  type FieldMap = map<string, TokenLocation>

  /** The readers `get_number`, `get_percent`, `get_number_or_price` and
      `get_currency`; each looks a field up by name and may fail. */
  datatype Tools = Tools(
    getNumber: (string, FieldMap) -> Option<real>,
    getPercent: (string, FieldMap) -> Option<real>,
    getNumberOrPrice: (string, FieldMap) -> Option<real>,
    getCurrency: (string, FieldMap) -> Option<string>)

  /** A computed amount as a token: money in the given currency, or a plain
      number when there is none. */
  function WithCurrency(amount: real, currency: Option<string>): (r: TokenType)
    ensures r.Money? <==> currency.Some?
    ensures r.Number? <==> currency.None?
    ensures r.value == amount
    ensures r.Money? ==> r.currency == currency.value
  {
    match currency
    case Some(c) => TokenType.Money(amount, c)
    case None => TokenType.Number(amount)
  }

  /** The amount a number or money token carries. */
  function Amount(t: TokenType): real
    requires t.Number? || t.Money? || t.Percent?
  {
    t.value
  }
}
