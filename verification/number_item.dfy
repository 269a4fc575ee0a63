/** The number item of the evaluator, `NumberItem` in src/compiler/number.rs.
    This file belongs to a later version of the program in which a number
    token also carries its notation (`TokenType::Number(f64, NumberType)`),
    so it has its own token type here. Other item kinds are shown only as
    far as `calculate` tells them apart. */
module NumberItems {
  import opened Wrappers

  /** The notation a number was written in; it only affects printing. */
  datatype NumberType = Decimal | Binary | Octal | Hexadecimal | Raw

  datatype OperationType = Add | Div | Mul | Sub

  datatype UnaryType = Minus | Plus

  /** `NumberItem(f64, NumberType)`. */
  datatype NumberItem = NumberItem(value: real, kind: NumberType)

  /** The operand of `calculate`: a number item, a percent item, or an item
      of any other kind (money, time, ...), known only by its type name. */
  datatype DataItem =
    | NumberData(number: NumberItem)
    | PercentData(percent: real)
    | OtherData(typeName: string)

  /** `TokenType::Number(f64, NumberType)` of that version. */
  datatype NumberToken = NumberToken(value: real, kind: NumberType)

  /** Code outside this file: `PercentItem::get_number`, the value of a
      percentage relative to the number it is combined with, and
      `do_divition`, the shared division helper. */
  datatype Helpers = Helpers(
    percentOf: (real, NumberItem) -> real,
    divide: (real, real) -> real)

  /** `get_number`: the item's value, whatever it is combined with. */
  function GetNumber(item: NumberItem, other: DataItem): (r: real)
    ensures r == GetUnderlyingNumber(item)
  {
    item.value
  }

  /** `get_underlying_number`. */
  function GetUnderlyingNumber(item: NumberItem): (r: real)
    ensures Unary(item, Minus).value == -r
  {
    item.value
  }

  /** `as_token_type`. */
  function AsTokenType(item: NumberItem): (r: NumberToken)
    ensures r.value == GetUnderlyingNumber(item) && r.kind == item.kind
  {
    NumberToken(item.value, item.kind)
  }

  /** The number the other operand contributes: a number item's own value,
      or a percentage taken relative to `self`. */
  function OtherNumber(h: Helpers, self: NumberItem, other: DataItem): real
    requires !other.OtherData?
  {
    match other
    case NumberData(n) => GetUnderlyingNumber(n)
    case PercentData(p) => h.percentOf(p, self)
  }

  /** `NumberItem::calculate`: `self` is the left operand when `onLeft` and
      the right one otherwise; the result keeps `self`'s notation. */
  function Calculate(h: Helpers, self: NumberItem, onLeft: bool, other: DataItem, op: OperationType): (r: Option<NumberItem>)
    ensures r.None? <==> other.OtherData?
    ensures r.Some? ==> r.value.kind == self.kind
    ensures r.Some? ==>
      var o := OtherNumber(h, self, other);
      match op
      case Add => r.value.value == self.value + o
      case Mul => r.value.value == self.value * o
      case Sub => r.value.value == (if onLeft then self.value - o else o - self.value)
      case Div => r.value.value == (if onLeft then h.divide(self.value, o) else h.divide(o, self.value))
  {
    if other.OtherData? then None
    else
      var otherNumber := OtherNumber(h, self, other);
      var (left, right) := if onLeft then (self.value, otherNumber) else (otherNumber, self.value);
      var result := match op
        case Add => left + right
        case Div => h.divide(left, right)
        case Mul => left * right
        case Sub => left - right;
      Some(NumberItem(result, self.kind))
  }

  /** `NumberItem::unary`: minus negates, plus is the identity; both keep the
      notation. */
  function Unary(item: NumberItem, op: UnaryType): (r: NumberItem)
    ensures r.kind == item.kind
    ensures op == Plus ==> r == item
    ensures op == Minus ==> r.value + item.value == 0.0
  {
    match op
    case Minus => NumberItem(-1.0 * item.value, item.kind)
    case Plus => NumberItem(item.value, item.kind)
  }

  // ---------------------------------------------------------------------
  // Properties of the arithmetic
  // ---------------------------------------------------------------------

  /** The three numeric views of a number item agree, and its token keeps
      the notation. */
  lemma NumberViewsAgree(item: NumberItem, other: DataItem)
    ensures GetNumber(item, other) == GetUnderlyingNumber(item) == AsTokenType(item).value == item.value
    ensures AsTokenType(item).kind == item.kind
  {
  }

  /** Addition and multiplication do not depend on which side `self` is on. */
  lemma CommutativeOperations(h: Helpers, self: NumberItem, other: DataItem, op: OperationType)
    requires op == Add || op == Mul
    ensures Calculate(h, self, true, other, op) == Calculate(h, self, false, other, op)
  {
  }

  /** Subtraction from either side gives opposite results. */
  lemma SubtractionSides(h: Helpers, self: NumberItem, other: DataItem)
    requires !other.OtherData?
    ensures Calculate(h, self, true, other, Sub).value.value == -Calculate(h, self, false, other, Sub).value.value
  {
  }

  /** Between two numbers, `a` computing with `b` on its right and `b`
      computing with `a` on its left give the same value; only the notation
      differs, taken from whichever item computes. */
  lemma OperandOrderConsistent(h: Helpers, a: NumberItem, b: NumberItem, op: OperationType)
    ensures Calculate(h, a, true, NumberData(b), op).value.value == Calculate(h, b, false, NumberData(a), op).value.value
    ensures Calculate(h, a, true, NumberData(b), op).value.kind == a.kind
    ensures Calculate(h, b, false, NumberData(a), op).value.kind == b.kind
  {
  }

  /** A percentage operand counts as `percentOf(p, self)`; division is the
      shared helper applied in operand order. */
  lemma PercentOperand(h: Helpers, self: NumberItem, p: real, onLeft: bool)
    ensures Calculate(h, self, onLeft, PercentData(p), Add) == Some(NumberItem(self.value + h.percentOf(p, self), self.kind))
    ensures Calculate(h, self, onLeft, PercentData(p), Div) ==
      Some(NumberItem(if onLeft then h.divide(self.value, h.percentOf(p, self)) else h.divide(h.percentOf(p, self), self.value), self.kind))
  {
  }

  /** Negating twice gives the item back. */
  lemma DoubleNegation(item: NumberItem)
    ensures Unary(Unary(item, Minus), Minus) == item
  {
  }
}
