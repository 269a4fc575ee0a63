/** Tokens, rule-pattern placeholders and the equality relations between
    them (libsmartcalc/src/types.rs). Rule patterns mix literal tokens with
    typed `Field` placeholders; the equality relations below decide when a
    placeholder stands for a concrete token. */
module Types {
  import opened Wrappers

  /** A chrono `NaiveTime`, kept opaque: only its identity matters here. */
  datatype Clock = Clock(stamp: int)

  /** A chrono `NaiveDateTime`, kept opaque in the same way. */
  datatype Stamp = Stamp(stamp: int)

  /** Placeholder kinds of rule patterns. Every kind but `Group` carries the
      field name under which the handler finds the matched token; `Group`
      carries the word list a text token must belong to. */
  datatype FieldType =
    | Text(name: string)
    | Date(name: string)
    | Time(name: string)
    | Money(name: string)
    | Percent(name: string)
    | Number(name: string)
    | Group(items: seq<string>)
    | NumberOrMoney(name: string)

  /** The semantic value of a token. f64 values are modelled as reals. */
  datatype TokenType =
    | Number(value: real)
    | Text(text: string)
    | Time(time: Clock)
    | Date(date: Stamp)
    | DateTime(dateTime: Stamp)
    | Operator(op: char)
    | Field(field: FieldType)
    | Percent(value: real)
    | Money(value: real, currency: string)
    | Variable(info: VariableInfo)

  /** A token of a rule pattern or of a variable's name. */
  datatype Token = Token(start: nat, end: nat, token: TokenType)

  datatype TokenLocationStatus = Active | Removed

  /** A span of the input text; `tokenType` is `None` while unresolved. */
  datatype TokenLocation = TokenLocation(
    start: nat,
    end: nat,
    tokenType: Option<TokenType>,
    originalText: string,
    status: TokenLocationStatus)

  /** A session variable: the tokens that name it and its stored value. */
  datatype VariableInfo = VariableInfo(
    index: nat,
    name: string,
    tokens: seq<Token>,
    data: BramaAstType)

  /** AST nodes; `Variable` refers to a session variable. `Nothing` is the
      source's `BramaAstType::None`, renamed so that it does not shadow
      `Option.None`. */
  datatype BramaAstType =
    | Nothing
    | Number(value: real)
    | Field(field: FieldType)
    | Percent(value: real)
    | Time(time: Clock)
    | Money(value: real, currency: string)
    | Binary(left: BramaAstType, operator: char, right: BramaAstType)
    | PrefixUnary(unaryOp: char, operand: BramaAstType)
    | Assignment(index: nat, expression: BramaAstType)
    | Symbol(symbol: string)
    | Variable(info: VariableInfo)

  /** The placeholder compatibility table shared by every `==` that compares
      a placeholder with a concrete token. */
  predicate FieldAccepts(f: FieldType, t: TokenType)
  {
    match (f, t)
    case (Percent(_), Percent(_)) => true
    case (Number(_), Number(_)) => true
    case (Text(_), Text(_)) => true
    case (Time(_), Time(_)) => true
    case (Money(_), Money(_, _)) => true
    case (Group(items), Text(text)) => text in items
    case (NumberOrMoney(_), Money(_, _)) => true
    case (NumberOrMoney(_), Number(_)) => true
    case _ => false
  }

  /** The matrix of `Token == Token`, `TokenLocation == Token` and
      `TokenLocation == TokenLocation`: literals compare by value (with no
      case for `Time`, `Date` or `DateTime`), a placeholder on either side
      uses the compatibility table, and two placeholders never match. */
  function TokensMatch(l: TokenType, r: TokenType): (eq: bool)
    ensures eq && !l.Field? && !r.Field? ==> l == r
    ensures eq ==> !(l.Field? && r.Field?)
    ensures l.Date? || l.DateTime? || r.Date? || r.DateTime? ==> !eq
  {
    match (l, r)
    case (Text(a), Text(b)) => a == b
    case (Number(a), Number(b)) => a == b
    case (Percent(a), Percent(b)) => a == b
    case (Operator(a), Operator(b)) => a == b
    case (Money(a, c), Money(b, d)) => a == b && c == d
    case (Variable(a), Variable(b)) => a == b
    case (Field(f), _) => FieldAccepts(f, r)
    case (_, Field(f)) => FieldAccepts(f, l)
    case _ => false
  }

  /** `impl PartialEq for Token`. */
  function TokenEq(a: Token, b: Token): (eq: bool)
    ensures eq ==> !(a.token.Field? && b.token.Field?)
    ensures a.token.Field? && !b.token.Field? ==> (eq <==> FieldAccepts(a.token.field, b.token))
    ensures !a.token.Field? && b.token.Field? ==> (eq <==> FieldAccepts(b.token.field, a.token))
  {
    TokensMatch(a.token, b.token)
  }

  /** `impl PartialEq<Token> for TokenLocation`: an untyped location equals
      nothing. */
  function LocationMatches(loc: TokenLocation, t: Token): (eq: bool)
    ensures eq ==> loc.tokenType.Some?
    ensures loc.tokenType.Some? ==> (eq <==> TokenEq(Token(loc.start, loc.end, loc.tokenType.value), t))
  {
    match loc.tokenType
    case Some(l) => TokensMatch(l, t.token)
    case None => false
  }

  /** `impl PartialEq for TokenLocation`: both sides must be typed. */
  function LocationEq(a: TokenLocation, b: TokenLocation): (eq: bool)
    ensures eq ==> a.tokenType.Some? && b.tokenType.Some?
    ensures b.tokenType.Some? ==> (eq <==> LocationMatches(a, Token(b.start, b.end, b.tokenType.value)))
  {
    match (a.tokenType, b.tokenType)
    case (Some(l), Some(r)) => TokensMatch(l, r)
    case _ => false
  }

  /** `impl PartialEq for TokenType`: literals compare by value (with no case
      for `Date` or `DateTime`), placeholders compare structurally with
      placeholders of the same kind, and a placeholder never equals a
      literal. */
  function TokenTypeEq(l: TokenType, r: TokenType): (eq: bool)
    ensures eq ==> (l.Field? <==> r.Field?)
    ensures l.Field? && r.Field? ==> (eq <==> l.field == r.field)
    ensures eq && !l.Field? ==> l == r
    ensures l.Date? || l.DateTime? ==> !eq
  {
    match (l, r)
    case (Text(a), Text(b)) => a == b
    case (Number(a), Number(b)) => a == b
    case (Percent(a), Percent(b)) => a == b
    case (Operator(a), Operator(b)) => a == b
    case (Variable(a), Variable(b)) => a == b
    case (Money(a, c), Money(b, d)) => a == b && c == d
    case (Time(a), Time(b)) => a == b
    case (Field(f), Field(g)) =>
      (match (f, g)
       case (Percent(x), Percent(y)) => x == y
       case (Number(x), Number(y)) => x == y
       case (Text(x), Text(y)) => x == y
       case (Date(x), Date(y)) => x == y
       case (Time(x), Time(y)) => x == y
       case (Money(x), Money(y)) => x == y
       case (Group(x), Group(y)) => x == y
       case (NumberOrMoney(x), NumberOrMoney(y)) => x == y
       case _ => false)
    case _ => false
  }

  /** The AST leaf a literal token corresponds to, seen as a token: a
      `Symbol` reads as `Text`; non-leaf nodes have no token form. */
  function AstAsToken(ast: BramaAstType): Option<TokenType>
  {
    match ast
    case Symbol(s) => Some(TokenType.Text(s))
    case Number(v) => Some(TokenType.Number(v))
    case Percent(v) => Some(TokenType.Percent(v))
    case Time(t) => Some(TokenType.Time(t))
    case Money(v, c) => Some(TokenType.Money(v, c))
    case _ => None
  }

  /** `Token::variable_compare`: does a location stand for an AST value? */
  function VariableCompare(left: TokenLocation, right: BramaAstType): (eq: bool)
    ensures eq ==> left.tokenType.Some? && AstAsToken(right).Some?
    ensures eq && !left.tokenType.value.Field? ==> AstAsToken(right) == Some(left.tokenType.value)
    ensures eq && left.tokenType.value.Field? ==>
      !left.tokenType.value.field.Group? && FieldAccepts(left.tokenType.value.field, AstAsToken(right).value)
  {
    match left.tokenType
    case Some(t) =>
      (match (t, right)
       case (Text(a), Symbol(b)) => a == b
       case (Number(a), Number(b)) => a == b
       case (Percent(a), Percent(b)) => a == b
       case (Time(a), Time(b)) => a == b
       case (Money(a, c), Money(b, d)) => a == b && c == d
       case (Field(f), _) =>
         (match (f, right)
          case (Percent(_), Percent(_)) => true
          case (Number(_), Number(_)) => true
          case (Text(_), Symbol(_)) => true
          case (Time(_), Time(_)) => true
          case (Money(_), Money(_, _)) => true
          case (NumberOrMoney(_), Money(_, _)) => true
          case (NumberOrMoney(_), Number(_)) => true
          case _ => false)
       case _ => false)
    case None => false
  }

  /** `Token::get_field_name`: the handler key a pattern location captures. */
  function GetFieldName(loc: TokenLocation): (r: Option<string>)
    ensures r.Some? <==>
      loc.tokenType.Some? && loc.tokenType.value.Field? && !loc.tokenType.value.field.Group?
    ensures r.Some? ==> r.value == loc.tokenType.value.field.name
  {
    match loc.tokenType
    case Some(Field(f)) =>
      (match f
       case Text(n) => Some(n)
       case Date(n) => Some(n)
       case Time(n) => Some(n)
       case Money(n) => Some(n)
       case Percent(n) => Some(n)
       case Number(n) => Some(n)
       case NumberOrMoney(n) => Some(n)
       case Group(_) => None)
    case _ => None
  }

  // ---------------------------------------------------------------------
  // Properties of the equality relations
  // ---------------------------------------------------------------------

  /** Token equality is symmetric: a placeholder on either side consults the
      same compatibility table. */
  lemma TokensMatchSymmetric(a: TokenType, b: TokenType)
    ensures TokensMatch(a, b) <==> TokensMatch(b, a)
  {
  }

  /** A `Group` placeholder matches exactly the texts in its word list. */
  lemma GroupMatchesIff(items: seq<string>, t: TokenType)
    ensures TokensMatch(TokenType.Field(Group(items)), t) <==> t.Text? && t.text in items
    ensures TokensMatch(t, TokenType.Field(Group(items))) <==> t.Text? && t.text in items
  {
  }

  /** A `NumberOrMoney` placeholder matches exactly the number and money
      tokens, on either side. */
  lemma NumberOrMoneyMatchesIff(name: string, t: TokenType)
    ensures TokensMatch(TokenType.Field(NumberOrMoney(name)), t) <==> t.Number? || t.Money?
    ensures TokensMatch(t, TokenType.Field(NumberOrMoney(name))) <==> t.Number? || t.Money?
  {
  }

  /** Under token equality two placeholders never match; under `TokenType`
      equality they compare structurally, and a placeholder never equals a
      literal. */
  lemma PlaceholderEqualities(f: FieldType, g: FieldType, t: TokenType)
    ensures !TokensMatch(TokenType.Field(f), TokenType.Field(g))
    ensures TokenTypeEq(TokenType.Field(f), TokenType.Field(g)) <==> f == g
    ensures !t.Field? ==> !TokenTypeEq(TokenType.Field(f), t) && !TokenTypeEq(t, TokenType.Field(f))
  {
  }

  /** Which tokens equal themselves: token equality has no case for times,
      dates or placeholders, `TokenType` equality none for dates. */
  lemma Reflexivity(t: TokenType)
    ensures TokensMatch(t, t) <==> !(t.Time? || t.Date? || t.DateTime? || t.Field?)
    ensures TokenTypeEq(t, t) <==> !(t.Date? || t.DateTime?)
  {
  }

  /** An untyped location is equal to nothing; typed locations compare by
      the token matrix, whichever of the two location equalities is used. */
  lemma LocationEqualities(a: TokenLocation, b: TokenLocation, t: Token)
    ensures !a.tokenType.Some? ==> !LocationMatches(a, t) && !LocationEq(a, b) && !LocationEq(b, a)
    ensures b.tokenType.Some? ==>
      (LocationEq(a, b) <==> LocationMatches(a, Token(b.start, b.end, b.tokenType.value)))
    ensures LocationEq(a, b) <==> LocationEq(b, a)
  {
  }

  /** `variable_compare` agrees with the literal token an AST leaf stands
      for, and with the compatibility table for every placeholder except
      `Group`, which it never accepts. */
  lemma VariableCompareAgreement(loc: TokenLocation, ast: BramaAstType)
    requires loc.tokenType.Some?
    ensures var t := loc.tokenType.value;
      (t.Text? || t.Number? || t.Percent? || t.Time? || t.Money?) ==>
        (VariableCompare(loc, ast) <==> AstAsToken(ast) == Some(t))
    ensures var t := loc.tokenType.value;
      t.Field? && !t.field.Group? ==>
        (VariableCompare(loc, ast) <==> AstAsToken(ast).Some? && FieldAccepts(t.field, AstAsToken(ast).value))
    ensures var t := loc.tokenType.value;
      (t.Field? && t.field.Group?) || t.Operator? || t.Date? || t.DateTime? || t.Variable? ==>
        !VariableCompare(loc, ast)
  {
  }

  /** An untyped location stands for no AST value. */
  lemma VariableCompareUntyped(loc: TokenLocation, ast: BramaAstType)
    requires !loc.tokenType.Some?
    ensures !VariableCompare(loc, ast)
  {
  }
}
