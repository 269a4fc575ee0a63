# smartcalc core, modelled in Dafny

smartcalc turns free-form lines such as "6% on 40" or "20 is 10% of what"
into typed results. This project models three pieces of its core:

- **Token compatibility and pattern matching** (`libsmartcalc/src/types.rs`).
  Rule patterns mix literal tokens with typed `Field` placeholders. The model
  covers the equality relations that decide when a placeholder stands for a
  concrete token, the window search shared by `is_same` and
  `is_same_location`, and the variable substitution `update_for_variable`.
- **Percentage rule handlers** (`percent_rules.rs`, `number_rules.rs`). These
  are pure functions from the captured field map to
  `Result<TokenType, String>`.
- **The evaluator's number item** (`src/compiler/number.rs`): `calculate`,
  `unary` and the numeric views of a `NumberItem`.

Every f64 is a Dafny `real`. The helpers whose code is not part of this model
are function-valued parameters, so every property holds whatever they return.
They are `get_number`, `get_percent`, `get_number_or_price`, `get_currency`,
`PercentItem::get_number` and `do_divition`. They sit in the records
`RuleFields.Tools` and `NumberItems.Helpers`.

Files, one module each: `wrappers.dfy` (Option, Result), `types.dfy`,
`matching.dfy`, `variables.dfy`, `rule_fields.dfy`, `percent_rules.dfy`,
`number_rules.dfy`, `number_item.dfy`.

Two behaviours of the code shape the model, which follows it in both:

- The window scan does not backtrack (`libsmartcalc/src/types.rs:248-252`).
  After a mismatch it restarts one past the mismatching token, so in `a a b`
  the pattern `a b` is not found although it occurs at position 1.
  `Matching.NoBacktracking` exhibits this.
- The code has two different equality relations on tokens.
  - `Token`/`TokenLocation` equality (`types.rs:339-471`) has no case for
    `Time`, `Date` or `DateTime` literals, so a time token does not equal
    itself there. It also never equates two placeholders.
  - `TokenType` equality (`types.rs:113-139`) compares placeholders
    structurally and never equates a placeholder with a literal.

  `Types.Reflexivity` and `Types.PlaceholderEqualities` state both relations.

## Model

| member | source | states |
|---|---|---|
| Types.GetFieldName | libsmartcalc/src/types.rs:185-202 | A name comes back exactly for a typed location holding a placeholder other than `Group`, and it is that placeholder's field name. An untyped location, a literal or a `Group` gives none. |
| Types.TokensMatch | libsmartcalc/src/types.rs:339-377 | Two literals match only when they are identical. Two placeholders never match each other. A date or date-time matches nothing, on either side. |
| Types.TokenEq | libsmartcalc/src/types.rs:339-377 | `Token == Token`: a placeholder on exactly one side matches iff the other token passes that placeholder's compatibility table. Two placeholders never match. |
| Types.LocationMatches | libsmartcalc/src/types.rs:379-424 | `TokenLocation == Token`: an untyped location matches nothing. A typed location matches exactly when its token equals the other token under token equality. |
| Types.LocationEq | libsmartcalc/src/types.rs:426-471 | `TokenLocation == TokenLocation`: both sides must be typed. It then agrees with location-to-token equality against the right-hand location's token. |
| Types.TokenTypeEq | libsmartcalc/src/types.rs:113-139 | `TokenType == TokenType`: two placeholders are equal iff their field types are equal. A placeholder never equals a literal. Equal literals are identical, and dates and date-times equal nothing. |
| Types.VariableCompare | libsmartcalc/src/types.rs:159-183 | A match needs a typed location and an AST leaf that stands for a token. A literal matches only the leaf that stands for that very token. A placeholder matches only a leaf whose token passes its compatibility table, and a `Group` placeholder never matches. |
| Types.TokensMatchSymmetric | libsmartcalc/src/types.rs:339-377 | Token equality is symmetric: a placeholder on either side uses the same compatibility table. |
| Types.GroupMatchesIff | libsmartcalc/src/types.rs:355-368 | A `Group(items)` placeholder, on either side, equals a token exactly when the token is `Text(t)` with `t` in `items`. |
| Types.NumberOrMoneyMatchesIff | libsmartcalc/src/types.rs:356-371 | A `NumberOrMoney` placeholder, on either side, equals exactly the `Number` and `Money` tokens. |
| Types.PlaceholderEqualities | libsmartcalc/src/types.rs:113-139 | Under token equality two placeholders never match. Under `TokenType` equality two placeholders are equal iff structurally equal, and a placeholder never equals a literal, on either side. |
| Types.Reflexivity | libsmartcalc/src/types.rs:339-377 | Token equality holds of a token with itself iff it is not a time, date, date-time or placeholder. `TokenType` equality does so iff it is not a date or date-time. |
| Types.LocationEqualities | libsmartcalc/src/types.rs:379-471 | An untyped location equals no token and no location, on either side. Location-to-location equality is symmetric. It agrees with location-to-token equality against the other location's token. |
| Types.VariableCompareAgreement | libsmartcalc/src/types.rs:159-183 | For a literal token, `variable_compare` holds iff the AST leaf stands for that very token (a `Symbol` standing for `Text`). For a placeholder other than `Group`, it holds iff the leaf's token passes the compatibility table. `Group`, operators, dates and variables never match. |
| Types.VariableCompareUntyped | libsmartcalc/src/types.rs:160-181 | An untyped location stands for no AST value. |
| Matching.ScanFrom | libsmartcalc/src/types.rs:241-258 | From any loop state, a reported start is either the current window's start or lies after the current token: a window already given up on is never reported. |
| Matching.Scan | libsmartcalc/src/types.rs:241-263 | A reported start is a true window: the rule fits inside the list from there, and every token equals its rule token. |
| Matching.ScanTokens | libsmartcalc/src/types.rs:235-264 | The imperative scan loop returns what the functional scan returns. A reported start is a window where every token equals its rule token. A token list shorter than the rule gives `None`. |
| Matching.IsSame | libsmartcalc/src/types.rs:204-233 | `is_same` over `Token` lists: the same scan with token equality, with the same soundness and length guarantees. |
| Matching.IsSameLocation | libsmartcalc/src/types.rs:235-264 | `is_same_location` over located tokens: the same scan with location-to-token equality. A result `Some(s)` means `s + |rule| <= |tokens|` and `tokens[s+i] == rule[i]` for all `i`. |
| Matching.ScanFromSound | libsmartcalc/src/types.rs:241-258 | From any reachable loop state, a reported start is a true window, either the current one or one after the current token. |
| Matching.ScanSound | libsmartcalc/src/types.rs:260-263 | For a non-empty rule, a reported start is a true window inside the list, and a list shorter than the rule is never matched. |
| Matching.ScanFindsLeadingWindow | libsmartcalc/src/types.rs:241-261 | A window at position 0 is always found, at 0. |
| Matching.ScanSingle | libsmartcalc/src/types.rs:241-263 | For a one-token rule the scan is exact: `Some(s)` iff `s` is the first matching index, and `None` iff no token matches. |
| Matching.NoBacktracking | libsmartcalc/src/types.rs:248-252 | In `a a b` the window `a b` exists at 1, yet the scan returns `None`: a token that breaks a partial match is never retried as a window start. |
| Variables.FirstAssign | libsmartcalc/src/types.rs:268-281 | Returns the index of the first `=` operator if there is one. `None` means no location is an `=`. |
| Variables.PickVariable | libsmartcalc/src/types.rs:286-308 | The choice is `None` iff no variable's name is found. Otherwise the chosen variable's name is found at the chosen start, and no name is found earlier. At the same start no name is longer. Every earlier variable found at that start is strictly shorter, so among equal lengths the first variable wins. |
| Variables.Replace | libsmartcalc/src/types.rs:310-332 | The span becomes one active `Variable` token running from the span's first `start` to its last `end`. Its text is the span's texts concatenated. The list shrinks by `size - 1` and everything outside the span is kept. The line's concatenated text is unchanged, and every non-`Variable` location was already there. |
| Variables.Substitute | libsmartcalc/src/types.rs:283-335 | The rewrite loop ends at a fixed point where no variable's name is found after the search start. Tokens before the search start are unchanged. The list never grows and the line's text is preserved. |
| Variables.UpdateForVariable | libsmartcalc/src/types.rs:266-336 | Tokens up to and including the first `=` are never changed. Afterwards no variable's name can be found after it. The line's text is preserved, and only `Variable` tokens are new. |
| Variables.FirstAssignKept | libsmartcalc/src/types.rs:268-281 | Substitution leaves the first `=` where it was, and adds none when there was none. |
| Variables.UpdateForVariableIdempotent | libsmartcalc/src/types.rs:283-335 | Running the substitution on its own output changes nothing. |
| Variables.NoVariablesNoChange | libsmartcalc/src/types.rs:293-310 | With no session variables the token list is returned unchanged. |
| RuleFields.WithCurrency | libsmartcalc/src/worker/rules/number_rules.rs:25-28 | The amount becomes `Money(amount, c)` exactly when a currency `c` is present, and `Number(amount)` otherwise. |
| PercentRules.PercentCalculator | libsmartcalc/src/worker/rules/percent_rules.rs:8-23 | Gives `Ok(Number(p*n/100))` iff both keys are present and both readers succeed. Otherwise the error names the first failing check: missing key, unreadable number, then unreadable percent. |
| PercentRules.FindNumbersPercent | libsmartcalc/src/worker/rules/percent_rules.rs:25-41 | Gives `Ok(Percent(q))` with `q*total == part*100` iff both keys are present and both readers succeed. Otherwise the error names the first failing check: missing key, unreadable total, then unreadable part. |
| PercentRules.FindTotalFromPercent | libsmartcalc/src/worker/rules/percent_rules.rs:43-62 | Gives a total `T` with `T*p == n*100`. It is `Money(T, c)` exactly when `number_part` carries currency `c`, else `Number(T)`. Errors follow the order missing key, unreadable number, then unreadable percent. |
| PercentRules.TotalFromPercentInverts | libsmartcalc/src/worker/rules/percent_rules.rs:19-57 | Taking p percent of the total found by "n is p% of what" gives back `n`. |
| PercentRules.NumbersPercentInverts | libsmartcalc/src/worker/rules/percent_rules.rs:19-37 | Taking the found percentage of `total` gives back `part`. |
| PercentRules.TotalFromPercentExamples | libsmartcalc/src/worker/rules/percent_rules.rs:65-107 | "20 is 10% of what" gives `Number(200)` and "180 is 10% of what" gives `Number(1800)`. |
| PercentRules.NumbersPercentExample | libsmartcalc/src/worker/rules/percent_rules.rs:109-128 | "15 is what % of 100" gives `Percent(15)`. |
| NumberRules.ReadNumberAndPercent | libsmartcalc/src/worker/rules/number_rules.rs:13-31 | Succeeds with the pair (number or price, percent) iff both keys are present and both readers succeed. Otherwise the error is "Number type not valid", "Number information not valid" or "Percent information not valid", in the source's order. |
| NumberRules.NumberOn | libsmartcalc/src/worker/rules/number_rules.rs:12-32 | Fails exactly when reading fails, with the same error. Otherwise the result is `n + n*p/100`, as money in the number's currency if it has one. |
| NumberRules.NumberOf | libsmartcalc/src/worker/rules/number_rules.rs:35-55 | Fails exactly when reading fails, with the same error. Otherwise the result is `n*p/100`, as money in the number's currency if it has one. |
| NumberRules.NumberOff | libsmartcalc/src/worker/rules/number_rules.rs:58-78 | Fails exactly when reading fails, with the same error. Otherwise the result is `n - n*p/100`, as money in the number's currency if it has one. |
| NumberRules.OnOfOffRelation | libsmartcalc/src/worker/rules/number_rules.rs:24-74 | The three handlers succeed or fail together, with the same error and the same currency tag. "on" is `n` plus "of", "off" is `n` minus "of", and on + off = 2n. |
| NumberRules.ZeroPercent | libsmartcalc/src/worker/rules/number_rules.rs:24-70 | With p = 0, "on" and "off" give `n` and "of" gives 0. |
| NumberRules.SixPercentOfForty | libsmartcalc/src/worker/rules/number_rules.rs:80-110 | "6% on 40" is 42.4, "6% of 40" is 2.4 and "6% off 40" is 37.6. |
| NumberItems.Calculate | src/compiler/number.rs:33-57 | Gives `None` iff the other operand is neither a number nor a percent item. The result keeps `self`'s notation. Add and Mul combine `self` with the other number. Sub and Div put `self` on the left when `on_left` and on the right otherwise, and Div goes through the division helper. |
| NumberItems.Unary | src/compiler/number.rs:71-76 | Minus negates the value, Plus gives the item back, and both keep the notation. |
| NumberItems.GetNumber | src/compiler/number.rs:58 | `get_number` ignores the other operand and gives the same value as `get_underlying_number`. |
| NumberItems.GetUnderlyingNumber | src/compiler/number.rs:59 | `get_underlying_number` is the value that unary minus negates. |
| NumberItems.AsTokenType | src/compiler/number.rs:23-25 | The token carries the item's underlying number and keeps its notation. |
| NumberItems.NumberViewsAgree | src/compiler/number.rs:23-59 | `get_number`, `get_underlying_number` and `as_token_type` all expose the item's value, and the token keeps the notation. |
| NumberItems.CommutativeOperations | src/compiler/number.rs:50-53 | Add and Mul give the same result whichever side `self` is on. |
| NumberItems.SubtractionSides | src/compiler/number.rs:44-54 | `self - other` and `other - self` are opposite numbers. |
| NumberItems.OperandOrderConsistent | src/compiler/number.rs:44-56 | `a` with `b` on its right and `b` with `a` on its left compute the same value for every operation. Each result carries the notation of the item that computed it. |
| NumberItems.PercentOperand | src/compiler/number.rs:37-52 | A percent operand contributes `PercentItem::get_number(self)`. Division applies the helper in operand order. |
| NumberItems.DoubleNegation | src/compiler/number.rs:71-76 | Negating twice gives the item back. |

## Left out

- `libsmartcalc/src/constants.rs` holds configuration tables and embedded JSON data with no behaviour. Word lists and patterns are parameters (`Group` items, rule token lists, session variables).
- `libsmartcalc/src/worker/rule.rs` is a static name-to-handler registry with no logic.
- `libsmartcalc/src/tokinizer/comment.rs` is regex capture iteration over code that is not part of this model.
- `tests/syntax_test.rs` exercises the syntax parser, which is not part of this model.
- The `worker::tools` readers, `PercentItem::get_number` and `do_divition` are not part of this model. They are parameters, so no property depends on what they compute.
- `NumberItem::print` and `format_number` (locale formatting), and the binary, octal and hexadecimal renderings, are left out as output formatting.
- `NumberItem::is_same` is left out because it compares floats within `f64::EPSILON`.
- `ToString` impls, `VariableInfo::update_data`, `TokinizerBackup`, `CharTraits`, `BramaNumberSystem` and the `Money` metadata struct are left out as data or formatting with no bearing on the modelled operations.
- chrono times and date-times are opaque values compared only for equality (`Clock`, `Stamp`).
- The `ui_tokens.update_tokens` calls are left out because they are side-channel highlighting only. So are `Rc` sharing and the `Send`/`Sync` impls.
- f64 rounding, infinities and NaN are not modelled: all arithmetic is exact over the reals. A NaN would make the source's `==` irreflexive on numbers.
- Variable equality (`Rc<VariableInfo> ==`, reached only when two `Variable` tokens are compared) is Dafny's structural equality. The source derives it (`types.rs:21-28`), so a variable's name tokens are compared with `Token` equality (`types.rs:339-377`). That equality looks only at the token kind and value: it ignores each token's `start` and `end`, which Dafny's equality compares, and it also differs for placeholder, time, date and date-time tokens. Two variables whose name tokens sit at different positions are therefore equal in the source and unequal here. The substitution never makes this comparison, because a variable's name holds no `Variable` token and `Found` compares a line's locations only against name tokens.
- In number_rules.rs the handlers take a configuration and `Rc<TokenInfo>` fields. The configuration is folded into the readers, and the fields share the located-token map of percent_rules.rs.
- `BramaAstType::None` is called `Nothing` so that it does not clash with `Option.None`.
- UpdateForVariable: requires that the first `=` is not the line's first token. The source reads the token before it, which panics on index underflow.
- UpdateForVariable: requires every variable to be named by at least one token and by no `Variable` token. An empty name makes the source index past the list. The loop's termination is not argued in the source. With these names every substitution removes at least one non-`Variable` token, which bounds the loop.
- FindNumbersPercent: requires a non-zero total whenever the division is reached. The source divides without a guard, and f64 would give an infinity or NaN that the reals cannot express.
- FindTotalFromPercent: requires a non-zero percent whenever the division is reached, for the same reason.
- Matching.ScanTokens: an empty rule is admitted only against an empty token list. The source indexes `rule_tokens[0]` as soon as there is a token.
