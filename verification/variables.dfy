/** Variable substitution, `Token::update_for_variable`
    (libsmartcalc/src/types.rs). After the first `=` of a line, every span
    of tokens that spells a session variable's name is replaced by one
    `Variable` token, earliest span first and, among spans starting at the
    same place, the longest name; this repeats until no name is found. */
module Variables {
  import opened Wrappers
  import opened Types
  import opened Matching

  predicate IsAssign(loc: TokenLocation)
  {
    loc.tokenType == Some(TokenType.Operator('='))
  }

  predicate IsVariableLocation(loc: TokenLocation)
  {
    loc.tokenType.Some? && loc.tokenType.value.Variable?
  }

  /** The index of the first `=` operator at or after `i`. */
  function FirstAssignFrom(tokens: seq<TokenLocation>, i: nat): (r: Option<nat>)
    requires i <= |tokens|
    ensures r.Some? ==>
      i <= r.value < |tokens| && IsAssign(tokens[r.value]) &&
      forall j :: i <= j < r.value ==> !IsAssign(tokens[j])
    ensures r.None? ==> forall j :: i <= j < |tokens| ==> !IsAssign(tokens[j])
    decreases |tokens| - i
  {
    if i == |tokens| then None
    else if IsAssign(tokens[i]) then Some(i)
    else FirstAssignFrom(tokens, i + 1)
  }

  /** The index of the first `=` operator of a line, if any. */
  function FirstAssign(tokens: seq<TokenLocation>): (r: Option<nat>)
    ensures r.Some? ==>
      r.value < |tokens| && IsAssign(tokens[r.value]) &&
      forall j :: 0 <= j < r.value ==> !IsAssign(tokens[j])
    ensures r.None? ==> forall j :: 0 <= j < |tokens| ==> !IsAssign(tokens[j])
  {
    FirstAssignFrom(tokens, 0)
  }

  /** Where the search for variable uses begins: just after the first `=`,
      or at the start of the line when there is none. */
  function SearchStart(tokens: seq<TokenLocation>): (from: nat)
    ensures from <= |tokens|
  {
    match FirstAssign(tokens)
    case Some(e) => e + 1
    case None => 0
  }

  /** The names the substitution works with: every variable is named by at
      least one token (the source reads the name's first token
      unconditionally) and by no `Variable` token (a name is the text before
      a `=`, which is never substituted). */
  predicate VariablesWellFormed(vars: seq<VariableInfo>)
  {
    forall i :: 0 <= i < |vars| ==>
      |vars[i].tokens| > 0 &&
      forall k :: 0 <= k < |vars[i].tokens| ==> !vars[i].tokens[k].token.Variable?
  }

  /** Where `is_same_location` finds a variable's name in `suffix`. */
  function Found(suffix: seq<TokenLocation>, v: VariableInfo): Option<nat>
    requires |v.tokens| > 0
  {
    Scan(suffix, v.tokens, LocationMatches)
  }

  /** The choice of one pass of the substitution loop: which variable, where
      its name starts in the searched suffix, and how many tokens it spans. */
  datatype Pick = Pick(variable: nat, start: nat, size: nat)

  /** The selection loop over the first `n` variables: the earliest start
      wins; at the same start a strictly longer name replaces the current
      choice, so among equally long names the first variable stays. */
  function PickVariable(suffix: seq<TokenLocation>, vars: seq<VariableInfo>, n: nat): (r: Option<Pick>)
    requires n <= |vars| && forall i :: 0 <= i < |vars| ==> |vars[i].tokens| > 0
    ensures r.None? <==> forall j :: 0 <= j < n ==> Found(suffix, vars[j]).None?
    ensures r.Some? ==>
      r.value.variable < n &&
      Found(suffix, vars[r.value.variable]) == Some(r.value.start) &&
      r.value.size == |vars[r.value.variable].tokens|
    ensures r.Some? ==> forall j :: 0 <= j < n && Found(suffix, vars[j]).Some? ==>
      r.value.start < Found(suffix, vars[j]).value ||
      (r.value.start == Found(suffix, vars[j]).value && |vars[j].tokens| <= r.value.size)
    ensures r.Some? ==> forall j :: 0 <= j < r.value.variable && Found(suffix, vars[j]) == Some(r.value.start) ==>
      |vars[j].tokens| < r.value.size
  {
    if n == 0 then None
    else
      var prev := PickVariable(suffix, vars, n - 1);
      var v := vars[n - 1];
      match Found(suffix, v)
      case None => prev
      case Some(s) =>
        if prev.None? then Some(Pick(n - 1, s, |v.tokens|))
        else if s == prev.value.start && prev.value.size < |v.tokens| then Some(Pick(n - 1, s, |v.tokens|))
        else if s < prev.value.start then Some(Pick(n - 1, s, |v.tokens|))
        else prev
  }

  /** The concatenated source text of a run of locations. */
  function Texts(locs: seq<TokenLocation>): string
  {
    if |locs| == 0 then "" else locs[0].originalText + Texts(locs[1..])
  }

  lemma {:induction false} TextsAppend(a: seq<TokenLocation>, b: seq<TokenLocation>)
    ensures Texts(a + b) == Texts(a) + Texts(b)
  {
    if |a| > 0 {
      assert (a + b)[1..] == a[1..] + b;
      TextsAppend(a[1..], b);
    } else {
      assert a + b == b;
    }
  }

  /** The number of locations that are not `Variable` tokens: the measure
      that shrinks with every substitution. */
  function NonVariableCount(locs: seq<TokenLocation>): nat
  {
    if |locs| == 0 then 0
    else (if IsVariableLocation(locs[0]) then 0 else 1) + NonVariableCount(locs[1..])
  }

  lemma {:induction false} NonVariableCountAppend(a: seq<TokenLocation>, b: seq<TokenLocation>)
    ensures NonVariableCount(a + b) == NonVariableCount(a) + NonVariableCount(b)
  {
    if |a| > 0 {
      assert (a + b)[1..] == a[1..] + b;
      NonVariableCountAppend(a[1..], b);
    } else {
      assert a + b == b;
    }
  }

  /** The `Variable` token that replaces a matched span. */
  function Merge(span: seq<TokenLocation>, v: VariableInfo): TokenLocation
    requires |span| > 0
  {
    TokenLocation(span[0].start, span[|span| - 1].end, Some(TokenType.Variable(v)), Texts(span), Active)
  }

  /** Replaces `tokens[at .. at + size]` by one `Variable` token. */
  function Replace(tokens: seq<TokenLocation>, at: nat, size: nat, v: VariableInfo): (r: seq<TokenLocation>)
    requires 0 < size && at + size <= |tokens|
    ensures |r| == |tokens| - (size - 1)
    ensures r[..at] == tokens[..at] && r[at + 1..] == tokens[at + size..]
    ensures r[at].start == tokens[at].start && r[at].end == tokens[at + size - 1].end
    ensures r[at].tokenType == Some(TokenType.Variable(v)) && r[at].status == Active
    ensures r[at].originalText == Texts(tokens[at..at + size])
    ensures Texts(r) == Texts(tokens)
    ensures forall i :: 0 <= i < |r| ==> IsVariableLocation(r[i]) || r[i] in tokens
  {
    var span := tokens[at..at + size];
    var r := tokens[..at] + [Merge(span, v)] + tokens[at + size..];
    assert tokens == tokens[..at] + span + tokens[at + size..];
    TextsAppend(tokens[..at] + [Merge(span, v)], tokens[at + size..]);
    TextsAppend(tokens[..at], [Merge(span, v)]);
    TextsAppend(tokens[..at] + span, tokens[at + size..]);
    TextsAppend(tokens[..at], span);
    assert Texts([Merge(span, v)]) == Texts(span);
    r
  }

  /** A location matched by a name token that is not itself a `Variable`
      token cannot be a `Variable` token. */
  lemma MatchedIsNotVariable(loc: TokenLocation, t: Token)
    requires LocationMatches(loc, t) && !t.token.Variable?
    ensures !IsVariableLocation(loc)
  {
  }

  /** Putting a `Variable` location in place of a span that starts with a
      non-`Variable` location shrinks the number of non-`Variable`
      locations. */
  lemma {:induction false} SpliceShrinks(prefix: seq<TokenLocation>, span: seq<TokenLocation>, rest: seq<TokenLocation>, m: TokenLocation)
    requires |span| > 0 && !IsVariableLocation(span[0]) && IsVariableLocation(m)
    ensures NonVariableCount(prefix + [m] + rest) < NonVariableCount(prefix + span + rest)
  {
    NonVariableCountAppend(prefix + span, rest);
    NonVariableCountAppend(prefix, span);
    NonVariableCountAppend(prefix + [m], rest);
    NonVariableCountAppend(prefix, [m]);
    assert [m][1..] == [];
  }

  /** A list is its slices before, between and after two cut points. */
  lemma SplitThree<T>(s: seq<T>, i: nat, j: nat)
    requires i <= j <= |s|
    ensures s == s[..i] + s[i..j] + s[j..]
  {
  }

  /** A list is its prefix, one element and its suffix. */
  lemma SplitAround<T>(s: seq<T>, i: nat)
    requires i < |s|
    ensures s == s[..i] + [s[i]] + s[i + 1..]
  {
    assert s[i..i + 1] == [s[i]];
    SplitThree(s, i, i + 1);
  }

  /** Replacing a span that starts with a non-`Variable` location shrinks
      the number of non-`Variable` locations. */
  lemma ReplaceShrinks(tokens: seq<TokenLocation>, at: nat, size: nat, v: VariableInfo)
    requires 0 < size && at + size <= |tokens|
    requires !IsVariableLocation(tokens[at])
    ensures NonVariableCount(Replace(tokens, at, size, v)) < NonVariableCount(tokens)
  {
    var r := Replace(tokens, at, size, v);
    SplitThree(tokens, at, at + size);
    SplitAround(r, at);
    SpliceShrinks(tokens[..at], tokens[at..at + size], tokens[at + size..], r[at]);
  }

  /** Where a name made of non-`Variable` tokens is found, its span lies
      inside the list and does not start with a `Variable` token. */
  lemma FoundSpan(suffix: seq<TokenLocation>, v: VariableInfo, s: nat)
    requires |v.tokens| > 0 && !v.tokens[0].token.Variable?
    requires Found(suffix, v) == Some(s)
    ensures s + |v.tokens| <= |suffix| && !IsVariableLocation(suffix[s])
  {
    assert LocationMatches(suffix[s + 0], v.tokens[0]);
    MatchedIsNotVariable(suffix[s], v.tokens[0]);
  }

  /** Two lists that agree up to `at` agree up to any earlier point. */
  lemma ShorterPrefix<T>(a: seq<T>, b: seq<T>, at: nat, from: nat)
    requires from <= at <= |a| && at <= |b| && a[..at] == b[..at]
    ensures a[..from] == b[..from]
  {
    assert a[..from] == a[..at][..from];
    assert b[..from] == b[..at][..from];
  }

  /** One pass of the loop: the chosen name's span lies inside the list,
      its replacement shrinks the termination measure and leaves the
      tokens before `from` alone. */
  lemma SubstituteStep(tokens: seq<TokenLocation>, from: nat, vars: seq<VariableInfo>, p: Pick)
    requires from <= |tokens| && VariablesWellFormed(vars)
    requires PickVariable(tokens[from..], vars, |vars|) == Some(p)
    ensures 0 < p.size && from + p.start + p.size <= |tokens|
    ensures NonVariableCount(Replace(tokens, from + p.start, p.size, vars[p.variable])) < NonVariableCount(tokens)
    ensures Replace(tokens, from + p.start, p.size, vars[p.variable])[..from] == tokens[..from]
  {
    var v := vars[p.variable];
    var at := from + p.start;
    FoundSpan(tokens[from..], v, p.start);
    assert tokens[from..][p.start] == tokens[at];
    ReplaceShrinks(tokens, at, p.size, v);
    ShorterPrefix(Replace(tokens, at, p.size, v), tokens, at, from);
  }

  /** The substitution loop, from search position `from` on. */
  function Substitute(tokens: seq<TokenLocation>, from: nat, vars: seq<VariableInfo>): (r: seq<TokenLocation>)
    requires from <= |tokens| && VariablesWellFormed(vars)
    ensures from <= |r| <= |tokens|
    ensures r[..from] == tokens[..from]
    ensures forall j :: 0 <= j < |vars| ==> Found(r[from..], vars[j]).None?
    ensures Texts(r) == Texts(tokens)
    ensures forall i :: 0 <= i < |r| ==> IsVariableLocation(r[i]) || r[i] in tokens
    decreases NonVariableCount(tokens)
  {
    match PickVariable(tokens[from..], vars, |vars|)
    case None => tokens
    case Some(p) =>
      SubstituteStep(tokens, from, vars, p);
      Substitute(Replace(tokens, from + p.start, p.size, vars[p.variable]), from, vars)
  }

  /** `Token::update_for_variable`. The source reads the token before the
      first `=` to mark the variable's name, so that `=` may not open the
      line. */
  function UpdateForVariable(tokens: seq<TokenLocation>, vars: seq<VariableInfo>): (r: seq<TokenLocation>)
    requires VariablesWellFormed(vars)
    requires FirstAssign(tokens) != Some(0)
    ensures SearchStart(tokens) <= |r| <= |tokens|
    ensures r[..SearchStart(tokens)] == tokens[..SearchStart(tokens)]
    ensures forall j :: 0 <= j < |vars| ==> Found(r[SearchStart(tokens)..], vars[j]).None?
    ensures Texts(r) == Texts(tokens)
    ensures forall i :: 0 <= i < |r| ==> IsVariableLocation(r[i]) || r[i] in tokens
  {
    Substitute(tokens, SearchStart(tokens), vars)
  }

  // ---------------------------------------------------------------------
  // Properties of the substitution
  // ---------------------------------------------------------------------

  /** The substitution keeps the first `=` where it was. */
  lemma FirstAssignKept(tokens: seq<TokenLocation>, vars: seq<VariableInfo>)
    requires VariablesWellFormed(vars) && FirstAssign(tokens) != Some(0)
    ensures FirstAssign(UpdateForVariable(tokens, vars)) == FirstAssign(tokens)
  {
    if FirstAssign(tokens).Some? {
      AssignPrefixKept(tokens, UpdateForVariable(tokens, vars), FirstAssign(tokens).value);
    } else {
      NoAssignAdded(tokens, UpdateForVariable(tokens, vars));
    }
  }

  /** A list that keeps the tokens up to and including the first `=` keeps
      that `=` first. */
  lemma AssignPrefixKept(tokens: seq<TokenLocation>, r: seq<TokenLocation>, e: nat)
    requires FirstAssign(tokens) == Some(e)
    requires e < |r| && r[..e + 1] == tokens[..e + 1]
    ensures FirstAssign(r) == Some(e)
  {
    assert r[e] == r[..e + 1][e];
    forall j | 0 <= j < e
      ensures r[j] == tokens[j]
    {
      assert r[j] == r[..e + 1][j];
    }
  }

  /** A list made of `Variable` tokens and tokens of an `=`-free list has
      no `=` either. */
  lemma NoAssignAdded(tokens: seq<TokenLocation>, r: seq<TokenLocation>)
    requires FirstAssign(tokens).None?
    requires forall i :: 0 <= i < |r| ==> IsVariableLocation(r[i]) || r[i] in tokens
    ensures FirstAssign(r).None?
  {
    forall i | 0 <= i < |r|
      ensures !IsAssign(r[i])
    {
      if !IsVariableLocation(r[i]) {
        var k :| 0 <= k < |tokens| && tokens[k] == r[i];
      }
    }
  }

  /** Substitution is idempotent: a second run over its own output changes
      nothing, because no variable's name is left to find. */
  lemma UpdateForVariableIdempotent(tokens: seq<TokenLocation>, vars: seq<VariableInfo>)
    requires VariablesWellFormed(vars) && FirstAssign(tokens) != Some(0)
    ensures FirstAssign(UpdateForVariable(tokens, vars)) != Some(0)
    ensures UpdateForVariable(UpdateForVariable(tokens, vars), vars) == UpdateForVariable(tokens, vars)
  {
    FirstAssignKept(tokens, vars);
  }

  /** With no session variables nothing is substituted. */
  lemma NoVariablesNoChange(tokens: seq<TokenLocation>)
    requires FirstAssign(tokens) != Some(0)
    ensures UpdateForVariable(tokens, []) == tokens
  {
  }
}
