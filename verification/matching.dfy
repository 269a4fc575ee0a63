/** The window search of `Token::is_same` and `Token::is_same_location`
    (libsmartcalc/src/types.rs). Both run the same single left-to-right scan
    and differ only in the equality they use. The scan never backtracks:
    after a mismatch the next window starts one past the mismatching token,
    so a window that begins inside a failed partial match is never tried. */
module Matching {
  import opened Wrappers
  import opened Types

  /** The tokens at `s .. s + |rule|` match the rule element by element. */
  ghost predicate WindowAt<T>(tokens: seq<T>, rule: seq<Token>, eq: (T, Token) -> bool, s: nat)
  {
    s + |rule| <= |tokens| && forall i :: 0 <= i < |rule| ==> eq(tokens[s + i], rule[i])
  }

  /** The scan as a function of its loop state: `ti` is the next token,
      `ri` the number of rule tokens matched so far and `start` the start of
      the current candidate window. */
  function ScanFrom<T>(tokens: seq<T>, rule: seq<Token>, eq: (T, Token) -> bool, ti: nat, ri: nat, start: nat): (r: Option<nat>)
    requires ti <= |tokens| && ri < |rule|
    ensures r.Some? ==> r.value == start || ti < r.value
    decreases |tokens| - ti
  {
    if ti == |tokens| then None
    else if eq(tokens[ti], rule[ri]) then
      if ri + 1 == |rule| then Some(start) else ScanFrom(tokens, rule, eq, ti + 1, ri + 1, start)
    else
      ScanFrom(tokens, rule, eq, ti + 1, 0, ti + 1)
  }

  /** The whole scan. The source reads `rule[0]` as soon as there is a token,
      so an empty rule is only admissible against an empty token list, where
      the loop exits at once and reports a window at 0. */
  function Scan<T>(tokens: seq<T>, rule: seq<Token>, eq: (T, Token) -> bool): (r: Option<nat>)
    requires |rule| > 0 || |tokens| == 0
    ensures r.Some? ==> WindowAt(tokens, rule, eq, r.value)
  {
    if |rule| == 0 then Some(0)
    else
      ScanFromSound(tokens, rule, eq, 0, 0, 0);
      ScanFrom(tokens, rule, eq, 0, 0, 0)
  }

  /** The scan loop shared by `is_same` and `is_same_location`. */
  method ScanTokens<T>(tokens: seq<T>, rule: seq<Token>, eq: (T, Token) -> bool) returns (r: Option<nat>)
    requires |rule| > 0 || |tokens| == 0
    ensures r == Scan(tokens, rule, eq)
    ensures r.Some? ==> WindowAt(tokens, rule, eq, r.value)
    ensures |tokens| < |rule| ==> r == None
  {
    if |rule| == 0 {
      return Some(0);
    }
    var ruleIndex := 0;
    var targetIndex := 0;
    var startIndex := 0;
    while targetIndex < |tokens|
      invariant ruleIndex < |rule| && targetIndex <= |tokens|
      invariant startIndex + ruleIndex == targetIndex
      invariant forall k :: 0 <= k < ruleIndex ==> eq(tokens[startIndex + k], rule[k])
      invariant ScanFrom(tokens, rule, eq, targetIndex, ruleIndex, startIndex) == Scan(tokens, rule, eq)
    {
      if eq(tokens[targetIndex], rule[ruleIndex]) {
        ruleIndex := ruleIndex + 1;
        targetIndex := targetIndex + 1;
      } else {
        ruleIndex := 0;
        targetIndex := targetIndex + 1;
        startIndex := targetIndex;
      }
      if ruleIndex == |rule| {
        return Some(startIndex);
      }
    }
    return None;
  }

  /** `Token::is_same`: a rule pattern searched for in a token list. */
  method IsSame(tokens: seq<Token>, rule: seq<Token>) returns (r: Option<nat>)
    requires |rule| > 0 || |tokens| == 0
    ensures r == Scan(tokens, rule, TokenEq)
    ensures r.Some? ==> WindowAt(tokens, rule, TokenEq, r.value)
    ensures |tokens| < |rule| ==> r == None
  {
    r := ScanTokens(tokens, rule, TokenEq);
  }

  /** `Token::is_same_location`: a rule pattern searched for in the located
      tokens of the input. */
  method IsSameLocation(tokens: seq<TokenLocation>, rule: seq<Token>) returns (r: Option<nat>)
    requires |rule| > 0 || |tokens| == 0
    ensures r == Scan(tokens, rule, LocationMatches)
    ensures r.Some? ==> WindowAt(tokens, rule, LocationMatches, r.value)
    ensures |tokens| < |rule| ==> r == None
  {
    r := ScanTokens(tokens, rule, LocationMatches);
  }

  // ---------------------------------------------------------------------
  // Properties of the scan
  // ---------------------------------------------------------------------

  /** Soundness from any loop state: a reported start is a true window. */
  lemma {:induction false} ScanFromSound<T>(tokens: seq<T>, rule: seq<Token>, eq: (T, Token) -> bool, ti: nat, ri: nat, start: nat)
    requires ti <= |tokens| && ri < |rule|
    requires start + ri == ti
    requires forall k :: 0 <= k < ri ==> eq(tokens[start + k], rule[k])
    ensures ScanFrom(tokens, rule, eq, ti, ri, start).Some? ==>
      ScanFrom(tokens, rule, eq, ti, ri, start).value == start || ScanFrom(tokens, rule, eq, ti, ri, start).value > ti
    ensures ScanFrom(tokens, rule, eq, ti, ri, start).Some? ==>
      WindowAt(tokens, rule, eq, ScanFrom(tokens, rule, eq, ti, ri, start).value)
    decreases |tokens| - ti
  {
    if ti < |tokens| {
      if eq(tokens[ti], rule[ri]) {
        if ri + 1 < |rule| {
          ScanFromSound(tokens, rule, eq, ti + 1, ri + 1, start);
        }
      } else {
        ScanFromSound(tokens, rule, eq, ti + 1, 0, ti + 1);
      }
    }
  }

  /** A reported window is a true match that fits inside the token list; a
      token list shorter than the rule is never matched. */
  lemma ScanSound<T>(tokens: seq<T>, rule: seq<Token>, eq: (T, Token) -> bool)
    requires |rule| > 0
    ensures Scan(tokens, rule, eq).Some? ==> WindowAt(tokens, rule, eq, Scan(tokens, rule, eq).value)
    ensures |tokens| < |rule| ==> Scan(tokens, rule, eq) == None
  {
    ScanFromSound(tokens, rule, eq, 0, 0, 0);
  }

  /** A window that starts where the scan stands with nothing matched yet is
      found there. */
  lemma {:induction false} ScanFromFindsWindow<T>(tokens: seq<T>, rule: seq<Token>, eq: (T, Token) -> bool, start: nat, ri: nat)
    requires ri < |rule| && start + ri <= |tokens|
    requires WindowAt(tokens, rule, eq, start)
    ensures ScanFrom(tokens, rule, eq, start + ri, ri, start) == Some(start)
    decreases |rule| - ri
  {
    assert eq(tokens[start + ri], rule[ri]);
    if ri + 1 < |rule| {
      ScanFromFindsWindow(tokens, rule, eq, start, ri + 1);
    }
  }

  /** A window at the very beginning is always found. */
  lemma ScanFindsLeadingWindow<T>(tokens: seq<T>, rule: seq<Token>, eq: (T, Token) -> bool)
    requires |rule| > 0
    requires WindowAt(tokens, rule, eq, 0)
    ensures Scan(tokens, rule, eq) == Some(0)
  {
    ScanFromFindsWindow(tokens, rule, eq, 0, 0);
  }

  /** With a one-token rule no partial match can fail, so the scan is exact:
      it reports the first matching token and nothing when none matches. */
  lemma {:induction false} ScanFromSingle<T>(tokens: seq<T>, t: Token, eq: (T, Token) -> bool, ti: nat, s: nat)
    requires ti <= |tokens|
    ensures ScanFrom(tokens, [t], eq, ti, 0, ti) == Some(s) <==>
      ti <= s < |tokens| && eq(tokens[s], t) && forall j :: ti <= j < s ==> !eq(tokens[j], t)
    decreases |tokens| - ti
  {
    if ti < |tokens| && !eq(tokens[ti], t) {
      ScanFromSingle(tokens, t, eq, ti + 1, s);
    }
  }

  lemma ScanSingle<T>(tokens: seq<T>, t: Token, eq: (T, Token) -> bool, s: nat)
    ensures Scan(tokens, [t], eq) == Some(s) <==>
      s < |tokens| && eq(tokens[s], t) && forall j :: 0 <= j < s ==> !eq(tokens[j], t)
    ensures Scan(tokens, [t], eq) == None <==> forall j :: 0 <= j < |tokens| ==> !eq(tokens[j], t)
  {
    ScanFromSingle(tokens, t, eq, 0, s);
    if Scan(tokens, [t], eq) == None {
      forall j | 0 <= j < |tokens|
        ensures !eq(tokens[j], t)
      {
        if eq(tokens[j], t) {
          var k := FirstMatch(tokens, t, eq, j);
          ScanFromSingle(tokens, t, eq, 0, k);
        }
      }
    } else {
      ScanFromSingle(tokens, t, eq, 0, Scan(tokens, [t], eq).value);
    }
  }

  /** The first index at or before `j` whose token matches `t`. */
  function FirstMatch<T>(tokens: seq<T>, t: Token, eq: (T, Token) -> bool, j: nat): (k: nat)
    requires j < |tokens| && eq(tokens[j], t)
    ensures k <= j && eq(tokens[k], t) && forall i :: 0 <= i < k ==> !eq(tokens[i], t)
  {
    if exists i :: 0 <= i < j && eq(tokens[i], t) then
      var i :| 0 <= i < j && eq(tokens[i], t);
      FirstMatch(tokens, t, eq, i)
    else j
  }

  /** The scan does not backtrack: in `a a b` the window `a b` at 1 is
      missed, because the mismatch of `b` against the second `a` restarts
      the search after that `a`. */
  lemma NoBacktracking()
    ensures var a := Token(0, 1, TokenType.Text("a"));
            var b := Token(0, 1, TokenType.Text("b"));
            WindowAt([a, a, b], [a, b], TokenEq, 1) && Scan([a, a, b], [a, b], TokenEq) == None
  {
  }
}
