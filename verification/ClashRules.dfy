/** Rule lists under first-match semantics, and the list edits of the overlays
    (hysteria/subscription_profiles.py). */
module ClashRules {
  import opened StateStore

  /** A rule's text, cut at its commas. */
  type Rule = seq<string>

  /** Which rule matches which connection is left open. */
  type Matcher<!C> = (Rule, C) -> bool

  /** The first rule that matches decides. */
  function Decision<C>(rules: seq<Rule>, matches: Matcher<C>, c: C): Option<Rule> {
    if rules == [] then None
    else if matches(rules[0], c) then Some(rules[0])
    else Decision(rules[1..], matches, c)
  }

  lemma {:induction false} DecisionConcat<C>(a: seq<Rule>, b: seq<Rule>, matches: Matcher<C>, c: C)
    ensures Decision(a + b, matches, c) ==
            if Decision(a, matches, c).Some? then Decision(a, matches, c) else Decision(b, matches, c)
  {
    if a == [] {
      assert a + b == b;
    } else {
      assert (a + b)[1..] == a[1..] + b;
      DecisionConcat(a[1..], b, matches, c);
    }
  }

  lemma {:induction false} UndecidedMatchesNothing<C>(rules: seq<Rule>, matches: Matcher<C>, c: C)
    ensures Decision(rules, matches, c).None? <==> forall r | r in rules :: !matches(r, c)
  {
    if rules == [] {
    } else {
      UndecidedMatchesNothing(rules[1..], matches, c);
    }
  }

  /* ---- Putting rules first ---- */

  function Without<T(==)>(xs: seq<T>, ys: seq<T>): seq<T> {
    if xs == [] then []
    else if xs[0] in ys then Without(xs[1..], ys)
    else [xs[0]] + Without(xs[1..], ys)
  }

  lemma {:induction false} WithoutMeans<T>(xs: seq<T>, ys: seq<T>, x: T)
    ensures x in Without(xs, ys) <==> x in xs && x !in ys
  {
    if xs == [] {
    } else {
      WithoutMeans(xs[1..], ys, x);
    }
  }

  /** `_prepend_unique_rules`. */
  function Prepended(rules: seq<Rule>, first: seq<Rule>): seq<Rule> {
    first + Without(rules, first)
  }

  lemma {:induction false} WithoutUndecided<C>(rules: seq<Rule>, first: seq<Rule>, matches: Matcher<C>, c: C)
    requires forall r | r in first :: !matches(r, c)
    ensures Decision(Without(rules, first), matches, c) == Decision(rules, matches, c)
  {
    if rules == [] {
    } else {
      WithoutUndecided(rules[1..], first, matches, c);
    }
  }

  /** The rules put first decide wherever one of them matches, and elsewhere the list decides
      as it did before; dropping their later copies changes nothing. */
  lemma PrependedDecides<C>(rules: seq<Rule>, first: seq<Rule>, matches: Matcher<C>, c: C)
    ensures Decision(Prepended(rules, first), matches, c) ==
            if Decision(first, matches, c).Some? then Decision(first, matches, c) else Decision(rules, matches, c)
  {
    DecisionConcat(first, Without(rules, first), matches, c);
    UndecidedMatchesNothing(first, matches, c);
    if Decision(first, matches, c).None? {
      WithoutUndecided(rules, first, matches, c);
    }
  }

  lemma {:induction false} WithoutConcat<T(!new)>(a: seq<T>, b: seq<T>, ys: seq<T>)
    ensures Without(a + b, ys) == Without(a, ys) + Without(b, ys)
  {
    if a == [] {
      assert a + b == b;
    } else {
      assert (a + b)[1..] == a[1..] + b;
      WithoutConcat(a[1..], b, ys);
    }
  }

  lemma {:induction false} WithoutNone<T(!new)>(xs: seq<T>, ys: seq<T>)
    requires forall x | x in xs :: x !in ys
    ensures Without(xs, ys) == xs
  {
    if xs == [] {
    } else {
      WithoutNone(xs[1..], ys);
    }
  }

  lemma {:induction false} WithoutAll<T(!new)>(xs: seq<T>, ys: seq<T>)
    requires forall x | x in xs :: x in ys
    ensures Without(xs, ys) == []
  {
    if xs == [] {
    } else {
      WithoutAll(xs[1..], ys);
    }
  }

  lemma WithoutTwice<T(!new)>(xs: seq<T>, ys: seq<T>)
    ensures Without(Without(xs, ys), ys) == Without(xs, ys)
  {
  }

  lemma PrependedAgain(rules: seq<Rule>, first: seq<Rule>)
    ensures Prepended(Prepended(rules, first), first) == Prepended(rules, first)
  {
    WithoutConcat(first, Without(rules, first), first);
    WithoutAll(first, first);
    WithoutTwice(rules, first);
    hide Without;
  }

  /* ---- Removing duplicates ---- */

  /** Each item at its first place only. */
  function Deduped<T(==)>(xs: seq<T>): seq<T> {
    if xs == [] then []
    else
      var init, last := xs[..|xs| - 1], xs[|xs| - 1];
      Deduped(init) + (if last in init then [] else [last])
  }

  ghost predicate Distinct<T>(xs: seq<T>) {
    forall i, j | 0 <= i < j < |xs| :: xs[i] != xs[j]
  }

  lemma {:induction false} DedupedMeans<T(!new)>(xs: seq<T>)
    ensures Distinct(Deduped(xs))
    ensures forall x :: x in Deduped(xs) <==> x in xs
  {
    if xs == [] {
    } else {
      var init := xs[..|xs| - 1];
      DedupedMeans(init);
    }
  }

  lemma {:induction false} DistinctStays<T>(xs: seq<T>)
    requires Distinct(xs)
    ensures Deduped(xs) == xs
  {
    if xs == [] {
    } else {
      var init, last := xs[..|xs| - 1], xs[|xs| - 1];
      DistinctStays(init);
      assert xs == init + [last];
    }
  }

  lemma {:induction false} DedupedConcat<T(!new)>(a: seq<T>, b: seq<T>)
    ensures Deduped(a + b) == Deduped(a) + Without(Deduped(b), a)
  {
    if b == [] {
      assert a + b == a;
    } else {
      DedupedConcat(a, b[..|b| - 1]);
      DedupedConcatMore(a, b[..|b| - 1], b[|b| - 1]);
      assert b == b[..|b| - 1] + [b[|b| - 1]];
    }
  }

  lemma DedupedConcatMore<T(!new)>(a: seq<T>, b: seq<T>, x: T)
    requires Deduped(a + b) == Deduped(a) + Without(Deduped(b), a)
    ensures Deduped(a + (b + [x])) == Deduped(a) + Without(Deduped(b + [x]), a)
  {
    hide Deduped, Without;
    assert a + (b + [x]) == (a + b) + [x];
    DedupedSnoc(a + b, x);
    DedupedSnoc(b, x);
    if x !in b {
      WithoutSnoc(Deduped(b), x, a);
    }
  }

  lemma DedupedSnoc<T>(xs: seq<T>, x: T)
    ensures Deduped(xs + [x]) == if x in xs then Deduped(xs) else Deduped(xs) + [x]
  {
  }

  lemma WithoutSnoc<T(!new)>(xs: seq<T>, x: T, ys: seq<T>)
    ensures Without(xs + [x], ys) == if x in ys then Without(xs, ys) else Without(xs, ys) + [x]
  {
    WithoutConcat(xs, [x], ys);
  }

  /** Putting items first and removing duplicates, done twice, is done once. */
  lemma DedupedAgain<T(!new)>(first: seq<T>, xs: seq<T>)
    ensures Deduped(first + Deduped(first + xs)) == Deduped(first + xs)
  {
    hide Deduped, Without;
    var d, w := Deduped(first + xs), Without(Deduped(xs), first);
    assert Deduped(d) == d by {
      DedupedMeans(first + xs);
      DistinctStays(d);
    }
    DedupedConcat(first, d);
    DedupedConcat(first, xs);
    assert Without(d, first) == w by {
      WithoutConcat(Deduped(first), w, first);
      assert forall x | x in Deduped(first) :: x in first by { DedupedMeans(first); }
      WithoutAll(Deduped(first), first);
      WithoutTwice(Deduped(xs), first);
    }
  }

  /* ---- Order ---- */

  /** x stands in the list ahead of every y. */
  ghost predicate Ahead<T>(xs: seq<T>, x: T, y: T) {
    exists i :: 0 <= i < |xs| && xs[i] == x && y !in xs[..i]
  }

  lemma {:induction false} AheadSnoc<T>(xs: seq<T>, last: T, x: T, y: T)
    ensures Ahead(xs + [last], x, y) <==> Ahead(xs, x, y) || (last == x && y !in xs)
  {
    var more := xs + [last];
    if Ahead(xs, x, y) {
      var i :| 0 <= i < |xs| && xs[i] == x && y !in xs[..i];
      assert more[i] == x && more[..i] == xs[..i];
    }
    if last == x && y !in xs {
      assert more[|xs|] == x && more[..|xs|] == xs;
    }
    if Ahead(more, x, y) {
      var i :| 0 <= i < |more| && more[i] == x && y !in more[..i];
      if i < |xs| {
        assert more[..i] == xs[..i] && xs[i] == x;
      } else {
        assert more[..i] == xs;
      }
    }
  }

  lemma {:induction false} AheadConcat<T>(a: seq<T>, b: seq<T>, x: T, y: T)
    ensures Ahead(a + b, x, y) <==> Ahead(a, x, y) || (y !in a && Ahead(b, x, y))
  {
    hide Ahead;
    if b == [] {
      assert a + b == a;
      assert !Ahead(b, x, y) by { NothingAhead(b, x, y); }
    } else {
      var init, last := b[..|b| - 1], b[|b| - 1];
      assert b == init + [last] && a + b == (a + init) + [last];
      AheadConcat(a, init, x, y);
      AheadSnoc(a + init, last, x, y);
      AheadSnoc(init, last, x, y);
    }
  }

  lemma NothingAhead<T>(xs: seq<T>, x: T, y: T)
    ensures Ahead(xs, x, y) ==> x in xs
    ensures x in xs && y !in xs ==> Ahead(xs, x, y)
  {
    if x in xs && y !in xs {
      var i :| 0 <= i < |xs| && xs[i] == x;
    }
  }

  /** Removing duplicates or other items keeps the order. */
  lemma {:induction false} DedupedInOrder<T(!new)>(xs: seq<T>, x: T, y: T)
    requires x != y
    ensures Ahead(Deduped(xs), x, y) <==> Ahead(xs, x, y)
  {
    if xs == [] {
    } else {
      var init, last := xs[..|xs| - 1], xs[|xs| - 1];
      assert xs == init + [last];
      DedupedInOrder(init, x, y);
      DedupedMeans(init);
      AheadSnoc(init, last, x, y);
      AheadSnoc(Deduped(init), last, x, y);
      NothingAhead(init, x, y);
      assert Deduped(xs) == if last in init then Deduped(init) else Deduped(init) + [last];
      assert y in Deduped(init) <==> y in init;
      hide Ahead, Distinct, Deduped;
    }
  }

  lemma {:induction false} WithoutInOrder<T(!new)>(xs: seq<T>, ys: seq<T>, x: T, y: T)
    requires x !in ys && y !in ys
    ensures Ahead(Without(xs, ys), x, y) <==> Ahead(xs, x, y)
  {
    if xs == [] {
    } else {
      var init, last := xs[..|xs| - 1], xs[|xs| - 1];
      assert xs == init + [last];
      WithoutInOrder(init, ys, x, y);
      WithoutMeans(init, ys, y);
      WithoutSnoc(init, last, ys);
      AheadSnoc(init, last, x, y);
      AheadSnoc(Without(init, ys), last, x, y);
      hide Ahead, Without;
    }
  }

  /** Items put first come first, in their order; the others keep theirs. */
  lemma FirstInOrder<T(!new)>(first: seq<T>, rest: seq<T>, x: T, y: T)
    requires x != y && x in first + rest && y in first + rest
    ensures Ahead(Deduped(first + rest), x, y) <==>
            if x in first && y in first then Ahead(first, x, y)
            else x in first || (y !in first && Ahead(rest, x, y))
  {
    DedupedInOrder(first + rest, x, y);
    AheadConcat(first, rest, x, y);
    NothingAhead(first, x, y);
    NothingAhead(rest, x, y);
    hide Ahead, Deduped;
  }

  /* ---- Rewriting the final rule ---- */

  predicate IsMatch(r: Rule) { |r| >= 2 && r[0] == "MATCH" }

  /** The connections' semantics of the catch-all rule. */
  ghost predicate MatchesAll<C(!new)>(matches: Matcher<C>) {
    forall r: Rule, c: C | IsMatch(r) :: matches(r, c)
  }

  function WithMatch(rules: seq<Rule>, action: string): seq<Rule> {
    if rules == [] then []
    else [if IsMatch(rules[0]) then ["MATCH", action] else rules[0]] + WithMatch(rules[1..], action)
  }

  /** `_replace_match_rule`. */
  function MatchReplaced(rules: seq<Rule>, action: string): seq<Rule> {
    WithMatch(rules, action) + (if exists r | r in rules :: IsMatch(r) then [] else [["MATCH", action]])
  }

  lemma {:induction false} WithMatchDecides<C(!new)>(rules: seq<Rule>, action: string, matches: Matcher<C>, c: C)
    requires MatchesAll(matches)
    ensures var d := Decision(rules, matches, c);
            Decision(WithMatch(rules, action), matches, c) ==
            if d.Some? && IsMatch(d.value) then Some(["MATCH", action]) else d
  {
    if rules == [] {
    } else {
      WithMatchDecides(rules[1..], action, matches, c);
    }
  }

  /** Whatever no more specific rule decides gets the new action; all else is as before. */
  lemma MatchReplacedDecides<C(!new)>(rules: seq<Rule>, action: string, matches: Matcher<C>, c: C)
    requires MatchesAll(matches)
    ensures var d := Decision(rules, matches, c);
            Decision(MatchReplaced(rules, action), matches, c) ==
            Some(if d.None? || IsMatch(d.value) then ["MATCH", action] else d.value)
  {
    WithMatchDecides(rules, action, matches, c);
    if r :| r in rules && IsMatch(r) {
      UndecidedMatchesNothing(rules, matches, c);
      assert MatchReplaced(rules, action) == WithMatch(rules, action);
    } else {
      DecisionConcat(WithMatch(rules, action), [["MATCH", action]], matches, c);
    }
  }

  lemma {:induction false} DecidedIsListed<C>(rules: seq<Rule>, matches: Matcher<C>, c: C)
    ensures Decision(rules, matches, c).Some? ==> Decision(rules, matches, c).value in rules
  {
    if rules == [] {
    } else {
      DecidedIsListed(rules[1..], matches, c);
    }
  }

  lemma {:induction false} WithMatchAgain(rules: seq<Rule>, action: string)
    ensures WithMatch(WithMatch(rules, action), action) == WithMatch(rules, action)
    ensures (exists r | r in WithMatch(rules, action) :: IsMatch(r)) <==> exists r | r in rules :: IsMatch(r)
  {
    if rules == [] {
    } else {
      WithMatchAgain(rules[1..], action);
    }
  }

  lemma {:induction false} WithMatchConcat(a: seq<Rule>, b: seq<Rule>, action: string)
    ensures WithMatch(a + b, action) == WithMatch(a, action) + WithMatch(b, action)
  {
    if a == [] {
      assert a + b == b;
    } else {
      assert (a + b)[1..] == a[1..] + b;
      WithMatchConcat(a[1..], b, action);
    }
  }

  lemma MatchReplacedAgain(rules: seq<Rule>, action: string)
    ensures MatchReplaced(MatchReplaced(rules, action), action) == MatchReplaced(rules, action)
  {
    var once, tail := WithMatch(rules, action), [["MATCH", action]];
    WithMatchAgain(rules, action);
    if exists r | r in rules :: IsMatch(r) {
      assert MatchReplaced(rules, action) == once;
    } else {
      WithMatchConcat(once, tail, action);
    }
  }

  /* ---- Sending direct rules through a proxy ---- */

  predicate StartsWith(s: string, prefix: string) { |prefix| <= |s| && s[..|prefix|] == prefix }

  /** The rule's text begins with these fields, the last of them possibly continuing. */
  predicate Begins(r: Rule, fields: seq<string>)
    requires fields != []
  {
    var n := |fields| - 1;
    n < |r| && r[..n] == fields[..n] && StartsWith(r[n], fields[n])
  }

  const KEEP_DIRECT: seq<seq<string>> := [
    ["IP-CIDR", "47.245.53.96/32", "DIRECT", "no-resolve"],
    ["IP-CIDR", "192.238.178.243/32", "DIRECT", "no-resolve"],
    ["RULE-SET", "private", "DIRECT"],
    ["RULE-SET", "lancidr", "DIRECT"],
    ["GEOIP", "LAN", "DIRECT"]]

  /** The rules the full-proxy profile leaves alone. */
  predicate LeftAlone(r: Rule) {
    || (|r| >= 3 && r[0] == "RULE-SET" && r[1] == "reject")
    || exists k | 0 <= k < |KEEP_DIRECT| :: KEEP_DIRECT[k] != [] && Begins(r, KEEP_DIRECT[k])
  }

  /** Ad blocking, the servers' own addresses and private networks, and nothing else. */
  lemma LeftAloneExactly(r: Rule)
    ensures LeftAlone(r) <==>
            || (|r| >= 3 && r[..2] == ["RULE-SET", "reject"])
            || (|r| >= 4 && r[..3] == ["IP-CIDR", "47.245.53.96/32", "DIRECT"] && StartsWith(r[3], "no-resolve"))
            || (|r| >= 4 && r[..3] == ["IP-CIDR", "192.238.178.243/32", "DIRECT"] && StartsWith(r[3], "no-resolve"))
            || (|r| >= 3 && r[..2] == ["RULE-SET", "private"] && StartsWith(r[2], "DIRECT"))
            || (|r| >= 3 && r[..2] == ["RULE-SET", "lancidr"] && StartsWith(r[2], "DIRECT"))
            || (|r| >= 3 && r[..2] == ["GEOIP", "LAN"] && StartsWith(r[2], "DIRECT"))
  {
    hide StartsWith;
    assert |KEEP_DIRECT| == 5;
    assert forall k | 0 <= k < 5 :: KEEP_DIRECT[k] != [];
    assert LeftAlone(r) <==>
      (|| (|r| >= 3 && r[0] == "RULE-SET" && r[1] == "reject")
       || Begins(r, KEEP_DIRECT[0]) || Begins(r, KEEP_DIRECT[1]) || Begins(r, KEEP_DIRECT[2])
       || Begins(r, KEEP_DIRECT[3]) || Begins(r, KEEP_DIRECT[4]));
  }

  predicate MentionsDirect(r: Rule) {
    exists i | 1 <= i < |r| :: StartsWith(r[i], "DIRECT")
  }

  /** `_rewrite_rule_action`. */
  function ActionRewritten(r: Rule, action: string): Rule {
    if |r| > 0 && r[0] == "MATCH" then ["MATCH", action]
    else WithAction(r, action)
  }

  /** One rule in the loop of `_apply_safe_profile`. */
  function Proxied(r: Rule, action: string): Rule {
    if LeftAlone(r) then r
    else if IsMatch(r) then ["MATCH", action]
    else if MentionsDirect(r) then ActionRewritten(r, action)
    else r
  }

  function ProxiedAll(rules: seq<Rule>, action: string): seq<Rule> {
    seq(|rules|, i requires 0 <= i < |rules| => Proxied(rules[i], action))
  }

  function WithAction(r: Rule, action: string): Rule { if |r| >= 3 then r[2 := action] else r }

  /** A rule of nested conditions has commas inside its conditions, so its action is not in
      the third field. */
  predicate Nested(r: Rule) { r != [] && r[0] in {"AND", "OR", "NOT", "SUB-RULE"} }

  /** Whether any other rule matches does not depend on its action, the third field. */
  ghost predicate ActionBlind<C(!new)>(matches: Matcher<C>) {
    forall r: Rule, action: string, c: C | |r| >= 3 && r[0] != "MATCH" && !Nested(r) ::
      matches(WithAction(r, action), c) == matches(r, c)
  }

  /** The rewriting changes a condition of this rule. */
  predicate Spoiled(r: Rule, action: string) { Nested(r) && Proxied(r, action) != r }

  /** No rule that can decide is spoiled. */
  ghost predicate NoneSpoiled(rules: seq<Rule>, action: string) {
    rules != [] && !IsMatch(rules[0]) ==> !Spoiled(rules[0], action) && NoneSpoiled(rules[1..], action)
  }

  /** The same rule of the list decides as before, with its action redirected. */
  lemma {:induction false} ProxiedDecides<C(!new)>(rules: seq<Rule>, action: string, matches: Matcher<C>, c: C)
    requires MatchesAll(matches) && ActionBlind(matches) && NoneSpoiled(rules, action)
    ensures var d := Decision(rules, matches, c);
            Decision(ProxiedAll(rules, action), matches, c) == if d.None? then None else Some(Proxied(d.value, action))
  {
    if rules == [] {
    } else {
      assert ProxiedAll(rules, action)[1..] == ProxiedAll(rules[1..], action);
      if !IsMatch(rules[0]) {
        ProxiedDecides(rules[1..], action, matches, c);
      }
    }
  }

  /** A rule engine of which only this rule and the catch-all match anything. */
  function OnlyThis(rule: Rule): Matcher<bool> {
    (r: Rule, c: bool) => r == rule || IsMatch(r)
  }

  /** The spoiled rule decided for that engine, and its rewriting does not. */
  lemma {:induction false} SpoiledMisses(rules: seq<Rule>, action: string) returns (rule: Rule)
    requires !NoneSpoiled(rules, action)
    ensures Nested(rule) && Decision(rules, OnlyThis(rule), true) == Some(rule) && Proxied(rule, action) != rule
  {
    if Spoiled(rules[0], action) {
      rule := rules[0];
    } else {
      rule := SpoiledMisses(rules[1..], action);
    }
  }

  lemma {:induction false} DecidedMatches<C>(rules: seq<Rule>, matches: Matcher<C>, c: C)
    ensures Decision(rules, matches, c).Some? ==> matches(Decision(rules, matches, c).value, c)
  {
    if rules == [] {
    } else {
      DecidedMatches(rules[1..], matches, c);
    }
  }

  /** For every rule engine that finds the action of plain rules in their third field, the
      rewritten list decides as the original with the action redirected. */
  ghost predicate RedirectsAlways(rules: seq<Rule>, action: string) {
    forall matches: Matcher<bool>, c: bool | MatchesAll(matches) && ActionBlind(matches) ::
      var d := Decision(rules, matches, c);
      Decision(ProxiedAll(rules, action), matches, c) == if d.None? then None else Some(Proxied(d.value, action))
  }

  /** It does exactly if no rule of nested conditions before the catch-all is rewritten. */
  lemma RedirectsExactly(rules: seq<Rule>, action: string)
    ensures RedirectsAlways(rules, action) <==> NoneSpoiled(rules, action)
  {
    if NoneSpoiled(rules, action) {
      forall matches: Matcher<bool>, c: bool | MatchesAll(matches) && ActionBlind(matches)
        ensures var d := Decision(rules, matches, c);
                Decision(ProxiedAll(rules, action), matches, c) ==
                if d.None? then None else Some(Proxied(d.value, action))
      {
        ProxiedDecides(rules, action, matches, c);
      }
    } else {
      var rule := SpoiledMisses(rules, action);
      DecidedMatches(ProxiedAll(rules, action), OnlyThis(rule), true);
      assert Proxied(rule, action)[0] != "MATCH";
    }
  }

  /** A rule of nested conditions has no action in its third field: rewriting it spoils a
      condition and leaves the rule direct. */
  lemma NestedRuleIsSpoiled(action: string)
    ensures var r := ["AND", "((DOMAIN", "x.org)", "(NETWORK", "UDP))", "DIRECT"];
            var t := Proxied(r, action);
            t == ["AND", "((DOMAIN", action, "(NETWORK", "UDP))", "DIRECT"]
  {
    var r := ["AND", "((DOMAIN", "x.org)", "(NETWORK", "UDP))", "DIRECT"];
    assert StartsWith(r[5], "DIRECT");
  }

  /** Some field but the first and the action begins with DIRECT. */
  predicate MentionsElsewhere(r: Rule) {
    exists i | 1 <= i < |r| && i != 2 :: StartsWith(r[i], "DIRECT")
  }

  /** A rule with its own action is redirected exactly if that action is direct, unless it is
      left alone, or names something beginning with DIRECT elsewhere. */
  lemma RedirectedExactly(r: Rule, action: string)
    requires |r| >= 3 && r[0] != "MATCH" && action != r[2]
    ensures Proxied(r, action) == WithAction(r, action) || Proxied(r, action) == r
    ensures Proxied(r, action) != r <==> !LeftAlone(r) && (StartsWith(r[2], "DIRECT") || MentionsElsewhere(r))
  {
    assert WithAction(r, action)[2] != r[2];
  }

  /** A rule set whose name begins with DIRECT: traffic that was to be rejected goes through. */
  lemma RejectedGoesThrough(action: string)
    requires action != "REJECT"
    ensures Proxied(["RULE-SET", "DIRECT-sites", "REJECT"], action) == ["RULE-SET", "DIRECT-sites", action]
  {
    var r := ["RULE-SET", "DIRECT-sites", "REJECT"];
    assert StartsWith(r[1], "DIRECT");
    assert r[1] != "reject" by { assert |r[1]| == 12 && |"reject"| == 6; }
    forall k | 0 <= k < |KEEP_DIRECT|
      ensures KEEP_DIRECT[k] != [] ==> !Begins(r, KEEP_DIRECT[k])
    {
      assert KEEP_DIRECT[k][0] == "RULE-SET" ==> |KEEP_DIRECT[k][1]| == 7;
      assert r[..2][0] == r[0] && r[..2][1] == r[1];
    }
  }

  /* ---- The loops ---- */

  /** `_dedupe`. */
  method Dedupe<T(==)>(items: seq<T>) returns (out: seq<T>)
    ensures out == Deduped(items)
  {
    out := [];
    var seen: set<T> := {};
    for i := 0 to |items|
      invariant out == Deduped(items[..i])
      invariant seen == set x | x in items[..i]
    {
      assert items[..i + 1][..i] == items[..i] && items[..i + 1] == items[..i] + [items[i]];
      if items[i] !in seen {
        seen := seen + {items[i]};
        out := out + [items[i]];
      }
    }
    assert items[..|items|] == items;
  }
}
