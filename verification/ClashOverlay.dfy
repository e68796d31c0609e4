/** Profiles, transport policy and personal overlays applied to a Clash config
    (hysteria/subscription_profiles.py). Lists are taken as already cleaned texts. */
module ClashOverlay {
  import opened StateStore
  import opened ClashRules

  const NODE_GROUP := "🚀 节点选择"
  const AUTO_GROUP := "🔄 自动选择"
  const GITHUB_GROUP := "⚡ GitHub 加速"
  const GPT_GROUP := "🤖 GPT 优化"
  const GOOGLE_GROUP := "🌐 Google 优化"
  const TELEGRAM_GROUP := "✈️ Telegram 优化"
  const HY2_UDP_PROXY := "🇺🇸 美国 UDP 443"
  const TUIC_UDP_PROXY := "🇺🇸 美国 UDP TUIC"
  const VLESS_TCP_PROXY := "🇺🇸 美国 TCP (VLESS+REALITY)"
  const VLESS_BACKUP_PROXY := "🇺🇸 美国 TCP 备用 (VLESS+REALITY)"
  const DIRECT := "DIRECT"

  datatype Settings = Settings(
    kind: Option<string>, interval: Option<int>, timeout: Option<int>, tolerance: Option<int>)

  const NO_SETTINGS := Settings(None, None, None, None)

  datatype Group = Group(name: string, proxies: seq<string>, settings: Settings)

  datatype Config = Config(
    rules: seq<Rule>, fakeIp: seq<string>, excludes: seq<string>,
    proxies: seq<string>, groups: seq<Group>, quiet: bool)

  datatype Profile = Default | Game | Work | LowData | Safe

  /* ---- Proxy groups ---- */

  function Only(xs: seq<string>, allowed: set<string>): seq<string> {
    if xs == [] then []
    else if xs[0] in allowed then [xs[0]] + Only(xs[1..], allowed)
    else Only(xs[1..], allowed)
  }

  /** A name given twice belongs to its last group. */
  function LastNamed(groups: seq<Group>, name: string): (i: Option<nat>)
    ensures i.Some? ==> i.value < |groups| && groups[i.value].name == name
  {
    if groups == [] then None
    else if groups[|groups| - 1].name == name then Some(|groups| - 1)
    else LastNamed(groups[..|groups| - 1], name)
  }

  function Names(groups: seq<Group>): set<string> { set g | g in groups :: g.name }

  /** What may stand in a group. */
  function Allowed(proxies: seq<string>, groups: seq<Group>, name: string, refs: bool, direct: bool): set<string> {
    (set p | p in proxies) + (if refs then Names(groups) - {name} else {}) + (if direct then {DIRECT} else {})
  }

  /** Only what is allowed, in its order. */
  method KeepOnly(xs: seq<string>, allowed: set<string>) returns (out: seq<string>)
    ensures out == Only(xs, allowed)
  {
    out := [];
    for i := 0 to |xs|
      invariant out == Only(xs[..i], allowed)
    {
      assert xs[..i + 1] == xs[..i] + [xs[i]];
      OnlySnoc(xs[..i], xs[i], allowed);
      if xs[i] in allowed {
        out := out + [xs[i]];
      }
    }
    assert xs[..|xs|] == xs;
  }

  lemma {:induction false} OnlySnoc(xs: seq<string>, x: string, allowed: set<string>)
    ensures Only(xs + [x], allowed) == Only(xs, allowed) + (if x in allowed then [x] else [])
  {
    if xs == [] {
      assert [] + [x] == [x];
    } else {
      assert (xs + [x])[1..] == xs[1..] + [x];
      OnlySnoc(xs[1..], x, allowed);
    }
  }

  /** `_proxy_group_map`, at one name: a later group replaces an earlier one. */
  method FindGroup(groups: seq<Group>, name: string) returns (found: Option<nat>)
    ensures found == LastNamed(groups, name)
  {
    found := None;
    for i := 0 to |groups|
      invariant found == LastNamed(groups[..i], name)
    {
      assert groups[..i + 1][..i] == groups[..i];
      if groups[i].name == name {
        found := Some(i);
      }
    }
    assert groups[..|groups|] == groups;
  }

  /** The names that may stand in the group. */
  method AllowedNames(proxies: seq<string>, groups: seq<Group>, name: string, refs: bool, direct: bool)
    returns (allowed: set<string>)
    ensures allowed == Allowed(proxies, groups, name, refs, direct)
  {
    allowed := {};
    for i := 0 to |proxies|
      invariant allowed == set p | p in proxies[..i]
    {
      assert proxies[..i + 1] == proxies[..i] + [proxies[i]];
      allowed := allowed + {proxies[i]};
    }
    assert proxies[..|proxies|] == proxies;
    if refs {
      for i := 0 to |groups|
        invariant allowed == (set p | p in proxies) + (Names(groups[..i]) - {name})
      {
        assert groups[..i + 1] == groups[..i] + [groups[i]];
        assert Names(groups[..i + 1]) == Names(groups[..i]) + {groups[i].name};
        if groups[i].name != name {
          allowed := allowed + {groups[i].name};
        }
      }
      assert groups[..|groups|] == groups;
    }
    if direct {
      allowed := allowed + {DIRECT};
    }
  }

  function Over<T>(preferred: Option<T>, other: Option<T>): Option<T> { if preferred.Some? then preferred else other }

  function Adjusted(g: Group, preferred: seq<string>, allowed: set<string>, s: Settings): Group {
    Group(g.name,
          Deduped(Only(preferred, allowed - {g.name}) + Only(g.proxies, allowed)),
          Settings(Over(s.kind, g.settings.kind), Over(s.interval, g.settings.interval),
                   Over(s.timeout, g.settings.timeout), Over(s.tolerance, g.settings.tolerance)))
  }

  /** `_set_group_proxies`. */
  function GroupSet(proxies: seq<string>, groups: seq<Group>, name: string, preferred: seq<string>,
                    refs: bool, direct: bool, s: Settings): seq<Group>
  {
    var i := LastNamed(groups, name);
    if i.None? then groups
    else groups[i.value := Adjusted(groups[i.value], preferred, Allowed(proxies, groups, name, refs, direct), s)]
  }

  lemma {:induction false} OnlyMeans(xs: seq<string>, allowed: set<string>, x: string)
    ensures x in Only(xs, allowed) <==> x in xs && x in allowed
  {
    if xs == [] {
    } else {
      OnlyMeans(xs[1..], allowed, x);
    }
  }

  lemma {:induction false} OnlyAll(xs: seq<string>, allowed: set<string>)
    requires forall x | x in xs :: x in allowed
    ensures Only(xs, allowed) == xs
  {
    if xs == [] {
    } else {
      OnlyAll(xs[1..], allowed);
    }
  }

  /** An adjusted group lists only what is allowed, each item once, the preferred first. */
  lemma AdjustedMeans(g: Group, preferred: seq<string>, allowed: set<string>, s: Settings)
    ensures Distinct(Adjusted(g, preferred, allowed, s).proxies)
    ensures forall x :: x in Adjusted(g, preferred, allowed, s).proxies <==>
              x in allowed && ((x in preferred && x != g.name) || x in g.proxies)
  {
    var first, rest := Only(preferred, allowed - {g.name}), Only(g.proxies, allowed);
    DedupedMeans(first + rest);
    forall x
      ensures x in first + rest <==> x in allowed && ((x in preferred && x != g.name) || x in g.proxies)
    {
      OnlyMeans(preferred, allowed - {g.name}, x);
      OnlyMeans(g.proxies, allowed, x);
    }
  }

  lemma {:induction false} OnlyInOrder(xs: seq<string>, allowed: set<string>, x: string, y: string)
    requires x in allowed && y in allowed
    ensures Ahead(Only(xs, allowed), x, y) <==> Ahead(xs, x, y)
  {
    if xs == [] {
    } else {
      var init, last := xs[..|xs| - 1], xs[|xs| - 1];
      assert xs == init + [last];
      OnlyInOrder(init, allowed, x, y);
      OnlyMeans(init, allowed, y);
      OnlySnoc(init, last, allowed);
      AheadSnoc(init, last, x, y);
      AheadSnoc(Only(init, allowed), last, x, y);
      assert last !in allowed ==> Only(xs, allowed) == Only(init, allowed);
      hide Ahead, Only;
    }
  }

  /** The preferred items come first, in the order of preference; the others keep theirs. */
  lemma AdjustedInOrder(g: Group, preferred: seq<string>, allowed: set<string>, s: Settings, x: string, y: string)
    requires x != y
    requires x in Adjusted(g, preferred, allowed, s).proxies && y in Adjusted(g, preferred, allowed, s).proxies
    ensures Ahead(Adjusted(g, preferred, allowed, s).proxies, x, y) <==>
            var (first, later) := (x in preferred && x != g.name, y in preferred && y != g.name);
            if first && later then Ahead(preferred, x, y) else first || (!later && Ahead(g.proxies, x, y))
  {
    var first, rest := Only(preferred, allowed - {g.name}), Only(g.proxies, allowed);
    AdjustedMeans(g, preferred, allowed, s);
    DedupedMeans(first + rest);
    OnlyMeans(preferred, allowed - {g.name}, x);
    OnlyMeans(preferred, allowed - {g.name}, y);
    FirstInOrder(first, rest, x, y);
    hide Ahead, Only, Deduped;
    if x in first && y in first {
      OnlyInOrder(preferred, allowed - {g.name}, x, y);
    }
    OnlyInOrder(g.proxies, allowed, x, y);
  }

  lemma {:induction false} LastNamedMeans(groups: seq<Group>, name: string)
    ensures LastNamed(groups, name).None? <==> forall g | g in groups :: g.name != name
    ensures LastNamed(groups, name).Some? ==>
              forall j | LastNamed(groups, name).value < j < |groups| :: groups[j].name != name
  {
    if groups == [] {
    } else {
      LastNamedMeans(groups[..|groups| - 1], name);
    }
  }

  /** Only the last group of the name changes: it then lists exactly the proxies, the other
      groups' names where they may stand there, and DIRECT where it may, that were preferred
      or listed before; each setting given replaces the old one. */
  lemma GroupSetMeans(proxies: seq<string>, groups: seq<Group>, name: string, preferred: seq<string>,
                      refs: bool, direct: bool, s: Settings)
    returns (i: nat)
    requires exists g :: g in groups && g.name == name
    ensures i < |groups| && groups[i].name == name && forall j | i < j < |groups| :: groups[j].name != name
    ensures var after := GroupSet(proxies, groups, name, preferred, refs, direct, s);
            && after == groups[i := after[i]] && after[i].name == name
            && (forall x :: x in after[i].proxies <==>
                  && (|| x in proxies
                      || (refs && x != name && exists g :: g in groups && g.name == x)
                      || (direct && x == "DIRECT"))
                  && ((x in preferred && x != name) || x in groups[i].proxies))
            && (forall x, y | x != y && x in after[i].proxies && y in after[i].proxies ::
                  Ahead(after[i].proxies, x, y) <==>
                    var (first, later) := (x in preferred && x != name, y in preferred && y != name);
                    if first && later then Ahead(preferred, x, y)
                    else first || (!later && Ahead(groups[i].proxies, x, y)))
            && after[i].settings.kind == (if s.kind.Some? then s.kind else groups[i].settings.kind)
            && after[i].settings.interval == (if s.interval.Some? then s.interval else groups[i].settings.interval)
            && after[i].settings.timeout == (if s.timeout.Some? then s.timeout else groups[i].settings.timeout)
            && after[i].settings.tolerance == (if s.tolerance.Some? then s.tolerance else groups[i].settings.tolerance)
  {
    LastNamedMeans(groups, name);
    i := LastNamed(groups, name).value;
    var allowed := Allowed(proxies, groups, name, refs, direct);
    AdjustedMeans(groups[i], preferred, allowed, s);
    var after := GroupSet(proxies, groups, name, preferred, refs, direct, s);
    forall x, y | x != y && x in after[i].proxies && y in after[i].proxies
      ensures Ahead(after[i].proxies, x, y) <==>
              var (first, later) := (x in preferred && x != name, y in preferred && y != name);
              if first && later then Ahead(preferred, x, y)
              else first || (!later && Ahead(groups[i].proxies, x, y))
    {
      AdjustedInOrder(groups[i], preferred, allowed, s, x, y);
    }
    hide Ahead, Only, Deduped;
  }

  lemma AdjustedAgain(g: Group, preferred: seq<string>, allowed: set<string>, s: Settings)
    ensures Adjusted(Adjusted(g, preferred, allowed, s), preferred, allowed, s) == Adjusted(g, preferred, allowed, s)
  {
    var first, rest := Only(preferred, allowed - {g.name}), Only(g.proxies, allowed);
    AdjustedMeans(g, preferred, allowed, s);
    OnlyAll(Adjusted(g, preferred, allowed, s).proxies, allowed);
    DedupedAgain(first, rest);
    hide Deduped, Only;
  }

  /** Adjusting one group leaves names, places and all other groups alone. */
  lemma {:induction false} SameNames(groups: seq<Group>, i: nat, g: Group, name: string)
    requires i < |groups| && g.name == groups[i].name
    ensures Names(groups[i := g]) == Names(groups)
    ensures LastNamed(groups[i := g], name) == LastNamed(groups, name)
  {
    SamePlaces(groups, i, g, name);
    var after := groups[i := g];
    forall n
      ensures n in Names(after) <==> n in Names(groups)
    {
      if n in Names(groups) {
        var j :| 0 <= j < |groups| && groups[j].name == n;
        assert after[j].name == n && after[j] in after;
      }
      if n in Names(after) {
        var j :| 0 <= j < |after| && after[j].name == n;
      }
    }
  }

  lemma {:induction false} SamePlaces(groups: seq<Group>, i: nat, g: Group, name: string)
    requires i < |groups| && g.name == groups[i].name
    ensures LastNamed(groups[i := g], name) == LastNamed(groups, name)
  {
    var init := groups[..|groups| - 1];
    if i < |groups| - 1 {
      SamePlaces(init, i, g, name);
    }
  }

  lemma GroupSetAgain(proxies: seq<string>, groups: seq<Group>, name: string, preferred: seq<string>,
                      refs: bool, direct: bool, s: Settings)
    ensures var once := GroupSet(proxies, groups, name, preferred, refs, direct, s);
            GroupSet(proxies, once, name, preferred, refs, direct, s) == once
  {
    var i := LastNamed(groups, name);
    if i.Some? {
      var allowed := Allowed(proxies, groups, name, refs, direct);
      AdjustedAgain(groups[i.value], preferred, allowed, s);
      SameNames(groups, i.value, Adjusted(groups[i.value], preferred, allowed, s), name);
      hide Adjusted, Names, LastNamed;
    }
  }

  /** Two groups of different names can be adjusted in either order. */
  lemma GroupSetsCommute(proxies: seq<string>, groups: seq<Group>,
                         n: string, np: seq<string>, nr: bool, nd: bool, ns: Settings,
                         a: string, ap: seq<string>, ar: bool, ad: bool, s: Settings)
    requires n != a
    ensures GroupSet(proxies, GroupSet(proxies, groups, n, np, nr, nd, ns), a, ap, ar, ad, s)
            == GroupSet(proxies, GroupSet(proxies, groups, a, ap, ar, ad, s), n, np, nr, nd, ns)
  {
    var i, j := LastNamed(groups, n), LastNamed(groups, a);
    if i.Some? && j.Some? {
      var g := Adjusted(groups[i.value], np, Allowed(proxies, groups, n, nr, nd), ns);
      var h := Adjusted(groups[j.value], ap, Allowed(proxies, groups, a, ar, ad), s);
      SameNames(groups, i.value, g, a);
      SameNames(groups, j.value, h, n);
      assert groups[i.value := g][j.value := h] == groups[j.value := h][i.value := g];
      hide Adjusted, Names, LastNamed;
    } else if i.Some? {
      var g := Adjusted(groups[i.value], np, Allowed(proxies, groups, n, nr, nd), ns);
      SameNames(groups, i.value, g, a);
      hide Adjusted, Names, LastNamed;
    } else if j.Some? {
      var h := Adjusted(groups[j.value], ap, Allowed(proxies, groups, a, ar, ad), s);
      SameNames(groups, j.value, h, n);
      hide Adjusted, Names, LastNamed;
    }
  }

  /* ---- Profiles ---- */

  function NodePreference(p: Profile): seq<string> {
    match p
    case Default => []
    case Game =>
      [HY2_UDP_PROXY, TUIC_UDP_PROXY, GPT_GROUP, GOOGLE_GROUP, TELEGRAM_GROUP, AUTO_GROUP, VLESS_TCP_PROXY,
       VLESS_BACKUP_PROXY, GITHUB_GROUP, DIRECT]
    case Work =>
      [GITHUB_GROUP, GPT_GROUP, GOOGLE_GROUP, TELEGRAM_GROUP, AUTO_GROUP, VLESS_TCP_PROXY, VLESS_BACKUP_PROXY,
       HY2_UDP_PROXY, TUIC_UDP_PROXY, DIRECT]
    case LowData =>
      [DIRECT, GPT_GROUP, GOOGLE_GROUP, TELEGRAM_GROUP, AUTO_GROUP, VLESS_TCP_PROXY, VLESS_BACKUP_PROXY,
       HY2_UDP_PROXY, TUIC_UDP_PROXY, GITHUB_GROUP]
    case Safe =>
      [GPT_GROUP, GOOGLE_GROUP, TELEGRAM_GROUP, AUTO_GROUP, VLESS_TCP_PROXY, VLESS_BACKUP_PROXY, HY2_UDP_PROXY,
       TUIC_UDP_PROXY, DIRECT]
  }

  function AutoPreference(p: Profile): seq<string> {
    if p == Game then [HY2_UDP_PROXY, TUIC_UDP_PROXY, VLESS_TCP_PROXY, VLESS_BACKUP_PROXY]
    else [VLESS_TCP_PROXY, VLESS_BACKUP_PROXY, HY2_UDP_PROXY, TUIC_UDP_PROXY]
  }

  function AutoSettings(p: Profile): Settings {
    match p
    case Default => NO_SETTINGS
    case Game => Settings(Some("url-test"), Some(20), Some(2500), Some(50))
    case Work => Settings(Some("fallback"), Some(60), Some(6000), None)
    case LowData => Settings(Some("fallback"), Some(90), Some(6000), None)
    case Safe => Settings(Some("fallback"), Some(45), Some(5000), None)
  }

  const GAME_RULES: seq<Rule> := [
    ["DOMAIN-SUFFIX", "steamcommunity.com", NODE_GROUP],
    ["DOMAIN-SUFFIX", "epicgames.com", NODE_GROUP],
    ["DOMAIN-SUFFIX", "epicgames.dev", NODE_GROUP],
    ["DOMAIN-SUFFIX", "riotgames.com", NODE_GROUP],
    ["DOMAIN-SUFFIX", "steamcontent.com", DIRECT],
    ["DOMAIN-SUFFIX", "steamserver.net", DIRECT]]

  const WORK_RULES: seq<Rule> := [
    ["DOMAIN-SUFFIX", "slack.com", NODE_GROUP],
    ["DOMAIN-SUFFIX", "notion.so", NODE_GROUP],
    ["DOMAIN-SUFFIX", "zoom.us", NODE_GROUP],
    ["DOMAIN-SUFFIX", "linear.app", NODE_GROUP]]

  function ProfileRules(p: Profile, rules: seq<Rule>): seq<Rule> {
    match p
    case Default => rules
    case Game => Prepended(rules, GAME_RULES)
    case Work => Prepended(rules, WORK_RULES)
    case LowData => MatchReplaced(rules, DIRECT)
    case Safe => MatchReplaced(ProxiedAll(rules, NODE_GROUP), NODE_GROUP)
  }

  function NodeSet(proxies: seq<string>, groups: seq<Group>, p: Profile): seq<Group> {
    GroupSet(proxies, groups, NODE_GROUP, NodePreference(p), true, true, NO_SETTINGS)
  }

  function AutoSet(proxies: seq<string>, groups: seq<Group>, p: Profile): seq<Group> {
    GroupSet(proxies, groups, AUTO_GROUP, AutoPreference(p), false, false, AutoSettings(p))
  }

  /** `apply_subscription_profile`. */
  function Profiled(c: Config, p: Profile): Config {
    if p == Default then c else
    c.(groups := AutoSet(c.proxies, NodeSet(c.proxies, c.groups, p), p),
       rules := ProfileRules(p, c.rules),
       quiet := c.quiet || p == LowData)
  }

  /** Adjusting the automatic group leaves every other group alone. */
  lemma NodeGroupProfiled(c: Config, p: Profile) returns (i: nat)
    requires p != Default && exists g :: g in c.groups && g.name == NODE_GROUP
    ensures i < |c.groups| && c.groups[i].name == NODE_GROUP
    ensures forall j | i < j < |c.groups| :: c.groups[j].name != NODE_GROUP
    ensures var (groups, after) := (NodeSet(c.proxies, c.groups, p), Profiled(c, p).groups);
            i < |groups| && |after| == |c.groups| && i < |after| && after[i] == groups[i]
  {
    i := GroupSetMeans(c.proxies, c.groups, NODE_GROUP, NodePreference(p), true, true, NO_SETTINGS);
    var groups := NodeSet(c.proxies, c.groups, p);
    assert AUTO_GROUP != NODE_GROUP;
    hide GroupSet, NodePreference, AutoPreference, AutoSettings, Ahead;
    if exists g :: g in groups && g.name == AUTO_GROUP {
      var j := GroupSetMeans(c.proxies, groups, AUTO_GROUP, AutoPreference(p), false, false, AutoSettings(p));
    } else {
      NothingSet(c.proxies, groups, AUTO_GROUP, AutoPreference(p), false, false, AutoSettings(p));
    }
  }

  lemma NothingSet(proxies: seq<string>, groups: seq<Group>, name: string, preferred: seq<string>,
                   refs: bool, direct: bool, s: Settings)
    requires forall g | g in groups :: g.name != name
    ensures GroupSet(proxies, groups, name, preferred, refs, direct, s) == groups
  {
    LastNamedMeans(groups, name);
  }

  /** What each profile chooses first: low-data goes direct before anything else, every other
      profile keeps direct for last; the game profile tries the fast UDP transport before
      TCP, the others TCP before UDP. */
  lemma ProfilePrefers(c: Config, p: Profile) returns (i: nat)
    requires p != Default && exists g :: g in c.groups && g.name == NODE_GROUP
    ensures i < |c.groups| == |Profiled(c, p).groups| && c.groups[i].name == NODE_GROUP
    ensures var list := Profiled(c, p).groups[i].proxies;
            && (p == LowData && "DIRECT" in list ==> list[0] == "DIRECT")
            && (p != LowData && "DIRECT" in list ==>
                  forall x | x in list && x in {HY2_UDP_PROXY, VLESS_TCP_PROXY} :: Ahead(list, x, "DIRECT"))
            && (HY2_UDP_PROXY in list && VLESS_TCP_PROXY in list ==>
                  (Ahead(list, HY2_UDP_PROXY, VLESS_TCP_PROXY) <==> p == Game))
  {
    i := NodeGroupProfiled(c, p);
    var k := GroupSetMeans(c.proxies, c.groups, NODE_GROUP, NodePreference(p), true, true, NO_SETTINGS);
    assert k == i;
    NodeOrder(p);
    var list := Profiled(c, p).groups[i].proxies;
    hide Ahead, GroupSet, NodePreference, AutoSet, Profiled;
    if p == LowData && "DIRECT" in list {
      AheadIsFirst(list, "DIRECT");
    }
  }

  lemma AheadIsFirst(list: seq<string>, x: string)
    requires x in list && forall y | y in list && y != x :: Ahead(list, x, y)
    ensures list[0] == x
  {
    assert list[0] != x ==> !Ahead(list, x, list[0]);
  }

  /** In the automatic group likewise; it tests speed for games and falls back otherwise, and
      probes the less often the less traffic the profile wants. */
  lemma AutoOrder(p: Profile)
    requires p != Default
    ensures HY2_UDP_PROXY in AutoPreference(p) && VLESS_TCP_PROXY in AutoPreference(p)
    ensures Ahead(AutoPreference(p), HY2_UDP_PROXY, VLESS_TCP_PROXY) <==> p == Game
    ensures AutoSettings(p).kind == Some(if p == Game then "url-test" else "fallback")
    ensures 0 < AutoSettings(Game).interval.value < AutoSettings(Safe).interval.value
            < AutoSettings(Work).interval.value < AutoSettings(LowData).interval.value
  {
    var first := AutoPreference(p);
    if p == Game {
      assert first[0] == HY2_UDP_PROXY && first[2] == VLESS_TCP_PROXY;
    } else {
      assert first[0] == VLESS_TCP_PROXY && first[2] == HY2_UDP_PROXY;
    }
  }

  lemma NodeOrder(p: Profile)
    requires p != Default
    ensures var first := NodePreference(p);
            && HY2_UDP_PROXY in first && VLESS_TCP_PROXY in first && "DIRECT" in first && NODE_GROUP !in first
            && (Ahead(first, HY2_UDP_PROXY, VLESS_TCP_PROXY) <==> p == Game)
            && (p != LowData ==> Ahead(first, HY2_UDP_PROXY, "DIRECT") && Ahead(first, VLESS_TCP_PROXY, "DIRECT"))
            && (p == LowData ==> forall x | x != "DIRECT" :: Ahead(first, "DIRECT", x))
  {
    var first := NodePreference(p);
    match p
    case Game => assert first[0] == HY2_UDP_PROXY && first[6] == VLESS_TCP_PROXY && first[9] == "DIRECT";
    case Work => assert first[5] == VLESS_TCP_PROXY && first[7] == HY2_UDP_PROXY && first[9] == "DIRECT";
    case LowData => assert first[5] == VLESS_TCP_PROXY && first[7] == HY2_UDP_PROXY && first[0] == "DIRECT";
    case Safe => assert first[4] == VLESS_TCP_PROXY && first[6] == HY2_UDP_PROXY && first[8] == "DIRECT";
  }

  /** Once the catch-all has its new action, sending direct rules through the proxy again
      changes nothing. */
  lemma {:induction false} ProxiedSettled(rules: seq<Rule>, action: string)
    ensures var once := MatchReplaced(ProxiedAll(rules, action), action); ProxiedAll(once, action) == once
  {
    var q := ProxiedAll(rules, action);
    WithMatchAt(q, action);
    var once := MatchReplaced(q, action);
    forall i | 0 <= i < |once|
      ensures Proxied(once[i], action) == once[i]
    {
    }
  }

  lemma {:induction false} WithMatchAt(rules: seq<Rule>, action: string)
    ensures |WithMatch(rules, action)| == |rules|
    ensures forall i | 0 <= i < |rules| ::
              WithMatch(rules, action)[i] == if IsMatch(rules[i]) then ["MATCH", action] else rules[i]
  {
    if rules == [] {
    } else {
      WithMatchAt(rules[1..], action);
    }
  }

  lemma ProfileRulesAgain(p: Profile, rules: seq<Rule>)
    ensures ProfileRules(p, ProfileRules(p, rules)) == ProfileRules(p, rules)
  {
    match p
    case Default =>
    case Game => PrependedAgain(rules, GAME_RULES);
    case Work => PrependedAgain(rules, WORK_RULES);
    case LowData => MatchReplacedAgain(rules, DIRECT);
    case Safe =>
      ProxiedSettled(rules, NODE_GROUP);
      MatchReplacedAgain(ProxiedAll(rules, NODE_GROUP), NODE_GROUP);
  }

  /** Applying a profile twice is applying it once. */
  lemma {:induction false} ProfiledAgain(c: Config, p: Profile)
    ensures Profiled(Profiled(c, p), p) == Profiled(c, p)
  {
    if p != Default {
      ProfileRulesAgain(p, c.rules);
      var n := NodeSet(c.proxies, c.groups, p);
      GroupSetsCommute(c.proxies, n, NODE_GROUP, NodePreference(p), true, true, NO_SETTINGS,
                       AUTO_GROUP, AutoPreference(p), false, false, AutoSettings(p));
      GroupSetAgain(c.proxies, c.groups, NODE_GROUP, NodePreference(p), true, true, NO_SETTINGS);
      GroupSetAgain(c.proxies, n, AUTO_GROUP, AutoPreference(p), false, false, AutoSettings(p));
      hide GroupSet, ProfileRules, NodePreference, AutoPreference, AutoSettings;
    }
  }

  /** What each profile makes of the base list's decision. */
  lemma ProfileDecides<C(!new)>(p: Profile, rules: seq<Rule>, matches: Matcher<C>, c: C)
    requires p == LowData || p == Safe ==> MatchesAll(matches)
    requires p == Safe ==> ActionBlind(matches) && NoneSpoiled(rules, NODE_GROUP)
    ensures var d := Decision(rules, matches, c);
            Decision(ProfileRules(p, rules), matches, c) ==
            match p
            case Default => d
            case Game => Over(Decision(GAME_RULES, matches, c), d)
            case Work => Over(Decision(WORK_RULES, matches, c), d)
            case LowData => Some(if d.None? || IsMatch(d.value) then ["MATCH", DIRECT] else d.value)
            case Safe => Some(if d.None? || IsMatch(Proxied(d.value, NODE_GROUP)) then ["MATCH", NODE_GROUP]
                              else Proxied(d.value, NODE_GROUP))
  {
    match p
    case Default =>
    case Game => PrependedDecides(rules, GAME_RULES, matches, c);
    case Work => PrependedDecides(rules, WORK_RULES, matches, c);
    case LowData => MatchReplacedDecides(rules, DIRECT, matches, c);
    case Safe =>
      ProxiedDecides(rules, NODE_GROUP, matches, c);
      MatchReplacedDecides(ProxiedAll(rules, NODE_GROUP), NODE_GROUP, matches, c);
  }

  /* ---- Transport policy and personal overlay ---- */

  /** `_remove_proxy_everywhere`. */
  function ProxyRemoved(c: Config, name: string): Config {
    c.(proxies := Without(c.proxies, [name]),
       groups := seq(|c.groups|, i requires 0 <= i < |c.groups| =>
         c.groups[i].(proxies := Without(c.groups[i].proxies, [name]))))
  }

  /** Additions go first; an empty list of them leaves even duplicates alone. */
  function AddedFirst(xs: seq<string>, first: seq<string>): seq<string> {
    if first == [] then xs else Deduped(first + xs)
  }

  /** A user's own lists, or those of a rule pack. */
  datatype Overlay = Overlay(rules: seq<Rule>, fakeIp: seq<string>, excludes: seq<string>)

  /** `apply_user_clash_overrides` and `apply_rule_pack_to_clash_config`. */
  function Overlaid(c: Config, o: Overlay): Config {
    c.(rules := if o.rules == [] then c.rules else Prepended(c.rules, o.rules),
       fakeIp := AddedFirst(c.fakeIp, o.fakeIp),
       excludes := AddedFirst(c.excludes, o.excludes))
  }

  lemma AddedFirstAgain(xs: seq<string>, first: seq<string>)
    ensures AddedFirst(AddedFirst(xs, first), first) == AddedFirst(xs, first)
  {
    DedupedAgain(first, xs);
  }

  /** The same overlay or rule pack, applied again, changes nothing. */
  lemma OverlaidAgain(c: Config, o: Overlay)
    ensures Overlaid(Overlaid(c, o), o) == Overlaid(c, o)
  {
    PrependedAgain(c.rules, o.rules);
    AddedFirstAgain(c.fakeIp, o.fakeIp);
    AddedFirstAgain(c.excludes, o.excludes);
    hide AddedFirst, Prepended;
  }

  /** The order of stages in `render_subscription`. */
  function Rendered(c: Config, p: Profile, tuic: bool, o: Overlay): Config {
    var profiled := Profiled(c, p);
    Overlaid(if tuic then profiled else ProxyRemoved(profiled, TUIC_UDP_PROXY), o)
  }

  /** In the rendered list the personal rules decide wherever one of them matches, and
      everywhere else the base as the profile changed it. */
  lemma RenderedDecides<C>(c: Config, p: Profile, tuic: bool, o: Overlay, matches: Matcher<C>, x: C)
    ensures Decision(Rendered(c, p, tuic, o).rules, matches, x) ==
            Over(Decision(o.rules, matches, x), Decision(ProfileRules(p, c.rules), matches, x))
  {
    PrependedDecides(ProfileRules(p, c.rules), o.rules, matches, x);
  }

  /** The same list less one name. */
  ghost predicate Lacks(after: seq<string>, before: seq<string>, name: string) {
    && (forall x :: x in after <==> x in before && x != name)
    && forall x, y | x != name && y != name :: Ahead(after, x, y) <==> Ahead(before, x, y)
  }

  lemma WithoutLacks(xs: seq<string>, name: string)
    ensures Lacks(Without(xs, [name]), xs, name)
  {
    forall x
      ensures x in Without(xs, [name]) <==> x in xs && x != name
    {
      WithoutMeans(xs, [name], x);
    }
    forall x, y | x != name && y != name
      ensures Ahead(Without(xs, [name]), x, y) <==> Ahead(xs, x, y)
    {
      WithoutInOrder(xs, [name], x, y);
    }
    hide Ahead, Without;
  }

  /** A removed proxy is in no list any more; every other item stays, and so does all else. */
  lemma ProxyGone(c: Config, name: string)
    ensures var after := ProxyRemoved(c, name);
            && Lacks(after.proxies, c.proxies, name)
            && |after.groups| == |c.groups|
            && (forall i | 0 <= i < |c.groups| ::
                  && after.groups[i] == c.groups[i].(proxies := after.groups[i].proxies)
                  && Lacks(after.groups[i].proxies, c.groups[i].proxies, name))
            && after == c.(proxies := after.proxies, groups := after.groups)
  {
    WithoutLacks(c.proxies, name);
    forall i | 0 <= i < |c.groups|
      ensures Lacks(ProxyRemoved(c, name).groups[i].proxies, c.groups[i].proxies, name)
    {
      WithoutLacks(c.groups[i].proxies, name);
    }
    hide Lacks, Without;
  }

  /** A user without TUIC is handed its proxy nowhere; a user with it gets the proxies of the
      base and the groups as the profile leaves them. */
  lemma RenderedTransport(c: Config, p: Profile, tuic: bool, o: Overlay)
    ensures var out, groups := Rendered(c, p, tuic, o), Profiled(c, p).groups;
            && (tuic ==> out.proxies == c.proxies && out.groups == groups)
            && (!tuic ==>
                  && Lacks(out.proxies, c.proxies, "🇺🇸 美国 UDP TUIC")
                  && |out.groups| == |groups|
                  && forall i | 0 <= i < |groups| ::
                       && out.groups[i] == groups[i].(proxies := out.groups[i].proxies)
                       && Lacks(out.groups[i].proxies, groups[i].proxies, "🇺🇸 美国 UDP TUIC"))
  {
    ProxyGone(Profiled(c, p), TUIC_UDP_PROXY);
    hide Lacks, ProxyRemoved;
    assert Profiled(c, p).proxies == c.proxies;
  }

  /** The user's own entries come first, each entry once, and the others stay in their order;
      with none of them, the list is the base's. */
  lemma RenderedLists(c: Config, p: Profile, tuic: bool, o: Overlay)
    ensures var out := Rendered(c, p, tuic, o);
            && ListedFirst(out.fakeIp, o.fakeIp, c.fakeIp) && ListedFirst(out.excludes, o.excludes, c.excludes)
            && (out.quiet <==> c.quiet || p == LowData)
  {
    AddedListsFirst(c.fakeIp, o.fakeIp);
    AddedListsFirst(c.excludes, o.excludes);
    hide ListedFirst, AddedFirst;
  }

  ghost predicate ListedFirst(out: seq<string>, first: seq<string>, rest: seq<string>) {
    && (first == [] ==> out == rest)
    && (first != [] ==> Distinct(out))
    && (forall x :: x in out <==> x in first || x in rest)
    && forall x, y | x != y && x in out && y in out && first != [] ::
         Ahead(out, x, y) <==>
           if x in first && y in first then Ahead(first, x, y) else x in first || (y !in first && Ahead(rest, x, y))
  }

  lemma AddedListsFirst(xs: seq<string>, first: seq<string>)
    ensures ListedFirst(AddedFirst(xs, first), first, xs)
  {
    DedupedMeans(first + xs);
    forall x, y | x != y && x in first + xs && y in first + xs
      ensures Ahead(Deduped(first + xs), x, y) <==>
              if x in first && y in first then Ahead(first, x, y) else x in first || (y !in first && Ahead(xs, x, y))
    {
      FirstInOrder(first, xs, x, y);
    }
    hide Ahead, Deduped, Distinct;
  }

  /* ---- The in-place edits ---- */

  class ClashConfig {
    var rules: seq<Rule>
    var fakeIp: seq<string>
    var excludes: seq<string>
    var proxies: seq<string>
    var groups: seq<Group>
    var quiet: bool

    ghost function Contents(): Config
      reads this
    {
      Config(rules, fakeIp, excludes, proxies, groups, quiet)
    }

    constructor (c: Config)
      ensures Contents() == c
    {
      rules, fakeIp, excludes := c.rules, c.fakeIp, c.excludes;
      proxies, groups, quiet := c.proxies, c.groups, c.quiet;
    }

    method PrependUniqueRules(first: seq<Rule>)
      modifies `rules
      ensures rules == Prepended(old(rules), first)
    {
      var existing: seq<Rule> := [];
      for i := 0 to |rules|
        invariant rules == old(rules) && existing == Without(rules[..i], first)
      {
        assert rules[..i + 1] == rules[..i] + [rules[i]];
        WithoutSnoc(rules[..i], rules[i], first);
        if rules[i] !in first {
          existing := existing + [rules[i]];
        }
      }
      assert rules[..|rules|] == rules;
      rules := first + existing;
    }

    method ReplaceMatchRule(action: string)
      modifies `rules
      ensures rules == MatchReplaced(old(rules), action)
    {
      var out: seq<Rule> := [];
      var replaced := false;
      for i := 0 to |rules|
        invariant rules == old(rules) && out == WithMatch(rules[..i], action)
        invariant replaced <==> exists r | r in rules[..i] :: IsMatch(r)
      {
        assert rules[..i + 1] == rules[..i] + [rules[i]];
        WithMatchConcat(rules[..i], [rules[i]], action);
        assert [rules[i]][1..] == [];
        if IsMatch(rules[i]) {
          out := out + [["MATCH", action]];
          replaced := true;
          assert rules[i] in rules[..i + 1];
        } else {
          out := out + [rules[i]];
        }
      }
      assert rules[..|rules|] == rules;
      if !replaced {
        out := out + [["MATCH", action]];
      }
      rules := out;
    }

    method SetGroupProxies(name: string, preferred: seq<string>, refs: bool, direct: bool, s: Settings)
      modifies `groups
      ensures groups == GroupSet(proxies, old(groups), name, preferred, refs, direct, s)
    {
      var i := FindGroup(groups, name);
      if i.None? {
        return;
      }
      var g := groups[i.value];
      var allowed := AllowedNames(proxies, groups, name, refs, direct);
      var current := KeepOnly(g.proxies, allowed);
      var ordered := KeepOnly(preferred, allowed - {name});
      var listed := Dedupe(ordered + current);
      var settings := Settings(Over(s.kind, g.settings.kind), Over(s.interval, g.settings.interval),
                               Over(s.timeout, g.settings.timeout), Over(s.tolerance, g.settings.tolerance));
      groups := groups[i.value := Group(g.name, listed, settings)];
    }

    /** The loop of `_apply_safe_profile` over the rules. */
    method SendDirectThrough(action: string)
      modifies `rules
      ensures rules == ProxiedAll(old(rules), action)
    {
      var rewritten: seq<Rule> := [];
      for i := 0 to |rules|
        invariant rules == old(rules) && |rewritten| == i
        invariant forall j | 0 <= j < i :: rewritten[j] == Proxied(rules[j], action)
      {
        var rule := rules[i];
        if LeftAlone(rule) {
          rewritten := rewritten + [rule];
        } else if IsMatch(rule) {
          rewritten := rewritten + [["MATCH", action]];
        } else if MentionsDirect(rule) {
          rewritten := rewritten + [ActionRewritten(rule, action)];
        } else {
          rewritten := rewritten + [rule];
        }
      }
      rules := rewritten;
    }

    method ApplyProfile(p: Profile)
      modifies this
      ensures Contents() == Profiled(old(Contents()), p)
    {
      hide GroupSet, Prepended, MatchReplaced, ProxiedAll, NodePreference, AutoPreference, AutoSettings;
      if p == Default {
        return;
      }
      if p == LowData {
        quiet := true;
      }
      SetGroupProxies(NODE_GROUP, NodePreference(p), true, true, NO_SETTINGS);
      SetGroupProxies(AUTO_GROUP, AutoPreference(p), false, false, AutoSettings(p));
      match p
      case Game => PrependUniqueRules(GAME_RULES);
      case Work => PrependUniqueRules(WORK_RULES);
      case LowData => ReplaceMatchRule(DIRECT);
      case Safe =>
        SendDirectThrough(NODE_GROUP);
        ReplaceMatchRule(NODE_GROUP);
    }

    method RemoveProxyEverywhere(name: string)
      modifies `proxies, `groups
      ensures Contents() == ProxyRemoved(old(Contents()), name)
    {
      proxies := Without(proxies, [name]);
      for i := 0 to |groups|
        invariant |groups| == |old(groups)|
        invariant forall j | 0 <= j < |groups| ::
                    groups[j] == if j >= i then old(groups)[j]
                                 else old(groups)[j].(proxies := Without(old(groups)[j].proxies, [name]))
        invariant proxies == Without(old(proxies), [name])
      {
        groups := groups[i := groups[i].(proxies := Without(groups[i].proxies, [name]))];
      }
    }

    method ApplyOverlay(o: Overlay)
      modifies this
      ensures Contents() == Overlaid(old(Contents()), o)
    {
      if o.rules != [] {
        PrependUniqueRules(o.rules);
      }
      if o.fakeIp != [] {
        fakeIp := Dedupe(o.fakeIp + fakeIp);
      }
      if o.excludes != [] {
        excludes := Dedupe(o.excludes + excludes);
      }
    }

    /** The stages of `render_subscription` that edit the config. */
    method Render(p: Profile, tuic: bool, o: Overlay)
      modifies this
      ensures Contents() == Rendered(old(Contents()), p, tuic, o)
    {
      hide Profiled, ProxyRemoved, Overlaid;
      ApplyProfile(p);
      if !tuic {
        RemoveProxyEverywhere(TUIC_UDP_PROXY);
      }
      ApplyOverlay(o);
    }
  }
}
