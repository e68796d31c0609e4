/** Reconciling the clients of the Xray config with the plan (hysteria/xray_config.py): one
    user at a time, or as an exact rebuild. */
module XrayClients {
  import opened StateStore

  type User = string
  type Port = nat

  const PRIMARY_PORT: Port := 443
  const INBOUND_PORTS: set<Port> := {443, 8443}
  const BACKUP_SUFFIX := "@hy2-backup.invalid"
  const FLOW := "xtls-rprx-vision"

  datatype Client = Client(id: string, email: string, flow: string)

  /** Only the fields the reconciliation looks at. */
  datatype Inbound = Inbound(vless: bool, port: Port, clients: seq<Client>)

  predicate Managed(ib: Inbound) { ib.vless && ib.port in INBOUND_PORTS }

  /* ---- Client names ---- */

  predicate NameChar(c: char) {
    'A' <= c <= 'Z' || 'a' <= c <= 'z' || '0' <= c <= '9' || c == '_' || c == '.' || c == '-'
  }

  predicate EndsWith(s: string, suffix: string) {
    |suffix| <= |s| && s[|s| - |suffix|..] == suffix
  }

  /** `is_valid_username` (hysteria/user_compat.py). */
  predicate ValidUsername(s: string) {
    1 <= |s| <= 64 && (forall c | c in s :: NameChar(c)) && !EndsWith(s, ".json")
  }

  function EmailFor(port: Port, u: User): string {
    if port == PRIMARY_PORT then u else u + BACKUP_SUFFIX
  }

  function StripBackupSuffix(email: string): User {
    if EndsWith(email, BACKUP_SUFFIX) then email[..|email| - |BACKUP_SUFFIX|] else email
  }

  lemma SuffixBringsAt(s: string)
    ensures EndsWith(s, BACKUP_SUFFIX) ==> '@' in s
  {
    if EndsWith(s, BACKUP_SUFFIX) {
      assert s[|s| - |BACKUP_SUFFIX|] == s[|s| - |BACKUP_SUFFIX|..][0] == '@';
    }
  }

  /** On either port a client's email leads back to its user. */
  lemma EmailLeadsBack(port: Port, u: User)
    requires port in INBOUND_PORTS && ValidUsername(u)
    ensures StripBackupSuffix(EmailFor(port, u)) == u
  {
    SuffixBringsAt(u);
  }

  /** No two users, and no two ports of one user, share an email. */
  lemma EmailsDistinct(p: Port, u: User, q: Port, v: User)
    requires p in INBOUND_PORTS && q in INBOUND_PORTS && ValidUsername(u) && ValidUsername(v)
    ensures EmailFor(p, u) == EmailFor(q, v) <==> p == q && u == v
  {
    EmailLeadsBack(p, u);
    EmailLeadsBack(q, v);
  }

  /* ---- The steps ---- */

  /** Some client with this email, the first one. */
  function FirstWith(cs: seq<Client>, email: string): (i: nat)
    ensures i <= |cs|
    ensures i < |cs| ==> cs[i].email == email
    ensures forall j | 0 <= j < i :: cs[j].email != email
  {
    if cs == [] || cs[0].email == email then 0 else 1 + FirstWith(cs[1..], email)
  }

  function SyncedClients(cs: seq<Client>, email: string, id: string): seq<Client> {
    var i := FirstWith(cs, email);
    if i < |cs| then cs[i := Client(id, email, FLOW)] else cs + [Client(id, email, FLOW)]
  }

  /** The client is some port's client of this user. */
  predicate NamesUser(c: Client, u: User) { exists p | p in INBOUND_PORTS :: c.email == EmailFor(p, u) }

  function Kept(cs: seq<Client>, u: User): seq<Client> {
    if cs == [] then []
    else if NamesUser(cs[0], u) then Kept(cs[1..], u)
    else [cs[0]] + Kept(cs[1..], u)
  }

  /** One user's entry of the plan applied to one inbound. */
  function Applied(ib: Inbound, u: User, id: Option<string>): Inbound {
    if id.Some? then
      if Managed(ib) then ib.(clients := SyncedClients(ib.clients, EmailFor(ib.port, u), id.value)) else ib
    else
      if ib.vless then ib.(clients := Kept(ib.clients, u)) else ib
  }

  type Plan = map<User, Option<string>>

  function AppliedAll(ib: Inbound, plan: Plan, order: seq<User>): Inbound
    requires forall u | u in order :: u in plan
  {
    if order == [] then ib
    else
      var u := order[|order| - 1];
      Applied(AppliedAll(ib, plan, order[..|order| - 1]), u, plan[u])
  }

  /** The clients an exact rebuild puts on one port, users in the given order. */
  function DesiredClients(port: Port, plan: Plan, order: seq<User>): seq<Client>
    requires forall u | u in order :: u in plan
  {
    if order == [] then []
    else
      var u := order[|order| - 1];
      DesiredClients(port, plan, order[..|order| - 1])
      + (if plan[u].Some? then [Client(plan[u].value, EmailFor(port, u), FLOW)] else [])
  }

  function Rebuilt(ib: Inbound, plan: Plan, order: seq<User>): Inbound
    requires forall u | u in order :: u in plan
  {
    if Managed(ib) then ib.(clients := DesiredClients(ib.port, plan, order)) else ib
  }

  /** An order in which a dictionary, or a sorted listing of it, gives the plan's users. */
  ghost predicate Lists(order: seq<User>, plan: Plan) {
    && (forall u :: u in order <==> u in plan)
    && forall i, j | 0 <= i < j < |order| :: order[i] != order[j]
  }

  /** Removing a user takes its clients of either port out of every VLESS inbound, whatever
      its port, and no others. */
  lemma RemovedEverywhere(ib: Inbound, u: User)
    ensures var after := Applied(ib, u, None);
            && after == ib.(clients := after.clients)
            && forall c :: c in after.clients <==>
                 c in ib.clients && !(ib.vless && (c.email == u || c.email == u + "@hy2-backup.invalid"))
  {
    KeptMeans(ib.clients, u);
    assert EmailFor(443, u) == u && EmailFor(8443, u) == u + "@hy2-backup.invalid";
    forall c
      ensures NamesUser(c, u) <==> c.email == u || c.email == u + "@hy2-backup.invalid"
    {
      assert c.email == EmailFor(443, u) || c.email == EmailFor(8443, u) ==> NamesUser(c, u);
    }
  }

  /** Setting a user's client replaces the first one of that email, or adds one at the end,
      on the two managed ports only. */
  lemma SetOnManaged(ib: Inbound, u: User, id: string)
    ensures var (after, cs) := (Applied(ib, u, Some(id)), ib.clients);
            && after == ib.(clients := after.clients)
            && (!(ib.vless && (ib.port == 443 || ib.port == 8443)) ==> after == ib)
            && (ib.vless && (ib.port == 443 || ib.port == 8443) ==>
                  var email := if ib.port == 443 then u else u + "@hy2-backup.invalid";
                  var want := Client(id, email, "xtls-rprx-vision");
                  || (after.clients == cs + [want] && forall c | c in cs :: c.email != email)
                  || exists i :: 0 <= i < |cs| && after.clients == cs[i := want] && cs[i].email == email
                                 && forall j | 0 <= j < i :: cs[j].email != email)
  {
  }

  /* ---- The incremental path refines the rebuild ---- */

  ghost predicate UniqueEmails(cs: seq<Client>) {
    forall i, j | 0 <= i < j < |cs| :: cs[i].email != cs[j].email
  }

  ghost predicate Wants(port: Port, plan: Plan, u: User, c: Client) {
    u in plan && plan[u].Some? && c == Client(plan[u].value, EmailFor(port, u), FLOW)
  }

  /** This user has exactly the client the plan wants. */
  ghost predicate Fits(cs: seq<Client>, port: Port, plan: Plan, u: User) {
    && u in plan
    && (plan[u].Some? ==> Client(plan[u].value, EmailFor(port, u), FLOW) in cs)
    && forall c | c in cs && c.email == EmailFor(port, u) :: Wants(port, plan, u, c)
  }

  ghost predicate OfPlan(cs: seq<Client>, port: Port, plan: Plan) {
    forall c | c in cs :: exists u | u in plan :: c.email == EmailFor(port, u)
  }

  /** Unique emails, all of them of the plan's users on this port; the users in `done` are
      as the plan wants them. */
  ghost predicate Settled(cs: seq<Client>, port: Port, plan: Plan, done: set<User>) {
    UniqueEmails(cs) && OfPlan(cs, port, plan) && forall u | u in done :: Fits(cs, port, plan, u)
  }

  ghost predicate ValidPlan(plan: Plan) { forall u | u in plan :: ValidUsername(u) }

  /** Setting one email's client leaves every other client where it was. */
  lemma SyncedMeans(cs: seq<Client>, email: string, id: string)
    requires UniqueEmails(cs)
    ensures UniqueEmails(SyncedClients(cs, email, id))
    ensures forall c :: c in SyncedClients(cs, email, id) <==>
              c == Client(id, email, FLOW) || (c in cs && c.email != email)
  {
    var after, i, want := SyncedClients(cs, email, id), FirstWith(cs, email), Client(id, email, FLOW);
    assert after[i] == want;
    forall c
      ensures c in after <==> c == want || (c in cs && c.email != email)
    {
      if c in cs && c.email != email {
        var j :| 0 <= j < |cs| && cs[j] == c;
        assert after[j] == c;
      }
      if c in after && c != want {
        var j :| 0 <= j < |after| && after[j] == c;
      }
    }
  }

  /** The clients after one user's entry was applied: that user's, if any is wanted, and
      the others unchanged. */
  ghost predicate Replaces(cs: seq<Client>, after: seq<Client>, port: Port, plan: Plan, u: User) {
    && (forall c | c in cs && c.email != EmailFor(port, u) :: c in after)
    && (forall c | c in after :: (c in cs && c.email != EmailFor(port, u)) || Wants(port, plan, u, c))
    && (u in plan && plan[u].Some? ==> Client(plan[u].value, EmailFor(port, u), FLOW) in after)
  }

  lemma ReplacedFits(cs: seq<Client>, after: seq<Client>, port: Port, plan: Plan, u: User, v: User)
    requires port in INBOUND_PORTS && ValidPlan(plan) && Replaces(cs, after, port, plan, u)
    requires u in plan && v in plan && (v != u ==> Fits(cs, port, plan, v))
    ensures Fits(after, port, plan, v)
  {
    EmailsDistinct(port, u, port, v);
    hide EmailFor, ValidPlan;
  }

  lemma SettlesBy(cs: seq<Client>, after: seq<Client>, port: Port, plan: Plan, done: set<User>, u: User)
    requires port in INBOUND_PORTS && ValidPlan(plan) && Settled(cs, port, plan, done) && u in plan
             && UniqueEmails(after)
    requires Replaces(cs, after, port, plan, u)
    ensures Settled(after, port, plan, done + {u})
  {
    forall v | v in done + {u}
      ensures Fits(after, port, plan, v)
    {
      ReplacedFits(cs, after, port, plan, u, v);
    }
    hide EmailFor, UniqueEmails, ValidPlan, Replaces, OfPlan, Fits;
  }

  lemma SyncSettles(cs: seq<Client>, port: Port, plan: Plan, done: set<User>, u: User)
    requires port in INBOUND_PORTS && ValidPlan(plan) && Settled(cs, port, plan, done)
    requires u in plan && plan[u].Some?
    ensures Settled(SyncedClients(cs, EmailFor(port, u), plan[u].value), port, plan, done + {u})
  {
    SyncedMeans(cs, EmailFor(port, u), plan[u].value);
    hide SyncedClients, EmailFor, UniqueEmails, ValidPlan, Settled;
    SettlesBy(cs, SyncedClients(cs, EmailFor(port, u), plan[u].value), port, plan, done, u);
  }

  lemma {:induction false} KeptMeans(cs: seq<Client>, u: User)
    ensures forall c :: c in Kept(cs, u) <==> c in cs && !NamesUser(c, u)
    ensures UniqueEmails(cs) ==> UniqueEmails(Kept(cs, u))
  {
    hide NamesUser;
    if cs == [] {
    } else {
      KeptMeans(cs[1..], u);
      assert cs == [cs[0]] + cs[1..];
      var rest := Kept(cs[1..], u);
      assert forall i | 0 <= i < |rest| :: rest[i] in rest && rest[i] in cs[1..];
    }
  }

  lemma RemoveSettles(cs: seq<Client>, port: Port, plan: Plan, done: set<User>, u: User)
    requires port in INBOUND_PORTS && ValidPlan(plan) && Settled(cs, port, plan, done)
    requires u in plan && plan[u].None?
    ensures Settled(Kept(cs, u), port, plan, done + {u})
  {
    KeptMeans(cs, u);
    forall c | c in cs && c.email != EmailFor(port, u)
      ensures c in Kept(cs, u)
    {
      var v :| v in plan && c.email == EmailFor(port, v);
      forall p | p in INBOUND_PORTS
        ensures c.email != EmailFor(p, u)
      {
        EmailsDistinct(port, v, p, u);
      }
    }
    hide EmailFor, ValidPlan, Kept, Settled;
    SettlesBy(cs, Kept(cs, u), port, plan, done, u);
  }

  lemma AppliedSettles(ib: Inbound, plan: Plan, done: set<User>, u: User)
    requires Managed(ib) && ValidPlan(plan) && Settled(ib.clients, ib.port, plan, done) && u in plan
    ensures var after := Applied(ib, u, plan[u]);
            Managed(after) && after.port == ib.port && Settled(after.clients, ib.port, plan, done + {u})
  {
    hide Settled, SyncedClients, Kept, ValidPlan;
    if plan[u].Some? {
      SyncSettles(ib.clients, ib.port, plan, done, u);
    } else {
      RemoveSettles(ib.clients, ib.port, plan, done, u);
    }
  }

  lemma {:induction false} IncrementalSettles(ib: Inbound, plan: Plan, order: seq<User>)
    requires Managed(ib) && ValidPlan(plan) && Settled(ib.clients, ib.port, plan, {})
    requires forall u | u in order :: u in plan
    ensures var after := AppliedAll(ib, plan, order);
            && Managed(after) && after.port == ib.port
            && Settled(after.clients, ib.port, plan, (set u | u in order))
  {
    hide Settled, Applied, Managed, ValidPlan;
    if order == [] {
      assert (set u | u in order) == {};
    } else {
      var init, u := order[..|order| - 1], order[|order| - 1];
      IncrementalSettles(ib, plan, init);
      assert (set v | v in order) == (set v | v in init) + {u};
      AppliedSettles(AppliedAll(ib, plan, init), plan, (set v | v in init), u);
    }
  }

  lemma {:induction false} DesiredMeans(port: Port, plan: Plan, order: seq<User>, c: Client)
    requires forall u | u in order :: u in plan
    ensures c in DesiredClients(port, plan, order) <==> exists u :: u in order && Wants(port, plan, u, c)
  {
    if order == [] {
    } else {
      var init, last := order[..|order| - 1], order[|order| - 1];
      DesiredMeans(port, plan, init, c);
      assert DesiredClients(port, plan, order) ==
             DesiredClients(port, plan, init) + (if plan[last].Some? then [Client(plan[last].value, EmailFor(port,
                            last), FLOW)] else []);
      if c in DesiredClients(port, plan, init) {
        var u :| u in init && Wants(port, plan, u, c);
      }
      hide DesiredClients, EmailFor;
    }
  }

  /** What is settled for every user is exactly what the rebuild writes. */
  lemma SettledIsDesired(cs: seq<Client>, port: Port, plan: Plan, ranked: seq<User>, c: Client)
    requires Lists(ranked, plan) && Settled(cs, port, plan, plan.Keys)
    ensures c in cs <==> c in DesiredClients(port, plan, ranked)
  {
    DesiredMeans(port, plan, ranked, c);
    hide DesiredClients, EmailFor, UniqueEmails;
    if c in cs {
      var u :| u in plan && c.email == EmailFor(port, u);
    }
  }

  /** Applied user by user, in whatever order, to clients with unique emails of the plan's
      users, the plan gives each port the same clients as the exact rebuild, each once. */
  lemma IncrementalIsExact(ib: Inbound, plan: Plan, order: seq<User>, ranked: seq<User>)
    requires Managed(ib) && ValidPlan(plan) && Lists(order, plan) && Lists(ranked, plan)
    requires UniqueEmails(ib.clients) && OfPlan(ib.clients, ib.port, plan)
    ensures UniqueEmails(AppliedAll(ib, plan, order).clients)
    ensures forall c :: c in AppliedAll(ib, plan, order).clients <==> c in Rebuilt(ib, plan, ranked).clients
  {
    IncrementalSettles(ib, plan, order);
    var after := AppliedAll(ib, plan, order).clients;
    forall c
      ensures c in after <==> c in DesiredClients(ib.port, plan, ranked)
    {
      SettledIsDesired(after, ib.port, plan, ranked, c);
    }
    hide AppliedAll, DesiredClients, OfPlan, ValidPlan, Fits;
  }

  /* ---- Exactly when ---- */

  /** The client is, on some port, of a user the plan takes out. */
  ghost predicate Leaves(c: Client, plan: Plan) {
    exists u | u in plan :: plan[u].None? && NamesUser(c, u)
  }

  /** The clients but those of the users the plan takes out. */
  ghost function Staying(cs: seq<Client>, plan: Plan): seq<Client> {
    if cs == [] then []
    else (if Leaves(cs[0], plan) then [] else [cs[0]]) + Staying(cs[1..], plan)
  }

  ghost predicate OfWanted(cs: seq<Client>, port: Port, plan: Plan) {
    forall c | c in cs :: exists u | u in plan :: plan[u].Some? && c.email == EmailFor(port, u)
  }

  /** Of the clients that stay, each is of a wanted user on this port, and no two are of one. */
  ghost predicate Manageable(cs: seq<Client>, port: Port, plan: Plan) {
    UniqueEmails(Staying(cs, plan)) && OfWanted(Staying(cs, plan), port, plan)
  }

  lemma {:induction false} StayingMeans(cs: seq<Client>, plan: Plan)
    ensures forall c :: c in Staying(cs, plan) <==> c in cs && !Leaves(c, plan)
  {
    if cs == [] {
    } else {
      StayingMeans(cs[1..], plan);
      assert cs == [cs[0]] + cs[1..];
    }
  }

  lemma {:induction false} StayingAll(cs: seq<Client>, plan: Plan)
    requires forall c | c in cs :: !Leaves(c, plan)
    ensures Staying(cs, plan) == cs
  {
    if cs == [] {
    } else {
      StayingAll(cs[1..], plan);
    }
  }

  lemma {:induction false} StayingKept(cs: seq<Client>, plan: Plan, u: User)
    requires u in plan && plan[u].None?
    ensures Staying(Kept(cs, u), plan) == Staying(cs, plan)
  {
    if cs == [] {
    } else {
      StayingKept(cs[1..], plan, u);
      hide NamesUser;
      assert NamesUser(cs[0], u) ==> Leaves(cs[0], plan);
      assert !NamesUser(cs[0], u) ==> Kept(cs, u)[1..] == Kept(cs[1..], u);
    }
  }

  lemma SyncedRest(cs: seq<Client>, email: string, id: string)
    ensures cs != [] && cs[0].email != email ==>
              SyncedClients(cs, email, id) == [cs[0]] + SyncedClients(cs[1..], email, id)
    ensures cs != [] && cs[0].email == email ==> SyncedClients(cs, email, id) == [Client(id, email, FLOW)] + cs[1..]
  {
  }

  lemma WantedStays(port: Port, plan: Plan, u: User, c: Client)
    requires port in INBOUND_PORTS && ValidPlan(plan) && u in plan && plan[u].Some? && c.email == EmailFor(port, u)
    ensures !Leaves(c, plan)
  {
    forall v, p | v in plan && plan[v].None? && p in INBOUND_PORTS
      ensures c.email != EmailFor(p, v)
    {
      EmailsDistinct(port, u, p, v);
    }
    hide EmailFor;
  }

  lemma {:induction false} StayingSynced(cs: seq<Client>, port: Port, plan: Plan, u: User)
    requires port in INBOUND_PORTS && ValidPlan(plan) && u in plan && plan[u].Some?
    ensures var e, id := EmailFor(port, u), plan[u].value;
            Staying(SyncedClients(cs, e, id), plan) == SyncedClients(Staying(cs, plan), e, id)
  {
    var e, id := EmailFor(port, u), plan[u].value;
    var want := Client(id, e, FLOW);
    WantedStays(port, plan, u, want);
    if cs == [] {
      assert SyncedClients([], e, id) == [want] && Staying([want], plan) == [want] + Staying([], plan);
    } else {
      StayingSynced(cs[1..], port, plan, u);
      SyncedRest(cs, e, id);
      SyncedRest(Staying(cs, plan), e, id);
      if cs[0].email == e {
        WantedStays(port, plan, u, cs[0]);
      }
      hide SyncedClients, EmailFor, Leaves, ValidPlan;
      var rest, later := Staying(cs[1..], plan), SyncedClients(cs[1..], e, id);
      assert ([want] + cs[1..])[1..] == cs[1..] && ([cs[0]] + later)[1..] == later && ([cs[0]] + rest)[1..] == rest;
      assert [] + rest == rest && [] + Staying(later, plan) == Staying(later, plan);
    }
  }

  /** What stays goes through the incremental path as if nothing else had been there. */
  lemma {:induction false} StayingApplied(ib: Inbound, plan: Plan, order: seq<User>)
    requires Managed(ib) && ValidPlan(plan) && forall u | u in order :: u in plan
    ensures var after := AppliedAll(ib, plan, order);
            var alone := AppliedAll(ib.(clients := Staying(ib.clients, plan)), plan, order);
            && after == ib.(clients := after.clients) && alone == ib.(clients := alone.clients)
            && Staying(after.clients, plan) == Staying(alone.clients, plan)
  {
    if order == [] {
      StayingMeans(ib.clients, plan);
      StayingAll(Staying(ib.clients, plan), plan);
    } else {
      var init, u := order[..|order| - 1], order[|order| - 1];
      StayingApplied(ib, plan, init);
      var after := AppliedAll(ib, plan, init).clients;
      var alone := AppliedAll(ib.(clients := Staying(ib.clients, plan)), plan, init).clients;
      if plan[u].Some? {
        StayingSynced(after, ib.port, plan, u);
        StayingSynced(alone, ib.port, plan, u);
      } else {
        StayingKept(after, plan, u);
        StayingKept(alone, plan, u);
      }
      hide Staying, SyncedClients, Kept, EmailFor, ValidPlan;
    }
  }

  lemma SyncedFrom(cs: seq<Client>, email: string, id: string)
    ensures forall c | c in SyncedClients(cs, email, id) :: c in cs || c == Client(id, email, FLOW)
  {
    var after := SyncedClients(cs, email, id);
    forall c | c in after
      ensures c in cs || c == Client(id, email, FLOW)
    {
      var i :| 0 <= i < |after| && after[i] == c;
    }
  }

  /** In the end nobody is left whom the plan takes out. */
  lemma {:induction false} NobodyLeaves(ib: Inbound, plan: Plan, order: seq<User>)
    requires Managed(ib) && ValidPlan(plan) && forall u | u in order :: u in plan
    ensures AppliedAll(ib, plan, order) == ib.(clients := AppliedAll(ib, plan, order).clients)
    ensures forall u, c | u in order && plan[u].None? && c in AppliedAll(ib, plan, order).clients :: !NamesUser(c, u)
  {
    if order == [] {
    } else {
      var init, u := order[..|order| - 1], order[|order| - 1];
      NobodyLeaves(ib, plan, init);
      var cs := AppliedAll(ib, plan, init).clients;
      if plan[u].Some? {
        SyncedFrom(cs, EmailFor(ib.port, u), plan[u].value);
        WantedStays(ib.port, plan, u, Client(plan[u].value, EmailFor(ib.port, u), FLOW));
      } else {
        KeptMeans(cs, u);
      }
      hide SyncedClients, Kept, EmailFor, ValidPlan, NamesUser;
    }
  }

  /** Clients, once there, keep their place and their email in every setting of a client. */
  ghost predicate Extends(cs: seq<Client>, after: seq<Client>) {
    |cs| <= |after| && forall i | 0 <= i < |cs| :: after[i].email == cs[i].email
  }

  lemma {:induction false} StayingExtends(ib: Inbound, plan: Plan, order: seq<User>)
    requires Managed(ib) && ValidPlan(plan) && forall u | u in order :: u in plan
    ensures Extends(Staying(ib.clients, plan), Staying(AppliedAll(ib, plan, order).clients, plan))
  {
    if order == [] {
    } else {
      var init, u := order[..|order| - 1], order[|order| - 1];
      StayingExtends(ib, plan, init);
      NobodyLeaves(ib, plan, init);
      var cs := AppliedAll(ib, plan, init).clients;
      if plan[u].Some? {
        StayingSynced(cs, ib.port, plan, u);
      } else {
        StayingKept(cs, plan, u);
      }
      hide Staying, Kept, EmailFor, ValidPlan;
    }
  }

  /** The clients of users taken out make no difference. */
  lemma LeavingAside(ib: Inbound, plan: Plan, order: seq<User>)
    requires Managed(ib) && ValidPlan(plan) && Lists(order, plan)
    ensures var after := AppliedAll(ib, plan, order).clients;
            && Staying(after, plan) == after
            && AppliedAll(ib.(clients := Staying(ib.clients, plan)), plan, order).clients == after
  {
    var alone := ib.(clients := Staying(ib.clients, plan));
    NobodyLeaves(ib, plan, order);
    NobodyLeaves(alone, plan, order);
    hide AppliedAll, Staying, NamesUser, ValidPlan;
    StayingAll(AppliedAll(ib, plan, order).clients, plan);
    StayingAll(AppliedAll(alone, plan, order).clients, plan);
    StayingApplied(ib, plan, order);
  }

  /** If the clients end as the rebuild's, each once, those that stayed were of wanted users,
      no two of one. */
  lemma ExtendedFrom(stay: seq<Client>, after: seq<Client>, port: Port, plan: Plan, ranked: seq<User>)
    requires Extends(stay, after) && Lists(ranked, plan) && UniqueEmails(after)
    requires forall c :: c in after <==> c in DesiredClients(port, plan, ranked)
    ensures UniqueEmails(stay) && OfWanted(stay, port, plan)
  {
    hide DesiredClients, EmailFor;
    forall c | c in stay
      ensures exists u | u in plan :: plan[u].Some? && c.email == EmailFor(port, u)
    {
      var i :| 0 <= i < |stay| && stay[i] == c;
      DesiredMeans(port, plan, ranked, after[i]);
    }
  }

  /** Applied user by user, in whatever order, the plan gives a port the same clients as the
      exact rebuild, each once, if and only if those that stay are of wanted users on this
      port, no two of one user. */
  lemma IncrementalExactly(ib: Inbound, plan: Plan, order: seq<User>, ranked: seq<User>)
    requires Managed(ib) && ValidPlan(plan) && Lists(order, plan) && Lists(ranked, plan)
    ensures var after, rebuilt := AppliedAll(ib, plan, order).clients, Rebuilt(ib, plan, ranked).clients;
            UniqueEmails(after) && (forall c :: c in after <==> c in rebuilt)
            <==> Manageable(ib.clients, ib.port, plan)
  {
    var stay, after := Staying(ib.clients, plan), AppliedAll(ib, plan, order).clients;
    LeavingAside(ib, plan, order);
    StayingExtends(ib, plan, order);
    hide AppliedAll, DesiredClients, Staying, ValidPlan, UniqueEmails, EmailFor;
    if Manageable(ib.clients, ib.port, plan) {
      IncrementalIsExact(ib.(clients := stay), plan, order, ranked);
    }
    if UniqueEmails(after) && forall c :: c in after <==> c in DesiredClients(ib.port, plan, ranked) {
      ExtendedFrom(stay, after, ib.port, plan, ranked);
    }
  }

  /** Otherwise it does not: for one, a client of somebody the plan does not know
      survives the incremental path and not the rebuild. */
  lemma StrangerSurvives()
    ensures var ib := Inbound(true, 443, [Client("1", "gone", FLOW)]);
            var plan: Plan := map["alice" := Some("2")];
            && Client("1", "gone", FLOW) in AppliedAll(ib, plan, ["alice"]).clients
            && Client("1", "gone", FLOW) !in Rebuilt(ib, plan, ["alice"]).clients
  {
  }

  /* ---- The in-place updates ---- */

  class XrayConfig {
    var inbounds: seq<Inbound>

    constructor (inbounds: seq<Inbound>)
      ensures this.inbounds == inbounds
    {
      this.inbounds := inbounds;
    }

    /** `_apply_sync` and `_apply_remove`: one user on every inbound; true when anything changed. */
    method ApplyUser(u: User, id: Option<string>) returns (changed: bool)
      modifies this
      ensures |inbounds| == |old(inbounds)|
      ensures forall i | 0 <= i < |inbounds| :: inbounds[i] == Applied(old(inbounds)[i], u, id)
      ensures changed <==> inbounds != old(inbounds)
    {
      changed := false;
      for i := 0 to |inbounds|
        invariant |inbounds| == |old(inbounds)|
        invariant forall j | 0 <= j < |inbounds| ::
                    inbounds[j] == if j < i then Applied(old(inbounds)[j], u, id) else old(inbounds)[j]
        invariant changed <==> inbounds != old(inbounds)
      {
        var ib := inbounds[i];
        ghost var before := inbounds;
        if id.Some? && Managed(ib) {
          var email := EmailFor(ib.port, u);
          var k := FirstWith(ib.clients, email);
          if k == |ib.clients| {
            inbounds := inbounds[i := ib.(clients := ib.clients + [Client(id.value, email, FLOW)])];
            changed := true;
            assert |inbounds[i].clients| != |old(inbounds)[i].clients|;
          } else if ib.clients[k].id != id.value || ib.clients[k].flow != FLOW {
            inbounds := inbounds[i := ib.(clients := ib.clients[k := Client(id.value, email, FLOW)])];
            changed := true;
            assert inbounds[i].clients[k] != old(inbounds)[i].clients[k];
          } else {
            assert ib.clients[k := Client(id.value, email, FLOW)] == ib.clients;
          }
        } else if id.None? && ib.vless {
          KeptLength(ib.clients, u);
          var kept := Kept(ib.clients, u);
          if |kept| != |ib.clients| {
            inbounds := inbounds[i := ib.(clients := kept)];
            changed := true;
            assert |inbounds[i].clients| != |old(inbounds)[i].clients|;
          }
        }
        assert forall j | 0 <= j < |inbounds| && j != i :: inbounds[j] == before[j];
      }
    }

    /** `apply_user_plan` without pruning: the plan's users in the dictionary's order. */
    method ApplyUserPlan(plan: Plan, order: seq<User>) returns (changed: bool)
      requires Lists(order, plan)
      modifies this
      ensures |inbounds| == |old(inbounds)|
      ensures forall i | 0 <= i < |inbounds| :: inbounds[i] == AppliedAll(old(inbounds)[i], plan, order)
      ensures !changed ==> inbounds == old(inbounds)
    {
      changed := false;
      for k := 0 to |order|
        invariant |inbounds| == |old(inbounds)|
        invariant forall i | 0 <= i < |inbounds| :: inbounds[i] == AppliedAll(old(inbounds)[i], plan, order[..k])
        invariant !changed ==> inbounds == old(inbounds)
      {
        assert order[..k + 1][..k] == order[..k];
        var one := ApplyUser(order[k], plan[order[k]]);
        changed := one || changed;
      }
      assert order[..|order|] == order;
    }

    /** `_apply_managed_plan`: replace the managed client lists; true when anything changed. */
    method ApplyManagedPlan(plan: Plan, ranked: seq<User>) returns (changed: bool)
      requires Lists(ranked, plan)
      modifies this
      ensures |inbounds| == |old(inbounds)|
      ensures forall i | 0 <= i < |inbounds| :: inbounds[i] == Rebuilt(old(inbounds)[i], plan, ranked)
      ensures changed <==> inbounds != old(inbounds)
    {
      changed := false;
      for i := 0 to |inbounds|
        invariant |inbounds| == |old(inbounds)|
        invariant forall j | 0 <= j < |inbounds| ::
                    inbounds[j] == if j < i then Rebuilt(old(inbounds)[j], plan, ranked) else old(inbounds)[j]
        invariant changed <==> inbounds != old(inbounds)
      {
        var ib := inbounds[i];
        if Managed(ib) {
          var desired := DesiredClients(ib.port, plan, ranked);
          if ib.clients != desired {
            inbounds := inbounds[i := ib.(clients := desired)];
            changed := true;
            assert inbounds[i].clients != old(inbounds)[i].clients;
          }
        }
      }
    }
  }

  lemma {:induction false} KeptLength(cs: seq<Client>, u: User)
    ensures |Kept(cs, u)| <= |cs| && (|Kept(cs, u)| == |cs| ==> Kept(cs, u) == cs)
  {
    if cs == [] {
    } else {
      KeptLength(cs[1..], u);
    }
  }

  lemma {:induction false} KeptAll(cs: seq<Client>, u: User)
    requires forall c | c in cs :: !NamesUser(c, u)
    ensures Kept(cs, u) == cs
  {
    hide NamesUser;
    if cs == [] {
    } else {
      KeptAll(cs[1..], u);
    }
  }

  lemma SettledStays(ib: Inbound, plan: Plan, done: set<User>, u: User)
    requires Managed(ib) && ValidPlan(plan) && Settled(ib.clients, ib.port, plan, done) && u in done
    ensures Applied(ib, u, plan[u]) == ib
  {
    var cs := ib.clients;
    if plan[u].Some? {
      var email := EmailFor(ib.port, u);
      var j :| 0 <= j < |cs| && cs[j] == Client(plan[u].value, email, FLOW);
      hide EmailFor, UniqueEmails, Kept;
    } else {
      forall c | c in cs
        ensures !NamesUser(c, u)
      {
        var v :| v in plan && c.email == EmailFor(ib.port, v);
        forall p | p in INBOUND_PORTS
          ensures c.email != EmailFor(p, u)
        {
          EmailsDistinct(ib.port, v, p, u);
        }
      }
      KeptAll(cs, u);
      hide Settled, EmailFor, Kept;
    }
  }

  lemma {:induction false} SettledStaysAll(ib: Inbound, plan: Plan, order: seq<User>, done: set<User>)
    requires Managed(ib) && ValidPlan(plan) && Settled(ib.clients, ib.port, plan, done)
    requires forall u | u in order :: u in plan && u in done
    ensures AppliedAll(ib, plan, order) == ib
  {
    if order == [] {
    } else {
      SettledStaysAll(ib, plan, order[..|order| - 1], done);
      SettledStays(ib, plan, done, order[|order| - 1]);
    }
  }

  /** On such clients either path applied a second time, in whatever order, changes nothing,
      so the second call alone asks for no reload. */
  lemma ReapplyingChangesNothing(ib: Inbound, plan: Plan, order: seq<User>, again: seq<User>, ranked: seq<User>)
    requires Managed(ib) && ValidPlan(plan) && Lists(order, plan) && Lists(again, plan) && Lists(ranked, plan)
    requires UniqueEmails(ib.clients) && OfPlan(ib.clients, ib.port, plan)
    ensures AppliedAll(AppliedAll(ib, plan, order), plan, again) == AppliedAll(ib, plan, order)
    ensures Rebuilt(Rebuilt(ib, plan, ranked), plan, ranked) == Rebuilt(ib, plan, ranked)
  {
    IncrementalSettles(ib, plan, order);
    SettledStaysAll(AppliedAll(ib, plan, order), plan, again, set u | u in order);
  }
}
