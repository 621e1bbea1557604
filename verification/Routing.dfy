/**
  Choosing the workflow route of an inbound message.

  `MatchRoute` is the dictionary loop of the gateway.  The lemmas say what it decides for a given list,
  for which lists the order plays no part, and what the channel-id copies of routes do.
 */
module Routing {
  import opened Wrappers
  import opened Text

  const MAX_ROUTE_INPUT_CHARS := 32000

  datatype MatchType = Prefix | Regex

  datatype Route = Route(
    workflow: string,
    channel: string,
    triggerWords: seq<string>,
    ruleId: string,
    provider: string,
    priority: int,
    matchType: MatchType,
    pattern: string,
    trustedUsers: seq<string>,
    trustedWebhookIds: seq<string>,
    trustedWebhookNames: seq<string>,
    allowBot: bool,
    rootPostsOnly: bool,
    preserveFullBody: bool,
    allowedAccounts: set<string>,
    allowedEnvironments: set<string>)

  datatype Message = Message(
    provider: string, channelId: string, channelName: string, text: string, userId: string,
    messageId: string, threadId: string, isBot: bool, isWebhook: bool, webhookId: string, webhookName: string)

  // The regular-expression engine: what follows the first match of a pattern, and the account and
  // environment names found in a text (environments already folded to their canonical names).
  datatype Engine = Engine(
    search: (string, string) -> Option<string>, accounts: string -> set<string>, environments: string -> set<string>)

  type Identity = (string, string, MatchType, string, seq<string>)

  function IdentityOf(r: Route): Identity {
    (r.workflow, r.ruleId, r.matchType, r.pattern, r.triggerWords)
  }

  /******* One route against one message *******/

  predicate MeetsConstraints(e: Engine, text: string, r: Route) {
    && (r.allowedAccounts != {} ==> e.accounts(text) != {} && e.accounts(text) <= r.allowedAccounts)
    && (r.allowedEnvironments != {} ==> e.environments(text) != {} && e.environments(text) <= r.allowedEnvironments)
  }

  predicate Trusts(m: Message, r: Route) {
    if r.trustedUsers != [] && m.userId !in r.trustedUsers then false
    else if !(m.isBot || m.isWebhook) then true
    else if !r.allowBot || r.trustedUsers == [] then false
    else if m.isWebhook then
      || (m.webhookId != "" && m.webhookId in r.trustedWebhookIds)
      || (m.webhookName != "" && m.webhookName in r.trustedWebhookNames)
    else true
  }

  predicate StartsWith(text: string, prefix: string) {
    prefix <= text
  }

  function TriggerPrompt(text: string, triggers: seq<string>): Option<string> {
    if triggers == [] then None
    else if StartsWith(Lower(text), triggers[0]) && Strip(text[|triggers[0]|..]) != ""
    then Some(Strip(text[|triggers[0]|..]))
    else TriggerPrompt(text, triggers[1..])
  }

  function RoutePrompt(e: Engine, m: Message, r: Route, text: string): Option<string> {
    if r.provider != "" && r.provider != m.provider then None
    else if r.rootPostsOnly && m.threadId != m.messageId then None
    else if !Trusts(m, r) || !MeetsConstraints(e, text, r) then None
    else if r.ruleId != "" then
      if r.matchType == Regex then
        (match e.search(r.pattern, text)
         case None => None
         case Some(rest) => NonEmpty(if r.preserveFullBody then text else Strip(rest)))
      else if !StartsWith(Lower(text), Lower(r.pattern)) then None
      else NonEmpty(if r.preserveFullBody then text else Strip(text[|r.pattern|..]))
    else TriggerPrompt(text, r.triggerWords)
  }

  function Channels(m: Message): set<string> {
    {Lower(Strip(m.channelId)), Lower(Strip(m.channelName))} - {""}
  }

  function RoutedText(m: Message): string {
    var text := Strip(m.text);
    if |text| <= MAX_ROUTE_INPUT_CHARS then text else text[..MAX_ROUTE_INPUT_CHARS]
  }

  // What a route makes of a message, if it matches at all.
  function PromptFor(e: Engine, m: Message, r: Route): Option<string> {
    if r.channel !in Channels(m) then None else RoutePrompt(e, m, r, RoutedText(m))
  }

  function Prompts(e: Engine, m: Message): Route -> Option<string> {
    r => PromptFor(e, m, r)
  }

  /******* When a route matches, condition by condition *******/

  // The sender is one the route trusts; bots and webhooks need permission and an explicit user, and
  // webhooks a trusted id or name as well.
  predicate SenderTrusted(m: Message, r: Route) {
    && (r.trustedUsers == [] || m.userId in r.trustedUsers)
    && (m.isBot || m.isWebhook ==> r.allowBot && m.userId in r.trustedUsers)
    && (m.isWebhook ==> (m.webhookId != "" && m.webhookId in r.trustedWebhookIds)
                        || (m.webhookName != "" && m.webhookName in r.trustedWebhookNames))
  }

  // The text mentions accounts and environments where the route limits them, and only allowed ones.
  predicate MentionsAllowed(e: Engine, text: string, r: Route) {
    && (r.allowedAccounts == {} || (e.accounts(text) != {} && forall a <- e.accounts(text) :: a in r.allowedAccounts))
    && (r.allowedEnvironments == {} || (e.environments(text) != {} && forall a <- e.environments(text) :: a in r.allowedEnvironments))
  }

  predicate BeginsWith(text: string, prefix: string) {
    |prefix| <= |text| && forall i | 0 <= i < |prefix| :: text[i] == prefix[i]
  }

  // Trigger i begins the text and leaves something for the prompt.
  ghost predicate Triggers(text: string, triggers: seq<string>, i: nat, prompt: string) {
    && i < |triggers| && BeginsWith(Lower(text), triggers[i])
    && prompt != "" && |triggers[i]| <= |text| && Strip(text[|triggers[i]|..]) == prompt
  }

  // How the prompt follows from the text: by the rule of the route, or by its first trigger that leaves one.
  ghost predicate Yields(e: Engine, text: string, r: Route, prompt: string) {
    if r.ruleId == "" then
      exists i: nat :: Triggers(text, r.triggerWords, i, prompt)
                       && forall j: nat, other | j < i :: !Triggers(text, r.triggerWords, j, other)
    else if r.matchType == Regex then
      prompt != "" && e.search(r.pattern, text).Some? && prompt == if r.preserveFullBody then text else Strip(e.search(r.pattern, text).value)
    else
      && prompt != "" && BeginsWith(Lower(text), Lower(r.pattern))
      && prompt == if r.preserveFullBody then text else Strip(text[|r.pattern|..])
  }

  lemma {:induction false} TriggerPromptIff(text: string, triggers: seq<string>, prompt: string)
    ensures TriggerPrompt(text, triggers) == Some(prompt) <==>
            exists i: nat :: Triggers(text, triggers, i, prompt) && forall j: nat, other | j < i :: !Triggers(text, triggers, j, other)
  {
    hide Strip, Lower;
    if triggers != [] {
      var rest := triggers[1..];
      TriggerPromptIff(text, rest, prompt);
      LowerLength(text);
      assert StartsWith(Lower(text), triggers[0]) <==> BeginsWith(Lower(text), triggers[0]);
      forall i: nat, p ensures Triggers(text, rest, i, p) <==> Triggers(text, triggers, i + 1, p) {}
      if StartsWith(Lower(text), triggers[0]) && Strip(text[|triggers[0]|..]) != "" {
        assert Triggers(text, triggers, 0, Strip(text[|triggers[0]|..]));
      } else {
        forall p ensures !Triggers(text, triggers, 0, p) {}
        LaterTrigger(text, triggers, prompt);
      }
    }
  }

  lemma LowerLength(text: string)
    ensures |Lower(text)| == |text|
  {
  }

  // When the first trigger does not apply, the first one that does is the same without it.
  lemma LaterTrigger(text: string, triggers: seq<string>, prompt: string)
    requires triggers != [] && forall p :: !Triggers(text, triggers, 0, p)
    requires forall i: nat, p :: Triggers(text, triggers[1..], i, p) <==> Triggers(text, triggers, i + 1, p)
    ensures (exists i: nat :: Triggers(text, triggers[1..], i, prompt) && forall j: nat, other | j < i :: !Triggers(text, triggers[1..], j, other)) <==>
            (exists i: nat :: Triggers(text, triggers, i, prompt) && forall j: nat, other | j < i :: !Triggers(text, triggers, j, other))
  {
    hide Triggers;
    var rest := triggers[1..];
    if i: nat :| Triggers(text, rest, i, prompt) && forall j: nat, other | j < i :: !Triggers(text, rest, j, other) {
      assert Triggers(text, triggers, i + 1, prompt);
      forall j: nat, other | j < i + 1 ensures !Triggers(text, triggers, j, other) {
        if j > 0 { assert !Triggers(text, rest, j - 1, other); }
      }
    }
    if i: nat :| Triggers(text, triggers, i, prompt) && forall j: nat, other | j < i :: !Triggers(text, triggers, j, other) {
      assert i > 0 && Triggers(text, rest, i - 1, prompt);
      forall j: nat, other | j < i - 1 ensures !Triggers(text, rest, j, other) { assert !Triggers(text, triggers, j + 1, other); }
    }
  }

  lemma TrustsIff(m: Message, r: Route)
    ensures Trusts(m, r) <==> SenderTrusted(m, r)
  {
  }

  lemma ConstraintsIff(e: Engine, text: string, r: Route)
    ensures MeetsConstraints(e, text, r) <==> MentionsAllowed(e, text, r)
  {
  }

  lemma RoutePromptIff(e: Engine, m: Message, r: Route, text: string, prompt: string)
    ensures RoutePrompt(e, m, r, text) == Some(prompt) <==>
            && (r.provider == "" || r.provider == m.provider)
            && (r.rootPostsOnly ==> m.threadId == m.messageId)
            && SenderTrusted(m, r) && MentionsAllowed(e, text, r) && Yields(e, text, r, prompt)
  {
    TrustsIff(m, r);
    ConstraintsIff(e, text, r);
    if r.ruleId == "" { TriggerPromptIff(text, r.triggerWords, prompt); }
    LowerLength(text);
    LowerLength(r.pattern);
    assert StartsWith(Lower(text), Lower(r.pattern)) <==> BeginsWith(Lower(text), Lower(r.pattern));
    hide Trusts, MeetsConstraints, SenderTrusted, MentionsAllowed, TriggerPrompt, Triggers, Strip, Lower;
  }

  // A route matches a message exactly if its channel is the message's channel id or name, stripped and in
  // lower case, and provider, thread, sender, mentions and text are as the route asks.
  lemma MatchesIff(e: Engine, m: Message, r: Route, prompt: string)
    ensures PromptFor(e, m, r) == Some(prompt) <==>
            && r.channel != "" && (r.channel == Lower(Strip(m.channelId)) || r.channel == Lower(Strip(m.channelName)))
            && (r.provider == "" || r.provider == m.provider)
            && (r.rootPostsOnly ==> m.threadId == m.messageId)
            && var text := if |Strip(m.text)| <= 32000 then Strip(m.text) else Strip(m.text)[..32000];
               SenderTrusted(m, r) && MentionsAllowed(e, text, r) && Yields(e, text, r, prompt)
  {
    RoutePromptIff(e, m, r, RoutedText(m), prompt);
    hide RoutePrompt, Strip, Lower, SenderTrusted, MentionsAllowed, Yields;
  }

  // Two routes have the same identity exactly if workflow, rule, match type, pattern and triggers are the same.
  lemma SameIdentityIff(r: Route, s: Route)
    ensures IdentityOf(r) == IdentityOf(s) <==>
            r.workflow == s.workflow && r.ruleId == s.ruleId && r.matchType == s.matchType && r.pattern == s.pattern
            && r.triggerWords == s.triggerWords
  {
  }

  /******* What is decided *******/

  type Matches = map<Identity, (Route, string)>

  // First matching route of every identity, as the dictionary holds them.
  function Collect(f: Route -> Option<string>, routes: seq<Route>): Matches {
    if routes == [] then map[]
    else
      var init, r := Collect(f, routes[..|routes| - 1]), routes[|routes| - 1];
      match f(r)
      case Some(prompt) => if IdentityOf(r) in init then init else init[IdentityOf(r) := (r, prompt)]
      case None => init
  }

  // Identity i has the highest priority among the matches, and no other one has it too.
  ghost predicate SoleWinner(matches: Matches, i: Identity) {
    && i in matches
    && forall j :: j in matches && j != i ==> matches[j].0.priority < matches[i].0.priority
  }

  // The outcome of routing: an identity, whose first part is the workflow, and a prompt for it.
  ghost function Decide(f: Route -> Option<string>, routes: seq<Route>): Option<(Identity, string)> {
    var matches := Collect(f, routes);
    if i :| SoleWinner(matches, i) then Some((i, matches[i].1)) else None
  }

  lemma DecideIsSoleWinner(f: Route -> Option<string>, routes: seq<Route>, i: Identity)
    requires SoleWinner(Collect(f, routes), i)
    ensures Decide(f, routes) == Some((i, Collect(f, routes)[i].1))
  {
    var matches := Collect(f, routes);
    forall j | SoleWinner(matches, j) ensures j == i {}
  }

  lemma DecideNothing(f: Route -> Option<string>, routes: seq<Route>)
    requires forall i :: !SoleWinner(Collect(f, routes), i)
    ensures Decide(f, routes) == None
  {
  }

  // The route at position k is the first of its identity that matches.
  ghost predicate Leads(f: Route -> Option<string>, routes: seq<Route>, k: nat) {
    && k < |routes| && f(routes[k]).Some?
    && forall j | 0 <= j < k :: f(routes[j]).Some? ==> IdentityOf(routes[j]) != IdentityOf(routes[k])
  }

  lemma {:induction false} CollectHoldsLeaders(f: Route -> Option<string>, routes: seq<Route>)
    ensures forall k: nat | Leads(f, routes, k) ::
              IdentityOf(routes[k]) in Collect(f, routes) && Collect(f, routes)[IdentityOf(routes[k])] == (routes[k], f(routes[k]).value)
    ensures forall i <- Collect(f, routes) :: exists k: nat :: Leads(f, routes, k) && IdentityOf(routes[k]) == i
  {
    if routes != [] {
      var n := |routes| - 1;
      var init := routes[..n];
      CollectHoldsLeaders(f, init);
      hide IdentityOf;
      forall k: nat | k < n ensures Leads(f, routes, k) <==> Leads(f, init, k) { SameLeads(f, routes, k); }
      forall i <- Collect(f, routes) ensures exists k: nat :: Leads(f, routes, k) && IdentityOf(routes[k]) == i {
        if i in Collect(f, init) {
          var k: nat :| Leads(f, init, k) && IdentityOf(init[k]) == i;
          assert Leads(f, routes, k) && routes[k] == init[k];
        } else {
          LastLeads(f, routes);
        }
      }
      forall k: nat | Leads(f, routes, k)
        ensures IdentityOf(routes[k]) in Collect(f, routes) && Collect(f, routes)[IdentityOf(routes[k])] == (routes[k], f(routes[k]).value)
      {
        if k < n { assert Leads(f, init, k) && init[k] == routes[k]; } else { LeaderIsNew(f, routes); }
      }
    }
  }

  lemma SameLeads(f: Route -> Option<string>, routes: seq<Route>, k: nat)
    requires k < |routes| - 1
    ensures Leads(f, routes, k) <==> Leads(f, routes[..|routes| - 1], k)
  {
    hide IdentityOf;
    assert forall j | 0 <= j <= k :: routes[..|routes| - 1][j] == routes[j];
  }

  // The last route leads exactly if the others left no entry for its identity.
  lemma {:induction false} EntryHasMatch(f: Route -> Option<string>, routes: seq<Route>)
    ensures forall i :: i in Collect(f, routes) <==> exists j :: 0 <= j < |routes| && f(routes[j]).Some? && IdentityOf(routes[j]) == i
  {
    if routes != [] {
      var init, r := routes[..|routes| - 1], routes[|routes| - 1];
      EntryHasMatch(f, init);
      hide IdentityOf;
      forall i ensures i in Collect(f, routes) <==> exists j :: 0 <= j < |routes| && f(routes[j]).Some? && IdentityOf(routes[j]) == i {
        if i in Collect(f, init) {
          var j :| 0 <= j < |init| && f(init[j]).Some? && IdentityOf(init[j]) == i;
          assert routes[j] == init[j];
        }
        if j :| 0 <= j < |routes| && f(routes[j]).Some? && IdentityOf(routes[j]) == i {
          if j < |init| { assert init[j] == routes[j]; }
        }
        if f(r).Some? && IdentityOf(r) == i { assert routes[|init|] == r; }
      }
    }
  }

  lemma LastLeads(f: Route -> Option<string>, routes: seq<Route>)
    requires routes != [] && f(routes[|routes| - 1]).Some?
    requires IdentityOf(routes[|routes| - 1]) !in Collect(f, routes[..|routes| - 1])
    ensures Leads(f, routes, |routes| - 1)
  {
    var init := routes[..|routes| - 1];
    EntryHasMatch(f, init);
    hide IdentityOf, Collect;
    forall j | 0 <= j < |init| ensures f(routes[j]).Some? ==> IdentityOf(routes[j]) != IdentityOf(routes[|init|]) {
      assert init[j] == routes[j];
    }
  }

  lemma LeaderIsNew(f: Route -> Option<string>, routes: seq<Route>)
    requires routes != [] && Leads(f, routes, |routes| - 1)
    ensures IdentityOf(routes[|routes| - 1]) !in Collect(f, routes[..|routes| - 1])
  {
    var init := routes[..|routes| - 1];
    EntryHasMatch(f, init);
    hide IdentityOf, Collect;
    forall j | 0 <= j < |init| ensures !(f(init[j]).Some? && IdentityOf(init[j]) == IdentityOf(routes[|init|])) {
      assert init[j] == routes[j];
    }
  }

  // The leader at position k has a higher priority than all other leaders.
  ghost predicate LeadsAll(f: Route -> Option<string>, routes: seq<Route>, k: nat) {
    Leads(f, routes, k) && forall j: nat | Leads(f, routes, j) && j != k :: routes[j].priority < routes[k].priority
  }

  lemma SoleWinnerLeadsAll(f: Route -> Option<string>, routes: seq<Route>, k: nat)
    requires Leads(f, routes, k)
    ensures SoleWinner(Collect(f, routes), IdentityOf(routes[k])) <==> LeadsAll(f, routes, k)
  {
    CollectHoldsLeaders(f, routes);
    hide IdentityOf, Collect;
    var matches := Collect(f, routes);
    if SoleWinner(matches, IdentityOf(routes[k])) {
      forall j: nat | Leads(f, routes, j) && j != k ensures routes[j].priority < routes[k].priority {
        LeadersDiffer(f, routes, j, k);
      }
    }
    if LeadsAll(f, routes, k) {
      forall i | i in matches && i != IdentityOf(routes[k]) ensures matches[i].0.priority < routes[k].priority {
        var j: nat :| Leads(f, routes, j) && IdentityOf(routes[j]) == i;
      }
    }
  }

  lemma LeadersDiffer(f: Route -> Option<string>, routes: seq<Route>, j: nat, k: nat)
    requires Leads(f, routes, j) && Leads(f, routes, k) && j != k
    ensures IdentityOf(routes[j]) != IdentityOf(routes[k])
  {
    hide IdentityOf;
  }

  // The decision is the leader that beats all other leaders, if there is one.
  lemma DecisionIsWinner(f: Route -> Option<string>, routes: seq<Route>, i: Identity, prompt: string)
    ensures Decide(f, routes) == Some((i, prompt)) <==>
            exists k: nat :: LeadsAll(f, routes, k) && IdentityOf(routes[k]) == i && f(routes[k]) == Some(prompt)
  {
    CollectHoldsLeaders(f, routes);
    hide IdentityOf, Collect;
    if k: nat :| LeadsAll(f, routes, k) && IdentityOf(routes[k]) == i && f(routes[k]) == Some(prompt) {
      SoleWinnerLeadsAll(f, routes, k);
      DecideIsSoleWinner(f, routes, i);
    }
    if Decide(f, routes) == Some((i, prompt)) {
      var k: nat :| Leads(f, routes, k) && IdentityOf(routes[k]) == i;
      SoleWinnerLeadsAll(f, routes, k);
    }
  }

  // Nothing is decided exactly if no route matches, or if two leaders share the highest priority.
  lemma UndecidedIffNothingOrTie(f: Route -> Option<string>, routes: seq<Route>)
    ensures Decide(f, routes) == None <==>
            || (forall r <- routes :: f(r).None?)
            || exists j: nat, k: nat :: j != k && TopLeader(f, routes, j) && TopLeader(f, routes, k)
  {
    hide IdentityOf, Collect, Decide;
    if Decide(f, routes).Some? {
      DecisionIsWinner(f, routes, Decide(f, routes).value.0, Decide(f, routes).value.1);
      var w: nat :| LeadsAll(f, routes, w);
      assert routes[w] in routes;
      forall j: nat | TopLeader(f, routes, j) ensures j == w {}
    } else if r :| r in routes && f(r).Some? {
      var top := SomeTopLeader(f, routes, r);
      DecisionIsWinner(f, routes, IdentityOf(routes[top]), f(routes[top]).value);
      assert !LeadsAll(f, routes, top);
      var j: nat :| Leads(f, routes, j) && j != top && routes[j].priority >= routes[top].priority;
      assert TopLeader(f, routes, j);
    }
  }

  ghost predicate TopLeader(f: Route -> Option<string>, routes: seq<Route>, k: nat) {
    Leads(f, routes, k) && forall j: nat | Leads(f, routes, j) :: routes[j].priority <= routes[k].priority
  }

  lemma {:induction false} FirstLeader(f: Route -> Option<string>, routes: seq<Route>, k: nat) returns (l: nat)
    requires k < |routes| && f(routes[k]).Some?
    ensures Leads(f, routes, l) && IdentityOf(routes[l]) == IdentityOf(routes[k])
  {
    hide IdentityOf;
    l := k;
    if !Leads(f, routes, k) {
      var j :| 0 <= j < k && f(routes[j]).Some? && IdentityOf(routes[j]) == IdentityOf(routes[k]);
      l := FirstLeader(f, routes, j);
    }
  }

  lemma SomeTopLeader(f: Route -> Option<string>, routes: seq<Route>, r: Route) returns (top: nat)
    requires r in routes && f(r).Some?
    ensures TopLeader(f, routes, top)
  {
    var k :| 0 <= k < |routes| && routes[k] == r;
    hide IdentityOf;
    top := FirstLeader(f, routes, k);
    for n := 0 to |routes|
      invariant Leads(f, routes, top)
      invariant forall j: nat | j < n && Leads(f, routes, j) :: routes[j].priority <= routes[top].priority
    {
      if Leads(f, routes, n) && routes[n].priority > routes[top].priority { top := n; }
    }
  }

  /******* The loops *******/

  method MatchRoute(e: Engine, m: Message, routes: seq<Route>) returns (winner: Option<(Route, string)>)
    ensures winner.Some? ==>
              && winner.value.0 in routes && PromptFor(e, m, winner.value.0) == Some(winner.value.1)
              && Decide(Prompts(e, m), routes) == Some((IdentityOf(winner.value.0), winner.value.1))
    ensures winner.None? ==> Decide(Prompts(e, m), routes) == None
  {
    var matches := CollectMatches(e, m, routes);
    ghost var f := Prompts(e, m);
    CollectHoldsLeaders(f, routes);
    if matches == map[] {
      DecideNothing(f, routes);
      return None;
    }
    var highest := HighestPriority(matches);
    var winners := set i | i in matches && matches[i].0.priority == highest;
    WinnersDecide(matches, highest, winners);
    if |winners| != 1 {
      DecideNothing(f, routes);
      return None;
    }
    assert winners != {};
    var i :| i in winners;
    DecideIsSoleWinner(f, routes, i);
    ghost var k: nat :| Leads(f, routes, k) && IdentityOf(routes[k]) == i;
    assert routes[k] in routes;
    winner := Some(matches[i]);
  }

  lemma WinnersDecide(matches: Matches, highest: int, winners: set<Identity>)
    requires winners == set i | i in matches && matches[i].0.priority == highest
    requires forall i <- matches :: matches[i].0.priority <= highest
    requires exists i :: i in matches && matches[i].0.priority == highest
    ensures forall i :: SoleWinner(matches, i) <==> |winners| == 1 && i in winners
  {
    forall i | SoleWinner(matches, i) ensures winners == {i} {
      var k :| k in matches && matches[k].0.priority == highest;
      assert k == i;
    }
    forall i | |winners| == 1 && i in winners ensures SoleWinner(matches, i) {
      SingletonSet(winners, i);
      forall j | j in matches && j != i ensures matches[j].0.priority < matches[i].0.priority {
        assert j !in winners;
      }
    }
  }

  method CollectMatches(e: Engine, m: Message, routes: seq<Route>) returns (matches: Matches)
    ensures matches == Collect(Prompts(e, m), routes)
  {
    var channels := Channels(m);
    var text := RoutedText(m);
    matches := map[];
    hide RoutePrompt, Channels, RoutedText, IdentityOf;
    for k := 0 to |routes|
      invariant matches == Collect(Prompts(e, m), routes[..k])
    {
      assert routes[..k + 1][..k] == routes[..k];
      var r := routes[k];
      if r.channel !in channels { continue; }
      var prompt := RoutePrompt(e, m, r, text);
      if prompt.None? { continue; }
      if IdentityOf(r) !in matches {
        matches := matches[IdentityOf(r) := (r, prompt.value)];
      }
    }
    assert routes[..|routes|] == routes;
  }

  lemma SingletonSet<T>(s: set<T>, x: T)
    requires |s| == 1 && x in s
    ensures s == {x}
  {
    assert |s - {x}| == 0;
  }

  method HighestPriority(matches: Matches) returns (highest: int)
    requires matches != map[]
    ensures exists i :: i in matches && matches[i].0.priority == highest
    ensures forall i <- matches :: matches[i].0.priority <= highest
  {
    var rest := matches.Keys;
    var first :| first in rest;
    highest := matches[first].0.priority;
    rest := rest - {first};
    while rest != {}
      invariant rest <= matches.Keys
      invariant exists i :: i in matches && matches[i].0.priority == highest
      invariant forall i <- matches :: i !in rest ==> matches[i].0.priority <= highest
      decreases |rest|
    {
      var i :| i in rest;
      if matches[i].0.priority > highest { highest := matches[i].0.priority; }
      rest := rest - {i};
    }
  }

  /******* When the order of the routes plays no part *******/

  // Something that some order of the routes could decide for an identity.
  datatype Choice = Choice(identity: Identity, prompt: string, priority: int)

  ghost predicate Candidate(f: Route -> Option<string>, routes: seq<Route>, c: Choice) {
    exists r :: r in routes && f(r) == Some(c.prompt) && IdentityOf(r) == c.identity && r.priority == c.priority
  }

  function ChoiceOf(r: Route, prompt: string): Choice {
    Choice(IdentityOf(r), prompt, r.priority)
  }

  // Identity i has one prompt, and all its candidates beat all candidates of other identities.
  ghost predicate Dominates(f: Route -> Option<string>, routes: seq<Route>, i: Identity, prompt: string) {
    && (exists c :: Candidate(f, routes, c) && c.identity == i)
    && (forall c :: Candidate(f, routes, c) && c.identity == i ==> c.prompt == prompt)
    && forall c, d :: Candidate(f, routes, c) && Candidate(f, routes, d) && c.identity == i && d.identity != i ==>
                        d.priority < c.priority
  }

  // All candidates of identity i have the highest priority of all candidates.
  ghost predicate AllAtTop(f: Route -> Option<string>, routes: seq<Route>, i: Identity) {
    && (exists c :: Candidate(f, routes, c) && c.identity == i)
    && forall c, d :: Candidate(f, routes, c) && Candidate(f, routes, d) && c.identity == i ==> d.priority <= c.priority
  }

  ghost predicate NothingMatches(f: Route -> Option<string>, routes: seq<Route>) {
    forall c :: !Candidate(f, routes, c)
  }

  ghost predicate AlwaysTied(f: Route -> Option<string>, routes: seq<Route>) {
    exists i, j :: i != j && AllAtTop(f, routes, i) && AllAtTop(f, routes, j)
  }

  ghost predicate Reorders(a: seq<Route>, b: seq<Route>) {
    multiset(a) == multiset(b)
  }

  lemma EntryIsCandidate(f: Route -> Option<string>, routes: seq<Route>)
    ensures forall i <- Collect(f, routes) :: Candidate(f, routes, Choice(i, Collect(f, routes)[i].1, Collect(f, routes)[i].0.priority))
    ensures forall c :: Candidate(f, routes, c) ==> c.identity in Collect(f, routes)
  {
    CollectHoldsLeaders(f, routes);
    EntryHasMatch(f, routes);
    hide IdentityOf, Collect;
    forall i <- Collect(f, routes) ensures Candidate(f, routes, Choice(i, Collect(f, routes)[i].1, Collect(f, routes)[i].0.priority)) {
      var k: nat :| Leads(f, routes, k) && IdentityOf(routes[k]) == i;
      assert routes[k] in routes;
    }
    forall c | Candidate(f, routes, c) ensures c.identity in Collect(f, routes) {
      var r :| r in routes && f(r) == Some(c.prompt) && IdentityOf(r) == c.identity && r.priority == c.priority;
      var j :| 0 <= j < |routes| && routes[j] == r;
      assert f(routes[j]).Some? && IdentityOf(routes[j]) == c.identity;
    }
  }

  lemma DominatesDecides(f: Route -> Option<string>, routes: seq<Route>, i: Identity, prompt: string)
    requires Dominates(f, routes, i, prompt)
    ensures Decide(f, routes) == Some((i, prompt))
  {
    EntryIsCandidate(f, routes);
    var matches := Collect(f, routes);
    hide Candidate, Collect, Decide;
    forall j | j in matches && j != i ensures matches[j].0.priority < matches[i].0.priority {
      assert Candidate(f, routes, Choice(j, matches[j].1, matches[j].0.priority));
      assert Candidate(f, routes, Choice(i, matches[i].1, matches[i].0.priority));
    }
    assert Candidate(f, routes, Choice(i, matches[i].1, matches[i].0.priority));
    DecideIsSoleWinner(f, routes, i);
  }

  lemma TiedDecidesNothing(f: Route -> Option<string>, routes: seq<Route>)
    requires NothingMatches(f, routes) || AlwaysTied(f, routes)
    ensures Decide(f, routes) == None
  {
    EntryIsCandidate(f, routes);
    var matches := Collect(f, routes);
    hide Candidate, Collect, Decide;
    forall w ensures !SoleWinner(matches, w) {
      if w in matches {
        var c := Choice(w, matches[w].1, matches[w].0.priority);
        assert Candidate(f, routes, c);
        var i, j :| i != j && AllAtTop(f, routes, i) && AllAtTop(f, routes, j);
        var o := if i == w then j else i;
        var d := Choice(o, matches[o].1, matches[o].0.priority);
        assert Candidate(f, routes, d) && o in matches && d.priority >= c.priority;
      }
    }
    DecideNothing(f, routes);
  }

  function Filter<T>(p: T -> bool, s: seq<T>): seq<T> {
    if s == [] then [] else Filter(p, s[..|s| - 1]) + if p(s[|s| - 1]) then [s[|s| - 1]] else []
  }

  lemma {:induction false} FilterMembers<T>(p: T -> bool, s: seq<T>)
    ensures forall x :: x in Filter(p, s) <==> x in s && p(x)
  {
    if s != [] {
      FilterMembers(p, s[..|s| - 1]);
      assert s == s[..|s| - 1] + [s[|s| - 1]];
    }
  }

  lemma FilterMore<T>(p: T -> bool, s: seq<T>)
    requires s != []
    ensures var init, last := s[..|s| - 1], s[|s| - 1];
            multiset(Filter(p, s)) == multiset(Filter(p, init)) + if p(last) then multiset{last} else multiset{}
  {
  }

  lemma {:induction false} FiltersSplit<T>(p: T -> bool, q: T -> bool, s: seq<T>)
    requires forall x <- s :: q(x) == !p(x)
    ensures multiset(Filter(p, s)) + multiset(Filter(q, s)) == multiset(s)
  {
    if s != [] {
      var init, last := s[..|s| - 1], s[|s| - 1];
      assert s == init + [last] && last in s && forall x <- init :: x in s;
      FiltersSplit(p, q, init);
      FilterMore(p, s);
      FilterMore(q, s);
      hide Filter;
    }
  }

  // The routes that satisfy a preference, moved to the front.
  function Prefer(p: Route -> bool, routes: seq<Route>): seq<Route> {
    Filter(p, routes) + Filter(r => !p(r), routes)
  }

  lemma PreferReorders(p: Route -> bool, routes: seq<Route>)
    ensures Reorders(routes, Prefer(p, routes))
  {
    FiltersSplit(p, r => !p(r), routes);
  }

  lemma {:induction false} EarlierStays(f: Route -> Option<string>, a: seq<Route>, b: seq<Route>)
    ensures forall i <- Collect(f, a) :: i in Collect(f, a + b) && Collect(f, a + b)[i] == Collect(f, a)[i]
  {
    if b == [] {
      assert a + b == a;
    } else {
      EarlierStays(f, a, b[..|b| - 1]);
      assert (a + b)[..|a + b| - 1] == a + b[..|b| - 1];
      hide IdentityOf;
    }
  }

  lemma Represented(f: Route -> Option<string>, routes: seq<Route>, r: Route)
    requires r in routes && f(r).Some?
    ensures var matches := Collect(f, routes);
            && IdentityOf(r) in matches && matches[IdentityOf(r)].0 in routes
            && IdentityOf(matches[IdentityOf(r)].0) == IdentityOf(r) && f(matches[IdentityOf(r)].0) == Some(matches[IdentityOf(r)].1)
  {
    EntryHasMatch(f, routes);
    CollectHoldsLeaders(f, routes);
    hide IdentityOf, Collect;
    var j :| 0 <= j < |routes| && routes[j] == r;
    assert f(routes[j]).Some? && IdentityOf(routes[j]) == IdentityOf(r);
    assert IdentityOf(r) in Collect(f, routes);
    var k: nat :| Leads(f, routes, k) && IdentityOf(routes[k]) == IdentityOf(r);
    assert routes[k] in routes;
  }

  // With preferred routes in front, an identity that has one is represented by one.
  lemma PreferredRepresents(f: Route -> Option<string>, p: Route -> bool, routes: seq<Route>, r: Route)
    requires r in routes && p(r) && f(r).Some?
    ensures var matches := Collect(f, Prefer(p, routes));
            && IdentityOf(r) in matches && p(matches[IdentityOf(r)].0)
            && matches[IdentityOf(r)].0 in routes && IdentityOf(matches[IdentityOf(r)].0) == IdentityOf(r)
            && f(matches[IdentityOf(r)].0) == Some(matches[IdentityOf(r)].1)
  {
    var front := Filter(p, routes);
    FilterMembers(p, routes);
    EarlierStays(f, front, Filter(r => !p(r), routes));
    hide IdentityOf, Collect, Filter;
    Represented(f, front, r);
  }

  // Every order decides for this identity and prompt exactly if it dominates.
  lemma EveryOrderDecidesIff(f: Route -> Option<string>, routes: seq<Route>, i: Identity, prompt: string)
    ensures (forall b | Reorders(routes, b) :: Decide(f, b) == Some((i, prompt))) <==> Dominates(f, routes, i, prompt)
  {
    if Dominates(f, routes, i, prompt) {
      forall b | Reorders(routes, b) ensures Decide(f, b) == Some((i, prompt)) {
        ReorderKeepsCandidates(f, routes, b);
        hide Candidate, Reorders, Decide;
        DominatesDecides(f, b, i, prompt);
      }
    }
    if forall b | Reorders(routes, b) :: Decide(f, b) == Some((i, prompt)) {
      AlwaysDecidedDominates(f, routes, i, prompt);
    }
  }

  lemma ReorderKeepsCandidates(f: Route -> Option<string>, a: seq<Route>, b: seq<Route>)
    requires Reorders(a, b)
    ensures forall c :: Candidate(f, a, c) <==> Candidate(f, b, c)
  {
    hide IdentityOf;
    forall r ensures r in a <==> r in b { assert r in a <==> r in multiset(a); assert r in b <==> r in multiset(b); }
  }

  lemma AlwaysDecidedDominates(f: Route -> Option<string>, routes: seq<Route>, i: Identity, prompt: string)
    requires forall b | Reorders(routes, b) :: Decide(f, b) == Some((i, prompt))
    ensures Dominates(f, routes, i, prompt)
  {
    assert Reorders(routes, routes);
    EntryIsCandidate(f, routes);
    hide Collect, Reorders;
    assert exists c :: Candidate(f, routes, c) && c.identity == i by {
      var (r, p) := Collect(f, routes)[i];
      assert Candidate(f, routes, Choice(i, p, r.priority));
    }
    forall c | Candidate(f, routes, c) && c.identity == i ensures c.prompt == prompt {
      var r :| r in routes && f(r) == Some(c.prompt) && IdentityOf(r) == i && r.priority == c.priority;
      PutInFront(f, routes, r, r);
    }
    forall c, d | Candidate(f, routes, c) && Candidate(f, routes, d) && c.identity == i && d.identity != i
      ensures d.priority < c.priority
    {
      var r :| r in routes && f(r) == Some(c.prompt) && IdentityOf(r) == i && r.priority == c.priority;
      var s :| s in routes && f(s) == Some(d.prompt) && IdentityOf(s) == d.identity && s.priority == d.priority;
      PutInFront(f, routes, r, s);
    }
  }

  // Some order is decided with r for its identity, and with s for its own if that is another one.
  lemma PutInFront(f: Route -> Option<string>, routes: seq<Route>, r: Route, s: Route)
    requires r in routes && s in routes && f(r).Some? && f(s).Some? && (r == s || IdentityOf(r) != IdentityOf(s))
    ensures exists b :: Reorders(routes, b)
                        && IdentityOf(r) in Collect(f, b) && Collect(f, b)[IdentityOf(r)] == (r, f(r).value)
                        && IdentityOf(s) in Collect(f, b) && Collect(f, b)[IdentityOf(s)] == (s, f(s).value)
  {
    var p := x => x == r || x == s;
    PreferReorders(p, routes);
    PreferredRepresents(f, p, routes, r);
    PreferredRepresents(f, p, routes, s);
    hide IdentityOf, Collect, Prefer, Reorders;
    var b := Prefer(p, routes);
    assert Reorders(routes, b);
  }

  // No order decides anything exactly if nothing matches, or two identities stay at the top whatever
  // candidate represents them.
  lemma NoOrderDecidesIff(f: Route -> Option<string>, routes: seq<Route>)
    ensures (forall b | Reorders(routes, b) :: Decide(f, b) == None) <==> NothingMatches(f, routes) || AlwaysTied(f, routes)
  {
    if NothingMatches(f, routes) || AlwaysTied(f, routes) {
      forall b | Reorders(routes, b) ensures Decide(f, b) == None {
        ReorderKeepsCandidates(f, routes, b);
        hide Candidate, Reorders, Decide;
        forall i | AllAtTop(f, routes, i) ensures AllAtTop(f, b, i) {}
        if AlwaysTied(f, routes) { assert AlwaysTied(f, b); }
        TiedDecidesNothing(f, b);
      }
    } else {
      SomeOrderDecides(f, routes);
    }
  }

  lemma SomeOrderDecides(f: Route -> Option<string>, routes: seq<Route>)
    requires !NothingMatches(f, routes) && !AlwaysTied(f, routes)
    ensures exists b :: Reorders(routes, b) && Decide(f, b).Some?
  {
    var c := TopCandidate(f, routes);
    var p := x => if IdentityOf(x) == c.identity then x.priority == c.priority else x.priority < c.priority;
    var b := Prefer(p, routes);
    PreferReorders(p, routes);
    EntryIsCandidate(f, b);
    ReorderKeepsCandidates(f, routes, b);
    var matches := Collect(f, b);
    var r :| r in routes && f(r) == Some(c.prompt) && IdentityOf(r) == c.identity && r.priority == c.priority;
    PreferredRepresents(f, p, routes, r);
    forall j | j in matches && j != c.identity ensures matches[j].0.priority < c.priority {
      var d := LowCandidate(f, routes, c, Choice(j, matches[j].1, matches[j].0.priority));
      var s :| s in routes && f(s) == Some(d.prompt) && IdentityOf(s) == d.identity && s.priority == d.priority;
      PreferredRepresents(f, p, routes, s);
    }
    hide IdentityOf, Collect, Prefer, Reorders, Decide;
    DecideIsSoleWinner(f, b, c.identity);
  }

  // A candidate of highest priority; of an identity that has no other candidates, if there is one.
  lemma TopCandidate(f: Route -> Option<string>, routes: seq<Route>) returns (c: Choice)
    requires !NothingMatches(f, routes)
    ensures Candidate(f, routes, c) && forall d :: Candidate(f, routes, d) ==> d.priority <= c.priority
    ensures forall i :: AllAtTop(f, routes, i) ==> exists j :: AllAtTop(f, routes, j) && j == c.identity
  {
    c := Highest(f, routes);
    hide Candidate;
    if i :| AllAtTop(f, routes, i) {
      c :| Candidate(f, routes, c) && c.identity == i;
    }
  }

  lemma {:induction false} Highest(f: Route -> Option<string>, routes: seq<Route>) returns (c: Choice)
    requires !NothingMatches(f, routes)
    ensures Candidate(f, routes, c) && forall d :: Candidate(f, routes, d) ==> d.priority <= c.priority
  {
    var init, r := routes[..|routes| - 1], routes[|routes| - 1];
    assert routes == init + [r];
    hide IdentityOf;
    if NothingMatches(f, init) {
      c :| Candidate(f, routes, c);
      forall d | Candidate(f, routes, d) ensures f(r).Some? && d == ChoiceOf(r, f(r).value) { OneMoreCandidate(f, init, r, d); }
    } else {
      c := Highest(f, init);
      forall d ensures Candidate(f, routes, d) <==> Candidate(f, init, d) || (f(r).Some? && d == ChoiceOf(r, f(r).value)) {
        OneMoreCandidate(f, init, r, d);
      }
      if f(r).Some? && r.priority > c.priority { c := ChoiceOf(r, f(r).value); }
    }
  }

  lemma OneMoreCandidate(f: Route -> Option<string>, init: seq<Route>, r: Route, d: Choice)
    ensures Candidate(f, init + [r], d) <==> Candidate(f, init, d) || (f(r).Some? && d == ChoiceOf(r, f(r).value))
  {
    hide IdentityOf;
    if Candidate(f, init, d) {
      var x :| x in init && f(x) == Some(d.prompt) && IdentityOf(x) == d.identity && x.priority == d.priority;
      assert x in init + [r];
    }
    if f(r).Some? && d == ChoiceOf(r, f(r).value) { assert r in init + [r]; }
  }

  // Without a lasting tie, another identity has a candidate below the top.
  lemma LowCandidate(f: Route -> Option<string>, routes: seq<Route>, c: Choice, d: Choice) returns (low: Choice)
    requires Candidate(f, routes, c) && (forall x :: Candidate(f, routes, x) ==> x.priority <= c.priority)
    requires forall i :: AllAtTop(f, routes, i) ==> exists j :: AllAtTop(f, routes, j) && j == c.identity
    requires !AlwaysTied(f, routes) && Candidate(f, routes, d) && d.identity != c.identity
    ensures Candidate(f, routes, low) && low.identity == d.identity && low.priority < c.priority
  {
    hide Candidate;
    assert !AllAtTop(f, routes, d.identity);
    var x, y :| Candidate(f, routes, x) && Candidate(f, routes, y) && x.identity == d.identity && y.priority > x.priority;
    low := x;
  }

  // Routing decides the same for every order of the routes exactly if nothing matches, two identities
  // are always tied at the top, or one identity dominates.
  lemma OrderDoesNotMatterIff(f: Route -> Option<string>, routes: seq<Route>)
    ensures (forall b | Reorders(routes, b) :: Decide(f, b) == Decide(f, routes)) <==>
            || NothingMatches(f, routes) || AlwaysTied(f, routes)
            || exists i, prompt :: Dominates(f, routes, i, prompt)
  {
    assert Reorders(routes, routes);
    NoOrderDecidesIff(f, routes);
    forall i, prompt { EveryOrderDecidesIff(f, routes, i, prompt); }
    hide Reorders, Decide, NothingMatches, AlwaysTied, Dominates;
    if Decide(f, routes).Some? {
      var (i, prompt) := Decide(f, routes).value;
      assert Decide(f, routes) == Some((i, prompt));
    }
  }

  /******* Identities that fix their routes *******/

  // The identity of a route fixes everything about it except its channel.
  ghost predicate IdentityFixesRoute(routes: seq<Route>) {
    forall r, s :: r in routes && s in routes && IdentityOf(r) == IdentityOf(s) ==> s == r.(channel := s.channel)
  }

  // Each identity has at most one candidate.
  ghost predicate OneChoiceEach(f: Route -> Option<string>, routes: seq<Route>) {
    forall c, d :: Candidate(f, routes, c) && Candidate(f, routes, d) && c.identity == d.identity ==> c == d
  }

  // A prompt that depends on the channel only for whether the route is considered at all.
  ghost predicate IgnoresChannel(f: Route -> Option<string>) {
    forall r, channel :: f(r).Some? && f(r.(channel := channel)).Some? ==> f(r) == f(r.(channel := channel))
  }

  lemma FixedMeansOneChoice(f: Route -> Option<string>, routes: seq<Route>)
    requires IdentityFixesRoute(routes) && IgnoresChannel(f)
    ensures OneChoiceEach(f, routes)
  {
    hide IdentityOf, IdentityFixesRoute, IgnoresChannel;
    forall c, d | Candidate(f, routes, c) && Candidate(f, routes, d) && c.identity == d.identity ensures c == d {
      var r :| r in routes && f(r) == Some(c.prompt) && IdentityOf(r) == c.identity && r.priority == c.priority;
      var s :| s in routes && f(s) == Some(d.prompt) && IdentityOf(s) == d.identity && s.priority == d.priority;
      FixedPair(f, routes, r, s);
    }
  }

  lemma FixedPair(f: Route -> Option<string>, routes: seq<Route>, r: Route, s: Route)
    requires IdentityFixesRoute(routes) && IgnoresChannel(f) && r in routes && s in routes && IdentityOf(r) == IdentityOf(s)
    ensures r.priority == s.priority && (f(r).Some? && f(s).Some? ==> f(r) == f(s))
  {
    hide IdentityOf;
    assert s == r.(channel := s.channel);
  }

  // With one candidate each, what is decided only depends on which candidates there are.
  lemma SameCandidatesSameDecision(f: Route -> Option<string>, a: seq<Route>, g: Route -> Option<string>, b: seq<Route>)
    requires OneChoiceEach(f, a) && forall c :: Candidate(f, a, c) <==> Candidate(g, b, c)
    ensures Decide(f, a) == Decide(g, b)
  {
    if NothingMatches(f, a) {
      hide Candidate, Decide;
      TiedDecidesNothing(f, a);
      TiedDecidesNothing(g, b);
    } else {
      var c := Highest(f, a);
      hide Candidate, Decide;
      if d :| Candidate(f, a, d) && d.identity != c.identity && d.priority == c.priority {
        assert AllAtTop(f, a, c.identity) && AllAtTop(f, a, d.identity);
        assert AllAtTop(g, b, c.identity) && AllAtTop(g, b, d.identity);
        TiedDecidesNothing(f, a);
        TiedDecidesNothing(g, b);
      } else {
        assert Dominates(f, a, c.identity, c.prompt);
        assert Dominates(g, b, c.identity, c.prompt);
        DominatesDecides(f, a, c.identity, c.prompt);
        DominatesDecides(g, b, c.identity, c.prompt);
      }
    }
  }

  lemma PromptsIgnoreChannel(e: Engine, m: Message)
    ensures IgnoresChannel(Prompts(e, m))
  {
    forall r: Route, channel ensures RoutePrompt(e, m, r.(channel := channel), RoutedText(m)) == RoutePrompt(e, m, r, RoutedText(m)) {
      SamePromptAnywhere(e, m, r, channel, RoutedText(m));
    }
    hide RoutePrompt, RoutedText, Channels;
  }

  lemma SamePromptAnywhere(e: Engine, m: Message, r: Route, channel: string, text: string)
    ensures RoutePrompt(e, m, r.(channel := channel), text) == RoutePrompt(e, m, r, text)
  {
  }

  // Then neither the order of the routes matters nor how often one is listed.
  lemma OrderDoesNotMatter(e: Engine, m: Message, a: seq<Route>, b: seq<Route>)
    requires IdentityFixesRoute(a) && forall r :: r in a <==> r in b
    ensures Decide(Prompts(e, m), a) == Decide(Prompts(e, m), b)
  {
    PromptsIgnoreChannel(e, m);
    FixedMeansOneChoice(Prompts(e, m), a);
    forall c ensures Candidate(Prompts(e, m), a, c) <==> Candidate(Prompts(e, m), b, c) { hide IdentityOf, Prompts; }
    SameCandidatesSameDecision(Prompts(e, m), a, Prompts(e, m), b);
  }

  /******* Copies of routes under channel ids *******/

  // What the provider knows about channel names.
  type Directory = string -> Option<string>

  function IdOf(directory: Directory, channel: string): Option<string> {
    match directory(channel)
    case Some(id) => if id == "" then None else Some(Lower(id))
    case None => None
  }

  // A copy of every route whose channel resolves to something else.
  function AliasesOf(directory: Directory, routes: seq<Route>): seq<Route> {
    if routes == [] then []
    else
      var r := routes[|routes| - 1];
      AliasesOf(directory, routes[..|routes| - 1]) +
      match IdOf(directory, r.channel)
      case Some(id) => if id != r.channel then [r.(channel := id)] else []
      case None => []
  }

  method ResolveRouteChannels(directory: Directory, routes: seq<Route>) returns (resolved: seq<Route>)
    ensures resolved == routes + AliasesOf(directory, routes)
  {
    resolved := routes;
    for k := 0 to |routes|
      invariant resolved == routes + AliasesOf(directory, routes[..k])
    {
      var r := routes[k];
      assert routes[..k + 1][..k] == routes[..k];
      var id := IdOf(directory, r.channel);
      if id.None? { continue; }
      if id.value != r.channel { resolved := resolved + [r.(channel := id.value)]; }
    }
    assert routes[..|routes|] == routes;
  }

  lemma {:induction false} AliasMembers(directory: Directory, routes: seq<Route>)
    ensures forall a :: a in AliasesOf(directory, routes) <==>
              exists r :: r in routes && IdOf(directory, r.channel) == Some(a.channel) && a.channel != r.channel && a == r.(channel := a.channel)
  {
    if routes != [] {
      AliasMembers(directory, routes[..|routes| - 1]);
      assert routes == routes[..|routes| - 1] + [routes[|routes| - 1]];
      hide IdOf;
    }
  }

  // The channel of a copy is the id in lower case to which the name of a route resolves, where it is another.
  lemma CopiesAre(directory: Directory, routes: seq<Route>, a: Route)
    ensures a in AliasesOf(directory, routes) <==>
            exists r :: r in routes && directory(r.channel).Some? && directory(r.channel).value != ""
                        && Lower(directory(r.channel).value) != r.channel && a == r.(channel := Lower(directory(r.channel).value))
  {
    AliasMembers(directory, routes);
    hide AliasesOf, Lower;
  }

  // Every resolved route is one of the routes, up to its channel.
  lemma ResolvedIsCopy(directory: Directory, routes: seq<Route>, x: Route)
    requires x in routes + AliasesOf(directory, routes)
    ensures exists r :: r in routes && x == r.(channel := x.channel) && IdentityOf(x) == IdentityOf(r)
  {
    AliasMembers(directory, routes);
    if x in routes { assert x == x.(channel := x.channel); }
  }

  // Copies keep the identity and all that it fixes, so they are represented together with their route.
  lemma AliasesKeepIdentities(directory: Directory, routes: seq<Route>)
    requires IdentityFixesRoute(routes)
    ensures IdentityFixesRoute(routes + AliasesOf(directory, routes))
  {
    var all := routes + AliasesOf(directory, routes);
    forall x, y | x in all && y in all && IdentityOf(x) == IdentityOf(y) ensures y == x.(channel := y.channel) {
      ResolvedIsCopy(directory, routes, x);
      ResolvedIsCopy(directory, routes, y);
      var r :| r in routes && x == r.(channel := x.channel) && IdentityOf(x) == IdentityOf(r);
      var s :| s in routes && y == s.(channel := y.channel) && IdentityOf(y) == IdentityOf(s);
      CopiesAgree(r, s, x, y, routes);
    }
  }

  lemma CopiesAgree(r: Route, s: Route, x: Route, y: Route, routes: seq<Route>)
    requires IdentityFixesRoute(routes) && r in routes && s in routes && IdentityOf(r) == IdentityOf(s)
    requires x == r.(channel := x.channel) && y == s.(channel := y.channel)
    ensures y == x.(channel := y.channel)
  {
    hide IdentityOf;
    assert s == r.(channel := s.channel);
  }

  // The message names the channel, or the id that the channel resolves to.
  predicate Reaches(directory: Directory, m: Message, channel: string) {
    channel in Channels(m) || (IdOf(directory, channel).Some? && IdOf(directory, channel).value in Channels(m))
  }

  // What the routes make of a message whose channel ids are read as names too.
  function NamedPrompts(e: Engine, m: Message, directory: Directory): Route -> Option<string> {
    (r: Route) => if Reaches(directory, m, r.channel) then RoutePrompt(e, m, r, RoutedText(m)) else None
  }

  lemma NamedPromptsIgnoreChannel(e: Engine, m: Message, directory: Directory)
    ensures IgnoresChannel(NamedPrompts(e, m, directory))
  {
    forall r: Route, channel ensures RoutePrompt(e, m, r.(channel := channel), RoutedText(m)) == RoutePrompt(e, m, r, RoutedText(m)) {
      SamePromptAnywhere(e, m, r, channel, RoutedText(m));
    }
    hide RoutePrompt, RoutedText, Reaches;
  }

  // A route and its copy make the same of a message.
  lemma CopyOffersTheSame(e: Engine, m: Message, directory: Directory, r: Route, channel: string)
    ensures IdentityOf(r.(channel := channel)) == IdentityOf(r)
    ensures channel in Channels(m) && (channel == r.channel || IdOf(directory, r.channel) == Some(channel)) ==>
              Prompts(e, m)(r.(channel := channel)) == NamedPrompts(e, m, directory)(r)
    ensures r.channel !in Channels(m) ==> Prompts(e, m)(r) == None
    ensures NamedPrompts(e, m, directory)(r).Some? ==> Reaches(directory, m, r.channel)
  {
    SamePromptAnywhere(e, m, r, channel, RoutedText(m));
    hide RoutePrompt, RoutedText, Channels, IdOf;
  }

  lemma CopiesOffer(e: Engine, m: Message, directory: Directory, routes: seq<Route>, c: Choice)
    requires Candidate(NamedPrompts(e, m, directory), routes, c)
    ensures Candidate(Prompts(e, m), routes + AliasesOf(directory, routes), c)
  {
    hide Prompts, NamedPrompts, IdentityOf, AliasesOf;
    var r :| r in routes && NamedPrompts(e, m, directory)(r) == Some(c.prompt) && IdentityOf(r) == c.identity && r.priority == c.priority;
    RouteOrCopyOffers(e, m, directory, routes, r, c);
  }

  lemma RouteOrCopyOffers(e: Engine, m: Message, directory: Directory, routes: seq<Route>, r: Route, c: Choice)
    requires r in routes && NamedPrompts(e, m, directory)(r) == Some(c.prompt) && IdentityOf(r) == c.identity && r.priority == c.priority
    ensures Candidate(Prompts(e, m), routes + AliasesOf(directory, routes), c)
  {
    AliasMembers(directory, routes);
    hide Prompts, NamedPrompts, IdentityOf, IdOf, AliasesOf, Channels, Candidate;
    var all := routes + AliasesOf(directory, routes);
    CopyOffersTheSame(e, m, directory, r, r.channel);
    assert r.(channel := r.channel) == r && r in all;
    if r.channel in Channels(m) {
      Offers(Prompts(e, m), all, r, c);
    } else {
      var channel := IdOf(directory, r.channel).value;
      CopyOffersTheSame(e, m, directory, r, channel);
      assert r.(channel := channel) in AliasesOf(directory, routes);
      Offers(Prompts(e, m), all, r.(channel := channel), c);
    }
  }

  lemma Offers(f: Route -> Option<string>, routes: seq<Route>, r: Route, c: Choice)
    requires r in routes && f(r) == Some(c.prompt) && IdentityOf(r) == c.identity && r.priority == c.priority
    ensures Candidate(f, routes, c)
  {
  }

  lemma CopiesOfferNoMore(e: Engine, m: Message, directory: Directory, routes: seq<Route>, c: Choice)
    requires Candidate(Prompts(e, m), routes + AliasesOf(directory, routes), c)
    ensures Candidate(NamedPrompts(e, m, directory), routes, c)
  {
    var aliases := AliasesOf(directory, routes);
    var f, g := Prompts(e, m), NamedPrompts(e, m, directory);
    AliasMembers(directory, routes);
    var x :| x in routes + aliases && f(x) == Some(c.prompt) && IdentityOf(x) == c.identity && x.priority == c.priority;
    hide Prompts, NamedPrompts, IdentityOf, IdOf, AliasesOf, Channels;
    CopyOffersTheSame(e, m, directory, x, x.channel);
    assert x.(channel := x.channel) == x;
    if x !in routes {
      var r :| r in routes && IdOf(directory, r.channel) == Some(x.channel) && x == r.(channel := x.channel);
      CopyOffersTheSame(e, m, directory, r, x.channel);
      assert r in routes && g(r) == Some(c.prompt) && IdentityOf(r) == c.identity && r.priority == c.priority;
    }
  }

  lemma AliasCandidates(e: Engine, m: Message, directory: Directory, routes: seq<Route>, c: Choice)
    ensures Candidate(Prompts(e, m), routes + AliasesOf(directory, routes), c) <==>
            Candidate(NamedPrompts(e, m, directory), routes, c)
  {
    hide Candidate;
    if Candidate(Prompts(e, m), routes + AliasesOf(directory, routes), c) { CopiesOfferNoMore(e, m, directory, routes, c); }
    if Candidate(NamedPrompts(e, m, directory), routes, c) { CopiesOffer(e, m, directory, routes, c); }
  }

  // For every message, routing over routes and copies decides what routing over the routes alone decides
  // when the channel ids of the message are read as the names that resolve to them.
  lemma AliasesNameChannels(e: Engine, m: Message, directory: Directory, routes: seq<Route>)
    requires IdentityFixesRoute(routes)
    ensures Decide(Prompts(e, m), routes + AliasesOf(directory, routes)) == Decide(NamedPrompts(e, m, directory), routes)
  {
    AliasesKeepIdentities(directory, routes);
    PromptsIgnoreChannel(e, m);
    FixedMeansOneChoice(Prompts(e, m), routes + AliasesOf(directory, routes));
    forall c { AliasCandidates(e, m, directory, routes, c); }
    SameCandidatesSameDecision(Prompts(e, m), routes + AliasesOf(directory, routes), NamedPrompts(e, m, directory), routes);
  }

  // A message that carries only a channel id is routed like the same message with the name of its
  // channel, as long as the directory gives this id to exactly that name among the routed channels.
  lemma IdOnlyMessage(e: Engine, m: Message, directory: Directory, routes: seq<Route>, name: string)
    requires IdentityFixesRoute(routes) && Channels(m) == {Lower(Strip(m.channelId))} - {""}
    requires Lower(Strip(name)) == name != ""
    requires forall r <- routes | r.channel != Lower(Strip(m.channelId)) ::
               r.channel == name <==> IdOf(directory, r.channel) == Some(Lower(Strip(m.channelId)))
    requires Lower(Strip(m.channelId)) != ""
    ensures Decide(Prompts(e, m), routes + AliasesOf(directory, routes)) == Decide(Prompts(e, m.(channelName := name)), routes)
  {
    var f, g := NamedPrompts(e, m, directory), Prompts(e, m.(channelName := name));
    AliasesNameChannels(e, m, directory, routes);
    NamedPromptsIgnoreChannel(e, m, directory);
    FixedMeansOneChoice(f, routes);
    forall r <- routes ensures f(r) == g(r) { NamedReads(e, m, directory, name, r); }
    hide IdentityOf, NamedPrompts, Prompts, AliasesOf, Decide, IdOf, Channels, Strip, Lower;
    forall c ensures Candidate(f, routes, c) <==> Candidate(g, routes, c) { SamePromptsSameCandidates(f, g, routes, c); }
    SameCandidatesSameDecision(f, routes, g, routes);
  }

  lemma SamePromptsSameCandidates(f: Route -> Option<string>, g: Route -> Option<string>, routes: seq<Route>, c: Choice)
    requires forall r <- routes :: f(r) == g(r)
    ensures Candidate(f, routes, c) <==> Candidate(g, routes, c)
  {
    hide IdentityOf;
  }

  lemma NamedReads(e: Engine, m: Message, directory: Directory, name: string, r: Route)
    requires Channels(m) == {Lower(Strip(m.channelId))} - {""} && Lower(Strip(m.channelId)) != "" && Lower(Strip(name)) == name != ""
    requires r.channel != Lower(Strip(m.channelId)) ==>
               (r.channel == name <==> IdOf(directory, r.channel) == Some(Lower(Strip(m.channelId))))
    ensures NamedPrompts(e, m, directory)(r) == Prompts(e, m.(channelName := name))(r)
  {
    ChannelNameIsNotRead(e, m, name, r);
    assert Channels(m.(channelName := name)) == {Lower(Strip(m.channelId)), name};
    hide RoutePrompt, RoutedText, IdOf, Strip, Lower;
  }

  lemma ChannelNameIsNotRead(e: Engine, m: Message, name: string, r: Route)
    ensures RoutedText(m.(channelName := name)) == RoutedText(m)
    ensures RoutePrompt(e, m.(channelName := name), r, RoutedText(m)) == RoutePrompt(e, m, r, RoutedText(m))
  {
  }

  // Two matching routes of different identities share a priority, which no matching route exceeds when
  // identities fix routes.
  ghost predicate TiedRoutes(e: Engine, m: Message, directory: Directory, routes: seq<Route>, r: Route, s: Route) {
    && r in routes && s in routes && IdentityOf(r) != IdentityOf(s) && r.priority == s.priority
    && NamedPrompts(e, m, directory)(r).Some? && NamedPrompts(e, m, directory)(s).Some?
    && (IdentityFixesRoute(routes) ==>
          forall x: Route :: x in routes && NamedPrompts(e, m, directory)(x).Some? ==> x.priority <= r.priority)
  }

  // A route never ties with its own copies: when copies and routes match without a decision, two of the
  // routes themselves are tied.
  lemma OnlyRoutesTie(e: Engine, m: Message, directory: Directory, routes: seq<Route>)
    requires Decide(Prompts(e, m), routes + AliasesOf(directory, routes)) == None
    requires exists x :: x in routes + AliasesOf(directory, routes) && Prompts(e, m)(x).Some?
    ensures exists r, s :: TiedRoutes(e, m, directory, routes, r, s)
  {
    var f, all := Prompts(e, m), routes + AliasesOf(directory, routes);
    UndecidedIffNothingOrTie(f, all);
    hide Prompts, Decide, AliasesOf, TopLeader, TiedRoutes;
    var j: nat, k: nat :| j != k && TopLeader(f, all, j) && TopLeader(f, all, k);
    var r, s := TopLeadersTie(e, m, directory, routes, j, k);
  }

  lemma TopLeadersTie(e: Engine, m: Message, directory: Directory, routes: seq<Route>, j: nat, k: nat) returns (r: Route, s: Route)
    requires j != k
    requires TopLeader(Prompts(e, m), routes + AliasesOf(directory, routes), j)
    requires TopLeader(Prompts(e, m), routes + AliasesOf(directory, routes), k)
    ensures TiedRoutes(e, m, directory, routes, r, s)
  {
    hide IdentityOf, Prompts, NamedPrompts, AliasesOf, Leads, IdentityFixesRoute;
    LeadersDiffer(Prompts(e, m), routes + AliasesOf(directory, routes), j, k);
    r := OriginalOf(e, m, directory, routes, j);
    s := OriginalOf(e, m, directory, routes, k);
    if IdentityFixesRoute(routes) {
      forall x: Route | x in routes && NamedPrompts(e, m, directory)(x).Some? ensures x.priority <= r.priority {
        NoneAbove(e, m, directory, routes, j, x);
      }
    }
  }

  // A leader among routes and copies is or copies a route that matches with the ids read as names.
  lemma OriginalOf(e: Engine, m: Message, directory: Directory, routes: seq<Route>, j: nat) returns (r: Route)
    requires Leads(Prompts(e, m), routes + AliasesOf(directory, routes), j)
    ensures var x := (routes + AliasesOf(directory, routes))[j];
            && r in routes && IdentityOf(r) == IdentityOf(x) && r.priority == x.priority
            && NamedPrompts(e, m, directory)(r).Some?
  {
    var all := routes + AliasesOf(directory, routes);
    var x := all[j];
    assert x in all;
    hide IdentityOf, Prompts, NamedPrompts, AliasesOf, Leads;
    var c := Choice(IdentityOf(x), Prompts(e, m)(x).value, x.priority);
    assert Prompts(e, m)(x).Some? by { LeaderMatches(Prompts(e, m), all, j); }
    Offers(Prompts(e, m), all, x, c);
    CopiesOfferNoMore(e, m, directory, routes, c);
    r :| r in routes && NamedPrompts(e, m, directory)(r) == Some(c.prompt) && IdentityOf(r) == c.identity && r.priority == c.priority;
  }

  lemma LeaderMatches(f: Route -> Option<string>, routes: seq<Route>, k: nat)
    requires Leads(f, routes, k)
    ensures k < |routes| && f(routes[k]).Some?
  {
  }

  // When identities fix routes, no matching route has a higher priority than the top leaders.
  lemma NoneAbove(e: Engine, m: Message, directory: Directory, routes: seq<Route>, j: nat, x: Route)
    requires IdentityFixesRoute(routes) && x in routes && NamedPrompts(e, m, directory)(x).Some?
    requires TopLeader(Prompts(e, m), routes + AliasesOf(directory, routes), j)
    ensures x.priority <= (routes + AliasesOf(directory, routes))[j].priority
  {
    var f, all := Prompts(e, m), routes + AliasesOf(directory, routes);
    AliasesKeepIdentities(directory, routes);
    PromptsIgnoreChannel(e, m);
    hide IdentityOf, Prompts, NamedPrompts, AliasesOf, Leads, TopLeader, IdentityFixesRoute, IgnoresChannel;
    var c := Choice(IdentityOf(x), NamedPrompts(e, m, directory)(x).value, x.priority);
    Offers(NamedPrompts(e, m, directory), routes, x, c);
    CopiesOffer(e, m, directory, routes, c);
    var y :| y in all && f(y) == Some(c.prompt) && IdentityOf(y) == c.identity && y.priority == c.priority;
    var k :| 0 <= k < |all| && all[k] == y;
    var l := FirstLeader(f, all, k);
    LeaderMatches(f, all, l);
    assert all[l] in all;
    FixedPair(f, all, all[l], y);
    NotAboveTop(f, all, j, l);
  }

  lemma NotAboveTop(f: Route -> Option<string>, routes: seq<Route>, j: nat, l: nat)
    requires TopLeader(f, routes, j) && Leads(f, routes, l)
    ensures routes[l].priority <= routes[j].priority
  {
    hide Leads;
  }

  /******* Samples *******/

  function SampleRule(workflow: string, priority: int): Route {
    Route(workflow, "ops", [], "rule", "", priority, Prefix, "x", [], [], [], false, false, true, {}, {})
  }

  const SAMPLE_MESSAGE := Message("slack", "ops", "", "x", "u", "1", "1", false, false, "", "")

  lemma SampleMatches(e: Engine, workflow: string, priority: int)
    ensures PromptFor(e, SAMPLE_MESSAGE, SampleRule(workflow, priority)) == Some("x")
  {
    var r := SampleRule(workflow, priority);
    assert StripLeft("x") == "x" && StripRight("x") == "x";
    assert StripLeft("ops") == "ops" && StripRight("ops") == "ops";
    assert Lower("ops") == "ops" && Lower("x") == "x";
    assert Channels(SAMPLE_MESSAGE) == {"ops"} by {
      assert StripLeft("") == "" && StripRight("") == "" && Lower("") == "";
    }
    assert RoutedText(SAMPLE_MESSAGE) == "x";
    assert StartsWith("x", "x");
    assert RoutePrompt(e, SAMPLE_MESSAGE, r, "x") == NonEmpty("x");
  }

  // A message that names its channel by id alone, as one provider sends them, is only routed through the
  // copy of the route.
  lemma IdNeedsCopy(e: Engine)
    ensures var m := SAMPLE_MESSAGE.(channelId := "C1", channelName := "C1");
            var directory := (name: string) => if name == "ops" then Some("C1") else None;
            var routes := [SampleRule("w", 1)];
            && Decide(Prompts(e, m), routes) == None
            && Decide(Prompts(e, m), routes + AliasesOf(directory, routes)) == Some((IdentityOf(routes[0]), "x"))
  {
    var m := SAMPLE_MESSAGE.(channelId := "C1", channelName := "C1");
    var directory := (name: string) => if name == "ops" then Some("C1") else None;
    var r := SampleRule("w", 1);
    var copy := r.(channel := "c1");
    IdSample(e);
    assert IdOf(directory, r.channel) == Some("c1") && r.channel != "c1" by { assert Lower("C1") == "c1" && "ops"[0] != "c1"[0]; }
    hide Prompts, IdentityOf, IdOf, SampleRule;
    assert [r][..0] == [] && AliasesOf(directory, [r]) == [copy] && [r] + [copy] == [r, copy];
    CopyDecides(Prompts(e, m), r, copy, "x");
  }

  lemma CopyDecides(f: Route -> Option<string>, r: Route, copy: Route, prompt: string)
    requires f(r) == None && f(copy) == Some(prompt) && IdentityOf(copy) == IdentityOf(r)
    ensures Decide(f, [r]) == None && Decide(f, [r, copy]) == Some((IdentityOf(r), prompt))
  {
    hide IdentityOf;
    assert [r][..0] == [] && [r, copy][..1] == [r];
    assert Collect(f, []) == map[] && Collect(f, [r]) == map[] && Collect(f, [r, copy]) == map[IdentityOf(r) := (copy, prompt)];
    DecideNothing(f, [r]);
    DecideIsSoleWinner(f, [r, copy], IdentityOf(r));
  }

  lemma IdSample(e: Engine)
    ensures var f, r := Prompts(e, SAMPLE_MESSAGE.(channelId := "C1", channelName := "C1")), SampleRule("w", 1);
            f(r) == None && f(r.(channel := "c1")) == Some("x") && IdentityOf(r.(channel := "c1")) == IdentityOf(r)
  {
    var m := SAMPLE_MESSAGE.(channelId := "C1", channelName := "C1");
    var r := SampleRule("w", 1);
    var copy := r.(channel := "c1");
    assert StripLeft("C1") == "C1" && StripRight("C1") == "C1" && Lower("C1") == "c1" && Channels(m) == {"c1"};
    SampleMatches(e, "w", 1);
    SamePromptAnywhere(e, SAMPLE_MESSAGE, r, "c1", "x");
    assert RoutePrompt(e, m, copy, "x") == RoutePrompt(e, SAMPLE_MESSAGE, copy, "x") && RoutedText(m) == RoutedText(SAMPLE_MESSAGE) == "x";
    assert r.channel == "ops" && "ops"[0] != "c1"[0];
  }

  // Two rules that share their identity but not their priority, and a third one between them: no
  // condition for order independence holds, so some order decides otherwise.
  lemma OrderMattersWithoutFixedIdentity(e: Engine)
    ensures var low, high, other := SampleRule("w", 1), SampleRule("w", 5), SampleRule("v", 3);
            var f := Prompts(e, SAMPLE_MESSAGE);
            && Decide(f, [low, high, other]) == Some((IdentityOf(other), "x"))
            && Decide(f, [high, low, other]) == Some((IdentityOf(high), "x"))
            && exists b :: Reorders([low, high, other], b) && Decide(f, b) != Decide(f, [low, high, other])
  {
    var low, high, other := SampleRule("w", 1), SampleRule("w", 5), SampleRule("v", 3);
    var f := Prompts(e, SAMPLE_MESSAGE);
    SampleMatches(e, "w", 1);
    SampleMatches(e, "w", 5);
    SampleMatches(e, "v", 3);
    SampleIdentities();
    hide PromptFor, IdentityOf, SampleRule, Decide;
    FirstOfThree(f, low, high, other, "x");
    FirstOfThree(f, high, low, other, "x");
    SwapReorders(low, high, other);
  }

  lemma SampleIdentities()
    ensures forall p, q :: IdentityOf(SampleRule("w", p)) == IdentityOf(SampleRule("w", q)) != IdentityOf(SampleRule("v", 3))
    ensures forall workflow, p :: SampleRule(workflow, p).priority == p
  {
    forall p ensures IdentityOf(SampleRule("w", p)).0 == "w" {}
    assert IdentityOf(SampleRule("v", 3)).0 == "v" && "w"[0] != "v"[0];
  }

  lemma SwapReorders(a: Route, b: Route, c: Route)
    ensures Reorders([a, b, c], [b, a, c])
  {
  }

  lemma FirstOfThree(f: Route -> Option<string>, a: Route, b: Route, c: Route, prompt: string)
    requires f(a) == f(b) == f(c) == Some(prompt) && IdentityOf(a) == IdentityOf(b) != IdentityOf(c) && a.priority != c.priority
    ensures Decide(f, [a, b, c]) == Some((if a.priority > c.priority then IdentityOf(a) else IdentityOf(c), prompt))
  {
    hide IdentityOf;
    assert [a, b, c][..2] == [a, b] && [a, b][..1] == [a] && [a][..0] == [];
    assert Collect(f, [a]) == map[IdentityOf(a) := (a, prompt)];
    assert Collect(f, [a, b]) == map[IdentityOf(a) := (a, prompt)];
    assert Collect(f, [a, b, c]) == map[IdentityOf(a) := (a, prompt), IdentityOf(c) := (c, prompt)];
    DecideIsSoleWinner(f, [a, b, c], if a.priority > c.priority then IdentityOf(a) else IdentityOf(c));
  }
}
