/**
 * One list of tools from many providers (ConnectorRegistry in
 * packages/adapters/src/composio-connector.ts), and the calls that come back by the listed names
 * (packages/adapters/src/executor.ts).
 */
module ToolNames {
  import opened Basics

  datatype Route = Route(connectorId: string, toolName: string, resourceId: Option<string>)

  /** `definition` is the description, the input schema and the read-only mark, which pass through. */
  datatype Tool = Tool(name: string, definition: string, route: Option<Route>)

  /** A provider's answer; None when asking it failed. */
  datatype Answer = Answer(connectorId: string, tools: Option<seq<Tool>>)

  datatype Offer = Offer(connectorId: string, tool: Tool)

  // ---------- numbering ----------

  function Decimal(n: nat): (digits: string)
    ensures digits != ""
  {
    var digit := ['0' + (n % 10) as char];
    if n < 10 then digit else Decimal(n / 10) + digit
  }

  lemma {:induction false} DecimalIsInjective(m: nat, n: nat)
    requires Decimal(m) == Decimal(n)
    ensures m == n
    decreases m
  {
    var a, b := Decimal(m), Decimal(n);
    assert a[|a| - 1] == b[|b| - 1];
    if m >= 10 && n >= 10 {
      assert a[..|a| - 1] == Decimal(m / 10) && b[..|b| - 1] == Decimal(n / 10);
      DecimalIsInjective(m / 10, n / 10);
    }
  }

  predicate IsDigits(s: string) {
    forall i :: 0 <= i < |s| ==> '0' <= s[i] <= '9'
  }

  function ValueOf(digits: string): nat
    requires IsDigits(digits)
  {
    if digits == "" then 0
    else ValueOf(digits[..|digits| - 1]) * 10 + (digits[|digits| - 1] as int - '0' as int)
  }

  /** A number is written in decimal digits that read as the number, without a leading zero. */
  lemma {:induction false} DecimalReads(n: nat)
    ensures IsDigits(Decimal(n)) && ValueOf(Decimal(n)) == n
    ensures Decimal(n)[0] == '0' ==> n == 0 && Decimal(n) == "0"
  {
    var digit := ['0' + (n % 10) as char];
    assert digit[0] as int - '0' as int == n % 10;
    if n < 10 {
      assert digit[..0] == "" && ValueOf("") == 0;
      assert ValueOf(digit) == n;
    } else {
      DecimalReads(n / 10);
      var front := Decimal(n / 10);
      assert Decimal(n) == front + digit && (front + digit)[..|front|] == front;
    }
  }

  function Qualified(connectorId: string, toolName: string): string {
    connectorId + "." + toolName
  }

  function Numbered(connectorId: string, toolName: string, k: nat): string {
    Qualified(connectorId, toolName) + "." + Decimal(k)
  }

  lemma NumberedIs(connectorId: string, toolName: string, k: nat)
    ensures Numbered(connectorId, toolName, k) == connectorId + "." + toolName + "." + Decimal(k)
  {
  }

  lemma NumberedIsInjective(connectorId: string, toolName: string, j: nat, k: nat)
    requires Numbered(connectorId, toolName, j) == Numbered(connectorId, toolName, k)
    ensures j == k
  {
    var stem := Qualified(connectorId, toolName) + ".";
    assert (stem + Decimal(j))[|stem|..] == Decimal(j);
    assert (stem + Decimal(k))[|stem|..] == Decimal(k);
    DecimalIsInjective(j, k);
  }

  // ---------- choosing a name ----------

  /**
   * The first unused of: the tool's own name, the name behind its connector, and that name with
   * the numbers from two on.
   */
  ghost predicate Chosen(used: set<string>, connectorId: string, toolName: string, name: string) {
    && name !in used
    && (|| name == toolName
        || (toolName in used && name == connectorId + "." + toolName)
        || (&& toolName in used && connectorId + "." + toolName in used
            && exists k: nat :: IsFirstFree(used, connectorId, toolName, k, name)))
  }

  ghost predicate IsFirstFree(used: set<string>, connectorId: string, toolName: string, k: nat, name: string) {
    && k >= 2 && name == connectorId + "." + toolName + "." + Decimal(k)
    && forall j: nat :: 2 <= j < k ==> Numbered(connectorId, toolName, j) in used
  }

  /** The used names that the numbering has still ahead of it. */
  ghost function Ahead(used: set<string>, connectorId: string, toolName: string, k: int): set<string> {
    set name | name in used && exists j: nat :: j >= k && name == Numbered(connectorId, toolName, j)
  }

  /** Passing a used number leaves fewer used names ahead, so an unused one comes up. */
  lemma AheadShrinks(used: set<string>, connectorId: string, toolName: string, k: nat)
    requires Numbered(connectorId, toolName, k) in used
    ensures |Ahead(used, connectorId, toolName, k + 1)| < |Ahead(used, connectorId, toolName, k)|
  {
    var here := Numbered(connectorId, toolName, k);
    var now, after := Ahead(used, connectorId, toolName, k), Ahead(used, connectorId, toolName, k + 1);
    assert here in now;
    if here in after {
      var j: nat :| j >= k + 1 && here == Numbered(connectorId, toolName, j);
      NumberedIsInjective(connectorId, toolName, j, k);
      assert false;
    }
    assert after <= now - {here};
    Smaller(after, now - {here});
  }

  lemma {:induction false} Smaller(a: set<string>, b: set<string>)
    requires a <= b
    ensures |a| <= |b|
  {
    if a != {} {
      var x :| x in a;
      Smaller(a - {x}, b - {x});
    }
  }

  method Choose(used: set<string>, connectorId: string, toolName: string) returns (name: string)
    ensures Chosen(used, connectorId, toolName, name)
  {
    hide Numbered;
    name := toolName;
    if name in used { name := Qualified(connectorId, name); }
    var suffix := 2;
    while name in used
      invariant suffix >= 2
      invariant suffix == 2 ==> name == (if toolName in used then Qualified(connectorId, toolName) else toolName)
      invariant suffix > 2 ==>
        && toolName in used && Qualified(connectorId, toolName) in used
        && name == Numbered(connectorId, toolName, suffix - 1)
        && forall j: nat :: 2 <= j < suffix - 1 ==> Numbered(connectorId, toolName, j) in used
      decreases suffix == 2, |Ahead(used, connectorId, toolName, suffix - 1)|
    {
      if suffix > 2 { AheadShrinks(used, connectorId, toolName, suffix - 1); }
      name := Numbered(connectorId, toolName, suffix);
      suffix := suffix + 1;
    }
    if suffix > 2 { NumberedIs(connectorId, toolName, suffix - 1); }
    assert suffix > 2 ==> IsFirstFree(used, connectorId, toolName, suffix - 1, name);
  }

  // ---------- the list ----------

  function Tagged(connectorId: string, tools: seq<Tool>): (offers: seq<Offer>)
    ensures |offers| == |tools|
    ensures forall i :: 0 <= i < |tools| ==> offers[i] == Offer(connectorId, tools[i])
  {
    if tools == [] then [] else [Offer(connectorId, tools[0])] + Tagged(connectorId, tools[1..])
  }

  function Offers(answer: Answer): seq<Offer> {
    match answer.tools case None => [] case Some(tools) => Tagged(answer.connectorId, tools)
  }

  /** Everything on offer, provider by provider, in the order of their answers. */
  function AllOffers(answers: seq<Answer>): seq<Offer> {
    if answers == [] then []
    else AllOffers(answers[..|answers| - 1]) + Offers(answers[|answers| - 1])
  }

  ghost function Names(tools: seq<Tool>): set<string> {
    set tool | tool in tools :: tool.name
  }

  /** A tool as it is listed after `before`: only its name may differ, and it knows its way back. */
  ghost predicate Listed(before: seq<Tool>, offer: Offer, tool: Tool) {
    && Chosen(Names(before), offer.connectorId, offer.tool.name, tool.name)
    && tool.definition == offer.tool.definition
    && tool.route == (if offer.tool.route.Some? then offer.tool.route
                      else Some(Route(offer.connectorId, offer.tool.name, None)))
  }

  ghost predicate Lists(tools: seq<Tool>, offers: seq<Offer>) {
    && |tools| == |offers|
    && forall i :: 0 <= i < |tools| ==> Listed(tools[..i], offers[i], tools[i])
  }

  lemma ListsOneMore(tools: seq<Tool>, offers: seq<Offer>, tool: Tool, offer: Offer)
    requires Lists(tools, offers) && Listed(tools, offer, tool)
    ensures Lists(tools + [tool], offers + [offer])
    ensures Names(tools + [tool]) == Names(tools) + {tool.name}
  {
    hide Listed;
    var more := tools + [tool];
    assert more[..|tools|] == tools;
    forall i | 0 <= i < |tools| ensures more[..i] == tools[..i] {}
    assert forall t :: t in more <==> t in tools || t == tool;
  }

  /** Every offer is listed once, in order, under a name no earlier one has. */
  method DiscoverTools(answers: seq<Answer>) returns (discovered: seq<Tool>)
    ensures Lists(discovered, AllOffers(answers))
  {
    hide Listed, Lists, Names, Chosen, Tagged;
    var used: set<string> := {};
    var i := 0;
    discovered := [];
    NothingListed();
    assert answers[..0] == [];
    while i < |answers|
      invariant i <= |answers|
      invariant Lists(discovered, AllOffers(answers[..i])) && used == Names(discovered)
    {
      assert answers[..i + 1][..i] == answers[..i];
      var tools := if answers[i].tools.Some? then answers[i].tools.value else [];
      NoOffers(answers[i]);
      discovered, used := ListTools(discovered, used, answers[i].connectorId, tools, AllOffers(answers[..i]));
      i := i + 1;
    }
    assert answers[..i] == answers;
  }

  /** The inner loop: the tools of one provider. */
  method ListTools(before: seq<Tool>, taken: set<string>, connectorId: string, tools: seq<Tool>, ghost offers: seq<Offer>)
    returns (discovered: seq<Tool>, used: set<string>)
    requires Lists(before, offers) && taken == Names(before)
    ensures Lists(discovered, offers + Tagged(connectorId, tools)) && used == Names(discovered)
  {
    hide Listed, Lists, Names, Chosen, Tagged;
    ghost var more := Tagged(connectorId, tools);
    var j := 0;
    discovered, used := before, taken;
    assert offers + more[..0] == offers;
    while j < |tools|
      invariant j <= |tools|
      invariant Lists(discovered, offers + more[..j]) && used == Names(discovered)
    {
      var tool := tools[j];
      var name := Choose(used, connectorId, tool.name);
      var route := if tool.route.Some? then tool.route else Some(Route(connectorId, tool.name, None));
      var listed := Tool(name, tool.definition, route);
      IsListed(discovered, more[j], listed);
      ListsOneMore(discovered, offers + more[..j], listed, more[j]);
      assert offers + more[..j] + [more[j]] == offers + more[..j + 1];
      used := used + {name};
      discovered := discovered + [listed];
      j := j + 1;
    }
    assert more[..j] == more;
  }

  lemma NoOffers(answer: Answer)
    ensures Offers(answer) == Tagged(answer.connectorId, if answer.tools.Some? then answer.tools.value else [])
  {
  }

  lemma NothingListed()
    ensures Lists([], AllOffers([])) && Names([]) == {}
  {
  }

  lemma IsListed(before: seq<Tool>, offer: Offer, tool: Tool)
    requires Chosen(Names(before), offer.connectorId, offer.tool.name, tool.name)
    requires tool.definition == offer.tool.definition
    requires tool.route == (if offer.tool.route.Some? then offer.tool.route
                            else Some(Route(offer.connectorId, offer.tool.name, None)))
    ensures Listed(before, offer, tool)
  {
  }

  // ---------- what a list promises ----------

  lemma NamesAreDistinct(tools: seq<Tool>, offers: seq<Offer>, i: nat, j: nat)
    requires Lists(tools, offers) && i < j < |tools|
    ensures tools[i].name != tools[j].name
  {
    assert Listed(tools[..j], offers[j], tools[j]);
    assert tools[..j][i] == tools[i];
    assert tools[i].name in Names(tools[..j]);
  }

  /** The first offer of a name keeps it. */
  lemma FirstOfferKeepsName(tools: seq<Tool>, offers: seq<Offer>, i: nat)
    requires Lists(tools, offers) && i < |tools|
    ensures tools[i].name == offers[i].tool.name <==> offers[i].tool.name !in Names(tools[..i])
  {
    hide Numbered, Names;
    assert Listed(tools[..i], offers[i], tools[i]);
  }

  // ---------- calling by the listed name ----------

  /** The connector tools the agent is shown: those whose names no built-in tool has. */
  function Exposed(tools: seq<Tool>, builtins: set<string>): seq<Tool> {
    if tools == [] then []
    else
      var n := |tools| - 1;
      Exposed(tools[..n], builtins) + if tools[n].name in builtins then [] else [tools[n]]
  }

  function Routes(tools: seq<Tool>): map<string, Route> {
    if tools == [] then map[]
    else
      var n := |tools| - 1;
      if tools[n].route.None? then Routes(tools[..n]) else Routes(tools[..n])[tools[n].name := tools[n].route.value]
  }

  datatype Dispatch = UnknownConnector(connectorId: string) | Sent(connectorId: string, tool: string)

  function Execute(providers: set<string>, tool: string, route: Option<Route>): Dispatch {
    var connectorId :=
      if route.Some? then route.value.connectorId
      else if tool == "destination.write" then "destination" else "composio";
    if connectorId !in providers then UnknownConnector(connectorId)
    else Sent(connectorId, if route.Some? then route.value.toolName else tool)
  }

  /** What the agent runtime does with a call of a connector tool. */
  function Call(providers: set<string>, tools: seq<Tool>, builtins: set<string>, name: string): Dispatch {
    var routes := Routes(Exposed(tools, builtins));
    Execute(providers, name, if name in routes then Some(routes[name]) else None)
  }

  /** A call by a name that no listed tool with a route has goes to the preset connector, under that very name. */
  lemma UnlistedCall(providers: set<string>, tools: seq<Tool>, builtins: set<string>, name: string)
    requires forall i :: 0 <= i < |tools| ==> tools[i].name != name || tools[i].route.None? || name in builtins
    ensures var preset := if name == "destination.write" then "destination" else "composio";
      Call(providers, tools, builtins, name)
        == if preset in providers then Sent(preset, name) else UnknownConnector(preset)
  {
    ExposedAreListed(tools, builtins);
    RoutesAreOwn(Exposed(tools, builtins), name);
  }

  lemma {:induction false} ExposedAreListed(tools: seq<Tool>, builtins: set<string>)
    ensures forall tool :: tool in Exposed(tools, builtins) <==> tool in tools && tool.name !in builtins
  {
    if tools != [] {
      ExposedAreListed(tools[..|tools| - 1], builtins);
      assert tools == tools[..|tools| - 1] + [tools[|tools| - 1]];
    }
  }

  lemma {:induction false} RoutesAreOwn(tools: seq<Tool>, name: string)
    requires forall tool :: tool in tools ==> tool.name != name || tool.route.None?
    ensures name !in Routes(tools)
  {
    if tools != [] { RoutesAreOwn(tools[..|tools| - 1], name); }
  }

  lemma {:induction false} RoutesFind(tools: seq<Tool>, builtins: set<string>, i: nat)
    requires i < |tools| && tools[i].route.Some? && tools[i].name !in builtins
    requires forall j :: 0 <= j < |tools| && j != i ==> tools[j].name != tools[i].name
    ensures var routes := Routes(Exposed(tools, builtins));
      tools[i].name in routes && routes[tools[i].name] == tools[i].route.value
    decreases |tools|
  {
    var n := |tools| - 1;
    var before := tools[..n];
    if tools[n].name !in builtins {
      assert Exposed(tools, builtins)[..|Exposed(before, builtins)|] == Exposed(before, builtins);
    } else {
      assert Exposed(tools, builtins) == Exposed(before, builtins);
    }
    if i < n {
      assert before[i] == tools[i];
      forall j | 0 <= j < n && j != i ensures before[j].name != tools[i].name { assert before[j] == tools[j]; }
      RoutesFind(before, builtins, i);
    }
  }

  /**
   * However the names were changed: calling a listed tool that no built-in hides reaches the
   * provider that offered it under the name it was offered by, or where its own route says.
   */
  lemma CallReachesOrigin(providers: set<string>, tools: seq<Tool>, builtins: set<string>, offers: seq<Offer>, i: nat)
    requires Lists(tools, offers) && i < |tools| && tools[i].name !in builtins
    ensures var offer := offers[i];
      var route := if offer.tool.route.Some? then offer.tool.route.value
                   else Route(offer.connectorId, offer.tool.name, None);
      Call(providers, tools, builtins, tools[i].name)
        == if route.connectorId in providers then Sent(route.connectorId, route.toolName)
           else UnknownConnector(route.connectorId)
  {
    hide Chosen, Routes, Exposed;
    assert Listed(tools[..i], offers[i], tools[i]);
    forall j | 0 <= j < |tools| && j != i ensures tools[j].name != tools[i].name {
      if j < i { NamesAreDistinct(tools, offers, j, i); } else { NamesAreDistinct(tools, offers, i, j); }
    }
    RoutesFind(tools, builtins, i);
  }
}
