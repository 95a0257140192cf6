/**
 * `/tools`: listing the loaded tools grouped by namespace ("git__status" is
 * tool "status" in namespace "git"), adding tools and removing them by name,
 * namespace or wildcard pattern, with list replies truncated to the chunk
 * size. The `/get tools` listing shares the truncation.
 */
module ToolsCommand {
  import opened Wrappers
  import opened Text
  import opened GoStrconv

  /** Namespace and bare name: split at the first "__", or ("other", name). */
  function ParseToolName(name: string): (string, string) {
    match Find(name, "__")
    case Some(idx) => (name[..idx], name[idx + 2..])
    case None => ("other", name)
  }

  /** The split loses nothing, and the namespace holds no "__" of its own. */
  lemma ParseToolNameSplits(name: string)
    ensures Contains(name, "__") ==> (
      && ParseToolName(name).0 + "__" + ParseToolName(name).1 == name
      && !Contains(ParseToolName(name).0, "__"))
    ensures !Contains(name, "__") ==> ParseToolName(name) == ("other", name)
  {
    match Find(name, "__")
    case Some(idx) =>
      var ns := name[..idx];
      assert name == ns + "__" + name[idx + 2..];
      forall j | 0 <= j <= |ns|
        ensures !IsAt(ns, "__", j)
      {
        if IsAt(ns, "__", j) {
          assert name[j..j + 2] == ns[j..j + 2];
          assert IsAt(name, "__", j);
        }
      }
    case None =>
  }

  /** A tool name built from a namespace without '_' parses back into that namespace. */
  lemma ParseQualifiedName(ns: string, bare: string)
    requires '_' !in ns
    ensures ParseToolName(ns + "__" + bare) == (ns, bare)
  {
    var name := ns + "__" + bare;
    assert IsAt(name, "__", |ns|);
    forall j | 0 <= j < |ns|
      ensures !IsAt(name, "__", j)
    {
      assert name[j] == ns[j];
    }
    assert name[..|ns|] == ns && name[|ns| + 2..] == bare;
  }

  /** The namespace of each name, in order. */
  function Namespaces(names: seq<string>): (r: seq<string>)
    ensures |r| == |names|
    ensures forall k :: 0 <= k < |names| ==> r[k] == ParseToolName(names[k]).0
  {
    if names == [] then []
    else Namespaces(names[..|names| - 1]) + [ParseToolName(names[|names| - 1]).0]
  }

  /** Each string once, where it first occurs. */
  function FirstSeen(xs: seq<string>): (r: seq<string>)
    ensures forall x :: x in r <==> x in xs
    ensures Distinct(r)
  {
    if xs == [] then []
    else
      var init := FirstSeen(xs[..|xs| - 1]);
      var x := xs[|xs| - 1];
      assert xs == xs[..|xs| - 1] + [x];
      if x in init then init else init + [x]
  }

  lemma IndexOfItemSnoc(xs: seq<string>, y: string, x: string)
    ensures IndexOfItem(xs + [y], x) == if x in xs then IndexOfItem(xs, x) else if x == y then |xs| else -1
  {
    var i := IndexOfItem(xs + [y], x);
    if x in xs {
      var k := IndexOfItem(xs, x);
      assert (xs + [y])[k] == x;
      assert forall j :: 0 <= j < k ==> (xs + [y])[j] == xs[j];
    } else {
      assert forall j :: 0 <= j < |xs| ==> (xs + [y])[j] == xs[j];
      assert (xs + [y])[|xs|] == y;
    }
  }

  /** `r` lists its strings in the order of their first occurrence in `xs`. */
  predicate InOrderOfFirstOccurrence(xs: seq<string>, r: seq<string>) {
    forall i, j :: 0 <= i < j < |r| ==> IndexOfItem(xs, r[i]) < IndexOfItem(xs, r[j])
  }

  /** The namespaces are listed in the order of their first occurrence. */
  lemma {:induction false} FirstSeenOrder(xs: seq<string>)
    ensures InOrderOfFirstOccurrence(xs, FirstSeen(xs))
  {
    if xs != [] {
      var init := xs[..|xs| - 1];
      var x := xs[|xs| - 1];
      assert xs == init + [x];
      FirstSeenOrder(init);
      var r0 := FirstSeen(init);
      var r := FirstSeen(xs);
      assert r == if x in r0 then r0 else r0 + [x];
      forall i, j | 0 <= i < j < |r|
        ensures IndexOfItem(xs, r[i]) < IndexOfItem(xs, r[j])
      {
        assert r[i] == r0[i] && r0[i] in init;
        IndexOfItemSnoc(init, x, r[i]);
        IndexOfItemSnoc(init, x, r[j]);
        if j < |r0| {
          assert r[j] == r0[j] && r0[j] in init;
        } else {
          assert r[j] == x && x !in init;
        }
      }
    }
  }

  /** How many names of each namespace there are. */
  function Groups(names: seq<string>): (groups: map<string, int>)
    ensures forall ns :: ns in groups <==> ns in Namespaces(names)
  {
    var spaces := Namespaces(names);
    map ns | ns in FirstSeen(spaces) :: multiset(spaces)[ns]
  }

  /** The sum of the counts of the listed namespaces. */
  function Total(order: seq<string>, counts: multiset<string>): int {
    if order == [] then 0 else Total(order[..|order| - 1], counts) + counts[order[|order| - 1]]
  }

  lemma {:induction false} TotalAddOne(order: seq<string>, counts: multiset<string>, x: string)
    requires Distinct(order)
    ensures Total(order, counts + multiset{x}) == Total(order, counts) + if x in order then 1 else 0
  {
    if order != [] {
      var init := order[..|order| - 1];
      assert order == init + [order[|order| - 1]];
      TotalAddOne(init, counts, x);
    }
  }

  /** The group counts add up to the number of tools. */
  lemma {:induction false} GroupCountsSum(xs: seq<string>)
    ensures Total(FirstSeen(xs), multiset(xs)) == |xs|
  {
    if xs != [] {
      var init := xs[..|xs| - 1];
      var x := xs[|xs| - 1];
      assert xs == init + [x];
      GroupCountsSum(init);
      var r0 := FirstSeen(init);
      TotalAddOne(r0, multiset(init), x);
      if x !in r0 {
        assert (r0 + [x])[..|r0|] == r0;
        assert multiset(init)[x] == 0;
      }
    }
  }

  /** `groups` and `order` hold the counts and first-seen order of `spaces`. */
  ghost predicate Counted(groups: map<string, int>, order: seq<string>, spaces: seq<string>) {
    && order == FirstSeen(spaces)
    && (forall ns :: ns in groups <==> ns in order)
    && (forall ns :: ns in groups ==> groups[ns] == multiset(spaces)[ns])
  }

  lemma CountedStep(groups: map<string, int>, order: seq<string>, spaces: seq<string>, ns: string)
    requires Counted(groups, order, spaces)
    ensures Counted(groups[ns := (if ns in groups then groups[ns] else 0) + 1],
                    if ns in groups then order else order + [ns], spaces + [ns])
  {
    var spaces' := spaces + [ns];
    assert spaces'[..|spaces|] == spaces;
    assert FirstSeen(spaces') == if ns in order then order else order + [ns];
    assert multiset(spaces') == multiset(spaces) + multiset{ns};
    var groups' := groups[ns := (if ns in groups then groups[ns] else 0) + 1];
    forall x | x in groups'
      ensures groups'[x] == multiset(spaces')[x]
    {
    }
  }

  /** The namespaces of one more name. */
  lemma NamespacesSnoc(names: seq<string>, k: int)
    requires 0 <= k < |names|
    ensures Namespaces(names[..k + 1]) == Namespaces(names[..k]) + [ParseToolName(names[k]).0]
  {
    assert names[..k + 1][..k] == names[..k];
  }

  lemma CountedIsGroups(groups: map<string, int>, order: seq<string>, names: seq<string>)
    requires Counted(groups, order, Namespaces(names))
    ensures groups == Groups(names)
  {
  }

  /** The loop of formatToolList that counts the names per namespace. */
  method CountByNamespace(toolNames: seq<string>) returns (groups: map<string, int>, order: seq<string>)
    ensures order == FirstSeen(Namespaces(toolNames))
    ensures groups == Groups(toolNames)
  {
    groups := map[];
    order := [];
    ghost var spaces: seq<string> := [];
    for k := 0 to |toolNames|
      invariant spaces == Namespaces(toolNames[..k])
      invariant Counted(groups, order, spaces)
    {
      var (ns, _) := ParseToolName(toolNames[k]);
      CountedStep(groups, order, spaces, ns);
      NamespacesSnoc(toolNames, k);
      if ns !in groups {
        order := order + [ns];
      }
      groups := groups[ns := (if ns in groups then groups[ns] else 0) + 1];
      spaces := spaces + [ns];
    }
    assert toolNames[..|toolNames|] == toolNames;
    CountedIsGroups(groups, order, toolNames);
  }

  /** One entry of a grouped summary. */
  function SummaryPart(ns: string, count: int): string {
    if count == 1 then ns + " (1 tool)" else ns + " (" + IntToString(count) + " tools)"
  }

  /** Every entry reads "<ns> (<count> tool)" or "... tools)", and the count reads back. */
  lemma SummaryPartShape(ns: string, count: int)
    requires MinInt64 <= count <= MaxInt64
    ensures var suffix := if count == 1 then " tool)" else " tools)";
      && SummaryPart(ns, count) == ns + " (" + IntToString(count) + suffix
      && Atoi(SummaryPart(ns, count)[|ns| + 2..|SummaryPart(ns, count)| - |suffix|]) == Some(count)
  {
    var suffix := if count == 1 then " tool)" else " tools)";
    var digits := IntToString(count);
    if count == 1 {
      assert digits == "1";
    }
    var r := ns + " (" + digits + suffix;
    assert r[|ns| + 2..|r| - |suffix|] == digits;
    AtoiIntToString(count);
  }

  /** formatGroupedSummary: one entry per listed namespace, comma separated. */
  function GroupedSummary(groups: map<string, int>, order: seq<string>): string {
    Join(SummaryParts(groups, order), ", ")
  }

  /** The entries of a grouped summary, in the listed order; a namespace missing from `groups` counts 0. */
  function SummaryParts(groups: map<string, int>, order: seq<string>): seq<string> {
    seq(|order|, k requires 0 <= k < |order| => SummaryPart(order[k], if order[k] in groups then groups[order[k]] else 0))
  }

  /** formatToolList's result. */
  function ToolListSummary(toolNames: seq<string>): string {
    GroupedSummary(Groups(toolNames), FirstSeen(Namespaces(toolNames)))
  }

  /** formatToolList: group the names by namespace and summarise. */
  method FormatToolList(toolNames: seq<string>) returns (r: string)
    ensures r == ToolListSummary(toolNames)
  {
    var groups, order := CountByNamespace(toolNames);
    r := GroupedSummary(groups, order);
  }

  const DefaultMaxLen: int := 350

  /** The length limit: the chunk size, or 350 when that is not positive. */
  function EffectiveMax(maxLen: int): (m: int)
    ensures m > 0
    ensures maxLen > 0 ==> m == maxLen
  {
    if maxLen <= 0 then DefaultMaxLen else maxLen
  }

  /** A truncated message, or the panic of slicing at a negative index. */
  datatype Truncation = Text(text: string) | SlicePanic

  /** truncateMessage as written: cut to `limit - 3` and add "...". */
  function TruncateAsWritten(message: string, maxLen: int): (r: Truncation)
    ensures r.SlicePanic? <==> |message| > EffectiveMax(maxLen) && EffectiveMax(maxLen) < 3
  {
    var m := EffectiveMax(maxLen);
    if |message| > m then
      if m - 3 < 0 then SlicePanic else Text(message[..m - 3] + "...")
    else Text(message)
  }

  /** A chunk size of 1 or 2 and a longer message make the slice bound negative. */
  lemma TruncatePanicsOnTinyLimit()
    ensures TruncateAsWritten("abc", 2) == SlicePanic
    ensures TruncateAsWritten("ab", 1) == SlicePanic
  {
  }

  /**
   * truncateMessage as intended: never longer than the limit; a message that
   * fits is kept; a longer one keeps its start and ends in "..." when the
   * limit leaves room for it, and is cut at the limit otherwise.
   */
  function Truncate(message: string, maxLen: int): (r: string)
    ensures |r| <= EffectiveMax(maxLen)
    ensures |message| <= EffectiveMax(maxLen) ==> r == message
    ensures |message| > EffectiveMax(maxLen) ==> |r| == EffectiveMax(maxLen)
    ensures |message| > EffectiveMax(maxLen) >= 3 ==>
      EndsWith(r, "...") && StartsWith(message, r[..|r| - 3])
    ensures |message| > EffectiveMax(maxLen) && EffectiveMax(maxLen) < 3 ==> StartsWith(message, r)
  {
    var m := EffectiveMax(maxLen);
    if |message| <= m then message
    else if m < 3 then message[..m]
    else
      var r := message[..m - 3] + "...";
      assert r[..|r| - 3] == message[..m - 3];
      r
  }

  /** Where the written code does not panic, it computes the intended result. */
  lemma TruncateAgrees(message: string, maxLen: int)
    requires !TruncateAsWritten(message, maxLen).SlicePanic?
    ensures TruncateAsWritten(message, maxLen) == Text(Truncate(message, maxLen))
  {
  }

  /** The `/get tools` reply as written: it panics for every nonempty tool list when the chunk size is 1 or 2. */
  function ToolsGetAsWritten(toolNames: seq<string>, chunkMax: int): (r: Truncation)
    ensures toolNames != [] && 1 <= chunkMax <= 2 ==> r.SlicePanic?
  {
    if toolNames == [] then Text("No tools loaded")
    else TruncateAsWritten("Tools: " + Join(toolNames, ", "), chunkMax)
  }

  /** The `/get tools` reply with the intended truncation. */
  function ToolsGet(toolNames: seq<string>, chunkMax: int): (r: string)
    ensures toolNames == [] ==> r == "No tools loaded"
    ensures toolNames != [] ==> |r| <= EffectiveMax(chunkMax)
  {
    if toolNames == [] then "No tools loaded"
    else Truncate("Tools: " + Join(toolNames, ", "), chunkMax)
  }

  /** Both `/get tools` replies agree whenever the written one does not panic. */
  lemma ToolsGetAgrees(toolNames: seq<string>, chunkMax: int)
    requires !ToolsGetAsWritten(toolNames, chunkMax).SlicePanic?
    ensures ToolsGetAsWritten(toolNames, chunkMax) == Text(ToolsGet(toolNames, chunkMax))
  {
    if toolNames != [] {
      TruncateAgrees("Tools: " + Join(toolNames, ", "), chunkMax);
    }
  }

  /** A nonempty tool list has a summary of at least nine characters: its first entry alone is that long. */
  lemma SummaryIsLong(toolNames: seq<string>)
    requires toolNames != []
    ensures |ToolListSummary(toolNames)| >= 9
  {
    var order := FirstSeen(Namespaces(toolNames));
    assert Namespaces(toolNames)[0] in order;
    var groups := Groups(toolNames);
    var parts := SummaryParts(groups, order);
    assert parts[0] == SummaryPart(order[0], if order[0] in groups then groups[order[0]] else 0);
    SummaryPartIsLong(order[0], if order[0] in groups then groups[order[0]] else 0);
    JoinIsLong(parts, ", ");
  }

  lemma SummaryPartIsLong(ns: string, count: int)
    ensures |SummaryPart(ns, count)| >= 9
  {
  }

  /** A join is at least as long as its first part. */
  lemma JoinIsLong(parts: seq<string>, sep: string)
    requires parts != []
    ensures |Join(parts, sep)| >= |parts[0]|
  {
  }

  /**
   * The `/tools` reply listing every loaded tool, grouped by namespace, cut
   * by truncateMessage as written: it panics for every nonempty list when
   * the chunk size is 1 or 2, and otherwise is the intended truncation.
   */
  method ListTools(allTools: seq<string>, chunkMax: int) returns (reply: Truncation)
    ensures allTools == [] ==> reply == Text("No tools loaded")
    ensures allTools != [] ==> reply == TruncateAsWritten(ToolListSummary(allTools), chunkMax)
    ensures reply.SlicePanic? <==> allTools != [] && 1 <= chunkMax <= 2
    ensures allTools != [] && !reply.SlicePanic? ==> reply == Text(Truncate(ToolListSummary(allTools), chunkMax))
  {
    if |allTools| == 0 {
      return Text("No tools loaded");
    }
    var message := FormatToolList(allTools);
    SummaryIsLong(allTools);
    reply := TruncateAsWritten(message, chunkMax);
    if !reply.SlicePanic? {
      TruncateAgrees(message, chunkMax);
    }
  }

  /** The tools of namespace `ns`, each shown as `ns` + "__" + its bare name. */
  function NamespaceListing(allTools: seq<string>, ns: string): (r: seq<string>)
    ensures forall k :: 0 <= k < |r| ==> StartsWith(r[k], ns + "__")
  {
    if allTools == [] then []
    else
      var name := allTools[|allTools| - 1];
      var entry := ns + "__" + ParseToolName(name).1;
      assert entry[..|ns + "__"|] == ns + "__";
      NamespaceListing(allTools[..|allTools| - 1], ns)
        + (if StartsWith(name, ns + "__") then [entry] else [])
  }

  /** The names that start with `prefix`, in order. */
  function WithPrefix(names: seq<string>, prefix: string): (r: seq<string>)
    ensures forall k :: 0 <= k < |r| ==> StartsWith(r[k], prefix) && r[k] in names
  {
    if names == [] then []
    else
      var name := names[|names| - 1];
      WithPrefix(names[..|names| - 1], prefix) + (if StartsWith(name, prefix) then [name] else [])
  }

  /** For a namespace without '_', the listing shows exactly the tools named with that prefix. */
  lemma {:induction false} NamespaceListingKeepsNames(allTools: seq<string>, ns: string)
    requires '_' !in ns
    ensures NamespaceListing(allTools, ns) == WithPrefix(allTools, ns + "__")
  {
    if allTools != [] {
      var name := allTools[|allTools| - 1];
      NamespaceListingKeepsNames(allTools[..|allTools| - 1], ns);
      if StartsWith(name, ns + "__") {
        var bare := name[|ns| + 2..];
        assert name == ns + "__" + bare;
        ParseQualifiedName(ns, bare);
      }
    }
  }

  /** A nonempty namespace listing joins entries of at least |ns| + 2 characters. */
  lemma NamespaceListingIsLong(allTools: seq<string>, ns: string)
    requires NamespaceListing(allTools, ns) != []
    ensures |Join(NamespaceListing(allTools, ns), ", ")| >= |ns| + 2
  {
    var r := NamespaceListing(allTools, ns);
    assert StartsWith(r[0], ns + "__");
    JoinIsLong(r, ", ");
  }

  /**
   * `/tools list <ns>`: the tools of one namespace, or every tool for an
   * empty `ns`, cut by truncateMessage as written, so a nonempty listing
   * panics when the chunk size is 1 or 2.
   */
  method ListNamespace(allTools: seq<string>, ns: string, chunkMax: int) returns (reply: Truncation)
    ensures ns == "" && allTools == [] ==> reply == Text("No tools loaded")
    ensures ns == "" && allTools != [] ==> reply == TruncateAsWritten(ToolListSummary(allTools), chunkMax)
    ensures ns != "" && NamespaceListing(allTools, ns) == [] ==> reply == Text("No tools in namespace: " + ns)
    ensures ns != "" && NamespaceListing(allTools, ns) != [] ==>
      reply == TruncateAsWritten(Join(NamespaceListing(allTools, ns), ", "), chunkMax)
    ensures ns != "" ==>
      (reply.SlicePanic? <==> NamespaceListing(allTools, ns) != [] && 1 <= chunkMax <= 2)
    ensures ns != "" && NamespaceListing(allTools, ns) != [] && !reply.SlicePanic? ==>
      reply == Text(Truncate(Join(NamespaceListing(allTools, ns), ", "), chunkMax))
  {
    if ns == "" {
      reply := ListTools(allTools, chunkMax);
      return;
    }
    var prefix := ns + "__";
    var toolNames: seq<string> := [];
    for k := 0 to |allTools|
      invariant toolNames == NamespaceListing(allTools[..k], ns)
    {
      assert allTools[..k + 1][..k] == allTools[..k];
      var name := allTools[k];
      if StartsWith(name, prefix) {
        var (_, bareName) := ParseToolName(name);
        toolNames := toolNames + [ns + "__" + bareName];
      }
    }
    assert allTools[..|allTools|] == allTools;
    if |toolNames| == 0 {
      return Text("No tools in namespace: " + ns);
    }
    var message := Join(toolNames, ", ");
    NamespaceListingIsLong(allTools, ns);
    reply := TruncateAsWritten(message, chunkMax);
    if !reply.SlicePanic? {
      TruncateAgrees(message, chunkMax);
    }
  }

  /** A loaded MCP server (or tool file) and the tools it brought. */
  datatype Server = Server(name: string, toolNames: seq<string>)

  /** What the tool loader reports; the loader itself is not part of this model. */
  datatype LoadOutcome = LoadFailed(error: string) | Loaded(servers: seq<Server>)

  /** The tool count of each server name; a later server of the same name overrides. */
  function ServerGroups(servers: seq<Server>): (groups: map<string, int>)
    ensures forall k :: 0 <= k < |servers| ==> servers[k].name in groups
  {
    if servers == [] then map[]
    else
      var last := servers[|servers| - 1];
      ServerGroups(servers[..|servers| - 1])[last.name := |last.toolNames|]
  }

  /** The server names in load order (repeats included). */
  function ServerOrder(servers: seq<Server>): (order: seq<string>)
    ensures |order| == |servers|
    ensures forall k :: 0 <= k < |servers| ==> order[k] == servers[k].name
  {
    if servers == [] then [] else ServerOrder(servers[..|servers| - 1]) + [servers[|servers| - 1].name]
  }

  /** Servers with distinct names are each summarised with their own tool count. */
  lemma {:induction false} ServerGroupsOfDistinct(servers: seq<Server>, k: nat)
    requires k < |servers|
    requires forall i, j :: 0 <= i < j < |servers| ==> servers[i].name != servers[j].name
    ensures ServerGroups(servers)[servers[k].name] == |servers[k].toolNames|
  {
    var init := servers[..|servers| - 1];
    if k < |init| {
      ServerGroupsOfDistinct(init, k);
      assert servers[k] == init[k];
    }
  }

  /** formatLoadResult: "Added: " and the grouped summary of the loaded servers. */
  method FormatLoadResult(servers: seq<Server>) returns (r: string)
    ensures servers == [] ==> r == "No tools loaded"
    ensures servers != [] ==> r == "Added: " + GroupedSummary(ServerGroups(servers), ServerOrder(servers))
  {
    if |servers| == 0 {
      return "No tools loaded";
    }
    var groups: map<string, int> := map[];
    var order: seq<string> := [];
    for k := 0 to |servers|
      invariant groups == ServerGroups(servers[..k]) && order == ServerOrder(servers[..k])
    {
      assert servers[..k + 1][..k] == servers[..k];
      groups := groups[servers[k].name := |servers[k].toolNames|];
      order := order + [servers[k].name];
    }
    assert servers[..|servers|] == servers;
    r := "Added: " + GroupedSummary(groups, order);
  }

  /** `/tools add <path>`: report what the loader did. */
  method AddTool(toolPath: string, load: LoadOutcome) returns (reply: string)
    ensures toolPath == "" ==> reply == "Usage: /tools add <path>"
    ensures toolPath != "" && load.LoadFailed? ==> reply == "Failed: " + load.error
    ensures toolPath != "" && load.Loaded? && load.servers == [] ==> reply == "No tools loaded"
    ensures toolPath != "" && load.Loaded? && load.servers != [] ==>
      reply == "Added: " + GroupedSummary(ServerGroups(load.servers), ServerOrder(load.servers))
  {
    if toolPath == "" {
      return "Usage: /tools add <path>";
    }
    match load
    case LoadFailed(err) =>
      reply := "Failed: " + err;
    case Loaded(servers) =>
      reply := FormatLoadResult(servers);
  }

  /**
   * How `/tools remove` reads its argument: a bare name (no "*", no "__") is
   * a namespace and becomes `name__*`; `ns__*` is a namespace too.
   */
  datatype RemovalPlan = RemovalPlan(namespaceRemoval: bool, namespace: string, pattern: string)

  function PlanRemoval(pattern: string): RemovalPlan {
    var bare := !Contains(pattern, "*") && !Contains(pattern, "__");
    if bare then RemovalPlan(true, pattern, pattern + "__*")
    else if EndsWith(pattern, "__*") then RemovalPlan(true, pattern[..|pattern| - 3], pattern)
    else RemovalPlan(false, pattern, pattern)
  }

  /**
   * A namespace removal always uses the pattern `namespace__*`, and the
   * pattern is matched exactly only when it names a qualified tool without "*".
   */
  lemma PlanRemovalShape(pattern: string)
    ensures var plan := PlanRemoval(pattern);
      && (plan.namespaceRemoval ==> plan.pattern == plan.namespace + "__*")
      && (Contains(plan.pattern, "*") <==> Contains(pattern, "*") || !Contains(pattern, "__"))
      && (!Contains(plan.pattern, "*") ==> plan.pattern == pattern)
  {
    var plan := PlanRemoval(pattern);
    if !Contains(pattern, "*") && !Contains(pattern, "__") {
      assert IsAt(plan.pattern, "*", |pattern| + 2);
    } else if EndsWith(pattern, "__*") {
      assert pattern == pattern[..|pattern| - 3] + "__*";
      assert IsAt(pattern, "*", |pattern| - 1);
    }
  }

  /** The names `pattern` matches, in order. */
  function Matched(names: seq<string>, pattern: string, matches: (string, string) -> bool): (r: seq<string>)
    ensures forall k :: 0 <= k < |r| ==> r[k] in names && matches(pattern, r[k])
    ensures forall x :: x in names && matches(pattern, x) ==> x in r
  {
    if names == [] then []
    else
      var name := names[|names| - 1];
      assert names == names[..|names| - 1] + [name];
      Matched(names[..|names| - 1], pattern, matches) + (if matches(pattern, name) then [name] else [])
  }

  lemma {:induction false} MatchedDistinct(names: seq<string>, pattern: string, matches: (string, string) -> bool)
    requires Distinct(names)
    ensures Distinct(Matched(names, pattern, matches))
  {
    if names != [] {
      var init := names[..|names| - 1];
      MatchedDistinct(init, pattern, matches);
      var m := Matched(init, pattern, matches);
      assert forall k :: 0 <= k < |m| ==> m[k] in init;
      assert names[|names| - 1] !in init;
    }
  }

  /**
   * The loaded tools, by name (the registry is a map, so its listing order
   * is unspecified).
   */
  class ToolRegistry {
    var tools: set<string>

    constructor (loaded: set<string>)
      ensures tools == loaded
    {
      tools := loaded;
    }

    method Has(name: string) returns (b: bool)
      ensures b <==> name in tools
    {
      b := name in tools;
    }

    method Remove(name: string)
      modifies this
      ensures tools == old(tools) - {name}
    {
      tools := tools - {name};
    }

    /** Every tool once, in an unspecified order. */
    method All() returns (listing: seq<string>)
      ensures Distinct(listing)
      ensures forall t :: t in listing <==> t in tools
    {
      listing := [];
      var remaining := tools;
      while remaining != {}
        invariant remaining <= tools
        invariant Distinct(listing)
        invariant forall t :: t in listing <==> t in tools && t !in remaining
        decreases |remaining|
      {
        var t :| t in remaining;
        listing := listing + [t];
        remaining := remaining - {t};
      }
    }
  }

  /** The wildcard loop of removeTool: remove every tool `pattern` matches. */
  method RemoveAllMatching(registry: ToolRegistry, pattern: string, matches: (string, string) -> bool)
    returns (removed: seq<string>)
    modifies registry
    ensures Distinct(removed)
    ensures forall t :: t in removed <==> t in old(registry.tools) && matches(pattern, t)
    ensures forall t :: t in registry.tools <==> t in old(registry.tools) && !matches(pattern, t)
  {
    var all := registry.All();
    removed := [];
    for k := 0 to |all|
      invariant removed == Matched(all[..k], pattern, matches)
      invariant forall t :: t in registry.tools <==> t in old(registry.tools) && t !in removed
    {
      assert all[..k + 1][..k] == all[..k];
      var name := all[k];
      if matches(pattern, name) {
        registry.Remove(name);
        removed := removed + [name];
      }
    }
    assert all[..|all|] == all;
    MatchedDistinct(all, pattern, matches);
  }

  /**
   * `/tools remove <name or pattern>`: wildcard patterns remove every
   * matching tool; a qualified name without "*" removes that one tool.
   * `matches` stands for path.Match, whose errors count as no match.
   * `removed` lists the tools the wildcard branch removed.
   */
  method RemoveTool(registry: ToolRegistry, pattern: string, matches: (string, string) -> bool)
    returns (reply: string, removed: seq<string>)
    modifies registry
    ensures pattern == "" ==> reply == "Usage: /tools remove <name or pattern>" && registry.tools == old(registry.tools)
    ensures var plan := PlanRemoval(pattern);
      pattern != "" && Contains(plan.pattern, "*") ==> (
        && Distinct(removed)
        && (forall t :: t in removed <==> t in old(registry.tools) && matches(plan.pattern, t))
        && (forall t :: t in registry.tools <==> t in old(registry.tools) && !matches(plan.pattern, t))
        && reply == if removed == [] then "No tools matched: " + plan.pattern
                    else if plan.namespaceRemoval then "Removed: " + plan.namespace
                    else "Removed: " + ToolListSummary(removed))
    ensures pattern != "" && !Contains(PlanRemoval(pattern).pattern, "*") ==> (
      && registry.tools == old(registry.tools) - {pattern}
      && reply == if pattern in old(registry.tools) then "Removed: " + ParseToolName(pattern).1
                  else "Not found: " + pattern)
  {
    removed := [];
    if pattern == "" {
      return "Usage: /tools remove <name or pattern>", removed;
    }
    var plan := PlanRemoval(pattern);
    PlanRemovalShape(pattern);
    var effective := plan.pattern;
    if Contains(effective, "*") {
      removed := RemoveAllMatching(registry, effective, matches);
      if |removed| > 0 {
        if plan.namespaceRemoval {
          reply := "Removed: " + plan.namespace;
        } else {
          var summary := FormatToolList(removed);
          reply := "Removed: " + summary;
        }
      } else {
        reply := "No tools matched: " + effective;
      }
    } else {
      var found := registry.Has(effective);
      if !found {
        reply := "Not found: " + effective;
      } else {
        registry.Remove(effective);
        var (_, bareName) := ParseToolName(effective);
        reply := "Removed: " + bareName;
      }
    }
  }

  const PermissionReply: string := "You don't have permission to perform this action."

  /** What `/tools` does with its arguments. */
  datatype ToolsAction =
    | ListAll
    | ListSpace(namespace: string)
    | AddFrom(path: string)
    | RemoveMatching(pattern: string)
    | Refuse(reply: string)

  /**
   * The gating of `/tools`: listing is open to everyone; every other
   * subcommand needs an admin, and an unknown one gets the usage text.
   */
  function Route(args: seq<string>, isAdmin: bool): ToolsAction {
    if |args| < 2 then ListAll
    else
      var subcommand := args[1];
      var rest := if |args| > 2 then Join(args[2..], " ") else "";
      if subcommand == "list" then ListSpace(rest)
      else if !isAdmin then Refuse(PermissionReply)
      else if subcommand == "add" then AddFrom(rest)
      else if subcommand == "remove" then RemoveMatching(rest)
      else Refuse("Usage: /tools [list|add|remove] <args>")
  }

  /** A non-admin can only list; add, remove or anything else gets the permission reply. */
  lemma NonAdminOnlyLists(args: seq<string>)
    ensures Route(args, false).ListAll? || Route(args, false).ListSpace? || Route(args, false) == Refuse(PermissionReply)
    ensures |args| >= 2 && args[1] != "list" ==> Route(args, false) == Refuse(PermissionReply)
  {
  }

  /** Admins and non-admins see the same listings. */
  lemma ListingIgnoresAdmin(args: seq<string>)
    requires |args| < 2 || args[1] == "list"
    ensures Route(args, true) == Route(args, false)
    ensures Route(args, true).ListAll? || Route(args, true).ListSpace?
  {
  }
}
