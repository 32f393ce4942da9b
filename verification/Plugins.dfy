/** Plugin names and versions, the conflicts between required versions, and the check of a base plugin list. */
module Plugins {
  import opened Text

  /** root is "name:version" of the plugin that asks for this one. */
  datatype Plugin = Plugin(name: string, version: string, url: string, root: string)

  datatype Error = BadFormat | BadName | BadVersion | BadUrl
  datatype Result<+T> = Ok(value: T) | Err(error: Error)

  predicate Alphanumeric(c: char) {
    '0' <= c <= '9' || 'a' <= c <= 'z' || 'A' <= c <= 'Z'
  }

  // The patterns ^[0-9a-zA-Z-_]+$ and ^[0-9a-zA-Z+\\.-]+$; the second one admits a backslash.
  predicate ValidName(s: string) {
    s != "" && forall i | 0 <= i < |s| :: Alphanumeric(s[i]) || s[i] in "-_"
  }

  predicate ValidVersion(s: string) {
    s != "" && forall i | 0 <= i < |s| :: Alphanumeric(s[i]) || s[i] in "+\\.-"
  }

  function String(p: Plugin): string { p.name + ":" + p.version }

  /** strings.SplitN(s, ":", 2), if that has two parts. */
  function SplitColon(s: string): Option<(string, string)> {
    if s == "" then None
    else if s[0] == ':' then Some(("", s[1..]))
    else match SplitColon(s[1..])
      case None => None
      case Some(parts) => Some(([s[0]] + parts.0, parts.1))
  }

  /** validUrl stands for the pattern of download URLs. */
  function NewPlugin(name: string, version: string, url: string, validUrl: string -> bool): Result<Plugin> {
    if !ValidName(name) then Err(BadName)
    else if !ValidVersion(version) then Err(BadVersion)
    else if url != "" && !validUrl(url) then Err(BadUrl)
    else Ok(Plugin(name, version, url, ""))
  }

  function New(s: string): Result<Plugin> {
    match SplitColon(s)
    case None => Err(BadFormat)
    case Some((name, version)) => NewPlugin(name, version, "", _ => true)
  }

  lemma {:induction false} SplitColonAt(name: string, version: string)
    requires ':' !in name
    ensures SplitColon(name + ":" + version) == Some((name, version))
  {
    var s := name + ":" + version;
    if name == "" {
      assert s == ":" + version;
    } else {
      SplitColonAt(name[1..], version);
      assert s[1..] == name[1..] + ":" + version;
      assert [name[0]] + name[1..] == name;
    }
  }

  lemma {:induction false} SplitColonJoins(s: string)
    ensures match SplitColon(s)
            case None => ':' !in s
            case Some((name, version)) => s == name + ":" + version && ':' !in name
  {
    if s != "" && s[0] != ':' {
      SplitColonJoins(s[1..]);
      match SplitColon(s[1..]) {
        case None =>
        case Some((name, version)) => assert s == [s[0]] + (name + ":" + version);
      }
    }
  }

  lemma ColonInName(p: Plugin)
    requires ':' in p.name
    ensures New(String(p)).Err? && !ValidName(p.name)
  {
    SplitColonJoins(String(p));
    var parts := SplitColon(String(p)).value;
    var i :| 0 <= i < |p.name| && p.name[i] == ':';
    assert String(p)[i] == ':';
    assert |parts.0| <= i by {
      assert forall j | 0 <= j < |parts.0| :: String(p)[j] == parts.0[j];
    }
    assert parts.1[|p.name| - |parts.0| - 1] == String(p)[|p.name|] == ':';
  }

  /** Parsing a printed plugin gives back name and version exactly when both are valid; otherwise it fails. */
  lemma NewOfString(p: Plugin)
    ensures New(String(p)) == Ok(Plugin(p.name, p.version, "", "")) <==> ValidName(p.name) && ValidVersion(p.version)
    ensures New(String(p)).Ok? <==> ValidName(p.name) && ValidVersion(p.version)
  {
    if ':' in p.name {
      ColonInName(p);
    } else {
      SplitColonAt(p.name, p.version);
    }
  }

  /** Whatever is accepted prints back to the text it was parsed from. */
  lemma StringOfNew(s: string)
    ensures New(s).Ok? ==> String(New(s).value) == s
  {
    SplitColonJoins(s);
  }

  // ---- conflicting versions ---------------------------------------------------------------

  datatype Entry = Entry(name: string, version: string, root: string)

  /** "Plugin 'first.root' requires version 'first.version' but plugin 'second.root' requires ..." */
  datatype Message =
    | Conflict(first: Entry, second: Entry)
    | Invalid(name: string, version: string, url: string, error: Error)
    | Missing(name: string)

  type Roots = map<Plugin, seq<Plugin>>

  function EntryOf(p: Plugin, root: Plugin): Entry { Entry(p.name, p.version, String(root)) }

  /** A root and what it depends on, all required on behalf of the root. */
  function RootEntries(root: Plugin, deps: seq<Plugin>): multiset<Entry> {
    if deps == [] then multiset{EntryOf(root, root)}
    else RootEntries(root, deps[..|deps| - 1]) + multiset{EntryOf(deps[|deps| - 1], root)}
  }

  ghost function Sum(m: map<Plugin, multiset<Entry>>): multiset<Entry>
    decreases |m|
  {
    if m == map[] then multiset{}
    else
      var k :| k in m;
      m[k] + Sum(m - {k})
  }

  lemma {:induction false} SumWithout(m: map<Plugin, multiset<Entry>>, k: Plugin)
    requires k in m
    ensures Sum(m) == m[k] + Sum(m - {k})
    decreases |m|
  {
    var j :| j in m && Sum(m) == m[j] + Sum(m - {j});
    if j != k {
      SumWithout(m - {j}, k);
      SumWithout(m - {k}, j);
      assert (m - {j}) - {k} == (m - {k}) - {j};
    }
  }

  function EachRoot(m: Roots): map<Plugin, multiset<Entry>> {
    map k | k in m :: RootEntries(k, m[k])
  }

  lemma EachRootWithout(m: Roots, k: Plugin)
    requires k in m
    ensures EachRoot(m) - {k} == EachRoot(m - {k})
  {
    assert forall j | j in m - {k} :: (m - {k})[j] == m[j];
  }

  /** The entries of one map of roots, in no order. */
  ghost function MapEntries(m: Roots): multiset<Entry> { Sum(EachRoot(m)) }

  lemma MapEntriesWithout(m: Roots, k: Plugin)
    requires k in m
    ensures MapEntries(m) == RootEntries(k, m[k]) + MapEntries(m - {k})
  {
    SumWithout(EachRoot(m), k);
    EachRootWithout(m, k);
  }

  ghost function Entries(values: seq<Roots>): multiset<Entry> {
    if values == [] then multiset{} else Entries(values[..|values| - 1]) + MapEntries(values[|values| - 1])
  }

  predicate Differ(a: Entry, b: Entry) {
    a.name == b.name && a.version != b.version
  }

  /** One message for each ordered pair of entries that differ, as often as the pair occurs; nothing else. */
  ghost predicate Reports(messages: seq<Message>, entries: multiset<Entry>) {
    && (forall m | m in messages :: m.Conflict?)
    && forall a, b :: ReportsPair(messages, entries, {}, a, b)
  }

  ghost function Count(messages: seq<Message>, a: Entry, b: Entry): nat {
    multiset(messages)[Conflict(a, b)]
  }

  type Table = map<string, seq<Entry>>

  /** The table holds exactly these entries, each under its name. */
  ghost predicate Holds(table: Table, entries: multiset<Entry>) {
    && (forall n, i | n in table && 0 <= i < |table[n]| :: table[n][i].name == n)
    && forall e: Entry :: entries[e] == if e.name in table then multiset(table[e.name])[e] else 0
  }

  method Add(table: Table, e: Entry, ghost entries: multiset<Entry>) returns (r: Table)
    requires Holds(table, entries)
    ensures Holds(r, entries + multiset{e})
  {
    var old_ := if e.name in table then table[e.name] else [];
    r := table[e.name := old_ + [e]];
    assert multiset(old_ + [e]) == multiset(old_) + multiset{e};
  }

  method CollectRoot(table: Table, root: Plugin, deps: seq<Plugin>, ghost entries: multiset<Entry>) returns (r: Table)
    requires Holds(table, entries)
    ensures Holds(r, entries + RootEntries(root, deps))
  {
    r := Add(table, EntryOf(root, root), entries);
    for i := 0 to |deps|
      invariant Holds(r, entries + RootEntries(root, deps[..i]))
    {
      assert deps[..i + 1][..i] == deps[..i];
      r := Add(r, EntryOf(deps[i], root), entries + RootEntries(root, deps[..i]));
      assert entries + RootEntries(root, deps[..i + 1]) ==
             entries + RootEntries(root, deps[..i]) + multiset{EntryOf(deps[i], root)};
    }
    assert deps[..|deps|] == deps;
  }

  lemma Associate(a: multiset<Entry>, b: multiset<Entry>, c: multiset<Entry>)
    ensures (a + b) + c == a + (b + c)
  {
  }

  method CollectMap(table: Table, m: Roots, ghost entries: multiset<Entry>) returns (r: Table)
    requires Holds(table, entries)
    ensures Holds(r, entries + MapEntries(m))
  {
    r := table;
    var rest := m;
    ghost var now := entries;
    while rest != map[]
      invariant now + MapEntries(rest) == entries + MapEntries(m) && Holds(r, now)
      decreases |rest|
    {
      var root :| root in rest;
      MapEntriesWithout(rest, root);
      Associate(now, RootEntries(root, rest[root]), MapEntries(rest - {root}));
      r := CollectRoot(r, root, rest[root], now);
      now := now + RootEntries(root, rest[root]);
      rest := rest - {root};
    }
  }

  method Collect(values: seq<Roots>) returns (table: Table)
    ensures Holds(table, Entries(values))
  {
    table := map[];
    for v := 0 to |values|
      invariant Holds(table, Entries(values[..v]))
    {
      assert values[..v + 1][..v] == values[..v];
      table := CollectMap(table, values[v], Entries(values[..v]));
    }
    assert values[..|values|] == values;
  }

  function Row(a: Entry, versions: seq<Entry>): seq<Message> {
    if versions == [] then []
    else
      var b := versions[|versions| - 1];
      Row(a, versions[..|versions| - 1]) + if a.version != b.version then [Conflict(a, b)] else []
  }

  function Rows(firsts: seq<Entry>, versions: seq<Entry>): seq<Message> {
    if firsts == [] then []
    else Rows(firsts[..|firsts| - 1], versions) + Row(firsts[|firsts| - 1], versions)
  }

  ghost function Times(entries: seq<Entry>, e: Entry): nat { multiset(entries)[e] }

  lemma LastCounts(entries: seq<Entry>, e: Entry)
    requires entries != []
    ensures Times(entries, e) == Times(entries[..|entries| - 1], e) + if entries[|entries| - 1] == e then 1 else 0
  {
    var n := |entries| - 1;
    assert entries == entries[..n] + [entries[n]];
  }

  lemma CountJoined(xs: seq<Message>, ys: seq<Message>, a: Entry, b: Entry)
    ensures Count(xs + ys, a, b) == Count(xs, a, b) + Count(ys, a, b)
  {
  }

  lemma {:induction false} RowCount(a: Entry, versions: seq<Entry>, x: Entry, y: Entry)
    ensures Count(Row(a, versions), x, y) == if x == a && x.version != y.version then Times(versions, y) else 0
    ensures forall m | m in Row(a, versions) :: m.Conflict?
  {
    if versions != [] {
      var n := |versions| - 1;
      RowCount(a, versions[..n], x, y);
      LastCounts(versions, y);
      CountJoined(Row(a, versions[..n]), if a.version != versions[n].version then [Conflict(a, versions[n])] else [], x, y);
    }
  }

  lemma OneMore(m: nat, k: nat)
    ensures (m + 1) * k == m * k + k
  {
  }

  lemma {:induction false} RowsCount(firsts: seq<Entry>, versions: seq<Entry>, x: Entry, y: Entry)
    ensures Count(Rows(firsts, versions), x, y) ==
            if x.version != y.version then Times(firsts, x) * Times(versions, y) else 0
    ensures forall m | m in Rows(firsts, versions) :: m.Conflict?
  {
    if firsts != [] {
      var n := |firsts| - 1;
      RowsCount(firsts[..n], versions, x, y);
      RowCount(firsts[n], versions, x, y);
      CountJoined(Rows(firsts[..n], versions), Row(firsts[n], versions), x, y);
      LastCounts(firsts, x);
      OneMore(Times(firsts[..n], x), Times(versions, y));
    }
  }

  method Compare(versions: seq<Entry>) returns (messages: seq<Message>)
    ensures messages == Rows(versions, versions)
  {
    messages := [];
    for i := 0 to |versions|
      invariant messages == Rows(versions[..i], versions)
    {
      ghost var before := messages;
      for j := 0 to |versions|
        invariant messages == before + Row(versions[i], versions[..j])
      {
        assert versions[..j + 1][..j] == versions[..j];
        if versions[i].version != versions[j].version {
          messages := messages + [Conflict(versions[i], versions[j])];
        }
      }
      assert versions[..|versions|] == versions && versions[..i + 1][..i] == versions[..i];
    }
    assert versions[..|versions|] == versions;
  }

  /** Every map is gone through in an arbitrary order. */
  method VerifyDependencies(values: seq<Roots>) returns (messages: seq<Message>)
    ensures Reports(messages, Entries(values))
  {
    var table := Collect(values);
    ghost var entries := Entries(values);
    messages := [];
    var rest := table.Keys;
    while rest != {}
      invariant rest <= table.Keys
      invariant ReportsOutside(messages, entries, rest)
      decreases |rest|
    {
      var name :| name in rest;
      var versions := table[name];
      NamedReport(messages, table, entries, rest, name);
      if |versions| == 1 {
        SingletonRows(versions);
        assert messages + [] == messages;
      } else {
        var more := Compare(versions);
        messages := messages + more;
      }
      rest := rest - {name};
    }
  }

  /** What is reported so far: everything except under the names still to come. */
  ghost predicate ReportsOutside(messages: seq<Message>, entries: multiset<Entry>, rest: set<string>) {
    && (forall m | m in messages :: m.Conflict?)
    && forall a, b :: ReportsPair(messages, entries, rest, a, b)
  }

  ghost predicate ReportsPair(messages: seq<Message>, entries: multiset<Entry>, rest: set<string>, a: Entry, b: Entry) {
    Count(messages, a, b) == if Differ(a, b) && a.name !in rest then entries[a] * entries[b] else 0
  }

  lemma NamedReport(messages: seq<Message>, table: Table, entries: multiset<Entry>, rest: set<string>, name: string)
    requires Holds(table, entries) && ReportsOutside(messages, entries, rest) && name in rest && name in table
    ensures ReportsOutside(messages + Rows(table[name], table[name]), entries, rest - {name})
  {
    var more := Rows(table[name], table[name]);
    RowsCount(table[name], table[name], Entry("", "", ""), Entry("", "", ""));
    forall a, b
      ensures ReportsPair(messages + more, entries, rest - {name}, a, b)
    {
      NamedReportAt(messages, table, entries, rest, name, a, b);
    }
  }

  lemma NamedReportAt(messages: seq<Message>, table: Table, entries: multiset<Entry>, rest: set<string>, name: string,
                      a: Entry, b: Entry)
    requires Holds(table, entries) && ReportsOutside(messages, entries, rest) && name in rest && name in table
    ensures ReportsPair(messages + Rows(table[name], table[name]), entries, rest - {name}, a, b)
  {
    assert ReportsPair(messages, entries, rest, a, b);
    CountJoined(messages, Rows(table[name], table[name]), a, b);
    NamedTimes(table, entries, name, a);
    NamedTimes(table, entries, name, b);
    NamedCount(table[name], entries, name, a, b);
  }

  lemma NamedCount(versions: seq<Entry>, entries: multiset<Entry>, name: string, a: Entry, b: Entry)
    requires Times(versions, a) == if a.name == name then entries[a] else 0
    requires Times(versions, b) == if b.name == name then entries[b] else 0
    ensures Count(Rows(versions, versions), a, b) ==
            if Differ(a, b) && a.name == name then entries[a] * entries[b] else 0
  {
    RowsCount(versions, versions, a, b);
    Product(Times(versions, a), Times(versions, b));
  }

  lemma Product(m: nat, k: nat)
    ensures m == 0 || k == 0 ==> m * k == 0
  {
  }

  lemma NamedTimes(table: Table, entries: multiset<Entry>, name: string, e: Entry)
    requires Holds(table, entries) && name in table
    ensures Times(table[name], e) == if e.name == name then entries[e] else 0
  {
    assert e in multiset(table[name]) <==> e in table[name];
  }

  lemma SingletonRows(versions: seq<Entry>)
    requires |versions| == 1
    ensures Rows(versions, versions) == []
  {
    assert Rows(versions[..0], versions) == [];
    assert Row(versions[0], versions[..0]) == [];
  }

  // ---- what the messages mean -------------------------------------------------------------

  ghost predicate OneVersionEach(entries: multiset<Entry>) {
    forall a, b | a in entries && b in entries && a.name == b.name :: a.version == b.version
  }

  /** There is nothing to report exactly when each plugin name comes with one version, over roots and dependencies. */
  lemma SilentIffOneVersionEach(messages: seq<Message>, entries: multiset<Entry>)
    requires Reports(messages, entries)
    ensures messages == [] <==> OneVersionEach(entries)
  {
    if messages == [] {
      forall a, b | a in entries && b in entries && a.name == b.name ensures a.version == b.version {
        assert ReportsPair(messages, entries, {}, a, b);
        Positive(entries[a], entries[b]);
      }
    } else {
      var m := messages[0];
      assert m in messages && m in multiset(messages);
      assert ReportsPair(messages, entries, {}, m.first, m.second);
      Product(entries[m.first], entries[m.second]);
    }
  }

  lemma Positive(m: nat, k: nat)
    requires m > 0 && k > 0
    ensures m * k > 0
  {
  }

  /** Each disagreement is reported from both sides, equally often. */
  lemma ReportsAreSymmetric(messages: seq<Message>, entries: multiset<Entry>, a: Entry, b: Entry)
    requires Reports(messages, entries)
    ensures multiset(messages)[Conflict(a, b)] == multiset(messages)[Conflict(b, a)]
  {
    assert ReportsPair(messages, entries, {}, a, b);
    assert ReportsPair(messages, entries, {}, b, a);
  }

  /** The order in which maps are gone through can only reorder the messages. */
  lemma OrderDoesNotMatter(messages: seq<Message>, others: seq<Message>, entries: multiset<Entry>)
    requires Reports(messages, entries) && Reports(others, entries)
    ensures multiset(messages) == multiset(others)
  {
    forall m ensures multiset(messages)[m] == multiset(others)[m] {
      if m.Conflict? {
        assert ReportsPair(messages, entries, {}, m.first, m.second);
        assert ReportsPair(others, entries, {}, m.first, m.second);
      } else {
        assert m !in messages && m !in others;
      }
    }
  }

  // ---- the base plugins of a Jenkins ------------------------------------------------------

  datatype BasePlugin = BasePlugin(name: string, version: string, url: string)

  function Parsed(p: BasePlugin, validUrl: string -> bool): Result<Plugin> {
    NewPlugin(p.name, p.version, p.url, validUrl)
  }

  function Rejections(plugins: seq<BasePlugin>, validUrl: string -> bool): seq<Message> {
    if plugins == [] then []
    else
      var p := plugins[|plugins| - 1];
      Rejections(plugins[..|plugins| - 1], validUrl) +
      if Parsed(p, validUrl).Err? then [Invalid(p.name, p.version, p.url, Parsed(p, validUrl).error)] else []
  }

  function Accepted(plugins: seq<BasePlugin>, validUrl: string -> bool): Roots {
    if plugins == [] then map[]
    else
      var p := Parsed(plugins[|plugins| - 1], validUrl);
      var before := Accepted(plugins[..|plugins| - 1], validUrl);
      if p.Ok? then before[p.value := []] else before
  }

  predicate Listed(name: string, plugins: seq<BasePlugin>) {
    exists i | 0 <= i < |plugins| :: plugins[i].name == name
  }

  function Absences(required: seq<Plugin>, plugins: seq<BasePlugin>): seq<Message> {
    if required == [] then []
    else
      var p := required[|required| - 1];
      Absences(required[..|required| - 1], plugins) + if Listed(p.name, plugins) then [] else [Missing(p.name)]
  }

  method VerifyBasePlugins(required: seq<Plugin>, plugins: seq<BasePlugin>) returns (messages: seq<Message>)
    ensures messages == Absences(required, plugins)
  {
    messages := [];
    for i := 0 to |required|
      invariant messages == Absences(required[..i], plugins)
    {
      assert required[..i + 1][..i] == required[..i];
      var found := false;
      for j := 0 to |plugins|
        invariant found <==> Listed(required[i].name, plugins[..j])
      {
        assert plugins[..j + 1] == plugins[..j] + [plugins[j]];
        if required[i].name == plugins[j].name {
          found := true;
          assert plugins[j] in plugins && Listed(required[i].name, plugins);
          break;
        }
      }
      assert plugins[..|plugins|] == plugins;
      if !found {
        messages := messages + [Missing(required[i].name)];
      }
    }
    assert required[..|required|] == required;
  }

  /** Rejected entries, then conflicts between the accepted ones, then what is missing. */
  ghost predicate Combines(messages: seq<Message>, required: seq<Plugin>, plugins: seq<BasePlugin>,
                           validUrl: string -> bool, conflicts: seq<Message>) {
    && Reports(conflicts, Entries([Accepted(plugins, validUrl)]))
    && messages == Rejections(plugins, validUrl) + conflicts + Absences(required, plugins)
  }

  method ValidatePlugins(required: seq<Plugin>, plugins: seq<BasePlugin>, validUrl: string -> bool)
    returns (messages: seq<Message>)
    ensures exists conflicts :: Combines(messages, required, plugins, validUrl, conflicts)
    ensures messages == [] <==> Coherent(required, plugins, validUrl)
  {
    messages := [];
    var all: Roots := map[];
    for i := 0 to |plugins|
      invariant messages == Rejections(plugins[..i], validUrl)
      invariant all == Accepted(plugins[..i], validUrl)
    {
      assert plugins[..i + 1][..i] == plugins[..i];
      var plugin := NewPlugin(plugins[i].name, plugins[i].version, plugins[i].url, validUrl);
      match plugin {
        case Err(error) => messages := messages + [Invalid(plugins[i].name, plugins[i].version, plugins[i].url, error)];
        case Ok(p) => all := all[p := []];
      }
    }
    assert plugins[..|plugins|] == plugins;
    var more := VerifyDependencies([all]);
    var missing := VerifyBasePlugins(required, plugins);
    messages := messages + more + missing;
    SilentIffCoherent(required, plugins, validUrl, more);
    assert Combines(messages, required, plugins, validUrl, more);
  }

  /** Every entry is valid, no two give different versions of one plugin, and every required plugin is listed. */
  ghost predicate Coherent(required: seq<Plugin>, plugins: seq<BasePlugin>, validUrl: string -> bool) {
    && (forall i | 0 <= i < |plugins| :: Parsed(plugins[i], validUrl).Ok?)
    && (forall i, j | 0 <= i < |plugins| && 0 <= j < |plugins| && plugins[i].name == plugins[j].name ::
          plugins[i].version == plugins[j].version)
    && (forall i | 0 <= i < |required| :: Listed(required[i].name, plugins))
  }

  /** The check has nothing to say exactly about coherent lists. */
  lemma SilentIffCoherent(required: seq<Plugin>, plugins: seq<BasePlugin>, validUrl: string -> bool, conflicts: seq<Message>)
    requires Reports(conflicts, Entries([Accepted(plugins, validUrl)]))
    ensures Rejections(plugins, validUrl) + conflicts + Absences(required, plugins) == [] <==>
            Coherent(required, plugins, validUrl)
  {
    RejectionsIff(plugins, validUrl);
    AbsencesIff(required, plugins);
    SilentIffOneVersionEach(conflicts, Entries([Accepted(plugins, validUrl)]));
    if Rejections(plugins, validUrl) == [] {
      AcceptedEntries(plugins, validUrl);
    }
  }

  lemma {:induction false} RejectionsIff(plugins: seq<BasePlugin>, validUrl: string -> bool)
    ensures Rejections(plugins, validUrl) == [] <==> forall i | 0 <= i < |plugins| :: Parsed(plugins[i], validUrl).Ok?
  {
    if plugins != [] {
      var n := |plugins| - 1;
      RejectionsIff(plugins[..n], validUrl);
      assert forall i | 0 <= i < n :: plugins[..n][i] == plugins[i];
    }
  }

  lemma {:induction false} AbsencesIff(required: seq<Plugin>, plugins: seq<BasePlugin>)
    ensures Absences(required, plugins) == [] <==> forall i | 0 <= i < |required| :: Listed(required[i].name, plugins)
  {
    if required != [] {
      var n := |required| - 1;
      AbsencesIff(required[..n], plugins);
      assert forall i | 0 <= i < n :: required[..n][i] == required[i];
    }
  }

  lemma {:induction false} SumMembers(m: map<Plugin, multiset<Entry>>, e: Entry)
    ensures e in Sum(m) <==> exists k :: k in m && e in m[k]
    decreases |m|
  {
    if m != map[] {
      var j :| j in m && Sum(m) == m[j] + Sum(m - {j});
      SumMembers(m - {j}, e);
      forall k | k in m && e in m[k] ensures e in Sum(m) {
        assert k == j || (k in m - {j} && e in (m - {j})[k]);
      }
      if k :| k in m - {j} && e in (m - {j})[k] {
        assert k in m && e in m[k];
      }
    }
  }

  ghost predicate Gives(p: BasePlugin, e: Entry) {
    p.name == e.name && p.version == e.version && e.root == p.name + ":" + p.version
  }

  /** If all plugins are valid, the entries are theirs. */
  lemma {:induction false} AcceptedEntries(plugins: seq<BasePlugin>, validUrl: string -> bool)
    requires forall i | 0 <= i < |plugins| :: Parsed(plugins[i], validUrl).Ok?
    ensures OneVersionEach(Entries([Accepted(plugins, validUrl)])) <==>
            forall i, j | 0 <= i < |plugins| && 0 <= j < |plugins| && plugins[i].name == plugins[j].name ::
              plugins[i].version == plugins[j].version
  {
    var entries := Entries([Accepted(plugins, validUrl)]);
    forall e ensures e in entries <==> exists i | 0 <= i < |plugins| :: Gives(plugins[i], e) {
      EntryGiven(plugins, validUrl, e);
    }
    forall i | 0 <= i < |plugins| ensures Owns(plugins[i]) in entries {
      assert Gives(plugins[i], Owns(plugins[i]));
    }
  }

  function Owns(p: BasePlugin): Entry { Entry(p.name, p.version, p.name + ":" + p.version) }

  lemma {:induction false} EntryGiven(plugins: seq<BasePlugin>, validUrl: string -> bool, e: Entry)
    requires forall i | 0 <= i < |plugins| :: Parsed(plugins[i], validUrl).Ok?
    ensures e in Entries([Accepted(plugins, validUrl)]) <==> exists i | 0 <= i < |plugins| :: Gives(plugins[i], e)
  {
    var roots := Accepted(plugins, validUrl);
    assert [roots][..0] == [] && Entries([roots]) == MapEntries(roots);
    SumMembers(EachRoot(roots), e);
    AcceptedKeys(plugins, validUrl);
    if k :| k in EachRoot(roots) && e in EachRoot(roots)[k] {
      GivenByRoot(plugins, validUrl, roots, k, e);
    }
    if i :| 0 <= i < |plugins| && Gives(plugins[i], e) {
      GivenByPlugin(plugins[i], validUrl, roots, e);
    }
  }

  lemma GivenByRoot(plugins: seq<BasePlugin>, validUrl: string -> bool, roots: Roots, k: Plugin, e: Entry)
    requires k in roots && roots[k] == [] && e in EachRoot(roots)[k]
    requires exists i | 0 <= i < |plugins| :: Parsed(plugins[i], validUrl) == Ok(k)
    ensures exists i | 0 <= i < |plugins| :: Gives(plugins[i], e)
  {
    var i :| 0 <= i < |plugins| && Parsed(plugins[i], validUrl) == Ok(k);
    assert Gives(plugins[i], e);
  }

  lemma GivenByPlugin(p: BasePlugin, validUrl: string -> bool, roots: Roots, e: Entry)
    requires Parsed(p, validUrl).Ok? && Gives(p, e)
    requires Parsed(p, validUrl).value in roots && roots[Parsed(p, validUrl).value] == []
    ensures exists k :: k in EachRoot(roots) && e in EachRoot(roots)[k]
  {
    var k := Parsed(p, validUrl).value;
    assert k in EachRoot(roots) && EachRoot(roots)[k] == multiset{EntryOf(k, k)};
  }

  lemma {:induction false} AcceptedKeys(plugins: seq<BasePlugin>, validUrl: string -> bool)
    requires forall i | 0 <= i < |plugins| :: Parsed(plugins[i], validUrl).Ok?
    ensures forall i | 0 <= i < |plugins| :: Parsed(plugins[i], validUrl).value in Accepted(plugins, validUrl)
    ensures forall k | k in Accepted(plugins, validUrl) ::
              Accepted(plugins, validUrl)[k] == [] && exists i | 0 <= i < |plugins| :: Parsed(plugins[i], validUrl) == Ok(k)
  {
    if plugins != [] {
      var n := |plugins| - 1;
      assert forall i | 0 <= i < n :: plugins[..n][i] == plugins[i];
      AcceptedKeys(plugins[..n], validUrl);
    }
  }
}
