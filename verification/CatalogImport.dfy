/** The catalog import: reading, merging, classifying and the rules for what may ship. */
module CatalogImport {
  import opened Wrappers
  import opened Sorting
  import opened CatalogMerge

  // ---------------------------------------------------------------- local adapters

  function KeptCommands(plugin: Plugin, n: nat, rules: Rules): seq<Server>
    requires n <= |plugin.servers|
  {
    if n == 0 then []
    else
      var s := plugin.servers[n - 1];
      KeptCommands(plugin, n - 1, rules) +
      (if Origin(Claude, plugin.name, s.name) !in rules.curatedOut && s.command then [s] else [])
  }

  function Names(servers: seq<Server>): seq<string> {
    if servers == [] then [] else Names(servers[..|servers| - 1]) + [servers[|servers| - 1].name]
  }

  function Envs(servers: seq<Server>): seq<Field> {
    if servers == [] then [] else Envs(servers[..|servers| - 1]) + servers[|servers| - 1].env
  }

  lemma NamesMore(servers: seq<Server>, s: Server)
    ensures Names(servers + [s]) == Names(servers) + [s.name] && Envs(servers + [s]) == Envs(servers) + s.env
  {
    assert (servers + [s])[..|servers|] == servers;
  }

  lemma {:induction false} AsManyNames(servers: seq<Server>)
    ensures |Names(servers)| == |servers|
  {
    if servers != [] {
      AsManyNames(servers[..|servers| - 1]);
    }
  }

  /** One record for each adapter plugin that keeps a command. */
  function Adapters(plugins: seq<Plugin>, rules: Rules): seq<Adapter> {
    if plugins == [] then []
    else
      var p := plugins[|plugins| - 1];
      var kept := KeptCommands(p, |p.servers|, rules);
      Adapters(plugins[..|plugins| - 1], rules) +
      (if p.adapter && kept != [] then [Adapter(p.name, Names(kept), Envs(kept))] else [])
  }

  // ---------------------------------------------------------------- one more

  lemma TakeInMore(list: seq<Listed>, l: Listed, rules: Rules)
    ensures TakeIn(list + [l], rules) == Add(TakeIn(list, rules), l, FateOf(l, rules))
  {
    assert (list + [l])[..|list|] == list;
  }

  lemma ServersMore(source: Source, plugin: Plugin, n: nat)
    requires n < |plugin.servers|
    ensures ServersOf(source, plugin, n + 1) ==
            ServersOf(source, plugin, n)
              + [Listed(Origin(source, plugin.name, plugin.servers[n].name), plugin.servers[n])]
  {}

  lemma AllServersMore(source: Source, plugins: seq<Plugin>, n: nat)
    requires n < |plugins|
    ensures AllServers(source, plugins[..n + 1]) ==
            AllServers(source, plugins[..n]) +
            (if source == Claude && plugins[n].adapter then [] else ServersOf(source, plugins[n], |plugins[n].servers|))
  {
    assert plugins[..n + 1][..n] == plugins[..n];
  }

  lemma AdaptersMore(plugins: seq<Plugin>, n: nat, rules: Rules)
    requires n < |plugins|
    ensures var kept := KeptCommands(plugins[n], |plugins[n].servers|, rules);
            Adapters(plugins[..n + 1], rules) ==
            Adapters(plugins[..n], rules)
            + (if plugins[n].adapter && kept != [] then [Adapter(plugins[n].name, Names(kept), Envs(kept))] else [])
  {
    assert plugins[..n + 1][..n] == plugins[..n];
  }

  lemma RecordsMore(records: seq<Record>, n: nat, rules: Rules)
    requires n < |records|
    ensures var r := records[n];
            && (forall key :: WithKey(records[..n + 1], key, rules) ==
                              WithKey(records[..n], key, rules) + (if KeyOf(r, rules) == Some(key) then [r] else []))
            && Keys(records[..n + 1], rules) ==
               Keys(records[..n], rules)
               + (if KeyOf(r, rules).Some? && KeyOf(r, rules).value !in Keys(records[..n], rules)
                  then [KeyOf(r, rules).value] else [])
            && Unparsed(records[..n + 1], rules) ==
               Unparsed(records[..n], rules) + (if KeyOf(r, rules).None? then [Exclusion(r.origin, Unparsable)] else [])
  {
    assert records[..n + 1][..n] == records[..n];
  }

  /** The map of groups holds, for each key met, the records with that key. */
  ghost predicate Grouping(groups: map<string, seq<Record>>, keys: seq<string>, records: seq<Record>, rules: Rules) {
    && keys == Keys(records, rules) && (forall key :: key in groups <==> key in keys)
    && forall key <- keys :: groups[key] == WithKey(records, key, rules)
  }

  lemma NothingToGroup(rules: Rules)
    ensures Grouping(map[], [], [], rules) && Unparsed([], rules) == []
  {}

  /** One record more joins the group of its key, which is new if the key is. */
  lemma GroupingStep(groups: map<string, seq<Record>>, keys: seq<string>, records: seq<Record>, n: nat, rules: Rules)
    requires n < |records| && Grouping(groups, keys, records[..n], rules)
    ensures match KeyOf(records[n], rules)
            case None =>
              && Grouping(groups, keys, records[..n + 1], rules)
              && Unparsed(records[..n + 1], rules) ==
                 Unparsed(records[..n], rules) + [Exclusion(records[n].origin, Unparsable)]
            case Some(key) =>
              var begun := if key in groups then groups else groups[key := []];
              && Grouping(begun[key := begun[key] + [records[n]]], if key in groups then keys else keys + [key],
                          records[..n + 1], rules)
              && Unparsed(records[..n + 1], rules) == Unparsed(records[..n], rules)
  {
    hide WithKey, Keys, Unparsed, KeyOf;
    RecordsMore(records, n, rules);
    var before := records[..n];
    assert keys + [] == keys && Unparsed(before, rules) + [] == Unparsed(before, rules);
    forall key ensures WithKey(before, key, rules) + [] == WithKey(before, key, rules) {}
    if KeyOf(records[n], rules).Some? {
      KeysAreTheKeys(before, rules, KeyOf(records[n], rules).value);
    }
  }

  lemma SortedWantsTheSame(group: seq<Record>, templates: seq<Record>, rules: Rules)
    ensures Wanted(templates, Sorted(group, rules)) == Wanted(templates, group)
    ensures Unwanted(templates, Sorted(group, rules)) == Unwanted(templates, group)
  {
    forall r ensures r in Sorted(group, rules) <==> r in group {
      assert r in Sorted(group, rules) <==> r in multiset(Sorted(group, rules));
      assert r in group <==> r in multiset(group);
    }
    SameWants(Sorted(group, rules), group, templates);
  }

  lemma {:induction false} SameWants(a: seq<Record>, b: seq<Record>, templates: seq<Record>)
    requires forall r :: r in a <==> r in b
    ensures Wanted(templates, a) == Wanted(templates, b) && Unwanted(templates, a) == Unwanted(templates, b)
  {
    if templates != [] {
      SameWants(a, b, templates[1..]);
      assert Wants(a, templates[0]) <==> Wants(b, templates[0]);
    }
  }

  lemma FullGroups(records: seq<Record>, rules: Rules)
    ensures AllFull(Groups(records, Keys(records, rules), rules))
  {
    var keys := Keys(records, rules);
    var groups := Groups(records, keys, rules);
    forall g <- groups ensures g != [] {
      var k :| 0 <= k < |groups| && groups[k] == g;
      GroupAt(records, keys, rules, k);
      KeysAreTheKeys(records, rules, keys[k]);
    }
  }

  lemma FieldsMore(records: seq<Record>, n: nat)
    requires n < |records|
    ensures FieldsOf(records[..n + 1]) == FieldsOf(records[..n]) + records[n].auth.fields
    ensures Blocked(records[..n + 1]) <==> Blocked(records[..n]) || records[n].auth.blocks != []
  {
    assert records[..n + 1][..n] == records[..n];
    assert records[..n + 1] == records[..n] + [records[n]];
  }

  lemma NoneFirst()
    ensures FirstOfEach([]) == []
  {}

  lemma FirstOfEachMore(fields: seq<Field>, n: nat)
    requires n < |fields|
    ensures FirstOfEach(fields[..n + 1]) ==
            FirstOfEach(fields[..n]) + (if exists f <- fields[..n] :: f.id == fields[n].id then [] else [fields[n]])
    ensures (set f <- fields[..n + 1] :: f.id) == (set f <- fields[..n] :: f.id) + {fields[n].id}
  {
    assert fields[..n + 1][..n] == fields[..n] && fields[..n + 1] == fields[..n] + [fields[n]];
  }

  /** The first field of each id, then sorted. */
  method DedupeFields(fields: seq<Field>, rules: Rules) returns (r: seq<Field>)
    ensures r == Dedupe(fields, rules)
    ensures DistinctIds(FirstOfEach(fields)) && multiset(r) == multiset(FirstOfEach(fields))
  {
    hide FirstOfEach, DistinctIds, SortBy;
    var ids: set<string> := {};
    r := [];
    assert fields[..0] == [] && FirstOfEach([]) == [] by { NoneFirst(); }
    for n := 0 to |fields|
      invariant ids == set f <- fields[..n] :: f.id
      invariant r == FirstOfEach(fields[..n])
    {
      FirstOfEachMore(fields, n);
      if fields[n].id in ids {
        continue;
      }
      ids := ids + {fields[n].id};
      r := r + [fields[n]];
    }
    assert fields[..|fields|] == fields;
    FirstOfEachDistinct(fields);
    r := SortBy(rules.fieldPrecedes, r);
  }

  method BuildHttpEntry(records: seq<Record>, templates: seq<Record>, rules: Rules) returns (entry: Entry)
    requires records != []
    ensures entry == HttpEntry(records, templates, rules)
  {
    hide Dedupe, Blocked;
    var blocked, fields: seq<Field> := false, [];
    assert !Blocked([]) by { NothingBlocked(); }
    for n := 0 to |records|
      invariant blocked == Blocked(records[..n]) && fields == FieldsOf(records[..n])
    {
      FieldsMore(records, n);
      blocked := blocked || |records[n].auth.blocks| > 0;
      fields := fields + records[n].auth.fields;
    }
    assert records[..|records|] == records;
    for n := 0 to |templates|
      invariant blocked == (Blocked(records) || Blocked(templates[..n]))
      invariant fields == FieldsOf(records) + FieldsOf(templates[..n])
    {
      FieldsMore(templates, n);
      blocked := blocked || |templates[n].auth.blocks| > 0;
      fields := fields + templates[n].auth.fields;
    }
    assert templates[..|templates|] == templates;
    fields := DedupeFields(fields, rules);
    var identity := OfServer(records[0].origin);
    return Entry(IdOf(identity, rules), identity, Http(records[0].url),
                 From(records, false) + From(templates, true) + PrimeNote(identity, rules),
                 if blocked then Setup(false, fields, None, None) else Setup(true, [], None, None));
  }

  lemma NothingBlocked()
    ensures !Blocked([])
  {}

  class Importer {
    const rules: Rules
    var excluded: seq<Exclusion>
    var remote: seq<Record>
    var template: seq<Record>
    var sse: seq<Record>
    var stdio: seq<Adapter>
    var groups: map<string, seq<Record>>
    var groupOrder: seq<string>
    var built: seq<Entry>
    ghost var seen: seq<Listed>

    constructor (rules: Rules)
      ensures this.rules == rules && Empty()
    {
      this.rules := rules;
      excluded, remote, template, sse, stdio := [], [], [], [], [];
      groups, groupOrder, built, seen := map[], [], [], [];
    }

    predicate Empty()
      reads this
    {
      excluded == [] && remote == [] && template == [] && sse == [] && stdio == [] && groups == map[]
        && groupOrder == []
      && built == []
    }

    function Taken(): Intake
      reads this
    {
      Intake(excluded, remote, template, sse)
    }

    /** The curated list opens the exclusion report, whether or not its keys name a server. */
    method ReportCurated()
      requires Empty()
      modifies this`excluded, this`seen
      ensures seen == [] && Taken() == TakeIn(seen, rules) && stdio == old(stdio)
    {
      seen := [];
      for k := 0 to |rules.curatedOut|
        invariant seen == [] && excluded == CuratedExclusions(rules.curatedOut[..k])
      {
        excluded := excluded + [Exclusion(rules.curatedOut[k], Curated)];
      }
      assert rules.curatedOut[..|rules.curatedOut|] == rules.curatedOut;
    }

    method ReadOpenAi(plugins: seq<Plugin>)
      requires seen == [] && Taken() == TakeIn(seen, rules)
      modifies this`remote, this`seen
      ensures seen == AllServers(OpenAi, plugins) && Taken() == TakeIn(seen, rules)
    {
      hide AllServers, ServersOf, TakeIn;
      NothingRead(OpenAi, rules);
      assert plugins[..0] == [];
      for i := 0 to |plugins|
        invariant seen == AllServers(OpenAi, plugins[..i]) && Taken() == TakeIn(seen, rules)
      {
        ghost var before := seen;
        NoServersYet(OpenAi, plugins[i]);
        assert before + [] == before;
        for j := 0 to |plugins[i].servers|
          invariant seen == before + ServersOf(OpenAi, plugins[i], j) && Taken() == TakeIn(seen, rules)
        {
          var server := plugins[i].servers[j];
          ServersMore(OpenAi, plugins[i], j);
          ReadOpenAiServer(Listed(Origin(OpenAi, plugins[i].name, server.name), server));
          assert seen == before + ServersOf(OpenAi, plugins[i], j + 1);
        }
        AllServersMore(OpenAi, plugins, i);
      }
      assert plugins[..|plugins|] == plugins;
    }

    method ReadOpenAiServer(l: Listed)
      requires l.origin.source == OpenAi && Taken() == TakeIn(seen, rules)
      modifies this`remote, this`seen
      ensures seen == old(seen) + [l] && Taken() == TakeIn(seen, rules)
    {
      hide TakeIn;
      TakeInMore(seen, l, rules);
      seen := seen + [l];
      if l.origin in rules.curatedOut {
        return;
      }
      remote := remote + [Record(l.origin, l.server.url, l.server.auth)];
    }

    /** One server of a plugin that is not a local adapter. */
    method ReadServer(l: Listed)
      requires l.origin.source == Claude && Taken() == TakeIn(seen, rules)
      modifies this`excluded, this`remote, this`template, this`sse, this`seen
      ensures seen == old(seen) + [l] && Taken() == TakeIn(seen, rules)
    {
      hide TakeIn;
      TakeInMore(seen, l, rules);
      seen := seen + [l];
      var server := l.server;
      if l.origin in rules.curatedOut {
        return;
      }
      if server.command {
        excluded := excluded + [Exclusion(l.origin, LocalStdio)];
        return;
      }
      var url := rules.normalize(server.url);
      if server.sse {
        sse := sse + [Record(l.origin, server.url, server.auth)];
        return;
      }
      if rules.isLoopback(url) {
        excluded := excluded + [Exclusion(l.origin, Loopback)];
        return;
      }
      if rules.isTemplate(url) {
        match rules.resolve(url) {
          case Some(resolved) => remote := remote + [Record(l.origin, resolved, server.auth)];
          case None => template := template + [Record(l.origin, url, server.auth)];
        }
        return;
      }
      if !rules.isHttps(url) {
        excluded := excluded + [Exclusion(l.origin, NotHttps)];
        return;
      }
      remote := remote + [Record(l.origin, url, server.auth)];
    }

    /** A local adapter plugin: its commands make one record; a server without a command is passed over. */
    method ReadAdapter(plugin: Plugin)
      modifies this`stdio
      ensures var kept := KeptCommands(plugin, |plugin.servers|, rules);
              stdio == old(stdio) + (if kept != [] then [Adapter(plugin.name, Names(kept), Envs(kept))] else [])
    {
      var names: seq<string>, fields: seq<Field> := [], [];
      for j := 0 to |plugin.servers|
        invariant stdio == old(stdio) && names == Names(KeptCommands(plugin, j, rules))
                  && fields == Envs(KeptCommands(plugin, j, rules))
      {
        var server := plugin.servers[j];
        var before := KeptCommands(plugin, j, rules);
        NamesMore(before, server);
        assert before + [] == before;
        if Origin(Claude, plugin.name, server.name) in rules.curatedOut {
          continue;
        }
        if server.command {
          names := names + [server.name];
          fields := fields + server.env;
        }
      }
      AsManyNames(KeptCommands(plugin, |plugin.servers|, rules));
      assert stdio + [] == stdio;
      if |names| > 0 {
        stdio := stdio + [Adapter(plugin.name, names, fields)];
      }
    }

    method ReadClaude(plugins: seq<Plugin>)
      requires Taken() == TakeIn(seen, rules) && stdio == []
      modifies this`excluded, this`remote, this`template, this`sse, this`stdio, this`seen
      ensures seen == old(seen) + AllServers(Claude, plugins) && Taken() == TakeIn(seen, rules)
      ensures stdio == Adapters(plugins, rules)
    {
      hide TakeIn, AllServers, ServersOf, Adapters, KeptCommands;
      NothingRead(Claude, rules);
      assert plugins[..0] == [] && old(seen) + [] == seen;
      for i := 0 to |plugins|
        invariant seen == old(seen) + AllServers(Claude, plugins[..i]) && Taken() == TakeIn(seen, rules)
        invariant stdio == Adapters(plugins[..i], rules)
      {
        AllServersMore(Claude, plugins, i);
        AdaptersMore(plugins, i, rules);
        if plugins[i].adapter {
          ReadAdapter(plugins[i]);
          assert AllServers(Claude, plugins[..i]) + [] == AllServers(Claude, plugins[..i]);
          continue;
        }
        ghost var before := seen;
        NoServersYet(Claude, plugins[i]);
        assert before + [] == before;
        for j := 0 to |plugins[i].servers|
          invariant seen == before + ServersOf(Claude, plugins[i], j) && Taken() == TakeIn(seen, rules)
          invariant stdio == Adapters(plugins[..i], rules)
        {
          var server := plugins[i].servers[j];
          ServersMore(Claude, plugins[i], j);
          ReadServer(Listed(Origin(Claude, plugins[i].name, server.name), server));
          assert seen == before + ServersOf(Claude, plugins[i], j + 1);
        }
        assert stdio + [] == stdio;
      }
      assert plugins[..|plugins|] == plugins;
    }

    /** Static records with the same reviewed URL form a group; unparsable ones are excluded. */
    method GroupRemotes()
      requires groups == map[] && groupOrder == []
      modifies this`excluded, this`groups, this`groupOrder
      ensures Grouping(groups, groupOrder, remote, rules)
      ensures excluded == old(excluded) + Unparsed(remote, rules)
    {
      hide WithKey, KeyOf, Keys, Unparsed, Grouping;
      NothingToGroup(rules);
      assert remote[..0] == [] && excluded + [] == excluded;
      for n := 0 to |remote|
        invariant Grouping(groups, groupOrder, remote[..n], rules)
        invariant excluded == old(excluded) + Unparsed(remote[..n], rules)
      {
        var record := remote[n];
        KeyIsReviewed(record, rules);
        GroupingStep(groups, groupOrder, remote, n, rules);
        match rules.reviewed(record.url) {
          case None => excluded := excluded + [Exclusion(record.origin, Unparsable)];
          case Some(key) =>
            if key !in groups {
              groups := groups[key := []];
              groupOrder := groupOrder + [key];
            }
            groups := groups[key := groups[key] + [record]];
        }
      }
      assert remote[..|remote|] == remote;
    }

    /** Takes out of `template`, from the end, every template the records want. */
    method AttachTemplates(records: seq<Record>) returns (attached: seq<Record>)
      modifies this`template
      ensures template == Unwanted(old(template), records)
      ensures attached == Reversed(Wanted(old(template), records))
    {
      hide Wants, Wanted, Unwanted, Reversed;
      attached := [];
      ghost var whole := template;
      var index := |template| - 1;
      NoTemplates(records);
      assert whole[..index + 1] == whole && whole[index + 1..] == [] && whole + [] == whole;
      while index >= 0
        invariant -1 <= index < |whole|
        invariant template == whole[..index + 1] + Unwanted(whole[index + 1..], records)
        invariant attached == Reversed(Wanted(whole[index + 1..], records))
      {
        var candidate := template[index];
        OneTemplateBack(whole, index, records);
        if Wants(records, candidate) {
          attached := attached + [candidate];
          template := template[..index] + template[index + 1..];
        }
        index := index - 1;
      }
      assert whole[0..] == whole;
    }

    /** One entry for each group, in the order of the groups; each takes the templates it wants. */
    method BuildHttpEntries()
      requires Grouping(groups, groupOrder, remote, rules) && built == []
      modifies this`built, this`template
      ensures var g := Groups(remote, Keys(remote, rules), rules);
              AllFull(g) && built == HttpEntries(old(template), g, |g|, rules)
                && template == Free(old(template), g, |g|)
    {
      hide HttpEntry, Wanted, Unwanted, WithKey, Sorted, AllFull, Reversed, Keys, Groups;
      ghost var g := Groups(remote, Keys(remote, rules), rules);
      FullGroups(remote, rules);
      for n := 0 to |groupOrder|
        invariant built == HttpEntries(old(template), g, n, rules) && template == Free(old(template), g, n)
      {
        assert groupOrder[n] in groupOrder;
        var records := Sorted(groups[groupOrder[n]], rules);
        GroupAt(remote, groupOrder, rules, n);
        FullAt(g, n);
        SortedWantsTheSame(g[n], template, rules);
        var attached := AttachTemplates(records);
        var entry := BuildHttpEntry(records, attached, rules);
        built := built + [entry];
      }
    }

    /** Free templates, SSE servers and local adapters each get an entry of their own. */
    method BuildOwnEntries()
      modifies this`built
      ensures built == old(built) + OwnEntries(template, sse, stdio, rules)
    {
      hide TemplateEntry, SseEntry, StdioEntry, TemplateEntries, SseEntries, StdioEntries;
      assert built + TemplateEntries(template[..0], rules) == built;
      for n := 0 to |template|
        invariant built == old(built) + TemplateEntries(template[..n], rules)
      {
        assert TemplateEntries(template[..n + 1], rules)
               == TemplateEntries(template[..n], rules) + [TemplateEntry(template[n], rules)];
        var entry := BuildTemplateEntry(template[n], rules);
        built := built + [entry];
      }
      ghost var first := built;
      assert template[..|template|] == template && built + SseEntries(sse[..0], rules) == built;
      for n := 0 to |sse|
        invariant built == first + SseEntries(sse[..n], rules)
      {
        assert SseEntries(sse[..n + 1], rules) == SseEntries(sse[..n], rules) + [SseEntry(sse[n], rules)];
        var entry := BuildSseEntry(sse[n], rules);
        built := built + [entry];
      }
      ghost var second := built;
      assert sse[..|sse|] == sse && built + StdioEntries(stdio[..0], rules) == built;
      for n := 0 to |stdio|
        invariant built == second + StdioEntries(stdio[..n], rules)
      {
        assert StdioEntries(stdio[..n + 1], rules) == StdioEntries(stdio[..n], rules) + [StdioEntry(stdio[n], rules)];
        var entry := BuildStdioEntry(stdio[n], rules);
        built := built + [entry];
      }
      assert stdio[..|stdio|] == stdio;
    }

    /**
     * The whole merge conserves every server: the report and the entries name the curated list and all other
     * servers.
     */
    method Merge(openAi: seq<Plugin>, claude: seq<Plugin>)
      requires Empty()
      modifies this
      ensures seen == AllServers(OpenAi, openAi) + AllServers(Claude, claude)
      ensures Tally(OfExclusion, excluded) + Tally(OfEntry, built) ==
              multiset(rules.curatedOut) + Tally(OfListed, Uncurated(seen, rules))
      ensures built == Merged(seen, Adapters(claude, rules), rules)
      ensures excluded == TakeIn(seen, rules).excluded + Unparsed(TakeIn(seen, rules).remote, rules)
    {
      hide TakeIn, AllServers, Adapters, Grouping, Groups, Keys, HttpEntries, OwnEntries, Free, Unparsed, Tally,
           Uncurated;
      ReportCurated();
      ReadOpenAi(openAi);
      ReadClaude(claude);
      ghost var intake := TakeIn(seen, rules);
      GroupRemotes();
      BuildHttpEntries();
      BuildOwnEntries();
      MergeConserves(seen, Adapters(claude, rules), rules);
    }
  }

  lemma NothingRead(source: Source, rules: Rules)
    ensures AllServers(source, []) == [] && Adapters([], rules) == []
  {}

  lemma NoServersYet(source: Source, plugin: Plugin)
    ensures ServersOf(source, plugin, 0) == []
  {}

  lemma KeyIsReviewed(r: Record, rules: Rules)
    ensures KeyOf(r, rules) == rules.reviewed(r.url)
  {}

  lemma FullAt(groups: seq<seq<Record>>, n: nat)
    requires AllFull(groups) && n < |groups|
    ensures groups[n] != []
  {
    assert groups[n] in groups;
  }

  lemma NoTemplates(records: seq<Record>)
    ensures Wanted([], records) == [] && Unwanted([], records) == [] && Reversed<Record>([]) == []
  {}

  lemma OneTemplateBack(whole: seq<Record>, index: nat, records: seq<Record>)
    requires index < |whole|
    ensures var t, later := whole[index], whole[index + 1..];
            && (whole[..index + 1] + Unwanted(later, records))[index] == t
            && Unwanted(whole[index..], records) ==
               (if Wants(records, t) then Unwanted(later, records) else [t] + Unwanted(later, records))
            && Reversed(Wanted(whole[index..], records)) ==
               (if Wants(records, t) then Reversed(Wanted(later, records)) + [t] else Reversed(Wanted(later, records)))
  {
    var t, later := whole[index], whole[index + 1..];
    assert whole[index..][1..] == later && whole[index..][0] == t;
    assert ([t] + Wanted(later, records))[1..] == Wanted(later, records);
    assert [] + Wanted(later, records) == Wanted(later, records);
    assert [] + Unwanted(later, records) == Unwanted(later, records);
  }

  method BuildTemplateEntry(t: Record, rules: Rules) returns (entry: Entry)
    ensures entry == TemplateEntry(t, rules)
  {
    var fields := DedupeFields(t.auth.fields + rules.variables(t.url), rules);
    var identity := OfServer(t.origin);
    return Entry(IdOf(identity, rules), identity, HttpTemplate,
                 [Upstream(t.origin, false)] + PrimeNote(identity, rules),
                 Setup(false, fields, None, None));
  }

  method BuildSseEntry(r: Record, rules: Rules) returns (entry: Entry)
    ensures entry == SseEntry(r, rules)
  {
    var identity := OfServer(r.origin);
    return Entry(IdOf(identity, rules), identity, SseTransport(r.url),
                 [Upstream(r.origin, false)] + PrimeNote(identity, rules), Setup(false, r.auth.fields, None, None));
  }

  method BuildStdioEntry(a: Adapter, rules: Rules) returns (entry: Entry)
    ensures entry == StdioEntry(a, rules)
  {
    var fields := DedupeFields(a.fields, rules);
    var identity := OfPlugin(a.plugin);
    return Entry(IdOf(identity, rules), identity, StdioTransport(a.servers),
                 [UpstreamPlugin(a.plugin)] + PrimeNote(identity, rules), Setup(false, fields, None, None));
  }

  // ---------------------------------------------------------------- conservation

  lemma OwnEntryTallies(t: Record, a: Adapter, rules: Rules)
    ensures OfEntry(TemplateEntry(t, rules)) == multiset{t.origin} && OfEntry(SseEntry(t, rules)) == multiset{t.origin}
    ensures OfEntry(StdioEntry(a, rules)) == multiset{}
  {
    var note, plugin := PrimeNote(OfServer(t.origin), rules), PrimeNote(OfPlugin(a.plugin), rules);
    PrimeTalliesNothing(OfServer(t.origin), rules);
    PrimeTalliesNothing(OfPlugin(a.plugin), rules);
    assert ([Upstream(t.origin, false)] + note)[1..] == note;
    assert ([UpstreamPlugin(a.plugin)] + plugin)[1..] == plugin;
  }

  lemma {:induction false} OneEach(records: seq<Record>, entries: seq<Entry>)
    requires |records| == |entries| && forall k | 0 <= k < |records| ::
             OfEntry(entries[k]) == multiset{records[k].origin}
    ensures Tally(OfEntry, entries) == Tally(OfRecord, records)
  {
    if records != [] {
      OneEach(records[1..], entries[1..]);
    }
  }

  lemma {:induction false} NoneEach(entries: seq<Entry>)
    requires forall k | 0 <= k < |entries| :: OfEntry(entries[k]) == multiset{}
    ensures Tally(OfEntry, entries) == multiset{}
  {
    if entries != [] {
      NoneEach(entries[1..]);
    }
  }

  lemma OwnEntriesTally(templates: seq<Record>, sse: seq<Record>, stdio: seq<Adapter>, rules: Rules)
    ensures Tally(OfEntry, OwnEntries(templates, sse, stdio, rules)) ==
            Tally(OfRecord, templates) + Tally(OfRecord, sse)
  {
    hide Tally, TemplateEntry, SseEntry, StdioEntry, OfEntry;
    var a := seq(|templates|, k requires 0 <= k < |templates| => TemplateEntry(templates[k], rules));
    var b := seq(|sse|, k requires 0 <= k < |sse| => SseEntry(sse[k], rules));
    var c := seq(|stdio|, k requires 0 <= k < |stdio| => StdioEntry(stdio[k], rules));
    forall k | 0 <= k < |a| ensures OfEntry(a[k]) == multiset{templates[k].origin} {
      OwnEntryTallies(templates[k], Adapter("", [], []), rules);
    }
    forall k | 0 <= k < |b| ensures OfEntry(b[k]) == multiset{sse[k].origin} {
      OwnEntryTallies(sse[k], Adapter("", [], []), rules);
    }
    forall k | 0 <= k < |c| ensures OfEntry(c[k]) == multiset{} {
      OwnEntryTallies(Record(Origin(Claude, "", ""), "", Auth([], [])), stdio[k], rules);
    }
    OneEach(templates, a);
    OneEach(sse, b);
    NoneEach(c);
    TallyConcat(OfEntry, a + b, c);
    TallyConcat(OfEntry, a, b);
  }

  /** The entries that the servers read and the local adapters lead to. */
  function Merged(seen: seq<Listed>, stdio: seq<Adapter>, rules: Rules): seq<Entry> {
    var intake := TakeIn(seen, rules);
    var g := Groups(intake.remote, Keys(intake.remote, rules), rules);
    FullGroups(intake.remote, rules);
    HttpEntries(intake.template, g, |g|, rules) + OwnEntries(Free(intake.template, g, |g|), intake.sse, stdio, rules)
  }

  lemma MergeConserves(seen: seq<Listed>, stdio: seq<Adapter>, rules: Rules)
    ensures var intake := TakeIn(seen, rules);
            Tally(OfExclusion, intake.excluded + Unparsed(intake.remote, rules))
            + Tally(OfEntry, Merged(seen, stdio, rules)) ==
            multiset(rules.curatedOut) + Tally(OfListed, Uncurated(seen, rules))
  {
    hide Tally, Uncurated, TakeIn, Keys, Groups, HttpEntries, OwnEntries, Free, Unparsed, AllFull;
    var intake := TakeIn(seen, rules);
    var g := Groups(intake.remote, Keys(intake.remote, rules), rules);
    FullGroups(intake.remote, rules);
    var http := HttpEntries(intake.template, g, |g|, rules);
    TakeInConserves(seen, rules);
    GroupingConserves(intake.remote, rules);
    HttpEntriesConserve(intake.template, g, |g|, rules);
    assert g[..|g|] == g;
    var free := Free(intake.template, g, |g|);
    OwnEntriesTally(free, intake.sse, stdio, rules);
    TallyConcat(OfEntry, http, OwnEntries(free, intake.sse, stdio, rules));
    TallyConcat(OfExclusion, intake.excluded, Unparsed(intake.remote, rules));
    AddUp(Tally(OfExclusion, intake.excluded), Tally(OfRecord, intake.remote), Tally(OfRecord, intake.template),
          Tally(OfRecord, intake.sse), Tally(OfExclusion, Unparsed(intake.remote, rules)), Tally(OfGroup, g),
          Tally(OfEntry, http), Tally(OfRecord, free));
  }

  lemma AddUp(excluded: multiset<Origin>, remote: multiset<Origin>, template: multiset<Origin>, sse: multiset<Origin>,
              unparsed: multiset<Origin>, grouped: multiset<Origin>, http: multiset<Origin>, free: multiset<Origin>)
    requires remote == unparsed + grouped && http + free == grouped + template
    ensures excluded + remote + template + sse == (excluded + unparsed) + (http + (free + sse))
  {
    assert (excluded + unparsed) + (http + (free + sse)) == (excluded + unparsed) + (http + free) + sse;
    assert (excluded + unparsed) + (grouped + template) + sse == excluded + (unparsed + grouped) + template + sse;
  }

  predicate DeclaredOnce(listed: seq<Listed>) {
    forall i, j | 0 <= i < j < |listed| :: listed[i].origin != listed[j].origin
  }

  predicate NamedOnce(origins: seq<Origin>) {
    forall i, j | 0 <= i < j < |origins| :: origins[i] != origins[j]
  }

  /** The server is named once in the exclusion report and the entries together. */
  predicate NamedExactlyOnce(l: Listed, excluded: seq<Exclusion>, entries: seq<Entry>) {
    Tally(OfExclusion, excluded)[l.origin] + Tally(OfEntry, entries)[l.origin] == 1
  }

  /**
   * With no server declared twice and no key curated twice, every server is excluded once or named in one
   * place of one entry, never both.
   */
  lemma ExactlyOnce(listed: seq<Listed>, excluded: seq<Exclusion>, entries: seq<Entry>, rules: Rules, k: nat)
    requires DeclaredOnce(listed) && NamedOnce(rules.curatedOut) && k < |listed|
    requires Tally(OfExclusion, excluded) + Tally(OfEntry, entries) ==
             multiset(rules.curatedOut) + Tally(OfListed, Uncurated(listed, rules))
    ensures NamedExactlyOnce(listed[k], excluded, entries)
  {
    hide Tally;
    var origin := listed[k].origin;
    OnceListed(listed, k);
    UncuratedTally(listed, rules, origin);
    CuratedOnce(rules.curatedOut, origin);
    assert (Tally(OfExclusion, excluded) + Tally(OfEntry, entries))[origin] ==
           Tally(OfExclusion, excluded)[origin] + Tally(OfEntry, entries)[origin];
  }

  lemma {:induction false} CuratedOnce(origins: seq<Origin>, origin: Origin)
    requires NamedOnce(origins)
    ensures multiset(origins)[origin] == if origin in origins then 1 else 0
  {
    if origins != [] {
      var rest := origins[1..];
      CuratedOnce(rest, origin);
      assert origins == [origins[0]] + rest;
    }
  }

  lemma UncuratedTally(listed: seq<Listed>, rules: Rules, origin: Origin)
    ensures Tally(OfListed, Uncurated(listed, rules))[origin] ==
            if origin in rules.curatedOut then 0 else Tally(OfListed, listed)[origin]
  {
    if origin in rules.curatedOut {
      NoCuratedLeft(listed, rules);
      NotListed(Uncurated(listed, rules), origin);
    } else {
      OthersStay(listed, rules, origin);
    }
  }

  lemma {:induction false} NoCuratedLeft(listed: seq<Listed>, rules: Rules)
    ensures forall i | 0 <= i < |Uncurated(listed, rules)| :: Uncurated(listed, rules)[i].origin !in rules.curatedOut
  {
    if listed != [] {
      NoCuratedLeft(listed[..|listed| - 1], rules);
    }
  }

  lemma TallyOneMore(listed: seq<Listed>, l: Listed, origin: Origin)
    ensures Tally(OfListed, listed + [l])[origin] == Tally(OfListed, listed)[origin] +
            if l.origin == origin then 1 else 0
  {
    hide Tally;
    TallyMore(OfListed, listed, l);
  }

  lemma {:induction false} OthersStay(listed: seq<Listed>, rules: Rules, origin: Origin)
    requires origin !in rules.curatedOut
    ensures Tally(OfListed, Uncurated(listed, rules))[origin] == Tally(OfListed, listed)[origin]
  {
    hide Tally;
    if listed == [] {
      assert Uncurated(listed, rules) == listed;
    } else {
      var before, l := listed[..|listed| - 1], listed[|listed| - 1];
      OthersStay(before, rules, origin);
      assert listed == before + [l];
      TallyOneMore(before, l, origin);
      TallyOneMore(Uncurated(before, rules), l, origin);
      assert Uncurated(before, rules) + [] == Uncurated(before, rules);
    }
  }

  lemma {:induction false} OnceListed(listed: seq<Listed>, k: nat)
    requires DeclaredOnce(listed) && k < |listed|
    ensures Tally(OfListed, listed)[listed[k].origin] == 1
  {
    TallyConcat(OfListed, listed[..k], listed[k..]);
    assert listed == listed[..k] + listed[k..] && listed[k..][1..] == listed[k + 1..];
    NotListed(listed[..k], listed[k].origin);
    NotListed(listed[k + 1..], listed[k].origin);
    assert Tally(OfListed, listed[k..]) == multiset{listed[k].origin} + Tally(OfListed, listed[k + 1..]);
  }

  lemma {:induction false} NotListed(listed: seq<Listed>, origin: Origin)
    requires forall i | 0 <= i < |listed| :: listed[i].origin != origin
    ensures Tally(OfListed, listed)[origin] == 0
  {
    if listed != [] {
      NotListed(listed[1..], origin);
    }
  }
}
