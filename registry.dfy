/** The documentation-source registry of `create_server` in mcpdoc/main.py: the
    set of tool names handed out so far and the ordered list of registered
    sources, the rules by which sources are added and removed, and the server
    object that holds both and changes them in place. */
module Registry {
  import opened Wrappers
  import opened Sources

  /** Why adding or removing a source fails: a local file that does not exist,
      a tool name handed out before, or a registered record without a name. */
  datatype Error = FileNotFound(path: string) | DuplicateToolName(toolName: string) | MissingName

  /** The registry's contents as a value. */
  datatype State = State(toolNames: set<string>, registry: seq<DocSource>)

  /** Every registered source's tool name has been handed out, and no two
      registered sources share a tool name. `toolNames` may hold more names than
      the registry uses: removal never gives a name back. */
  ghost predicate Inv(s: Settings, st: State) {
    && (forall i :: 0 <= i < |st.registry| ==> ToolNameOf(s, st.registry[i]) in st.toolNames)
    && (forall i, j :: 0 <= i < j < |st.registry| ==>
          ToolNameOf(s, st.registry[i]) != ToolNameOf(s, st.registry[j]))
  }

  // ---------------------------------------------------------------------------
  // Adding

  /** `make_tool_from_doc_source` on values: a missing local file fails first,
      then a tool name already handed out; otherwise the name is reserved and the
      source appended. */
  function Admit(s: Settings, st: State, src: DocSource): (r: Result<State, Error>)
    ensures r.Failure? <==> LocalMissing(s.env, src) || ToolNameOf(s, src) in st.toolNames
    ensures r.Failure? && LocalMissing(s.env, src) ==>
              r.error == FileNotFound(NormalizePath(s.env, src.llmsTxt))
    ensures r.Failure? && !LocalMissing(s.env, src) ==> r.error == DuplicateToolName(ToolNameOf(s, src))
    ensures r.Success? ==> ToolNameOf(s, src) !in st.toolNames
    ensures r.Success? ==> r.value.toolNames == st.toolNames + {ToolNameOf(s, src)}
    ensures r.Success? ==> r.value.registry == st.registry + [src]
    ensures r.Success? && Inv(s, st) ==> Inv(s, r.value)
  {
    if LocalMissing(s.env, src) then Failure(FileNotFound(NormalizePath(s.env, src.llmsTxt)))
    else
      var toolName := ToolNameOf(s, src);
      if toolName in st.toolNames then Failure(DuplicateToolName(toolName))
      else Success(State(st.toolNames + {toolName}, st.registry + [src]))
  }

  /** The record `add_doc_source` builds: the name always, the description only
      when one is given and it is not empty. */
  function NewRecord(name: string, url: string, description: Option<string>): (r: DocSource)
    ensures r.name == Some(name) && r.llmsTxt == url
    ensures r.description.Some? <==> description.Some? && description.value != ""
    ensures r.description.Some? ==> r.description == description
  {
    DocSource(Some(name), url, if description.Some? && description.value != "" then description else None)
  }

  /** What the startup loop over the configured sources reaches: the state when
      it stops, and the error that stopped it, if any. */
  datatype Run = Run(state: State, error: Option<Error>)

  function AdmitAll(s: Settings, st: State, docs: seq<DocSource>): Run
    decreases |docs|
  {
    if docs == [] then Run(st, None)
    else
      match Admit(s, st, docs[0])
      case Failure(e) => Run(st, Some(e))
      case Success(next) => AdmitAll(s, next, docs[1..])
  }

  /** The configured sources can all be registered: no local file is missing,
      and their tool names are new and pairwise distinct. */
  ghost predicate Admissible(s: Settings, st: State, docs: seq<DocSource>) {
    && (forall i :: 0 <= i < |docs| ==> !LocalMissing(s.env, docs[i]))
    && (forall i :: 0 <= i < |docs| ==> ToolNameOf(s, docs[i]) !in st.toolNames)
    && (forall i, j :: 0 <= i < j < |docs| ==> ToolNameOf(s, docs[i]) != ToolNameOf(s, docs[j]))
  }

  /** The tool names of a list of sources. */
  ghost function ToolNamesOf(s: Settings, docs: seq<DocSource>): set<string>
    decreases |docs|
  {
    if docs == [] then {} else {ToolNameOf(s, docs[0])} + ToolNamesOf(s, docs[1..])
  }

  /** After admitting the first configured source, the rest are admissible
      exactly when the whole list was. */
  lemma AdmissibleStep(s: Settings, st: State, next: State, docs: seq<DocSource>)
    requires docs != []
    requires Admit(s, st, docs[0]) == Success(next)
    ensures Admissible(s, st, docs) <==> Admissible(s, next, docs[1..])
  {
    var rest := docs[1..];
    if Admissible(s, st, docs) {
      forall i | 0 <= i < |rest| ensures ToolNameOf(s, rest[i]) !in next.toolNames {
        assert rest[i] == docs[i + 1];
      }
      forall i, j | 0 <= i < j < |rest| ensures ToolNameOf(s, rest[i]) != ToolNameOf(s, rest[j]) {
        assert rest[i] == docs[i + 1] && rest[j] == docs[j + 1];
      }
    }
    if Admissible(s, next, rest) {
      forall i | 0 <= i < |docs| ensures !LocalMissing(s.env, docs[i]) {
        if i > 0 { assert docs[i] == rest[i - 1]; }
      }
      forall i | 0 <= i < |docs| ensures ToolNameOf(s, docs[i]) !in st.toolNames {
        if i > 0 { assert docs[i] == rest[i - 1]; }
      }
      forall i, j | 0 <= i < j < |docs| ensures ToolNameOf(s, docs[i]) != ToolNameOf(s, docs[j]) {
        assert docs[j] == rest[j - 1];
        if i > 0 { assert docs[i] == rest[i - 1]; }
      }
    }
  }

  /** Startup succeeds exactly when the configured sources are admissible. */
  lemma {:induction false} AdmitAllSucceedsIff(s: Settings, st: State, docs: seq<DocSource>)
    ensures AdmitAll(s, st, docs).error.None? <==> Admissible(s, st, docs)
    decreases |docs|
  {
    if docs != [] {
      match Admit(s, st, docs[0])
      case Failure(e) =>
        assert LocalMissing(s.env, docs[0]) || ToolNameOf(s, docs[0]) in st.toolNames;
      case Success(next) =>
        AdmitAllSucceedsIff(s, next, docs[1..]);
        AdmissibleStep(s, st, next, docs);
    }
  }

  /** A successful startup registers every configured source, in order, and
      hands out exactly their tool names. */
  lemma {:induction false} AdmitAllSuccess(s: Settings, st: State, docs: seq<DocSource>)
    requires AdmitAll(s, st, docs).error.None?
    ensures AdmitAll(s, st, docs).state == State(st.toolNames + ToolNamesOf(s, docs), st.registry + docs)
    decreases |docs|
  {
    if docs != [] {
      var next := Admit(s, st, docs[0]).value;
      AdmitAllSuccess(s, next, docs[1..]);
      assert st.registry + [docs[0]] + docs[1..] == st.registry + docs;
    }
  }

  /** Whether it succeeds or stops early, startup keeps the invariant and only
      appends a prefix of the configured sources. */
  lemma {:induction false} AdmitAllKeepsInv(s: Settings, st: State, docs: seq<DocSource>)
    requires Inv(s, st)
    ensures Inv(s, AdmitAll(s, st, docs).state)
    ensures st.registry <= AdmitAll(s, st, docs).state.registry <= st.registry + docs
    decreases |docs|
  {
    if docs != [] && Admit(s, st, docs[0]).Success? {
      var next := Admit(s, st, docs[0]).value;
      AdmitAllKeepsInv(s, next, docs[1..]);
      assert st.registry + [docs[0]] + docs[1..] == st.registry + docs;
    }
  }

  // ---------------------------------------------------------------------------
  // Removing

  /** `remove_doc_source` accepts a tool name too: one leading `fetch_docs_` is
      dropped. */
  function StripToolPrefix(name: string): (r: string)
    ensures StartsWith(name, ToolPrefix) ==> ToolPrefix + r == name
    ensures !StartsWith(name, ToolPrefix) ==> r == name
  {
    if StartsWith(name, ToolPrefix) then name[|ToolPrefix|..] else name
  }

  /** Every record carries a name; otherwise `entry["name"]` raises. */
  predicate AllNamed(registry: seq<DocSource>) {
    forall i :: 0 <= i < |registry| ==> registry[i].name.Some?
  }

  /** The list comprehension of `remove_doc_source`: keep the records whose name
      differs from `name`. */
  function Filter(registry: seq<DocSource>, name: string): seq<DocSource> {
    if registry == [] then []
    else (if registry[0].name != Some(name) then [registry[0]] else []) + Filter(registry[1..], name)
  }

  /** A record survives exactly when it was registered and is not named `name`. */
  lemma {:induction false} FilterMembers(registry: seq<DocSource>, name: string)
    ensures forall e :: e in Filter(registry, name) <==> e in registry && e.name != Some(name)
    ensures |Filter(registry, name)| <= |registry|
  {
    if registry != [] {
      FilterMembers(registry[1..], name);
      assert forall e :: e in registry <==> e == registry[0] || e in registry[1..];
    }
  }

  /** Filtering works element by element, so the survivors keep their order. */
  lemma {:induction false} FilterConcat(a: seq<DocSource>, b: seq<DocSource>, name: string)
    ensures Filter(a + b, name) == Filter(a, name) + Filter(b, name)
  {
    if a != [] {
      assert (a + b)[1..] == a[1..] + b;
      FilterConcat(a[1..], b, name);
    } else {
      assert a + b == b;
    }
  }

  /** Removing by the same name a second time changes nothing. */
  lemma {:induction false} FilterIdempotent(registry: seq<DocSource>, name: string)
    ensures Filter(Filter(registry, name), name) == Filter(registry, name)
  {
    if registry != [] {
      var head := if registry[0].name != Some(name) then [registry[0]] else [];
      FilterConcat(head, Filter(registry[1..], name), name);
      FilterIdempotent(registry[1..], name);
      assert Filter(head, name) == head by {
        if head != [] { assert head[1..] == []; }
      }
    }
  }

  /** The invariant of a non-empty registry holds of its tail, whose tool names
      all differ from the head's. */
  lemma InvTail(s: Settings, names: set<string>, reg: seq<DocSource>)
    requires reg != [] && Inv(s, State(names, reg))
    ensures Inv(s, State(names, reg[1..]))
    ensures forall e :: e in reg[1..] ==> ToolNameOf(s, e) != ToolNameOf(s, reg[0])
  {
    var tail := reg[1..];
    forall i, j | 0 <= i < j < |tail| ensures ToolNameOf(s, tail[i]) != ToolNameOf(s, tail[j]) {
      assert tail[i] == reg[i + 1] && tail[j] == reg[j + 1];
    }
    forall e | e in tail ensures ToolNameOf(s, e) != ToolNameOf(s, reg[0]) {
      var m :| 0 <= m < |tail| && tail[m] == e;
      assert reg[m + 1] == e;
    }
  }

  /** Putting a source in front of a registry keeps the invariant when its tool
      name is handed out and used by no source behind it. */
  lemma InvCons(s: Settings, names: set<string>, x: DocSource, tail: seq<DocSource>)
    requires Inv(s, State(names, tail)) && ToolNameOf(s, x) in names
    requires forall e :: e in tail ==> ToolNameOf(s, e) != ToolNameOf(s, x)
    ensures Inv(s, State(names, [x] + tail))
  {
    var r := [x] + tail;
    forall i, j | 0 <= i < j < |r| ensures ToolNameOf(s, r[i]) != ToolNameOf(s, r[j]) {
      assert r[j] == tail[j - 1] && r[j] in tail;
      if i > 0 { assert r[i] == tail[i - 1]; }
    }
    forall i | 0 <= i < |r| ensures ToolNameOf(s, r[i]) in names {
      if i > 0 { assert r[i] == tail[i - 1]; }
    }
  }

  /** Removal keeps the invariant: survivors are registered sources, so their
      tool names are still handed out and still pairwise distinct. */
  lemma {:induction false} FilterKeepsInv(s: Settings, st: State, name: string)
    requires Inv(s, st)
    ensures Inv(s, State(st.toolNames, Filter(st.registry, name)))
    decreases |st.registry|
  {
    var reg := st.registry;
    if reg != [] {
      InvTail(s, st.toolNames, reg);
      FilterKeepsInv(s, State(st.toolNames, reg[1..]), name);
      FilterMembers(reg[1..], name);
      if reg[0].name != Some(name) {
        InvCons(s, st.toolNames, reg[0], Filter(reg[1..], name));
      }
    }
  }

  /** Removal keeps every record named, so a further removal cannot fail. */
  lemma FilterKeepsNames(registry: seq<DocSource>, name: string)
    requires AllNamed(registry)
    ensures AllNamed(Filter(registry, name))
  {
    FilterMembers(registry, name);
    var r := Filter(registry, name);
    forall i | 0 <= i < |r| ensures r[i].name.Some? {
      assert r[i] in registry;
    }
  }

  /** `tool_names` only grows: once its source is removed, a source cannot be
      registered again under the same tool name. */
  lemma ReAddAfterRemoveIsRejected(s: Settings, st: State, name: string, src: DocSource)
    requires Inv(s, st)
    requires src in st.registry
    ensures Admit(s, State(st.toolNames, Filter(st.registry, name)), src).Failure?
  {
    var i :| 0 <= i < |st.registry| && st.registry[i] == src;
  }

  /** Passing a source's tool name to `remove_doc_source` finds the source only
      when the tool name is the unchanged, untruncated name behind the prefix. */
  lemma RemoveByToolName(name: string, maxLength: int)
    requires forall i :: 0 <= i < |name| ==> !IsSeparator(name[i])
    requires maxLength <= 0 || maxLength >= |ToolPrefix| + |name|
    ensures StripToolPrefix(MakeToolName(name, maxLength)) == name
  {
    var t := MakeToolName(name, maxLength);
    assert t[|ToolPrefix|..] == name;
  }

  /** A name with a dot is not found again from its tool name. */
  lemma RemoveByToolNameMissesDottedName()
    ensures StripToolPrefix(MakeToolName("a.b", 0)) == "a_b"
  {
    var t := MakeToolName("a.b", 0);
    assert t[|ToolPrefix|..] == "a_b";
  }

  // ---------------------------------------------------------------------------
  // The server object

  /** The state `create_server` closes over: the set `tool_names` and the list
      `doc_sources_registry`, plus, as ghost state, the list last written to the
      JSON configuration file. */
  class DocServer {
    const settings: Settings
    var toolNames: set<string>
    var registry: seq<DocSource>
    ghost var saved: seq<DocSource>

    ghost predicate Valid()
      reads this
    {
      Inv(settings, State(toolNames, registry))
    }

    function Snapshot(): State
      reads this
    {
      State(toolNames, registry)
    }

    /** A server with nothing registered yet; `onDisk` is what the configuration
        file holds. */
    constructor (settings: Settings, ghost onDisk: seq<DocSource>)
      ensures Valid()
      ensures this.settings == settings && toolNames == {} && registry == [] && saved == onDisk
    {
      this.settings := settings;
      toolNames := {};
      registry := [];
      saved := onDisk;
    }

    /** `make_tool_from_doc_source`: register `src` and return its tool name. */
    method Register(src: DocSource) returns (res: Result<string, Error>)
      requires Valid()
      modifies this
      ensures Valid() && saved == old(saved)
      ensures var r := Admit(settings, old(Snapshot()), src);
        && (r.Failure? ==> res == Failure(r.error) && Snapshot() == old(Snapshot()))
        && (r.Success? ==> res == Success(ToolNameOf(settings, src)) && Snapshot() == r.value)
    {
      var url := src.llmsTxt;
      if !IsHttpOrHttps(url) {
        var absPath := NormalizePath(settings.env, url);
        if !settings.env.pathExists(absPath) {
          return Failure(FileNotFound(absPath));
        }
      }
      var toolName := ToolNameOf(settings, src);
      if toolName in toolNames {
        return Failure(DuplicateToolName(toolName));
      }
      toolNames := toolNames + {toolName};
      registry := registry + [src];
      res := Success(toolName);
    }

    /** The startup loop of `create_server`: register the configured sources in
        order, stopping at the first that fails. */
    method Seed(docs: seq<DocSource>) returns (err: Option<Error>)
      requires Valid()
      modifies this
      ensures Valid() && saved == old(saved)
      ensures Snapshot() == AdmitAll(settings, old(Snapshot()), docs).state
      ensures err == AdmitAll(settings, old(Snapshot()), docs).error
    {
      var i := 0;
      while i < |docs|
        invariant 0 <= i <= |docs|
        invariant Valid() && saved == old(saved)
        invariant AdmitAll(settings, Snapshot(), docs[i..]) == AdmitAll(settings, old(Snapshot()), docs)
      {
        assert docs[i..][0] == docs[i] && docs[i..][1..] == docs[i + 1..];
        var r := Register(docs[i]);
        if r.Failure? {
          return Some(r.error);
        }
        i := i + 1;
      }
      assert docs[i..] == [];
      err := None;
    }

    /** `add_doc_source`: register a new named source and save the registry. */
    method AddDocSource(name: string, url: string, description: Option<string>)
      returns (res: Result<string, Error>)
      requires Valid()
      modifies this
      ensures Valid()
      ensures var r := Admit(settings, old(Snapshot()), NewRecord(name, url, description));
        && (r.Failure? ==> res == Failure(r.error) && Snapshot() == old(Snapshot()) && saved == old(saved))
        && (r.Success? ==> res == Success("Added doc source: " + name) && Snapshot() == r.value
                           && saved == registry)
    {
      var src := NewRecord(name, url, description);
      var r := Register(src);
      if r.Failure? {
        return Failure(r.error);
      }
      saved := registry;
      res := Success("Added doc source: " + name);
    }

    /** `remove_doc_source`: drop every record named `name` (after stripping one
        `fetch_docs_`), keep the others in order, and save. The tool name stays
        handed out. A record without a name makes the whole call fail unchanged. */
    method RemoveDocSource(name: string) returns (res: Result<string, Error>)
      requires Valid()
      modifies this
      ensures Valid() && toolNames == old(toolNames)
      ensures res.Failure? <==> !AllNamed(old(registry))
      ensures res.Failure? ==> res.error == MissingName && registry == old(registry) && saved == old(saved)
      ensures res.Success? ==> registry == Filter(old(registry), StripToolPrefix(name)) && saved == registry
      ensures res.Success? ==> res.value == "Removed doc source: " + StripToolPrefix(name)
    {
      var n := StripToolPrefix(name);
      if !AllNamed(registry) {
        return Failure(MissingName);
      }
      FilterKeepsInv(settings, Snapshot(), n);
      registry := Filter(registry, n);
      saved := registry;
      res := Success("Removed doc source: " + n);
    }

    /** `list_doc_sources`: the registered records in registration order. */
    method ListDocSources() returns (sources: seq<DocSource>)
      ensures sources == registry
    {
      sources := registry;
    }
  }

  /** Removing twice by the same name leaves the registry as removing once, and
      the second call succeeds as well. */
  lemma RemoveTwiceIsRemoveOnce(registry: seq<DocSource>, name: string)
    requires AllNamed(registry)
    ensures AllNamed(Filter(registry, StripToolPrefix(name)))
    ensures Filter(Filter(registry, StripToolPrefix(name)), StripToolPrefix(name))
            == Filter(registry, StripToolPrefix(name))
  {
    FilterKeepsNames(registry, StripToolPrefix(name));
    FilterIdempotent(registry, StripToolPrefix(name));
  }
}
