# mcpdoc documentation-source registry, in Dafny

mcpdoc is a server that publishes documentation to an agent as tools. Each
documentation source is a record with an optional `name`, an `llms_txt`
location and an optional `description`. The location is a URL, a path, or a
`file://` URI. Each source becomes a tool named `fetch_docs_<name>`. Three more
tools add, remove and list sources while the server runs. A remote tool only
fetches URLs that pass an allow-list of domain prefixes.

This project models two parts of the repository:

- The registry inside `create_server` (mcpdoc/main.py). Its state is the set
  `tool_names` and the ordered list `doc_sources_registry`.
- The command-line source list (mcpdoc/cli.py). This covers parsing of
  `--urls` entries and merging them after the sources loaded from JSON.

Files:

- `wrappers.dfy`: module `Wrappers`, with `Option` (for a record key that may
  be absent) and `Result` (for a raised exception).
- `sources.dfy`: module `Sources`, holding the pure functions of main.py:
  - classifying a location as remote or local (`IsHttpOrHttps`) and
    normalizing a path;
  - `make_tool_name`;
  - the display name and the tool derived from a source;
  - the allow-list predicate and what invoking a tool does.
- `registry.dfy`: module `Registry`:
  - the registry as a value (`State`), with its invariant `Inv`;
  - `Admit`, which describes adding one source;
  - `AdmitAll`, which describes the startup loop;
  - `Filter`, which describes removal, with the lemmas about each;
  - class `DocServer`, which holds `toolNames` and `registry` as fields and
    changes them in place. A ghost field `saved` holds the list last written
    to the JSON file.
- `cli.dfy`: module `Cli`:
  - Python's `str.strip()` and `split(":", 1)`;
  - the parser of one entry and of the whole list, as spec functions and as a
    loop method;
  - the duplicate-free merge, as a spec function and as a loop method.

Some things are not interpreted, because they come from the operating system
or a library: `extract_domain` (built on `urlparse`), `os.path.abspath` and
`os.path.exists`. They are function-valued fields of `Sources.Environment`,
which the caller supplies.

Four places where the code does something other than one might expect; the
model follows the code:

- **Removal removes every match, not only the first.** `remove_doc_source`
  filters the whole list (mcpdoc/main.py:188).
- **Removal never shrinks `tool_names`.** So the set of handed-out tool names
  is not always equal to the registry's tool names. The invariant proved is
  weaker: every registered source's tool name has been handed out, and no
  two registered sources share a tool name. `ReAddAfterRemoveIsRejected`
  shows the consequence: a removed source cannot be added again.
- **The allow-list is used exactly as passed.** The docstring of
  `create_server` (mcpdoc/main.py:72-75) says the source's own domain is
  always allowed. The code never adds it. `OwnDomainNotImplicitlyAllowed`
  states this.
- **The default display name is not stored.** It is used for the tool name
  and the tool description (mcpdoc/main.py:117-119, 124-126), but the record
  appended to the registry is the one passed in (mcpdoc/main.py:167). A record stored without a name later
  makes `remove_doc_source` raise `KeyError` at mcpdoc/main.py:188. This is
  modelled as the `MissingName` error, which leaves everything unchanged.

## Model

| member | source | states |
|---|---|---|
| Sources.IsHttpOrHttps | mcpdoc/main.py:40-42 | a location is remote iff its first characters are `http:` or `https:`, character by character; every other string is local |
| Sources.NormalizePathStripsFileScheme | mcpdoc/main.py:46-52 | a `file://` location is made absolute without its scheme; any other path is made absolute as it is |
| Sources.Replace | mcpdoc/main.py:109 | replacing one character keeps the length and changes exactly the positions that held that character |
| Sources.NormalizeName | mcpdoc/main.py:109 | the three chained replacements map each character of the name to itself or `_`, one for one, and leave no space, dot or slash |
| Sources.MakeToolName | mcpdoc/main.py:107-112 | the tool name is a prefix of `fetch_docs_` + normalized name; with a positive limit its length is the smaller of the limit and the full length; with a limit of zero or less it is the full name; every character after the prefix is the sanitized name character and not a space, dot or slash |
| Sources.ShortLimitCollapsesNames | mcpdoc/main.py:107-112 | with a limit of at most 11, every name gives the same tool name, a prefix of `fetch_docs_` |
| Sources.SeparatorsCollide | mcpdoc/main.py:109 | names that agree up to separators versus underscores give the same tool name |
| Sources.ResolveTool | mcpdoc/main.py:115-128 | a source is served by the remote handler iff its location starts with `http:` or `https:`; the remote handler fetches the location as given, the local one reads the normalized path; the tool name comes from the record's name when it has one |
| Sources.AnyPrefix | mcpdoc/main.py:138 | true iff some allowed domain is a string prefix of the path |
| Sources.DomainAllowed | mcpdoc/main.py:138 | true iff `*` is allowed or some allowed domain is a string prefix of the path |
| Sources.Invoke | mcpdoc/main.py:134-163 | a local tool reads its path; a remote tool fetches its URL iff the allow-list admits it, otherwise it answers with the "URL not allowed" text listing the allowed domains |
| Sources.OwnDomainNotImplicitlyAllowed | mcpdoc/main.py:138-142 | with an empty allow-list every remote tool is refused, its own domain included |
| Sources.DomainPolicyExamples | mcpdoc/main.py:138-142 | `https://example.com/` admits `https://example.com/docs` but not `https://evil.com/`; `*` admits everything; an entry without a trailing slash admits a look-alike host |
| Registry.Admit | mcpdoc/main.py:96-132 | adding fails iff the local file is missing (that error first) or the tool name was handed out before; on failure nothing changes; on success exactly the new tool name is added, the source is appended with earlier entries unchanged, and the invariant is kept |
| Registry.NewRecord | mcpdoc/main.py:173-175 | the record built by `add_doc_source` has the name and location, and a description iff a non-empty one was given |
| Registry.AdmitAllSucceedsIff | mcpdoc/main.py:169-170 | startup succeeds iff no local file is missing and the tool names are new and pairwise distinct |
| Registry.AdmitAllSuccess | mcpdoc/main.py:169-170 | a successful startup registers all sources in order and hands out exactly their tool names |
| Registry.AdmitAllKeepsInv | mcpdoc/main.py:169-170 | startup keeps the invariant and appends a prefix of the configured sources, even when it stops early |
| Registry.StripToolPrefix | mcpdoc/main.py:185-186 | one leading `fetch_docs_` is dropped, and nothing else changes |
| Registry.FilterMembers | mcpdoc/main.py:188 | a record survives removal iff it was registered and is not named by the argument; the list does not grow |
| Registry.FilterConcat | mcpdoc/main.py:188 | removal works element by element, so the survivors keep their relative order |
| Registry.FilterIdempotent | mcpdoc/main.py:188 | removing by the same name twice gives the same list as removing once |
| Registry.FilterKeepsInv | mcpdoc/main.py:183-191 | after removal every registered tool name is still handed out and they are still pairwise distinct |
| Registry.FilterKeepsNames | mcpdoc/main.py:188 | if every record had a name before removal, every record has one after |
| Registry.ReAddAfterRemoveIsRejected | mcpdoc/main.py:130-132 | after a removal, a source that was registered cannot be added again, because its tool name is still handed out |
| Registry.RemoveByToolName | mcpdoc/main.py:185-188 | passing a tool name to removal gives back the source's name when the name has no separators and was not truncated |
| Registry.RemoveByToolNameMissesDottedName | mcpdoc/main.py:185-188 | the tool name of `a.b` strips to `a_b`, so removal by tool name misses that source |
| Registry.RemoveTwiceIsRemoveOnce | mcpdoc/main.py:183-191 | a second removal by the same argument succeeds and leaves the registry as the first removal did |
| Registry.DocServer.constructor | mcpdoc/main.py:93-94 | the server starts with no tool names and an empty registry |
| Registry.DocServer.Register | mcpdoc/main.py:96-167 | registering a source returns its tool name or the error, and changes the state exactly as `Admit` describes |
| Registry.DocServer.Seed | mcpdoc/main.py:169-170 | the startup loop reaches the state and the first error described by `AdmitAll` |
| Registry.DocServer.AddDocSource | mcpdoc/main.py:172-179 | adds the record built from name, url and description; on success it saves the new registry and confirms; on failure it changes nothing and saves nothing |
| Registry.DocServer.RemoveDocSource | mcpdoc/main.py:183-191 | fails and changes nothing iff some record has no name; otherwise the registry becomes the filter by the stripped name and is saved; `toolNames` is never changed; the invariant is kept |
| Registry.DocServer.ListDocSources | mcpdoc/main.py:196-197 | returns the registered records in registration order |
| Cli.TrimStart | mcpdoc/cli.py:148 | the result is a suffix of the input, everything dropped is whitespace, and the result does not start with whitespace |
| Cli.TrimEnd | mcpdoc/cli.py:148 | the result is a prefix of the input, everything dropped is whitespace, and the result does not end with whitespace |
| Cli.StripEmptyIff | mcpdoc/cli.py:148-149 | an entry strips to the empty string iff it is all whitespace |
| Cli.FirstIndexOf | mcpdoc/cli.py:152 | the index of the first occurrence of the character, or the length when there is none |
| Cli.SplitAtFirst | mcpdoc/cli.py:152 | splitting at the first colon gives a part without a colon, and the two parts joined by the colon give back the entry |
| Cli.ParseEntry | mcpdoc/cli.py:147-156 | a blank entry gives nothing; an http(s) entry or one without a colon gives a name-less source with the entry unchanged; any other entry gives `name` and `llms_txt` with no colon in the name and `name + ":" + llms_txt` equal to the entry |
| Cli.ParseUrlsConcat | mcpdoc/cli.py:146-157 | the sources parsed from two lists one after the other are the sources of each list, in order |
| Cli.ParseUrlsLength | mcpdoc/cli.py:146-157 | the output is no longer than the input, and exactly as long when no entry is blank |
| Cli.CreateDocSourcesFromUrls | mcpdoc/cli.py:136-157 | the loop with `continue` returns exactly the parsed list |
| Cli.MergedSpec | mcpdoc/cli.py:196-201 | the loaded sources come first, unchanged and in order; each appended source is new and differs from every earlier one; every source of the result comes from one of the two lists, and every source of either list appears in the result |
| Cli.MergeSources | mcpdoc/cli.py:196-201 | the merge loop returns the loaded sources followed by the URL sources not already present |

## Left out

- Fetching over HTTP with `httpx`, the timeout, `follow_redirects`, and the
  HTML-to-Markdown conversion (mcpdoc/main.py:143-148, 160). `Sources.Invoke`
  returns `HttpGet(url)` where the fetch starts. These are network I/O and
  calls into libraries.
- Reading a local file and its error text (mcpdoc/main.py:157-162).
  `Sources.Invoke` returns `ReadFile(path)`.
- `extract_domain`, `os.path.abspath` and `os.path.exists` are
  uninterpreted functions in `Sources.Environment`. A `urlparse` failure is
  not modelled. In the source, `extract_domain` is evaluated even when the
  record has a name (mcpdoc/main.py:117).
- The FastMCP host:
  - construction, and `server.tool` registration with the tool description;
  - `server.remove_tool`, and the change notifications.

  `Sources.ResolveTool` computes the tool the host would register. The
  host's set of tools is not kept. Nor is its reaction when `remove_tool` is
  called with the un-normalized `fetch_docs_<name>` (mcpdoc/main.py:189).
  The model treats that call as succeeding.
- `mcpdoc/utils.py` (JSON load and save, `sys.exit` on failure) is not part
  of this model. Saving is only recorded as the ghost field
  `DocServer.saved`. A failed save, and a save to a missing config path when
  only `--urls` was given, are not modelled.
- `allowed_domains` of `None`, which makes the remote handler raise
  (mcpdoc/main.py:138). The model takes a list.
- JSON records with extra keys or non-string values. Records are compared
  as the three-field `DocSource`, as Python compares the dicts.
- `parse_args`, the help and splash output, the "at least one of `--json`
  or `--urls`" check, and `server.run` (mcpdoc/cli.py:160-193, 203-231).
  This is command-line and transport plumbing.
- The file-existence answer is fixed for a server's lifetime: `pathExists`
  is part of the server's constant settings, whereas the source asks
  `os.path.exists` afresh on every add (mcpdoc/main.py:104). No proved
  property depends on two adds seeing different file systems.
- Concurrency of tool invocations. Every operation is sequential here.
- After a startup error, `DocServer.Seed` describes the state it reached: the
  partial registry. In the source, that error aborts `create_server`, so
  that registry is never used.
