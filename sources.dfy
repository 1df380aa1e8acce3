/** Documentation sources and the pure parts of `create_server` in mcpdoc/main.py:
    classifying a location as remote or local, deriving the display name and the
    tool name of a source, and the allow-list that guards every remote fetch. */
module Sources {
  import opened Wrappers

  /** A documentation source. `name` and `description` are keys a record may lack;
      `llmsTxt` is a URL, a filesystem path or a `file://` URI. */
  datatype DocSource = DocSource(name: Option<string>, llmsTxt: string, description: Option<string>)

  /** What the process environment answers and this model does not interpret:
      the `scheme://netloc/` of a URL (`extract_domain`, built on `urlparse`),
      `os.path.abspath` and `os.path.exists`. */
  datatype Environment = Environment(
    extractDomain: string -> string,
    absPath: string -> string,
    pathExists: string -> bool)

  /** The arguments `create_server` closes over. A `maxToolNameLength` of zero or
      less means tool names are not truncated. */
  datatype Settings = Settings(env: Environment, allowedDomains: seq<string>, maxToolNameLength: int)

  const ToolPrefix: string := "fetch_docs_"
  const FileScheme: string := "file://"
  const NotAllowedPrefix: string := "Error: URL not allowed. Must start with one of the following domains: "

  // ---------------------------------------------------------------------------
  // Classification and paths

  /** Python's `s.startswith(p)`. */
  predicate StartsWith(s: string, p: string) {
    p <= s
  }

  /** A location is remote exactly when it starts with `http:` or `https:`. */
  predicate IsHttpOrHttps(url: string): (r: bool)
    ensures r <==> |url| >= 5 && url[..4] == "http" && (url[4] == ':' || (url[4] == 's' && |url| >= 6 && url[5] == ':'))
  {
    StartsWith(url, "http:") || StartsWith(url, "https:")
  }

  /** `_normalize_path`: drop a leading `file://`, then make the path absolute. */
  function NormalizePath(env: Environment, path: string): string {
    if StartsWith(path, FileScheme) then env.absPath(path[|FileScheme|..]) else env.absPath(path)
  }

  lemma NormalizePathStripsFileScheme(env: Environment, p: string)
    ensures NormalizePath(env, FileScheme + p) == env.absPath(p)
    ensures !StartsWith(p, FileScheme) ==> NormalizePath(env, p) == env.absPath(p)
  {
    assert (FileScheme + p)[|FileScheme|..] == p;
  }

  // ---------------------------------------------------------------------------
  // Tool naming

  predicate IsSeparator(c: char) {
    c == ' ' || c == '.' || c == '/'
  }

  /** The character a name character becomes in a tool name. */
  function Sanitize(c: char): char {
    if IsSeparator(c) then '_' else c
  }

  /** Python's `str.replace` for one character by another. */
  function Replace(s: string, a: char, b: char): (r: string)
    ensures |r| == |s|
    ensures forall i :: 0 <= i < |s| ==> r[i] == (if s[i] == a then b else s[i])
  {
    if s == [] then [] else [if s[0] == a then b else s[0]] + Replace(s[1..], a, b)
  }

  /** The three chained replacements of `make_tool_name`: spaces, dots and
      slashes become underscores, one character for one. */
  function NormalizeName(name: string): (r: string)
    ensures |r| == |name|
    ensures forall i :: 0 <= i < |name| ==> r[i] == Sanitize(name[i])
    ensures forall i :: 0 <= i < |r| ==> !IsSeparator(r[i])
  {
    Replace(Replace(Replace(name, ' ', '_'), '.', '_'), '/', '_')
  }

  function Min(a: int, b: int): int {
    if a <= b then a else b
  }

  /** `make_tool_name`: the prefixed, normalized name, cut to `maxLength`
      characters when `maxLength` is positive. */
  function MakeToolName(name: string, maxLength: int): (r: string)
    ensures r <= ToolPrefix + NormalizeName(name)
    ensures maxLength > 0 ==> |r| == Min(maxLength, |ToolPrefix| + |name|)
    ensures maxLength <= 0 ==> |r| == |ToolPrefix| + |name|
    ensures maxLength <= 0 || maxLength >= |ToolPrefix| ==> ToolPrefix <= r
    ensures forall i :: |ToolPrefix| <= i < |r| ==>
              r[i] == Sanitize(name[i - |ToolPrefix|]) && !IsSeparator(r[i])
  {
    var base := ToolPrefix + NormalizeName(name);
    if maxLength > 0 && maxLength < |base| then base[..maxLength] else base
  }

  /** A limit no longer than the prefix leaves nothing of the name, so every
      source collides with every other one. */
  lemma ShortLimitCollapsesNames(a: string, b: string, maxLength: int)
    requires 0 < maxLength <= |ToolPrefix|
    ensures MakeToolName(a, maxLength) == MakeToolName(b, maxLength) == ToolPrefix[..maxLength]
  {
    var ra, rb := MakeToolName(a, maxLength), MakeToolName(b, maxLength);
    assert ra <= ToolPrefix + NormalizeName(a) && |ra| == maxLength;
    assert rb <= ToolPrefix + NormalizeName(b) && |rb| == maxLength;
    assert ra == (ToolPrefix + NormalizeName(a))[..maxLength] == ToolPrefix[..maxLength];
    assert rb == (ToolPrefix + NormalizeName(b))[..maxLength] == ToolPrefix[..maxLength];
  }

  /** Names that differ only where one has a separator and the other an
      underscore map to the same tool name. */
  lemma {:induction false} SeparatorsCollide(a: string, b: string, maxLength: int)
    requires |a| == |b|
    requires forall i :: 0 <= i < |a| ==> Sanitize(a[i]) == Sanitize(b[i])
    ensures MakeToolName(a, maxLength) == MakeToolName(b, maxLength)
  {
    assert NormalizeName(a) == NormalizeName(b);
  }

  // ---------------------------------------------------------------------------
  // Resolving a source into a tool

  /** The name a source's tool is derived from: its own name when the record has
      one, otherwise the URL's domain (remote) or the normalized path (local). */
  function DisplayName(env: Environment, src: DocSource): string {
    if IsHttpOrHttps(src.llmsTxt) then src.name.GetOr(env.extractDomain(src.llmsTxt))
    else src.name.GetOr(NormalizePath(env, src.llmsTxt))
  }

  function ToolNameOf(s: Settings, src: DocSource): string {
    MakeToolName(DisplayName(s.env, src), s.maxToolNameLength)
  }

  /** A local source whose normalized path does not exist cannot be registered. */
  predicate LocalMissing(env: Environment, src: DocSource) {
    !IsHttpOrHttps(src.llmsTxt) && !env.pathExists(NormalizePath(env, src.llmsTxt))
  }

  datatype Kind = Remote | Local

  /** A tool as it is bound on the server: its name, its description, which of the
      two handlers serves it and the URL or absolute path that handler reads. */
  datatype Tool = Tool(name: string, description: string, kind: Kind, fixedPath: string)

  function ResolveTool(s: Settings, src: DocSource): (t: Tool)
    ensures t.kind == Remote <==> IsHttpOrHttps(src.llmsTxt)
    ensures t.kind == Remote ==> t.fixedPath == src.llmsTxt
    ensures t.kind == Local ==> t.fixedPath == NormalizePath(s.env, src.llmsTxt)
    ensures t.name == ToolNameOf(s, src)
    ensures src.name.Some? ==> t.name == MakeToolName(src.name.value, s.maxToolNameLength)
  {
    var name := DisplayName(s.env, src);
    if IsHttpOrHttps(src.llmsTxt) then
      Tool(ToolNameOf(s, src), "Fetch and return documentation content for: " + name, Remote, src.llmsTxt)
    else
      Tool(ToolNameOf(s, src), "Fetch and return documentation content for " + name, Local,
           NormalizePath(s.env, src.llmsTxt))
  }

  // ---------------------------------------------------------------------------
  // The allow-list of the remote handler

  /** Whether some allowed domain is a string prefix of `path` (the `any(...)`). */
  function AnyPrefix(path: string, domains: seq<string>): (r: bool)
    ensures r <==> exists d :: d in domains && StartsWith(path, d)
  {
    if domains == [] then false
    else
      StartsWith(path, domains[0]) || AnyPrefix(path, domains[1..])
  }

  /** A remote fetch of `path` may go ahead: the wildcard is allowed, or some
      allowed domain is a plain string prefix of `path`. */
  function DomainAllowed(path: string, domains: seq<string>): (r: bool)
    ensures r <==> "*" in domains || exists d :: d in domains && StartsWith(path, d)
  {
    "*" in domains || AnyPrefix(path, domains)
  }

  /** Python's `sep.join(xs)`. */
  function Join(xs: seq<string>, sep: string): string {
    if |xs| == 0 then "" else if |xs| == 1 then xs[0] else xs[0] + sep + Join(xs[1..], sep)
  }

  /** What invoking a bound tool does: refuse with the allow-list message, fetch
      a URL over HTTP, or read a local file. */
  datatype Outcome = Denied(message: string) | HttpGet(url: string) | ReadFile(path: string)

  /** The two `tool_fn` handlers, with the network and the file system left out. */
  function Invoke(allowedDomains: seq<string>, t: Tool): (o: Outcome)
    ensures t.kind == Local ==> o == ReadFile(t.fixedPath)
    ensures t.kind == Remote ==>
              (o.HttpGet? <==> "*" in allowedDomains || exists d :: d in allowedDomains && StartsWith(t.fixedPath, d))
    ensures o.HttpGet? ==> o.url == t.fixedPath
    ensures o.Denied? ==> t.kind == Remote && o.message == NotAllowedPrefix + Join(allowedDomains, ", ")
    ensures t.kind == Remote && !DomainAllowed(t.fixedPath, allowedDomains) ==>
              o == Denied(NotAllowedPrefix + Join(allowedDomains, ", "))
  {
    match t.kind
    case Local => ReadFile(t.fixedPath)
    case Remote =>
      if !DomainAllowed(t.fixedPath, allowedDomains) then
        Denied(NotAllowedPrefix + Join(allowedDomains, ", "))
      else
        HttpGet(t.fixedPath)
  }

  /** The domain of the source's own URL is not added to the allow-list: with an
      empty allow-list every remote tool is refused. */
  lemma OwnDomainNotImplicitlyAllowed(s: Settings, src: DocSource)
    requires IsHttpOrHttps(src.llmsTxt)
    ensures Invoke([], ResolveTool(s, src)) == Denied(NotAllowedPrefix)
  {
  }

  /** The prefix test on a few URLs, and its known weakness:
      an allowed entry without a trailing slash admits a look-alike host. */
  lemma DomainPolicyExamples(url: string)
    ensures DomainAllowed("https://example.com/docs", ["https://example.com/"])
    ensures !DomainAllowed("https://evil.com/", ["https://example.com/"])
    ensures DomainAllowed(url, ["*"])
    ensures DomainAllowed("https://example.com.evil.net/", ["https://example.com"])
  {
    assert "https://example.com/" <= "https://example.com/docs";
    assert "https://example.com" <= "https://example.com.evil.net/";
    assert "https://evil.com/"[9] != "https://example.com/"[9];
  }
}
