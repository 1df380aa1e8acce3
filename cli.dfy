/** The source list of the command line in mcpdoc/cli.py: parsing `--urls`
    entries of the form `url_or_path` or `name:url_or_path` into documentation
    sources, and merging them after the sources loaded from the JSON file. */
module Cli {
  import opened Wrappers
  import opened Sources

  // ---------------------------------------------------------------------------
  // Python's str.strip()

  /** The characters Python's `str.strip()` removes when given no argument. */
  predicate IsSpace(c: char) {
    var n := c as int;
    || (9 <= n <= 13) || (28 <= n <= 32) || n == 0x85 || n == 0xA0 || n == 0x1680
    || (0x2000 <= n <= 0x200A) || n == 0x2028 || n == 0x2029 || n == 0x202F
    || n == 0x205F || n == 0x3000
  }

  predicate AllSpace(s: string) {
    forall i :: 0 <= i < |s| ==> IsSpace(s[i])
  }

  /** `s` without its leading whitespace. */
  function TrimStart(s: string): (r: string)
    ensures |r| <= |s| && r == s[|s| - |r|..]
    ensures forall i :: 0 <= i < |s| - |r| ==> IsSpace(s[i])
    ensures r != [] ==> !IsSpace(r[0])
  {
    if s != [] && IsSpace(s[0]) then TrimStart(s[1..]) else s
  }

  /** `s` without its trailing whitespace. */
  function TrimEnd(s: string): (r: string)
    ensures |r| <= |s| && r == s[..|r|]
    ensures forall i :: |r| <= i < |s| ==> IsSpace(s[i])
    ensures r != [] ==> !IsSpace(r[|r| - 1])
  {
    if s != [] && IsSpace(s[|s| - 1]) then TrimEnd(s[..|s| - 1]) else s
  }

  function Strip(s: string): string {
    TrimEnd(TrimStart(s))
  }

  /** An entry strips to nothing exactly when it is all whitespace. */
  lemma StripEmptyIff(s: string)
    ensures Strip(s) == [] <==> AllSpace(s)
  {
    var t := TrimStart(s);
    assert t != [] ==> t[0] == s[|s| - |t|];
  }

  // ---------------------------------------------------------------------------
  // Parsing one entry

  /** The index of the first `c` in `s`, or `|s|` when there is none. */
  function FirstIndexOf(s: string, c: char): (k: nat)
    ensures k <= |s|
    ensures forall i :: 0 <= i < k ==> s[i] != c
    ensures k < |s| ==> s[k] == c
    ensures k == |s| <==> c !in s
  {
    if s == [] then 0
    else if s[0] == c then 0
    else 1 + FirstIndexOf(s[1..], c)
  }

  /** Python's `s.split(c, 1)` on a string holding `c`: the part before the
      first `c` has no `c`, and the two parts around it give back `s`. */
  lemma SplitAtFirst(s: string, c: char)
    requires c in s
    ensures var k := FirstIndexOf(s, c);
      k < |s| && c !in s[..k] && s[..k] + [c] + s[k + 1..] == s
  {
    var k := FirstIndexOf(s, c);
    assert s[..k] + [c] + s[k + 1..] == s[..k] + s[k..];
    assert s[..k] + s[k..] == s;
  }

  /** One `--urls` entry: nothing for a blank entry; a name-less source for a
      URL or an entry without `:`; otherwise a name and a location split at the
      first `:`. */
  function ParseEntry(entry: string): (r: Option<DocSource>)
    ensures r.None? <==> AllSpace(entry)
    ensures r.Some? ==> r.value.description.None?
    ensures !AllSpace(entry) && (IsHttpOrHttps(entry) || ':' !in entry) ==>
              r == Some(DocSource(None, entry, None))
    ensures !AllSpace(entry) && !IsHttpOrHttps(entry) && ':' in entry ==>
              && r.Some? && r.value.name.Some?
              && ':' !in r.value.name.value
              && r.value.name.value + ":" + r.value.llmsTxt == entry
  {
    StripEmptyIff(entry);
    if Strip(entry) == [] then None
    else if ':' in entry && !IsHttpOrHttps(entry) then
      var k := FirstIndexOf(entry, ':');
      SplitAtFirst(entry, ':');
      Some(DocSource(Some(entry[..k]), entry[k + 1..], None))
    else
      Some(DocSource(None, entry, None))
  }

  /** The sources one entry contributes: none or one. */
  function ParseOne(entry: string): seq<DocSource> {
    match ParseEntry(entry)
    case None => []
    case Some(d) => [d]
  }

  /** The sources `create_doc_sources_from_urls` returns for `urls`. */
  function ParseUrls(urls: seq<string>): seq<DocSource>
    decreases |urls|
  {
    if urls == [] then [] else ParseUrls(urls[..|urls| - 1]) + ParseOne(urls[|urls| - 1])
  }

  /** Parsing is entry by entry: the output follows the input's order. */
  lemma {:induction false} ParseUrlsConcat(a: seq<string>, b: seq<string>)
    ensures ParseUrls(a + b) == ParseUrls(a) + ParseUrls(b)
    decreases |b|
  {
    if b == [] {
      assert a + b == a;
    } else {
      var b' := b[..|b| - 1];
      assert (a + b)[..|a + b| - 1] == a + b';
      assert (a + b)[|a + b| - 1] == b[|b| - 1];
      ParseUrlsConcat(a, b');
    }
  }

  /** Every entry yields at most one source, and exactly one unless blank. */
  lemma {:induction false} ParseUrlsLength(urls: seq<string>)
    ensures |ParseUrls(urls)| <= |urls|
    ensures (forall i :: 0 <= i < |urls| ==> !AllSpace(urls[i])) ==> |ParseUrls(urls)| == |urls|
    decreases |urls|
  {
    if urls != [] {
      var init := urls[..|urls| - 1];
      ParseUrlsLength(init);
      assert |ParseOne(urls[|urls| - 1])| == (if AllSpace(urls[|urls| - 1]) then 0 else 1);
      if forall i :: 0 <= i < |urls| ==> !AllSpace(urls[i]) {
        assert forall i :: 0 <= i < |init| ==> init[i] == urls[i];
      }
    }
  }

  /** `create_doc_sources_from_urls`. */
  method CreateDocSourcesFromUrls(urls: seq<string>) returns (docSources: seq<DocSource>)
    ensures docSources == ParseUrls(urls)
  {
    docSources := [];
    for i := 0 to |urls|
      invariant docSources == ParseUrls(urls[..i])
    {
      assert urls[..i + 1][..i] == urls[..i];
      var entry := urls[i];
      StripEmptyIff(entry);
      if Strip(entry) == [] {
        continue;
      }
      if ':' in entry && !IsHttpOrHttps(entry) {
        var k := FirstIndexOf(entry, ':');
        docSources := docSources + [DocSource(Some(entry[..k]), entry[k + 1..], None)];
      } else {
        docSources := docSources + [DocSource(None, entry, None)];
      }
    }
    assert urls[..|urls|] == urls;
  }

  // ---------------------------------------------------------------------------
  // Merging with the sources of the JSON file

  /** `loaded`, then each of `fromUrls` that is not already present. */
  function Merged(loaded: seq<DocSource>, fromUrls: seq<DocSource>): seq<DocSource>
    decreases |fromUrls|
  {
    if fromUrls == [] then loaded
    else
      var m := Merged(loaded, fromUrls[..|fromUrls| - 1]);
      var d := fromUrls[|fromUrls| - 1];
      if d in m then m else m + [d]
  }

  /** The loaded sources come first, unchanged; the appended ones are new and
      pairwise distinct; and nothing is lost or invented. */
  lemma {:induction false} MergedSpec(loaded: seq<DocSource>, fromUrls: seq<DocSource>)
    ensures var m := Merged(loaded, fromUrls);
      && |loaded| <= |m| <= |loaded| + |fromUrls|
      && m[..|loaded|] == loaded
      && (forall e :: e in m <==> e in loaded || e in fromUrls)
      && (forall i, j :: |loaded| <= i < |m| && 0 <= j < i ==> m[i] != m[j])
    decreases |fromUrls|
  {
    if fromUrls != [] {
      var init := fromUrls[..|fromUrls| - 1];
      var d := fromUrls[|fromUrls| - 1];
      MergedSpec(loaded, init);
      assert forall e :: e in fromUrls <==> e in init || e == d;
      var m := Merged(loaded, init);
      if d !in m {
        var m' := m + [d];
        assert m'[..|loaded|] == m[..|loaded|];
        forall i, j | |loaded| <= i < |m'| && 0 <= j < i ensures m'[i] != m'[j] {
          if i == |m| {
            assert m'[j] == m[j] && m[j] in m;
          }
        }
      }
    }
  }

  /** The merge loop of `main`: the loaded sources, then the URL sources not
      already present. */
  method MergeSources(loaded: seq<DocSource>, urls: seq<string>) returns (docSources: seq<DocSource>)
    ensures docSources == Merged(loaded, ParseUrls(urls))
  {
    docSources := loaded;
    var fromUrls := CreateDocSourcesFromUrls(urls);
    for i := 0 to |fromUrls|
      invariant docSources == Merged(loaded, fromUrls[..i])
    {
      assert fromUrls[..i + 1][..i] == fromUrls[..i];
      var d := fromUrls[i];
      if d !in docSources {
        docSources := docSources + [d];
      }
    }
    assert fromUrls[..|fromUrls|] == fromUrls;
  }
}
