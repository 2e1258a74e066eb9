/**
 * The model list of the CLI and the choice of a default model, as both
 * servers do it (cmd/mcpserver/main.go, fetchAvailableModels and
 * getDefaultModel; cmd/mcpstdio/main.go, the functions of the same names):
 * the output of `models` is parsed into ids, cached for a time-to-live, and
 * searched in a fixed order of preference. The clock is the parameter `now`
 * and the output of the `models` command is a parameter too.
 */
module Models {
  import opened Wrappers
  import opened Text

  /** The models both servers prefer, best first. */
  const PreferredModels: seq<string> := [
    "github-copilot/gpt-5.2-codex",
    "github-copilot/gpt-5.1-codex",
    "github-copilot/gpt-4o",
    "github-copilot/gpt-4.1"]

  const CopilotPrefix: string := "github-copilot/"

  /** The stdio server's fallback; the HTTP server's is configurable and defaults to it. */
  const FallbackModel: string := "github-copilot/gpt-5.2-codex"

  /** Five minutes, in the nanoseconds of Go's time.Duration. */
  const CacheTtl: int := 5 * 60 * 1000000000

  // -----------------------------------------------------------------------
  // Parsing the output of `models`

  /**
   * The model id one output line contributes: the first field of the
   * trimmed line, unless the line is blank or a `#` comment, or (on the HTTP
   * server, `skipHeading`) starts with "Available".
   */
  function LineModel(line: string, skipHeading: bool): (m: Option<string>)
    ensures m.Some? ==> m.value != "" && forall k :: 0 <= k < |m.value| ==> !IsSpace(m.value[k])
    ensures m.Some? <==>
      var t := TrimSpace(line);
      t != "" && !HasPrefix(t, "#") && !(skipHeading && HasPrefix(t, "Available"))
  {
    var t := TrimSpace(line);
    if t != "" && !HasPrefix(t, "#") && !(skipHeading && HasPrefix(t, "Available")) then
      Some(FirstField(t))
    else None
  }

  /** The ids one line adds to the list: none or one. */
  function LineModels(line: string, skipHeading: bool): seq<string> {
    var m := LineModel(line, skipHeading);
    if m.Some? then [m.value] else []
  }

  /** The ids the parsing loop has collected after `lines`. */
  function ParsedModels(lines: seq<string>, skipHeading: bool): seq<string> {
    FlatMap(line => LineModels(line, skipHeading), lines)
  }

  /** The parsing loop over the output of `models`. */
  method ParseModelList(output: string, skipHeading: bool) returns (models: seq<string>)
    ensures models == ParsedModels(Split(output, '\n'), skipHeading)
  {
    models := [];
    var lines := Split(output, '\n');
    var i := 0;
    while i < |lines|
      invariant 0 <= i <= |lines|
      invariant models == ParsedModels(lines[..i], skipHeading)
    {
      assert lines[..i + 1][..i] == lines[..i];
      var line := TrimSpace(lines[i]);
      if line != "" && !HasPrefix(line, "#") && !(skipHeading && HasPrefix(line, "Available")) {
        var first := FirstField(line);
        models := models + [first];
      }
      i := i + 1;
    }
    assert lines[..|lines|] == lines;
  }

  /** Every parsed id is one non-empty word, and no line yields more than one. */
  lemma {:induction false} ParsedModelsAreWords(lines: seq<string>, skipHeading: bool)
    ensures |ParsedModels(lines, skipHeading)| <= |lines|
    ensures forall m :: m in ParsedModels(lines, skipHeading) ==>
      m != "" && forall k :: 0 <= k < |m| ==> !IsSpace(m[k])
    decreases |lines|
  {
    if |lines| > 0 {
      var init := lines[..|lines| - 1];
      ParsedModelsAreWords(init, skipHeading);
      var f := line => LineModels(line, skipHeading);
      assert ParsedModels(lines, skipHeading) == FlatMap(f, init) + f(lines[|lines| - 1]);
    }
  }

  /**
   * A line that is blank or a comment, and on the HTTP server a heading,
   * contributes nothing wherever it appears.
   */
  lemma SkippedLineIgnored(before: seq<string>, line: string, after: seq<string>, skipHeading: bool)
    requires LineModel(line, skipHeading).None?
    ensures ParsedModels(before + [line] + after, skipHeading) == ParsedModels(before + after, skipHeading)
  {
    var f := l => LineModels(l, skipHeading);
    FlatMapSkip(f, before, line, after);
  }

  /**
   * The two parsers differ on headings: the HTTP server drops a line that
   * starts with "Available", the stdio server keeps its first word as a model.
   */
  lemma HeadingKeptOnlyByStdio(line: string)
    requires HasPrefix(TrimSpace(line), "Available")
    ensures ParsedModels([line], true) == []
    ensures ParsedModels([line], false) == [FirstField(TrimSpace(line))]
  {
    var t := TrimSpace(line);
    assert t[0] == 'A';
    var f := l => LineModels(l, true);
    var g := l => LineModels(l, false);
    assert [line][..0] == [];
    assert FlatMap(f, [line]) == f(line) == [];
    assert FlatMap(g, [line]) == g(line) == [FirstField(t)];
  }

  // -----------------------------------------------------------------------
  // Choosing the default model

  /**
   * The position of the first element of `s` satisfying `f`, or |s| when
   * there is none: one search loop with an early return.
   */
  function FirstIndex(s: seq<string>, f: string -> bool): (r: nat)
    ensures r <= |s|
    ensures r < |s| ==> f(s[r])
    ensures forall j :: 0 <= j < r ==> !f(s[j])
    decreases |s|
  {
    if |s| == 0 then 0
    else if f(s[0]) then 0
    else FirstIndex(s[1..], f) + 1
  }

  /** The first match is the one before which nothing matches. */
  lemma FirstIndexIs(s: seq<string>, f: string -> bool, i: nat)
    requires i < |s| && f(s[i])
    requires forall j :: 0 <= j < i ==> !f(s[j])
    ensures FirstIndex(s, f) == i
  {
  }

  /** The first element of `s` satisfying `f`, if any. */
  function Find(s: seq<string>, f: string -> bool): Option<string> {
    var i := FirstIndex(s, f);
    if i < |s| then Some(s[i]) else None
  }

  /** "is one of `models`" */
  function ListedIn(models: seq<string>): string -> bool {
    p => p in models
  }

  /** "contains `p`" */
  function Containing(p: string): string -> bool {
    m => Contains(m, p)
  }

  /** "some model contains it" */
  function ContainedIn(models: seq<string>): string -> bool {
    p => Find(models, Containing(p)).Some?
  }

  /** "starts with github-copilot/" */
  function Copilot(): string -> bool {
    m => HasPrefix(m, CopilotPrefix)
  }

  /**
   * The substring step: for each preferred model in order, the first listed
   * model containing it.
   */
  function FirstContainingPreferred(models: seq<string>): Option<string> {
    match Find(PreferredModels, ContainedIn(models))
    case Some(p) => Find(models, Containing(p))
    case None => None
  }

  /**
   * The HTTP server's getDefaultModel on a fetched list: an exact preferred
   * model, else a model containing a preferred one, else the first Copilot
   * model, else the first model, else the configured fallback.
   */
  function ServerDefaultModel(models: seq<string>, fallback: string): (r: string)
    ensures r in models || r == fallback
    ensures |models| > 0 ==> r in models
  {
    match Find(PreferredModels, ListedIn(models))
    case Some(m) => m
    case None =>
      match FirstContainingPreferred(models)
      case Some(m) => m
      case None =>
        match Find(models, Copilot())
        case Some(m) => m
        case None => if |models| > 0 then models[0] else fallback
  }

  /** The stdio server's getDefaultModel: the same search without the substring step. */
  function StdioDefaultModel(models: seq<string>): (r: string)
    ensures r in models || r == FallbackModel
    ensures |models| > 0 ==> r in models
  {
    match Find(PreferredModels, ListedIn(models))
    case Some(m) => m
    case None =>
      match Find(models, Copilot())
      case Some(m) => m
      case None => if |models| > 0 then models[0] else FallbackModel
  }

  /**
   * Preference order wins over list order: when the i-th preferred model is
   * listed and none before it is, both servers pick it.
   */
  lemma PreferredModelWins(models: seq<string>, fallback: string, i: nat)
    requires i < |PreferredModels| && PreferredModels[i] in models
    requires forall j :: 0 <= j < i ==> PreferredModels[j] !in models
    ensures ServerDefaultModel(models, fallback) == PreferredModels[i]
    ensures StdioDefaultModel(models) == PreferredModels[i]
  {
    FirstIndexIs(PreferredModels, ListedIn(models), i);
  }

  /**
   * Without an exactly listed preferred model, the stdio server takes the
   * first Copilot model in list order, and the first model when there is none.
   */
  lemma StdioFallsBackInListOrder(models: seq<string>, i: nat)
    requires forall p :: p in PreferredModels ==> p !in models
    requires i < |models|
    requires forall j :: 0 <= j < i ==> !HasPrefix(models[j], CopilotPrefix)
    requires HasPrefix(models[i], CopilotPrefix) || (i == 0 && forall m :: m in models ==> !HasPrefix(m, CopilotPrefix))
    ensures StdioDefaultModel(models) == models[i]
  {
    assert Find(PreferredModels, ListedIn(models)).None?;
    if HasPrefix(models[i], CopilotPrefix) {
      FirstIndexIs(models, Copilot(), i);
    } else {
      assert FirstIndex(models, Copilot()) == |models|;
    }
  }

  /**
   * The HTTP server's substring step: when no preferred model is listed
   * exactly, the i-th preferred model is the first one any listed model
   * contains, and `models[j]` is the first model containing it, the server
   * picks `models[j]`.
   */
  lemma ServerPicksFirstContaining(models: seq<string>, fallback: string, i: nat, j: nat)
    requires forall p :: p in PreferredModels ==> p !in models
    requires i < |PreferredModels| && j < |models| && Contains(models[j], PreferredModels[i])
    requires forall q, k :: 0 <= q < i && 0 <= k < |models| ==> !Contains(models[k], PreferredModels[q])
    requires forall k :: 0 <= k < j ==> !Contains(models[k], PreferredModels[i])
    ensures ServerDefaultModel(models, fallback) == models[j]
  {
    assert Find(PreferredModels, ListedIn(models)).None? by {
      assert FirstIndex(PreferredModels, ListedIn(models)) == |PreferredModels|;
    }
    FirstIndexIs(models, Containing(PreferredModels[i]), j);
    forall q | 0 <= q < i ensures !ContainedIn(models)(PreferredModels[q]) {
      assert FirstIndex(models, Containing(PreferredModels[q])) == |models|;
    }
    FirstIndexIs(PreferredModels, ContainedIn(models), i);
  }

  /**
   * When no listed model contains a preferred model, the HTTP server falls
   * back exactly as the stdio server does: the first Copilot model in list
   * order, and the first model when there is none.
   */
  lemma ServerFallsBackInListOrder(models: seq<string>, fallback: string, i: nat)
    requires forall q, k :: 0 <= q < |PreferredModels| && 0 <= k < |models| ==> !Contains(models[k], PreferredModels[q])
    requires i < |models|
    requires forall j :: 0 <= j < i ==> !HasPrefix(models[j], CopilotPrefix)
    requires HasPrefix(models[i], CopilotPrefix) || (i == 0 && forall m :: m in models ==> !HasPrefix(m, CopilotPrefix))
    ensures ServerDefaultModel(models, fallback) == models[i]
    ensures StdioDefaultModel(models) == models[i]
  {
    assert FirstContainingPreferred(models).None? by {
      forall q | 0 <= q < |PreferredModels| ensures !ContainedIn(models)(PreferredModels[q]) {
        assert FirstIndex(models, Containing(PreferredModels[q])) == |models|;
      }
      assert FirstIndex(PreferredModels, ContainedIn(models)) == |PreferredModels|;
    }
    StdioFallsBackInListOrder(models, i);
  }

  /** An empty list leaves only the fallback. */
  lemma EmptyListFallsBack(fallback: string)
    ensures ServerDefaultModel([], fallback) == fallback
    ensures StdioDefaultModel([]) == FallbackModel
  {
  }

  /**
   * The substring step makes the servers disagree: with a list such as
   * ["local/llama", "proxy/github-copilot/gpt-4o"], a model that merely
   * contains a preferred id is chosen by the HTTP server, while the stdio
   * server takes the first model.
   */
  lemma SubstringStepDiffers(a: string, b: string, fallback: string)
    requires b == "proxy/" + PreferredModels[2]
    requires |a| < |PreferredModels[2]| && !HasPrefix(a, CopilotPrefix)
    ensures ServerDefaultModel([a, b], fallback) == b
    ensures StdioDefaultModel([a, b]) == a
  {
    NoPreferredListed(a, b);
    StdioFallsBackInListOrder([a, b], 0);
    SubstringStepFinds(a, b);
  }

  /** Neither entry of such a list is a preferred id or a Copilot model. */
  lemma NoPreferredListed(a: string, b: string)
    requires b == "proxy/" + PreferredModels[2]
    requires |a| < |PreferredModels[2]| && !HasPrefix(a, CopilotPrefix)
    ensures forall p :: p in PreferredModels ==> p !in [a, b]
    ensures forall m :: m in [a, b] ==> !HasPrefix(m, CopilotPrefix)
    ensures Find(PreferredModels, ListedIn([a, b])).None?
  {
    assert b[0] != CopilotPrefix[0];
    forall p | p in PreferredModels ensures p !in [a, b] {
      assert |p| != |a| && |p| != |b|;
    }
  }

  /**
   * A list whose second entry wraps the third preferred id, and whose
   * entries are too short to hold the two preferred ids before it: the
   * substring step finds the second entry.
   */
  lemma SubstringStepFinds(a: string, b: string)
    requires b == "proxy/" + PreferredModels[2]
    requires |a| < |PreferredModels[2]|
    ensures FirstContainingPreferred([a, b]) == Some(b)
  {
    var models := [a, b];
    ContainsInside("proxy/", PreferredModels[2], "");
    assert b == "proxy/" + PreferredModels[2] + "";
    forall j | 0 <= j < 2 ensures !ContainedIn(models)(PreferredModels[j]) {
      NotContainedIn(models, j);
    }
    assert ContainedIn(models)(PreferredModels[2]) by {
      assert Containing(PreferredModels[2])(models[1]);
      assert FirstIndex(models, Containing(PreferredModels[2])) <= 1;
    }
    FirstIndexIs(PreferredModels, ContainedIn(models), 2);
    assert !Containing(PreferredModels[2])(a) by {
      ShortNoContain(a, PreferredModels[2]);
    }
    FirstIndexIs(models, Containing(PreferredModels[2]), 1);
  }

  /** A preferred id longer than every listed model is contained in none. */
  lemma NotContainedIn(models: seq<string>, i: nat)
    requires i < |PreferredModels| && |models| == 2
    requires |models[0]| < |PreferredModels[i]| && |models[1]| < |PreferredModels[i]|
    ensures !ContainedIn(models)(PreferredModels[i])
  {
    var p := PreferredModels[i];
    ShortNoContain(models[0], p);
    ShortNoContain(models[1], p);
    assert Find(models, Containing(p)).None? by {
      assert FirstIndex(models, Containing(p)) == 2;
    }
  }

  /** A string never contains a longer one. */
  lemma {:induction false} ShortNoContain(s: string, sub: string)
    requires |s| < |sub|
    ensures !Contains(s, sub)
    decreases |s|
  {
    if |s| > 0 {
      ShortNoContain(s[1..], sub);
    }
  }

  // -----------------------------------------------------------------------
  // The cache

  /**
   * The process-wide model cache: the last non-empty list fetched and when it
   * was fetched.
   */
  class ModelCache {
    var models: seq<string>
    var cacheTime: int
    const ttl: int

    constructor (ttl: int)
      ensures models == [] && this.ttl == ttl
    {
      models := [];
      cacheTime := 0;
      this.ttl := ttl;
    }

    /** A read is served from the cache: it is non-empty and younger than the TTL. */
    predicate Hit(now: int)
      reads this
    {
      |models| > 0 && now - cacheTime < ttl
    }

    /**
     * fetchAvailableModels at time `now`; `output` is what running `models`
     * printed, or None when it failed. A hit returns the cache untouched; a
     * miss parses the output and stores the list only when it is non-empty.
     */
    method Fetch(now: int, output: Option<string>, skipHeading: bool) returns (result: seq<string>)
      modifies this
      ensures old(Hit(now)) ==> result == old(models) && models == old(models) && cacheTime == old(cacheTime)
      ensures !old(Hit(now)) && output.None? ==> result == [] && models == old(models) && cacheTime == old(cacheTime)
      ensures !old(Hit(now)) && output.Some? ==>
        && result == ParsedModels(Split(output.value, '\n'), skipHeading)
        && (|result| > 0 ==> models == result && cacheTime == now)
        && (|result| == 0 ==> models == old(models) && cacheTime == old(cacheTime))
    {
      if Hit(now) {
        return models;
      }
      if output.None? {
        return [];
      }
      result := ParseModelList(output.value, skipHeading);
      if |result| > 0 {
        models := result;
        cacheTime := now;
      }
    }
  }

  /**
   * A list fetched at `t` is served again at any `now` within the TTL,
   * whatever the second run of `models` would print.
   */
  method FetchTwice(cache: ModelCache, t: int, now: int, first: string, second: Option<string>)
    returns (r1: seq<string>, r2: seq<string>)
    requires !cache.Hit(t) && t <= now < t + cache.ttl
    modifies cache
    ensures r1 == ParsedModels(Split(first, '\n'), true)
    ensures |r1| > 0 ==> r2 == r1
  {
    r1 := cache.Fetch(t, Some(first), true);
    r2 := cache.Fetch(now, second, true);
  }

  /**
   * The list a fetch at `now` returns: the cached list on a hit, nothing
   * when running `models` failed, else the parsed output.
   */
  function Fetched(hit: bool, cached: seq<string>, output: Option<string>, skipHeading: bool): seq<string> {
    if hit then cached
    else if output.None? then []
    else ParsedModels(Split(output.value, '\n'), skipHeading)
  }

  /**
   * getDefaultModel on the HTTP server: fetch, then choose from what was
   * fetched.
   */
  method ServerGetDefaultModel(cache: ModelCache, now: int, output: Option<string>, fallback: string)
    returns (models: seq<string>, model: string)
    modifies cache
    ensures models == Fetched(old(cache.Hit(now)), old(cache.models), output, true)
    ensures model == ServerDefaultModel(models, fallback)
    ensures model in cache.models || model == fallback
  {
    models := cache.Fetch(now, output, true);
    model := ServerDefaultModel(models, fallback);
  }

  /** getDefaultModel on the stdio server. */
  method StdioGetDefaultModel(cache: ModelCache, now: int, output: Option<string>)
    returns (models: seq<string>, model: string)
    modifies cache
    ensures models == Fetched(old(cache.Hit(now)), old(cache.models), output, false)
    ensures model == StdioDefaultModel(models)
    ensures model in cache.models || model == FallbackModel
  {
    models := cache.Fetch(now, output, false);
    model := StdioDefaultModel(models);
  }
}
