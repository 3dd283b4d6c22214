/**
  The agent's configuration: its defaults and the environment overrides
  applied after the configuration sources have been merged.
 */
module Config {
  import opened Base
  import opened Strings
  import opened Models

  datatype AppConfig = AppConfig(
    bind: string,
    nodeUrls: seq<string>,
    defaultTier: Tier,
    maxCostMicrousdc: u64)

  /** `AppConfig::default()` */
  function Default(): (cfg: AppConfig)
    // The default node list is one entry, in the form the override produces.
    ensures |cfg.nodeUrls| == 1 && AllNodeUrlEntries(cfg.nodeUrls)
  {
    AppConfig("127.0.0.1:8787", ["http://127.0.0.1:8080"], Standard, 0)
  }

  /**
    The four environment variables the loader consults, each `None` when
    unset (or not valid Unicode, which `std::env::var` also reports as an error).
   */
  datatype EnvVars = EnvVars(
    nodeUrls: Option<string>,       // AURIA_NODE_URLS
    bind: Option<string>,           // AURIA_BIND
    defaultTier: Option<string>,    // AURIA_DEFAULT_TIER
    maxCostMicrousdc: Option<string>) // AURIA_MAX_COST_MICROUSDC

  /** A list entry as the node-URL override produces it: non-empty, not padded with whitespace, without a comma. */
  predicate IsNodeUrlEntry(u: string) {
    u != [] && !IsWhitespace(u[0]) && !IsWhitespace(u[|u| - 1]) && ',' !in u
  }

  /** Each piece trimmed, and the pieces that trim to nothing dropped, in order. */
  function TrimNonEmpty(pieces: seq<string>): (r: seq<string>)
    ensures |r| <= |pieces|
  {
    if pieces == [] then [] else Kept(pieces[0]) + TrimNonEmpty(pieces[1..])
  }

  /** What one piece contributes: its trim, unless that is empty. */
  function Kept(piece: string): (r: seq<string>)
    ensures |r| <= 1
  {
    var t := Trim(piece);
    if t == [] then [] else [t]
  }

  /** The `AURIA_NODE_URLS` value split on commas, trimmed, with empty pieces dropped. */
  function SplitNodeUrls(v: string): (urls: seq<string>)
    ensures AllNodeUrlEntries(urls)
  {
    var pieces := Split(v, ',');
    TrimNonEmptyWellFormed(pieces);
    TrimNonEmpty(pieces)
  }

  predicate AllNodeUrlEntries(urls: seq<string>) {
    forall i :: 0 <= i < |urls| ==> IsNodeUrlEntry(urls[i])
  }

  /** Trimming comma-free pieces and dropping the empty ones leaves only well-formed entries. */
  lemma {:induction false} TrimNonEmptyWellFormed(pieces: seq<string>)
    requires forall k :: 0 <= k < |pieces| ==> ',' !in pieces[k]
    ensures AllNodeUrlEntries(TrimNonEmpty(pieces))
    decreases |pieces|
  {
    if pieces != [] {
      var rest := pieces[1..];
      assert forall k :: 0 <= k < |rest| ==> rest[k] == pieces[k + 1];
      KeptWellFormed(pieces[0]);
      TrimNonEmptyWellFormed(rest);
      EntriesAppend(Kept(pieces[0]), TrimNonEmpty(rest));
    }
  }

  lemma EntriesAppend(x: seq<string>, y: seq<string>)
    requires AllNodeUrlEntries(x) && AllNodeUrlEntries(y)
    ensures AllNodeUrlEntries(x + y)
  {
    forall i | 0 <= i < |x + y|
      ensures IsNodeUrlEntry((x + y)[i])
    {
      if i < |x| {
        assert (x + y)[i] == x[i];
      } else {
        assert (x + y)[i] == y[i - |x|];
      }
    }
  }

  lemma KeptWellFormed(piece: string)
    requires ',' !in piece
    ensures AllNodeUrlEntries(Kept(piece))
  {
    var t := Trim(piece);
    if t != [] {
      TrimKeepsAbsent(piece, ',');
      assert IsNodeUrlEntry(t);
      assert Kept(piece) == [t];
    }
  }

  lemma {:induction false} TrimNonEmptyAppend(a: seq<string>, b: seq<string>)
    ensures TrimNonEmpty(a + b) == TrimNonEmpty(a) + TrimNonEmpty(b)
    decreases |a|
  {
    if a == [] {
      assert a + b == b;
    } else {
      assert (a + b)[0] == a[0];
      assert (a + b)[1..] == a[1..] + b;
      TrimNonEmptyAppend(a[1..], b);
      assert TrimNonEmpty(a + b) == Kept(a[0]) + (TrimNonEmpty(a[1..]) + TrimNonEmpty(b));
    }
  }

  /** The override keeps the left-to-right order of the pieces. */
  lemma SplitNodeUrlsAppend(a: string, b: string)
    ensures SplitNodeUrls(a + "," + b) == SplitNodeUrls(a) + SplitNodeUrls(b)
  {
    SplitAroundSeparator(a, b, ',');
    TrimNonEmptyAppend(Split(a, ','), Split(b, ','));
  }

  lemma {:induction false} TrimNonEmptyEntries(urls: seq<string>)
    requires AllNodeUrlEntries(urls)
    ensures TrimNonEmpty(urls) == urls
    decreases |urls|
  {
    if urls != [] {
      TrimFixed(urls[0]);
      TrimNonEmptyEntries(urls[1..]);
    }
  }

  /** A well-formed list written comma-separated is read back exactly. */
  lemma SplitNodeUrlsRoundTrip(urls: seq<string>)
    requires |urls| >= 1
    requires AllNodeUrlEntries(urls)
    ensures SplitNodeUrls(JoinWith(urls, ',')) == urls
  {
    SplitJoin(urls, ',');
    TrimNonEmptyEntries(urls);
  }

  lemma {:induction false} TrimNonEmptyBlank(pieces: seq<string>)
    requires forall k :: 0 <= k < |pieces| ==> AllWhitespace(pieces[k])
    ensures TrimNonEmpty(pieces) == []
    decreases |pieces|
  {
    if pieces != [] {
      TrimEmptyIff(pieces[0]);
      TrimNonEmptyBlank(pieces[1..]);
    }
  }

  /** A value made only of commas and whitespace yields no node URL at all. */
  lemma SplitNodeUrlsBlank(v: string)
    requires forall i :: 0 <= i < |v| ==> v[i] == ',' || IsWhitespace(v[i])
    ensures SplitNodeUrls(v) == []
  {
    SplitBlank(v, ',');
    TrimNonEmptyBlank(Split(v, ','));
  }

  /** The default configuration. */
  lemma DefaultConfig()
    ensures Default().bind == "127.0.0.1:8787"
    ensures Default().nodeUrls == ["http://127.0.0.1:8080"]
    ensures Default().defaultTier == Standard && Default().maxCostMicrousdc == 0
  {
  }

  /** A single well-formed entry given as the override is read back as itself. */
  lemma SplitNodeUrlsSingle(u: string)
    requires IsNodeUrlEntry(u)
    ensures SplitNodeUrls(u) == [u]
  {
    SplitNodeUrlsRoundTrip([u]);
  }

  /** A piece without a comma is read back as its trim, or as nothing when it is blank. */
  lemma SplitNodeUrlsPiece(p: string)
    requires ',' !in p
    ensures SplitNodeUrls(p) == (if Trim(p) == [] then [] else [Trim(p)])
  {
    SplitNoSeparator(p, ',');
    assert [p][1..] == [];
  }

  /** The default node address, given as the override, yields the default node list. */
  lemma DefaultNodeUrlsStable()
    ensures SplitNodeUrls(Default().nodeUrls[0]) == Default().nodeUrls
  {
    var u := Default().nodeUrls[0];
    assert IsNodeUrlEntry(u);
    SplitNodeUrlsSingle(u);
  }

  /**
    The override block of `AppConfig::load`, applied to the configuration
    extracted from the merged sources: each variable that is set replaces its
    field, except that a tier or cost that does not parse keeps the old value.
   */
  method ApplyEnvOverrides(extracted: AppConfig, env: EnvVars) returns (cfg: AppConfig)
    ensures cfg.nodeUrls == if env.nodeUrls.Some? then SplitNodeUrls(env.nodeUrls.value) else extracted.nodeUrls
    ensures cfg.bind == if env.bind.Some? then env.bind.value else extracted.bind
    ensures cfg.defaultTier ==
      if env.defaultTier.Some? && Tier.Parse(env.defaultTier.value).Some?
      then Tier.Parse(env.defaultTier.value).value
      else extracted.defaultTier
    ensures cfg.maxCostMicrousdc ==
      if env.maxCostMicrousdc.Some? && ParseU64(env.maxCostMicrousdc.value).Some?
      then ParseU64(env.maxCostMicrousdc.value).value
      else extracted.maxCostMicrousdc
  {
    cfg := extracted;
    if env.nodeUrls.Some? {
      cfg := cfg.(nodeUrls := SplitNodeUrls(env.nodeUrls.value));
    }
    if env.bind.Some? {
      cfg := cfg.(bind := env.bind.value);
    }
    if env.defaultTier.Some? {
      cfg := cfg.(defaultTier := Tier.Parse(env.defaultTier.value).GetOr(cfg.defaultTier));
    }
    if env.maxCostMicrousdc.Some? {
      var n := ParseU64(env.maxCostMicrousdc.value);
      if n.Some? {
        cfg := cfg.(maxCostMicrousdc := n.value);
      }
    }
  }
}
