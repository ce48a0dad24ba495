/** Logging set-up: the per-logger levels read from the settings, and the
    console handler of the root logger. The settings class reads
    environment variables; here the settings are a value. */
module LogConfig {
  import opened Wrappers

  /** The settings, in the order the class declares them. `log_config` is
      declared twice; the second declaration's default ("INFO") is the one
      that holds, at the position of the first. */
  datatype LogConfig = LogConfig(
    level: string,
    logConfig: string,
    routersPubSub: string,
    featuresEmbeddingsEmbeddingService: string)

  const DefaultLogConfig := LogConfig("INFO", "INFO", "INFO", "INFO")

  /** `model_dump().items()`: (setting name, level) in declaration order. */
  function ModelDump(c: LogConfig): (items: seq<(string, string)>)
    ensures |items| == 4
    ensures items[0] == ("level", c.level) && items[1] == ("log_config", c.logConfig)
    ensures items[2] == ("routers__pub_sub", c.routersPubSub)
    ensures items[3] == ("features__embeddings__embedding_service", c.featuresEmbeddingsEmbeddingService)
  {
    [("level", c.level), ("log_config", c.logConfig),
     ("routers__pub_sub", c.routersPubSub),
     ("features__embeddings__embedding_service", c.featuresEmbeddingsEmbeddingService)]
  }

  /** Whether `s` contains the substring "__". */
  predicate HasDunder(s: string)
  {
    exists i :: 0 <= i < |s| - 1 && s[i] == '_' && s[i + 1] == '_'
  }

  /** `s.replace("__", ".")`: each non-overlapping "__", scanning left to
      right, becomes ".". */
  function ReplaceDunder(s: string): (r: string)
    ensures |r| <= |s|
    ensures |s| < 2 ==> r == s
  {
    if |s| < 2 then s
    else
      var n := if s[0] == '_' && s[1] == '_' then 2 else 1;
      (if n == 2 then "." else [s[0]]) + ReplaceDunder(s[n..])
  }

  /** A name with no "__" is left as it is. */
  lemma {:induction false} ReplaceDunderWithoutDunder(s: string)
    ensures !HasDunder(s) ==> ReplaceDunder(s) == s
  {
    if |s| >= 2 && !HasDunder(s) {
      assert !(s[0] == '_' && s[1] == '_');
      ReplaceDunderWithoutDunder(s[1..]);
    }
  }

  /** The first character of the result: an underscore survives only where
      it is not followed by another one. */
  lemma {:induction false} ReplaceDunderHead(s: string)
    requires |s| > 0
    ensures |ReplaceDunder(s)| > 0
    ensures ReplaceDunder(s)[0] == '_' ==> s[0] == '_' && (|s| == 1 || s[1] != '_')
  {
    if |s| >= 2 && !(s[0] == '_' && s[1] == '_') {
      assert ReplaceDunder(s) == [s[0]] + ReplaceDunder(s[1..]);
    }
  }

  /** No "__" is left in the result. */
  lemma {:induction false} ReplaceDunderRemovesAll(s: string)
    ensures !HasDunder(ReplaceDunder(s))
    decreases |s|
  {
    if |s| < 2 {
    } else if s[0] == '_' && s[1] == '_' {
      ReplaceDunderRemovesAll(s[2..]);
      var t := ReplaceDunder(s[2..]);
      assert ReplaceDunder(s) == "." + t;
    } else {
      ReplaceDunderRemovesAll(s[1..]);
      ReplaceDunderHead(s[1..]);
      var t := ReplaceDunder(s[1..]);
      assert ReplaceDunder(s) == [s[0]] + t;
    }
  }

  /** Replacing across a "__" that follows a part with no "__" and no
      trailing underscore. */
  lemma {:induction false} ReplaceDunderSplit(a: string, b: string)
    requires !HasDunder(a) && (a == [] || a[|a| - 1] != '_')
    ensures ReplaceDunder(a + "__" + b) == a + "." + ReplaceDunder(b)
    decreases |a|
  {
    var s := a + "__" + b;
    if a == [] {
      assert s[2..] == b;
    } else {
      var s1 := a[1..] + "__" + b;
      assert s[1..] == s1;
      ReplaceDunderSplit(a[1..], b);
      assert !(s[0] == '_' && s[1] == '_') by {
        if |a| == 1 {
          assert s[0] == a[0];
        } else {
          assert s[0] == a[0] && s[1] == a[1];
        }
      }
      assert ReplaceDunder(s) == [s[0]] + ReplaceDunder(s1);
      assert a + "." + ReplaceDunder(b) == [a[0]] + (a[1..] + "." + ReplaceDunder(b));
    }
  }

  /** The logger a setting names: "level" is the root logger (`None`), any
      other setting the dotted logger name. */
  function LoggerName(key: string): (name: Option<string>)
    ensures name.None? <==> key == "level"
    ensures name.Some? ==> !HasDunder(name.value)
    ensures name.Some? && !HasDunder(key) ==> name.value == key
  {
    if key == "level" then None
    else
      ReplaceDunderRemovesAll(key);
      ReplaceDunderWithoutDunder(key);
      Some(ReplaceDunder(key))
  }

  /** The names of the three module settings: `log_config` has no "__"
      and names itself; the other two become dotted names. */
  lemma SettingLoggerNames()
    ensures LoggerName("log_config") == Some("log_config")
    ensures LoggerName("routers__pub_sub") == Some("routers.pub_sub")
    ensures LoggerName("features__embeddings__embedding_service") == Some("features.embeddings.embedding_service")
  {
    NoDunderInWords();
    ReplaceDunderWithoutDunder("log_config");
    RoutersPubSub();
    EmbeddingsEmbeddingService();
    FeaturesEmbeddingsEmbeddingService();
  }

  lemma NoDunderInWords()
    ensures !HasDunder("log_config") && !HasDunder("pub_sub") && !HasDunder("embedding_service")
    ensures !HasDunder("routers") && !HasDunder("features") && !HasDunder("embeddings")
  {
    var s1, s2, s3 := "log_config", "pub_sub", "embedding_service";
    assert forall i :: 0 <= i < |s1| - 1 ==> s1[i] != '_' || s1[i + 1] != '_';
    assert forall i :: 0 <= i < |s2| - 1 ==> s2[i] != '_' || s2[i + 1] != '_';
    assert forall i :: 0 <= i < |s3| - 1 ==> s3[i] != '_' || s3[i + 1] != '_';
    var w1, w2, w3 := "routers", "features", "embeddings";
    assert forall i :: 0 <= i < |w1| ==> w1[i] != '_';
    assert forall i :: 0 <= i < |w2| ==> w2[i] != '_';
    assert forall i :: 0 <= i < |w3| ==> w3[i] != '_';
  }

  lemma RoutersPubSub()
    ensures ReplaceDunder("routers__pub_sub") == "routers.pub_sub"
  {
    NoDunderInWords();
    ReplaceDunderWithoutDunder("pub_sub");
    ReplaceDunderSplit("routers", "pub_sub");
    RoutersPubSubSpelling();
  }

  lemma RoutersPubSubSpelling()
    ensures "routers" + "__" + "pub_sub" == "routers__pub_sub"
    ensures "routers" + "." + "pub_sub" == "routers.pub_sub"
  {
    var x, y := "routers" + "__" + "pub_sub", "routers__pub_sub";
    assert |x| == |y|;
    forall i | 0 <= i < |x| ensures x[i] == y[i] { }
    var u, v := "routers" + "." + "pub_sub", "routers.pub_sub";
    assert |u| == |v|;
    forall i | 0 <= i < |u| ensures u[i] == v[i] { }
  }

  lemma EmbeddingsEmbeddingService()
    ensures ReplaceDunder("embeddings__embedding_service") == "embeddings.embedding_service"
  {
    NoDunderInWords();
    ReplaceDunderWithoutDunder("embedding_service");
    ReplaceDunderSplit("embeddings", "embedding_service");
    EmbeddingsEmbeddingServiceSpelling();
  }

  lemma FeaturesEmbeddingsEmbeddingService()
    ensures ReplaceDunder("features__embeddings__embedding_service") == "features.embeddings.embedding_service"
  {
    NoDunderInWords();
    EmbeddingsEmbeddingService();
    ReplaceDunderSplit("features", "embeddings__embedding_service");
    FeaturesEmbeddingsEmbeddingServiceSpelling();
  }

  lemma EmbeddingsEmbeddingServiceSpelling()
    ensures "embeddings" + "__" + "embedding_service" == "embeddings__embedding_service"
    ensures "embeddings" + "." + "embedding_service" == "embeddings.embedding_service"
  {
    var x, y := "embeddings" + "__" + "embedding_service", "embeddings__embedding_service";
    assert |x| == |y|;
    forall i | 0 <= i < |x| ensures x[i] == y[i] { }
    var u, v := "embeddings" + "." + "embedding_service", "embeddings.embedding_service";
    assert |u| == |v|;
    forall i | 0 <= i < |u| ensures u[i] == v[i] { }
  }

  lemma FeaturesEmbeddingsEmbeddingServiceSpelling()
    ensures "features" + "__" + "embeddings__embedding_service" == "features__embeddings__embedding_service"
    ensures "features" + "." + "embeddings.embedding_service" == "features.embeddings.embedding_service"
  {
    var x, y := "features" + "__" + "embeddings__embedding_service", "features__embeddings__embedding_service";
    assert |x| == |y|;
    forall i | 0 <= i < |x| ensures x[i] == y[i] { }
    var u, v := "features" + "." + "embeddings.embedding_service", "features.embeddings.embedding_service";
    assert |u| == |v|;
    forall i | 0 <= i < |u| ensures u[i] == v[i] { }
  }

  /** The `setLevel` calls made for the settings: one per setting, in order,
      each with that setting's level. */
  function LevelAssignments(items: seq<(string, string)>): (calls: seq<(Option<string>, string)>)
    ensures |calls| == |items|
    ensures forall i :: 0 <= i < |items| ==> calls[i] == (LoggerName(items[i].0), items[i].1)
  {
    if items == [] then []
    else [(LoggerName(items[0].0), items[0].1)] + LevelAssignments(items[1..])
  }

  /** The loggers' levels after the calls: the last call for a logger wins.
      Every logger named in a call gets a level, and no logger loses one. */
  function ApplyLevels(levels: map<Option<string>, string>, calls: seq<(Option<string>, string)>): (r: map<Option<string>, string>)
    ensures levels.Keys <= r.Keys
    ensures forall i :: 0 <= i < |calls| ==> calls[i].0 in r
    decreases |calls|
  {
    if calls == [] then levels
    else ApplyLevels(levels[calls[0].0 := calls[0].1], calls[1..])
  }

  /** A logger no call names keeps its level, or stays without one. */
  lemma {:induction false} ApplyLevelsUntouched(levels: map<Option<string>, string>, calls: seq<(Option<string>, string)>, n: Option<string>)
    requires forall i :: 0 <= i < |calls| ==> calls[i].0 != n
    ensures n in ApplyLevels(levels, calls) <==> n in levels
    ensures n in levels ==> ApplyLevels(levels, calls)[n] == levels[n]
    decreases |calls|
  {
    if calls != [] {
      var rest := calls[1..];
      assert calls[0].0 != n;
      forall j | 0 <= j < |rest| ensures rest[j].0 != n { assert rest[j] == calls[j + 1]; }
      ApplyLevelsUntouched(levels[calls[0].0 := calls[0].1], rest, n);
    }
  }

  /** The last call for a logger decides its level. */
  lemma {:induction false} ApplyLevelsLastWins(levels: map<Option<string>, string>, calls: seq<(Option<string>, string)>, i: nat)
    requires i < |calls|
    requires forall j :: i < j < |calls| ==> calls[j].0 != calls[i].0
    ensures calls[i].0 in ApplyLevels(levels, calls) && ApplyLevels(levels, calls)[calls[i].0] == calls[i].1
    decreases |calls|
  {
    var levels' := levels[calls[0].0 := calls[0].1];
    var rest := calls[1..];
    if i == 0 {
      forall j | 0 <= j < |rest| ensures rest[j].0 != calls[0].0 { assert rest[j] == calls[j + 1]; }
      ApplyLevelsUntouched(levels', rest, calls[0].0);
    } else {
      assert rest[i - 1] == calls[i];
      forall j | i - 1 < j < |rest| ensures rest[j].0 != rest[i - 1].0 { assert rest[j] == calls[j + 1]; }
      ApplyLevelsLastWins(levels', rest, i - 1);
    }
  }

  /** Four calls, each applied in turn. */
  lemma ApplyFourLevels(levels: map<Option<string>, string>, calls: seq<(Option<string>, string)>)
    requires |calls| == 4
    ensures ApplyLevels(levels, calls) ==
      levels[calls[0].0 := calls[0].1][calls[1].0 := calls[1].1][calls[2].0 := calls[2].1][calls[3].0 := calls[3].1]
  {
    var l1 := levels[calls[0].0 := calls[0].1];
    var l2 := l1[calls[1].0 := calls[1].1];
    var l3 := l2[calls[2].0 := calls[2].1];
    var l4 := l3[calls[3].0 := calls[3].1];
    assert calls[1..][0] == calls[1] && calls[1..][1..] == calls[2..];
    assert calls[2..][0] == calls[2] && calls[2..][1..] == calls[3..];
    assert calls[3..][0] == calls[3] && calls[3..][1..] == [];
    assert ApplyLevels(l3, calls[3..]) == l4;
    assert ApplyLevels(l2, calls[2..]) == l4;
    assert ApplyLevels(l1, calls[1..]) == l4;
  }

  /** With the default settings, the root logger and the three module
      loggers are set to INFO, and no other logger is touched. */
  lemma DefaultLevels(levels: map<Option<string>, string>)
    ensures LevelAssignments(ModelDump(DefaultLogConfig)) ==
      [(None, "INFO"), (Some("log_config"), "INFO"), (Some("routers.pub_sub"), "INFO"),
       (Some("features.embeddings.embedding_service"), "INFO")]
    ensures ApplyLevels(levels, LevelAssignments(ModelDump(DefaultLogConfig))) ==
      levels[None := "INFO"][Some("log_config") := "INFO"][Some("routers.pub_sub") := "INFO"]
            [Some("features.embeddings.embedding_service") := "INFO"]
  {
    SettingLoggerNames();
    ApplyFourLevels(levels, LevelAssignments(ModelDump(DefaultLogConfig)));
  }

  /** A formatter of the console handler. */
  datatype Formatter = UvicornDefaultFormatter(fmt: string) | StandardFormatter(fmt: string)

  /** The formatter chosen: uvicorn's when it can be imported, the standard
      one otherwise. */
  function ChosenFormatter(uvicornAvailable: bool): (f: Formatter)
    ensures uvicornAvailable <==> f.UvicornDefaultFormatter?
    ensures uvicornAvailable ==> f.fmt == "%(levelprefix)s %(name)s: %(message)s"
    ensures !uvicornAvailable ==> f.fmt == "%(asctime)s - %(name)s - %(levelname)s - %(message)s"
  {
    if uvicornAvailable then UvicornDefaultFormatter("%(levelprefix)s %(name)s: %(message)s")
    else StandardFormatter("%(asctime)s - %(name)s - %(levelname)s - %(message)s")
  }

  class Handler {
    var formatter: Option<Formatter>

    /** A new stream handler, without a formatter. */
    constructor ()
      ensures formatter.None?
    {
      formatter := None;
    }
  }

  /** The logging state this module changes: the root logger's handlers, the
      levels of the loggers set so far, and the `setLevel` calls in order. */
  class Logging {
    var rootHandlers: seq<Handler>
    var levels: map<Option<string>, string>
    var setLevelCalls: seq<(Option<string>, string)>

    constructor (rootHandlers: seq<Handler>)
      ensures this.rootHandlers == rootHandlers && levels == map[] && setLevelCalls == []
    {
      this.rootHandlers := rootHandlers;
      levels := map[];
      setLevelCalls := [];
    }

    /** `logging.getLogger(name).setLevel(level)`. */
    method SetLevel(name: Option<string>, level: string)
      modifies this
      ensures rootHandlers == old(rootHandlers)
      ensures levels == old(levels)[name := level]
      ensures setLevelCalls == old(setLevelCalls) + [(name, level)]
    {
      levels := levels[name := level];
      setLevelCalls := setLevelCalls + [(name, level)];
    }

    /** `setup_text_logging`: the console handler is the root logger's first
        handler when it has one, else a new stream handler; it gets the
        chosen formatter and is added to the root logger, which adding an
        existing handler leaves unchanged. */
    method SetupTextLogging(uvicornAvailable: bool) returns (ch: Handler)
      modifies this, rootHandlers
      ensures |old(rootHandlers)| > 0 ==> ch == old(rootHandlers[0]) && rootHandlers == old(rootHandlers)
      ensures |old(rootHandlers)| == 0 ==> fresh(ch) && rootHandlers == [ch]
      ensures ch.formatter == Some(ChosenFormatter(uvicornAvailable))
      ensures forall h :: h in old(rootHandlers) && h != ch ==> h.formatter == old(h.formatter)
      ensures levels == old(levels) && setLevelCalls == old(setLevelCalls)
    {
      if |rootHandlers| > 0 {
        ch := rootHandlers[0];
      } else {
        ch := new Handler();
      }
      ch.formatter := Some(ChosenFormatter(uvicornAvailable));
      if ch !in rootHandlers {
        rootHandlers := rootHandlers + [ch];
      }
    }

    /** The loop of `setup_logging`: one `setLevel` call per setting, in
        order, on the logger the setting names. */
    method SetLevels(items: seq<(string, string)>)
      modifies this
      ensures rootHandlers == old(rootHandlers)
      ensures setLevelCalls == old(setLevelCalls) + LevelAssignments(items)
      ensures levels == ApplyLevels(old(levels), LevelAssignments(items))
    {
      ghost var calls := LevelAssignments(items);
      var i := 0;
      while i < |items|
        invariant 0 <= i <= |items|
        invariant rootHandlers == old(rootHandlers)
        invariant setLevelCalls == old(setLevelCalls) + calls[..i]
        invariant ApplyLevels(levels, calls[i..]) == ApplyLevels(old(levels), calls)
      {
        var name := LoggerName(items[i].0);
        SetLevel(name, items[i].1);
        assert calls[i..][1..] == calls[i + 1..];
        assert calls[..i + 1] == calls[..i] + [calls[i]];
        i := i + 1;
      }
      assert calls[..i] == calls;
    }

    /** `setup_logging`: the console handler first, then one level
        assignment per setting, in order. */
    method SetupLogging(config: LogConfig, uvicornAvailable: bool)
      modifies this, rootHandlers
      ensures |old(rootHandlers)| > 0 ==> rootHandlers == old(rootHandlers)
      ensures |old(rootHandlers)| == 0 ==> |rootHandlers| == 1 && fresh(rootHandlers[0])
      ensures rootHandlers[0].formatter == Some(ChosenFormatter(uvicornAvailable))
      ensures forall h :: h in old(rootHandlers) && h != rootHandlers[0] ==> h.formatter == old(h.formatter)
      ensures setLevelCalls == old(setLevelCalls) + LevelAssignments(ModelDump(config))
      ensures levels == ApplyLevels(old(levels), LevelAssignments(ModelDump(config)))
    {
      var ch := SetupTextLogging(uvicornAvailable);
      SetLevels(ModelDump(config));
    }
  }
}
