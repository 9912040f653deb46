/** The logger facade of ezLogzero: `NewLogger`, the values it hands to zerolog and
    lumberjack, the caller formatter it installs, and the per-call derived loggers. */
module Logger {
  import opened Strings
  import opened Options

  /** One field binding on a zerolog context: `Interface(k, v)`, `Int64(k, n)`, or the caller
      hook added by `Caller()`. Only the order and content of bindings are modelled. */
  datatype Binding<V> = Bind(key: string, value: V) | BindUnix(key: string, seconds: int) | BindCaller

  /** The `lumberjack.Logger` value `NewLogger` builds: the rotation settings it is given. */
  datatype RotateConfig = RotateConfig(filename: string, maxSize: int, maxBackups: int, maxAge: int, compress: bool)

  /** A zerolog logger: the writer it is bound to and the bindings of its context, oldest first. */
  datatype ZeroLogger<V> = ZeroLogger(writer: RotateConfig, context: seq<Binding<V>>)

  /** The facade `Log`: its base logger and the resolved options. */
  datatype Log<V> = Log(logger: ZeroLogger<V>, opts: LogOptions<V>)

  /** The value of zerolog's `TimeFieldFormat`: the Unix-seconds format, or whatever layout it held. */
  datatype TimeFormat = UnixFormat | Layout(layout: string)

  /** The process-wide zerolog settings that `NewLogger` writes. `shortCaller` records that the
      `dir/file:line` formatter `CallerLocation` is installed as `CallerMarshalFunc`. */
  datatype GlobalSettings = GlobalSettings(
    level: Level,
    timeFieldFormat: TimeFormat,
    timestampFieldName: string,
    messageFieldName: string,
    shortCaller: bool)

  /** An open event: the severity it was started at and the logger it was started on. */
  datatype Event<V> = Event(level: Level, logger: ZeroLogger<V>)

  // ---------------------------------------------------------------------------
  // The rotating file.

  /** The log file's name as logger.go:52 formats it: the directory, a slash, the base name and
      the `.log` extension. */
  function LogFileName(path: string, name: string): (r: string)
    ensures |r| == |path| + |name| + 5
    ensures r[..|path|] == path && r[|path|] == '/'
    ensures r[|path| + 1..|r| - 4] == name && r[|r| - 4..] == ".log"
  {
    path + "/" + name + ".log"
  }

  /** Under one directory, different names give different files. */
  lemma LogFileNameInjective(path: string, n1: string, n2: string)
    requires LogFileName(path, n1) == LogFileName(path, n2)
    ensures n1 == n2
  {
    var r := LogFileName(path, n1);
    assert n1 == r[|path| + 1..|r| - 4];
  }

  /** With the default directory the file is `./logs//access.log`: the separator is added even
      though the default directory already ends in one. */
  lemma DefaultLogFileName<V>()
    ensures var d: LogOptions<V> := Defaults(); LogFileName(d.logFilePath, d.logFileName) == "./logs//access.log"
  {
  }

  function RotateConfigOf<V>(o: LogOptions<V>): RotateConfig
  {
    RotateConfig(LogFileName(o.logFilePath, o.logFileName), o.logMaxSize, o.logMaxBackups,
                 o.logMaxAge, o.logBackupCompress)
  }

  // ---------------------------------------------------------------------------
  // Process-wide zerolog settings.

  /** The settings after `NewLogger` has configured zerolog from `o`, given those before it:
      the level is always written; the time format, the two field names and the caller
      formatter are written only when the options ask for them, and kept otherwise. */
  function Configure<V>(prev: GlobalSettings, o: LogOptions<V>): (s: GlobalSettings)
    ensures s.level == o.logLevel
    ensures s.timeFieldFormat == if o.logUnixTime then UnixFormat else prev.timeFieldFormat
    ensures |o.customTimeKey| > 0 ==> s.timestampFieldName == o.customTimeKey
    ensures |o.customTimeKey| == 0 ==> s.timestampFieldName == prev.timestampFieldName
    ensures |o.customMsgKey| > 0 ==> s.messageFieldName == o.customMsgKey
    ensures |o.customMsgKey| == 0 ==> s.messageFieldName == prev.messageFieldName
    ensures s.shortCaller == (prev.shortCaller || o.logWithCaller)
  {
    var s := prev.(level := o.logLevel);
    var s := if o.logUnixTime then s.(timeFieldFormat := UnixFormat) else s;
    var s := if |o.customTimeKey| > 0 then s.(timestampFieldName := o.customTimeKey) else s;
    var s := if |o.customMsgKey| > 0 then s.(messageFieldName := o.customMsgKey) else s;
    if o.logWithCaller then s.(shortCaller := true) else s
  }

  /** Configuring twice from the same options changes nothing more. */
  lemma ConfigureIdempotent<V>(prev: GlobalSettings, o: LogOptions<V>)
    ensures Configure(Configure(prev, o), o) == Configure(prev, o)
  {
  }

  /** A second facade overrides the first's process-wide settings: its level always, its
      field names where it configures them; a name only the first facade set survives. */
  lemma SecondFacadeOverrides<V>(prev: GlobalSettings, first: LogOptions<V>, second: LogOptions<V>)
    requires |second.customTimeKey| == 0 && |first.customTimeKey| > 0
    ensures var s := Configure(Configure(prev, first), second);
      && s.level == second.logLevel
      && s.timestampFieldName == first.customTimeKey
      && (|second.customMsgKey| > 0 ==> s.messageFieldName == second.customMsgKey)
  {
  }

  // ---------------------------------------------------------------------------
  // The caller formatter installed as `zerolog.CallerMarshalFunc`.

  /** `p` is what the formatter keeps of `file`: a suffix of it holding the last segment and,
      when there is one, the directory segment before it; so at most one '/'. */
  ghost predicate ShortPathOf(p: string, file: string)
  {
    && |p| <= |file| && file[|file| - |p|..] == p
    && Count(p, '/') == (if '/' in file then 1 else 0)
    && (Count(file, '/') <= 1 ==> p == file)
    && (Count(file, '/') >= 2 ==> file[|file| - |p| - 1] == '/')
  }

  /** The closure installed when `WithCaller` is given: the parent directory and the file name
      of the call site, then a colon and the line in decimal. */
  function CallerLocation(file: string, line: int): (r: string)
    ensures |r| > |IntToDecimal(line)|
    ensures r[|r| - |IntToDecimal(line)| - 1..] == ":" + IntToDecimal(line)
    ensures ShortPathOf(r[..|r| - |IntToDecimal(line)| - 1], file)
  {
    var p := ShortPath(file);
    AppendLine(p, IntToDecimal(line), file);
    p + ":" + IntToDecimal(line)
  }

  /** The first half of the closure: split the path on '/', keep the second-to-last segment
      and a '/' when there are at least two segments, then the last segment. Splitting always
      yields a segment, so the last one can always be taken. */
  function ShortPath(file: string): (p: string)
    ensures ShortPathOf(p, file)
  {
    var pathSplit := Split(file, '/');
    var fileDir := if |pathSplit| > 1 then pathSplit[|pathSplit| - 2] + "/" else "";
    var fileName := pathSplit[|pathSplit| - 1];
    ShortPathShape(file);
    fileDir + fileName
  }

  lemma AppendLine(p: string, d: string, file: string)
    requires ShortPathOf(p, file)
    ensures var r := p + ":" + d;
      && |r| > |d| && r[|r| - |d| - 1..] == ":" + d && ShortPathOf(r[..|r| - |d| - 1], file)
  {
    var r := p + ":" + d;
    assert r[..|p|] == p && r[|p|..] == ":" + d;
  }

  /** The split-and-index step of the formatter keeps exactly the short path. */
  lemma ShortPathShape(file: string)
    ensures var segs := Split(file, '/');
      ShortPathOf((if |segs| > 1 then segs[|segs| - 2] + "/" else "") + segs[|segs| - 1], file)
  {
    var segs := Split(file, '/');
    if |segs| > 1 {
      LastTwoSegments(segs, file);
    }
  }

  /** The last two of at least two separator-free segments, joined, are the short path. */
  lemma LastTwoSegments(segs: seq<string>, file: string)
    requires |segs| >= 2 && Join(segs, '/') == file && Count(file, '/') == |segs| - 1
    requires forall i :: 0 <= i < |segs| ==> '/' !in segs[i]
    ensures ShortPathOf(segs[|segs| - 2] + "/" + segs[|segs| - 1], file)
  {
    var n := |segs|;
    var p := segs[n - 2] + "/" + segs[n - 1];
    var tail := segs[n - 2..];
    assert Join(tail, '/') == p by {
      assert tail[1..] == [segs[n - 1]];
    }
    SlashBetween(segs[n - 2], segs[n - 1]);
    if n == 2 {
      assert segs == tail;
    } else {
      var head := segs[..n - 2];
      assert segs == head + tail;
      JoinAppend(head, tail, '/');
      SuffixAfterSlash(Join(head, '/'), p);
    }
  }

  /** Two separator-free segments joined by one '/' hold exactly one '/'. */
  lemma SlashBetween(x: string, y: string)
    requires '/' !in x && '/' !in y
    ensures Count(x + "/" + y, '/') == 1
  {
    CountAppend(x + "/", y, '/');
    CountAppend(x, "/", '/');
  }

  lemma SuffixAfterSlash(h: string, p: string)
    ensures var file := h + "/" + p; file[|file| - |p|..] == p && file[|file| - |p| - 1] == '/'
  {
  }

  /** The short path is determined by the file: at most one suffix fits the description. */
  lemma ShortPathUnique(p: string, q: string, file: string)
    requires ShortPathOf(p, file) && ShortPathOf(q, file)
    ensures p == q
  {
    if Count(file, '/') >= 2 {
      if |p| < |q| {
        LongerSuffixHasMoreSlashes(p, q, file);
        assert false;
      } else if |q| < |p| {
        LongerSuffixHasMoreSlashes(q, p, file);
        assert false;
      }
    }
  }

  /** A suffix that reaches past the '/' in front of a shorter suffix holds one more '/'. */
  lemma LongerSuffixHasMoreSlashes(p: string, q: string, file: string)
    requires |p| < |q| <= |file|
    requires file[|file| - |p|..] == p && file[|file| - |q|..] == q
    requires file[|file| - |p| - 1] == '/'
    ensures Count(q, '/') >= Count(p, '/') + 1
  {
    var k := |q| - |p|;
    assert q == q[..k - 1] + [q[k - 1]] + p;
    assert q[k - 1] == file[|file| - |p| - 1];
    CountAppend(q[..k - 1] + [q[k - 1]], p, '/');
    CountAppend(q[..k - 1], [q[k - 1]], '/');
  }

  /** Whatever leads up to them, a call site in directory `dir`, file `name`, is reported as
      `dir/name:line`; for example `.../pkg/sub/file.ext` at line 42 gives `sub/file.ext:42`. */
  lemma CallerLocationKeepsLastTwo(prefix: string, dir: string, name: string, line: int)
    requires '/' !in dir && '/' !in name
    ensures CallerLocation(prefix + "/" + dir + "/" + name, line) == dir + "/" + name + ":" + IntToDecimal(line)
  {
    var q := dir + "/" + name;
    assert prefix + "/" + dir + "/" + name == prefix + "/" + q;
    LastTwoIsShortPath(prefix, dir, name);
    CallerLocationIs(prefix + "/" + q, line, q);
  }

  /** The formatter's output is the one short path of the file, a colon and the line. */
  lemma CallerLocationIs(file: string, line: int, p: string)
    requires ShortPathOf(p, file)
    ensures CallerLocation(file, line) == p + ":" + IntToDecimal(line)
  {
    ShortPathUnique(ShortPath(file), p, file);
  }

  lemma LastTwoIsShortPath(prefix: string, dir: string, name: string)
    requires '/' !in dir && '/' !in name
    ensures ShortPathOf(dir + "/" + name, prefix + "/" + (dir + "/" + name))
  {
    var q := dir + "/" + name;
    var file := prefix + "/" + q;
    CountAppend(dir + "/", name, '/');
    CountAppend(dir, "/", '/');
    CountAppend(prefix + "/", q, '/');
    CountAppend(prefix, "/", '/');
    assert file[|file| - |q|..] == q;
    assert file[|file| - |q| - 1] == '/';
  }

  // ---------------------------------------------------------------------------
  // Field bindings.

  /** `bs` binds every entry of `m` exactly once, in some order, and nothing else. */
  ghost predicate ListsEntries<V>(bs: seq<Binding<V>>, m: map<string, V>)
  {
    && |bs| == |m|
    && (forall i :: 0 <= i < |bs| ==> bs[i].Bind? && bs[i].key in m && bs[i].value == m[bs[i].key])
    && (forall i, j :: 0 <= i < j < |bs| ==> bs[i].key != bs[j].key)
    && (forall k :: k in m ==> exists i :: 0 <= i < |bs| && bs[i].key == k)
  }

  /** Ranging over an empty map binds nothing. */
  lemma NoEntries<V>(m: map<string, V>)
    requires |m| == 0
    ensures ListsEntries([], m)
  {
    assert m == map[];
  }

  /** Binds every entry of a map onto a logger, one derived logger per entry, as the loops at
      logger.go:61-63 and 89-91 do. Go visits the entries in an unspecified order, so each step
      picks any key not yet visited. */
  method BindEntries<V>(context: seq<Binding<V>>, m: map<string, V>) returns (r: seq<Binding<V>>)
    ensures |r| == |context| + |m| && r[..|context|] == context
    ensures ListsEntries(r[|context|..], m)
  {
    r := context;
    var remaining := m.Keys;
    ghost var added: seq<Binding<V>> := [];
    ghost var pos: map<string, nat> := map[];
    while remaining != {}
      invariant remaining <= m.Keys && r == context + added
      invariant |added| + |remaining| == |m|
      invariant forall i :: 0 <= i < |added| ==>
        added[i].Bind? && added[i].key in m && added[i].key !in remaining && added[i].value == m[added[i].key]
      invariant forall i, j :: 0 <= i < j < |added| ==> added[i].key != added[j].key
      invariant forall k :: k in m && k !in remaining ==> k in pos && pos[k] < |added| && added[pos[k]].key == k
      decreases remaining
    {
      var k :| k in remaining;
      pos := pos[k := |added|];
      added := added + [Bind(k, m[k])];
      r := r + [Bind(k, m[k])];
      remaining := remaining - {k};
    }
    assert r[..|context|] == context && r[|context|..] == added;
    forall k | k in m
      ensures exists i :: 0 <= i < |added| && added[i].key == k
    {
      assert added[pos[k]].key == k;
    }
  }

  /** The base logger of the facade built from `o`: bound to the rotating file, then one
      binding per global prefix entry, then the caller hook if asked for. */
  ghost predicate IsBaseLogger<V>(logger: ZeroLogger<V>, o: LogOptions<V>)
  {
    var g := |o.globalPrefix|;
    && logger.writer == RotateConfigOf(o)
    && |logger.context| == g + (if o.logWithCaller then 1 else 0)
    && ListsEntries(logger.context[..g], o.globalPrefix)
    && (o.logWithCaller ==> logger.context[g] == BindCaller)
  }

  /** The first step of `NewLogger`: the default record, then each option run on it in place,
      in the order given. */
  method ResolveOptions<V>(opts: seq<LogOption<V>>) returns (o: LogOptions<V>)
    ensures o == Resolve(opts)
  {
    var options := new OptionsRecord<V>();
    for i := 0 to |opts|
      invariant options.Value() == ApplyAll(Defaults(), opts[..i])
    {
      options.Apply(opts[i]);
      assert opts[..i + 1][..i] == opts[..i];
    }
    assert opts[..|opts|] == opts;
    o := options.Value();
  }

  /** `NewLogger(opts...)`. The process-wide zerolog settings are passed in and returned; the
      error result, always nil, is not modelled. */
  method NewLogger<V>(opts: seq<LogOption<V>>, prev: GlobalSettings) returns (l: Log<V>, settings: GlobalSettings)
    ensures l.opts == Resolve(opts)
    ensures settings == Configure(prev, l.opts)
    ensures IsBaseLogger(l.logger, l.opts)
  {
    var o := ResolveOptions(opts);

    settings := Configure(prev, o);
    var rotateWriter := RotateConfigOf(o);
    var context: seq<Binding<V>> := [];
    if |o.globalPrefix| > 0 {
      context := BindEntries(context, o.globalPrefix);
      assert context[0..] == context;
    } else {
      NoEntries(o.globalPrefix);
    }
    ghost var prefixed := context;
    assert ListsEntries(prefixed, o.globalPrefix) && |prefixed| == |o.globalPrefix|;
    if o.logWithCaller {
      context := context + [BindCaller];
    }
    assert context[..|prefixed|] == prefixed;
    l := Log(ZeroLogger(rotateWriter, context), o);
  }

  /** The logger `logSub(prefix)` derives from the facade `l` at Unix time `now`: the base
      context copied, one binding per prefix entry, then the timestamp if enabled. */
  ghost predicate IsSubLogger<V>(l: Log<V>, prefix: map<string, V>, now: int, sub: ZeroLogger<V>)
  {
    var base := l.logger.context;
    var n := |base| + |prefix|;
    && sub.writer == l.logger.writer
    && |sub.context| == n + (if l.opts.prefixTimestampEnable then 1 else 0)
    && sub.context[..|base|] == base
    && ListsEntries(sub.context[|base|..n], prefix)
    && (l.opts.prefixTimestampEnable ==> sub.context[n] == BindUnix(l.opts.prefixTimestampKey, now))
  }

  /** `l.logSub(prefix)`, with `time.Now().Unix()` given as `now`. The facade is a value, so
      its own logger is left as it was. */
  method LogSub<V>(l: Log<V>, prefix: map<string, V>, now: int) returns (sub: ZeroLogger<V>)
    ensures IsSubLogger(l, prefix, now, sub)
  {
    var base := l.logger.context;
    var context := base;
    if |prefix| > 0 {
      context := BindEntries(context, prefix);
    } else {
      NoEntries(prefix);
      assert context[|base|..] == [];
    }
    ghost var prefixed := context;
    if l.opts.prefixTimestampEnable {
      context := context + [BindUnix(l.opts.prefixTimestampKey, now)];
    }
    sub := ZeroLogger(l.logger.writer, context);
    SubLoggerParts(l, prefix, now, prefixed, sub);
  }

  lemma SubLoggerParts<V>(l: Log<V>, prefix: map<string, V>, now: int, prefixed: seq<Binding<V>>, sub: ZeroLogger<V>)
    requires |prefixed| == |l.logger.context| + |prefix| && prefixed[..|l.logger.context|] == l.logger.context
    requires ListsEntries(prefixed[|l.logger.context|..], prefix)
    requires sub.writer == l.logger.writer
    requires sub.context == prefixed +
      (if l.opts.prefixTimestampEnable then [BindUnix(l.opts.prefixTimestampKey, now)] else [])
    ensures IsSubLogger(l, prefix, now, sub)
  {
    var base := l.logger.context;
    assert sub.context[..|prefixed|] == prefixed;
    assert sub.context[..|base|] == base;
    assert sub.context[|base|..|prefixed|] == prefixed[|base|..];
  }

  /** The fourteen emission methods: `Info()` is `Emit(l, Info, map[], now)`, `InfoP(prefix)` is
      `Emit(l, Info, prefix, now)`, and likewise for the other six levels. */
  method Emit<V>(l: Log<V>, level: Level, prefix: map<string, V>, now: int) returns (e: Event<V>)
    ensures e.level == level && IsSubLogger(l, prefix, now, e.logger)
  {
    var sub := LogSub(l, prefix, now);
    e := Event(level, sub);
  }

  /** A plain emission adds to the base bindings only the timestamp, and only when enabled. */
  lemma PlainEmissionBindings<V>(l: Log<V>, now: int, sub: ZeroLogger<V>)
    requires IsSubLogger(l, map[], now, sub)
    ensures sub.context == l.logger.context +
      (if l.opts.prefixTimestampEnable then [BindUnix(l.opts.prefixTimestampKey, now)] else [])
  {
  }
}
