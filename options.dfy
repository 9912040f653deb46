/** The option set of ezLogzero: the `logOptions` record, its defaults, and the `With*`
    mutators that callers hand to `NewLogger`. */
module Options {

  /** zerolog's severity levels, least severe first. */
  datatype Level = Trace | Debug | Info | Warn | Error | Fatal | Panic

  /** The record `logOptions`. `V` stands for the `interface{}` values of the global prefix,
      which the facade never inspects. */
  datatype LogOptions<V> = LogOptions(
    logFilePath: string,
    logFileName: string,
    logUnixTime: bool,
    logLevel: Level,
    logWithCaller: bool,
    customTimeKey: string,
    customMsgKey: string,
    globalPrefix: map<string, V>,
    prefixTimestampEnable: bool,
    prefixTimestampKey: string,
    logMaxSize: int,
    logMaxAge: int,
    logMaxBackups: int,
    logBackupCompress: bool)

  /** One `LogOption` closure per `With*` constructor function, with the arguments it captured. */
  datatype LogOption<V> =
    | WithOutputFilePath(path: string, filename: string)
    | WithOutputFileRotate(maxSize: int, maxAge: int, maxBackup: int, compressEnable: bool)
    | WithLogUnixTimestamp
    | WithLevelTrace
    | WithLevelDebug
    | WithLevelInfo
    | WithLevelWarn
    | WithLevelError
    | WithLevelFatal
    | WithLevelPanic
    | WithGlobalPrefix(prefix: map<string, V>)
    | WithPrefixTimestamp(timestampKey: string)
    | WithCaller
    | WithCustomTimeKey(timeKey: string)
    | WithCustomMsgKey(msgKey: string)

  /** The literal record `NewLogger` starts from; the fields it does not name keep Go's zero
      values (false, "", a nil map). */
  function Defaults<V>(): LogOptions<V>
  {
    LogOptions(
      logFilePath := "./logs/",
      logFileName := "access",
      logUnixTime := false,
      logLevel := Info,
      logWithCaller := false,
      customTimeKey := "",
      customMsgKey := "",
      globalPrefix := map[],
      prefixTimestampEnable := false,
      prefixTimestampKey := "",
      logMaxSize := 10,
      logMaxAge := 1,
      logMaxBackups := 1,
      logBackupCompress := true)
  }

  // ---------------------------------------------------------------------------
  // A field-by-field view of the record, used to say which fields a mutator writes.

  datatype Field =
    | PathField | NameField | UnixTimeField | LevelField | CallerField
    | TimeKeyField | MsgKeyField | GlobalPrefixField
    | PrefixTimestampEnableField | PrefixTimestampKeyField
    | MaxSizeField | MaxAgeField | MaxBackupsField | CompressField

  datatype FieldValue<V> = Str(s: string) | Flag(b: bool) | Num(n: int) | Lvl(l: Level) | Prefix(m: map<string, V>)

  function Get<V>(o: LogOptions<V>, f: Field): FieldValue<V>
  {
    match f
    case PathField => Str(o.logFilePath)
    case NameField => Str(o.logFileName)
    case UnixTimeField => Flag(o.logUnixTime)
    case LevelField => Lvl(o.logLevel)
    case CallerField => Flag(o.logWithCaller)
    case TimeKeyField => Str(o.customTimeKey)
    case MsgKeyField => Str(o.customMsgKey)
    case GlobalPrefixField => Prefix(o.globalPrefix)
    case PrefixTimestampEnableField => Flag(o.prefixTimestampEnable)
    case PrefixTimestampKeyField => Str(o.prefixTimestampKey)
    case MaxSizeField => Num(o.logMaxSize)
    case MaxAgeField => Num(o.logMaxAge)
    case MaxBackupsField => Num(o.logMaxBackups)
    case CompressField => Flag(o.logBackupCompress)
  }

  /** Two records that agree on every field are the same record. */
  lemma FieldsDetermine<V>(a: LogOptions<V>, b: LogOptions<V>)
    requires forall f :: Get(a, f) == Get(b, f)
    ensures a == b
  {
    assert Get(a, PathField) == Get(b, PathField);
    assert Get(a, NameField) == Get(b, NameField);
    assert Get(a, UnixTimeField) == Get(b, UnixTimeField);
    assert Get(a, LevelField) == Get(b, LevelField);
    assert Get(a, CallerField) == Get(b, CallerField);
    assert Get(a, TimeKeyField) == Get(b, TimeKeyField);
    assert Get(a, MsgKeyField) == Get(b, MsgKeyField);
    assert Get(a, GlobalPrefixField) == Get(b, GlobalPrefixField);
    assert Get(a, PrefixTimestampEnableField) == Get(b, PrefixTimestampEnableField);
    assert Get(a, PrefixTimestampKeyField) == Get(b, PrefixTimestampKeyField);
    assert Get(a, MaxSizeField) == Get(b, MaxSizeField);
    assert Get(a, MaxAgeField) == Get(b, MaxAgeField);
    assert Get(a, MaxBackupsField) == Get(b, MaxBackupsField);
    assert Get(a, CompressField) == Get(b, CompressField);
  }

  /** What each mutator writes: the fields it assigns and the value each receives. A mutator
      writes values that depend only on its own arguments, never on the record it is given. */
  function Patch<V>(opt: LogOption<V>): map<Field, FieldValue<V>>
  {
    match opt
    case WithOutputFilePath(path, filename) => map[PathField := Str(path), NameField := Str(filename)]
    case WithOutputFileRotate(maxSize, maxAge, maxBackup, compressEnable) =>
      map[MaxSizeField := Num(maxSize), MaxAgeField := Num(maxAge),
          MaxBackupsField := Num(maxBackup), CompressField := Flag(compressEnable)]
    case WithLogUnixTimestamp => map[UnixTimeField := Flag(true)]
    case WithLevelTrace => map[LevelField := Lvl(Trace)]
    case WithLevelDebug => map[LevelField := Lvl(Debug)]
    case WithLevelInfo => map[LevelField := Lvl(Info)]
    case WithLevelWarn => map[LevelField := Lvl(Warn)]
    case WithLevelError => map[LevelField := Lvl(Error)]
    case WithLevelFatal => map[LevelField := Lvl(Fatal)]
    case WithLevelPanic => map[LevelField := Lvl(Panic)]
    case WithGlobalPrefix(prefix) => map[GlobalPrefixField := Prefix(prefix)]
    case WithPrefixTimestamp(k) =>
      map[PrefixTimestampEnableField := Flag(true), PrefixTimestampKeyField := Str(k)]
    case WithCaller => map[CallerField := Flag(true)]
    case WithCustomTimeKey(k) => map[TimeKeyField := Str(k)]
    case WithCustomMsgKey(k) => map[MsgKeyField := Str(k)]
  }

  /** The fields a mutator writes. */
  function Touches<V>(opt: LogOption<V>): set<Field>
  {
    Patch(opt).Keys
  }

  // ---------------------------------------------------------------------------
  // Applying mutators.

  /** Running one `LogOption` closure on a record. */
  function ApplyOption<V>(o: LogOptions<V>, opt: LogOption<V>): LogOptions<V>
  {
    match opt
    case WithOutputFilePath(path, filename) => o.(logFilePath := path, logFileName := filename)
    case WithOutputFileRotate(maxSize, maxAge, maxBackup, compressEnable) =>
      o.(logMaxSize := maxSize, logMaxAge := maxAge, logMaxBackups := maxBackup,
         logBackupCompress := compressEnable)
    case WithLogUnixTimestamp => o.(logUnixTime := true)
    case WithLevelTrace => o.(logLevel := Trace)
    case WithLevelDebug => o.(logLevel := Debug)
    case WithLevelInfo => o.(logLevel := Info)
    case WithLevelWarn => o.(logLevel := Warn)
    case WithLevelError => o.(logLevel := Error)
    case WithLevelFatal => o.(logLevel := Fatal)
    case WithLevelPanic => o.(logLevel := Panic)
    case WithGlobalPrefix(prefix) => o.(globalPrefix := prefix)
    case WithPrefixTimestamp(k) => o.(prefixTimestampEnable := true, prefixTimestampKey := k)
    case WithCaller => o.(logWithCaller := true)
    case WithCustomTimeKey(k) => o.(customTimeKey := k)
    case WithCustomMsgKey(k) => o.(customMsgKey := k)
  }

  /** Each mutator does what its patch says: every field it writes takes the value the patch
      carries, and every other field keeps its old value. */
  lemma ApplyOptionFrame<V>(o: LogOptions<V>, opt: LogOption<V>, f: Field)
    ensures Get(ApplyOption(o, opt), f) == if f in Patch(opt) then Patch(opt)[f] else Get(o, f)
  {
    if f in Patch(opt) {
      ApplyOptionWrites(o, opt, f);
    } else {
      ApplyOptionKeeps(o, opt, f);
    }
  }

  lemma ApplyOptionWrites<V>(o: LogOptions<V>, opt: LogOption<V>, f: Field)
    requires f in Patch(opt)
    ensures Get(ApplyOption(o, opt), f) == Patch(opt)[f]
  {
    if opt.WithOutputFilePath? || opt.WithOutputFileRotate? || opt.WithPrefixTimestamp? {
      ApplyOptionWritesGroup(o, opt, f);
    } else {
      ApplyOptionWritesOne(o, opt, f);
    }
  }

  /** The mutators that write more than one field. */
  lemma ApplyOptionWritesGroup<V>(o: LogOptions<V>, opt: LogOption<V>, f: Field)
    requires opt.WithOutputFilePath? || opt.WithOutputFileRotate? || opt.WithPrefixTimestamp?
    requires f in Patch(opt)
    ensures Get(ApplyOption(o, opt), f) == Patch(opt)[f]
  {
    match opt
    case WithOutputFilePath(_, _) =>
      assert f == PathField || f == NameField;
    case WithOutputFileRotate(_, _, _, _) =>
      assert f == MaxSizeField || f == MaxAgeField || f == MaxBackupsField || f == CompressField;
    case WithPrefixTimestamp(_) =>
      assert f == PrefixTimestampEnableField || f == PrefixTimestampKeyField;
  }

  /** The mutators that write a single field. */
  lemma ApplyOptionWritesOne<V>(o: LogOptions<V>, opt: LogOption<V>, f: Field)
    requires !(opt.WithOutputFilePath? || opt.WithOutputFileRotate? || opt.WithPrefixTimestamp?)
    requires f in Patch(opt)
    ensures Get(ApplyOption(o, opt), f) == Patch(opt)[f]
  {
    match opt
    case WithLogUnixTimestamp => assert f == UnixTimeField;
    case WithLevelTrace => assert f == LevelField;
    case WithLevelDebug => assert f == LevelField;
    case WithLevelInfo => assert f == LevelField;
    case WithLevelWarn => assert f == LevelField;
    case WithLevelError => assert f == LevelField;
    case WithLevelFatal => assert f == LevelField;
    case WithLevelPanic => assert f == LevelField;
    case WithGlobalPrefix(_) => assert f == GlobalPrefixField;
    case WithCaller => assert f == CallerField;
    case WithCustomTimeKey(_) => assert f == TimeKeyField;
    case WithCustomMsgKey(_) => assert f == MsgKeyField;
  }

  lemma ApplyOptionKeeps<V>(o: LogOptions<V>, opt: LogOption<V>, f: Field)
    requires f !in Patch(opt)
    ensures Get(ApplyOption(o, opt), f) == Get(o, f)
  {
    match opt
    case WithOutputFilePath(_, _) =>
    case WithOutputFileRotate(_, _, _, _) =>
    case WithLogUnixTimestamp =>
    case WithLevelTrace =>
    case WithLevelDebug =>
    case WithLevelInfo =>
    case WithLevelWarn =>
    case WithLevelError =>
    case WithLevelFatal =>
    case WithLevelPanic =>
    case WithGlobalPrefix(_) =>
    case WithPrefixTimestamp(_) =>
    case WithCaller =>
    case WithCustomTimeKey(_) =>
    case WithCustomMsgKey(_) =>
  }

  /** The options applied strictly left to right, as `NewLogger`'s loop does. */
  function ApplyAll<V>(o: LogOptions<V>, opts: seq<LogOption<V>>): LogOptions<V>
  {
    if opts == [] then o else ApplyOption(ApplyAll(o, opts[..|opts| - 1]), opts[|opts| - 1])
  }

  /** The record `NewLogger` resolves from its variadic options. */
  function Resolve<V>(opts: seq<LogOption<V>>): LogOptions<V>
  {
    ApplyAll(Defaults(), opts)
  }

  // ---------------------------------------------------------------------------
  // Properties of the mutators.

  /** Mutators that write disjoint sets of fields can be given in either order. */
  lemma Commute<V>(o: LogOptions<V>, a: LogOption<V>, b: LogOption<V>)
    requires Touches(a) !! Touches(b)
    ensures ApplyOption(ApplyOption(o, a), b) == ApplyOption(ApplyOption(o, b), a)
  {
    forall f ensures Get(ApplyOption(ApplyOption(o, a), b), f) == Get(ApplyOption(ApplyOption(o, b), a), f) {
      CommuteAt(o, a, b, f);
    }
    FieldsDetermine(ApplyOption(ApplyOption(o, a), b), ApplyOption(ApplyOption(o, b), a));
  }

  lemma CommuteAt<V>(o: LogOptions<V>, a: LogOption<V>, b: LogOption<V>, f: Field)
    requires f !in Touches(a) || f !in Touches(b)
    ensures Get(ApplyOption(ApplyOption(o, a), b), f) == Get(ApplyOption(ApplyOption(o, b), a), f)
  {
    ApplyOptionFrame(o, a, f);
    ApplyOptionFrame(o, b, f);
    ApplyOptionFrame(ApplyOption(o, a), b, f);
    ApplyOptionFrame(ApplyOption(o, b), a, f);
  }

  /** A later mutator that writes every field an earlier one wrote erases its effect. */
  lemma LaterOverrides<V>(o: LogOptions<V>, a: LogOption<V>, b: LogOption<V>)
    requires Touches(a) <= Touches(b)
    ensures ApplyOption(ApplyOption(o, a), b) == ApplyOption(o, b)
  {
    forall f ensures Get(ApplyOption(ApplyOption(o, a), b), f) == Get(ApplyOption(o, b), f) {
      OverrideAt(o, a, b, f);
    }
    FieldsDetermine(ApplyOption(ApplyOption(o, a), b), ApplyOption(o, b));
  }

  lemma OverrideAt<V>(o: LogOptions<V>, a: LogOption<V>, b: LogOption<V>, f: Field)
    requires f in Touches(a) ==> f in Touches(b)
    ensures Get(ApplyOption(ApplyOption(o, a), b), f) == Get(ApplyOption(o, b), f)
  {
    ApplyOptionFrame(o, a, f);
    ApplyOptionFrame(o, b, f);
    ApplyOptionFrame(ApplyOption(o, a), b, f);
  }

  /** Giving the same mutator twice is the same as giving it once; this covers the flag
      setters `WithLogUnixTimestamp` and `WithCaller` in particular. */
  lemma Idempotent<V>(o: LogOptions<V>, opt: LogOption<V>)
    ensures ApplyOption(ApplyOption(o, opt), opt) == ApplyOption(o, opt)
  {
    LaterOverrides(o, opt, opt);
  }

  /** Two level settings in a row leave the second one's level, whatever the two are. */
  lemma SecondLevelWins<V>(o: LogOptions<V>, a: LogOption<V>, b: LogOption<V>)
    requires Touches(a) == Touches(b) == {LevelField}
    ensures ApplyOption(ApplyOption(o, a), b).logLevel == ApplyOption(o, b).logLevel
    ensures ApplyOption(ApplyOption(o, a), b) == ApplyOption(o, b)
  {
    LaterOverrides(o, a, b);
  }

  /** Applying a list in two pieces is applying the first piece and then the second. */
  lemma {:induction false} ApplyAllAppend<V>(o: LogOptions<V>, a: seq<LogOption<V>>, b: seq<LogOption<V>>)
    ensures ApplyAll(o, a + b) == ApplyAll(ApplyAll(o, a), b)
  {
    if b == [] {
      assert a + b == a;
    } else {
      assert (a + b)[..|a + b| - 1] == a + b[..|b| - 1];
      ApplyAllAppend(o, a, b[..|b| - 1]);
    }
  }

  /** Anywhere in the option list, two neighbouring mutators that write disjoint fields can be
      swapped without changing the resolved record. */
  lemma SwapInFold<V>(o: LogOptions<V>, p: seq<LogOption<V>>, a: LogOption<V>, b: LogOption<V>, q: seq<LogOption<V>>)
    requires Touches(a) !! Touches(b)
    ensures ApplyAll(o, p + [a, b] + q) == ApplyAll(o, p + [b, a] + q)
  {
    var start := ApplyAll(o, p);
    ApplyAllAppend(o, p + [a, b], q);
    ApplyAllAppend(o, p + [b, a], q);
    ApplyAllAppend(o, p, [a, b]);
    ApplyAllAppend(o, p, [b, a]);
    ApplyAllPair(start, a, b);
    ApplyAllPair(start, b, a);
    Commute(start, a, b);
  }

  lemma ApplyAllPair<V>(o: LogOptions<V>, a: LogOption<V>, b: LogOption<V>)
    ensures ApplyAll(o, [a, b]) == ApplyOption(ApplyOption(o, a), b)
  {
    assert [a, b][..1] == [a];
    assert [a][..0] == [];
    assert ApplyAll(o, [a]) == ApplyOption(o, a);
  }

  /** A field that no option in the list writes keeps the value it started with. */
  lemma {:induction false} ApplyAllUntouched<V>(o: LogOptions<V>, opts: seq<LogOption<V>>, f: Field)
    requires forall i :: 0 <= i < |opts| ==> f !in Touches(opts[i])
    ensures Get(ApplyAll(o, opts), f) == Get(o, f)
  {
    if opts != [] {
      ApplyAllUntouched(o, opts[..|opts| - 1], f);
      ApplyOptionFrame(ApplyAll(o, opts[..|opts| - 1]), opts[|opts| - 1], f);
    }
  }

  /** Last writer wins: if the option at index `i` writes field `f` and no later option does,
      the resolved field holds the value that option wrote. */
  lemma {:induction false} ApplyAllLastWriter<V>(o: LogOptions<V>, opts: seq<LogOption<V>>, i: nat, f: Field)
    requires i < |opts| && f in Touches(opts[i])
    requires forall j :: i < j < |opts| ==> f !in Touches(opts[j])
    ensures Get(ApplyAll(o, opts), f) == Patch(opts[i])[f]
  {
    if i < |opts| - 1 {
      ApplyAllLastWriter(o, opts[..|opts| - 1], i, f);
    }
    ApplyOptionFrame(ApplyAll(o, opts[..|opts| - 1]), opts[|opts| - 1], f);
  }

  /** With no options the resolved record is exactly the literal default record. */
  lemma ResolveNoOptions<V>()
    ensures var d: LogOptions<V> := Resolve([]);
      && d.logLevel == Info && d.logFilePath == "./logs/" && d.logFileName == "access"
      && d.logMaxSize == 10 && d.logMaxAge == 1 && d.logMaxBackups == 1 && d.logBackupCompress
      && !d.logUnixTime && !d.logWithCaller && !d.prefixTimestampEnable
      && d.customTimeKey == "" && d.customMsgKey == "" && d.prefixTimestampKey == ""
      && d.globalPrefix == map[]
  {
  }

  /** Any field that no given option writes keeps its default. */
  lemma ResolveKeepsDefaults<V>(opts: seq<LogOption<V>>, f: Field)
    requires forall i :: 0 <= i < |opts| ==> f !in Touches(opts[i])
    ensures Get(Resolve(opts), f) == Get(Defaults<V>(), f)
  {
    ApplyAllUntouched(Defaults(), opts, f);
  }

  // ---------------------------------------------------------------------------
  // The record as `NewLogger` holds it: one struct that every closure updates in place.

  class OptionsRecord<V> {
    var logFilePath: string
    var logFileName: string
    var logUnixTime: bool
    var logLevel: Level
    var logWithCaller: bool
    var customTimeKey: string
    var customMsgKey: string
    var globalPrefix: map<string, V>
    var prefixTimestampEnable: bool
    var prefixTimestampKey: string
    var logMaxSize: int
    var logMaxAge: int
    var logMaxBackups: int
    var logBackupCompress: bool

    /** The record's current contents as a value. */
    function Value(): LogOptions<V>
      reads this
    {
      LogOptions(logFilePath, logFileName, logUnixTime, logLevel, logWithCaller,
                 customTimeKey, customMsgKey, globalPrefix, prefixTimestampEnable,
                 prefixTimestampKey, logMaxSize, logMaxAge, logMaxBackups, logBackupCompress)
    }

    /** The composite literal at the start of `NewLogger`. */
    constructor ()
      ensures Value() == Defaults()
    {
      logLevel := Info;
      logFilePath := "./logs/";
      logFileName := "access";
      logMaxSize := 10;
      logMaxAge := 1;
      logMaxBackups := 1;
      logBackupCompress := true;
      logUnixTime := false;
      logWithCaller := false;
      customTimeKey := "";
      customMsgKey := "";
      globalPrefix := map[];
      prefixTimestampEnable := false;
      prefixTimestampKey := "";
    }

    /** Runs the closure `opt` on this record in place, as each step of the loop at
        logger.go:33-35 does. */
    method Apply(opt: LogOption<V>)
      modifies this
      ensures Value() == ApplyOption(old(Value()), opt)
    {
      match opt
      case WithOutputFilePath(path, filename) => SetOutputFilePath(path, filename);
      case WithOutputFileRotate(maxSize, maxAge, maxBackup, compressEnable) =>
        SetOutputFileRotate(maxSize, maxAge, maxBackup, compressEnable);
      case WithLogUnixTimestamp => SetLogUnixTimestamp();
      case WithLevelTrace => SetLevel(Trace);
      case WithLevelDebug => SetLevel(Debug);
      case WithLevelInfo => SetLevel(Info);
      case WithLevelWarn => SetLevel(Warn);
      case WithLevelError => SetLevel(Error);
      case WithLevelFatal => SetLevel(Fatal);
      case WithLevelPanic => SetLevel(Panic);
      case WithGlobalPrefix(prefix) => SetGlobalPrefix(prefix);
      case WithPrefixTimestamp(k) => SetPrefixTimestamp(k);
      case WithCaller => SetCaller();
      case WithCustomTimeKey(k) => SetCustomTimeKey(k);
      case WithCustomMsgKey(k) => SetCustomMsgKey(k);
    }

    // The bodies of the closures, one per kind of mutator.

    method SetOutputFilePath(path: string, filename: string)
      modifies this
      ensures Value() == old(Value()).(logFilePath := path, logFileName := filename)
    {
      logFilePath := path;
      logFileName := filename;
    }

    method SetOutputFileRotate(maxSize: int, maxAge: int, maxBackup: int, compressEnable: bool)
      modifies this
      ensures Value() == old(Value()).(logMaxSize := maxSize, logMaxAge := maxAge,
                                       logMaxBackups := maxBackup, logBackupCompress := compressEnable)
    {
      logMaxSize := maxSize;
      logMaxAge := maxAge;
      logMaxBackups := maxBackup;
      logBackupCompress := compressEnable;
    }

    method SetLogUnixTimestamp()
      modifies this
      ensures Value() == old(Value()).(logUnixTime := true)
    {
      logUnixTime := true;
    }

    /** The body shared by the seven `WithLevel*` closures, each with its own constant. */
    method SetLevel(level: Level)
      modifies this
      ensures Value() == old(Value()).(logLevel := level)
    {
      logLevel := level;
    }

    method SetGlobalPrefix(prefix: map<string, V>)
      modifies this
      ensures Value() == old(Value()).(globalPrefix := prefix)
    {
      globalPrefix := prefix;
    }

    method SetPrefixTimestamp(k: string)
      modifies this
      ensures Value() == old(Value()).(prefixTimestampEnable := true, prefixTimestampKey := k)
    {
      prefixTimestampEnable := true;
      prefixTimestampKey := k;
    }

    method SetCaller()
      modifies this
      ensures Value() == old(Value()).(logWithCaller := true)
    {
      logWithCaller := true;
    }

    method SetCustomTimeKey(k: string)
      modifies this
      ensures Value() == old(Value()).(customTimeKey := k)
    {
      customTimeKey := k;
    }

    method SetCustomMsgKey(k: string)
      modifies this
      ensures Value() == old(Value()).(customMsgKey := k)
    {
      customMsgKey := k;
    }
  }
}
