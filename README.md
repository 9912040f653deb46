# ezLogzero, modelled in Dafny

ezLogzero is a thin Go facade over the zerolog structured logger and the lumberjack rotating
file writer. Its own logic is small: a record of logging options, built from literal defaults
by applying `With*` mutators in order; the values derived from that record and handed to zerolog
and lumberjack; a formatter for caller locations; and the order in which field bindings are
attached to the base logger and to the per-call derived loggers. This project models that logic
and proves what it promises.

- `strings.dfy`, module `Strings`: Go's `strings.Split` on one separator character with its
  inverse `Join`, and the `%d` rendering of an integer with its inverse.
- `options.dfy`, module `Options`: the `logOptions` record as the value `LogOptions`, one
  `LogOption` constructor per `With*` function, the default record, and applying options one at
  a time (`ApplyOption`) or as a left fold (`ApplyAll`). `Patch` says which fields each mutator
  writes and with which value; the frame, override, commutation and idempotence lemmas are
  proved from it. The class `OptionsRecord` is the struct as `NewLogger` holds it: each closure
  updates its fields in place.
- `logger.dfy`, module `Logger`: `NewLogger` (the loop over the options, the zerolog
  process-wide settings, the lumberjack settings, the global prefix and caller bindings), the
  caller formatter, `logSub` and the emission methods.

Values of type `interface{}` are the type parameter `V`. The process-wide zerolog settings
are a `GlobalSettings` value that `NewLogger` takes and returns. `time.Now().Unix()` is the
parameter `now`. A zerolog logger is modelled by its writer settings and its list of bindings.
Go visits map entries in an unspecified order, so `BindEntries` picks any unvisited key at each
step; its contract says every entry is bound exactly once and says nothing about the order.

The caller formatter splits on `/` only, whatever the platform's path separator. The file name
puts a `/` after the directory even when the directory already ends in one, so the default is
`./logs//access.log`.

## Model

| member | source | states |
|---|---|---|
| Options.ApplyOptionFrame | ezLogzero/options.go:31-124 | each mutator sets exactly the fields listed in its patch, to values fixed by its own arguments, and every other field keeps its old value |
| Options.ApplyOptionWrites | ezLogzero/options.go:31-124 | a field a mutator writes takes the value its patch carries, whatever it held before |
| Options.ApplyOptionKeeps | ezLogzero/options.go:31-124 | a field a mutator does not write is left as it was |
| Options.OptionsRecord.Apply | ezLogzero/options.go:31-124 | running a closure on the record in place leaves the record equal to `ApplyOption` of its old contents |
| Options.OptionsRecord.SetOutputFilePath | ezLogzero/options.go:31-36 | the directory and base name are replaced, every other field is unchanged |
| Options.OptionsRecord.SetOutputFileRotate | ezLogzero/options.go:38-45 | the four rotation fields are replaced together, every other field is unchanged |
| Options.OptionsRecord.SetLogUnixTimestamp | ezLogzero/options.go:47-51 | the Unix-time flag is set, every other field is unchanged |
| Options.OptionsRecord.SetLevel | ezLogzero/options.go:53-93 | the level is replaced by the closure's constant, every other field is unchanged |
| Options.OptionsRecord.SetGlobalPrefix | ezLogzero/options.go:95-99 | the global prefix map is replaced outright, every other field is unchanged |
| Options.OptionsRecord.SetPrefixTimestamp | ezLogzero/options.go:101-106 | the per-call timestamp is enabled and its key set in one step, every other field is unchanged |
| Options.OptionsRecord.SetCaller | ezLogzero/options.go:108-112 | the caller flag is set, every other field is unchanged |
| Options.OptionsRecord.SetCustomTimeKey | ezLogzero/options.go:114-118 | the time key is replaced, every other field is unchanged |
| Options.OptionsRecord.SetCustomMsgKey | ezLogzero/options.go:120-124 | the message key is replaced, every other field is unchanged |
| Options.OptionsRecord.constructor | ezLogzero/logger.go:22-30 | the composite literal is the default record |
| Options.Commute | ezLogzero/options.go:114-124 | mutators that write disjoint fields (the two custom keys with each other or with any other mutator) give the same record in either order |
| Options.LaterOverrides | ezLogzero/logger.go:33-35 | a later mutator writing every field an earlier one wrote erases the earlier one's effect; this covers a second `WithGlobalPrefix`, which replaces the whole map |
| Options.Idempotent | ezLogzero/options.go:47-112 | applying any mutator twice equals applying it once, the flag setters `WithLogUnixTimestamp` and `WithCaller` included |
| Options.SecondLevelWins | ezLogzero/options.go:53-93 | two level mutators in a row leave the second one's level and nothing of the first |
| Options.ApplyAllAppend | ezLogzero/logger.go:33-35 | folding a concatenated option list is folding the first part and then the second |
| Options.SwapInFold | ezLogzero/logger.go:33-35 | anywhere in the option list, two neighbouring mutators that write disjoint fields can be swapped without changing the folded record |
| Options.ApplyAllUntouched | ezLogzero/logger.go:33-35 | a field no option in the list writes keeps its starting value |
| Options.ApplyAllLastWriter | ezLogzero/logger.go:33-35 | a field holds the value written by the last option in the list that writes it |
| Options.ResolveNoOptions | ezLogzero/logger.go:22-30 | with no options the record is level Info, path `./logs/`, name `access`, size 10, age 1, backups 1, compression on, all other flags off, keys empty, prefix empty |
| Options.ResolveKeepsDefaults | ezLogzero/logger.go:22-35 | any field that no given option writes keeps its default |
| Strings.Split | ezLogzero/logger.go:68 | splitting gives one more segment than there are separators (so at least one, even for the empty path), no segment holds a separator, and joining the segments gives the path back |
| Strings.IntToDecimal | ezLogzero/logger.go:74 | the line is rendered as at least one digit, with a leading minus exactly when negative, nothing but digits after it, and no leading zero unless the line is 0 |
| Strings.IntToDecimalRoundTrip | ezLogzero/logger.go:74 | parsing the rendered line gives the line back |
| Logger.LogFileName | ezLogzero/logger.go:52 | the file name is the directory, one `/`, the base name and `.log`, in that order and with nothing else |
| Logger.LogFileNameInjective | ezLogzero/logger.go:52 | within one directory, distinct base names give distinct file names |
| Logger.DefaultLogFileName | ezLogzero/logger.go:52 | with the default record the file is `./logs//access.log` |
| Logger.Configure | ezLogzero/logger.go:37-66 | the level is always written; the Unix time format, the custom time and message field names and the caller formatter are written only when the options ask for them (a key only when non-empty) and otherwise the previous setting is kept |
| Logger.ConfigureIdempotent | ezLogzero/logger.go:37-49 | configuring twice from the same options changes nothing further |
| Logger.SecondFacadeOverrides | ezLogzero/logger.go:37-49 | a second facade replaces the first's level and non-empty field names, while a time field name only the first set survives |
| Logger.ShortPath | ezLogzero/logger.go:67-73 | the kept part of the path is a suffix of it with at most one `/`: the whole path when it has at most one `/`, otherwise the part after the second-to-last `/` |
| Logger.ShortPathUnique | ezLogzero/logger.go:67-73 | at most one string meets that description, so the description fixes the formatter's output |
| Logger.CallerLocation | ezLogzero/logger.go:66-75 | the output is the short path, one `:` and the decimal line, and the text before the last `:` holds at most one `/` |
| Logger.CallerLocationIs | ezLogzero/logger.go:66-75 | any string meeting the short-path description, followed by `:` and the line, is the formatter's output |
| Logger.CallerLocationKeepsLastTwo | ezLogzero/logger.go:66-75 | a path ending in `dir/name` is reported as `dir/name:line`, whatever precedes it |
| Logger.BindEntries | ezLogzero/logger.go:60-64 | ranging over a map appends one binding per entry, each key once with its own value, after the unchanged earlier bindings |
| Logger.ResolveOptions | ezLogzero/logger.go:22-35 | the record built in place from the literal defaults by running each option in order equals the left fold of the options over the defaults |
| Logger.NewLogger | ezLogzero/logger.go:19-80 | the options are the left fold of the given mutators over the defaults; the global settings are configured from them; the writer gets the composed file name and rotation values; the base logger binds every global prefix entry once, then the caller hook exactly when enabled |
| Logger.LogSub | ezLogzero/logger.go:86-98 | the derived logger keeps the base bindings unchanged, then binds each prefix entry once, then the timestamp key with the given time exactly when enabled |
| Logger.Emit | ezLogzero/logger.go:100-154 | each emission method starts an event at its own level on a freshly derived logger |
| Logger.PlainEmissionBindings | ezLogzero/logger.go:100-126 | a plain emission adds to the base bindings only the timestamp, and only when enabled |

## Left out

- Severity gating, event construction, JSON serialization and the meaning of zerolog's
  process-wide settings belong to zerolog; only the values written into those settings are
  modelled.
- File writing, rotation and compression belong to lumberjack; only the settings handed to it
  are modelled.
- A nil `LogOption` passed to `NewLogger` panics where the option is called at logger.go:34;
  the `LogOption` datatype has one case per `With*` function and no nil case, so the model
  cannot express that panic and `NewLogger` always returns.
- `NewLogger`'s error result is always nil, so it is not modelled.
- `time.Now().Unix()` is nondeterministic; the time is the parameter `now`.
- Go map iteration order is unspecified; binding lists are specified up to that order.
- Log.Writer(), the escape hatch that returns the underlying logger, is a plain accessor of
  library state.
- Process termination after `Fatal` and the panic after `Panic` are zerolog runtime effects.
- The `ctx` and `initTime` fields of `Log` are never set, so they are not modelled.
- zerolog's numeric level constants and the caller hook's field name are library constants;
  levels are an enumeration and the hook is the binding `BindCaller`.
- The fourteen emission entry points are one method, taking the level and the prefix map;
  the plain forms pass an empty map where Go passes nil, which Go treats the same way.
