# gopkg: string masking and the configurable logger, in Dafny

This project models two parts of the Go package collection `gopkg`:

- **`stringx` masking helpers** (`stringx/hide.go`). `Hide(s, prefix, suffix, mask)` masks a
  string completely when it has at most `prefix + suffix` runes. Otherwise it keeps the first
  `prefix` and the last `suffix` runes around exactly four masks. `HidePhone`, `HideIDCard` and
  `HideBankCard` call it with fixed counts. `HideEmail` masks the part before the first `@` and
  keeps the rest. The module `Stringx` (`stringx_hide.dfy`) holds these as functions over
  `seq<char>`, one code point per rune.
- **`logx` logger** (`logx/logger.go`). A `Logger` object holds a writer, a prefix, a formatter
  and a call depth. Three setters each assign one field. Every log call takes a snapshot of the
  fields and maps the depth 0 to 2. It looks up the call site, falling back to `"???"` and line 0.
  It builds one entry and writes the formatter's bytes exactly once, to standard output when the
  writer is nil. The module `Logx` (`logx_logger.dfy`) holds a class `Logger` with these fields,
  setter methods with `modifies this`, and log methods whose only frame is an `Output` object.
  That object records every write.

The log methods are proved against pure functions of a configuration snapshot (`EntryFor`,
`WriteFor`, `Target`, `EffectiveDepth`, `SiteOf`). The setters are proved against `Apply`, a
function on `Config` values. Over that function, lemmas show that after any sequence of setter
calls each field holds the last value set for it. They also show that the call depth can never
leave the unset value, so every entry made through the API has depth 2.

Outside collaborators are parameters, bundled in an `Env` value:
- the clock reading (`now`);
- `runtime.Caller` as a function from depth to an optional call site;
- `fmt.Sprintf` as a function from format and arguments to a string;
- the destination's reply to a write, as a function from (writer, bytes) to an optional error.

Go's `nil` is `None` of `Wrappers.Option`.

Two points where the code's behaviour is subtler than its comments:
- `HideEmail` compares the **byte** offset returned by `strings.Index` with 2, but masks **runes**.
  A local part of two ASCII characters (`ab@x.io`) is returned unchanged. A local part of two
  two-byte runes (`éé@x.io`) is four bytes long, so it is masked completely (`**@x.io`). The
  model keeps this (`ByteLength`, `HideEmailMultiByteExample`).
- `Hide` with a negative count panics in Go only on the long branch, where the slices run out of
  range. `HideChecked` takes signed counts and returns `None` exactly there.

## Model

| member | source | states |
|---|---|---|
| `Stringx.Repeat` | stringx/hide.go:36 | `strings.Repeat(string(mask), n)` for a mask that is a Unicode scalar value yields exactly `n` runes, each equal to `mask` |
| `Stringx.Hide` | stringx/hide.go:30-41 | at most `prefix+suffix` runes: as many masks as input runes; otherwise length `prefix+4+suffix`, the first `prefix` runes kept, exactly four masks, then the last `suffix` runes kept |
| `Stringx.HideChecked` | stringx/hide.go:30-41 | with signed counts the call fails (Go panics) exactly when the string is longer than `prefix+suffix` and a count is negative; short strings are fully masked whatever the counts; for non-negative counts it agrees with `Hide` |
| `Stringx.HideUnique` | stringx/hide.go:35-40 | any string meeting `Hide`'s contract is `Hide`'s result, so the contract states the whole behaviour |
| `Stringx.HideIdempotent` | stringx/hide.go:35-40 | masking a masked string again gives the same string |
| `Stringx.HideRevealsOnlyEnds` | stringx/hide.go:39-40 | long inputs that share their first `prefix` and last `suffix` runes mask to the same string, whatever their lengths and middles |
| `Stringx.HideShortDependsOnLength` | stringx/hide.go:35-37 | short inputs of equal length mask to the same string |
| `Stringx.HidePhone` | stringx/hide.go:6-8 | seven runes or fewer are fully masked; a longer number becomes 11 runes: its first 3, `****`, its last 4 |
| `Stringx.HideIDCard` | stringx/hide.go:21-23 | ten runes or fewer are fully masked; a longer id becomes 14 runes: its first 6, `****`, its last 4 |
| `Stringx.HideBankCard` | stringx/hide.go:26-28 | eight runes or fewer are fully masked; a longer number becomes 12 runes: its first 4, `****`, its last 4 |
| `Stringx.HideExamples` | stringx/hide.go:6-28 | concrete masks of an 11-digit phone number, a 7-digit one, an 18-digit id card and a 16-digit bank card |
| `Stringx.Utf8Width` | stringx/hide.go:12 | a code point takes 1 to 4 bytes in UTF-8, and 1 exactly when it is ASCII |
| `Stringx.ByteLength` | stringx/hide.go:12-13 | the byte length of a string is at least its rune count, with equality exactly for ASCII strings |
| `Stringx.IndexOf` | stringx/hide.go:12 | the index of the first occurrence, or -1 exactly when there is none |
| `Stringx.HideEmail` | stringx/hide.go:11-18 | no `@`, or at most 2 bytes before the first `@`: unchanged; otherwise everything from the first `@` on is kept, and the local part becomes its first 2 runes and `****` when it has more than 2 runes, or all masks when it has 2 runes or fewer |
| `Stringx.HideEmailAscii` | stringx/hide.go:12-17 | with an ASCII local part, a local part of at most 2 characters is untouched and a longer one becomes its first 2 characters and `****` |
| `Stringx.HideEmailIdempotent` | stringx/hide.go:11-18 | masking a masked address again gives the same address |
| `Stringx.HideEmailLongExample` | stringx/hide.go:17 | `bob@x.io` becomes `bo****@x.io` |
| `Stringx.HideEmailShortExample` | stringx/hide.go:13-14 | `ab@x.io` is returned unchanged |
| `Stringx.HideEmailMultiByteExample` | stringx/hide.go:12-17 | `éé@x.io` has a 4-byte local part and becomes `**@x.io` |
| `Logx.EffectiveDepth` | logx/logger.go:96-99 | the depth used is never 0: 2 when the stored depth is 0, the stored depth otherwise |
| `Logx.Target` | logx/logger.go:110-113 | a nil writer writes to standard output, any other writer to itself |
| `Logx.SiteOf` | logx/logger.go:104-108 | a failed lookup gives file `"???"` and line 0, a successful one its own file and line |
| `Logx.EntryFor` | logx/logger.go:102-121 | the entry carries the clock reading, the requested level, the snapshot's prefix, the effective depth, the call site looked up at that depth (or `"???"`/0) and the formatted message |
| `Logx.WriteFor` | logx/logger.go:110-113 | the one write of a log call goes to standard output when the snapshot's writer is nil and to that writer otherwise, and carries the snapshot's formatter applied to `EntryFor` |
| `Logx.Apply` | logx/logger.go:45-59 | one setter call assigns the field it names to its argument and leaves the other fields, and always the call depth, as they were |
| `Logx.ApplyAll` | logx/logger.go:42-60 | a sequence of setter calls, first to last, never changes the call depth, and leaves any field that no call in the sequence sets as it was |
| `Logx.NewConfig` | logx/logger.go:25-30 | the zero logger followed by `SetOutput(w)` and `SetFormatter(DefaultFormatter)` has writer `w`, empty prefix, the default formatter and depth 0 |
| `Logx.LastSetterWins` | logx/logger.go:42-60 | after any sequence of setter calls each field holds the argument of its last setter (or its old value) and the call depth is unchanged |
| `Logx.DepthThroughApi` | logx/logger.go:96-99 | every entry logged by a logger from `New` after any setter calls has depth 2 |
| `Logx.UnsetOutputFallsBack` | logx/logger.go:45 | once the writer is set to nil, writes go to standard output until the writer is set again |
| `Logx.NeverSetWritesStdout` | logx/logger.go:25-30 | a logger created with a nil writer whose writer is never set writes to standard output |
| `Logx.Output.Write` | logx/logger.go:113 | a write is recorded once, in order, in a ghost trace of (destination, bytes) pairs, and returns the destination's error |
| `Logx.Logger.Snapshot` | logx/logger.go:93-96 | the snapshot a log call reads holds the logger's writer, prefix, formatter and call depth, all four read together |
| `Logx.Logger.Zero` | logx/logger.go:26 | the zero value has a nil writer and formatter, an empty prefix and depth 0 |
| `Logx.Logger.SetOutput` | logx/logger.go:42-46 | assigns the writer and leaves prefix, formatter and depth unchanged |
| `Logx.Logger.SetPrefix` | logx/logger.go:49-53 | assigns the prefix and leaves writer, formatter and depth unchanged |
| `Logx.Logger.SetFormatter` | logx/logger.go:56-60 | assigns the formatter and leaves writer, prefix and depth unchanged |
| `Logx.Logger.Emit` | logx/logger.go:90-123 | changes no logger field; performs exactly one write, of the formatter's bytes for `EntryFor` of the snapshot, to `Target` of the snapshot's writer; returns that write's error |
| `Logx.Logger.Debug` | logx/logger.go:63-65 | one write of the entry at `LevelDebug`; the error is discarded |
| `Logx.Logger.Info` | logx/logger.go:68-70 | one write of the entry at `LevelInfo`; the error is discarded |
| `Logx.Logger.Warn` | logx/logger.go:73-75 | one write of the entry at `LevelWarn`; the error is discarded |
| `Logx.Logger.Error` | logx/logger.go:78-80 | one write of the entry at `LevelError`; the error is discarded |
| `Logx.Logger.Log` | logx/logger.go:82-84 | one write of the entry at the given level; returns the destination's error unchanged |
| `Logx.New` | logx/logger.go:25-30 | a fresh logger whose fields are those of `NewConfig` |

`Logx.Client` states, from the contracts alone, the caller-side scenarios. The prefix set last is
the one an entry carries. A custom formatter's bytes are written unchanged. A failing
destination's error reaches `Log`'s caller. A nil writer stays nil while its writes go to
standard output.

## Left out

- Locking (`sync.RWMutex`, logx/logger.go:34, 43-44, 92, 100): the model is sequential, so the
  snapshot is a plain read of the four fields. The atomic-snapshot property under concurrency is
  not stated.
- `runtime.Caller`, `fmt.Sprintf`, `time.Now` and the real `io.Writer`/`os.Stdout` are parameters
  (`Env`). Verb parsing, error-marker text and the byte count returned by `Write` are not modelled.
- `DefaultFormatter`, `Level` and `LogEntry` are defined in files that are not part of this model.
  The default formatter is a parameter of `New`. `LogEntry` has only the fields the write path
  fills in. `Level` is an enumeration of the four levels used.
- The `ILogger` interface (logx/logger.go:12-21) is a declaration only; the `Logger` class has each
  of its methods.
- `Logx.Logger.Emit`: a nil formatter panics in Go, so the log methods require a formatter to be
  set. `SetFormatter(nil)` and the zero value can still be represented.
- Go's UTF-8 decoding of invalid bytes (which become U+FFFD) is not modelled: strings are
  sequences of Unicode scalar values.
- `Stringx.Hide`: the mask is a `char`, so it is limited to Unicode scalar values. Go's `mask` is
  any `rune` (an `int32`), and `string(mask)` turns a negative value, a surrogate
  (0xD800-0xDFFF) or a value above 0x10FFFF into U+FFFD. For such masks Go writes U+FFFD runes,
  which this model does not express. The same holds for `Stringx.Repeat` and `Stringx.HideChecked`.
- `Stringx.Hide` takes `nat` counts. Signed counts and the panic they can cause are in
  `HideChecked`. Overflow of Go's `int` in `prefix+suffix` is not modelled.
