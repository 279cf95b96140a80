/**
 * The configurable logger of package logx.
 *
 * The logger is a class whose four fields the setters assign in place. Its
 * outside collaborators are not modelled: the clock, the call-stack lookup,
 * printf-style formatting and the destination's reply to a write arrive in
 * an `Env` value, and the bytes written are recorded by an `Output` object,
 * so that the frame of a log call (`modifies out`) shows it never changes the
 * logger. Locking is left out: calls are sequential.
 */
module Logx {
  import opened Wrappers

  datatype Level = LevelDebug | LevelInfo | LevelWarn | LevelError

  type Bytes = seq<bv8>

  /** A point in time, as read from the clock; its representation is not modelled. */
  type Time = int

  /** An argument of a printf-style call; its content is not modelled. */
  type Arg(==)

  /** An error value returned by a destination's `Write`. */
  type WriteError = string

  /** A log destination; `Stdout` is the process's standard output. */
  datatype Writer = Stdout | Sink(id: nat)

  /** The fields of a log entry that the write path fills in. */
  datatype LogEntry = LogEntry(
    time: Time,
    level: Level,
    prefix: string,
    callDepth: int,
    file: string,
    line: int,
    message: string)

  /** A formatter renders an entry to the bytes written. */
  type Formatter = LogEntry -> Bytes

  /** What the call-stack lookup reports for a found frame. */
  datatype CallSite = CallSite(file: string, line: int)

  /**
   * The collaborators of one log call: the clock's reading, the call-stack
   * lookup by depth (`None` when the lookup fails), printf-style formatting,
   * and the error the destination reports for a write (`None` for nil).
   */
  datatype Env = Env(
    now: Time,
    caller: int -> Option<CallSite>,
    sprintf: (string, seq<Arg>) -> string,
    reply: (Writer, Bytes) -> Option<WriteError>)

  /** One write performed on a destination. */
  datatype WriteCall = WriteCall(to: Writer, data: Bytes)

  /** The four configuration fields of a logger, as one value. */
  datatype Config = Config(
    writer: Option<Writer>,
    prefix: string,
    formatter: Option<Formatter>,
    callDepth: int)

  /** The depth used when the stored call depth is the unset value 0. */
  const DefaultCallDepth: int := 2

  /** The file reported when the call-stack lookup fails. */
  const UnknownFile: string := "???"

  /** The call depth a log call uses: 0 stands for the default depth 2. */
  function EffectiveDepth(callDepth: int): (d: int)
    ensures d != 0
    ensures callDepth == 0 ==> d == DefaultCallDepth
    ensures callDepth != 0 ==> d == callDepth
  {
    if callDepth == 0 then DefaultCallDepth else callDepth
  }

  /** The destination of a write: a nil writer is replaced by standard output. */
  function Target(writer: Option<Writer>): (w: Writer)
    ensures writer.None? ==> w == Stdout
    ensures writer.Some? ==> w == writer.value
  {
    if writer.None? then Stdout else writer.value
  }

  /** The call site an entry carries: the lookup's answer, or `"???"` and 0. */
  function SiteOf(found: Option<CallSite>): (c: CallSite)
    ensures found.None? ==> c.file == UnknownFile && c.line == 0
    ensures found.Some? ==> c == found.value
  {
    if found.None? then CallSite(UnknownFile, 0) else found.value
  }

  /** The entry a log call builds from a configuration snapshot. */
  function EntryFor(cfg: Config, level: Level, format: string, args: seq<Arg>, env: Env): (e: LogEntry)
    ensures e.time == env.now
    ensures e.level == level
    ensures e.prefix == cfg.prefix
    ensures e.callDepth == EffectiveDepth(cfg.callDepth) && e.callDepth != 0
    ensures e.message == env.sprintf(format, args)
    ensures env.caller(e.callDepth).None? ==> e.file == UnknownFile && e.line == 0
    ensures env.caller(e.callDepth).Some? ==>
      e.file == env.caller(e.callDepth).value.file && e.line == env.caller(e.callDepth).value.line
  {
    var depth := EffectiveDepth(cfg.callDepth);
    var site := SiteOf(env.caller(depth));
    LogEntry(env.now, level, cfg.prefix, depth, site.file, site.line, env.sprintf(format, args))
  }

  /** The one write a log call performs under a configuration snapshot. */
  function WriteFor(cfg: Config, level: Level, format: string, args: seq<Arg>, env: Env): (w: WriteCall)
    requires cfg.formatter.Some?
    ensures cfg.writer.None? ==> w.to == Stdout
    ensures cfg.writer.Some? ==> w.to == cfg.writer.value
    ensures w.data == cfg.formatter.value(EntryFor(cfg, level, format, args, env))
  {
    WriteCall(Target(cfg.writer), cfg.formatter.value(EntryFor(cfg, level, format, args, env)))
  }

  /** A configuration change, as made by one of the three setters. */
  datatype Setter =
    | OutputTo(w: Option<Writer>)
    | PrefixWith(p: string)
    | FormatWith(f: Option<Formatter>)

  /** One setter call: it assigns its own field only. */
  function Apply(cfg: Config, s: Setter): (c: Config)
    ensures c.writer == (if s.OutputTo? then s.w else cfg.writer)
    ensures c.prefix == (if s.PrefixWith? then s.p else cfg.prefix)
    ensures c.formatter == (if s.FormatWith? then s.f else cfg.formatter)
    ensures c.callDepth == cfg.callDepth
  {
    match s
    case OutputTo(w) => cfg.(writer := w)
    case PrefixWith(p) => cfg.(prefix := p)
    case FormatWith(f) => cfg.(formatter := f)
  }

  /** A sequence of setter calls, first to last. */
  function ApplyAll(cfg: Config, ss: seq<Setter>): (c: Config)
    ensures c.callDepth == cfg.callDepth
    ensures (forall k :: 0 <= k < |ss| ==> !ss[k].OutputTo?) ==> c.writer == cfg.writer
    ensures (forall k :: 0 <= k < |ss| ==> !ss[k].PrefixWith?) ==> c.prefix == cfg.prefix
    ensures (forall k :: 0 <= k < |ss| ==> !ss[k].FormatWith?) ==> c.formatter == cfg.formatter
    decreases |ss|
  {
    if ss == [] then cfg else ApplyAll(Apply(cfg, ss[0]), ss[1..])
  }

  /** The argument of the last `SetOutput` in `ss`, or `init` when there is none. */
  function LastOutput(ss: seq<Setter>, init: Option<Writer>): Option<Writer>
    decreases |ss|
  {
    if ss == [] then init
    else if ss[|ss| - 1].OutputTo? then ss[|ss| - 1].w
    else LastOutput(ss[..|ss| - 1], init)
  }

  /** The argument of the last `SetPrefix` in `ss`, or `init` when there is none. */
  function LastPrefix(ss: seq<Setter>, init: string): string
    decreases |ss|
  {
    if ss == [] then init
    else if ss[|ss| - 1].PrefixWith? then ss[|ss| - 1].p
    else LastPrefix(ss[..|ss| - 1], init)
  }

  /** The argument of the last `SetFormatter` in `ss`, or `init` when there is none. */
  function LastFormatter(ss: seq<Setter>, init: Option<Formatter>): Option<Formatter>
    decreases |ss|
  {
    if ss == [] then init
    else if ss[|ss| - 1].FormatWith? then ss[|ss| - 1].f
    else LastFormatter(ss[..|ss| - 1], init)
  }

  lemma {:induction false} ApplyAllSnoc(cfg: Config, ss: seq<Setter>, s: Setter)
    ensures ApplyAll(cfg, ss + [s]) == Apply(ApplyAll(cfg, ss), s)
    decreases |ss|
  {
    if ss == [] {
      assert [s][1..] == [];
    } else {
      assert (ss + [s])[1..] == ss[1..] + [s];
      ApplyAllSnoc(Apply(cfg, ss[0]), ss[1..], s);
    }
  }

  /**
   * After any sequence of setter calls each field holds the argument of the
   * last setter of that field (its old value when there was none), and the
   * call depth, which no setter assigns, holds its old value.
   */
  lemma {:induction false} LastSetterWins(cfg: Config, ss: seq<Setter>)
    ensures ApplyAll(cfg, ss) ==
      Config(LastOutput(ss, cfg.writer), LastPrefix(ss, cfg.prefix), LastFormatter(ss, cfg.formatter), cfg.callDepth)
    decreases |ss|
  {
    if ss != [] {
      var init := ss[..|ss| - 1];
      assert ss == init + [ss[|ss| - 1]];
      ApplyAllSnoc(cfg, init, ss[|ss| - 1]);
      LastSetterWins(cfg, init);
    }
  }

  /** The configuration of the zero value `Logger{}`: every field nil, empty or 0. */
  const ZeroConfig: Config := Config(None, "", None, 0)

  /** `New(w)`: the zero value, then `SetOutput(w)` and `SetFormatter(DefaultFormatter)`. */
  function NewConfig(w: Option<Writer>, defaultFormatter: Formatter): (c: Config)
    ensures c.writer == w && c.prefix == "" && c.formatter == Some(defaultFormatter) && c.callDepth == 0
  {
    var ss := [OutputTo(w), FormatWith(Some(defaultFormatter))];
    var c1 := Apply(ZeroConfig, ss[0]);
    var c2 := Apply(c1, ss[1..][0]);
    assert ss[1..][1..] == [];
    assert ApplyAll(c1, ss[1..]) == ApplyAll(c2, []) == c2;
    ApplyAll(ZeroConfig, ss)
  }

  /** No setter changes the call depth, so every entry logged through the API has depth 2. */
  lemma DepthThroughApi(w: Option<Writer>, defaultFormatter: Formatter, ss: seq<Setter>,
                        level: Level, format: string, args: seq<Arg>, env: Env)
    ensures EntryFor(ApplyAll(NewConfig(w, defaultFormatter), ss), level, format, args, env).callDepth
            == DefaultCallDepth
  {
  }

  /** A writer set and later unset sends writes to standard output again. */
  lemma UnsetOutputFallsBack(cfg: Config, before: seq<Setter>, after: seq<Setter>)
    requires forall k :: 0 <= k < |after| ==> !after[k].OutputTo?
    ensures Target(ApplyAll(cfg, before + [OutputTo(None)] + after).writer) == Stdout
  {
    var ss := before + [OutputTo(None)] + after;
    ApplyAllSnoc(cfg, before, OutputTo(None));
    LastSetterWins(ApplyAll(cfg, before + [OutputTo(None)]), after);
    assert ApplyAll(cfg, ss) == ApplyAll(ApplyAll(cfg, before + [OutputTo(None)]), after) by {
      ApplyAllAppend(cfg, before + [OutputTo(None)], after);
    }
    LastOutputNone(after, None);
  }

  lemma {:induction false} ApplyAllAppend(cfg: Config, ss: seq<Setter>, ts: seq<Setter>)
    ensures ApplyAll(cfg, ss + ts) == ApplyAll(ApplyAll(cfg, ss), ts)
    decreases |ss|
  {
    if ss == [] {
      assert ss + ts == ts;
    } else {
      assert (ss + ts)[1..] == ss[1..] + ts;
      ApplyAllAppend(Apply(cfg, ss[0]), ss[1..], ts);
    }
  }

  lemma {:induction false} LastOutputNone(ss: seq<Setter>, init: Option<Writer>)
    requires forall k :: 0 <= k < |ss| ==> !ss[k].OutputTo?
    ensures LastOutput(ss, init) == init
    decreases |ss|
  {
    if ss != [] {
      LastOutputNone(ss[..|ss| - 1], init);
    }
  }

  /** A logger created with a nil writer whose output is never set writes to standard output. */
  lemma NeverSetWritesStdout(defaultFormatter: Formatter, ss: seq<Setter>)
    requires forall k :: 0 <= k < |ss| ==> !ss[k].OutputTo?
    ensures Target(ApplyAll(NewConfig(None, defaultFormatter), ss).writer) == Stdout
  {
  }

  /** The destinations' side of the world: every write performed, in order. */
  class Output {
    ghost var writes: seq<WriteCall>

    constructor ()
      ensures writes == []
    {
      writes := [];
    }

    /** `writer.Write(data)`: records the write and returns the destination's error. */
    method Write(to: Writer, data: Bytes, reply: (Writer, Bytes) -> Option<WriteError>)
      returns (err: Option<WriteError>)
      modifies this
      ensures writes == old(writes) + [WriteCall(to, data)]
      ensures err == reply(to, data)
    {
      writes := writes + [WriteCall(to, data)];
      err := reply(to, data);
    }
  }

  class Logger {
    var writer: Option<Writer>
    var prefix: string
    var formatter: Option<Formatter>
    var callDepth: int

    /** The four fields read together. */
    function Snapshot(): (c: Config)
      reads this
      ensures c.writer == writer && c.prefix == prefix
      ensures c.formatter == formatter && c.callDepth == callDepth
    {
      Config(writer, prefix, formatter, callDepth)
    }

    /** The zero value `Logger{}`. */
    constructor Zero()
      ensures Snapshot() == ZeroConfig
    {
      writer, prefix, formatter, callDepth := None, "", None, 0;
    }

    method SetOutput(w: Option<Writer>)
      modifies this
      ensures writer == w
      ensures prefix == old(prefix) && formatter == old(formatter) && callDepth == old(callDepth)
      ensures Snapshot() == Apply(old(Snapshot()), OutputTo(w))
    {
      writer := w;
    }

    method SetPrefix(p: string)
      modifies this
      ensures prefix == p
      ensures writer == old(writer) && formatter == old(formatter) && callDepth == old(callDepth)
      ensures Snapshot() == Apply(old(Snapshot()), PrefixWith(p))
    {
      prefix := p;
    }

    method SetFormatter(fn: Option<Formatter>)
      modifies this
      ensures formatter == fn
      ensures writer == old(writer) && prefix == old(prefix) && callDepth == old(callDepth)
      ensures Snapshot() == Apply(old(Snapshot()), FormatWith(fn))
    {
      formatter := fn;
    }

    /**
     * The write path shared by all log calls: snapshot the fields, resolve
     * the depth, format the message, look up the call site, fall back to
     * standard output for a nil writer, and write the formatted entry once.
     * A nil formatter is excluded: calling it panics.
     */
    method Emit(level: Level, format: string, args: seq<Arg>, env: Env, out: Output)
      returns (err: Option<WriteError>)
      requires formatter.Some?
      modifies out
      ensures out.writes == old(out.writes) + [WriteFor(Snapshot(), level, format, args, env)]
      ensures err == env.reply(Target(writer), formatter.value(EntryFor(Snapshot(), level, format, args, env)))
    {
      var prefix := this.prefix;
      var formatter := this.formatter;
      var writer := this.writer;
      var callDepth := this.callDepth;
      if callDepth == 0 {
        callDepth := DefaultCallDepth;
      }
      var msg := env.sprintf(format, args);
      var file, line;
      match env.caller(callDepth) {
        case Some(site) =>
          file, line := site.file, site.line;
        case None =>
          file, line := UnknownFile, 0;
      }
      var to;
      if writer == None {
        to := Stdout;
      } else {
        to := writer.value;
      }
      var entry := LogEntry(env.now, level, prefix, callDepth, file, line, msg);
      err := out.Write(to, formatter.value(entry), env.reply);
    }

    method Debug(format: string, args: seq<Arg>, env: Env, out: Output)
      requires formatter.Some?
      modifies out
      ensures out.writes == old(out.writes) + [WriteFor(Snapshot(), LevelDebug, format, args, env)]
    {
      var _ := Emit(LevelDebug, format, args, env, out);
    }

    method Info(format: string, args: seq<Arg>, env: Env, out: Output)
      requires formatter.Some?
      modifies out
      ensures out.writes == old(out.writes) + [WriteFor(Snapshot(), LevelInfo, format, args, env)]
    {
      var _ := Emit(LevelInfo, format, args, env, out);
    }

    method Warn(format: string, args: seq<Arg>, env: Env, out: Output)
      requires formatter.Some?
      modifies out
      ensures out.writes == old(out.writes) + [WriteFor(Snapshot(), LevelWarn, format, args, env)]
    {
      var _ := Emit(LevelWarn, format, args, env, out);
    }

    method Error(format: string, args: seq<Arg>, env: Env, out: Output)
      requires formatter.Some?
      modifies out
      ensures out.writes == old(out.writes) + [WriteFor(Snapshot(), LevelError, format, args, env)]
    {
      var _ := Emit(LevelError, format, args, env, out);
    }

    /** `Log`: like the leveled calls, but the destination's error is returned unchanged. */
    method Log(level: Level, format: string, args: seq<Arg>, env: Env, out: Output)
      returns (err: Option<WriteError>)
      requires formatter.Some?
      modifies out
      ensures out.writes == old(out.writes) + [WriteFor(Snapshot(), level, format, args, env)]
      ensures err == env.reply(Target(writer), formatter.value(EntryFor(Snapshot(), level, format, args, env)))
    {
      err := Emit(level, format, args, env, out);
    }
  }

  /** `New(w)`, with the default formatter (defined outside this model) as a parameter. */
  method New(w: Option<Writer>, defaultFormatter: Formatter) returns (l: Logger)
    ensures fresh(l)
    ensures l.Snapshot() == NewConfig(w, defaultFormatter)
  {
    l := new Logger.Zero();
    l.SetOutput(w);
    l.SetFormatter(Some(defaultFormatter));
  }

  /**
   * What a caller can conclude from the contracts above alone: the prefix
   * set last is the one an entry carries, a custom formatter's bytes are
   * written as they are, a failing destination's error reaches `Log`'s
   * caller, and a nil writer stays nil while its writes go to standard output.
   */
  method Client(defaultFormatter: Formatter, env: Env, buffer: nat, boom: WriteError)
  {
    var out := new Output();
    var l := New(Some(Sink(buffer)), defaultFormatter);
    l.SetPrefix("svc");
    l.Warn("boom", [], env, out);
    var cfg := Config(Some(Sink(buffer)), "svc", Some(defaultFormatter), 0);
    assert out.writes == [WriteCall(Sink(buffer), defaultFormatter(EntryFor(cfg, LevelWarn, "boom", [], env)))];
    assert EntryFor(cfg, LevelWarn, "boom", [], env).prefix == "svc";

    var x: Bytes := [0x58];
    l.SetFormatter(Some((e: LogEntry) => x));
    l.Info("value=%d", [], env, out);
    assert out.writes[1] == WriteCall(Sink(buffer), x);

    var failing := env.(reply := (w: Writer, data: Bytes) => Some(boom));
    var err := l.Log(LevelError, "fail: %s", [], failing, out);
    assert err == Some(boom);

    var quiet := New(None, defaultFormatter);
    quiet.Debug("hello", [], env, out);
    assert quiet.writer == None;
    assert out.writes[3].to == Stdout;
  }
}
