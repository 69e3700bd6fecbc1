/**
 The logger (src/core/logger.c): lines are collected in a buffer of twenty slots and
 flushed by level or when it is nearly full; a flush sends each line to the file of its
 thread, and registering a thread under a name renames the file it has written so far.
 */
module Logger {
  import opened CText
  import opened Numerals

  type Thread = nat
  type Path = string

  datatype Entry = Entry(text: string, thread: Thread)
  datatype Output = Output(level: nat, entry: Entry)
  datatype Line = Header | Logged(entry: Entry)
  datatype Mapping = Mapping(thread: Thread, path: Path)

  const MAX_BUFFERED: nat := 20
  const MAX_MESSAGE: nat := 2048
  const ERROR: nat := 1
  const TRACE: nat := 5
  const LEVELS: nat := 6

  // ---------------------------------------------------------------- paths

  const DIRECTORY: string := "./logs/"

  /** Where an unregistered thread writes. */
  function DefaultPath(t: Thread): Path { DIRECTORY + "thread_log_" + Numeral(t, Ten) + ".log" }

  function NamedPath(name: string): Path { DIRECTORY + name + ".log" }

  lemma DefaultPathsDiffer(t: Thread, u: Thread)
    requires DefaultPath(t) == DefaultPath(u)
    ensures t == u
  {
    var p, q := DefaultPath(t), DefaultPath(u);
    var k := |DIRECTORY + "thread_log_"|;
    assert p[k..|p| - 4] == Numeral(t, Ten) && q[k..|q| - 4] == Numeral(u, Ten);
    NumeralsDiffer(t, u, Ten);
  }

  /** Different names have different files. */
  lemma NamedPathsDiffer(name: string, other: string)
    requires NamedPath(name) == NamedPath(other)
    ensures name == other
  {
    var p, q := NamedPath(name), NamedPath(other);
    assert p[|DIRECTORY|..|p| - 4] == name && q[|DIRECTORY|..|q| - 4] == other;
  }

  /** A name's file is a default one exactly if the name is `thread_log_` and the digits of the thread. */
  lemma NamedAsDefault(name: string, t: Thread)
    ensures NamedPath(name) == DefaultPath(t) <==> name == "thread_log_" + Numeral(t, Ten)
    ensures DefaultPath(t) == "./logs/thread_log_" + Numeral(t, Ten) + ".log"
  {
    assert DefaultPath(t) == NamedPath("thread_log_" + Numeral(t, Ten));
    if NamedPath(name) == DefaultPath(t) { NamedPathsDiffer(name, "thread_log_" + Numeral(t, Ten)); }
  }

  // ---------------------------------------------------------------- where a line goes

  /** The path a thread is registered under, if any. */
  function PathFor(names: seq<Mapping>, t: Thread): Option<Path> {
    if names == [] then None
    else if names[0].thread == t then Some(names[0].path)
    else PathFor(names[1..], t)
  }

  function Route(names: seq<Mapping>, t: Thread): Path {
    var p := PathFor(names, t);
    if p.Some? then p.value else DefaultPath(t)
  }

  type Disk = map<Path, seq<Line>>

  function Content(files: Disk, p: Path): seq<Line> { if p in files then files[p] else [] }

  /** One line written: only a default file that is missing gets a header. */
  function Appended(names: seq<Mapping>, files: Disk, e: Entry): Disk {
    var p := Route(names, e.thread);
    var before := if p !in files && PathFor(names, e.thread).None? then [Header] else Content(files, p);
    files[p := before + [Logged(e)]]
  }

  function AppendedAll(names: seq<Mapping>, files: Disk, es: seq<Entry>): Disk {
    if es == [] then files
    else Appended(names, AppendedAll(names, files, es[..|es| - 1]), es[|es| - 1])
  }

  /** `add_Thread_Name_Mapping`: a second registration overwrites the old path without clearing it. */
  function WithMapping(names: seq<Mapping>, t: Thread, path: Path): seq<Mapping> {
    if names == [] then [Mapping(t, path)]
    else if names[0].thread == t then
      var stale := names[0].path;
      [Mapping(t, path + if |path| < |stale| then stale[|path|..] else "")] + names[1..]
    else [names[0]] + WithMapping(names[1..], t, path)
  }

  /** The renaming part of `register_thread_log_under_Name`. */
  function Renamed(files: Disk, t: Thread, path: Path): Disk {
    if DefaultPath(t) in files
    then (map p | p in files && p != DefaultPath(t) :: files[p])[path := files[DefaultPath(t)]]
    else files
  }

  // ---------------------------------------------------------------- one thread, one file

  /** The lines of one thread, in order. */
  function LinesOf(es: seq<Entry>, t: Thread): seq<Line> {
    if es == [] then []
    else
      var last := es[|es| - 1];
      LinesOf(es[..|es| - 1], t) + if last.thread == t then [Logged(last)] else []
  }

  /** Everything a thread has written is in the file it writes to, in order, behind at most a header. */
  predicate FileOk(names: seq<Mapping>, files: Disk, t: Thread, own: seq<Line>) {
    match PathFor(names, t)
    case None =>
      (DefaultPath(t) in files <==> own != []) && (own != [] ==> files[DefaultPath(t)] == [Header] + own)
    case Some(p) =>
      DefaultPath(t) !in files && (Content(files, p) == own || Content(files, p) == [Header] + own)
  }

  ghost predicate NamesOk(names: seq<Mapping>) {
    && (forall t, u :: PathFor(names, t).Some? && PathFor(names, t) == PathFor(names, u) ==> t == u)
    && (forall t, u :: PathFor(names, t) != Some(DefaultPath(u)))
  }

  ghost predicate Continuous(names: seq<Mapping>, files: Disk, written: seq<Entry>) {
    NamesOk(names) && forall t :: FileOk(names, files, t, LinesOf(written, t))
  }

  lemma RoutesDiffer(names: seq<Mapping>, t: Thread, u: Thread)
    requires NamesOk(names) && t != u
    ensures Route(names, t) != Route(names, u)
    ensures Route(names, t) != DefaultPath(u)
  {
    if DefaultPath(t) == DefaultPath(u) { DefaultPathsDiffer(t, u); }
  }

  lemma OwnFileStep(names: seq<Mapping>, files: Disk, written: seq<Entry>, e: Entry)
    requires FileOk(names, files, e.thread, LinesOf(written, e.thread))
    requires PathFor(names, e.thread) != Some(DefaultPath(e.thread))
    ensures FileOk(names, Appended(names, files, e), e.thread, LinesOf(written + [e], e.thread))
  {
    assert (written + [e])[..|written|] == written;
    var own := LinesOf(written, e.thread);
    assert [Header] + (own + [Logged(e)]) == [Header] + own + [Logged(e)];
  }

  lemma FileStep(names: seq<Mapping>, files: Disk, written: seq<Entry>, e: Entry, t: Thread)
    requires NamesOk(names) && FileOk(names, files, t, LinesOf(written, t))
    ensures FileOk(names, Appended(names, files, e), t, LinesOf(written + [e], t))
  {
    if t == e.thread {
      OwnFileStep(names, files, written, e);
    } else {
      assert (written + [e])[..|written|] == written;
      RoutesDiffer(names, e.thread, t);
    }
  }

  lemma AppendedKeeps(names: seq<Mapping>, files: Disk, written: seq<Entry>, e: Entry)
    requires Continuous(names, files, written)
    ensures Continuous(names, Appended(names, files, e), written + [e])
  {
    forall t
      ensures FileOk(names, Appended(names, files, e), t, LinesOf(written + [e], t))
    {
      FileStep(names, files, written, e, t);
    }
  }

  lemma {:induction false} AppendedAllKeeps(names: seq<Mapping>, files: Disk, written: seq<Entry>, es: seq<Entry>)
    requires Continuous(names, files, written)
    ensures Continuous(names, AppendedAll(names, files, es), written + es)
  {
    if es == [] {
      assert written + es == written;
    } else {
      var n := |es| - 1;
      AppendedAllKeeps(names, files, written, es[..n]);
      AppendedKeeps(names, AppendedAll(names, files, es[..n]), written + es[..n], es[n]);
      assert written + es == written + es[..n] + [es[n]];
    }
  }

  /** A path nobody uses and nobody will be routed to by default. */
  ghost predicate FreshPath(names: seq<Mapping>, files: Disk, path: Path) {
    && path !in files
    && (forall u :: PathFor(names, u) != Some(path))
    && (forall u :: path != DefaultPath(u))
  }

  lemma PathAfter(names: seq<Mapping>, t: Thread, path: Path, u: Thread)
    requires PathFor(names, t).None?
    ensures PathFor(WithMapping(names, t, path), u) == if u == t then Some(path) else PathFor(names, u)
  {
  }

  /** A second registration takes the new path whole if and only if it is no shorter than the old one. */
  lemma SecondRegistration(names: seq<Mapping>, t: Thread, path: Path, u: Thread)
    requires PathFor(names, t).Some?
    ensures PathFor(WithMapping(names, t, path), t) == Some(path) <==> |path| >= |PathFor(names, t).value|
    ensures u != t ==> PathFor(WithMapping(names, t, path), u) == PathFor(names, u)
  {
    if names[0].thread == t {
      var stale := names[0].path;
      if |path| < |stale| { assert |path + stale[|path|..]| == |stale|; } else { assert path + "" == path; }
    }
  }

  /** A first registration under a fresh name keeps every thread's lines together. */
  lemma RegisteredKeeps(names: seq<Mapping>, files: Disk, written: seq<Entry>, t: Thread, path: Path)
    requires Continuous(names, files, written) && PathFor(names, t).None? && FreshPath(names, files, path)
    ensures Continuous(WithMapping(names, t, path), Renamed(files, t, path), written)
    ensures Content(Renamed(files, t, path), path)
         == if LinesOf(written, t) == [] then [] else [Header] + LinesOf(written, t)
  {
    var names', files' := WithMapping(names, t, path), Renamed(files, t, path);
    forall u
      ensures PathFor(names', u) == if u == t then Some(path) else PathFor(names, u)
    {
      PathAfter(names, t, path, u);
    }
    assert FileOk(names, files, t, LinesOf(written, t));
    forall u
      ensures FileOk(names', files', u, LinesOf(written, u))
    {
      assert FileOk(names, files, u, LinesOf(written, u));
      if u != t && DefaultPath(t) == DefaultPath(u) { DefaultPathsDiffer(t, u); }
    }
  }

  /** A rename loses no line exactly when its target does not exist yet, or was empty. */
  lemma RenameLosesNothing(files: Disk, t: Thread, path: Path)
    requires path != DefaultPath(t) && DefaultPath(t) in files
    ensures Content(Renamed(files, t, path), path) == Content(files, path) + Content(files, DefaultPath(t))
            <==> Content(files, path) == []
  {
  }

  // ---------------------------------------------------------------- a flush between mapping and rename

  /** Mapped but not renamed: earlier lines are in the default file, later ones under the new path. */
  predicate HalfMoved(names: seq<Mapping>, files: Disk, t: Thread, path: Path, earlier: seq<Line>, later: seq<Line>) {
    && PathFor(names, t) == Some(path) && Content(files, path) == later
    && (DefaultPath(t) in files <==> earlier != [])
    && (earlier != [] ==> files[DefaultPath(t)] == [Header] + earlier)
  }

  ghost predicate BetweenHalves(names: seq<Mapping>, files: Disk, written: seq<Entry>, es: seq<Entry>,
        t: Thread, path: Path) {
    && NamesOk(names) && HalfMoved(names, files, t, path, LinesOf(written, t), LinesOf(es, t))
    && forall u :: u != t ==> FileOk(names, files, u, LinesOf(written + es, u))
  }

  lemma MappedFirst(names: seq<Mapping>, files: Disk, written: seq<Entry>, t: Thread, path: Path)
    requires Continuous(names, files, written) && PathFor(names, t).None? && FreshPath(names, files, path)
    ensures BetweenHalves(WithMapping(names, t, path), files, written, [], t, path)
  {
    forall u
      ensures PathFor(WithMapping(names, t, path), u) == if u == t then Some(path) else PathFor(names, u)
    {
      PathAfter(names, t, path, u);
    }
    assert written + [] == written;
    assert forall u :: FileOk(names, files, u, LinesOf(written, u));
  }

  lemma OwnBetween(names: seq<Mapping>, files: Disk, es: seq<Entry>, e: Entry, t: Thread, path: Path,
        earlier: seq<Line>)
    requires NamesOk(names) && HalfMoved(names, files, t, path, earlier, LinesOf(es, t))
    ensures HalfMoved(names, Appended(names, files, e), t, path, earlier, LinesOf(es + [e], t))
  {
    assert (es + [e])[..|es|] == es;
    if e.thread == t {
      assert PathFor(names, t) != Some(DefaultPath(t));
    } else {
      RoutesDiffer(names, e.thread, t);
    }
  }

  lemma BetweenStep(names: seq<Mapping>, files: Disk, written: seq<Entry>, es: seq<Entry>, e: Entry, t: Thread,
        path: Path)
    requires BetweenHalves(names, files, written, es, t, path)
    ensures BetweenHalves(names, Appended(names, files, e), written, es + [e], t, path)
  {
    OwnBetween(names, files, es, e, t, path, LinesOf(written, t));
    assert written + (es + [e]) == (written + es) + [e];
    forall u | u != t
      ensures FileOk(names, Appended(names, files, e), u, LinesOf(written + (es + [e]), u))
    {
      assert FileOk(names, files, u, LinesOf(written + es, u));
      FileStep(names, files, written + es, e, u);
    }
  }

  lemma {:induction false} BetweenFlush(names: seq<Mapping>, files: Disk, written: seq<Entry>, es: seq<Entry>,
        t: Thread, path: Path)
    requires BetweenHalves(names, files, written, [], t, path)
    ensures BetweenHalves(names, AppendedAll(names, files, es), written, es, t, path)
  {
    if es != [] {
      var n := |es| - 1;
      BetweenFlush(names, files, written, es[..n], t, path);
      BetweenStep(names, AppendedAll(names, files, es[..n]), written, es[..n], es[n], t, path);
      assert es == es[..n] + [es[n]];
    }
  }

  lemma RenamedKeeps(names: seq<Mapping>, files: Disk, written: seq<Entry>, es: seq<Entry>, t: Thread, path: Path)
    requires BetweenHalves(names, files, written, es, t, path)
    ensures forall u :: u != t ==> FileOk(names, Renamed(files, t, path), u, LinesOf(written + es, u))
    ensures Content(Renamed(files, t, path), path)
         == if LinesOf(written, t) == [] then LinesOf(es, t) else [Header] + LinesOf(written, t)
    ensures DefaultPath(t) !in Renamed(files, t, path)
  {
    forall u | u != t
      ensures FileOk(names, Renamed(files, t, path), u, LinesOf(written + es, u))
    {
      assert FileOk(names, files, u, LinesOf(written + es, u));
      if DefaultPath(t) == DefaultPath(u) { DefaultPathsDiffer(t, u); }
    }
  }

  lemma {:induction false} LinesOfConcat(written: seq<Entry>, es: seq<Entry>, t: Thread)
    ensures LinesOf(written + es, t) == LinesOf(written, t) + LinesOf(es, t)
  {
    if es == [] {
      assert written + es == written;
    } else {
      var n := |es| - 1;
      assert (written + es)[..|written + es| - 1] == written + es[..n];
      LinesOfConcat(written, es[..n], t);
    }
  }

  lemma {:induction false} NoHeaderIn(es: seq<Entry>, t: Thread)
    ensures Header !in LinesOf(es, t)
  {
    if es != [] { NoHeaderIn(es[..|es| - 1], t); }
  }

  /** The lines of the flush are lost exactly if the thread had a default file, and wrote in it. */
  lemma LostIfBoth(earlier: seq<Line>, later: seq<Line>)
    requires Header !in earlier + later
    ensures var kept := if earlier == [] then later else [Header] + earlier;
      kept == earlier + later || kept == [Header] + (earlier + later) <==> earlier == [] || later == []
  {
    if earlier != [] {
      assert (earlier + later)[0] in earlier + later;
      assert |[Header] + (earlier + later)| == 1 + |earlier| + |later|;
    }
  }

  /**
   The log lock is not held while a thread registers, so a flush can come between the mapping and
   the rename. It loses lines of the thread, those it flushed, exactly when it flushed some and the
   thread had written to its default file before.
   */
  lemma FlushBetween(names: seq<Mapping>, files: Disk, written: seq<Entry>, es: seq<Entry>, t: Thread, path: Path)
    requires Continuous(names, files, written) && PathFor(names, t).None? && FreshPath(names, files, path)
    ensures var names' := WithMapping(names, t, path);
      var files' := Renamed(AppendedAll(names', files, es), t, path);
      && (Continuous(names', files', written + es) <==> LinesOf(written, t) == [] || LinesOf(es, t) == [])
      && (LinesOf(written, t) != [] ==> Content(files', path) == [Header] + LinesOf(written, t))
      && forall u :: u != t ==> FileOk(names', files', u, LinesOf(written + es, u))
  {
    var names' := WithMapping(names, t, path);
    var flushed := AppendedAll(names', files, es);
    MappedFirst(names, files, written, t, path);
    BetweenFlush(names', files, written, es, t, path);
    RenamedKeeps(names', flushed, written, es, t, path);
    LinesOfConcat(written, es, t);
    NoHeaderIn(written + es, t);
    LostIfBoth(LinesOf(written, t), LinesOf(es, t));
    assert Continuous(names', Renamed(flushed, t, path), written + es)
      <==> FileOk(names', Renamed(flushed, t, path), t, LinesOf(written + es, t));
  }

  /** The same when the flush, if there is one, was caused by another thread's line. */
  lemma AroundOneLine(names: seq<Mapping>, files: Disk, written: seq<Entry>, pending: seq<Entry>, e: Entry,
        t: Thread, path: Path)
    requires Continuous(names, files, written) && PathFor(names, t).None? && FreshPath(names, files, path)
    requires e.thread != t
    ensures var names' := WithMapping(names, t, path);
      && Continuous(names', Renamed(files, t, path), written)
      && (Continuous(names', Renamed(AppendedAll(names', files, pending + [e]), t, path), written + (pending + [e]))
          <==> LinesOf(written, t) == [] || LinesOf(pending, t) == [])
  {
    assert (pending + [e])[..|pending|] == pending;
    RegisteredKeeps(names, files, written, t, path);
    FlushBetween(names, files, written, pending + [e], t, path);
  }

  // ---------------------------------------------------------------- a name registered twice

  /**
   A thread that registers under a name another thread has replaces that file by its own,
   exactly if it had written anything before; either way the two share a file from then on.
   */
  lemma NameTakenTwice(names: seq<Mapping>, files: Disk, written: seq<Entry>, a: Thread, b: Thread, path: Path)
    requires Continuous(names, files, written) && a != b
    requires PathFor(names, a) == Some(path) && PathFor(names, b).None?
    ensures var files' := Renamed(files, b, path);
      && Content(files', path)
         == (if LinesOf(written, b) == [] then Content(files, path) else [Header] + LinesOf(written, b))
      && Route(WithMapping(names, b, path), a) == Route(WithMapping(names, b, path), b) == path
      && !Continuous(WithMapping(names, b, path), files', written)
  {
    assert FileOk(names, files, b, LinesOf(written, b));
    PathAfter(names, b, path, a);
    PathAfter(names, b, path, b);
  }

  // ---------------------------------------------------------------- the buffer

  function EntriesOf(history: seq<Output>): seq<Entry> {
    seq(|history|, i requires 0 <= i < |history| => history[i].entry)
  }

  lemma EntriesOfAppend(history: seq<Output>, o: Output)
    ensures EntriesOf(history + [o]) == EntriesOf(history) + [o.entry]
  {
  }

  /** What is pending are the last lines output. */
  lemma PendingTail(flushed: seq<Entry>, pending: seq<Entry>, history: seq<Output>)
    requires flushed + pending == EntriesOf(history)
    ensures |pending| <= |history| && pending == EntriesOf(history[|history| - |pending|..])
  {
    var entries := EntriesOf(history);
    assert |entries| == |history|;
    assert forall i :: 0 <= i < |pending| ==> pending[i] == entries[|flushed| + i];
  }

  /** A flush of what is pending writes the last lines output, and leaves every thread's lines together. */
  lemma FlushAtEnd(names: seq<Mapping>, files: Disk, flushed: seq<Entry>, pending: seq<Entry>, history: seq<Output>)
    requires flushed + pending == EntriesOf(history)
    ensures |pending| <= |history| && pending == EntriesOf(history[|history| - |pending|..])
    ensures Continuous(names, files, flushed) ==>
      Continuous(names, AppendedAll(names, files, pending), EntriesOf(history))
  {
    PendingTail(flushed, pending, history);
    if Continuous(names, files, flushed) { AppendedAllKeeps(names, files, flushed, pending); }
  }

  lemma WrittenTwice(all: seq<Entry>, again: seq<Entry>)
    ensures all + again == all <==> again == []
  {
    assert |all + again| == |all| + |again|;
  }

  /** `strncpy` into a slot with a terminator forced into its last byte. */
  function Truncated(text: string): (kept: string)
    ensures kept <= text && |kept| == if |text| < 2048 then |text| else 2047
  {
    if |text| < MAX_MESSAGE then text else text[..MAX_MESSAGE - 1]
  }

  /** Levels below this are written at once. */
  function DirectBelow(bufferLevel: nat): int { LEVELS - bufferLevel }

  /** None of the last `count` lines has a level that the buffer level says to write at once. */
  ghost predicate NoneDirect(history: seq<Output>, count: nat, bufferLevel: nat) {
    forall i :: 0 <= i < |history| && |history| - count <= i ==> history[i].level >= DirectBelow(bufferLevel)
  }

  /**
   A change of the buffer level keeps that for every log with this many pending lines exactly
   when it does not lower the level, or nothing is pending.
   */
  lemma LevelChangeIsExact(level: nat, newLevel: nat, count: nat)
    requires level <= 4 && newLevel <= 4
    ensures (forall history ::
               count <= |history| && NoneDirect(history, count, level) ==> NoneDirect(history, count, newLevel))
            <==> level <= newLevel || count == 0
  {
    if newLevel < level && count > 0 {
      var history := seq(count, _ => Output(LEVELS - level, Entry("", 0)));
      assert NoneDirect(history, count, level);
      assert history[0].level < DirectBelow(newLevel);
      assert !NoneDirect(history, count, newLevel);
    }
  }

  class Log {
    var slots: array<Entry>
    var count: nat
    var bufferLevel: nat
    var names: seq<Mapping>
    var files: Disk
    ghost var history: seq<Output>   // every line output, with its level
    ghost var written: seq<Entry>    // every line written to some file, in order

    /** Written lines, then pending ones, are all lines output; at most eighteen are pending. */
    ghost predicate Valid()
      reads this, slots
    {
      && slots.Length == MAX_BUFFERED && count <= MAX_BUFFERED - 2 && bufferLevel <= 4
      && written + slots[..count] == EntriesOf(history)
    }

    /** No pending line has a level that the buffer level says to write at once. */
    ghost predicate NoDirectPending()
      reads this
    {
      NoneDirect(history, count, bufferLevel)
    }

    /** Every thread's written lines are together in one file. */
    ghost predicate Kept()
      reads this
    {
      Continuous(names, files, written)
    }

    constructor (slots: array<Entry>)
      requires slots.Length == MAX_BUFFERED
      ensures Valid() && NoDirectPending() && Kept() && history == [] && this.slots == slots
      ensures count == bufferLevel == 0 && names == [] && files == map[] && written == []
    {
      this.slots := slots;
      count, bufferLevel, names, files := 0, 0, [], map[];
      history, written := [], [];
    }

    /** `f_find_Entry`: the list is searched from the front. */
    method FindPath(t: Thread) returns (path: Option<Path>)
      ensures path == PathFor(names, t)
    {
      var i := 0;
      while i < |names| && names[i].thread != t
        invariant i <= |names| && PathFor(names[i..], t) == PathFor(names, t)
      {
        i := i + 1;
      }
      path := if i < |names| then Some(names[i].path) else None;
    }

    /** One line of a flush: pick the file, create it with a header if it is a missing default file, append. */
    method WriteOne(e: Entry)
      modifies this`files, this`written
      ensures files == Appended(names, old(files), e) && written == old(written) + [e]
    {
      var entry := FindPath(e.thread);
      var filename := if entry.Some? then entry.value else DefaultPath(e.thread);
      if entry.None? && filename !in files { files := files[filename := [Header]]; }
      files := files[filename := Content(files, filename) + [Logged(e)]];
      written := written + [e];
    }

    /** `WriteMessagesToFile`: every line of the buffer to its thread's file; the count stays. */
    method WriteMessages()
      requires count <= slots.Length
      modifies this`files, this`written
      ensures files == AppendedAll(names, old(files), slots[..count])
      ensures written == old(written) + slots[..count]
    {
      for x := 0 to count
        invariant files == AppendedAll(names, old(files), slots[..x])
        invariant written == old(written) + slots[..x]
      {
        assert slots[..x + 1] == slots[..x] + [slots[x]] && slots[..x + 1][..x] == slots[..x];
        WriteOne(slots[x]);
      }
    }

    /** `output_Message`: store the line, and flush if the buffer is nearly full or the line is important. */
    method OutputMessage(level: nat, text: string, t: Thread)
      requires Valid() && level < LEVELS
      modifies this, slots
      ensures Valid() && slots == old(slots) && names == old(names) && bufferLevel == old(bufferLevel)
      ensures history == old(history) + [Output(level, Entry(Truncated(text), t))]
      ensures count == if old(count) + 1 >= 19 || level < 6 - bufferLevel then 0 else old(count) + 1
      ensures count > 0 ==> files == old(files) && written == old(written)
      ensures count == 0 ==> files == AppendedAll(names, old(files), old(slots[..count]) + [Entry(Truncated(text), t)])
      ensures old(NoDirectPending()) ==> NoDirectPending()
      ensures old(Kept()) ==> Kept()
    {
      var e := Entry(Truncated(text), t);
      slots[count] := e;
      count := count + 1;
      history := history + [Output(level, e)];
      EntriesOfAppend(old(history), Output(level, e));
      assert slots[..count] == old(slots[..count]) + [e];
      assert written + slots[..count] == EntriesOf(history);
      if count >= MAX_BUFFERED - 1 || level < DirectBelow(bufferLevel) {
        if Kept() { AppendedAllKeeps(names, files, written, slots[..count]); }
        WriteMessages();
        count := 0;
      }
    }

    /**
     `set_buffer_Level`: a level out of range is reported instead, which flushes. The guarantee
     survives unless the level is lowered over pending lines.
     */
    method SetBufferLevel(newLevel: int, complaint: string, t: Thread)
      requires Valid()
      modifies this, slots
      ensures Valid() && slots == old(slots) && names == old(names)
      ensures old(Kept()) ==> Kept()
      ensures !(0 <= newLevel <= 4) ==> bufferLevel == old(bufferLevel) && count == 0
      ensures 0 <= newLevel <= 4 ==> bufferLevel == newLevel && count == old(count) && history == old(history)
      ensures old(NoDirectPending()) && (old(bufferLevel) <= newLevel || newLevel < 0 || old(count) == 0) ==>
        NoDirectPending()
    {
      if newLevel <= 4 && newLevel >= 0 {
        bufferLevel := newLevel;
      } else {
        OutputMessage(ERROR, complaint, t);
      }
    }

    /**
     `log_shutdown`: everything output is now written, once each. The count is reset only if
     the last line itself caused a flush.
     */
    method Shutdown(farewell: string, t: Thread)
      requires Valid()
      modifies this, slots
      ensures slots == old(slots) && history == old(history) + [Output(TRACE, Entry(Truncated(farewell), t))]
      ensures written == EntriesOf(history)
      ensures count <= |history| && count <= slots.Length && slots[..count] == EntriesOf(history[|history| - count..])
      ensures old(Kept()) ==> Kept() && forall t :: FileOk(names, files, t, LinesOf(EntriesOf(history), t))
      ensures Valid() <==> count == 0
      ensures count == 0 <==> old(bufferLevel) == 0 || old(count) == MAX_BUFFERED - 2
    {
      OutputMessage(TRACE, farewell, t);
      FlushAtEnd(names, files, written, slots[..count], history);
      WriteMessages();
      assert |written + slots[..count]| == |EntriesOf(history)| + count;
    }

    /** A flush after the shutdown writes what was pending a second time, unless the count was reset. */
    method ShutdownAndFlush(farewell: string, t: Thread)
      requires Valid()
      modifies this, slots
      ensures history == old(history) + [Output(TRACE, Entry(Truncated(farewell), t))]
      ensures count <= |history| && written == EntriesOf(history) + EntriesOf(history[|history| - count..])
      ensures written == EntriesOf(history) <==> old(bufferLevel) == 0 || old(count) == MAX_BUFFERED - 2
    {
      Shutdown(farewell, t);
      WrittenTwice(EntriesOf(history), slots[..count]);
      WriteMessages();
    }

    /** The first half of a registration: flushes send the thread's lines to the new path from now on. */
    method MapName(t: Thread, name: string)
      modifies this`names
      ensures names == WithMapping(old(names), t, NamedPath(name))
    {
      names := WithMapping(names, t, NamedPath(name));
    }

    /** The second half: what the thread has written so far is renamed. */
    method RenameFile(t: Thread, name: string)
      modifies this`files
      ensures files == Renamed(old(files), t, NamedPath(name))
    {
      var filename, newFilename := DefaultPath(t), NamedPath(name);
      if filename in files {
        files := (map p | p in files && p != filename :: files[p])[newFilename := files[filename]];
      }
    }

    /** `register_thread_log_under_Name`, with no flush between its halves. */
    method Register(t: Thread, name: string)
      requires Valid()
      modifies this`names, this`files
      ensures Valid()
      ensures names == WithMapping(old(names), t, NamedPath(name))
      ensures files == Renamed(old(files), t, NamedPath(name))
      ensures old(Kept()) && PathFor(old(names), t).None? && FreshPath(old(names), old(files), NamedPath(name)) ==>
        Kept() && PathFor(names, t) == Some(NamedPath(name))
    {
      if Kept() && PathFor(names, t).None? && FreshPath(names, files, NamedPath(name)) {
        RegisteredKeeps(names, files, written, t, NamedPath(name));
        PathAfter(names, t, NamedPath(name), t);
      }
      MapName(t, name);
      RenameFile(t, name);
    }

    /** The first half, and a line of another thread before the second. */
    method MapAndOutput(t: Thread, name: string, level: nat, text: string, other: Thread)
      requires Valid() && level < LEVELS
      modifies this, slots
      ensures Valid() && names == WithMapping(old(names), t, NamedPath(name))
      ensures count > 0 ==> files == old(files) && written == old(written)
      ensures count == 0 ==> var lines := old(slots[..count]) + [Entry(Truncated(text), other)];
        files == AppendedAll(names, old(files), lines) && written == old(written) + lines
    {
      EntriesOfAppend(history, Output(level, Entry(Truncated(text), other)));
      MapName(t, name);
      OutputMessage(level, text, other);
      assert count == 0 ==> written == written + slots[..count];
    }

    /**
     A registration between whose halves another thread outputs a line: nothing is lost if that
     line is only stored, and otherwise as `FlushBetween` says of the lines it flushes.
     */
    method RegisterAround(t: Thread, name: string, level: nat, text: string, other: Thread)
      requires Valid() && level < LEVELS && other != t
      modifies this, slots
      ensures Valid() && names == WithMapping(old(names), t, NamedPath(name))
      ensures old(Kept()) && PathFor(old(names), t).None? && FreshPath(old(names), old(files), NamedPath(name)) ==>
        (Kept() <==> count > 0 || LinesOf(old(written), t) == [] || LinesOf(old(slots[..count]), t) == [])
    {
      ghost var pending, e := slots[..count], Entry(Truncated(text), other);
      if Kept() && PathFor(names, t).None? && FreshPath(names, files, NamedPath(name)) {
        AroundOneLine(names, files, written, pending, e, t, NamedPath(name));
      }
      MapAndOutput(t, name, level, text, other);
      RenameFile(t, name);
    }
  }

  // ---------------------------------------------------------------- whole runs of the logger

  datatype Call = Says(level: nat, text: string, t: Thread) | Registers(t: Thread, name: string)

  /** No thread registers twice, no two under one name, and none under the name of a default file. */
  ghost predicate Distinctly(calls: seq<Call>) {
    && (forall i :: 0 <= i < |calls| && calls[i].Says? ==> calls[i].level < LEVELS)
    && (forall i, t :: 0 <= i < |calls| && calls[i].Registers? ==> calls[i].name != "thread_log_" + Numeral(t, Ten))
    && (forall i, j :: 0 <= i < j < |calls| && calls[i].Registers? && calls[j].Registers? ==>
          calls[i].t != calls[j].t && calls[i].name != calls[j].name)
  }

  /** Every file is a default file or one a thread is registered for. */
  ghost predicate Known(names: seq<Mapping>, files: Disk) {
    forall p :: p in files ==> (exists u :: p == DefaultPath(u)) || exists u :: PathFor(names, u) == Some(p)
  }

  lemma KnownAppended(names: seq<Mapping>, files: Disk, e: Entry)
    requires Known(names, files)
    ensures Known(names, Appended(names, files, e))
  {
    assert PathFor(names, e.thread) == Some(Route(names, e.thread)) || Route(names, e.thread) == DefaultPath(e.thread);
  }

  lemma {:induction false} KnownAppendedAll(names: seq<Mapping>, files: Disk, es: seq<Entry>)
    requires Known(names, files)
    ensures Known(names, AppendedAll(names, files, es))
  {
    if es != [] {
      KnownAppendedAll(names, files, es[..|es| - 1]);
      KnownAppended(names, AppendedAll(names, files, es[..|es| - 1]), es[|es| - 1]);
    }
  }

  lemma KnownRegistered(names: seq<Mapping>, files: Disk, t: Thread, path: Path)
    requires Known(names, files) && PathFor(names, t).None?
    ensures Known(WithMapping(names, t, path), Renamed(files, t, path))
  {
    var names', files' := WithMapping(names, t, path), Renamed(files, t, path);
    forall p | p in files'
      ensures (exists u :: p == DefaultPath(u)) || exists u :: PathFor(names', u) == Some(p)
    {
      PathAfter(names, t, path, t);
      if p != path {
        assert p in files;
        if u :| PathFor(names, u) == Some(p) { PathAfter(names, t, path, u); }
      }
    }
  }

  predicate RegisteredIn(calls: seq<Call>, u: Thread, path: Path) {
    exists k :: 0 <= k < |calls| && calls[k].Registers? && calls[k].t == u && NamedPath(calls[k].name) == path
  }

  /** The mappings are the registrations so far. */
  ghost predicate FromCalls(names: seq<Mapping>, calls: seq<Call>) {
    forall u, path :: PathFor(names, u) == Some(path) <==> RegisteredIn(calls, u, path)
  }

  lemma RegisteredNext(calls: seq<Call>, n: nat, u: Thread, path: Path)
    requires n < |calls|
    ensures RegisteredIn(calls[..n + 1], u, path) <==>
      RegisteredIn(calls[..n], u, path)
      || (calls[n].Registers? && calls[n].t == u && NamedPath(calls[n].name) == path)
  {
    var now, before := calls[..n + 1], calls[..n];
    assert now[n] == calls[n];
    if k :| 0 <= k < n && before[k].Registers? && before[k].t == u && NamedPath(before[k].name) == path {
      assert now[k] == before[k];
    }
    if k :| 0 <= k < n && now[k].Registers? && now[k].t == u && NamedPath(now[k].name) == path {
      assert before[k] == now[k];
    }
  }

  lemma FromCallsNext(names: seq<Mapping>, calls: seq<Call>, n: nat)
    requires n < |calls| && FromCalls(names, calls[..n])
    requires calls[n].Registers? ==> PathFor(names, calls[n].t).None?
    ensures var c := calls[n];
      FromCalls(if c.Registers? then WithMapping(names, c.t, NamedPath(c.name)) else names, calls[..n + 1])
  {
    var c := calls[n];
    var names' := if c.Registers? then WithMapping(names, c.t, NamedPath(c.name)) else names;
    forall u, path
      ensures PathFor(names', u) == Some(path) <==> RegisteredIn(calls[..n + 1], u, path)
    {
      if c.Registers? { PathAfter(names, c.t, NamedPath(c.name), u); }
      RegisteredNext(calls, n, u, path);
      assert PathFor(names, u) == Some(path) <==> RegisteredIn(calls[..n], u, path);
    }
  }

  /** Who is registered before is another thread, for another file. */
  lemma TakenBefore(calls: seq<Call>, n: nat, u: Thread, path: Path)
    requires n < |calls| && calls[n].Registers? && Distinctly(calls) && RegisteredIn(calls[..n], u, path)
    ensures u != calls[n].t && path != NamedPath(calls[n].name)
  {
    var k :| 0 <= k < n && calls[..n][k].Registers? && calls[..n][k].t == u && NamedPath(calls[..n][k].name) == path;
    assert calls[k] == calls[..n][k];
    if path == NamedPath(calls[n].name) { NamedPathsDiffer(calls[k].name, calls[n].name); }
  }

  /** So the next thread to register is not registered, and the file of its name is fresh. */
  lemma FreshNext(names: seq<Mapping>, files: Disk, calls: seq<Call>, n: nat)
    requires n < |calls| && calls[n].Registers? && Distinctly(calls)
    requires Known(names, files) && FromCalls(names, calls[..n])
    ensures PathFor(names, calls[n].t).None? && FreshPath(names, files, NamedPath(calls[n].name))
  {
    var path := NamedPath(calls[n].name);
    forall u
      ensures path != DefaultPath(u) && PathFor(names, u) != Some(path)
    {
      NamedAsDefault(calls[n].name, u);
      if PathFor(names, u) == Some(path) { TakenBefore(calls, n, u, path); }
    }
    if PathFor(names, calls[n].t).Some? { TakenBefore(calls, n, calls[n].t, PathFor(names, calls[n].t).value); }
  }

  /** What was said, in order. */
  function Said(calls: seq<Call>): seq<Entry> {
    if calls == [] then []
    else
      var c := calls[|calls| - 1];
      Said(calls[..|calls| - 1]) + if c.Says? then [Entry(Truncated(c.text), c.t)] else []
  }

  /** The log keeps each thread's lines together, and its files and mappings are those of the calls so far. */
  ghost predicate Served(log: Log, calls: seq<Call>)
    reads log, log.slots
  {
    log.Valid() && log.Kept() && Known(log.names, log.files) && FromCalls(log.names, calls)
  }

  method ServeLine(log: Log, calls: seq<Call>, n: nat)
    requires n < |calls| && calls[n].Says? && calls[n].level < LEVELS && Served(log, calls[..n])
    modifies log, log.slots
    ensures log.slots == old(log.slots) && Served(log, calls[..n + 1])
    ensures EntriesOf(log.history) == old(EntriesOf(log.history)) + [Entry(Truncated(calls[n].text), calls[n].t)]
  {
    var c := calls[n];
    FromCallsNext(log.names, calls, n);
    EntriesOfAppend(log.history, Output(c.level, Entry(Truncated(c.text), c.t)));
    KnownAppendedAll(log.names, log.files, log.slots[..log.count] + [Entry(Truncated(c.text), c.t)]);
    log.OutputMessage(c.level, c.text, c.t);
  }

  method ServeName(log: Log, calls: seq<Call>, n: nat)
    requires n < |calls| && calls[n].Registers? && Distinctly(calls) && Served(log, calls[..n])
    modifies log, log.slots
    ensures log.slots == old(log.slots) && log.history == old(log.history) && Served(log, calls[..n + 1])
  {
    FreshNext(log.names, log.files, calls, n);
    FromCallsNext(log.names, calls, n);
    KnownRegistered(log.names, log.files, calls[n].t, NamedPath(calls[n].name));
    log.Register(calls[n].t, calls[n].name);
  }

  /**
   From the start, whatever is output and however threads register in between, each once and under
   names of their own: every thread's written lines are together in one file, that of its name if it
   has registered, and only what is pending is not written.
   */
  method ServeAll(calls: seq<Call>) returns (log: Log)
    requires Distinctly(calls)
    ensures fresh(log) && log.Valid() && log.Kept() && EntriesOf(log.history) == Said(calls)
    ensures forall k :: 0 <= k < |calls| && calls[k].Registers? ==>
      Route(log.names, calls[k].t) == NamedPath(calls[k].name)
  {
    var slots := new Entry[MAX_BUFFERED](_ => Entry("", 0));
    log := new Log(slots);
    assert EntriesOf(log.history) == Said(calls[..0]);
    for n := 0 to |calls|
      invariant fresh(log) && fresh(log.slots) && Served(log, calls[..n])
      invariant EntriesOf(log.history) == Said(calls[..n])
    {
      assert calls[..n + 1][..n] == calls[..n];
      if calls[n].Says? { ServeLine(log, calls, n); } else { ServeName(log, calls, n); }
    }
    assert calls[..|calls|] == calls;
    forall k | 0 <= k < |calls| && calls[k].Registers?
      ensures Route(log.names, calls[k].t) == NamedPath(calls[k].name)
    {
      assert RegisteredIn(calls, calls[k].t, NamedPath(calls[k].name));
    }
  }

  /** A log on which the guarantee is lost: lines are pending, and then the level is lowered. */
  method LowerTooSoon(level: nat, newLevel: nat, count: nat) returns (log: Log)
    requires newLevel < level <= 4 && 0 < count <= MAX_BUFFERED - 2
    ensures fresh(log) && log.Valid() && log.Kept() && log.bufferLevel == newLevel && log.count == count
    ensures NoneDirect(log.history, count, level) && !log.NoDirectPending()
  {
    var slots := new Entry[MAX_BUFFERED](_ => Entry("", 0));
    log := new Log(slots);
    log.SetBufferLevel(level, "", 0);
    for i := 0 to count
      invariant fresh(log) && fresh(log.slots) && log.Valid() && log.Kept() && log.NoDirectPending()
      invariant log.bufferLevel == level && log.count == i && |log.history| == i
      invariant forall k :: 0 <= k < i ==> log.history[k].level == LEVELS - level
    {
      log.OutputMessage(LEVELS - level, "", 0);
    }
    log.SetBufferLevel(newLevel, "", 0);
    assert log.history[0].level < DirectBelow(newLevel);
  }

  lemma LinesOfTwo(first: Entry, second: Entry)
    requires first.thread != second.thread
    ensures LinesOf([first, second], second.thread) == [Logged(second)]
  {
    var none, one := [first][..0], [first, second][..1];
    assert one == [first] && LinesOf(none, second.thread) == [];
    assert LinesOf(one, second.thread) == [];
  }

  /** A thread serves a user: it registers under the user's name and writes a line. */
  method FirstVisit(name: string, a: Thread, first: string) returns (log: Log)
    requires forall u :: NamedPath(name) != DefaultPath(u)
    ensures fresh(log) && fresh(log.slots) && log.Valid() && log.Kept() && log.bufferLevel == log.count == 0
    ensures log.names == [Mapping(a, NamedPath(name))]
    ensures EntriesOf(log.history) == [Entry(Truncated(first), a)]
  {
    var slots := new Entry[MAX_BUFFERED](_ => Entry("", 0));
    log := new Log(slots);
    log.Register(a, name);
    log.OutputMessage(ERROR, first, a);
  }

  /** Another thread writes a line before it has registered. */
  method SecondVisit(log: Log, b: Thread, second: string)
    requires log.Valid() && log.Kept() && log.bufferLevel == log.count == 0
    modifies log, log.slots
    ensures log.Valid() && log.Kept() && log.names == old(log.names)
    ensures log.written == EntriesOf(log.history) == old(EntriesOf(log.history)) + [Entry(Truncated(second), b)]
  {
    EntriesOfAppend(log.history, Output(ERROR, Entry(Truncated(second), b)));
    log.OutputMessage(ERROR, second, b);
    assert log.written == log.written + log.slots[..log.count];
  }

  /**
   The user comes back: the thread that serves it now writes a line before the login, registers
   under the same name, and the log of the thread that served it before is gone.
   */
  method ReturningUser(name: string, a: Thread, b: Thread, first: string, second: string) returns (log: Log)
    requires a != b && forall u :: NamedPath(name) != DefaultPath(u)
    ensures fresh(log) && log.Valid() && !log.Kept()
    ensures log.written == EntriesOf(log.history) == [Entry(Truncated(first), a), Entry(Truncated(second), b)]
    ensures Content(log.files, NamedPath(name)) == [Header, Logged(Entry(Truncated(second), b))]
    ensures Route(log.names, a) == NamedPath(name)
  {
    log := FirstVisit(name, a, first);
    SecondVisit(log, b, second);
    LinesOfTwo(Entry(Truncated(first), a), Entry(Truncated(second), b));
    NameTakenTwice(log.names, log.files, log.written, a, b, NamedPath(name));
    log.Register(b, name);
  }
}
