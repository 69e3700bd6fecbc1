/**
 The format interpreter of `log_output` (src/core/logger.c): a loop over the format
 string that skips an extra index at every tag and appends to a zeroed buffer with
 `strcat`, against a recursive expansion of tags.
 */
module LogFormat {
  import opened Numerals

  /** Fatal, error, warn, info, debug, trace. */
  type Level = l: nat | l < 6

  const COLOURS: seq<string> :=
    ["\U{1b}[1;41m", "\U{1b}[1;31m", "\U{1b}[1;93m", "\U{1b}[1;32m", "\U{1b}[1;94m", "\U{1b}[0;37m"]
  const RESET: string := "\U{1b}[0;39m"
  const LEVEL_NAMES: seq<string> := ["FATAL", "ERROR", "WARN", "INFO", "DEBUG", "TRACE"]

  /** A local time as `struct tm` has it, and the nanoseconds of the clock. */
  datatype Time = Time(since1900: nat, month: nat, day: nat, hour: nat, minute: nat, second: nat, nanos: nat)

  /** What a log call has to offer to its format; the texts are C strings. */
  datatype Context = Context(
    level: Level, prefix: string, message: string, func: string, file: string, line: nat, thread: nat, time: Time)

  /** `basename`: what stands behind the last slash. */
  function Base(file: string): string {
    if file == [] || file[|file| - 1] == '/' then [] else Base(file[..|file| - 1]) + [file[|file| - 1]]
  }

  /** The text a tag stands for; an unknown tag stands for nothing. */
  function TagText(c: Context, tag: char): string {
    match tag
    case 'B' => COLOURS[c.level]
    case 'E' => RESET
    case 'C' => c.prefix + c.message
    case 'L' => LEVEL_NAMES[c.level]
    case 'Z' => "\n"
    case 'X' => if c.level == 3 || c.level == 2 then " " else ""
    case 'F' => c.func
    case 'A' => c.file
    case 'P' => Numeral(c.thread % 0x1_0000_0000, Sixteen)
    case 'I' => Base(c.file)
    case 'G' => Numeral(c.line, Ten)
    case 'T' => Padded(c.time.hour, 2) + ":" + Padded(c.time.minute, 2) + ":" + Padded(c.time.second, 2)
    case 'H' => Padded(c.time.hour, 2)
    case 'M' => Padded(c.time.minute, 2)
    case 'S' => Padded(c.time.second, 2)
    case 'J' => Padded(c.time.nanos / 1_000_000, 3)
    case 'N' =>
      Padded(c.time.since1900 + 1900, 4) + "/" + Padded(c.time.month + 1, 2) + "/" + Padded(c.time.day, 2)
    case 'Y' => Padded(c.time.since1900 + 1900, 4)
    case 'O' => Padded(c.time.month + 1, 2)
    case 'D' => Padded(c.time.day, 2)
    case _ => ""
  }

  /** Every tag with its text. */
  type Tags = char -> string

  function TagsOf(c: Context): Tags { tag => TagText(c, tag) }

  /** A format expanded: tags replaced, everything else copied, a final `$` copied too. */
  function Expand(tags: Tags, format: string): string {
    if format == [] then []
    else if format[0] == '$' && |format| > 1 then tags(format[1]) + Expand(tags, format[2..])
    else [format[0]] + Expand(tags, format[1..])
  }

  /** A format as a log call expands it. */
  function Expanded(c: Context, format: string): string { Expand(TagsOf(c), format) }

  lemma ExpandTag(tags: Tags, tag: char, rest: string)
    ensures Expand(tags, ['$', tag] + rest) == tags(tag) + Expand(tags, rest)
  {
    var format := ['$', tag] + rest;
    assert format[1] == tag && format[2..] == rest;
  }

  lemma ExpandChar(tags: Tags, ch: char, rest: string)
    requires ch != '$' || rest == []
    ensures Expand(tags, [ch] + rest) == [ch] + Expand(tags, rest)
  {
    var format := [ch] + rest;
    assert format[0] == ch && format[1..] == rest;
  }

  ghost predicate IsCString(s: string) { forall i :: 0 <= i < |s| ==> s[i] != '\0' }

  ghost predicate CStrings(tags: Tags, format: string) {
    IsCString(format) && forall tag :: IsCString(tags(tag))
  }

  /** The buffer holds a text and zeros behind it. */
  ghost predicate Holds(buffer: array<char>, text: string)
    reads buffer
  {
    && |text| < buffer.Length && IsCString(text) && buffer[..|text|] == text
    && forall i :: |text| <= i < buffer.Length ==> buffer[i] == '\0'
  }

  /** `strcat`: find the terminator, copy from there. */
  method StrCat(buffer: array<char>, more: string, ghost text: string)
    requires Holds(buffer, text) && IsCString(more) && |text| + |more| < buffer.Length
    modifies buffer
    ensures Holds(buffer, text + more)
  {
    var end := 0;
    while buffer[end] != '\0'
      invariant end <= |text|
      decreases |text| - end
    {
      assert buffer[end] == buffer[..|text|][end] || end == |text|;
      end := end + 1;
    }
    for k := 0 to |more|
      invariant buffer[..|text|] == text
      invariant forall i :: |text| <= i < |text| + k ==> buffer[i] == more[i - |text|]
      invariant forall i :: |text| + k <= i < buffer.Length ==> buffer[i] == '\0'
    {
      buffer[end + k] := more[k];
    }
    assert buffer[..|text| + |more|] == text + more;
  }

  lemma Regroup(done: string, text: string, after: string, rest: string)
    requires rest == text + after
    ensures done + rest == done + text + after
  {
  }

  /** The index-skipping loop leaves exactly the expansion in the buffer. */
  method FormatMessage(c: Context, format: string, buffer: array<char>)
    requires CStrings(TagsOf(c), format) && Holds(buffer, "")
    requires |Expanded(c, format)| < buffer.Length
    modifies buffer
    ensures Holds(buffer, Expanded(c, format))
  {
    ghost var tags, done := TagsOf(c), "";
    var x := 0;
    while x < |format|
      invariant 0 <= x <= |format|
      invariant done + Expand(tags, format[x..]) == Expand(tags, format)
      invariant Holds(buffer, done)
    {
      ghost var rest := Expand(tags, format[x..]);
      if format[x] == '$' && x + 1 < |format| {
        var text := TagText(c, format[x + 1]);
        assert format[x..] == ['$', format[x + 1]] + format[x + 2..];
        ExpandTag(tags, format[x + 1], format[x + 2..]);
        Regroup(done, text, Expand(tags, format[x + 2..]), rest);
        StrCat(buffer, text, done);
        done := done + text;
        x := x + 1;
      } else {
        assert format[x..] == [format[x]] + format[x + 1..];
        ExpandChar(tags, format[x], format[x + 1..]);
        Regroup(done, [format[x]], Expand(tags, format[x + 1..]), rest);
        StrCat(buffer, [format[x]], done);
        done := done + [format[x]];
      }
      x := x + 1;
    }
    assert format[x..] == [];
  }

  // ---------------------------------------------------------------- expansion and concatenation

  /** The scan of a format ends on a `$` that starts no tag. */
  predicate Dangling(format: string) {
    if format == [] then false
    else if format[0] == '$' then |format| == 1 || Dangling(format[2..])
    else Dangling(format[1..])
  }

  lemma ConcatTag(tags: Tags, tag: char, rest: string, b: string)
    requires Expand(tags, rest + b) == Expand(tags, rest) + Expand(tags, b)
    ensures Expand(tags, ['$', tag] + rest + b) == Expand(tags, ['$', tag] + rest) + Expand(tags, b)
  {
    ExpandTag(tags, tag, rest);
    ExpandTag(tags, tag, rest + b);
    assert ['$', tag] + rest + b == ['$', tag] + (rest + b);
    Regroup(tags(tag), Expand(tags, rest), Expand(tags, b), Expand(tags, rest + b));
  }

  lemma ConcatChar(tags: Tags, ch: char, rest: string, b: string)
    requires ch != '$' && Expand(tags, rest + b) == Expand(tags, rest) + Expand(tags, b)
    ensures Expand(tags, [ch] + rest + b) == Expand(tags, [ch] + rest) + Expand(tags, b)
  {
    ExpandChar(tags, ch, rest);
    ExpandChar(tags, ch, rest + b);
    assert [ch] + rest + b == [ch] + (rest + b);
    Regroup([ch], Expand(tags, rest), Expand(tags, b), Expand(tags, rest + b));
  }

  lemma {:induction false} ExpandConcat(tags: Tags, a: string, b: string)
    requires !Dangling(a)
    ensures Expand(tags, a + b) == Expand(tags, a) + Expand(tags, b)
  {
    if a == [] {
      assert a + b == b;
    } else if a[0] == '$' {
      ExpandConcat(tags, a[2..], b);
      ConcatTag(tags, a[1], a[2..], b);
      assert a == ['$', a[1]] + a[2..];
    } else {
      ExpandConcat(tags, a[1..], b);
      ConcatChar(tags, a[0], a[1..], b);
      assert a == [a[0]] + a[1..];
    }
  }

  lemma {:induction false} DanglingEnd(a: string)
    requires Dangling(a)
    ensures a[|a| - 1] == '$' && !Dangling(a[..|a| - 1])
  {
    if a[0] == '$' && |a| == 1 {
    } else if a[0] == '$' {
      DanglingEnd(a[2..]);
      assert a[2..][..|a[2..]| - 1] == a[..|a| - 1][2..];
    } else {
      DanglingEnd(a[1..]);
      assert a[1..][..|a[1..]| - 1] == a[..|a| - 1][1..];
    }
  }

  /** A dangling `$` is copied at the end of the format, but takes the next character as a tag otherwise. */
  lemma ExpandDangling(tags: Tags, a: string, b: string)
    requires Dangling(a)
    ensures Expand(tags, a) == Expand(tags, a[..|a| - 1]) + "$"
    ensures b != [] ==> Expand(tags, a + b) == Expand(tags, a[..|a| - 1]) + (tags(b[0]) + Expand(tags, b[1..]))
  {
    DanglingEnd(a);
    var front := a[..|a| - 1];
    assert a == front + "$" && a + b == front + ("$" + b);
    ExpandConcat(tags, front, "$");
    ExpandConcat(tags, front, "$" + b);
    if b != [] { assert ("$" + b)[1] == b[0] && ("$" + b)[2..] == b[1..]; }
  }

  /** Expansion distributes over what is appended to a format exactly when its scan does not end on a lone `$`. */
  lemma ExpandDistributes(c: Context, a: string)
    ensures (forall b :: Expanded(c, a + b) == Expanded(c, a) + Expanded(c, b)) <==> !Dangling(a)
  {
    if Dangling(a) {
      var b := "Z";
      ExpandDangling(TagsOf(c), a, b);
      assert b[1..] == [];
      assert |Expanded(c, a + b)| == |Expanded(c, a[..|a| - 1])| + 1;
      assert |Expanded(c, a)| == |Expanded(c, a[..|a| - 1])| + 1 && |Expanded(c, b)| == 1;
      assert Expanded(c, a + b) != Expanded(c, a) + Expanded(c, b);
    } else {
      forall b
        ensures Expanded(c, a + b) == Expanded(c, a) + Expanded(c, b)
      {
        ExpandConcat(TagsOf(c), a, b);
      }
    }
  }

  // ---------------------------------------------------------------- what the tags say

  lemma OneTag(tags: Tags, tag: char)
    ensures Expand(tags, ['$', tag]) == tags(tag)
  {
    ExpandTag(tags, tag, []);
    assert ['$', tag] + [] == ['$', tag];
    assert tags(tag) + [] == tags(tag);
  }

  lemma TimeOfDay(tags: Tags)
    ensures Expand(tags, "$H:$M:$S") == tags('H') + ":" + tags('M') + ":" + tags('S')
  {
  }

  lemma DayOfYear(tags: Tags)
    ensures Expand(tags, "$Y/$O/$D") == tags('Y') + "/" + tags('O') + "/" + tags('D')
  {
  }

  lemma ClockIs(c: Context)
    ensures TagText(c, 'T') == TagText(c, 'H') + ":" + TagText(c, 'M') + ":" + TagText(c, 'S')
  {
  }

  lemma DateIs(c: Context)
    ensures TagText(c, 'N') == TagText(c, 'Y') + "/" + TagText(c, 'O') + "/" + TagText(c, 'D')
  {
  }

  /** The clock is its hour, minute and second, */
  lemma Clock(c: Context)
    ensures Expanded(c, "$T") == Expanded(c, "$H:$M:$S")
  {
    ClockIs(c);
    TimeOfDay(TagsOf(c));
    OneTag(TagsOf(c), 'T');
  }

  /** and the date its year, month and day. */
  lemma Date(c: Context)
    ensures Expanded(c, "$N") == Expanded(c, "$Y/$O/$D")
  {
    DateIs(c);
    DayOfYear(TagsOf(c));
    OneTag(TagsOf(c), 'N');
  }

  lemma PaddedText(text: string, n: nat, width: nat)
    requires text == Padded(n, width)
    ensures Reading(text, Ten) == n
  {
    PaddedReads(n, width);
  }

  lemma ClockTexts(c: Context)
    ensures TagText(c, 'H') == Padded(c.time.hour, 2) && TagText(c, 'M') == Padded(c.time.minute, 2)
    ensures TagText(c, 'S') == Padded(c.time.second, 2) && TagText(c, 'J') == Padded(c.time.nanos / 1_000_000, 3)
  {
  }

  lemma DateTexts(c: Context)
    ensures TagText(c, 'Y') == Padded(c.time.since1900 + 1900, 4) && TagText(c, 'O') == Padded(c.time.month + 1, 2)
    ensures TagText(c, 'D') == Padded(c.time.day, 2)
  {
  }

  /** The parts of a time of day read back from their tags, the milliseconds as far as they are over, */
  lemma ClockReadsBack(c: Context, h: string, m: string, s: string, j: string)
    requires h == TagText(c, 'H') && m == TagText(c, 'M') && s == TagText(c, 'S') && j == TagText(c, 'J')
    ensures Reading(h, Ten) == c.time.hour && Reading(m, Ten) == c.time.minute && Reading(s, Ten) == c.time.second
    ensures Reading(j, Ten) == c.time.nanos / 1_000_000
  {
    ClockTexts(c);
    PaddedText(h, c.time.hour, 2);
    PaddedText(m, c.time.minute, 2);
    PaddedText(s, c.time.second, 2);
    PaddedText(j, c.time.nanos / 1_000_000, 3);
  }

  /** and those of a date; years count from 1900 and months from zero before they are written. */
  lemma DateReadsBack(c: Context, y: string, o: string, d: string)
    requires y == TagText(c, 'Y') && o == TagText(c, 'O') && d == TagText(c, 'D')
    ensures Reading(y, Ten) == 1900 + c.time.since1900 && Reading(o, Ten) == 1 + c.time.month
    ensures Reading(d, Ten) == c.time.day
  {
    DateTexts(c);
    PaddedText(y, c.time.since1900 + 1900, 4);
    PaddedText(o, c.time.month + 1, 2);
    PaddedText(d, c.time.day, 2);
  }

  lemma NumeralText(text: string, n: nat, base: Radix)
    requires text == Numeral(n, base)
    ensures Reading(text, base) == n
  {
    NumeralReads(n, base);
  }

  /** The line reads back in decimal, the thread in hexadecimal as far as 32 bits go. */
  lemma PlaceReadsBack(c: Context, g: string, p: string)
    requires g == TagText(c, 'G') && p == TagText(c, 'P')
    ensures Reading(g, Ten) == c.line && Reading(p, Sixteen) == c.thread % 0x1_0000_0000
  {
    NumeralText(g, c.line, Ten);
    NumeralText(p, c.thread % 0x1_0000_0000, Sixteen);
  }

  /** The end of a file name, from behind its last slash. */
  predicate IsBase(file: string, base: string) {
    && |base| <= |file| && base == file[|file| - |base|..] && '/' !in base
    && (|base| < |file| ==> file[|file| - |base| - 1] == '/')
  }

  lemma BaseNext(front: string, base: string, ch: char)
    requires IsBase(front, base) && ch != '/'
    ensures IsBase(front + [ch], base + [ch])
  {
  }

  lemma BaseSnoc(front: string, ch: char)
    ensures Base(front + [ch]) == if ch == '/' then [] else Base(front) + [ch]
  {
    assert (front + [ch])[..|front|] == front;
  }

  lemma NoBase(front: string)
    ensures IsBase(front + ['/'], []) && IsBase([], [])
  {
  }

  lemma {:induction false} BaseIs(file: string)
    ensures IsBase(file, Base(file))
  {
    if file == [] {
      NoBase([]);
    } else {
      var front, ch := file[..|file| - 1], file[|file| - 1];
      assert file == front + [ch];
      BaseSnoc(front, ch);
      if ch == '/' {
        NoBase(front);
      } else {
        BaseIs(front);
        BaseNext(front, Base(front), ch);
      }
    }
  }

  lemma FileTexts(c: Context)
    ensures TagText(c, 'A') == c.file && TagText(c, 'I') == Base(c.file)
  {
  }

  /** The short file name is what stands behind the last slash of the long one. */
  lemma ShortFileName(c: Context, a: string, i: string)
    requires a == TagText(c, 'A') && i == TagText(c, 'I')
    ensures a == c.file && IsBase(c.file, i)
  {
    FileTexts(c);
    BaseIs(c.file);
  }

  // ---------------------------------------------------------------- the application's formats

  /** Two parts of a format, the first not ending on a lone `$`. */
  lemma Joined(tags: Tags, a: string, b: string, textA: string, textB: string)
    requires !Dangling(a) && Expand(tags, a) == textA && Expand(tags, b) == textB
    ensures Expand(tags, a + b) == textA + textB
  {
    ExpandConcat(tags, a, b);
  }

  lemma LevelPart(tags: Tags)
    ensures Expand(tags, "[$B$L") == "[" + tags('B') + tags('L') && !Dangling("[$B$L")
    ensures Expand(tags, "$X$E ") == tags('X') + tags('E') + " " && !Dangling("$X$E ")
  {
  }

  lemma TimePart(tags: Tags)
    ensures Expand(tags, "$T:$J] ") == tags('T') + ":" + tags('J') + "] "
    ensures !Dangling("$T:$J] ")
  {
  }

  lemma FunctionPart(tags: Tags)
    ensures Expand(tags, "[$B$F:") == "[" + tags('B') + tags('F') + ":" && !Dangling("[$B$F:")
  {
  }

  lemma FilePart(tags: Tags)
    ensures Expand(tags, "[$B$I: ") == "[" + tags('B') + tags('I') + ": " && !Dangling("[$B$I: ")
    ensures Expand(tags, "$F:") == tags('F') + ":" && !Dangling("$F:")
  {
  }

  lemma LinePart(tags: Tags)
    ensures Expand(tags, "$E $G] - ") == tags('E') + " " + tags('G') + "] - " && !Dangling("$E $G] - ")
  {
  }

  lemma TextPart(tags: Tags)
    ensures Expand(tags, "$B$C$E$Z") == tags('B') + tags('C') + tags('E') + tags('Z')
  {
  }

  /** The formats of `application_Startup`: for most levels, and for the three most urgent ones. */
  const GENERAL: string := "[$B$L$X$E $T:$J] [$B$F:$E $G] - $B$C$E$Z"
  const URGENT: string := "[$B$L$X$E $T:$J] [$B$I: $F:$E $G] - $B$C$E$Z"

  lemma Behind(tags: Tags, middle: string, text: string, rest: string)
    requires !Dangling(middle) && Expand(tags, middle) == text
    ensures Expand(tags, "[$B$L" + ("$X$E " + ("$T:$J] " + (middle + rest))))
         == "[" + tags('B') + tags('L') + (tags('X') + tags('E') + " " + (tags('T') + ":" + tags('J') + "] "
            + (text + Expand(tags, rest))))
  {
    LevelPart(tags);
    TimePart(tags);
    ExpandConcat(tags, middle, rest);
    ExpandConcat(tags, "$T:$J] ", middle + rest);
    ExpandConcat(tags, "$X$E ", "$T:$J] " + (middle + rest));
    ExpandConcat(tags, "[$B$L", "$X$E " + ("$T:$J] " + (middle + rest)));
  }

  /** What both formats begin with, and what they end with. */
  lemma FormatEnds(tags: Tags, middle: string, text: string)
    requires !Dangling(middle) && Expand(tags, middle) == text
    ensures Expand(tags, "[$B$L" + ("$X$E " + ("$T:$J] " + (middle + ("$E $G] - " + "$B$C$E$Z")))))
         == "[" + tags('B') + tags('L') + (tags('X') + tags('E') + " " + (tags('T') + ":" + tags('J') + "] "
            + (text + (tags('E') + " " + tags('G') + "] - " + (tags('B') + tags('C') + tags('E') + tags('Z'))))))
  {
    TextPart(tags);
    LinePart(tags);
    Joined(tags, "$E $G] - ", "$B$C$E$Z", tags('E') + " " + tags('G') + "] - ",
           tags('B') + tags('C') + tags('E') + tags('Z'));
    Behind(tags, middle, text, "$E $G] - " + "$B$C$E$Z");
  }

  lemma LevelTexts(c: Context)
    ensures TagText(c, 'B') == COLOURS[c.level] && TagText(c, 'L') == LEVEL_NAMES[c.level]
    ensures TagText(c, 'X') == (if c.level == 2 || c.level == 3 then " " else "") && TagText(c, 'E') == RESET
  {
  }

  lemma NamesDiffer()
    ensures LEVEL_NAMES[0][0] == 'F' && LEVEL_NAMES[1][0] == 'E' && LEVEL_NAMES[2][0] == 'W'
    ensures LEVEL_NAMES[3][0] == 'I' && LEVEL_NAMES[4][0] == 'D' && LEVEL_NAMES[5][0] == 'T'
  {
  }

  /** Each level is known by its name. */
  lemma LevelIsNamed(c: Context, name: string)
    requires name == TagText(c, 'L')
    ensures (name == "FATAL" <==> c.level == 0) && (name == "ERROR" <==> c.level == 1)
    ensures (name == "WARN" <==> c.level == 2) && (name == "INFO" <==> c.level == 3)
    ensures (name == "DEBUG" <==> c.level == 4) && (name == "TRACE" <==> c.level == 5)
  {
    LevelTexts(c);
    NamesDiffer();
  }

  /** In its colour the level, and the time. */
  function Head(c: Context): string {
    var spaced := if c.level == 2 || c.level == 3 then " " else "";
    var clock := Padded(c.time.hour, 2) + ":" + Padded(c.time.minute, 2) + ":" + Padded(c.time.second, 2);
    "[" + COLOURS[c.level] + LEVEL_NAMES[c.level] + spaced + RESET + " "
    + clock + ":" + Padded(c.time.nanos / 1_000_000, 3) + "] "
  }

  /** The line of the call, and the text. */
  function Tail(c: Context): string {
    RESET + " " + Numeral(c.line, Ten) + "] - " + COLOURS[c.level] + c.prefix + c.message + RESET + "\n"
  }

  lemma TimeTexts(c: Context)
    ensures TagText(c, 'T') == Padded(c.time.hour, 2) + ":" + Padded(c.time.minute, 2) + ":" + Padded(c.time.second, 2)
    ensures TagText(c, 'J') == Padded(c.time.nanos / 1_000_000, 3)
  {
  }

  lemma HeadIs(c: Context)
    ensures Head(c) == "[" + TagText(c, 'B') + TagText(c, 'L') + TagText(c, 'X') + TagText(c, 'E') + " "
      + TagText(c, 'T') + ":" + TagText(c, 'J') + "] "
  {
    LevelTexts(c);
    TimeTexts(c);
  }

  lemma TailIs(c: Context)
    ensures Tail(c) == TagText(c, 'E') + " " + TagText(c, 'G') + "] - "
      + TagText(c, 'B') + TagText(c, 'C') + TagText(c, 'E') + TagText(c, 'Z')
  {
  }

  lemma Flat(b: string, l: string, x: string, e: string, t: string, j: string, m: string, g: string, k: string,
        z: string)
    ensures "[" + b + l + (x + e + " " + (t + ":" + j + "] " + (m + (e + " " + g + "] - " + (b + k + e + z)))))
         == ("[" + b + l + x + e + " " + t + ":" + j + "] ") + m + (e + " " + g + "] - " + b + k + e + z)
  {
  }

  lemma AroundMiddle(c: Context, middle: string, text: string)
    requires !Dangling(middle) && Expanded(c, middle) == text
    ensures Expanded(c, "[$B$L" + ("$X$E " + ("$T:$J] " + (middle + ("$E $G] - " + "$B$C$E$Z")))))
         == Head(c) + text + Tail(c)
  {
    var tags := TagsOf(c);
    FormatEnds(tags, middle, text);
    HeadIs(c);
    TailIs(c);
    Flat(tags('B'), tags('L'), tags('X'), tags('E'), tags('T'), tags('J'), text, tags('G'), tags('C'), tags('Z'));
  }

  lemma GeneralSplits()
    ensures GENERAL == "[$B$L" + ("$X$E " + ("$T:$J] " + ("[$B$F:" + ("$E $G] - " + "$B$C$E$Z"))))
  {
  }

  lemma UrgentSplits()
    ensures URGENT == "[$B$L" + ("$X$E " + ("$T:$J] " + (("[$B$I: " + "$F:") + ("$E $G] - " + "$B$C$E$Z"))))
  {
  }

  lemma {:induction false} DanglingConcat(a: string, b: string)
    requires !Dangling(a)
    ensures Dangling(a + b) == Dangling(b)
  {
    if a == [] {
      assert a + b == b;
    } else if a[0] == '$' {
      assert (a + b)[2..] == a[2..] + b;
      DanglingConcat(a[2..], b);
    } else {
      assert (a + b)[1..] == a[1..] + b;
      DanglingConcat(a[1..], b);
    }
  }

  /** The part of an urgent line that names file and function. */
  lemma FileAndFunction(tags: Tags)
    ensures Expand(tags, "[$B$I: " + "$F:") == "[" + tags('B') + tags('I') + ": " + (tags('F') + ":")
    ensures !Dangling("[$B$I: " + "$F:")
  {
    FilePart(tags);
    Joined(tags, "[$B$I: ", "$F:", "[" + tags('B') + tags('I') + ": ", tags('F') + ":");
    DanglingConcat("[$B$I: ", "$F:");
  }

  lemma PlaceTexts(c: Context)
    ensures TagText(c, 'B') == COLOURS[c.level] && TagText(c, 'F') == c.func && TagText(c, 'I') == Base(c.file)
  {
  }

  /** A line of most levels names the function, */
  lemma GeneralLine(c: Context)
    ensures Expanded(c, GENERAL) == Head(c) + ("[" + COLOURS[c.level] + c.func + ":") + Tail(c)
  {
    FunctionPart(TagsOf(c));
    PlaceTexts(c);
    AroundMiddle(c, "[$B$F:", "[" + COLOURS[c.level] + c.func + ":");
    GeneralSplits();
  }

  /** and an urgent one the file too, without its directory. */
  lemma UrgentLine(c: Context)
    ensures Expanded(c, URGENT) == Head(c) + ("[" + COLOURS[c.level] + Base(c.file) + ": " + (c.func + ":")) + Tail(c)
  {
    FileAndFunction(TagsOf(c));
    PlaceTexts(c);
    AroundMiddle(c, "[$B$I: " + "$F:", "[" + COLOURS[c.level] + Base(c.file) + ": " + (c.func + ":"));
    UrgentSplits();
  }
}
