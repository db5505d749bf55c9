/** `MMLParser`: a music-macro-language reader that keeps a current
    channel and five per-channel queues of note events, and reads the
    `#TITLE`, `#COMPOSER`, `#PROGRAMER`/`#PROGRAMMER` and `#OCTAVE-REV`
    header lines of the loaded text. */
module Mml {
  import opened Base

  /** The five channel queues `channel_a_queue` .. `channel_e_queue`. */
  datatype Channel = A | B | C | D | E

  /** The `(leng, freq)` tuple `parse_line` appends: a duration in seconds
      and a frequency in hertz. */
  datatype Event = Event(length: real, freq: real)

  /** `self.notes`: note names to frequencies; `R` is a rest. */
  const Notes: map<string, real> := map[
    "C" := 261.63, "C#" := 277.183,
    "D" := 293.66, "D#" := 311.127,
    "E" := 329.63,
    "F" := 349.23, "F#" := 369.994,
    "G" := 392.00, "G#" := 415.305,
    "A" := 440.00, "A#" := 466.164,
    "B" := 493.88, "R" := 0.1]

  /** Every field of an `MMLParser` (the note table never changes and is
      the constant `Notes`; `current_channel`, which aliases one of the
      queues, is the name of that queue). */
  datatype Parser = Parser(
    tempo: int, octave: int, reverseOctave: bool, length: int, volume: int,
    rawMmlData: seq<string>,
    title: Option<string>, composer: Option<string>, programmer: Option<string>,
    current: Option<Channel>,
    queueA: seq<Event>, queueB: seq<Event>, queueC: seq<Event>, queueD: seq<Event>, queueE: seq<Event>)

  /** `MMLParser(tempo, octave, length, volume)`. */
  function Initial(tempo: int, octave: int, length: int, volume: int): Parser
  {
    Parser(tempo, octave, false, length, volume, [], None, None, None, None, [], [], [], [], [])
  }

  function Queue(p: Parser, ch: Channel): seq<Event>
  {
    match ch
    case A => p.queueA
    case B => p.queueB
    case C => p.queueC
    case D => p.queueD
    case E => p.queueE
  }

  function WithQueue(p: Parser, ch: Channel, q: seq<Event>): (r: Parser)
    ensures Queue(r, ch) == q && forall other :: other != ch ==> Queue(r, other) == Queue(p, other)
    ensures r.current == p.current && Settings(r) == Settings(p) && HeaderFields(r) == HeaderFields(p)
  {
    match ch
    case A => p.(queueA := q)
    case B => p.(queueB := q)
    case C => p.(queueC := q)
    case D => p.(queueD := q)
    case E => p.(queueE := q)
  }

  /** The fields neither `parse_line` nor `_parse_header` writes. */
  function Settings(p: Parser): (int, int, int, int, seq<string>)
  {
    (p.tempo, p.octave, p.length, p.volume, p.rawMmlData)
  }

  /** The fields `_parse_header` writes. */
  function HeaderFields(p: Parser): (Option<string>, Option<string>, Option<string>, bool)
  {
    (p.title, p.composer, p.programmer, p.reverseOctave)
  }

  // ------------------------------------------------------------- strings

  /** `line.startswith(prefix)`. */
  predicate StartsWith(line: string, prefix: string)
  {
    |prefix| <= |line| && line[..|prefix|] == prefix
  }

  /** `line[k:]`: empty when `k` is past the end. */
  function Drop(line: string, k: nat): string
  {
    if k <= |line| then line[k..] else []
  }

  /** `c.upper()` on ASCII letters. No other character upper-cases to one
      of the single letters of `Notes`, so this decides note membership
      exactly. */
  function Upper(c: char): char
  {
    if 'a' <= c <= 'z' then (c as int - 32) as char else c
  }

  /** `character.upper() in self.notes.keys()`. */
  predicate IsNote(c: char)
  {
    [Upper(c)] in Notes
  }

  predicate HasNote(line: string)
  {
    exists k :: 0 <= k < |line| && IsNote(line[k])
  }

  /** The characters `str.isspace()` accepts, which `str.strip()` removes:
      tab to carriage return, the four ASCII separators, space, next line,
      no-break space and the Unicode space separators. */
  predicate IsSpace(c: char)
  {
    ('\t' <= c <= '\r') || ('\U{1C}' <= c <= ' ') || c == '\U{85}' || c == '\U{A0}' ||
    c == '\U{1680}' || ('\U{2000}' <= c <= '\U{200A}') || c == '\U{2028}' || c == '\U{2029}' ||
    c == '\U{202F}' || c == '\U{205F}' || c == '\U{3000}'
  }

  function StripLeft(s: string): (r: string)
    ensures |r| <= |s| && r == s[|s| - |r|..]
    ensures r == [] || !IsSpace(r[0])
    ensures forall k :: 0 <= k < |s| - |r| ==> IsSpace(s[k])
  {
    if s != [] && IsSpace(s[0]) then StripLeft(s[1..]) else s
  }

  function StripRight(s: string): (r: string)
    ensures |r| <= |s| && r == s[..|r|]
    ensures r == [] || !IsSpace(r[|r| - 1])
    ensures s != [] && !IsSpace(s[0]) ==> r != [] && r[0] == s[0]
    ensures forall k :: |r| <= k < |s| ==> IsSpace(s[k])
  {
    if s != [] && IsSpace(s[|s| - 1]) then StripRight(s[..|s| - 1]) else s
  }

  /** Every character of `s` outside `s[i..j]` is whitespace. */
  predicate SpaceOutside(s: string, i: int, j: int)
  {
    0 <= i <= j <= |s| &&
    (forall k :: 0 <= k < i ==> IsSpace(s[k])) && (forall k :: j <= k < |s| ==> IsSpace(s[k]))
  }

  /** `line.strip()`: a slice of the line with no whitespace at either end,
      obtained by removing whitespace only. */
  function Strip(s: string): (r: string)
    ensures exists i, j :: SpaceOutside(s, i, j) && r == s[i..j]
    ensures r == [] || (!IsSpace(r[0]) && !IsSpace(r[|r| - 1]))
  {
    var l := StripLeft(s);
    var r := StripRight(l);
    StripSlice(s, l, r, |s| - |l|);
    r
  }

  /** Stripping whitespace off the front of `s` down to `l == s[i..]`, then
      off the back of `l` down to `r`, leaves `s[i..i + |r|]` with only
      whitespace around it. */
  lemma StripSlice(s: string, l: string, r: string, i: nat)
    requires i <= |s| && l == s[i..] && forall k :: 0 <= k < i ==> IsSpace(s[k])
    requires |r| <= |l| && r == l[..|r|] && forall k :: |r| <= k < |l| ==> IsSpace(l[k])
    ensures i + |r| <= |s| && r == s[i..i + |r|]
    ensures SpaceOutside(s, i, i + |r|)
  {
    SliceOfSuffix(s, i, |r|);
    forall k | i + |r| <= k < |s| ensures IsSpace(s[k]) {
      assert s[k] == l[k - i];
    }
  }

  lemma SliceOfSuffix(s: string, i: nat, n: nat)
    requires i + n <= |s|
    ensures s[i..][..n] == s[i..i + n]
  {
  }

  /** A leading file separator `\x1c` is whitespace to `str.strip()`, so
      the stripped line still selects channel A by its `"A "` prefix. */
  lemma StripSeparator()
    ensures Strip("\U{1C}A cde") == "A cde"
    ensures SelectChannel(None, Strip("\U{1C}A cde")) == Some(A)
  {
    var s, t := "\U{1C}A cde", "A cde";
    assert s[0] == '\U{1C}' && IsSpace(s[0]) && s[1..] == t;
    assert t[0] == 'A' && !IsSpace(t[0]);
    assert StripLeft(t) == t;
    assert StripLeft(s) == t;
    assert t[|t| - 1] == 'e' && !IsSpace(t[|t| - 1]);
    assert StripRight(t) == t;
    assert t[..2] == "A ";
  }

  /** `line.strip()` for each line, in order. */
  function StripAll(lines: seq<string>): (r: seq<string>)
    ensures |r| == |lines|
  {
    if lines == [] then [] else StripAll(lines[..|lines| - 1]) + [Strip(lines[|lines| - 1])]
  }

  // -------------------------------------------------------- _set_channel

  function Letter(ch: Channel): char
  {
    match ch
    case A => 'A'
    case B => 'B'
    case C => 'C'
    case D => 'D'
    case E => 'E'
  }

  /** The channel `_set_channel(line)` leaves selected. */
  function SelectChannel(current: Option<Channel>, line: string): Option<Channel>
  {
    if StartsWith(line, "#") then current
    else if StartsWith(line, "A ") then Some(A)
    else if StartsWith(line, "B ") then Some(B)
    else if StartsWith(line, "C ") then Some(C)
    else if StartsWith(line, "D ") then Some(D)
    else if StartsWith(line, "E ") then Some(E)
    else Some(A)
  }

  /** A line that starts with a channel letter and a space selects that
      channel. */
  lemma SelectByPrefix(current: Option<Channel>, ch: Channel, rest: string)
    ensures SelectChannel(current, [Letter(ch), ' '] + rest) == Some(ch)
  {
    var line := [Letter(ch), ' '] + rest;
    assert line[..1] == [Letter(ch)];
    assert line[..2] == [Letter(ch), ' '];
  }

  /** A `#` line keeps the current channel, and only such a line can leave
      no channel selected; every other line selects one, and a line that
      names none of `"A "`..`"E "` selects channel A. */
  lemma SelectChannelCases(current: Option<Channel>, line: string)
    ensures StartsWith(line, "#") ==> SelectChannel(current, line) == current
    ensures SelectChannel(current, line).None? ==> current.None? && StartsWith(line, "#")
    ensures !StartsWith(line, "#") && (forall ch :: !StartsWith(line, [Letter(ch), ' '])) ==>
      SelectChannel(current, line) == Some(A)
  {
    if !StartsWith(line, "#") && (forall ch :: !StartsWith(line, [Letter(ch), ' '])) {
      assert !StartsWith(line, [Letter(A), ' ']) && !StartsWith(line, [Letter(B), ' ']);
      assert !StartsWith(line, [Letter(C), ' ']) && !StartsWith(line, [Letter(D), ' ']);
      assert !StartsWith(line, [Letter(E), ' ']);
    }
  }

  /** `"F "` and `"A"` (no space) both select channel A; a `#` line keeps
      whatever was selected. */
  lemma SelectChannelExamples(current: Option<Channel>)
    ensures SelectChannel(current, "F gab") == Some(A)
    ensures SelectChannel(current, "A") == Some(A)
    ensures SelectChannel(current, "C cde") == Some(C)
    ensures SelectChannel(current, "#TITLE x") == current
  {
    assert "F gab"[..1] == "F";
    assert "C cde"[..2] == "C ";
    assert "#TITLE x"[..1] == "#";
  }

  // ---------------------------------------------------------- parse_line

  /** `60 / self.tempo`: the duration `parse_line` gives every event. */
  function Beat(tempo: int): real
    requires tempo != 0
  {
    60.0 / tempo as real
  }

  /** The event one character adds: none for a non-note. */
  function NoteOf(c: char, tempo: int): seq<Event>
    requires tempo != 0
  {
    if IsNote(c) then [Event(Beat(tempo), Notes[[Upper(c)]])] else []
  }

  /** The events `parse_line` appends for `line`, in character order. */
  function NoteEvents(line: string, tempo: int): seq<Event>
    requires tempo != 0
  {
    if line == [] then [] else NoteEvents(line[..|line| - 1], tempo) + NoteOf(line[|line| - 1], tempo)
  }

  /** Appending `line`'s events to the selected queue, when there is one
      and the tempo allows computing them. */
  function Appended(p: Parser, line: string): Parser
  {
    if p.tempo != 0 && p.current.Some?
    then WithQueue(p, p.current.value, Queue(p, p.current.value) + NoteEvents(line, p.tempo))
    else p
  }

  /** What `parse_line(line)` raises, if anything, and the parser
      afterwards: the channel is selected first; at the first note letter
      `60 / tempo` raises ZeroDivisionError for tempo 0 and then `append`
      on `None` raises AttributeError, before anything is appended. */
  function ParseLineResult(p: Parser, line: string): (Option<Error>, Parser)
  {
    var p1 := p.(current := SelectChannel(p.current, line));
    if HasNote(line) && p.tempo == 0 then (Some(ZeroDivisionError), p1)
    else if HasNote(line) && p1.current.None? then (Some(AttributeError), p1)
    else (None, Appended(p1, line))
  }

  lemma NoteEventsEmpty(line: string, tempo: int)
    requires tempo != 0 && !HasNote(line)
    ensures NoteEvents(line, tempo) == []
  {
    if line != [] {
      NoteEventsEmpty(line[..|line| - 1], tempo);
    }
  }

  /** The events of a concatenation are the events of its parts, in order:
      together with `SingleNote` this says `parse_line` appends one event
      per note letter, left to right. */
  lemma {:induction false} NoteEventsConcat(a: string, b: string, tempo: int)
    requires tempo != 0
    ensures NoteEvents(a + b, tempo) == NoteEvents(a, tempo) + NoteEvents(b, tempo)
    decreases |b|
  {
    if b != [] {
      var b0 := b[..|b| - 1];
      assert (a + b)[..|a + b| - 1] == a + b0;
      NoteEventsConcat(a, b0, tempo);
    } else {
      assert a + b == a;
    }
  }

  /** The note letters are exactly A-G and R in either case; the sharp keys
      of `Notes` (`"C#"` and the like) are two characters long and never
      match a single character. */
  lemma NoteLetters(c: char)
    ensures IsNote(c) <==> c in "ABCDEFGRabcdefgr"
  {
  }

  lemma SingleNote(c: char, tempo: int)
    requires tempo != 0
    ensures NoteEvents([c], tempo) == NoteOf(c, tempo)
  {
    assert [c][..0] == [];
  }

  /** `'a'` gives `(60/tempo, 440.0)` and `'r'` a rest at 0.1 Hz. */
  lemma NoteExamples(tempo: int)
    requires tempo != 0
    ensures NoteEvents("a", tempo) == [Event(Beat(tempo), 440.0)]
    ensures NoteEvents("r", tempo) == [Event(Beat(tempo), 0.1)]
  {
    assert NoteEvents("a", tempo) == [Event(Beat(tempo), 440.0)] by {
      SingleNote('a', tempo);
      assert "a" == ['a'];
    }
    assert NoteEvents("r", tempo) == [Event(Beat(tempo), 0.1)] by {
      SingleNote('r', tempo);
      assert "r" == ['r'];
    }
  }

  /** `"C#"` gives only the C: the sharp is not a note letter. */
  lemma SharpIsNotRead(tempo: int)
    requires tempo != 0
    ensures NoteEvents("C#", tempo) == [Event(Beat(tempo), 261.63)]
  {
    var b := Beat(tempo);
    assert NoteEvents(['C'], tempo) == [Event(b, 261.63)] by {
      SingleNote('C', tempo);
    }
    assert NoteEvents(['#'], tempo) == [] by {
      SingleNote('#', tempo);
    }
    NoteEventsConcat(['C'], ['#'], tempo);
    assert "C#" == ['C'] + ['#'];
  }

  /** `"B cde"` gives B, C, D, E: the channel prefix letter is read as a
      note too. */
  lemma PrefixLetterIsANote(tempo: int)
    requires tempo != 0
    ensures NoteEvents("B cde", tempo)
         == [Event(Beat(tempo), 493.88), Event(Beat(tempo), 261.63), Event(Beat(tempo), 293.66), Event(Beat(tempo), 329.63)]
  {
    LineLetters(tempo);
    Snoc([], 'B', tempo);
    Snoc("B", ' ', tempo);
    Snoc("B ", 'c', tempo);
    Snoc("B c", 'd', tempo);
    Snoc("B cd", 'e', tempo);
    assert [] + ['B'] == "B" && "B" + [' '] == "B " && "B " + ['c'] == "B c";
    assert "B c" + ['d'] == "B cd" && "B cd" + ['e'] == "B cde";
  }

  /** One character more adds its own event, if any, at the end. */
  lemma Snoc(s: string, c: char, tempo: int)
    requires tempo != 0
    ensures NoteEvents(s + [c], tempo) == NoteEvents(s, tempo) + NoteOf(c, tempo)
  {
    assert (s + [c])[..|s|] == s;
  }

  lemma LineLetters(tempo: int)
    requires tempo != 0
    ensures var b := Beat(tempo);
      NoteOf('B', tempo) == [Event(b, 493.88)] && NoteOf(' ', tempo) == [] &&
      NoteOf('c', tempo) == [Event(b, 261.63)] && NoteOf('d', tempo) == [Event(b, 293.66)] &&
      NoteOf('e', tempo) == [Event(b, 329.63)]
  {
  }

  /** `parse_line` raises exactly when the line holds a note letter and
      either the tempo is 0 or no channel is selected after `_set_channel`;
      a `#` line with a note letter before any channel was ever selected
      is one such case. */
  lemma ParseLineErrors(p: Parser, line: string)
    ensures var r := ParseLineResult(p, line);
      r.0.Some? <==> HasNote(line) && (p.tempo == 0 || SelectChannel(p.current, line).None?)
    ensures HasNote(line) && p.tempo == 0 ==> ParseLineResult(p, line).0 == Some(ZeroDivisionError)
    ensures p.current.None? && StartsWith(line, "#") && HasNote(line) && p.tempo != 0 ==>
      ParseLineResult(p, line).0 == Some(AttributeError)
  {
  }

  /** After `parse_line`, the channel is the one `_set_channel` chose; the
      selected queue has grown by the line's events (when nothing was
      raised); every other queue, and every field other than the current
      channel and that queue, is unchanged. */
  lemma ParseLineEffect(p: Parser, line: string, ch: Channel)
    ensures var r := ParseLineResult(p, line);
      r.1.current == SelectChannel(p.current, line) &&
      Settings(r.1) == Settings(p) && HeaderFields(r.1) == HeaderFields(p) &&
      (r.0.None? && r.1.current == Some(ch) && p.tempo != 0 ==>
        Queue(r.1, ch) == Queue(p, ch) + NoteEvents(line, p.tempo)) &&
      (r.0.Some? || r.1.current != Some(ch) ==> Queue(r.1, ch) == Queue(p, ch))
  {
    var r := ParseLineResult(p, line);
    var p1 := p.(current := SelectChannel(p.current, line));
    assert Queue(p1, ch) == Queue(p, ch);
    if r.0.None? && r.1.current == Some(ch) && p.tempo == 0 {
      assert !HasNote(line);
    }
  }

  /** A line without note letters only selects the channel. */
  lemma ParseLineWithoutNotes(p: Parser, line: string)
    requires !HasNote(line)
    ensures ParseLineResult(p, line) == (None, p.(current := SelectChannel(p.current, line)))
  {
    var p1 := p.(current := SelectChannel(p.current, line));
    if p1.tempo != 0 && p1.current.Some? {
      NoteEventsEmpty(line, p1.tempo);
      assert Queue(p1, p1.current.value) + [] == Queue(p1, p1.current.value);
      QueueRoundTrip(p1, p1.current.value);
    }
  }

  lemma QueueRoundTrip(p: Parser, ch: Channel)
    ensures WithQueue(p, ch, Queue(p, ch)) == p
  {
  }

  // ------------------------------------------------------- _parse_header

  /** One iteration of `_parse_header`: the first prefix that matches
      decides; `line[7:]`, `line[10:]` and `line[11:]` keep what follows
      the keyword and one more character. */
  function ApplyHeaderLine(p: Parser, line: string): Parser
  {
    if StartsWith(line, "#INCLUDE") then p
    else if StartsWith(line, "#TITLE") then p.(title := Some(Drop(line, 7)))
    else if StartsWith(line, "#COMPOSER") then p.(composer := Some(Drop(line, 10)))
    else if StartsWith(line, "#PROGRAMER") then p.(programmer := Some(Drop(line, 11)))
    else if StartsWith(line, "#PROGRAMMER") then p.(programmer := Some(Drop(line, 11)))
    else if StartsWith(line, "#OCTAVE-REV") then p.(reverseOctave := true)
    else p
  }

  /** A line that starts with `key` agrees with it at every position of
      the key. */
  lemma CharAt(line: string, key: string, i: nat)
    requires i < |key|
    ensures StartsWith(line, key) ==> line[i] == key[i]
  {
    if StartsWith(line, key) {
      assert line[..|key|][i] == line[i];
    }
  }

  /** The header keywords exclude each other (they differ in their second
      character, or in the tenth for the two spellings of PROGRAMMER), so
      each one reaches its own branch. */
  lemma HeaderLineCases(p: Parser, line: string)
    ensures StartsWith(line, "#TITLE") ==> ApplyHeaderLine(p, line) == p.(title := Some(Drop(line, 7)))
    ensures StartsWith(line, "#COMPOSER") ==> ApplyHeaderLine(p, line) == p.(composer := Some(Drop(line, 10)))
    ensures StartsWith(line, "#PROGRAMER") || StartsWith(line, "#PROGRAMMER") ==>
      ApplyHeaderLine(p, line) == p.(programmer := Some(Drop(line, 11)))
    ensures StartsWith(line, "#OCTAVE-REV") ==> ApplyHeaderLine(p, line) == p.(reverseOctave := true)
  {
    CharAt(line, "#INCLUDE", 1);
    CharAt(line, "#TITLE", 1);
    CharAt(line, "#COMPOSER", 1);
    CharAt(line, "#PROGRAMER", 1);
    CharAt(line, "#PROGRAMMER", 1);
    CharAt(line, "#OCTAVE-REV", 1);
    CharAt(line, "#PROGRAMER", 9);
    CharAt(line, "#PROGRAMMER", 9);
  }

  /** `_parse_header` over `lines`, in order. */
  function ScanHeader(p: Parser, lines: seq<string>): Parser
  {
    if lines == [] then p else ApplyHeaderLine(ScanHeader(p, lines[..|lines| - 1]), lines[|lines| - 1])
  }

  /** Scanning two runs of lines is scanning the first and then the
      second. */
  lemma {:induction false} ScanHeaderConcat(p: Parser, a: seq<string>, b: seq<string>)
    ensures ScanHeader(p, a + b) == ScanHeader(ScanHeader(p, a), b)
    decreases |b|
  {
    if b != [] {
      assert (a + b)[..|a + b| - 1] == a + b[..|b| - 1];
      ScanHeaderConcat(p, a, b[..|b| - 1]);
    } else {
      assert a + b == a;
    }
  }

  /** The header scan writes only the header fields. */
  lemma {:induction false} ScanHeaderFrame(p: Parser, lines: seq<string>)
    ensures var q := ScanHeader(p, lines);
      Settings(q) == Settings(p) && q.current == p.current &&
      forall ch :: Queue(q, ch) == Queue(p, ch)
  {
    if lines != [] {
      ScanHeaderFrame(p, lines[..|lines| - 1]);
    }
  }

  /** `#OCTAVE-REV` anywhere turns octave reversal on, and nothing turns
      it off. */
  lemma {:induction false} ReverseOctaveIff(p: Parser, lines: seq<string>)
    ensures ScanHeader(p, lines).reverseOctave
        <==> p.reverseOctave || exists k :: 0 <= k < |lines| && StartsWith(lines[k], "#OCTAVE-REV")
  {
    if lines != [] {
      var init := lines[..|lines| - 1];
      var last := lines[|lines| - 1];
      ReverseOctaveIff(p, init);
      if exists k :: 0 <= k < |init| && StartsWith(init[k], "#OCTAVE-REV") {
        var k :| 0 <= k < |init| && StartsWith(init[k], "#OCTAVE-REV");
        assert lines[k] == init[k];
      }
      if exists k :: 0 <= k < |lines| && StartsWith(lines[k], "#OCTAVE-REV") {
        var k :| 0 <= k < |lines| && StartsWith(lines[k], "#OCTAVE-REV");
        if k < |init| {
          assert init[k] == lines[k];
        }
      }
      HeaderLineCases(ScanHeader(p, init), last);
    }
  }

  /** The last `#TITLE` line gives the title: lines after it that are not
      `#TITLE` lines leave it alone. */
  lemma {:induction false} LastTitleWins(p: Parser, before: seq<string>, line: string, after: seq<string>)
    requires StartsWith(line, "#TITLE")
    requires forall k :: 0 <= k < |after| ==> !StartsWith(after[k], "#TITLE")
    ensures ScanHeader(p, before + [line] + after).title == Some(Drop(line, 7))
    decreases |after|
  {
    if after == [] {
      HeaderLineCases(ScanHeader(p, before), line);
      assert before + [line] + after == before + [line];
    } else {
      var init := after[..|after| - 1];
      assert (before + [line] + after)[..|before + [line] + after| - 1] == before + [line] + init;
      LastTitleWins(p, before, line, init);
    }
  }

  /** Likewise the last `#COMPOSER` line gives the composer. */
  lemma {:induction false} LastComposerWins(p: Parser, before: seq<string>, line: string, after: seq<string>)
    requires StartsWith(line, "#COMPOSER")
    requires forall k :: 0 <= k < |after| ==> !StartsWith(after[k], "#COMPOSER")
    ensures ScanHeader(p, before + [line] + after).composer == Some(Drop(line, 10))
    decreases |after|
  {
    if after == [] {
      HeaderLineCases(ScanHeader(p, before), line);
      assert before + [line] + after == before + [line];
    } else {
      var init := after[..|after| - 1];
      assert (before + [line] + after)[..|before + [line] + after| - 1] == before + [line] + init;
      LastComposerWins(p, before, line, init);
    }
  }

  /** And the last line in either spelling, `#PROGRAMER` or `#PROGRAMMER`,
      gives the programmer. */
  lemma {:induction false} LastProgrammerWins(p: Parser, before: seq<string>, line: string, after: seq<string>)
    requires StartsWith(line, "#PROGRAMER") || StartsWith(line, "#PROGRAMMER")
    requires forall k :: 0 <= k < |after| ==>
      !StartsWith(after[k], "#PROGRAMER") && !StartsWith(after[k], "#PROGRAMMER")
    ensures ScanHeader(p, before + [line] + after).programmer == Some(Drop(line, 11))
    decreases |after|
  {
    if after == [] {
      HeaderLineCases(ScanHeader(p, before), line);
      assert before + [line] + after == before + [line];
    } else {
      var init := after[..|after| - 1];
      assert (before + [line] + after)[..|before + [line] + after| - 1] == before + [line] + init;
      LastProgrammerWins(p, before, line, init);
    }
  }

  /** The title and composer keep the text from offsets 7 and 10, just
      past the keyword and its separator. */
  lemma HeaderOffsets(p: Parser)
    ensures ApplyHeaderLine(p, "#TITLE Song").title == Some("Song")
    ensures ApplyHeaderLine(p, "#COMPOSER Ann").composer == Some("Ann")
  {
    assert ApplyHeaderLine(p, "#TITLE Song").title == Some("Song") by {
      assert "#TITLE Song"[..6] == "#TITLE";
      HeaderLineCases(p, "#TITLE Song");
    }
    assert ApplyHeaderLine(p, "#COMPOSER Ann").composer == Some("Ann") by {
      assert "#COMPOSER Ann"[..9] == "#COMPOSER";
      HeaderLineCases(p, "#COMPOSER Ann");
    }
  }

  /** The two spellings of the programmer keyword share the offset 11, so
      the correctly spelt one keeps a leading space and the misspelt one
      does not. */
  lemma ProgrammerOffsets(p: Parser)
    ensures ApplyHeaderLine(p, "#PROGRAMER Bob").programmer == Some("Bob")
    ensures ApplyHeaderLine(p, "#PROGRAMMER Bob").programmer == Some(" Bob")
  {
    assert ApplyHeaderLine(p, "#PROGRAMER Bob").programmer == Some("Bob") by {
      assert "#PROGRAMER Bob"[..10] == "#PROGRAMER";
      HeaderLineCases(p, "#PROGRAMER Bob");
    }
    assert ApplyHeaderLine(p, "#PROGRAMMER Bob").programmer == Some(" Bob") by {
      assert "#PROGRAMMER Bob"[..11] == "#PROGRAMMER";
      HeaderLineCases(p, "#PROGRAMMER Bob");
    }
  }

  /** `#INCLUDE` lines and lines that are not header lines change nothing. */
  lemma HeaderIgnores(p: Parser, line: string)
    requires StartsWith(line, "#INCLUDE") || !StartsWith(line, "#")
    ensures ApplyHeaderLine(p, line) == p
  {
    if !StartsWith(line, "#INCLUDE") {
      if line != [] {
        assert line[..1] == [line[0]];
      }
      CharAt(line, "#TITLE", 0);
      CharAt(line, "#COMPOSER", 0);
      CharAt(line, "#PROGRAMER", 0);
      CharAt(line, "#PROGRAMMER", 0);
      CharAt(line, "#OCTAVE-REV", 0);
    }
  }

  // ------------------------------------------------------------ the class

  class MMLParser {
    var tempo: int
    var octave: int
    var reverseOctave: bool
    var length: int
    var volume: int
    var rawMmlData: seq<string>
    var title: Option<string>
    var composer: Option<string>
    var programmer: Option<string>
    var current: Option<Channel>
    var queueA: seq<Event>
    var queueB: seq<Event>
    var queueC: seq<Event>
    var queueD: seq<Event>
    var queueE: seq<Event>

    function State(): Parser
      reads this
    {
      Parser(tempo, octave, reverseOctave, length, volume, rawMmlData, title, composer, programmer,
             current, queueA, queueB, queueC, queueD, queueE)
    }

    /** `MMLParser(tempo=120, octave=4, length=4, volume=10)`. */
    constructor (tempo: int := 120, octave: int := 4, length: int := 4, volume: int := 10)
      ensures State() == Initial(tempo, octave, length, volume)
    {
      this.tempo := tempo;
      this.octave := octave;
      reverseOctave := false;
      this.length := length;
      this.volume := volume;
      rawMmlData := [];
      title, composer, programmer := None, None, None;
      current := None;
      queueA, queueB, queueC, queueD, queueE := [], [], [], [], [];
    }

    /** `_set_channel(line)`. */
    method SetChannel(line: string)
      modifies this
      ensures State() == old(State()).(current := SelectChannel(old(current), line))
    {
      if StartsWith(line, "#") {
        return;
      } else if StartsWith(line, "A ") {
        current := Some(A);
      } else if StartsWith(line, "B ") {
        current := Some(B);
      } else if StartsWith(line, "C ") {
        current := Some(C);
      } else if StartsWith(line, "D ") {
        current := Some(D);
      } else if StartsWith(line, "E ") {
        current := Some(E);
      } else {
        current := Some(A);
      }
    }

    /** `parse_line(line)`; `err` is the exception it raises, if any. */
    method ParseLine(line: string) returns (err: Option<Error>)
      modifies this
      ensures (err, State()) == ParseLineResult(old(State()), line)
    {
      SetChannel(line);
      ghost var p1 := State();
      var i := 0;
      assert line[..0] == [];
      while i < |line|
        invariant 0 <= i <= |line| && p1.current == current && p1.tempo == tempo
        invariant HasNote(line[..i]) ==> tempo != 0 && current.Some?
        invariant !HasNote(line[..i]) ==> State() == p1
        invariant HasNote(line[..i]) ==> State() == Appended(p1, line[..i])
      {
        var c := line[i];
        ghost var before := State();
        assert line[..i + 1] == line[..i] + [c];
        if [Upper(c)] in Notes {
          var freq := Notes[[Upper(c)]];
          assert HasNote(line) by {
            assert IsNote(line[i]);
          }
          if tempo == 0 {
            assert !HasNote(line[..i]);
            return Some(ZeroDivisionError);
          }
          var leng := 60.0 / tempo as real;
          if current.None? {
            assert !HasNote(line[..i]);
            return Some(AttributeError);
          }
          Append(current.value, Event(leng, freq));
          assert HasNote(line[..i + 1]) by {
            assert IsNote(line[..i + 1][i]);
          }
          ExtendAppended(p1, line[..i], c, before);
        } else {
          NoNoteExtends(line[..i], c);
          if HasNote(line[..i]) {
            SkipAppended(p1, line[..i], c);
          }
        }
        i := i + 1;
      }
      assert line[..i] == line;
      if !HasNote(line) {
        ParseLineWithoutNotes(old(State()), line);
      }
      err := None;
    }

    /** `current_channel.append(event)`, naming the queue it aliases. */
    method Append(ch: Channel, event: Event)
      modifies this
      ensures State() == WithQueue(old(State()), ch, Queue(old(State()), ch) + [event])
    {
      match ch {
        case A => queueA := queueA + [event];
        case B => queueB := queueB + [event];
        case C => queueC := queueC + [event];
        case D => queueD := queueD + [event];
        case E => queueE := queueE + [event];
      }
    }

    /** `_parse_header()`. */
    method ParseHeader()
      modifies this
      ensures State() == ScanHeader(old(State()), old(rawMmlData))
    {
      ghost var p0 := State();
      var i := 0;
      while i < |rawMmlData|
        invariant 0 <= i <= |rawMmlData| && rawMmlData == p0.rawMmlData
        invariant State() == ScanHeader(p0, rawMmlData[..i])
      {
        var line := rawMmlData[i];
        assert rawMmlData[..i + 1][..i] == rawMmlData[..i];
        if StartsWith(line, "#INCLUDE") {
        } else if StartsWith(line, "#TITLE") {
          title := Some(Drop(line, 7));
        } else if StartsWith(line, "#COMPOSER") {
          composer := Some(Drop(line, 10));
        } else if StartsWith(line, "#PROGRAMER") {
          programmer := Some(Drop(line, 11));
        } else if StartsWith(line, "#PROGRAMMER") {
          programmer := Some(Drop(line, 11));
        } else if StartsWith(line, "#OCTAVE-REV") {
          reverseOctave := true;
        }
        i := i + 1;
      }
      assert rawMmlData[..i] == rawMmlData;
    }

    /** `load_file` after the file has been read into `lines`: each line is
        stripped and appended to `raw_mml_data`, then the header of the
        whole accumulated text is scanned. */
    method LoadLines(lines: seq<string>)
      modifies this
      ensures rawMmlData == old(rawMmlData) + StripAll(lines)
      ensures State() == ScanHeader(old(State()).(rawMmlData := rawMmlData), rawMmlData)
    {
      AppendLines(lines);
      ghost var loaded := State();
      ParseHeader();
      ScanHeaderFrame(loaded, loaded.rawMmlData);
    }

    /** The reading half of `load_file`. */
    method AppendLines(lines: seq<string>)
      modifies this
      ensures State() == old(State()).(rawMmlData := old(rawMmlData) + StripAll(lines))
    {
      var stripped := StripLines(lines);
      rawMmlData := rawMmlData + stripped;
    }
  }

  /** The loop of `load_file`: `line.strip()` of each line read, in order. */
  method StripLines(lines: seq<string>) returns (stripped: seq<string>)
    ensures stripped == StripAll(lines)
  {
    stripped := [];
    var i := 0;
    while i < |lines|
      invariant 0 <= i <= |lines| && stripped == StripAll(lines[..i])
    {
      assert lines[..i + 1][..i] == lines[..i];
      stripped := stripped + [Strip(lines[i])];
      i := i + 1;
    }
    assert lines[..i] == lines;
  }

  lemma NoNoteExtends(s: string, c: char)
    requires !IsNote(c)
    ensures HasNote(s + [c]) <==> HasNote(s)
  {
    if HasNote(s + [c]) {
      var k :| 0 <= k < |s + [c]| && IsNote((s + [c])[k]);
      assert k < |s| && s[k] == (s + [c])[k];
    }
    if HasNote(s) {
      var k :| 0 <= k < |s| && IsNote(s[k]);
      assert (s + [c])[k] == s[k];
    }
  }

  /** One note letter more: the selected queue grows by its event. */
  lemma ExtendAppended(p1: Parser, s: string, c: char, before: Parser)
    requires IsNote(c) && p1.tempo != 0 && p1.current.Some?
    requires before == (if HasNote(s) then Appended(p1, s) else p1)
    ensures WithQueue(before, p1.current.value, Queue(before, p1.current.value) + [Event(Beat(p1.tempo), Notes[[Upper(c)]])])
         == Appended(p1, s + [c])
  {
    var ch := p1.current.value;
    assert (s + [c])[..|s + [c]| - 1] == s;
    if !HasNote(s) {
      NoteEventsEmpty(s, p1.tempo);
    }
    assert Queue(p1, ch) + NoteEvents(s, p1.tempo) + [Event(Beat(p1.tempo), Notes[[Upper(c)]])]
        == Queue(p1, ch) + NoteEvents(s + [c], p1.tempo);
  }

  /** A character that is not a note letter leaves the queues alone. */
  lemma SkipAppended(p1: Parser, s: string, c: char)
    requires !IsNote(c) && p1.tempo != 0 && p1.current.Some?
    ensures Appended(p1, s + [c]) == Appended(p1, s)
  {
    assert (s + [c])[..|s + [c]| - 1] == s;
    assert NoteEvents(s + [c], p1.tempo) == NoteEvents(s, p1.tempo) + [];
  }
}
