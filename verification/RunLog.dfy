/** A run's event file: lines appended in place, and readers that follow it by byte offset. */
module RunLog {
  import opened Basics

  /** Bytes of the file; a record ends with a newline and holds none. */
  type Bytes = seq<char>

  datatype RunEvent = RunEvent(sequence: int, body: string)

  /** Canonical encoding of an event, and strict parsing: a line is an event, some other value, or an error. */
  datatype Codec = Codec(encode: RunEvent -> Bytes, parse: Bytes -> Result<Option<RunEvent>>)

  ghost predicate CodecOk(c: Codec) {
    forall e :: c.parse(c.encode(e)) == Accept(Some(e)) && '\n' !in c.encode(e) && '\r' !in c.encode(e)
  }

  // ----- Lines -----

  /** The pieces of some bytes that end at a mark, and the unfinished rest. */
  function SplitAt(mark: char, bytes: Bytes): (seq<Bytes>, Bytes) {
    if bytes == [] then ([], [])
    else
      var (pieces, rest) := SplitAt(mark, bytes[..|bytes| - 1]);
      var last := bytes[|bytes| - 1];
      if last == mark then (pieces + [rest], []) else (pieces, rest + [last])
  }

  /** The complete lines of some bytes, and the unfinished rest. */
  function Split(bytes: Bytes): (seq<Bytes>, Bytes) {
    SplitAt('\n', bytes)
  }

  /** A line splits again at carriage returns; one just before the newline is part of the line's end. */
  function SubLines(line: Bytes): seq<Bytes> {
    var (pieces, rest) := SplitAt('\r', line);
    if rest == [] && pieces != [] then pieces else pieces + [rest]
  }

  function SubLinesOf(lines: seq<Bytes>): seq<Bytes> {
    if lines == [] then [] else SubLinesOf(lines[..|lines| - 1]) + SubLines(lines[|lines| - 1])
  }

  lemma {:induction false} SubLinesConcat(xs: seq<Bytes>, ys: seq<Bytes>)
    ensures SubLinesOf(xs + ys) == SubLinesOf(xs) + SubLinesOf(ys)
  {
    hide SubLines;
    if ys == [] {
      assert xs + ys == xs;
    } else {
      var init, last := ys[..|ys| - 1], SubLines(ys[|ys| - 1]);
      SubLinesConcat(xs, init);
      ShorterConcat(xs, ys);
      assert (SubLinesOf(xs) + SubLinesOf(init)) + last == SubLinesOf(xs) + (SubLinesOf(init) + last);
    }
  }

  /** Everything up to and including the last newline. */
  function Complete(bytes: Bytes): (c: Bytes)
    ensures c <= bytes
  {
    if bytes == [] || bytes[|bytes| - 1] == '\n' then bytes else Complete(bytes[..|bytes| - 1])
  }

  /** Pieces with a mark after each, and the rest. */
  function Rejoined(mark: char, pieces: seq<Bytes>, rest: Bytes): Bytes {
    if pieces == [] then rest else pieces[0] + [mark] + Rejoined(mark, pieces[1..], rest)
  }

  lemma {:induction false} RejoinLast(mark: char, pieces: seq<Bytes>, piece: Bytes, rest: Bytes)
    ensures Rejoined(mark, pieces + [piece], rest) == Rejoined(mark, pieces, piece + [mark] + rest)
  {
    if pieces == [] {
      assert ([] + [piece])[1..] == [];
    } else {
      assert (pieces + [piece])[1..] == pieces[1..] + [piece];
      RejoinLast(mark, pieces[1..], piece, rest);
    }
  }

  lemma {:induction false} RejoinMore(mark: char, pieces: seq<Bytes>, rest: Bytes, more: Bytes)
    ensures Rejoined(mark, pieces, rest) + more == Rejoined(mark, pieces, rest + more)
  {
    if pieces != [] {
      RejoinMore(mark, pieces[1..], rest, more);
      assert (pieces[0] + [mark] + Rejoined(mark, pieces[1..], rest)) + more
             == pieces[0] + [mark] + (Rejoined(mark, pieces[1..], rest) + more);
    }
  }

  /** Splitting cuts at every mark and loses nothing: the pieces hold no mark and rejoin to the bytes. */
  lemma {:induction false} SplitMeans(mark: char, bytes: Bytes)
    ensures var (pieces, rest) := SplitAt(mark, bytes);
            && Rejoined(mark, pieces, rest) == bytes
            && mark !in rest && forall p :: p in pieces ==> mark !in p
  {
    if bytes != [] {
      var init, last := bytes[..|bytes| - 1], bytes[|bytes| - 1];
      var (pieces, rest) := SplitAt(mark, init);
      SplitMeans(mark, init);
      SplitLast(bytes);
      RejoinMore(mark, pieces, rest, [last]);
      if last == mark {
        RejoinLast(mark, pieces, rest, []);
        assert rest + [mark] + [] == rest + [last];
      }
    }
  }

  /** A line's pieces hold no carriage return, and rejoin to the line, whose last one may be part of its end. */
  lemma SubLinesMean(line: Bytes)
    ensures SubLines(line) != [] && forall p :: p in SubLines(line) ==> '\r' !in p
    ensures if line != [] && line[|line| - 1] == '\r' then Rejoined('\r', SubLines(line), []) == line
            else Rejoined('\r', SubLines(line)[..|SubLines(line)| - 1], SubLines(line)[|SubLines(line)| - 1]) == line
  {
    SplitMeans('\r', line);
    var (pieces, rest) := SplitAt('\r', line);
    RestAtEnd('\r', line);
    assert (pieces + [rest])[..|pieces|] == pieces;
  }

  lemma RestAtEnd(mark: char, bytes: Bytes)
    ensures SplitAt(mark, bytes).1 == [] <==> bytes == [] || bytes[|bytes| - 1] == mark
    ensures bytes == [] ==> SplitAt(mark, bytes).0 == []
    ensures bytes != [] && bytes[|bytes| - 1] == mark ==> SplitAt(mark, bytes).0 != []
  {}

  /** An offset at the start of a record. */
  predicate Boundary(file: Bytes, offset: nat) {
    offset <= |file| && (offset == 0 || file[offset - 1] == '\n')
  }

  lemma BoundaryNoRest(file: Bytes, offset: nat)
    requires offset <= |file|
    ensures Boundary(file, offset) <==> Split(file[..offset]).1 == []
  {
    if offset > 0 {
      assert file[..offset][|file[..offset]| - 1] == file[offset - 1];
    }
  }

  lemma {:induction false} SplitConcat(a: Bytes, b: Bytes)
    requires Split(a).1 == []
    ensures Split(a + b) == (Split(a).0 + Split(b).0, Split(b).1)
  {
    if b == [] {
      assert a + b == a && Split(a).0 + [] == Split(a).0;
    } else {
      SplitConcat(a, b[..|b| - 1]);
      ShorterConcat(a, b);
      var (lines, rest) := Split(b[..|b| - 1]);
      assert (Split(a).0 + lines) + [rest] == Split(a).0 + (lines + [rest]);
    }
  }

  /** Bytes without the mark lengthen the rest. */
  lemma {:induction false} SplitPlain(mark: char, a: Bytes, b: Bytes)
    requires mark !in b
    ensures SplitAt(mark, a + b) == (SplitAt(mark, a).0, SplitAt(mark, a).1 + b)
  {
    if b == [] {
      assert a + b == a && SplitAt(mark, a).1 + b == SplitAt(mark, a).1;
    } else {
      SplitLast(b);
      SplitPlain(mark, a, b[..|b| - 1]);
      ShorterConcat(a, b);
      assert (SplitAt(mark, a).1 + b[..|b| - 1]) + [b[|b| - 1]] == SplitAt(mark, a).1 + b;
    }
  }

  /** A mark ends the rest. */
  lemma SplitMark(mark: char, a: Bytes)
    ensures SplitAt(mark, a + [mark]) == (SplitAt(mark, a).0 + [SplitAt(mark, a).1], [])
  {
    assert (a + [mark])[..|a|] == a;
  }

  lemma PlainLine(line: Bytes)
    requires '\r' !in line
    ensures SubLines(line) == [line] && SubLinesOf([line]) == [line]
  {
    SplitPlain('\r', [], line);
    assert [] + line == line;
    assert [line][..0] == [];
  }

  lemma {:induction false} CompleteSplits(bytes: Bytes)
    ensures Split(Complete(bytes)) == (Split(bytes).0, [])
    ensures '\n' !in bytes[|Complete(bytes)|..]
  {
    if bytes != [] && bytes[|bytes| - 1] != '\n' {
      CompleteSplits(bytes[..|bytes| - 1]);
      SplitLast(bytes);
      var c := Complete(bytes);
      assert bytes[|c|..] == bytes[..|bytes| - 1][|c|..] + [bytes[|bytes| - 1]];
    }
  }

  // ----- Reading -----

  /** The events among parsed pieces; other values are skipped, and one bad piece fails the whole read. */
  function ParseEach(c: Codec, pieces: seq<Bytes>): Result<seq<RunEvent>> {
    if pieces == [] then Accept([])
    else
      match (ParseEach(c, pieces[..|pieces| - 1]), c.parse(pieces[|pieces| - 1]))
      case (Accept(earlier), Accept(value)) => Accept(if value.Some? then earlier + [value.value] else earlier)
      case _ => Reject
  }

  /** How many of some pieces are events. */
  function EventsAmong(c: Codec, pieces: seq<Bytes>): nat {
    if pieces == [] then 0
    else
      var value := c.parse(pieces[|pieces| - 1]);
      EventsAmong(c, pieces[..|pieces| - 1]) + if value.Accept? && value.value.Some? then 1 else 0
  }

  predicate Unparsable(c: Codec, pieces: seq<Bytes>, i: nat) {
    i < |pieces| && c.parse(pieces[i]).Reject?
  }

  /** What parsing a piece gives is where the events before it put it. */
  predicate GivenAt(c: Codec, pieces: seq<Bytes>, values: seq<RunEvent>, i: nat)
    requires i < |pieces|
  {
    var value := c.parse(pieces[i]);
    value.Accept? && value.value.Some? ==>
      var n := EventsAmong(c, pieces[..i]);
      n < |values| && values[n] == value.value.value
  }

  /** Parsing fails exactly on an unparsable piece; otherwise it gives every event among the pieces, in their order. */
  lemma {:induction false} ParseMeans(c: Codec, pieces: seq<Bytes>)
    ensures ParseEach(c, pieces).Reject? <==> exists i: nat :: Unparsable(c, pieces, i)
    ensures ParseEach(c, pieces).Accept? ==>
              var values := ParseEach(c, pieces).value;
              |values| == EventsAmong(c, pieces) && forall i: nat :: i < |pieces| ==> GivenAt(c, pieces, values, i)
  {
    if pieces != [] {
      var init, n := pieces[..|pieces| - 1], |pieces| - 1;
      ParseMeans(c, init);
      if i: nat :| Unparsable(c, init, i) {
        assert Unparsable(c, pieces, i);
      }
      if c.parse(pieces[n]).Reject? {
        assert Unparsable(c, pieces, n);
      }
      if i: nat :| Unparsable(c, pieces, i) {
        assert i < n ==> Unparsable(c, init, i);
      }
      if ParseEach(c, pieces).Accept? {
        var before, values := ParseEach(c, init).value, ParseEach(c, pieces).value;
        forall i: nat | i < |pieces| ensures GivenAt(c, pieces, values, i) {
          if i < n {
            assert init[..i] == pieces[..i];
            assert GivenAt(c, init, before, i);
          }
        }
      }
    }
  }

  function ParseAll(c: Codec, lines: seq<Bytes>): Result<seq<RunEvent>> {
    ParseEach(c, SubLinesOf(lines))
  }

  lemma ParseConcat(c: Codec, xs: seq<Bytes>, ys: seq<Bytes>)
    ensures ParseAll(c, xs + ys) ==
            match (ParseAll(c, xs), ParseAll(c, ys)) { case (Accept(a), Accept(b)) => Accept(a + b) case _ => Reject }
  {
    hide SubLinesOf, ParseEach;
    SubLinesConcat(xs, ys);
    ParseEachConcat(c, SubLinesOf(xs), SubLinesOf(ys));
  }

  lemma {:induction false} ParseEachConcat(c: Codec, xs: seq<Bytes>, ys: seq<Bytes>)
    ensures ParseEach(c, xs + ys) ==
            match (ParseEach(c, xs), ParseEach(c, ys)) { case (Accept(a), Accept(b)) => Accept(a + b) case _ => Reject }
  {
    if ys == [] {
      assert xs + ys == xs;
      if ParseEach(c, xs).Accept? {
        assert ParseEach(c, xs).value + [] == ParseEach(c, xs).value;
      }
    } else {
      var init := ys[..|ys| - 1];
      ParseEachConcat(c, xs, init);
      ShorterConcat(xs, ys);
      if ParseEach(c, xs).Accept? && ParseEach(c, init).Accept? && c.parse(ys[|ys| - 1]).Accept? {
        var a, b, v := ParseEach(c, xs).value, ParseEach(c, init).value, c.parse(ys[|ys| - 1]).value;
        if v.Some? {
          assert (a + b) + [v.value] == a + (b + [v.value]);
        }
      }
    }
  }

  /** What a reader at an offset gets, and the offset it continues from. */
  function ReadSince(c: Codec, file: Bytes, offset: nat): Result<(seq<RunEvent>, nat)> {
    if offset > |file| then Reject
    else
      match ParseAll(c, Split(file[offset..]).0)
      case Reject => Reject
      case Accept(values) => Accept((values, offset + |Complete(file[offset..])|))
  }

  /** The pieces of the complete lines of some bytes. */
  function Pieces(bytes: Bytes): seq<Bytes> {
    SubLinesOf(Split(bytes).0)
  }

  lemma {:induction false} CompleteMeans(bytes: Bytes)
    ensures '\n' !in bytes[|Complete(bytes)|..]
    ensures Complete(bytes) == [] || bytes[|Complete(bytes)| - 1] == '\n'
  {
    if bytes != [] && bytes[|bytes| - 1] != '\n' {
      CompleteMeans(bytes[..|bytes| - 1]);
      SplitLast(bytes);
      var c := Complete(bytes);
      assert bytes[|c|..] == bytes[..|bytes| - 1][|c|..] + [bytes[|bytes| - 1]];
    }
  }

  /**
   A read fails exactly on an offset outside the file or a piece that does not parse; otherwise it gives the events
   among the pieces, in order, and continues after the last newline.
   */
  ghost predicate ReadMeans(c: Codec, file: Bytes, offset: int, read: Result<(seq<RunEvent>, nat)>) {
    && (read.Reject? <==>
        offset < 0 || offset > |file| || exists i: nat :: Unparsable(c, Pieces(file[offset..]), i))
    && (read.Accept? ==>
          var pieces, values, next := Pieces(file[offset..]), read.value.0, read.value.1;
          && offset <= next <= |file| && (next == offset || file[next - 1] == '\n') && '\n' !in file[next..]
          && |values| == EventsAmong(c, pieces)
          && forall i: nat :: i < |pieces| ==> GivenAt(c, pieces, values, i))
  }

  lemma ReadExactly(c: Codec, file: Bytes, offset: nat)
    requires offset <= |file|
    ensures ReadMeans(c, file, offset, ReadSince(c, file, offset))
  {
    var payload := file[offset..];
    ParseMeans(c, Pieces(payload));
    CompleteMeans(payload);
    hide Split, Complete, SubLinesOf, Unparsable, GivenAt, EventsAmong;
    assert file[offset + |Complete(payload)|..] == payload[|Complete(payload)|..];
  }

  // ----- The store -----

  /** Where a crash interrupts an append: nowhere, inside the write, or between the file and the status. */
  datatype Crash = NoCrash | Torn(written: nat) | StatusLost

  datatype Attempt = Attempt(body: string, crash: Crash)

  /** The event file and the count in the status record. */
  datatype Store = Store(file: Bytes, count: int)

  function LineOf(c: Codec, event: RunEvent): Bytes {
    c.encode(event) + ['\n']
  }

  /** The bytes of one append that reach the file. */
  function Landed(c: Codec, event: RunEvent, crash: Crash): Bytes {
    var line := LineOf(c, event);
    if crash.Torn? && crash.written < |line| then line[..crash.written] else line
  }

  /** The event is numbered from the status; the status follows only when nothing interrupts. */
  function AppendOne(c: Codec, s: Store, a: Attempt): Store {
    Store(s.file + Landed(c, RunEvent(s.count + 1, a.body), a.crash),
          if a.crash == NoCrash then s.count + 1 else s.count)
  }

  function AppendAll(c: Codec, s: Store, attempts: seq<Attempt>): Store {
    if attempts == [] then s else AppendOne(c, AppendAll(c, s, attempts[..|attempts| - 1]), attempts[|attempts| - 1])
  }

  class RunStore {
    const codec: Codec
    var file: Bytes
    var eventCount: int

    constructor (codec: Codec)
      ensures this.codec == codec && View() == Store([], 0)
    {
      this.codec, file, eventCount := codec, [], 0;
    }

    function View(): Store
      reads this
    {
      Store(file, eventCount)
    }

    /** append_event: number the event, write its line, then update the status. */
    method AppendEvent(body: string, crash: Crash) returns (event: RunEvent)
      modifies this
      ensures event == RunEvent(old(eventCount) + 1, body)
      ensures View() == AppendOne(codec, old(View()), Attempt(body, crash))
    {
      var sequence := eventCount + 1;
      event := RunEvent(sequence, body);
      file := file + Landed(codec, event, crash);
      if crash == NoCrash {
        eventCount := sequence;
      }
    }

    /** events_since: parse the complete lines after an offset, and return the offset after them. */
    method EventsSince(offset: int) returns (read: Result<(seq<RunEvent>, nat)>)
      ensures offset < 0 ==> read.Reject?
      ensures offset >= 0 ==> read == ReadSince(codec, file, offset)
      ensures ReadMeans(codec, file, offset, read)
    {
      if offset < 0 || offset > |file| {
        return Reject;
      }
      ReadExactly(codec, file, offset);
      hide Split, Complete, SubLinesOf, ReadMeans;
      var payload := file[offset..];
      var complete := Complete(payload);
      CompleteSplits(payload);
      var lines := SubLinesOf(Split(complete).0);
      var values: seq<RunEvent> := [];
      for i := 0 to |lines|
        invariant ParseEach(codec, lines[..i]) == Accept(values)
      {
        assert lines[..i + 1][..i] == lines[..i];
        var value := codec.parse(lines[i]);
        if value.Reject? {
          RejectedPiece(codec, lines, i);
          return Reject;
        }
        if value.value.Some? {
          values := values + [value.value.value];
        }
      }
      assert lines[..|lines|] == lines;
      return Accept((values, offset + |complete|));
    }
  }

  lemma RejectedPiece(c: Codec, pieces: seq<Bytes>, i: nat)
    requires i < |pieces| && c.parse(pieces[i]).Reject?
    ensures ParseEach(c, pieces).Reject?
  {
    assert pieces == pieces[..i + 1] + pieces[i + 1..];
    assert pieces[..i + 1][..i] == pieces[..i];
    ParseEachConcat(c, pieces[..i + 1], pieces[i + 1..]);
  }

  lemma StaysRejected(c: Codec, lines: seq<Bytes>, n: nat)
    requires n <= |lines| && ParseAll(c, lines[..n]).Reject?
    ensures ParseAll(c, lines).Reject?
  {
    hide ParseAll;
    assert lines == lines[..n] + lines[n..];
    ParseConcat(c, lines[..n], lines[n..]);
  }

  // ----- Following a growing file -----

  /** Bytes reach the file in any pieces, and a reader passes its offset on. */
  datatype Action = Write(bytes: Bytes) | Read

  /** The file, where the reader is, and everything it has been given. */
  datatype Tail = Tail(file: Bytes, offset: nat, got: seq<RunEvent>)

  function Act(c: Codec, t: Tail, a: Action): Tail {
    match a
    case Write(bytes) => t.(file := t.file + bytes)
    case Read =>
      match ReadSince(c, t.file, t.offset)
      case Reject => t
      case Accept((values, offset)) => t.(offset := offset, got := t.got + values)
  }

  function ActAll(c: Codec, t: Tail, actions: seq<Action>): Tail {
    if actions == [] then t else Act(c, ActAll(c, t, actions[..|actions| - 1]), actions[|actions| - 1])
  }

  /** The reader is at a record boundary, and has exactly the events of the file up to there. */
  ghost predicate InStep(c: Codec, t: Tail) {
    Boundary(t.file, t.offset) && ParseAll(c, Split(t.file[..t.offset]).0) == Accept(t.got)
  }

  lemma WriteInStep(c: Codec, t: Tail, bytes: Bytes)
    requires InStep(c, t)
    ensures InStep(c, Act(c, t, Write(bytes)))
  {
    assert (t.file + bytes)[..t.offset] == t.file[..t.offset];
  }

  lemma ReadInStep(c: Codec, t: Tail)
    requires InStep(c, t)
    ensures InStep(c, Act(c, t, Read))
  {
    hide Split, ParseAll, Complete;
    if ReadSince(c, t.file, t.offset).Accept? {
      var payload := t.file[t.offset..];
      var u := Act(c, t, Read);
      BoundaryNoRest(t.file, t.offset);
      CompleteSplits(payload);
      assert t.file[..u.offset] == t.file[..t.offset] + Complete(payload);
      SplitConcat(t.file[..t.offset], Complete(payload));
      ParseConcat(c, Split(t.file[..t.offset]).0, Split(payload).0);
      BoundaryNoRest(t.file, u.offset);
    }
  }

  /**
   However writes, torn or whole, interleave with reads that pass their offset on, the results so far are exactly the
   complete records of the file up to the offset: none lost, none repeated, and every offset a record boundary.
   */
  lemma {:induction false} FollowingLosesNothing(c: Codec, t: Tail, actions: seq<Action>)
    requires InStep(c, t)
    ensures InStep(c, ActAll(c, t, actions)) && t.file <= ActAll(c, t, actions).file
            && t.got <= ActAll(c, t, actions).got
  {
    if actions != [] {
      FollowingLosesNothing(c, t, actions[..|actions| - 1]);
      var before := ActAll(c, t, actions[..|actions| - 1]);
      match actions[|actions| - 1] {
        case Write(bytes) => WriteInStep(c, before, bytes);
        case Read => ReadInStep(c, before);
      }
    }
  }

  /** A read that succeeds leaves no complete record behind it. */
  lemma ReadCatchesUp(c: Codec, t: Tail)
    requires InStep(c, t) && ReadSince(c, t.file, t.offset).Accept?
    ensures var u := Act(c, t, Read);
            Accept(u.got) == ParseAll(c, Split(u.file).0) && '\n' !in u.file[u.offset..]
  {
    hide Split, ParseAll, Complete;
    var payload := t.file[t.offset..];
    var u := Act(c, t, Read);
    ReadInStep(c, t);
    CompleteSplits(payload);
    assert u.file[u.offset..] == payload[|Complete(payload)|..];
    BoundaryNoRest(t.file, t.offset);
    assert t.file == t.file[..t.offset] + payload;
    SplitConcat(t.file[..t.offset], payload);
    ParseConcat(c, Split(t.file[..t.offset]).0, Split(payload).0);
  }

  /**
   A complete line that does not parse, such as one left by a torn write and the append after it, stops the reader for
   good: reads fail exactly while such a line lies beyond the offset, and no later write removes it.
   */
  lemma {:induction false} BadLineBlocks(c: Codec, t: Tail, actions: seq<Action>)
    requires t.offset <= |t.file| && ParseAll(c, Split(t.file[t.offset..]).0).Reject?
    ensures var u := ActAll(c, t, actions);
            u.offset == t.offset && u.got == t.got && t.file <= u.file && ReadSince(c, u.file, u.offset).Reject?
  {
    if actions != [] {
      var before := ActAll(c, t, actions[..|actions| - 1]);
      BadLineBlocks(c, t, actions[..|actions| - 1]);
      hide Split, ParseAll;
      if actions[|actions| - 1].Write? {
        BadLineStays(c, before.file, before.offset, actions[|actions| - 1].bytes);
      }
    }
  }

  lemma BadLineStays(c: Codec, file: Bytes, offset: nat, bytes: Bytes)
    requires offset <= |file| && ParseAll(c, Split(file[offset..]).0).Reject?
    ensures ParseAll(c, Split((file + bytes)[offset..]).0).Reject?
  {
    hide Split, ParseAll;
    var payload := file[offset..];
    assert (file + bytes)[offset..] == payload + bytes;
    MoreLines(payload, bytes);
    var lines := Split(payload + bytes).0;
    assert lines[..|Split(payload).0|] == Split(payload).0;
    StaysRejected(c, lines, |Split(payload).0|);
  }

  /** Appending bytes only adds lines. */
  lemma {:induction false} MoreLines(a: Bytes, b: Bytes)
    ensures Split(a).0 <= Split(a + b).0
  {
    if b == [] {
      assert a + b == a;
    } else {
      MoreLines(a, b[..|b| - 1]);
      ShorterConcat(a, b);
    }
  }

  // ----- What interrupted appends leave behind -----

  /** A part of an encoding that reached the file without its newline. */
  datatype Fragment = Fragment(event: RunEvent, written: nat)

  function Remains(c: Codec, f: Fragment): Bytes {
    var code := c.encode(f.event);
    if f.written < |code| then code[..f.written] else code
  }

  function Joined(c: Codec, fragments: seq<Fragment>): Bytes {
    if fragments == [] then [] else Joined(c, fragments[..|fragments| - 1]) + Remains(c, fragments[|fragments| - 1])
  }

  /** Leftover beginnings of encodings in front of an encoding make a line that does not parse. */
  ghost predicate Strict(c: Codec) {
    forall fragments, e :: Joined(c, fragments) != [] ==> c.parse(Joined(c, fragments) + c.encode(e)).Reject?
  }

  /** The whole line reached the file, with or without the status. */
  predicate Whole(c: Codec, event: RunEvent, crash: Crash) {
    !crash.Torn? || crash.written > |c.encode(event)|
  }

  /** Something reached the file, but not the newline. */
  predicate Partial(c: Codec, event: RunEvent, crash: Crash) {
    crash.Torn? && 0 < crash.written <= |c.encode(event)|
  }

  /** Appends that completed. */
  function Completed(attempts: seq<Attempt>): nat {
    if attempts == [] then 0
    else Completed(attempts[..|attempts| - 1]) + if attempts[|attempts| - 1].crash == NoCrash then 1 else 0
  }

  /** The event that attempt i writes, from an empty store. */
  function EventAt(attempts: seq<Attempt>, i: nat): RunEvent
    requires i < |attempts|
  {
    RunEvent(Completed(attempts[..i]) + 1, attempts[i].body)
  }

  predicate WholeAt(c: Codec, attempts: seq<Attempt>, i: nat)
    requires i < |attempts|
  {
    Whole(c, EventAt(attempts, i), attempts[i].crash)
  }

  predicate PartialAt(c: Codec, attempts: seq<Attempt>, i: nat)
    requires i < |attempts|
  {
    Partial(c, EventAt(attempts, i), attempts[i].crash)
  }

  /**
   The events whose lines landed, the fragments since the last of them, and whether a line has swallowed fragments.
   */
  datatype Trail = Trail(events: seq<RunEvent>, fragments: seq<Fragment>, swallowed: bool)

  function TrailOf(c: Codec, attempts: seq<Attempt>): Trail {
    if attempts == [] then Trail([], [], false)
    else
      var i := |attempts| - 1;
      Extended(c, TrailOf(c, attempts[..i]), EventAt(attempts, i), attempts[i].crash)
  }

  const Fresh: Store := Store([], 0)

  lemma {:induction false} CountIsCompleted(c: Codec, attempts: seq<Attempt>)
    ensures AppendAll(c, Fresh, attempts).count == Completed(attempts)
  {
    if attempts != [] {
      CountIsCompleted(c, attempts[..|attempts| - 1]);
    }
  }

  /** Fragments are never empty. */
  ghost predicate FragmentsOk(c: Codec, fragments: seq<Fragment>) {
    forall i :: 0 <= i < |fragments| ==> Remains(c, fragments[i]) != []
  }

  lemma JoinedEmpty(c: Codec, fragments: seq<Fragment>)
    requires FragmentsOk(c, fragments)
    ensures Joined(c, fragments) == [] <==> fragments == []
  {}

  lemma JoinedEmptyList(c: Codec)
    ensures Joined(c, []) == []
  {}

  lemma {:induction false} JoinedPlain(c: Codec, fragments: seq<Fragment>)
    requires CodecOk(c)
    ensures '\n' !in Joined(c, fragments) && '\r' !in Joined(c, fragments)
  {
    if fragments != [] {
      JoinedPlain(c, fragments[..|fragments| - 1]);
      var f := fragments[|fragments| - 1];
      assert '\n' !in c.encode(f.event) && '\r' !in c.encode(f.event);
    }
  }

  /** A file that holds what a trail says. */
  ghost predicate Follows(c: Codec, file: Bytes, t: Trail) {
    && Split(file).1 == Joined(c, t.fragments) && FragmentsOk(c, t.fragments)
    && ParseAll(c, Split(file).0) == if t.swallowed then Reject else Accept(t.events)
  }

  function Extended(c: Codec, t: Trail, event: RunEvent, crash: Crash): Trail {
    if Whole(c, event, crash) then Trail(t.events + [event], [], t.swallowed || t.fragments != [])
    else if Partial(c, event, crash) then t.(fragments := t.fragments + [Fragment(event, crash.written)])
    else t
  }

  lemma LandedFollows(c: Codec, file: Bytes, t: Trail, event: RunEvent, crash: Crash)
    requires CodecOk(c) && Strict(c) && Follows(c, file, t)
    ensures Follows(c, file + Landed(c, event, crash), Extended(c, t, event, crash))
  {
    if Whole(c, event, crash) {
      WholeFollows(c, file, t, event, crash);
    } else {
      FragmentFollows(c, file, t, event, crash);
    }
  }

  lemma WholeFollows(c: Codec, file: Bytes, t: Trail, event: RunEvent, crash: Crash)
    requires CodecOk(c) && Strict(c) && Follows(c, file, t) && Whole(c, event, crash)
    ensures Follows(c, file + Landed(c, event, crash), Extended(c, t, event, crash))
  {
    JoinedEmptyList(c);
    JoinedEmpty(c, t.fragments);
    WholeLands(c, file, t.fragments, event, crash);
    hide CodecOk, Strict, Split, ParseAll, Joined, Landed, Remains;
  }

  lemma FragmentFollows(c: Codec, file: Bytes, t: Trail, event: RunEvent, crash: Crash)
    requires CodecOk(c) && Follows(c, file, t) && !Whole(c, event, crash)
    ensures Follows(c, file + Landed(c, event, crash), Extended(c, t, event, crash))
  {
    hide CodecOk, Split, ParseAll, Joined, Landed;
    FragmentLands(c, file, t.fragments, event, crash);
  }

  lemma LastEvent(attempts: seq<Attempt>, count: nat)
    requires attempts != [] && count == Completed(attempts[..|attempts| - 1])
    ensures EventAt(attempts, |attempts| - 1) == RunEvent(count + 1, attempts[|attempts| - 1].body)
  {}

  lemma TrailGrows(c: Codec, attempts: seq<Attempt>)
    requires attempts != []
    ensures var init, i := attempts[..|attempts| - 1], |attempts| - 1;
            TrailOf(c, attempts) == Extended(c, TrailOf(c, init), EventAt(attempts, i), attempts[i].crash)
  {
    hide Extended, EventAt;
  }

  /** What a file of interrupted appends holds: its unfinished rest, and what reading it from the start gives. */
  lemma {:induction false} FileFollowsTrail(c: Codec, attempts: seq<Attempt>)
    requires CodecOk(c) && Strict(c)
    ensures Follows(c, AppendAll(c, Fresh, attempts).file, TrailOf(c, attempts))
  {
    hide CodecOk, Strict, Landed, Extended, Completed, EventAt;
    if attempts == [] {
      NothingAppended(c);
      JoinedEmptyList(c);
    } else {
      hide Follows;
      var init, i := attempts[..|attempts| - 1], |attempts| - 1;
      FileFollowsTrail(c, init);
      CountIsCompleted(c, init);
      LastEvent(attempts, Completed(init));
      TrailGrows(c, attempts);
      hide TrailOf;
      LandedFollows(c, AppendAll(c, Fresh, init).file, TrailOf(c, init), EventAt(attempts, i), attempts[i].crash);
    }
  }

  /** A whole line takes the unfinished rest with it. */
  lemma WholeLands(c: Codec, file: Bytes, fragments: seq<Fragment>, event: RunEvent, crash: Crash)
    requires CodecOk(c) && (Strict(c) || fragments == []) && Whole(c, event, crash)
             && Split(file).1 == Joined(c, fragments)
    ensures Split(file + Landed(c, event, crash)) == (Split(file).0 + [Joined(c, fragments) + c.encode(event)], [])
    ensures ParseAll(c, Split(file + Landed(c, event, crash)).0) ==
            if ParseAll(c, Split(file).0).Reject? || Joined(c, fragments) != [] then Reject
            else Accept(ParseAll(c, Split(file).0).value + [event])
  {
    var code, rest := c.encode(event), Joined(c, fragments);
    assert c.parse(code) == Accept(Some(event)) && '\n' !in code && '\r' !in code;
    assert rest != [] ==> c.parse(rest + code).Reject?;
    assert file + Landed(c, event, crash) == (file + code) + ['\n'];
    JoinedPlain(c, fragments);
    SplitPlain('\n', file, code);
    SplitMark('\n', file + code);
    assert rest == [] ==> rest + code == code;
    hide CodecOk, Strict, Joined, SplitAt, ParseAll;
    ParseConcat(c, Split(file).0, [rest + code]);
    ParseOne(c, rest + code);
  }

  lemma ParseOne(c: Codec, line: Bytes)
    requires '\r' !in line
    ensures ParseAll(c, [line])
            == match c.parse(line) { case Reject => Reject case Accept(v) => Accept(if v.Some? then [v.value] else []) }
  {
    PlainLine(line);
    var one := [line];
    assert one[..|one| - 1] == [] && one[|one| - 1] == line;
    assert ParseEach(c, one[..|one| - 1]) == Accept([]);
    if c.parse(line).Accept? && c.parse(line).value.Some? {
      assert [] + [c.parse(line).value.value] == [c.parse(line).value.value];
    }
  }

  /** A part of a line lengthens the unfinished rest. */
  lemma FragmentLands(c: Codec, file: Bytes, fragments: seq<Fragment>, event: RunEvent, crash: Crash)
    requires CodecOk(c) && !Whole(c, event, crash) && Split(file).1 == Joined(c, fragments)
    ensures Split(file + Landed(c, event, crash)).0 == Split(file).0
    ensures Split(file + Landed(c, event, crash)).1 ==
            if Partial(c, event, crash) then Joined(c, fragments + [Fragment(event, crash.written)])
                else Joined(c, fragments)
  {
    var code := c.encode(event);
    var part := Landed(c, event, crash);
    assert '\n' !in code;
    assert part == code[..crash.written] == Remains(c, Fragment(event, crash.written));
    SplitPlain('\n', file, part);
    assert (fragments + [Fragment(event, crash.written)])[..|fragments|] == fragments;
  }

  // ----- When appends stay readable, and when they are numbered -----

  /** A fragment was left behind, and a later line landed after it. */
  ghost predicate TornThenWhole(c: Codec, attempts: seq<Attempt>) {
    exists i, j :: 0 <= i < j < |attempts| && PartialAt(c, attempts, i) && WholeAt(c, attempts, j)
  }

  /** A line landed without its status, and a later line landed after it. */
  ghost predicate LostThenWhole(c: Codec, attempts: seq<Attempt>) {
    exists i, j :: 0 <= i < j < |attempts| && LostAt(c, attempts, i) && WholeAt(c, attempts, j)
  }

  predicate LostAt(c: Codec, attempts: seq<Attempt>, i: nat)
    requires i < |attempts|
  {
    WholeAt(c, attempts, i) && attempts[i].crash != NoCrash
  }

  ghost predicate AnyLost(c: Codec, attempts: seq<Attempt>) {
    exists i :: 0 <= i < |attempts| && LostAt(c, attempts, i)
  }

  /** A fragment since the last whole line. */
  ghost predicate AnyLoose(c: Codec, attempts: seq<Attempt>) {
    exists i :: 0 <= i < |attempts| && LooseAt(c, attempts, i)
  }

  /** What earlier attempts write does not depend on later ones. */
  lemma SameEarlier(c: Codec, attempts: seq<Attempt>)
    requires attempts != []
    ensures var init := attempts[..|attempts| - 1];
            forall i :: 0 <= i < |init| ==>
              && EventAt(attempts, i) == EventAt(init, i) && WholeAt(c, attempts, i) == WholeAt(c, init, i)
              && PartialAt(c, attempts, i) == PartialAt(c, init, i) && LostAt(c, attempts, i) == LostAt(c, init, i)
  {
    var init := attempts[..|attempts| - 1];
    forall i | 0 <= i < |init| ensures EventAt(attempts, i) == EventAt(init, i) {
      assert attempts[..i] == init[..i];
    }
  }

  /** Attempt i left a fragment that no later line has taken. */
  ghost predicate LooseAt(c: Codec, attempts: seq<Attempt>, i: nat)
    requires i < |attempts|
  {
    PartialAt(c, attempts, i) && forall j :: i < j < |attempts| ==> !WholeAt(c, attempts, j)
  }

  lemma LooseSteps(c: Codec, attempts: seq<Attempt>)
    requires attempts != []
    ensures var init, n := attempts[..|attempts| - 1], |attempts| - 1;
            AnyLoose(c, attempts) <==> !WholeAt(c, attempts, n) && (AnyLoose(c, init) || PartialAt(c, attempts, n))
  {
    var init, n := attempts[..|attempts| - 1], |attempts| - 1;
    WholeNotPartial(c, attempts, n);
    forall i | 0 <= i < n ensures LooseAt(c, attempts, i) <==> LooseAt(c, init, i) && !WholeAt(c, attempts, n) {
      LooseEarlier(c, attempts, i);
    }
    hide WholeAt, PartialAt;
    assert LooseAt(c, attempts, n) == PartialAt(c, attempts, n);
    hide LooseAt;
  }

  lemma LooseEarlier(c: Codec, attempts: seq<Attempt>, i: nat)
    requires i < |attempts| - 1
    ensures var init, n := attempts[..|attempts| - 1], |attempts| - 1;
            LooseAt(c, attempts, i) <==> LooseAt(c, init, i) && !WholeAt(c, attempts, n)
  {
    SameEarlier(c, attempts);
    hide WholeAt, PartialAt, EventAt;
    var init := attempts[..|attempts| - 1];
    assert forall j :: i < j < |init| ==> WholeAt(c, attempts, j) == WholeAt(c, init, j);
  }

  lemma WholeNotPartial(c: Codec, attempts: seq<Attempt>, i: nat)
    requires i < |attempts|
    ensures !(WholeAt(c, attempts, i) && PartialAt(c, attempts, i))
  {}

  lemma TornSteps(c: Codec, attempts: seq<Attempt>)
    requires attempts != []
    ensures var init, n := attempts[..|attempts| - 1], |attempts| - 1;
            TornThenWhole(c, attempts) <==> TornThenWhole(c, init) || (WholeAt(c, attempts, n) && AnyLoose(c, init))
  {
    var init, n := attempts[..|attempts| - 1], |attempts| - 1;
    hide WholeAt, PartialAt, TornThenWhole, AnyLoose;
    if TornThenWhole(c, attempts) {
      TornEarlier(c, attempts);
    }
    if TornThenWhole(c, init) {
      TornStays(c, attempts);
    }
    if WholeAt(c, attempts, n) && AnyLoose(c, init) {
      LooseTaken(c, attempts);
    }
  }

  lemma TornEarlier(c: Codec, attempts: seq<Attempt>)
    requires attempts != [] && TornThenWhole(c, attempts)
    ensures var init, n := attempts[..|attempts| - 1], |attempts| - 1;
            TornThenWhole(c, init) || (WholeAt(c, attempts, n) && AnyLoose(c, init))
  {
    var init, n := attempts[..|attempts| - 1], |attempts| - 1;
    SameEarlier(c, attempts);
    hide WholeAt, PartialAt, EventAt, LostAt;
    var i, j :| 0 <= i < j < |attempts| && PartialAt(c, attempts, i) && WholeAt(c, attempts, j);
    assert PartialAt(c, init, i);
    if j < n {
      assert WholeAt(c, init, j);
    } else if !LooseAt(c, init, i) {
      var k :| i < k < |init| && WholeAt(c, init, k);
    }
  }

  lemma TornStays(c: Codec, attempts: seq<Attempt>)
    requires attempts != [] && TornThenWhole(c, attempts[..|attempts| - 1])
    ensures TornThenWhole(c, attempts)
  {
    var init := attempts[..|attempts| - 1];
    SameEarlier(c, attempts);
    hide WholeAt, PartialAt, EventAt, LostAt;
    var i, j :| 0 <= i < j < |init| && PartialAt(c, init, i) && WholeAt(c, init, j);
    assert PartialAt(c, attempts, i) && WholeAt(c, attempts, j);
  }

  lemma LooseTaken(c: Codec, attempts: seq<Attempt>)
    requires attempts != [] && AnyLoose(c, attempts[..|attempts| - 1]) && WholeAt(c, attempts, |attempts| - 1)
    ensures TornThenWhole(c, attempts)
  {
    var init := attempts[..|attempts| - 1];
    SameEarlier(c, attempts);
    hide WholeAt, PartialAt, EventAt, LostAt;
    var i :| 0 <= i < |init| && LooseAt(c, init, i);
    assert PartialAt(c, attempts, i);
  }

  lemma {:induction false} SwallowedExactly(c: Codec, attempts: seq<Attempt>)
    ensures TrailOf(c, attempts).swallowed <==> TornThenWhole(c, attempts)
    ensures TrailOf(c, attempts).fragments != [] <==> AnyLoose(c, attempts)
  {
    if attempts != [] {
      SwallowedExactly(c, attempts[..|attempts| - 1]);
      LooseSteps(c, attempts);
      TornSteps(c, attempts);
      WholeNotPartial(c, attempts, |attempts| - 1);
      hide TornThenWhole, AnyLoose, EventAt, Whole, Partial;
    }
  }

  lemma LostSteps(c: Codec, attempts: seq<Attempt>)
    requires attempts != []
    ensures var init, n := attempts[..|attempts| - 1], |attempts| - 1;
            LostThenWhole(c, attempts) <==> LostThenWhole(c, init) || (WholeAt(c, attempts, n) && AnyLost(c, init))
  {
    var init, n := attempts[..|attempts| - 1], |attempts| - 1;
    SameEarlier(c, attempts);
    hide WholeAt, PartialAt, LostAt, EventAt;
    if LostThenWhole(c, attempts) {
      var i, j :| 0 <= i < j < |attempts| && LostAt(c, attempts, i) && WholeAt(c, attempts, j);
      assert LostAt(c, init, i);
      if j < n {
        assert WholeAt(c, init, j);
      }
    }
    if LostThenWhole(c, init) {
      var i, j :| 0 <= i < j < |init| && LostAt(c, init, i) && WholeAt(c, init, j);
      assert LostAt(c, attempts, i) && WholeAt(c, attempts, j);
    }
    if WholeAt(c, attempts, n) && AnyLost(c, init) {
      var i :| 0 <= i < |init| && LostAt(c, init, i);
      assert LostAt(c, attempts, i);
    }
  }

  lemma AnyLostSteps(c: Codec, attempts: seq<Attempt>)
    requires attempts != []
    ensures AnyLost(c, attempts) <==> AnyLost(c, attempts[..|attempts| - 1]) || LostAt(c, attempts, |attempts| - 1)
  {
    var init, n := attempts[..|attempts| - 1], |attempts| - 1;
    SameEarlier(c, attempts);
    hide WholeAt, PartialAt, LostAt, EventAt;
    if AnyLost(c, init) {
      var i :| 0 <= i < |init| && LostAt(c, init, i);
      assert LostAt(c, attempts, i);
    }
    if AnyLost(c, attempts) && !LostAt(c, attempts, n) {
      var i :| 0 <= i < |attempts| && LostAt(c, attempts, i);
      assert LostAt(c, init, i);
    }
  }

  ghost predicate NumberedFromOne(events: seq<RunEvent>) {
    forall k :: 0 <= k < |events| ==> events[k].sequence == k + 1
  }

  lemma {:induction false} NumberedExactly(c: Codec, attempts: seq<Attempt>)
    ensures NumberedFromOne(TrailOf(c, attempts).events) <==> !LostThenWhole(c, attempts)
    ensures !LostThenWhole(c, attempts) ==>
              |TrailOf(c, attempts).events| == Completed(attempts) + if AnyLost(c, attempts) then 1 else 0
  {
    if attempts != [] {
      var init, n := attempts[..|attempts| - 1], |attempts| - 1;
      NumberedExactly(c, init);
      LostSteps(c, attempts);
      AnyLostSteps(c, attempts);
      hide LostThenWhole, AnyLost;
      var before := TrailOf(c, init).events;
      if WholeAt(c, attempts, n) {
        NumberedNext(before, EventAt(attempts, n));
      }
      hide NumberedFromOne;
    }
  }

  lemma NumberedNext(events: seq<RunEvent>, event: RunEvent)
    ensures NumberedFromOne(events + [event]) <==> NumberedFromOne(events) && event.sequence == |events| + 1
  {
    var more := events + [event];
    if NumberedFromOne(more) {
      forall k | 0 <= k < |events| ensures events[k].sequence == k + 1 {
        assert more[k] == events[k];
      }
      assert more[|events|] == event;
    }
  }

  /**
   Whatever crashes interrupt the appends of a run, its file reads back exactly when no line landed after an unfinished
   fragment, and is then numbered from one exactly when no line landed after one that had lost its status.
   */
  lemma AppendsReadBackExactly(c: Codec, attempts: seq<Attempt>)
    requires CodecOk(c) && Strict(c)
    ensures var read := ReadSince(c, AppendAll(c, Fresh, attempts).file, 0);
            && (read.Accept? <==> !TornThenWhole(c, attempts))
            && (read.Accept? ==> read.value.0 == TrailOf(c, attempts).events)
            && (read.Accept? && NumberedFromOne(read.value.0)
                <==> !TornThenWhole(c, attempts) && !LostThenWhole(c, attempts))
  {
    FileFollowsTrail(c, attempts);
    SwallowedExactly(c, attempts);
    NumberedExactly(c, attempts);
    var file := AppendAll(c, Fresh, attempts).file;
    assert file[0..] == file;
    hide CodecOk, Strict, TornThenWhole, LostThenWhole, NumberedFromOne, ParseAll, Split, Joined, TrailOf;
  }

  // ----- Single interruptions, on any store -----

  /** An append that loses its status and the next one write the same number. */
  lemma LostStatusRepeatsNumber(c: Codec, s: Store, lost: string, next: string, events: seq<RunEvent>)
    requires CodecOk(c) && Split(s.file).1 == [] && ParseAll(c, Split(s.file).0) == Accept(events)
    ensures var after := AppendOne(c, AppendOne(c, s, Attempt(lost, StatusLost)), Attempt(next, NoCrash));
            exists number ::
                ParseAll(c, Split(after.file).0) == Accept(events + [RunEvent(number, lost), RunEvent(number, next)])
  {
    hide CodecOk, Split, ParseAll, Landed, Joined;
    JoinedEmptyList(c);
    var between := AppendOne(c, s, Attempt(lost, StatusLost));
    var one, two := RunEvent(s.count + 1, lost), RunEvent(between.count + 1, next);
    WholeLands(c, s.file, [], one, StatusLost);
    WholeLands(c, between.file, [], two, NoCrash);
    assert (events + [one]) + [two] == events + [RunEvent(s.count + 1, lost), RunEvent(s.count + 1, next)];
  }

  /** A torn write and the append after it stop every reader that starts at a record boundary before them. */
  lemma TornThenAppendBlocks(c: Codec, s: Store, torn: string, written: nat, next: string, offset: nat)
    requires CodecOk(c) && Strict(c) && Split(s.file).1 == [] && Boundary(s.file, offset)
    requires Partial(c, RunEvent(s.count + 1, torn), Torn(written))
    ensures ReadSince(c, AppendOne(c, AppendOne(c, s, Attempt(torn, Torn(written))), Attempt(next, NoCrash)).file,
                      offset).Reject?
  {
    var part := Landed(c, RunEvent(s.count + 1, torn), Torn(written));
    var line := Landed(c, RunEvent(s.count + 1, next), NoCrash);
    RestOfRest(c, s.file, offset);
    TornThenWholeRejects(c, s.file[offset..], RunEvent(s.count + 1, torn), Torn(written), RunEvent(s.count + 1, next));
    hide CodecOk, Strict, ParseAll, Split, Joined, Landed, Boundary;
    assert ((s.file + part) + line)[offset..] == (s.file[offset..] + part) + line;
  }

  lemma TornThenWholeRejects(c: Codec, payload: Bytes, torn: RunEvent, crash: Crash, next: RunEvent)
    requires CodecOk(c) && Strict(c) && Split(payload).1 == [] && Partial(c, torn, crash)
    ensures ParseAll(c, Split((payload + Landed(c, torn, crash)) + Landed(c, next, NoCrash)).0).Reject?
  {
    JoinedEmptyList(c);
    var parsed := ParseAll(c, Split(payload).0);
    var t := Trail(if parsed.Accept? then parsed.value else [], [], parsed.Reject?);
    hide CodecOk, Strict, ParseAll, Split, Joined, Landed;
    LandedFollows(c, payload, t, torn, crash);
    LandedFollows(c, payload + Landed(c, torn, crash), Extended(c, t, torn, crash), next, NoCrash);
  }

  lemma RestOfRest(c: Codec, file: Bytes, offset: nat)
    requires Split(file).1 == [] && Boundary(file, offset)
    ensures Split(file[offset..]).1 == [] == Joined(c, [])
  {
    BoundaryNoRest(file, offset);
    assert file == file[..offset] + file[offset..];
    SplitConcat(file[..offset], file[offset..]);
  }

  // ----- Uninterrupted appends -----

  function Uninterrupted(bodies: seq<string>): seq<Attempt> {
    seq(|bodies|, i requires 0 <= i < |bodies| => Attempt(bodies[i], NoCrash))
  }

  function Numbered(bodies: seq<string>): seq<RunEvent> {
    seq(|bodies|, i requires 0 <= i < |bodies| => RunEvent(i + 1, bodies[i]))
  }

  lemma AppendReadBack(c: Codec, s: Store, events: seq<RunEvent>, body: string)
    requires CodecOk(c) && Split(s.file).1 == [] && ParseAll(c, Split(s.file).0) == Accept(events)
    ensures var after := AppendOne(c, s, Attempt(body, NoCrash));
            && after.count == s.count + 1 && Split(after.file).1 == []
            && ParseAll(c, Split(after.file).0) == Accept(events + [RunEvent(s.count + 1, body)])
  {
    hide CodecOk, Split, ParseAll, Landed, Joined;
    JoinedEmptyList(c);
    WholeLands(c, s.file, [], RunEvent(s.count + 1, body), NoCrash);
  }

  lemma NothingAppended(c: Codec)
    ensures Split([]) == ([], []) && ParseAll(c, []) == Accept([])
  {
    assert SubLinesOf([]) == [];
  }

  /** Reading everything back gives every event, in order, numbered from one. */
  lemma {:induction false} AppendsReadBack(c: Codec, bodies: seq<string>)
    requires CodecOk(c)
    ensures var after := AppendAll(c, Fresh, Uninterrupted(bodies));
            && after.count == |bodies| && Split(after.file).1 == []
            && ParseAll(c, Split(after.file).0) == Accept(Numbered(bodies))
  {
    hide CodecOk, Split, ParseAll, AppendOne;
    if bodies == [] {
      NothingAppended(c);
      assert Uninterrupted(bodies) == [] && Numbered(bodies) == [];
    } else {
      var init, body := bodies[..|bodies| - 1], bodies[|bodies| - 1];
      AppendsReadBack(c, init);
      assert Uninterrupted(bodies)[..|bodies| - 1] == Uninterrupted(init);
      AppendReadBack(c, AppendAll(c, Fresh, Uninterrupted(init)), Numbered(init), body);
      assert Numbered(bodies) == Numbered(init) + [RunEvent(|bodies|, body)];
    }
  }
}
