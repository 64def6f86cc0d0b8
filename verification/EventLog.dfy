/** The append-only event stream and its byte-cursor reads
    (MEIZEX_ROUTER_WORKER/src/meizex_mrw/events/store.py). Decoding one line (JSON, session
    filter, event class) is an arbitrary function of the stripped line. */
module EventLog {
  import opened Common
  import opened Ordering

  type Byte = b: int | 0 <= b < 256

  const NEWLINE: Byte := 10

  /** What one non-blank line decodes to: an event, nothing of interest, or a decoding error. */
  datatype Line<+E> = Ignored | Parsed(event: E) | Malformed

  datatype ReadError = MalformedLine

  predicate IsSpace(b: Byte) { b == 32 || 9 <= b <= 13 }

  function StripLeft(s: seq<Byte>): seq<Byte> { if s != [] && IsSpace(s[0]) then StripLeft(s[1..]) else s }

  function StripRight(s: seq<Byte>): seq<Byte> {
    if s != [] && IsSpace(s[|s| - 1]) then StripRight(s[..|s| - 1]) else s
  }

  function Strip(s: seq<Byte>): seq<Byte> { StripRight(StripLeft(s)) }

  /** ASCII white space: tab to carriage return, and the blank. */
  ghost predicate White(s: seq<Byte>) { forall i :: 0 <= i < |s| ==> s[i] == 32 || 9 <= s[i] <= 13 }

  ghost predicate Bare(s: seq<Byte>) {
    s != [] ==> s[0] != 32 && !(9 <= s[0] <= 13) && s[|s| - 1] != 32 && !(9 <= s[|s| - 1] <= 13)
  }

  lemma {:induction false} StripLeftExactly(s: seq<Byte>) returns (k: nat)
    ensures k <= |s| && White(s[..k]) && StripLeft(s) == s[k..]
    ensures k < |s| ==> !IsSpace(s[k])
  {
    k := 0;
    if s != [] && IsSpace(s[0]) {
      k := StripLeftExactly(s[1..]);
      assert s[..k + 1] == [s[0]] + s[1..][..k];
      assert s[1..][k..] == s[k + 1..];
      k := k + 1;
    }
  }

  lemma {:induction false} StripRightExactly(s: seq<Byte>) returns (k: nat)
    ensures k <= |s| && White(s[k..]) && StripRight(s) == s[..k]
    ensures k > 0 ==> !IsSpace(s[k - 1])
  {
    k := |s|;
    if s != [] && IsSpace(s[|s| - 1]) {
      var front := s[..|s| - 1];
      k := StripRightExactly(front);
      assert front[..k] == s[..k];
      assert s[k..] == front[k..] + [s[|s| - 1]];
    }
  }

  /** What is stripped is exactly the white space around the rest. */
  lemma StripExactly(s: seq<Byte>) returns (i: nat, j: nat)
    ensures i <= j <= |s| && Strip(s) == s[i..j]
    ensures White(s[..i]) && White(s[j..]) && Bare(s[i..j])
  {
    hide White;
    i := StripLeftExactly(s);
    var k := StripRightExactly(s[i..]);
    j := i + k;
    assert s[i..][..k] == s[i..j] && s[i..][k..] == s[j..];
    if k > 0 {
      assert s[i..][k - 1] == s[j - 1];
    }
  }

  /** The position of the first newline, or the length. */
  function FirstNewline(s: seq<Byte>): (n: nat)
    ensures n <= |s| && NEWLINE !in s[..n] && (n < |s| ==> s[n] == NEWLINE)
  {
    if s == [] || s[0] == NEWLINE then 0 else 1 + FirstNewline(s[1..])
  }

  /** `s.split(b"\n")`. */
  function Split(s: seq<Byte>): (pieces: seq<seq<Byte>>)
    ensures pieces != []
    decreases |s|
  {
    var n := FirstNewline(s);
    if n == |s| then [s] else [s[..n]] + Split(s[n + 1..])
  }

  /** The longest prefix that ends in a newline. */
  function CompletePrefix(s: seq<Byte>): (p: seq<Byte>)
    ensures p <= s && Complete(p) && NEWLINE !in s[|p|..]
  {
    if s == [] then []
    else if s[|s| - 1] == NEWLINE then s
    else
      var p := CompletePrefix(s[..|s| - 1]);
      assert s[|p|..] == s[|p|..|s| - 1] + [s[|s| - 1]];
      assert s[..|s| - 1][|p|..] == s[|p|..|s| - 1];
      p
  }

  /** Only whole lines. */
  predicate Complete(s: seq<Byte>) { s == [] || s[|s| - 1] == NEWLINE }

  function DecodeLine<E>(raw: seq<Byte>, decode: seq<Byte> -> Line<E>): Line<E> {
    if Strip(raw) == [] then Ignored else decode(Strip(raw))
  }

  function DecodeAll<E>(pieces: seq<seq<Byte>>, decode: seq<Byte> -> Line<E>): Result<seq<E>, ReadError> {
    if pieces == [] then Ok([])
    else
      var front := DecodeAll(pieces[..|pieces| - 1], decode);
      if front.Err? then front
      else
        match DecodeLine(pieces[|pieces| - 1], decode)
        case Ignored => front
        case Parsed(e) => Ok(front.value + [e])
        case Malformed => Err(MalformedLine)
  }

  /** The events of a stretch of whole lines. */
  function Events<E>(s: seq<Byte>, decode: seq<Byte> -> Line<E>): Result<seq<E>, ReadError> { DecodeAll(Split(s), decode) }

  // ---------------------------------------------------------------- one read

  /** `read_from`: the events of the complete lines after `offset`, and where the next read starts. */
  function Read<E>(file: seq<Byte>, offset: nat, decode: seq<Byte> -> Line<E>): Result<(seq<E>, nat), ReadError> {
    if offset >= |file| then Ok(([], offset))
    else
      var complete := CompletePrefix(file[offset..]);
      var events := Events(complete, decode);
      if events.Err? then Err(MalformedLine) else Ok((events.value, offset + |complete|))
  }

  class EventStore<E> {
    var present: bool
    var file: seq<Byte>
    const decode: seq<Byte> -> Line<E>
    const encode: E -> seq<Byte>

    constructor (decode: seq<Byte> -> Line<E>, encode: E -> seq<Byte>)
      ensures !present && file == [] && this.decode == decode && this.encode == encode
    {
      this.decode, this.encode := decode, encode;
      present, file := false, [];
    }

    /** Opening in append mode creates the file; earlier bytes are never rewritten. */
    method Append(event: E)
      modifies this
      ensures present && file == old(file) + encode(event) + [NEWLINE]
    {
      present := true;
      file := file + (encode(event) + [NEWLINE]);
    }

    method ReadFrom(offset: nat) returns (r: Result<(seq<E>, nat), ReadError>)
      requires !present ==> file == []
      ensures r == Read(file, offset, decode)
    {
      hide Split, DecodeAll, CompletePrefix, Complete;
      if !present {
        return Ok(([], offset));
      }
      var chunk := if offset <= |file| then file[offset..] else [];
      if chunk == [] {
        return Ok(([], offset));
      }
      var complete := WholeLines(chunk);
      if complete == [] {
        BlankPiece(decode);
        return Ok(([], offset));
      }
      var events := DecodePieces(Split(complete));
      if events.Err? {
        return Err(MalformedLine);
      }
      r := Ok((events.value, offset + |complete|));
    }

    /** Cuts a chunk behind its last newline. */
    static method WholeLines(chunk: seq<Byte>) returns (complete: seq<Byte>)
      ensures complete == CompletePrefix(chunk)
    {
      var last := |chunk|;
      assert chunk[..last] == chunk;
      while last > 0 && chunk[last - 1] != NEWLINE
        invariant 0 <= last <= |chunk|
        invariant CompletePrefix(chunk[..last]) == CompletePrefix(chunk)
      {
        assert chunk[..last][..last - 1] == chunk[..last - 1];
        last := last - 1;
      }
      complete := chunk[..last];
    }

    method DecodePieces(pieces: seq<seq<Byte>>) returns (r: Result<seq<E>, ReadError>)
      ensures r == DecodeAll(pieces, decode)
    {
      var events: seq<E> := [];
      var i := 0;
      while i < |pieces|
        invariant 0 <= i <= |pieces|
        invariant DecodeAll(pieces[..i], decode) == Ok(events)
      {
        assert pieces[..i + 1][..i] == pieces[..i];
        var line := DecodeLine(pieces[i], decode);
        if line.Malformed? {
          MalformedSticks(pieces, i + 1, decode);
          return Err(MalformedLine);
        }
        if line.Parsed? {
          events := events + [line.event];
        }
        i := i + 1;
      }
      assert pieces[..i] == pieces;
      r := Ok(events);
    }
  }

  lemma BlankPiece<E>(decode: seq<Byte> -> Line<E>)
    ensures Events([], decode) == Ok([])
  {
    var pieces := Split([]);
    assert pieces == [[]] && pieces[..0] == [];
  }

  lemma {:induction false} MalformedSticks<E>(pieces: seq<seq<Byte>>, n: nat, decode: seq<Byte> -> Line<E>)
    requires n <= |pieces| && DecodeAll(pieces[..n], decode) == Err(MalformedLine)
    ensures DecodeAll(pieces, decode) == Err(MalformedLine)
  {
    if n == |pieces| {
      assert pieces[..n] == pieces;
    } else {
      assert pieces[..|pieces| - 1][..n] == pieces[..n];
      MalformedSticks(pieces[..|pieces| - 1], n, decode);
    }
  }

  // ---------------------------------------------------------------- splitting at line boundaries

  lemma {:induction false} FirstNewlineUnique(s: seq<Byte>, n: nat)
    requires n < |s| && s[n] == NEWLINE && forall i :: 0 <= i < n ==> s[i] != NEWLINE
    ensures FirstNewline(s) == n
  {
    if n > 0 {
      FirstNewlineUnique(s[1..], n - 1);
    }
  }

  lemma FirstNewlineFacts(s: seq<Byte>)
    ensures forall i :: 0 <= i < FirstNewline(s) ==> s[i] != NEWLINE
  {
    var n := FirstNewline(s);
    forall i | 0 <= i < n ensures s[i] != NEWLINE { assert s[i] == s[..n][i]; }
  }

  lemma SplitHead(a: seq<Byte>, b: seq<Byte>)
    requires a != [] && Complete(a)
    ensures var n := FirstNewline(a);
            && n < |a|
            && Split(a) == [a[..n]] + Split(a[n + 1..])
            && Split(a + b) == [a[..n]] + Split(a[n + 1..] + b)
            && Complete(a[n + 1..])
  {
    HeadEnds(a);
    FirstOfMore(a, b);
    hide FirstNewline, Complete;
    var n := FirstNewline(a);
    SplitAt(a, n);
    SplitAt(a + b, n);
    CutMore(a, b, n);
    hide Split;
  }

  lemma FirstOfMore(a: seq<Byte>, b: seq<Byte>)
    requires FirstNewline(a) < |a|
    ensures FirstNewline(a + b) == FirstNewline(a)
  {
    var n := FirstNewline(a);
    FirstNewlineFacts(a);
    hide FirstNewline;
    forall i | 0 <= i < n ensures (a + b)[i] != NEWLINE { assert (a + b)[i] == a[i]; }
    FirstNewlineUnique(a + b, n);
  }

  lemma CutMore(a: seq<Byte>, b: seq<Byte>, n: nat)
    requires n < |a|
    ensures (a + b)[n + 1..] == a[n + 1..] + b && (a + b)[..n] == a[..n]
  {
  }

  lemma HeadEnds(a: seq<Byte>)
    requires a != [] && Complete(a)
    ensures FirstNewline(a) < |a| && Complete(a[FirstNewline(a) + 1..])
  {
    FirstNewlineFacts(a);
    hide FirstNewline;
  }

  lemma SplitAt(s: seq<Byte>, n: nat)
    requires n < |s| && FirstNewline(s) == n
    ensures Split(s) == [s[..n]] + Split(s[n + 1..])
  {
    hide FirstNewline;
  }

  /** Splitting after whole lines: the blank piece behind the last newline is where `b` goes on. */
  lemma {:induction false} SplitConcat(a: seq<Byte>, b: seq<Byte>)
    requires Complete(a)
    ensures Split(a)[|Split(a)| - 1] == []
    ensures Split(a + b) == Split(a)[..|Split(a)| - 1] + Split(b)
    decreases |a|
  {
    if a == [] {
      assert Split(a) == [[]];
      assert a + b == b && [[]][..0] + Split(b) == Split(b);
    } else {
      hide Split, FirstNewline, Complete;
      SplitHead(a, b);
      var n := FirstNewline(a);
      SplitConcat(a[n + 1..], b);
      ConsConcat(a[..n], Split(a[n + 1..]), Split(b), Split(a[n + 1..] + b), Split(a), Split(a + b));
    }
  }

  lemma ConsConcat(head: seq<Byte>, xs: seq<seq<Byte>>, ys: seq<seq<Byte>>, all: seq<seq<Byte>>,
                   more: seq<seq<Byte>>, whole: seq<seq<Byte>>)
    requires xs != [] && xs[|xs| - 1] == [] && all == xs[..|xs| - 1] + ys
    requires more == [head] + xs && whole == [head] + all
    ensures more[|more| - 1] == [] && whole == more[..|more| - 1] + ys
  {
    assert more[..|xs|] == [head] + xs[..|xs| - 1];
  }

  function Join<E>(a: Result<seq<E>, ReadError>, b: Result<seq<E>, ReadError>): Result<seq<E>, ReadError> {
    if a.Err? then a else if b.Err? then b else Ok(a.value + b.value)
  }

  lemma {:induction false} DecodeConcat<E>(a: seq<seq<Byte>>, b: seq<seq<Byte>>, decode: seq<Byte> -> Line<E>)
    ensures DecodeAll(a + b, decode) == Join(DecodeAll(a, decode), DecodeAll(b, decode))
  {
    if b == [] {
      assert a + b == a;
      var da := DecodeAll(a, decode);
      assert da.Ok? ==> da.value + [] == da.value;
    } else {
      var front := b[..|b| - 1];
      assert (a + b)[..|a + b| - 1] == a + front;
      DecodeConcat(a, front, decode);
      var da, db := DecodeAll(a, decode), DecodeAll(front, decode);
      var line := DecodeLine(b[|b| - 1], decode);
      if da.Ok? && db.Ok? && line.Parsed? {
        assert da.value + (db.value + [line.event]) == da.value + db.value + [line.event];
      }
    }
  }

  /** The events of whole lines followed by more whole lines are the events of each, in order. */
  lemma EventsConcat<E>(a: seq<Byte>, b: seq<Byte>, decode: seq<Byte> -> Line<E>)
    requires Complete(a)
    ensures Events(a + b, decode) == Join(Events(a, decode), Events(b, decode))
  {
    SplitConcat(a, b);
    var pa := Split(a);
    var heads := pa[..|pa| - 1];
    DecodeConcat(heads, Split(b), decode);
    assert DecodeLine(pa[|pa| - 1], decode) == Ignored;
    assert Events(a, decode) == DecodeAll(heads, decode);
  }

  // ---------------------------------------------------------------- interleaved writes and reads

  /** A write appends any bytes, a half-written line included; a read resumes at the cursor the
      previous read returned. */
  datatype Action = Write(bytes: seq<Byte>) | ReadNext

  datatype Reader<+E> = Reader(file: seq<Byte>, cursor: nat, delivered: seq<E>, failed: bool)

  function Act<E>(s: Reader<E>, a: Action, decode: seq<Byte> -> Line<E>): Reader<E> {
    match a
    case Write(bytes) => s.(file := s.file + bytes)
    case ReadNext =>
      // A decoding error leaves the caller with the offset it had.
      match Read(s.file, s.cursor, decode)
      case Ok((events, next)) => s.(cursor := next, delivered := s.delivered + events)
      case Err(_) => s.(failed := true)
  }

  function Run<E>(s: Reader<E>, actions: seq<Action>, decode: seq<Byte> -> Line<E>): Reader<E> {
    if actions == [] then s else Act(Run(s, actions[..|actions| - 1], decode), actions[|actions| - 1], decode)
  }

  ghost predicate OnBoundary(file: seq<Byte>, offset: nat) {
    offset <= |file| && Complete(file[..offset])
  }

  ghost predicate ReaderOk<E>(s: Reader<E>, decode: seq<Byte> -> Line<E>) {
    OnBoundary(s.file, s.cursor) && Events(s.file[..s.cursor], decode) == Ok(s.delivered)
  }

  lemma {:induction false} CompletePrefixUnique(s: seq<Byte>, n: nat)
    requires n <= |s| && Complete(s[..n]) && forall i :: n <= i < |s| ==> s[i] != NEWLINE
    ensures CompletePrefix(s) == s[..n]
  {
    if n < |s| {
      assert s[..|s| - 1][..n] == s[..n];
      CompletePrefixUnique(s[..|s| - 1], n);
    } else {
      assert s[..n] == s;
    }
  }

  lemma PrefixAfterBoundary(file: seq<Byte>, offset: nat)
    requires OnBoundary(file, offset)
    ensures CompletePrefix(file) == file[..offset] + CompletePrefix(file[offset..])
  {
    var tail := file[offset..];
    var p := CompletePrefix(tail);
    var n := offset + |p|;
    assert file[..n] == file[..offset] + p;
    forall i | n <= i < |file| ensures file[i] != NEWLINE {
      assert file[i] == tail[|p|..][i - n];
    }
    CompletePrefixUnique(file, n);
  }

  /** One read from a line boundary completes what was delivered up to there. */
  lemma ReadFromBoundary<E>(file: seq<Byte>, offset: nat, delivered: seq<E>, decode: seq<Byte> -> Line<E>)
    requires OnBoundary(file, offset) && Events(file[..offset], decode) == Ok(delivered)
    ensures match Read(file, offset, decode)
            case Ok((events, next)) => next == |CompletePrefix(file)| && Events(CompletePrefix(file), decode) == Ok(delivered + events)
            case Err(_) => Events(CompletePrefix(file), decode).Err?
  {
    var head, rest := file[..offset], file[offset..];
    var tail := CompletePrefix(rest);
    PrefixAfterBoundary(file, offset);
    EventsConcat(head, tail, decode);
    if offset == |file| {
      assert tail == [] && head + [] == head;
      assert delivered + [] == delivered;
    }
    hide Events, CompletePrefix;
  }

  lemma ReadKeepsOk<E>(s: Reader<E>, decode: seq<Byte> -> Line<E>)
    requires ReaderOk(s, decode)
    ensures ReaderOk(Act(s, ReadNext, decode), decode)
    ensures var t := Act(s, ReadNext, decode);
            if Events(CompletePrefix(s.file), decode).Err? then t == s.(failed := true)
            else t.failed == s.failed && t.cursor == |CompletePrefix(s.file)|
                 && Events(CompletePrefix(s.file), decode) == Ok(t.delivered)
  {
    ReadFromBoundary(s.file, s.cursor, s.delivered, decode);
    var p := CompletePrefix(s.file);
    assert s.file[..|p|] == p;
    hide Events, CompletePrefix, Read;
  }

  lemma {:induction false} RunKeepsOk<E>(s: Reader<E>, actions: seq<Action>, decode: seq<Byte> -> Line<E>)
    requires ReaderOk(s, decode)
    ensures ReaderOk(Run(s, actions, decode), decode)
  {
    if actions != [] {
      var before := Run(s, actions[..|actions| - 1], decode);
      RunKeepsOk(s, actions[..|actions| - 1], decode);
      match actions[|actions| - 1] {
        case Write(bytes) => assert (before.file + bytes)[..before.cursor] == before.file[..before.cursor];
        case ReadNext => ReadKeepsOk(before, decode);
      }
    }
  }

  /** Whatever way writes (also of half lines) and reads interleave, every offset handed out lies on
      a line boundary and everything delivered so far is exactly the events of the lines before it;
      one more read delivers exactly the complete-line prefix of the file, nothing lost, repeated or
      reordered, unless that prefix holds a line that cannot be decoded. */
  lemma CursorReadsAreFaithful<E>(actions: seq<Action>, decode: seq<Byte> -> Line<E>)
    ensures var s := Run(Reader([], 0, [], false), actions, decode);
            OnBoundary(s.file, s.cursor) && Events(s.file[..s.cursor], decode) == Ok(s.delivered)
    ensures var s := Run(Reader([], 0, [], false), actions + [ReadNext], decode);
            var whole := Events(CompletePrefix(s.file), decode);
            if whole.Ok? then s.delivered == whole.value && s.cursor == |CompletePrefix(s.file)| else s.failed
  {
    var s0: Reader<E> := Reader([], 0, [], false);
    BlankPiece(decode);
    assert s0.file[..0] == [];
    RunKeepsOk(s0, actions, decode);
    ReadKeepsOk(Run(s0, actions, decode), decode);
    assert (actions + [ReadNext])[..|actions|] == actions;
  }

  // ---------------------------------------------------------------- round trip

  function Written<E>(events: seq<E>, encode: E -> seq<Byte>): seq<Byte> {
    if events == [] then [] else Written(events[..|events| - 1], encode) + encode(events[|events| - 1]) + [NEWLINE]
  }

  /** An event is written as one non-blank line. What reading that line back gives is left open:
      `append` redacts credentials before it serialises, so it need not be the event. */
  ghost predicate OneLineEach<E(!new)>(encode: E -> seq<Byte>) {
    forall e: E :: NEWLINE !in encode(e) && Strip(encode(e)) != []
  }

  function ReadBack<E>(e: E, encode: E -> seq<Byte>, decode: seq<Byte> -> Line<E>): Line<E> { decode(Strip(encode(e))) }

  /** Each event as its own line reads back. */
  function ReadBacks<E>(events: seq<E>, encode: E -> seq<Byte>, decode: seq<Byte> -> Line<E>): Result<seq<E>, ReadError> {
    if events == [] then Ok([])
    else
      var before := ReadBacks(events[..|events| - 1], encode, decode);
      if before.Err? then before
      else
        match ReadBack(events[|events| - 1], encode, decode)
        case Ignored => before
        case Parsed(x) => Ok(before.value + [x])
        case Malformed => Err(MalformedLine)
  }

  lemma {:induction false} WrittenEvents<E(!new)>(events: seq<E>, encode: E -> seq<Byte>, decode: seq<Byte> -> Line<E>)
    requires OneLineEach(encode)
    ensures Complete(Written(events, encode))
    ensures Events(Written(events, encode), decode) == ReadBacks(events, encode, decode)
  {
    if events == [] {
      BlankPiece(decode);
    } else {
      hide Split, DecodeAll, Events;
      var front, e := events[..|events| - 1], events[|events| - 1];
      WrittenEvents(front, encode, decode);
      var line := encode(e) + [NEWLINE];
      assert Written(events, encode) == Written(front, encode) + line;
      EventsConcat(Written(front, encode), line, decode);
      OneLine(e, encode, decode);
      var before := ReadBacks(front, encode, decode);
      assert before.Ok? ==> before.value + [] == before.value;
    }
  }

  /** `read_all` after any number of appends returns what each appended line reads back as, in order,
      and fails exactly when one of them cannot be decoded. */
  lemma ReadAllReturnsWritten<E(!new)>(events: seq<E>, encode: E -> seq<Byte>, decode: seq<Byte> -> Line<E>)
    requires OneLineEach(encode)
    ensures var back := ReadBacks(events, encode, decode);
            Read(Written(events, encode), 0, decode) == if back.Err? then Err(MalformedLine) else Ok((back.value, |Written(events, encode)|))
  {
    hide Events, Written, CompletePrefix, ReadBacks;
    WrittenEvents(events, encode, decode);
    WholeFile(Written(events, encode));
    if events == [] {
      EmptyFile(encode);
      NothingBack(encode, decode);
    } else {
      NonEmptyFile(events, encode);
    }
  }

  lemma NothingBack<E>(encode: E -> seq<Byte>, decode: seq<Byte> -> Line<E>)
    ensures ReadBacks([], encode, decode) == Ok([])
  {
  }

  ghost predicate Faithful<E>(e: E, encode: E -> seq<Byte>, decode: seq<Byte> -> Line<E>) {
    ReadBack(e, encode, decode) == Parsed(e)
  }

  lemma {:induction false} BacksAreFewer<E(!new)>(events: seq<E>, encode: E -> seq<Byte>, decode: seq<Byte> -> Line<E>)
    ensures var back := ReadBacks(events, encode, decode); back.Ok? ==> |back.value| <= |events|
  {
    if events != [] {
      BacksAreFewer(events[..|events| - 1], encode, decode);
    }
  }

  lemma {:induction false} BacksAreEventsExactly<E(!new)>(events: seq<E>, encode: E -> seq<Byte>, decode: seq<Byte> -> Line<E>)
    ensures ReadBacks(events, encode, decode) == Ok(events) <==> forall e :: e in events ==> Faithful(e, encode, decode)
  {
    if events != [] {
      var front, e := events[..|events| - 1], events[|events| - 1];
      assert events == front + [e];
      BacksAreEventsExactly(front, encode, decode);
      BacksAreFewer(front, encode, decode);
      OneMoreBack(front, e, encode, decode);
      hide ReadBacks, Faithful;
      assert forall x :: x in events <==> x in front || x == e;
    }
  }

  lemma OneMoreBack<E(!new)>(front: seq<E>, e: E, encode: E -> seq<Byte>, decode: seq<Byte> -> Line<E>)
    requires var before := ReadBacks(front, encode, decode); before.Ok? ==> |before.value| <= |front|
    ensures ReadBacks(front + [e], encode, decode) == Ok(front + [e])
       <==> ReadBacks(front, encode, decode) == Ok(front) && Faithful(e, encode, decode)
  {
    var before, line := ReadBacks(front, encode, decode), ReadBack(e, encode, decode);
    assert (front + [e])[..|front|] == front;
    if before.Ok? && line.Parsed? {
      LastOf(before.value, line.event, front, e);
    }
  }

  lemma LastOf<T>(xs: seq<T>, x: T, ys: seq<T>, y: T)
    ensures xs + [x] == ys + [y] <==> xs == ys && x == y
  {
    var a, b := xs + [x], ys + [y];
    if a == b {
      assert a[..|xs|] == b[..|ys|] && a[|xs|] == b[|ys|];
    }
  }

  /** The appended events come back as they were if and only if each one's line reads back as itself. */
  lemma RoundTripExactly<E(!new)>(events: seq<E>, encode: E -> seq<Byte>, decode: seq<Byte> -> Line<E>)
    requires OneLineEach(encode)
    ensures Read(Written(events, encode), 0, decode) == Ok((events, |Written(events, encode)|))
       <==> forall e :: e in events ==> Faithful(e, encode, decode)
  {
    hide Read, Written, ReadBacks;
    ReadAllReturnsWritten(events, encode, decode);
    BacksAreEventsExactly(events, encode, decode);
  }

  /** With a redaction that leaves every event readable, `read_all` returns the redacted events; they
      are the appended ones if and only if redaction leaves each of them as it is. */
  lemma {:induction false} ReadAllReturnsRedacted<E(!new)>(
    events: seq<E>, encode: E -> seq<Byte>, decode: seq<Byte> -> Line<E>, redact: E -> E)
    requires OneLineEach(encode)
    requires forall e :: e in events ==> ReadBack(e, encode, decode) == Parsed(redact(e))
    ensures Read(Written(events, encode), 0, decode) == Ok((Map(events, redact), |Written(events, encode)|))
    ensures Map(events, redact) == events <==> forall e :: e in events ==> redact(e) == e
  {
    ReadAllReturnsWritten(events, encode, decode);
    RedactedBacks(events, encode, decode, redact);
    hide Read, Written, ReadBacks, ReadBack;
    var m := Map(events, redact);
    if m == events {
      forall e | e in events ensures redact(e) == e {
        var i :| 0 <= i < |events| && events[i] == e;
        assert m[i] == redact(events[i]);
      }
    }
  }

  lemma {:induction false} RedactedBacks<E(!new)>(
    events: seq<E>, encode: E -> seq<Byte>, decode: seq<Byte> -> Line<E>, redact: E -> E)
    requires forall e :: e in events ==> ReadBack(e, encode, decode) == Parsed(redact(e))
    ensures ReadBacks(events, encode, decode) == Ok(Map(events, redact))
  {
    if events != [] {
      RedactedBacks(events[..|events| - 1], encode, decode, redact);
      assert Map(events, redact) == Map(events[..|events| - 1], redact) + [redact(events[|events| - 1])];
    }
  }

  lemma EmptyFile<E>(encode: E -> seq<Byte>)
    ensures Written([], encode) == []
  {
  }

  lemma NonEmptyFile<E>(events: seq<E>, encode: E -> seq<Byte>)
    requires events != []
    ensures Written(events, encode) != []
  {
  }

  lemma WholeFile(s: seq<Byte>)
    requires Complete(s)
    ensures CompletePrefix(s) == s && s[0..] == s
  {
  }

  lemma DecodeOne<E>(a: seq<Byte>, decode: seq<Byte> -> Line<E>)
    ensures DecodeAll([a], decode) == match DecodeLine(a, decode) case Ignored => Ok([]) case Parsed(e) => Ok([e]) case Malformed => Err(MalformedLine)
  {
    var one := [a];
    assert one[..|one| - 1] == [];
    hide DecodeLine;
    var none: seq<E> := [];
    assert DecodeLine(a, decode).Parsed? ==> none + [DecodeLine(a, decode).event] == [DecodeLine(a, decode).event];
  }

  lemma DecodeTwo<E>(a: seq<Byte>, b: seq<Byte>, decode: seq<Byte> -> Line<E>)
    requires DecodeLine(b, decode) == Ignored
    ensures DecodeAll([a, b], decode) == match DecodeLine(a, decode) case Ignored => Ok([]) case Parsed(e) => Ok([e]) case Malformed => Err(MalformedLine)
  {
    hide DecodeLine;
    DecodeOne(a, decode);
    var two := [a, b];
    assert two[..|two| - 1] == [a];
    assert DecodeAll(two, decode) == DecodeAll([a], decode);
  }

  lemma SplitLine(raw: seq<Byte>)
    requires NEWLINE !in raw
    ensures Split(raw + [NEWLINE]) == [raw, []]
  {
    var line := raw + [NEWLINE];
    forall i | 0 <= i < |raw| ensures line[i] != NEWLINE { assert line[i] == raw[i]; }
    FirstNewlineUnique(line, |raw|);
    assert line[..|raw|] == raw && line[|raw| + 1..] == [];
    assert Split([]) == [[]];
    assert [raw] + [[]] == [raw, []];
  }

  lemma OneLine<E(!new)>(e: E, encode: E -> seq<Byte>, decode: seq<Byte> -> Line<E>)
    requires OneLineEach(encode)
    ensures Events(encode(e) + [NEWLINE], decode)
         == match ReadBack(e, encode, decode) case Ignored => Ok([]) case Parsed(x) => Ok([x]) case Malformed => Err(MalformedLine)
  {
    SplitLine(encode(e));
    assert DecodeLine([], decode) == Ignored;
    DecodeTwo(encode(e), [], decode);
  }
}
