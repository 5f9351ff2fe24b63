/** session.py: the log as bytes. A codec stands for the JSON text of one record; what is used of it is
    stated in Lawful. */
module SessionStore {
  import opened Wrappers
  import opened Transcript
  import opened Grouping
  import opened Replay
  import opened Runtime

  type Byte = b: int | 0 <= b < 256 witness 0

  const LF: Byte := 10
  const CR: Byte := 13

  datatype Envelope<P> = Envelope(session: nat, eventId: nat, sequence: nat, payload: P)

  datatype Codec<!P> = Codec(encode: Envelope<P> -> seq<Byte>, decode: seq<Byte> -> Option<Envelope<P>>)

  predicate OneLine(bytes: seq<Byte>) {
    bytes != [] && LF !in bytes && CR !in bytes
  }

  /** Encoding can be undone, escapes line breaks (section 7 of RFC 8259), and no strict prefix of a
      record decodes. */
  ghost predicate Lawful<P(!new)>(codec: Codec<P>) {
    && (forall r :: OneLine(codec.encode(r)) && codec.decode(codec.encode(r)) == Some(r))
    && (forall r, n :: 0 <= n < |codec.encode(r)| ==> codec.decode(codec.encode(r)[..n]).None?)
  }

  // A lawful codec: three unary numbers between braces.

  function Unary(e: Envelope<()>): (bytes: seq<Byte>)
    ensures |bytes| == e.session + e.eventId + e.sequence + 4
    ensures forall i :: 0 <= i < |bytes| ==>
              bytes[i] == if i == 0 then 123
                          else if i == e.session + 1 || i == e.session + e.eventId + 2 then 44
                          else if i == |bytes| - 1 then 125 else 49
  {
    seq(e.session + e.eventId + e.sequence + 4, i =>
      if i == 0 then 123
      else if i == e.session + 1 || i == e.session + e.eventId + 2 then 44
      else if i == e.session + e.eventId + e.sequence + 3 then 125 else 49)
  }

  ghost function Picked(bytes: seq<Byte>): Option<Envelope<()>> {
    if exists e :: Unary(e) == bytes then
      var e :| Unary(e) == bytes;
      Some(e)
    else None
  }

  lemma {:induction false} UnaryInjective(a: Envelope<()>, b: Envelope<()>)
    requires a != b
    ensures Unary(a) != Unary(b)
  {
    if a.session < b.session {
      assert Unary(a)[a.session + 1] != Unary(b)[a.session + 1];
    } else if b.session < a.session {
      assert Unary(a)[b.session + 1] != Unary(b)[b.session + 1];
    } else if a.eventId < b.eventId {
      assert Unary(a)[a.session + a.eventId + 2] != Unary(b)[a.session + a.eventId + 2];
    } else if b.eventId < a.eventId {
      assert Unary(a)[b.session + b.eventId + 2] != Unary(b)[b.session + b.eventId + 2];
    } else {
      assert a.payload == () && b.payload == ();
      assert |Unary(a)| != |Unary(b)|;
    }
  }

  /** The laws can be met. */
  lemma {:induction false} LawfulCodec() returns (codec: Codec<()>)
    ensures Lawful(codec)
  {
    codec := Codec(e => Unary(e), bytes => Picked(bytes));
    forall r ensures OneLine(codec.encode(r)) && codec.decode(codec.encode(r)) == Some(r) {
      assert Picked(Unary(r)).Some? && Unary(Picked(Unary(r)).value) == Unary(r);
      if Picked(Unary(r)).value != r {
        UnaryInjective(Picked(Unary(r)).value, r);
      }
    }
    forall r, n | 0 <= n < |codec.encode(r)| ensures codec.decode(codec.encode(r)[..n]).None? {
      forall e ensures Unary(e) != Unary(r)[..n] {
        if |Unary(e)| == n {
          assert Unary(e)[n - 1] == 125 && Unary(r)[..n][n - 1] != 125;
        }
      }
    }
  }

  // ---------------------------------------------------------------- lines

  /** The length of the first line with its line break: LF, CR, or CR LF. */
  function LineLength(data: seq<Byte>): (n: nat)
    requires data != []
    ensures 0 < n <= |data|
  {
    if data[0] == LF then 1
    else if data[0] == CR then if |data| > 1 && data[1] == LF then 2 else 1
    else if |data| == 1 then 1
    else 1 + LineLength(data[1..])
  }

  function SplitLines(data: seq<Byte>): seq<seq<Byte>>
    decreases |data|
  {
    if data == [] then []
    else
      var n := LineLength(data);
      [data[..n]] + SplitLines(data[n..])
  }

  predicate Terminated(line: seq<Byte>) {
    line != [] && line[|line| - 1] == LF
  }

  /** A line without its line break. */
  function Content(line: seq<Byte>): seq<Byte> {
    var bare := if Terminated(line) then line[..|line| - 1] else line;
    if bare != [] && bare[|bare| - 1] == CR then bare[..|bare| - 1] else bare
  }

  // ---------------------------------------------------------------- reading

  datatype ReadError = InvalidRecord(line: nat, offset: nat) | BrokenIdentity(line: nat, offset: nat)

  datatype Tail = Tail(line: nat, offset: nat, length: nat)

  datatype ReadResult<P> = ReadResult(events: seq<Envelope<P>>, tail: Option<Tail>, endedWithNewline: bool)

  /** The records read so far: the session, the identifiers, the last sequence and the offset. */
  datatype Reader<P> = Reader(session: Option<nat>, events: seq<Envelope<P>>, offset: nat)
  {
    predicate Accepts(e: Envelope<P>) {
      && (session.None? || session.value == e.session)
      && (forall i :: 0 <= i < |events| ==> events[i].eventId != e.eventId)
      && (events != [] ==> events[|events| - 1].sequence < e.sequence)
    }

    function Taking(e: Envelope<P>, length: nat): Reader<P> {
      Reader(Some(e.session), events + [e], offset + length)
    }
  }

  function Decoded<P>(codec: Codec<P>, line: seq<Byte>): Option<Envelope<P>> {
    if Content(line) == [] then None else codec.decode(Content(line))
  }

  function ReadLines<P(!new)>(codec: Codec<P>, lines: seq<seq<Byte>>, n: nat, at: Reader<P>)
    : Result<(seq<Envelope<P>>, Option<Tail>), ReadError>
    requires n <= |lines|
    decreases |lines| - n
  {
    if n == |lines| then Ok((at.events, None))
    else
      var record := Decoded(codec, lines[n]);
      if record.None? then
        if n == |lines| - 1 && !Terminated(lines[n]) then
          Ok((at.events, Some(Tail(n + 1, at.offset, |lines[n]|))))
        else Err(InvalidRecord(n + 1, at.offset))
      else if !at.Accepts(record.value) then Err(BrokenIdentity(n + 1, at.offset))
      else ReadLines(codec, lines, n + 1, at.Taking(record.value, |lines[n]|))
  }

  function Read<P(!new)>(codec: Codec<P>, data: seq<Byte>, expected: Option<nat>): Result<ReadResult<P>, ReadError> {
    match ReadLines(codec, SplitLines(data), 0, Reader(expected, [], 0))
    case Ok((events, tail)) => Ok(ReadResult(events, tail, data != [] && data[|data| - 1] == LF))
    case Err(e) => Err(e)
  }

  /** The identifiers and the last sequence that the reader keeps. */
  ghost predicate Keeps<P(!new)>(events: seq<Envelope<P>>, ids: set<nat>, previous: Option<nat>) {
    && ids == (set e | e in events :: e.eventId)
    && previous == if events == [] then None else Some(events[|events| - 1].sequence)
  }

  lemma {:induction false} KeepsMore<P(!new)>(at: Reader<P>, ids: set<nat>, previous: Option<nat>, e: Envelope<P>)
    requires Keeps(at.events, ids, previous)
    ensures at.Accepts(e) <==>
            && (at.session.None? || at.session.value == e.session)
            && e.eventId !in ids && (previous.None? || previous.value < e.sequence)
    ensures Keeps(at.events + [e], ids + {e.eventId}, Some(e.sequence))
  {
    assert forall i :: 0 <= i < |at.events| ==> at.events[i].eventId in ids;
  }

  /** The loop of read_session. */
  method ReadRecords<P(!new)>(codec: Codec<P>, lines: seq<seq<Byte>>, expected: Option<nat>)
    returns (r: Result<(seq<Envelope<P>>, Option<Tail>), ReadError>)
    ensures r == ReadLines(codec, lines, 0, Reader(expected, [], 0))
  {
    hide Content, SplitLines, Keeps;
    var session, events: seq<Envelope<P>>, ids: set<nat> := expected, [], {};
    var previous: Option<nat> := None;
    var index: nat, offset: nat := 0, 0;
    KeepsNothing<P>();
    while index < |lines|
      invariant index <= |lines|
      invariant Keeps(events, ids, previous)
      invariant ReadLines(codec, lines, 0, Reader(expected, [], 0)) ==
                ReadLines(codec, lines, index, Reader(session, events, offset))
    {
      var line := lines[index];
      var content := Content(line);
      var record := if content == [] then None else codec.decode(content);
      assert record == Decoded(codec, line);
      if record.None? {
        if index == |lines| - 1 && !Terminated(line) {
          return Ok((events, Some(Tail(index + 1, offset, |line|))));
        }
        return Err(InvalidRecord(index + 1, offset));
      }
      var e := record.value;
      KeepsMore(Reader(session, events, offset), ids, previous, e);
      if session.Some? && e.session != session.value {
        return Err(BrokenIdentity(index + 1, offset));
      }
      if e.eventId in ids || (previous.Some? && e.sequence <= previous.value) {
        return Err(BrokenIdentity(index + 1, offset));
      }
      session, events, ids := Some(e.session), events + [e], ids + {e.eventId};
      previous, offset, index := Some(e.sequence), offset + |line|, index + 1;
    }
    return Ok((events, None));
  }

  /** read_session on the bytes of the file. */
  method ReadSession<P(!new)>(codec: Codec<P>, data: seq<Byte>, expected: Option<nat>)
    returns (r: Result<ReadResult<P>, ReadError>)
    ensures r == Read(codec, data, expected)
  {
    if data == [] {
      return Ok(ReadResult([], None, false));
    }
    var records :- ReadRecords(codec, SplitLines(data), expected);
    return Ok(ReadResult(records.0, records.1, data[|data| - 1] == LF));
  }

  lemma {:induction false} KeepsNothing<P(!new)>()
    ensures Keeps<P>([], {}, None)
  {
  }

  // ---------------------------------------------------------------- the file of a list of records

  function FileOf<P(!new)>(codec: Codec<P>, rs: seq<Envelope<P>>): seq<Byte> {
    if rs == [] then [] else FileOf(codec, rs[..|rs| - 1]) + codec.encode(rs[|rs| - 1]) + [LF]
  }

  function LinesOf<P(!new)>(codec: Codec<P>, rs: seq<Envelope<P>>): (lines: seq<seq<Byte>>)
    ensures |lines| == |rs|
    ensures forall i :: 0 <= i < |lines| ==> lines[i] == codec.encode(rs[i]) + [LF]
  {
    seq(|rs|, i requires 0 <= i < |rs| => codec.encode(rs[i]) + [LF])
  }

  /** The file holds exactly these records; only the last line break may be missing. */
  ghost predicate Holds<P(!new)>(codec: Codec<P>, data: seq<Byte>, rs: seq<Envelope<P>>) {
    var whole := FileOf(codec, rs);
    data == whole || (rs != [] && |whole| > 0 && data == whole[..|whole| - 1])
  }

  /** The records are followed by an unfinished one. */
  ghost predicate Torn<P(!new)>(codec: Codec<P>, data: seq<Byte>, rs: seq<Envelope<P>>, r: Envelope<P>) {
    exists n :: 0 < n < |codec.encode(r)| && data == FileOf(codec, rs) + codec.encode(r)[..n]
  }

  /** One session, distinct identifiers, sequences 1..n. */
  ghost predicate Chained<P(!new)>(rs: seq<Envelope<P>>) {
    && (forall i :: 0 <= i < |rs| ==> rs[i].sequence == i + 1)
    && (forall i, j :: 0 <= i < j < |rs| ==> rs[i].session == rs[j].session && rs[i].eventId != rs[j].eventId)
  }

  ghost predicate ForSession<P(!new)>(rs: seq<Envelope<P>>, session: Option<nat>) {
    session.Some? ==> forall i :: 0 <= i < |rs| ==> rs[i].session == session.value
  }

  lemma {:induction false} FileSnoc<P(!new)>(codec: Codec<P>, rs: seq<Envelope<P>>, r: Envelope<P>)
    ensures FileOf(codec, rs + [r]) == FileOf(codec, rs) + codec.encode(r) + [LF]
  {
    assert (rs + [r])[..|rs|] == rs;
  }

  lemma {:induction false} FirstLine(line: seq<Byte>, rest: seq<Byte>)
    requires LF !in line && CR !in line
    ensures LineLength(line + [LF] + rest) == |line| + 1
    ensures line != [] ==> LineLength(line) == |line|
    decreases |line|
  {
    var data := line + [LF] + rest;
    if line != [] {
      assert data[1..] == line[1..] + [LF] + rest;
      assert data[0] == line[0];
      FirstLine(line[1..], rest);
    }
  }

  lemma {:induction false} SplitFirst(line: seq<Byte>, rest: seq<Byte>)
    requires OneLine(line)
    ensures SplitLines(line + [LF] + rest) == [line + [LF]] + SplitLines(rest)
  {
    FirstLine(line, rest);
    var data := line + [LF] + rest;
    assert data[..|line| + 1] == line + [LF] && data[|line| + 1..] == rest;
  }

  lemma {:induction false} SplitFile<P(!new)>(codec: Codec<P>, rs: seq<Envelope<P>>, rest: seq<Byte>)
    requires Lawful(codec)
    ensures SplitLines(FileOf(codec, rs) + rest) == LinesOf(codec, rs) + SplitLines(rest)
  {
    if rs == [] {
      assert FileOf(codec, rs) + rest == rest;
    } else {
      var init, bytes := rs[..|rs| - 1], codec.encode(rs[|rs| - 1]);
      var data := bytes + [LF] + rest;
      assert FileOf(codec, rs) + rest == FileOf(codec, init) + data;
      SplitFile(codec, init, data);
      assert OneLine(bytes);
      SplitFirst(bytes, rest);
      assert LinesOf(codec, rs) == LinesOf(codec, init) + [bytes + [LF]];
    }
  }

  lemma {:induction false} SplitSingle(line: seq<Byte>)
    requires OneLine(line)
    ensures SplitLines(line) == [line]
  {
    FirstLine(line, []);
    assert line[..|line|] == line && line[|line|..] == [];
  }

  lemma {:induction false} DecodedLine<P(!new)>(codec: Codec<P>, r: Envelope<P>)
    requires Lawful(codec)
    ensures Decoded(codec, codec.encode(r) + [LF]) == Some(r)
    ensures Decoded(codec, codec.encode(r)) == Some(r) && !Terminated(codec.encode(r))
    ensures forall n :: 0 < n < |codec.encode(r)| ==>
              && Decoded(codec, codec.encode(r)[..n]).None? && OneLine(codec.encode(r)[..n])
              && !Terminated(codec.encode(r)[..n])
  {
    var bytes := codec.encode(r);
    assert OneLine(bytes);
    var line := bytes + [LF];
    assert line[..|line| - 1] == bytes;
    assert bytes[|bytes| - 1] in bytes;
    forall n | 0 < n < |bytes|
      ensures Decoded(codec, bytes[..n]).None? && OneLine(bytes[..n]) && !Terminated(bytes[..n])
    {
      assert forall b :: b in bytes[..n] ==> b in bytes;
      assert bytes[..n][n - 1] in bytes;
    }
  }

  /** The reader behind the first n of these records. */
  function ReaderAt<P(!new)>(codec: Codec<P>, rs: seq<Envelope<P>>, session: Option<nat>, n: nat): Reader<P>
    requires n <= |rs|
  {
    Reader(if n == 0 then session else Some(rs[0].session), rs[..n], |FileOf(codec, rs[..n])|)
  }

  lemma {:induction false} ReaderNext<P(!new)>(codec: Codec<P>, rs: seq<Envelope<P>>, session: Option<nat>, n: nat)
    requires Chained(rs) && ForSession(rs, session) && n < |rs|
    ensures ReaderAt(codec, rs, session, n).Accepts(rs[n])
    ensures ReaderAt(codec, rs, session, n).Taking(rs[n], |codec.encode(rs[n])| + 1) ==
            ReaderAt(codec, rs, session, n + 1)
  {
    assert rs[..n + 1] == rs[..n] + [rs[n]];
    FileSnoc(codec, rs[..n], rs[n]);
  }

  lemma {:induction false} ReadStep<P(!new)>(codec: Codec<P>, lines: seq<seq<Byte>>, n: nat, at: Reader<P>,
                                      r: Envelope<P>)
    requires Lawful(codec) && n < |lines| && at.Accepts(r)
    requires lines[n] == codec.encode(r) + [LF] || lines[n] == codec.encode(r)
    ensures ReadLines(codec, lines, n, at) == ReadLines(codec, lines, n + 1, at.Taking(r, |lines[n]|))
  {
    DecodedLine(codec, r);
  }

  /** Reading the lines of chained records takes them all. */
  lemma {:induction false} ReadStored<P(!new)>(codec: Codec<P>, rs: seq<Envelope<P>>, more: seq<seq<Byte>>,
                                               session: Option<nat>, n: nat)
    requires Lawful(codec) && Chained(rs) && ForSession(rs, session) && n <= |rs|
    ensures ReadLines(codec, LinesOf(codec, rs) + more, n, ReaderAt(codec, rs, session, n)) ==
            ReadLines(codec, LinesOf(codec, rs) + more, |rs|, ReaderAt(codec, rs, session, |rs|))
    decreases |rs| - n
  {
    if n < |rs| {
      hide Lawful, Chained, ForSession, ReaderAt, ReadLines;
      var lines := LinesOf(codec, rs) + more;
      assert lines[n] == codec.encode(rs[n]) + [LF];
      ReaderNext(codec, rs, session, n);
      ReadStep(codec, lines, n, ReaderAt(codec, rs, session, n), rs[n]);
      ReadStored(codec, rs, more, session, n + 1);
    }
  }

  lemma {:induction false} ReadAll<P(!new)>(codec: Codec<P>, rs: seq<Envelope<P>>, more: seq<seq<Byte>>,
                                     session: Option<nat>)
    requires Lawful(codec) && Chained(rs) && ForSession(rs, session)
    ensures ReadLines(codec, LinesOf(codec, rs) + more, 0, Reader(session, [], 0)) ==
            ReadLines(codec, LinesOf(codec, rs) + more, |rs|, ReaderAt(codec, rs, session, |rs|))
    ensures ReaderAt(codec, rs, session, |rs|).events == rs
    ensures ReaderAt(codec, rs, session, |rs|).offset == |FileOf(codec, rs)|
  {
    ReadStored(codec, rs, more, session, 0);
    assert rs[..0] == [] && rs[..|rs|] == rs;
  }

  lemma {:induction false} LastBreak<P(!new)>(codec: Codec<P>, rs: seq<Envelope<P>>)
    requires rs != []
    ensures var whole := FileOf(codec, rs);
            && |whole| > 0 && whole[|whole| - 1] == LF
            && whole[..|whole| - 1] == FileOf(codec, rs[..|rs| - 1]) + codec.encode(rs[|rs| - 1])
  {
    var whole := FileOf(codec, rs);
    assert whole == FileOf(codec, rs[..|rs| - 1]) + codec.encode(rs[|rs| - 1]) + [LF];
  }

  lemma {:induction false} ChainedPrefix<P(!new)>(rs: seq<Envelope<P>>, n: nat)
    requires Chained(rs) && n <= |rs|
    ensures Chained(rs[..n])
  {
  }

  /** A file that holds chained records is read back as these records, with or without the last line
      break. */
  lemma {:induction false} ReadHeld<P(!new)>(codec: Codec<P>, data: seq<Byte>, rs: seq<Envelope<P>>,
                                      session: Option<nat>)
    requires Lawful(codec) && Chained(rs) && ForSession(rs, session) && Holds(codec, data, rs)
    ensures Read(codec, data, session) == Ok(ReadResult(rs, None, data != [] && data == FileOf(codec, rs)))
  {
    var whole := FileOf(codec, rs);
    if data == whole {
      SplitFile(codec, rs, []);
      assert whole + [] == whole && LinesOf(codec, rs) + [] == LinesOf(codec, rs);
      ReadAll(codec, rs, [], session);
      if rs != [] {
        LastBreak(codec, rs);
      }
    } else {
      ReadUnterminated(codec, rs, session);
      assert |data| < |whole|;
    }
  }

  lemma {:induction false} ReadUnterminated<P(!new)>(codec: Codec<P>, rs: seq<Envelope<P>>, session: Option<nat>)
    requires Lawful(codec) && Chained(rs) && ForSession(rs, session) && rs != []
    ensures var whole := FileOf(codec, rs);
            && |whole| > 0 && whole[..|whole| - 1] != []
            && Read(codec, whole[..|whole| - 1], session) == Ok(ReadResult(rs, None, false))
  {
    hide FileOf, Lawful, Chained, ForSession, Read;
    LastBreak(codec, rs);
    var init, last := rs[..|rs| - 1], rs[|rs| - 1];
    assert init + [last] == rs;
    ReadLastLine(codec, init, last, session);
  }

  lemma {:induction false} ReadLastRecord<P(!new)>(codec: Codec<P>, init: seq<Envelope<P>>, last: Envelope<P>,
                                            session: Option<nat>)
    requires Lawful(codec) && Chained(init + [last]) && ForSession(init + [last], session)
    ensures ReadLines(codec, LinesOf(codec, init) + [codec.encode(last)], 0, Reader(session, [], 0)) ==
            Ok((init + [last], None))
  {
    hide Lawful, FileOf, Decoded;
    var rs, lines := init + [last], LinesOf(codec, init) + [codec.encode(last)];
    assert rs[..|init|] == init && lines[|init|] == codec.encode(last);
    ChainedPrefix(rs, |init|);
    ReadAll(codec, init, [codec.encode(last)], session);
    ReaderNext(codec, rs, session, |init|);
    ReadStep(codec, lines, |init|, ReaderAt(codec, init, session, |init|), last);
  }

  /** A complete record that only lacks its line break counts. */
  lemma {:induction false} ReadLastLine<P(!new)>(codec: Codec<P>, init: seq<Envelope<P>>, last: Envelope<P>,
                                          session: Option<nat>)
    requires Lawful(codec) && Chained(init + [last]) && ForSession(init + [last], session)
    ensures var data := FileOf(codec, init) + codec.encode(last);
            data != [] && Read(codec, data, session) == Ok(ReadResult(init + [last], None, false))
  {
    assert OneLine(codec.encode(last));
    hide Lawful, Chained, ForSession, FileOf, SplitLines, ReadLines, LinesOf;
    LastByte(FileOf(codec, init), codec.encode(last));
    SplitFile(codec, init, codec.encode(last));
    SplitSingle(codec.encode(last));
    ReadLastRecord(codec, init, last, session);
  }

  lemma {:induction false} LastByte(data: seq<Byte>, bytes: seq<Byte>)
    requires OneLine(bytes)
    ensures data + bytes != [] && (data + bytes)[|data + bytes| - 1] != LF
  {
    assert (data + bytes)[|data + bytes| - 1] == bytes[|bytes| - 1];
    assert bytes[|bytes| - 1] in bytes;
  }

  /** An unfinished last record is reported at its first byte and takes nothing away. */
  lemma {:induction false} ReadTorn<P(!new)>(codec: Codec<P>, data: seq<Byte>, rs: seq<Envelope<P>>, r: Envelope<P>,
                                             session: Option<nat>)
    requires Lawful(codec) && Chained(rs) && ForSession(rs, session) && Torn(codec, data, rs, r)
    ensures var offset := |FileOf(codec, rs)|;
            && Read(codec, data, session) ==
               Ok(ReadResult(rs, Some(Tail(|rs| + 1, offset, |data| - offset)), false))
            && offset <= |data| && data[..offset] == FileOf(codec, rs)
  {
    hide Lawful, Chained, ForSession, FileOf, Read, Decoded, Torn, Terminated;
    var piece := TornPiece(codec, data, rs, r);
    ReadPiece(codec, rs, piece, session);
    assert (FileOf(codec, rs) + piece)[..|FileOf(codec, rs)|] == FileOf(codec, rs);
  }

  lemma {:induction false} TornPiece<P(!new)>(codec: Codec<P>, data: seq<Byte>, rs: seq<Envelope<P>>, r: Envelope<P>)
    returns (piece: seq<Byte>)
    requires Lawful(codec) && Torn(codec, data, rs, r)
    ensures data == FileOf(codec, rs) + piece && OneLine(piece)
    ensures Decoded(codec, piece).None? && !Terminated(piece)
  {
    var n :| 0 < n < |codec.encode(r)| && data == FileOf(codec, rs) + codec.encode(r)[..n];
    hide Lawful, FileOf, Decoded, Torn, Terminated;
    DecodedLine(codec, r);
    piece := codec.encode(r)[..n];
  }

  lemma {:induction false} ReadPiece<P(!new)>(codec: Codec<P>, rs: seq<Envelope<P>>, piece: seq<Byte>,
                                       session: Option<nat>)
    requires Lawful(codec) && Chained(rs) && ForSession(rs, session)
    requires OneLine(piece) && Decoded(codec, piece).None? && !Terminated(piece)
    ensures Read(codec, FileOf(codec, rs) + piece, session) ==
            Ok(ReadResult(rs, Some(Tail(|rs| + 1, |FileOf(codec, rs)|, |piece|)), false))
  {
    hide Lawful, Chained, ForSession, FileOf, SplitLines, Decoded;
    LastByte(FileOf(codec, rs), piece);
    SplitFile(codec, rs, piece);
    SplitSingle(piece);
    ReadAll(codec, rs, [piece], session);
    assert (LinesOf(codec, rs) + [piece])[|rs|] == piece;
  }

  /** What any byte prefix of an append leaves. */
  lemma {:induction false} AppendShape<P(!new)>(codec: Codec<P>, rs: seq<Envelope<P>>, r: Envelope<P>, k: nat)
    requires Lawful(codec) && |FileOf(codec, rs)| - 1 <= k <= |FileOf(codec, rs + [r])|
    ensures var data := FileOf(codec, rs + [r])[..k];
            Holds(codec, data, rs) || Torn(codec, data, rs, r) || Holds(codec, data, rs + [r])
  {
    FileSnoc(codec, rs, r);
    var before, bytes, after := FileOf(codec, rs), codec.encode(r), FileOf(codec, rs + [r]);
    var data := after[..k];
    if k < |before| {
      assert data == before[..|before| - 1];
    } else if k == |before| {
      assert data == before;
    } else if k < |before| + |bytes| {
      assert data == before + bytes[..k - |before|];
    } else if k == |before| + |bytes| {
      assert data == after[..|after| - 1];
    } else {
      assert data == after;
    }
  }

  lemma {:induction false} FileGrows<P(!new)>(codec: Codec<P>, rs: seq<Envelope<P>>)
    requires rs != []
    ensures FileOf(codec, rs[..|rs| - 1]) <= FileOf(codec, rs)
  {
  }

  /** A crash at any byte leaves complete records and at most one unfinished one: the next record is
      missing or unfinished only if its last byte, not counting the line break, did not survive. */
  lemma {:induction false} CrashShape<P(!new)>(codec: Codec<P>, rs: seq<Envelope<P>>, k: nat) returns (m: nat)
    requires Lawful(codec) && k <= |FileOf(codec, rs)|
    ensures m <= |rs| && (m == |rs| || k < |FileOf(codec, rs[..m + 1])| - 1)
    ensures var data := FileOf(codec, rs)[..k];
            Holds(codec, data, rs[..m]) || (m < |rs| && Torn(codec, data, rs[..m], rs[m]))
  {
    if rs == [] {
      m := 0;
    } else {
      var init, last := rs[..|rs| - 1], rs[|rs| - 1];
      assert init + [last] == rs;
      FileGrows(codec, rs);
      FileSnoc(codec, init, last);
      assert OneLine(codec.encode(last)) && rs[..|rs|] == rs;
      if k < |FileOf(codec, init)| {
        m := CrashShape(codec, init, k);
        assert FileOf(codec, rs)[..k] == FileOf(codec, init)[..k];
        assert init[..m] == rs[..m] && (m < |init| ==> init[..m + 1] == rs[..m + 1]);
      } else {
        AppendShape(codec, init, last, k);
        m := if Holds(codec, FileOf(codec, rs)[..k], rs) then |rs| else |init|;
        if k >= |FileOf(codec, rs)| - 1 {
          WholeHeld(codec, rs, k);
        }
      }
    }
  }

  lemma {:induction false} WholeHeld<P(!new)>(codec: Codec<P>, rs: seq<Envelope<P>>, k: nat)
    requires rs != [] && |FileOf(codec, rs)| - 1 <= k <= |FileOf(codec, rs)|
    ensures Holds(codec, FileOf(codec, rs)[..k], rs)
  {
    assert FileOf(codec, rs)[..|FileOf(codec, rs)|] == FileOf(codec, rs);
  }

  function Payloads<P>(rs: seq<Envelope<P>>): (ps: seq<P>)
    ensures |ps| == |rs|
    ensures forall i :: 0 <= i < |ps| ==> ps[i] == rs[i].payload
  {
    seq(|rs|, i requires 0 <= i < |rs| => rs[i].payload)
  }

  /** Crash at any byte: whatever prefix of the file survives, it is read back as the records whose bytes
      survived, with at most one incomplete tail, and these records restore exactly their complete
      interactions past the cutoff; only a trailing unfinished one is dropped. */
  lemma {:induction false} CrashAtAnyByte(codec: Codec<Event>, rs: seq<Envelope<Event>>, k: nat)
    returns (survived: nat, gs: seq<Group>, tail: seq<Entry>)
    requires Lawful(codec) && Chained(rs) && Disciplined(Payloads(rs)) && k <= |FileOf(codec, rs)|
    ensures survived <= |rs| && (survived == |rs| || k < |FileOf(codec, rs[..survived + 1])| - 1)
    ensures var read := Read(codec, FileOf(codec, rs)[..k], None);
            && read.Ok? && read.value.events == rs[..survived]
            && (read.value.tail.Some? ==> read.value.tail.value.offset == |FileOf(codec, rs[..survived])| <= k)
    ensures var log := Payloads(rs)[..survived];
            var p := Replayed(log);
            && p.pairs == Flatten(gs) + tail && AllComplete(gs)
            && (if Open(log) == [] then tail == [] else Partial(tail))
            && Recovered(log) ==
               Ok(Restored(p.summary, p.covered, p.degraded, p.notice, Flatten(GroupsAbove(gs, Cutoff(p)))))
  {
    survived := CrashShape(codec, rs, k);
    ReadCrashed(codec, rs, survived, FileOf(codec, rs)[..k]);
    hide Disciplined, Recovered, Read, FileOf, Lawful, Chained, Replayed, Holds, Torn, Open;
    gs, tail := CrashRecovery(Payloads(rs), survived);
  }

  lemma {:induction false} ReadCrashed<P(!new)>(codec: Codec<P>, rs: seq<Envelope<P>>, m: nat, data: seq<Byte>)
    requires Lawful(codec) && Chained(rs) && m <= |rs|
    requires Holds(codec, data, rs[..m]) || (m < |rs| && Torn(codec, data, rs[..m], rs[m]))
    ensures var read := Read(codec, data, None);
            && read.Ok? && read.value.events == rs[..m]
            && (read.value.tail.Some? ==> read.value.tail.value.offset == |FileOf(codec, rs[..m])| <= |data|)
  {
    ChainedPrefix(rs, m);
    if Holds(codec, data, rs[..m]) {
      ReadHeld(codec, data, rs[..m], None);
    } else {
      ReadTorn(codec, data, rs[..m], rs[m], None);
    }
  }

  // ---------------------------------------------------------------- the store

  datatype AppendError = Closed | NeedsReopen | IncompleteTail | OtherSession | DuplicateId | WriteFailed

  /** One file of the file system. */
  class Disk {
    var data: seq<Byte>

    constructor (data: seq<Byte>)
      ensures this.data == data
    {
      this.data := data;
    }
  }

  /** What a failed append may leave: nothing, an unfinished record, or the whole record. */
  ghost predicate AfterFailure<P(!new)>(codec: Codec<P>, data: seq<Byte>, rs: seq<Envelope<P>>, r: Envelope<P>) {
    Holds(codec, data, rs) || Torn(codec, data, rs, r) || (Holds(codec, data, rs + [r]) && Chained(rs + [r]))
  }

  ghost predicate EventIds<P(!new)>(rs: seq<Envelope<P>>, ids: set<nat>) {
    forall id :: id in ids <==> exists i :: 0 <= i < |rs| && rs[i].eventId == id
  }

  lemma {:induction false} ChainedSnoc<P(!new)>(rs: seq<Envelope<P>>, r: Envelope<P>, ids: set<nat>)
    requires Chained(rs) && EventIds(rs, ids)
    requires r.sequence == |rs| + 1 && r.eventId !in ids && (rs != [] ==> r.session == rs[0].session)
    ensures Chained(rs + [r]) && EventIds(rs + [r], ids + {r.eventId})
  {
    var next := rs + [r];
    assert forall i :: 0 <= i < |rs| ==> rs[i].eventId in ids;
    forall id ensures id in ids + {r.eventId} <==> exists i :: 0 <= i < |next| && next[i].eventId == id {
      if id in ids {
        var i :| 0 <= i < |rs| && rs[i].eventId == id;
        assert next[i].eventId == id;
      }
      assert next[|rs|].eventId == r.eventId;
    }
  }

  class Store<P(!new)> {
    const codec: Codec<P>
    const disk: Disk
    /** The preview of an oversized payload; see module Preview. */
    const bound: P -> P
    var session: Option<nat>
    var eventIds: set<nat>
    var nextSequence: nat
    var tail: Option<Tail>
    var needsSeparator: bool
    var writeFailed: bool
    var closed: bool
    /** The records this store has read or acknowledged. */
    ghost var stored: seq<Envelope<P>>

    ghost predicate Valid()
      reads this, disk
    {
      && Lawful(codec) && Chained(stored) && ForSession(stored, session)
      && nextSequence == |stored| + 1 && EventIds(stored, eventIds)
      && (stored != [] ==> session.Some?)
      && (tail.None? && !writeFailed ==>
            && Holds(codec, disk.data, stored)
            && (needsSeparator <==> stored != [] && disk.data != FileOf(codec, stored)))
    }

    /** The store of a file that could be read. */
    constructor Opened(codec: Codec<P>, disk: Disk, bound: P -> P, expected: Option<nat>, read: ReadResult<P>)
      requires Lawful(codec) && Chained(read.events) && ForSession(read.events, expected)
      requires Read(codec, disk.data, expected) == Ok(read)
      requires read.tail.None? ==> Holds(codec, disk.data, read.events)
      ensures Valid() && stored == read.events && tail == read.tail && !writeFailed && !closed
      ensures this.codec == codec && this.disk == disk && this.bound == bound
    {
      this.codec, this.disk, this.bound := codec, disk, bound;
      session := if expected.None? && read.events != [] then Some(read.events[0].session) else expected;
      eventIds := EventIdsOf(read.events);
      nextSequence := if read.events == [] then 1 else read.events[|read.events| - 1].sequence + 1;
      tail, needsSeparator := read.tail, read.events != [] && !read.endedWithNewline;
      writeFailed, closed, stored := false, false, read.events;
      new;
      if tail.None? {
        ReadHeld(codec, disk.data, read.events, expected);
      }
    }

    /** The record of one append, or the reason why it is refused. */
    method Prepare(ofSession: nat, explicitId: Option<nat>, payload: P) returns (r: Result<Envelope<P>, AppendError>)
      requires Valid()
      modifies `session
      ensures Valid() && (old(session).Some? ==> session == old(session))
      ensures r.Ok? ==>
                && r.value.sequence == nextSequence && r.value.session == ofSession && session == Some(ofSession)
                && r.value.eventId !in eventIds && r.value.payload == bound(payload)
                && (explicitId.Some? ==> r.value.eventId == explicitId.value)
      ensures r.Err? ==>
                || (r.error == OtherSession && old(session).Some? && old(session).value != ofSession)
                || (r.error == DuplicateId && explicitId.Some? && explicitId.value in eventIds)
    {
      if session.None? {
        session := Some(ofSession);
      } else if session.value != ofSession {
        return Err(OtherSession);
      }
      var id: nat := *;
      if explicitId.Some? {
        id := explicitId.value;
        if id in eventIds {
          return Err(DuplicateId);
        }
      } else if id in eventIds {
        ghost var unused := UnusedId(eventIds);
        while id in eventIds
          decreases unused - id
        {
          id := id + 1;
        }
      }
      return Ok(Envelope(ofSession, id, nextSequence, bound(payload)));
    }

    /** Append one record. A write may stop after any byte; then the store refuses to go on. */
    method Append(ofSession: nat, explicitId: Option<nat>, payload: P) returns (r: Result<Envelope<P>, AppendError>)
      requires Valid()
      modifies this, disk
      ensures Valid() && closed == old(closed) && tail == old(tail)
      ensures r.Ok? ==>
                && stored == old(stored) + [r.value]
                && r.value.sequence == |stored| && r.value.payload == bound(payload)
                && disk.data == FileOf(codec, stored) && !writeFailed
      ensures r.Err? ==> stored == old(stored)
      ensures r.Err? && !r.error.WriteFailed? ==> disk.data == old(disk.data) && writeFailed == old(writeFailed)
      ensures r.Err? && r.error.WriteFailed? ==>
                && writeFailed
                && exists lost: Envelope<P> ::
                     lost.payload == bound(payload) && AfterFailure(codec, disk.data, stored, lost)
      ensures old(closed || writeFailed || tail.Some?) ==> r.Err? && !r.error.WriteFailed?
    {
      hide Lawful, Chained, Holds, AfterFailure, EventIds, FileOf, ForSession;
      if closed {
        return Err(Closed);
      }
      if writeFailed {
        return Err(NeedsReopen);
      }
      if tail.Some? {
        return Err(IncompleteTail);
      }
      var e :- Prepare(ofSession, explicitId, payload);
      PreparedSession(e);
      ChainedSnoc(stored, e, eventIds);
      var written := WriteLine(e);
      if !written {
        writeFailed := true;
        return Err(WriteFailed);
      }
      HoldsWhole(codec, stored + [e]);
      stored := stored + [e];
      eventIds := eventIds + {e.eventId};
      nextSequence := nextSequence + 1;
      needsSeparator := false;
      return Ok(e);
    }

    lemma PreparedSession(e: Envelope<P>)
      requires Valid() && session == Some(e.session)
      ensures stored != [] ==> e.session == stored[0].session
      ensures ForSession(stored + [e], session)
    {
    }

    /** Write the line of a record; a failure may have written any part of it. */
    method WriteLine(e: Envelope<P>) returns (ok: bool)
      requires Valid() && tail.None? && !writeFailed && Chained(stored + [e])
      modifies disk
      ensures ok ==> disk.data == FileOf(codec, stored + [e])
      ensures !ok ==> AfterFailure(codec, disk.data, stored, e)
    {
      hide Chained, EventIds, ForSession, Lawful;
      var line := (if needsSeparator then [LF] else []) + codec.encode(e) + [LF];
      SeparatedLine(codec, disk.data, stored, e, needsSeparator);
      var fails: bool, written: nat := *, *;
      if fails {
        var count := if written <= |line| then written else |line|;
        AppendShape(codec, stored, e, |disk.data| + count);
        CutOf(disk.data, line, count, FileOf(codec, stored + [e]));
        disk.data := disk.data + line[..count];
        return false;
      }
      disk.data := disk.data + line;
      return true;
    }
  }

  lemma {:induction false} HoldsWhole<P(!new)>(codec: Codec<P>, rs: seq<Envelope<P>>)
    ensures Holds(codec, FileOf(codec, rs), rs)
  {
  }

  lemma {:induction false} CutOf(data: seq<Byte>, line: seq<Byte>, count: nat, whole: seq<Byte>)
    requires data + line == whole && count <= |line|
    ensures data + line[..count] == whole[..|data| + count]
  {
  }

  /** The separator replaces the missing line break: appending always continues the canonical file. */
  lemma {:induction false} SeparatedLine<P(!new)>(codec: Codec<P>, data: seq<Byte>, rs: seq<Envelope<P>>,
                                           e: Envelope<P>,
                                                  separate: bool)
    requires Holds(codec, data, rs) && (separate <==> rs != [] && data != FileOf(codec, rs))
    ensures data + ((if separate then [LF] else []) + codec.encode(e) + [LF]) == FileOf(codec, rs + [e])
    ensures |FileOf(codec, rs)| - 1 <= |data|
  {
    FileSnoc(codec, rs, e);
    if separate {
      LastBreak(codec, rs);
      assert data + [LF] == FileOf(codec, rs);
    } else {
      assert data == FileOf(codec, rs);
      assert [] + codec.encode(e) + [LF] == codec.encode(e) + [LF];
    }
  }

  function EventIdsOf<P(!new)>(rs: seq<Envelope<P>>): (ids: set<nat>)
    ensures EventIds(rs, ids)
  {
    set i | 0 <= i < |rs| :: rs[i].eventId
  }

  lemma {:induction false} UnusedId(ids: set<nat>) returns (bound: nat)
    ensures forall n: nat :: n >= bound ==> n !in ids
  {
    if ids == {} {
      bound := 0;
    } else {
      var id :| id in ids;
      var below := UnusedId(ids - {id});
      bound := Max(below, id + 1);
      forall n: nat | n >= bound ensures n !in ids {
        assert n !in ids - {id};
      }
    }
  }

  // ---------------------------------------------------------------- the emitter's view of the store

  /** The store and its file hold what the emitter thinks they hold. */
  ghost predicate Agree(codec: Codec<Event>, data: seq<Byte>, stored: seq<Envelope<Event>>, failed: bool, held: Held) {
    && held.events == Payloads(stored) && (held.broken <==> failed)
    && if held.unacknowledged.None? then Left(codec, data, stored)
       else exists lost: Envelope<Event> ::
              && held.broken && lost.payload == held.unacknowledged.value
              && Chained(stored + [lost]) && Holds(codec, data, stored + [lost])
  }

  /** Appending to the file does to it what publishing does to the emitter's records: every outcome of an
      append is an outcome of a publication. */
  method AppendRecord(store: Store<Event>, ofSession: nat, e: Event, ghost held: Held)
    returns (r: Result<Envelope<Event>, AppendError>, ghost outcome: StoreOutcome)
    requires store.Valid() && store.tail.None?
    requires Agree(store.codec, store.disk.data, store.stored, store.writeFailed, held)
    modifies store, store.disk
    ensures store.Valid() && store.tail.None?
    ensures r.Ok? <==> outcome == Acknowledged
    ensures held.broken ==> outcome == StoreOutcome.Refused
    ensures Agree(store.codec, store.disk.data, store.stored, store.writeFailed, held.After(store.bound(e), outcome))
  {
    hide Lawful, Chained, Holds, Torn, EventIds, FileOf, ForSession;
    r := store.Append(ofSession, None, e);
    if r.Ok? {
      outcome := Acknowledged;
      AcknowledgedAgrees(store.codec, store.disk.data, store.stored, held, r.value);
    } else if r.error.WriteFailed? {
      ghost var lost: Envelope<Event> :|
        lost.payload == store.bound(e) && AfterFailure(store.codec, store.disk.data, store.stored, lost);
      outcome := Broken(Holds(store.codec, store.disk.data, store.stored + [lost]) && Chained(store.stored + [lost]));
    } else {
      outcome := StoreOutcome.Refused;
    }
  }

  lemma {:induction false} AcknowledgedAgrees(codec: Codec<Event>, data: seq<Byte>, stored: seq<Envelope<Event>>,
                                              held: Held, r: Envelope<Event>)
    requires stored != [] && stored[|stored| - 1] == r && held.events == Payloads(stored[..|stored| - 1])
    requires data == FileOf(codec, stored) && Chained(stored) && !held.broken && held.unacknowledged.None?
    ensures Agree(codec, data, stored, false, held.After(r.payload, Acknowledged))
  {
    assert Payloads(stored) == held.events + [r.payload];
  }

  /** Whatever has happened, the file reads back as the records the emitter knows, and the one that broke
      the store if it is there as a whole. */
  lemma {:induction false} HeldIsRead(codec: Codec<Event>, data: seq<Byte>, stored: seq<Envelope<Event>>, failed: bool,
                                      held: Held)
    requires Lawful(codec) && Agree(codec, data, stored, failed, held)
    ensures var read := Read(codec, data, None);
            && read.Ok?
            && Payloads(read.value.events) ==
               held.events + if held.unacknowledged.Some? then [held.unacknowledged.value] else []
  {
    hide Lawful, FileOf, Chained, Read, Holds, Left;
    if held.unacknowledged.None? {
      ReadLeft(codec, data, stored);
      assert held.events + [] == held.events;
    } else {
      var lost: Envelope<Event> :|
        && lost.payload == held.unacknowledged.value
        && Chained(stored + [lost]) && Holds(codec, data, stored + [lost]);
      ReadHeld(codec, data, stored + [lost], None);
      assert Payloads(stored + [lost]) == Payloads(stored) + [lost.payload];
    }
  }

  // ---------------------------------------------------------------- lifetimes of a file

  /** Any file this program leaves behind: chained records, the last one possibly unfinished. */
  ghost predicate Left<P(!new)>(codec: Codec<P>, data: seq<Byte>, rs: seq<Envelope<P>>) {
    Chained(rs) && (Holds(codec, data, rs) || exists lost :: Torn(codec, data, rs, lost))
  }

  lemma {:induction false} ReadLeft<P(!new)>(codec: Codec<P>, data: seq<Byte>, rs: seq<Envelope<P>>)
    requires Lawful(codec) && Left(codec, data, rs)
    ensures var read := Read(codec, data, None);
            && read.Ok? && read.value.events == rs
            && (read.value.tail.None? ==> Holds(codec, data, rs))
            && (read.value.tail.Some? ==>
                  read.value.tail.value.offset <= |data| && data[..read.value.tail.value.offset] == FileOf(codec, rs))
  {
    if Holds(codec, data, rs) {
      ReadHeld(codec, data, rs, None);
    } else {
      var lost :| Torn(codec, data, rs, lost);
      ReadTorn(codec, data, rs, lost, None);
    }
  }

  /** discard_incomplete_tail: complete records are not touched. */
  method DiscardIncompleteTail<P(!new)>(codec: Codec<P>, disk: Disk, ghost rs: seq<Envelope<P>>)
    requires Lawful(codec) && Left(codec, disk.data, rs)
    modifies disk
    ensures Holds(codec, disk.data, rs)
    ensures old(Holds(codec, disk.data, rs)) ==> disk.data == old(disk.data) || disk.data == FileOf(codec, rs)
  {
    ReadLeft(codec, disk.data, rs);
    var read := ReadSession(codec, disk.data, None);
    if read.value.tail.Some? {
      disk.data := disk.data[..read.value.tail.value.offset];
    }
  }

  lemma {:induction false} FailedLeft<P(!new)>(codec: Codec<P>, data: seq<Byte>, stored: seq<Envelope<P>>)
    returns (left: seq<Envelope<P>>)
    requires Chained(stored) && exists lost :: AfterFailure(codec, data, stored, lost)
    ensures Left(codec, data, left) && stored <= left && |left| <= |stored| + 1
  {
    left := stored;
    var lost :| AfterFailure(codec, data, stored, lost);
    if Holds(codec, data, stored + [lost]) && Chained(stored + [lost]) {
      left := stored + [lost];
    }
  }

  /** One process on the file: discard, open, append until done or until a write fails. */
  method StoreLifetime<P(!new)>(codec: Codec<P>, disk: Disk, bound: P -> P, ofSession: nat, payloads: seq<P>,
                                ghost rs: seq<Envelope<P>>)
    returns (ghost acknowledged: seq<Envelope<P>>, ghost left: seq<Envelope<P>>)
    requires Lawful(codec) && Left(codec, disk.data, rs)
    modifies disk
    ensures Left(codec, disk.data, left)
    ensures rs <= acknowledged <= left && |left| <= |acknowledged| + 1
  {
    hide Lawful, EventIds, FileOf, Torn, AfterFailure;
    DiscardIncompleteTail(codec, disk, rs);
    ReadHeld(codec, disk.data, rs, None);
    var read := ReadSession(codec, disk.data, None);
    var store := new Store.Opened(codec, disk, bound, None, read.value);
    var i := 0;
    while i < |payloads|
      invariant i <= |payloads| && fresh(store) && store.disk == disk && store.codec == codec
      invariant store.Valid() && rs <= store.stored
      invariant !store.writeFailed && store.tail.None?
    {
      var appended := store.Append(ofSession, None, payloads[i]);
      if appended.Err? {
        acknowledged, left := store.stored, store.stored;
        if appended.error.WriteFailed? {
          left := FailedLeft(codec, disk.data, store.stored);
        }
        return;
      }
      i := i + 1;
    }
    acknowledged, left := store.stored, store.stored;
  }

  /** Durable append-only log: over any number of processes, each of which may die in the middle of a
      write, the records of every later reading extend the records that were acknowledged or read
      before, and their sequences are exactly 1..n. */
  method StoreLifetimes<P(!new)>(codec: Codec<P>, disk: Disk, bound: P -> P, ofSession: nat, lives: seq<seq<P>>)
    returns (ghost logs: seq<seq<Envelope<P>>>, final: Result<ReadResult<P>, ReadError>)
    requires Lawful(codec) && disk.data == []
    modifies disk
    ensures |logs| == |lives|
    ensures forall i, j :: 0 <= i < j < |logs| ==> logs[i] <= logs[j]
    ensures final.Ok? && forall i :: 0 <= i < |logs| ==> logs[i] <= final.value.events
    ensures forall i :: 0 <= i < |final.value.events| ==> final.value.events[i].sequence == i + 1
  {
    ghost var rs: seq<Envelope<P>> := [];
    logs := [];
    assert Holds(codec, disk.data, rs);
    for n := 0 to |lives|
      invariant Left(codec, disk.data, rs) && |logs| == n
      invariant forall i, j :: 0 <= i < j < |logs| ==> logs[i] <= logs[j]
      invariant forall i :: 0 <= i < |logs| ==> logs[i] <= rs
    {
      ghost var acknowledged, left := StoreLifetime(codec, disk, bound, ofSession, lives[n], rs);
      logs, rs := logs + [acknowledged], left;
    }
    ReadLeft(codec, disk.data, rs);
    final := ReadSession(codec, disk.data, None);
  }
}
