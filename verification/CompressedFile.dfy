/** Seekable files over a forward-only gzip stream, and directories
    (pkg/crd/crd_vfsdata.go; the other generated file systems are alike). */
module CompressedFile {
  import opened Objects

  type Byte = x: int | 0 <= x < 256

  const MAX_INT64: int := 0x7FFF_FFFF_FFFF_FFFF

  /** The result of an int64 addition. */
  function Wrap(x: int): (r: int)
    ensures -MAX_INT64 - 1 <= r <= MAX_INT64
    ensures -MAX_INT64 - 1 <= x <= MAX_INT64 ==> r == x
    ensures (x - r) % (2 * (MAX_INT64 + 1)) == 0
  {
    assert x == (x + MAX_INT64 + 1) % (2 * (MAX_INT64 + 1)) - MAX_INT64 - 1
                + (x + MAX_INT64 + 1) / (2 * (MAX_INT64 + 1)) * (2 * (MAX_INT64 + 1));
    (x + MAX_INT64 + 1) % (2 * (MAX_INT64 + 1)) - MAX_INT64 - 1
  }

  /** gzip.Reader over content that is known to be valid: reads go forward only
      and may be short; the end may be reported with the last bytes or after
      them; Reset starts over. */
  class GzipReader {
    const content: seq<Byte>
    var pos: nat

    ghost predicate Valid()
      reads this
    {
      pos <= |content| <= MAX_INT64
    }

    constructor (content: seq<Byte>)
      requires |content| <= MAX_INT64
      ensures Valid() && this.content == content && pos == 0
    {
      this.content, pos := content, 0;
    }

    method Reset()
      requires Valid()
      modifies this
      ensures Valid() && pos == 0
    {
      pos := 0;
    }

    method Read(len: nat) returns (data: seq<Byte>, eof: bool)
      requires Valid()
      modifies this
      ensures Valid() && pos == old(pos) + |data| && data == content[old(pos)..pos]
      ensures |data| <= len
      ensures data == [] && len > 0 ==> eof
      ensures eof ==> pos == |content|
    {
      var n: int := *;
      eof := *;
      var most := if len <= |content| - pos then len else |content| - pos;
      if n <= 0 || n > most {
        n := most;
      }
      var end := pos + n;
      data := content[pos..end];
      pos := end;
      if pos != |content| {
        eof := false;
      } else if n == 0 && len > 0 {
        eof := true;
      }
    }
  }

  const COPY_BUFFER: nat := 8192

  /** io.CopyN to io.Discard: reads until n bytes are gone or the stream ends. */
  method CopyN(gr: GzipReader, n: nat) returns (written: nat)
    requires gr.Valid()
    modifies gr
    ensures gr.Valid() && gr.pos == old(gr.pos) + written
    ensures written == if n <= |gr.content| - old(gr.pos) then n else |gr.content| - old(gr.pos)
  {
    written := 0;
    var eof := false;
    while written < n && !eof
      invariant gr.Valid() && gr.pos == old(gr.pos) + written && written <= n
      invariant eof ==> gr.pos == |gr.content|
      decreases n - written, !eof
    {
      var data;
      data, eof := gr.Read(if n - written < COPY_BUFFER then n - written else COPY_BUFFER);
      written := written + |data|;
    }
  }

  datatype Whence = SeekStart | SeekCurrent | SeekEnd

  /** Where a seek goes from `pos` in a file of this size. */
  function Destination(size: nat, pos: int, offset: int, whence: Whence): int {
    match whence
    case SeekStart => offset
    case SeekCurrent => pos + offset
    case SeekEnd => size + offset
  }

  /** The opened compressed file. */
  class File {
    const gr: GzipReader
    var grPos: int
    var seekPos: int

    /** The recorded position of the stream is its true position. */
    ghost predicate Tracks()
      reads this, gr
    {
      grPos == gr.pos
    }

    /** The stream was run to its end, but the file believes it to be earlier. */
    ghost predicate Lost()
      reads this, gr
    {
      0 <= grPos < gr.pos == |gr.content|
    }

    ghost predicate Valid()
      reads this, gr
    {
      gr.Valid() && (Tracks() || Lost())
    }

    constructor (content: seq<Byte>)
      requires |content| <= MAX_INT64
      ensures Valid() && Tracks() && fresh(gr) && gr.content == content && seekPos == 0 == grPos
    {
      gr := new GzipReader(content);
      grPos, seekPos := 0, 0;
    }

    /** Where the next read should start: a negative position counts as the
        beginning. */
    function Target(): int
      reads this
    {
      if seekPos < 0 then 0 else seekPos
    }

    /** A read from a position inside the file, on a file that has not lost its
        position or goes back to an earlier one, returns the next bytes. Any other
        read returns nothing and reports the end. The file loses its position
        exactly when it is asked to read from beyond the end while the stream
        is not at the end. */
    method Read(len: nat) returns (data: seq<Byte>, eof: bool)
      requires Valid()
      modifies this, gr
      ensures Valid()
      ensures var start := old(Target());
              if start <= |gr.content| && (old(Tracks()) || old(seekPos) < old(grPos)) then
                && Tracks() && |data| <= len && start + |data| == seekPos <= |gr.content|
                && data == gr.content[start..seekPos]
                && (data == [] && len > 0 ==> eof) && (eof ==> seekPos == |gr.content|)
              else
                && data == [] && (len > 0 ==> eof) && seekPos == old(seekPos) && grPos == old(grPos)
                && (Tracks() <==> old(Tracks()) && old(grPos) == |gr.content|)
    {
      if grPos > seekPos {
        gr.Reset();
        grPos := 0;
      }
      if grPos < seekPos {
        var written := CopyN(gr, seekPos - grPos);
        if written < seekPos - grPos {
          return [], true;
        }
        grPos := seekPos;
      }
      data, eof := gr.Read(len);
      grPos := grPos + |data|;
      seekPos := grPos;
    }

    method Seek(offset: int, whence: Whence) returns (position: int)
      requires Valid()
      modifies this`seekPos
      ensures Valid() && position == seekPos
      ensures seekPos == Wrap(Destination(|gr.content|, old(seekPos), offset, whence))
      ensures Tracks() == old(Tracks())
    {
      match whence {
        case SeekStart => seekPos := Wrap(offset);
        case SeekCurrent => seekPos := Wrap(seekPos + offset);
        case SeekEnd => seekPos := Wrap(|gr.content| + offset);
      }
      return seekPos;
    }

    /** One operation after the other, keeping the answers. */
    method Perform(ops: seq<Op>) returns (answers: seq<Answer>)
      requires Valid() && Tracks() && seekPos == 0
      modifies this, gr
      ensures Valid() && |answers| == |ops|
      ensures InRange(gr.content, ops, answers) ==> Tracks() && LikeBytes(gr.content, ops, answers)
    {
      answers := [];
      for i := 0 to |ops|
        invariant Valid() && |answers| == i
        invariant InRange(gr.content, ops[..i], answers) ==>
                    Tracks() && seekPos == Cursor(gr.content, ops[..i], answers)
                        && LikeBytes(gr.content, ops[..i], answers)
      {
        ghost var before := answers;
        assert ops[..i + 1] == ops[..i] + [ops[i]];
        match ops[i] {
          case ReadUpTo(len) =>
            var data, eof := Read(len);
            answers := answers + [Bytes(data, eof)];
          case SeekTo(offset, whence) =>
            var position := Seek(offset, whence);
            answers := answers + [Position(position)];
        }
        OneMore(gr.content, ops[..i], before, ops[i], answers[i]);
      }
      assert ops[..|ops|] == ops;
    }
  }

  // ---- A cursor over a byte array -------------------------------------------------

  datatype Op = ReadUpTo(len: nat) | SeekTo(offset: int, whence: Whence)

  datatype Answer = Bytes(data: seq<Byte>, eof: bool) | Position(position: int)

  /** Where a plain cursor at `pos` stands after one operation. */
  function Moved(content: seq<Byte>, pos: int, op: Op, answer: Answer): int {
    match op
    case ReadUpTo(_) => if answer.Bytes? then pos + |answer.data| else pos
    case SeekTo(offset, whence) => Destination(|content|, pos, offset, whence)
  }

  /** Where a plain cursor stands after these operations and answers. */
  function Cursor(content: seq<Byte>, ops: seq<Op>, answers: seq<Answer>): int
    requires |ops| == |answers|
  {
    if ops == [] then 0
    else
      Moved(content, Cursor(content, ops[..|ops| - 1], answers[..|ops| - 1]), ops[|ops| - 1], answers[|ops| - 1])
  }

  /** The cursor always stays between the beginning and the end. */
  predicate InRange(content: seq<Byte>, ops: seq<Op>, answers: seq<Answer>)
    requires |ops| == |answers|
  {
    && 0 <= Cursor(content, ops, answers) <= |content| <= MAX_INT64
    && (ops == [] || InRange(content, ops[..|ops| - 1], answers[..|ops| - 1]))
  }

  /** What a cursor at `pos` may answer. Reads may be short, but a read that
      wants bytes and gets none has reached the end. */
  predicate AnswerOk(content: seq<Byte>, pos: int, after: int, op: Op, answer: Answer)
    requires 0 <= pos <= |content|
  {
    match op
    case SeekTo(_, _) => answer == Position(after)
    case ReadUpTo(len) =>
      && answer.Bytes? && |answer.data| <= len && pos + |answer.data| <= |content|
      && answer.data == content[pos..pos + |answer.data|]
      && (answer.data == [] && len > 0 ==> answer.eof)
      && (answer.eof ==> pos + |answer.data| == |content|)
  }

  /** Every answer is one that a cursor over the bytes could give. */
  predicate LikeBytes(content: seq<Byte>, ops: seq<Op>, answers: seq<Answer>)
    requires |ops| == |answers| && InRange(content, ops, answers)
  {
    ops == [] ||
    var front, frontAnswers := ops[..|ops| - 1], answers[..|ops| - 1];
    && LikeBytes(content, front, frontAnswers)
    && AnswerOk(content, Cursor(content, front, frontAnswers), Cursor(content, ops, answers), ops[|ops| - 1],
        answers[|ops| - 1])
  }

  lemma OneMore(content: seq<Byte>, ops: seq<Op>, answers: seq<Answer>, op: Op, answer: Answer)
    requires |ops| == |answers|
    ensures Cursor(content, ops + [op], answers + [answer]) == Moved(content, Cursor(content, ops, answers), op, answer)
    ensures InRange(content, ops + [op], answers + [answer]) <==>
              InRange(content, ops, answers)
                  && 0 <= Moved(content, Cursor(content, ops, answers), op, answer) <= |content|
    ensures InRange(content, ops + [op], answers + [answer]) && LikeBytes(content, ops, answers)
            && AnswerOk(content, Cursor(content, ops, answers),
                Moved(content, Cursor(content, ops, answers), op, answer), op, answer) ==>
              LikeBytes(content, ops + [op], answers + [answer])
  {
    assert (ops + [op])[..|ops|] == ops && (answers + [answer])[..|answers|] == answers;
  }

  /** Without seeks the bytes read are a prefix of the content. */
  function AllBytes(answers: seq<Answer>): seq<Byte> {
    if answers == [] then []
    else AllBytes(answers[..|answers| - 1]) + if answers[|answers| - 1].Bytes? then answers[|answers| - 1].data else []
  }

  lemma {:induction false} ReadingInOrder(content: seq<Byte>, ops: seq<Op>, answers: seq<Answer>)
    requires |ops| == |answers| && InRange(content, ops, answers) && LikeBytes(content, ops, answers)
    requires forall op :: op in ops ==> op.ReadUpTo?
    ensures AllBytes(answers) == content[..Cursor(content, ops, answers)]
  {
    if ops != [] {
      var front := ops[..|ops| - 1];
      assert ops[|ops| - 1] in ops;
      assert forall op :: op in front ==> op in ops;
      ReadingInOrder(content, front, answers[..|ops| - 1]);
    }
  }

  /** Reading once from beyond the end spoils a fresh file: back at the beginning
      it reads nothing, whatever its content. A cursor over the bytes would
      return the first of them. */
  method ReadAfterOvershoot(content: seq<Byte>, beyond: int) returns (first: Answer, second: Answer)
    requires 0 < |content| < beyond <= MAX_INT64
    ensures first == second == Bytes([], true)
  {
    var file := new File(content);
    var _ := file.Seek(beyond, SeekStart);
    var data, eof := file.Read(1);
    first := Bytes(data, eof);
    var _ := file.Seek(0, SeekStart);
    data, eof := file.Read(1);
    second := Bytes(data, eof);
  }

  /** A seek from the end goes to the last n bytes, and a read then begins with
      them. */
  method ReadTail(content: seq<Byte>, n: int) returns (data: seq<Byte>)
    requires 0 < n <= |content| <= MAX_INT64
    ensures data != [] && data <= content[|content| - n..]
  {
    var file := new File(content);
    var position := file.Seek(-n, SeekEnd);
    assert position == |content| - n;
    var eof;
    data, eof := file.Read(n);
    assert data == content[|content| - n..file.seekPos];
  }

  // ---- Directories -------------------------------------------------------------------

  /** The opened directory. */
  class Dir {
    const entries: seq<string>
    var pos: nat

    constructor (entries: seq<string>)
      ensures this.entries == entries && pos == 0
    {
      this.entries, pos := entries, 0;
    }

    method Seek(offset: int, whence: Whence) returns (ok: bool)
      modifies this
      ensures ok <==> offset == 0 && whence == SeekStart
      ensures pos == if ok then 0 else old(pos)
    {
      if offset == 0 && whence == SeekStart {
        pos := 0;
        return true;
      }
      return false;
    }

    /** None is io.EOF. */
    method Readdir(count: int) returns (e: Option<seq<string>>)
      requires pos <= |entries|
      modifies this
      ensures e.None? <==> old(pos) == |entries| && count > 0
      ensures old(pos) <= pos <= |entries|
      ensures e.None? ==> pos == old(pos)
      ensures e.Some? ==> e.value == entries[old(pos)..pos]
      ensures e.Some? ==> if count > 0 then 0 < |e.value| <= count && (|e.value| < count ==> pos == |entries|)
          else pos == |entries|
    {
      if pos >= |entries| && count > 0 {
        return None;
      }
      var n := count;
      if n <= 0 || n > |entries| - pos {
        n := |entries| - pos;
      }
      var read := entries[pos..pos + n];
      pos := pos + n;
      return Some(read);
    }

    /** Reading in chunks of any positive sizes lists every entry once, in order. */
    method ReadAll(chunk: int) returns (names: seq<string>)
      requires pos == 0 && chunk > 0
      modifies this
      ensures names == entries && pos == |entries|
    {
      names := [];
      var done := false;
      while !done
        invariant pos <= |entries| && names == entries[..pos]
        invariant done ==> pos == |entries|
        decreases |entries| - pos, !done
      {
        var e := Readdir(chunk);
        match e
        case None => done := true;
        case Some(read) => names := names + read;
      }
    }
  }
}
