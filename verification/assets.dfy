/**
 * The generated in-memory file system that serves the bot's templates and static files:
 * a map from cleaned path to directory, plain file or gzip-compressed file, and the
 * cursors of opened directories (`Seek`, `Readdir`) and opened compressed files (`Seek`,
 * `Read`). Decompression is abstracted: a compressed file is given by the bytes its gzip
 * stream yields, and the gzip reader by its position in them.
 */
module Assets {
  import opened Wrappers

  /** Go's `io.SeekStart`, `io.SeekCurrent` and `io.SeekEnd`. */
  const SeekStart := 0
  const SeekCurrent := 1
  const SeekEnd := 2

  /** A static file description; a compressed file records the size it decompresses to. */
  datatype Info =
    | DirInfo(name: string, entries: seq<Info>)
    | FileInfo(name: string, content: seq<bv8>)
    | CompressedInfo(name: string, data: seq<bv8>, uncompressedSize: int)

  /** The generator writes each compressed file's true decompressed size. */
  predicate WellFormed(i: Info) {
    i.CompressedInfo? ==> i.uncompressedSize == |i.data|
  }

  /** The bytes a file holds once decompressed; a directory holds none. */
  function Bytes(i: Info): seq<bv8> {
    match i
    case DirInfo(_, _) => []
    case FileInfo(_, content) => content
    case CompressedInfo(_, data, _) => data
  }

  /** `Size()` of each kind of file description. */
  function Size(i: Info): int {
    match i
    case DirInfo(_, _) => 0
    case FileInfo(_, content) => |content|
    case CompressedInfo(_, _, size) => size
  }

  /** The size a file reports is the number of bytes it holds; a directory reports 0. */
  lemma SizeIsContentLength(i: Info)
    requires WellFormed(i)
    ensures Size(i) == |Bytes(i)|
    ensures i.DirInfo? ==> Size(i) == 0
  {
  }

  /** `os.PathError`, for the only error `Open` reports: the path does not exist. */
  datatype PathError = PathError(op: string, path: string, notExist: bool)

  /** `Open`, given the path after cleaning: the file at that path, or a not-exist error. */
  function Open(fs: map<string, Info>, cleaned: string): (r: Result<Info, PathError>)
    ensures r.Failure? <==> cleaned !in fs
    ensures r.Failure? ==> r.error == PathError("open", cleaned, true)
    ensures r.Success? ==> r.value == fs[cleaned]
  {
    if cleaned in fs then Success(fs[cleaned]) else Failure(PathError("open", cleaned, true))
  }

  /** What a `Readdir` reports: its entries, the position after it, and whether it hit EOF. */
  datatype Chunk = Chunk(entries: seq<Info>, pos: int, eof: bool)

  /**
   * `Readdir(count)` at position `pos`: EOF when nothing remains and `count` is positive;
   * otherwise the next `count` entries, or all remaining ones when `count` is not positive
   * or exceeds them.
   */
  function ReaddirStep(entries: seq<Info>, pos: int, count: int): (r: Chunk)
    requires 0 <= pos <= |entries|
    ensures r.eof <==> pos == |entries| && count > 0
    ensures r.eof ==> r.entries == [] && r.pos == pos
    ensures !r.eof ==> pos <= r.pos <= |entries| && r.entries == entries[pos..r.pos]
    ensures !r.eof && count > 0 ==> |r.entries| == if count < |entries| - pos then count else |entries| - pos
    ensures count <= 0 ==> r.pos == |entries|
  {
    if pos >= |entries| && count > 0 then Chunk([], pos, true)
    else
      var n := if count <= 0 || count > |entries| - pos then |entries| - pos else count;
      Chunk(entries[pos..pos + n], pos + n, false)
  }

  /** Every entry read by repeated `Readdir(count)` calls from `pos` until EOF. */
  function Chunks(entries: seq<Info>, pos: int, count: int): seq<Info>
    requires 0 <= pos <= |entries| && count > 0
    decreases |entries| - pos
  {
    var r := ReaddirStep(entries, pos, count);
    if r.eof then [] else r.entries + Chunks(entries, r.pos, count)
  }

  /** Reading a directory chunk by chunk until EOF yields each remaining entry once, in order. */
  lemma {:induction false} ChunksCover(entries: seq<Info>, pos: int, count: int)
    requires 0 <= pos <= |entries| && count > 0
    ensures Chunks(entries, pos, count) == entries[pos..]
    decreases |entries| - pos
  {
    var r := ReaddirStep(entries, pos, count);
    if !r.eof {
      ChunksCover(entries, r.pos, count);
      assert entries[pos..r.pos] + entries[r.pos..] == entries[pos..];
    }
  }

  /** An opened directory: its entries and the `Readdir` position. */
  class Dir {
    const name: string
    const entries: seq<Info>
    var pos: int

    ghost predicate Valid()
      reads this
    {
      0 <= pos <= |entries|
    }

    constructor (info: Info)
      requires info.DirInfo?
      ensures Valid() && name == info.name && entries == info.entries && pos == 0
    {
      name := info.name;
      entries := info.entries;
      pos := 0;
    }

    /** `Seek`: only a rewind to the start is supported; anything else leaves the position. */
    method Seek(offset: int, whence: int) returns (r: int, err: Outcome)
      requires Valid()
      modifies this
      ensures Valid() && r == 0
      ensures err.Ok? <==> offset == 0 && whence == SeekStart
      ensures err.Ok? ==> pos == 0
      ensures err.Err? ==> err == Err("unsupported Seek in directory " + name) && pos == old(pos)
    {
      if offset == 0 && whence == SeekStart {
        pos := 0;
        return 0, Ok;
      }
      return 0, Err("unsupported Seek in directory " + name);
    }

    /** `Readdir(count)`: the next chunk of entries; the position never passes the end. */
    method Readdir(count: int) returns (es: seq<Info>, eof: bool)
      requires Valid()
      modifies this
      ensures Valid()
      ensures Chunk(es, pos, eof) == ReaddirStep(entries, old(pos), count)
    {
      if pos >= |entries| && count > 0 {
        return [], true;
      }
      var n := count;
      if count <= 0 || count > |entries| - pos {
        n := |entries| - pos;
      }
      es := entries[pos..pos + n];
      pos := pos + n;
      eof := false;
    }
  }

  /** The end-of-stream report of a read: `io.EOF`, or none. */
  datatype Status = NoError | EOF

  function Min(a: int, b: int): int {
    if a < b then a else b
  }

  /** Where reading starts for a seek position: a negative one rewinds to the start. */
  function ReadStart(seekPos: int): nat {
    if seekPos < 0 then 0 else seekPos
  }

  /**
   * An opened compressed file. `grPos` is where the file believes the gzip reader is,
   * `seekPos` where the next read should start, and `rdPos` where the gzip reader really
   * is in the decompressed bytes. A fast-forward that runs past the end records where the
   * reader stopped, so `grPos` always equals `rdPos`.
   */
  class CompressedFile {
    const name: string
    const data: seq<bv8>
    const size: int
    var grPos: int
    var seekPos: int
    var rdPos: int

    ghost predicate Valid()
      reads this
    {
      size == |data| && 0 <= rdPos <= |data| && grPos == rdPos
    }

    constructor (info: Info)
      requires info.CompressedInfo? && WellFormed(info)
      ensures Valid() && name == info.name && data == info.data
      ensures grPos == 0 && seekPos == 0 && rdPos == 0
    {
      name := info.name;
      data := info.data;
      size := info.uncompressedSize;
      grPos := 0;
      seekPos := 0;
      rdPos := 0;
    }

    /** `Seek`: moves only the seek position, relative to the start, itself or the end. */
    method Seek(offset: int, whence: int) returns (r: int)
      requires Valid()
      requires whence == SeekStart || whence == SeekCurrent || whence == SeekEnd
      modifies this
      ensures Valid() && grPos == old(grPos) && rdPos == old(rdPos)
      ensures whence == SeekStart ==> seekPos == offset
      ensures whence == SeekCurrent ==> seekPos == old(seekPos) + offset
      ensures whence == SeekEnd ==> seekPos == |data| + offset
      ensures r == seekPos
    {
      if whence == SeekStart {
        seekPos := 0 + offset;
      } else if whence == SeekCurrent {
        seekPos := seekPos + offset;
      } else {
        seekPos := size + offset;
      }
      r := seekPos;
    }

    /**
     * `Read` into a buffer of `len` bytes: rewinds when the reader is past the seek
     * position, skips forward to it, then reads. Returns the bytes at the seek position,
     * as many as fit and remain, after which the seek position follows them; a seek
     * position past the end gives EOF and no bytes.
     */
    method Read(len: nat) returns (bytes: seq<bv8>, status: Status)
      requires Valid()
      modifies this
      ensures Valid()
      ensures var start := ReadStart(old(seekPos));
        if start > |data| then
          bytes == [] && status == EOF && seekPos == old(seekPos) && rdPos == |data|
        else
          bytes == data[start..Min(start + len, |data|)]
          && seekPos == grPos == start + |bytes|
          && (status == EOF <==> |bytes| == 0 && len > 0)
    {
      if grPos > seekPos {
        rdPos := 0;
        grPos := 0;
      }
      if grPos < seekPos {
        var skip := seekPos - grPos;
        if |data| - rdPos < skip {
          rdPos := |data|;
          grPos := rdPos;
          return [], EOF;
        }
        rdPos := rdPos + skip;
        grPos := seekPos;
      }
      var n := Min(len, |data| - rdPos);
      bytes := data[rdPos..rdPos + n];
      rdPos := rdPos + n;
      grPos := grPos + n;
      seekPos := grPos;
      status := if n == 0 && len > 0 then EOF else NoError;
    }
  }

  /** The three positions of an opened compressed file, as plain values. */
  datatype Cursor = Cursor(grPos: int, seekPos: int, rdPos: int)

  /** What a read returns: the cursor afterwards, the bytes read and the end-of-stream report. */
  datatype ReadResult = ReadResult(cursor: Cursor, bytes: seq<bv8>, status: Status)

  /** The bytes the gzip reader yields from `c`'s position, and the cursor after them. */
  function ReadFrom(data: seq<bv8>, c: Cursor, len: nat): (r: ReadResult)
    requires 0 <= c.rdPos <= |data|
    ensures c.rdPos + |r.bytes| <= |data| && r.bytes == data[c.rdPos..c.rdPos + |r.bytes|]
    ensures |r.bytes| == Min(len, |data| - c.rdPos)
    ensures r.cursor == Cursor(c.grPos + |r.bytes|, c.grPos + |r.bytes|, c.rdPos + |r.bytes|)
    ensures r.status == EOF <==> r.bytes == [] && len > 0
  {
    var n := Min(len, |data| - c.rdPos);
    ReadResult(Cursor(c.grPos + n, c.grPos + n, c.rdPos + n), data[c.rdPos..c.rdPos + n],
      if n == 0 && len > 0 then EOF else NoError)
  }

  /**
   * `Read` as the generated code has it: when the fast-forward runs past the end, the error
   * is returned before `grPos` is updated, so `grPos` stays behind while the gzip reader
   * sits at the end.
   */
  function ReadAsWritten(data: seq<bv8>, c: Cursor, len: nat): (r: ReadResult)
    requires 0 <= c.rdPos <= |data|
    ensures |r.bytes| <= len && |r.bytes| <= r.cursor.rdPos <= |data|
    ensures r.bytes == data[r.cursor.rdPos - |r.bytes|..r.cursor.rdPos]
    ensures r.status == EOF ==> r.bytes == []
  {
    var c1 := if c.grPos > c.seekPos then c.(grPos := 0, rdPos := 0) else c;
    if c1.grPos < c1.seekPos then
      var skip := c1.seekPos - c1.grPos;
      if |data| - c1.rdPos < skip then ReadResult(c1.(rdPos := |data|), [], EOF)
      else ReadFrom(data, c1.(rdPos := c1.rdPos + skip, grPos := c1.seekPos), len)
    else ReadFrom(data, c1, len)
  }

  /**
   * While the reader's two positions agree and the seek position is not past the end, the
   * code as written reads the bytes at the seek position and keeps the positions in step.
   */
  lemma AsWrittenWhileSynced(data: seq<bv8>, c: Cursor, len: nat)
    requires 0 <= c.rdPos <= |data| && c.grPos == c.rdPos && c.seekPos <= |data|
    ensures var r := ReadAsWritten(data, c, len); var start := ReadStart(c.seekPos);
      r.bytes == data[start..Min(start + len, |data|)]
      && r.cursor.grPos == r.cursor.rdPos == r.cursor.seekPos == start + |r.bytes|
  {
    var r := ReadAsWritten(data, c, len);
    if c.grPos > c.seekPos {
      if c.seekPos > 0 {
        assert r == ReadFrom(data, Cursor(c.seekPos, c.seekPos, c.seekPos), len);
      } else {
        assert r == ReadFrom(data, Cursor(0, c.seekPos, 0), len);
      }
    } else if c.grPos < c.seekPos {
      assert r == ReadFrom(data, Cursor(c.seekPos, c.seekPos, c.seekPos), len);
    }
  }

  /**
   * On a three-byte file: seek to 200, read (EOF), seek back to 0 and read three bytes. The
   * code as written returns no bytes and EOF the second time, though the file starts with
   * three bytes.
   */
  lemma StaleReaderAfterOverlongSeek()
    ensures var data: seq<bv8> := [1, 2, 3];
      var first := ReadAsWritten(data, Cursor(0, 200, 0), 3);
      var second := ReadAsWritten(data, first.cursor.(seekPos := 0), 3);
      first.status == EOF && first.cursor == Cursor(0, 200, 3)
      && second.bytes == [] && second.status == EOF
      && data[ReadStart(0)..Min(ReadStart(0) + 3, |data|)] == [1, 2, 3]
  {
  }
}
