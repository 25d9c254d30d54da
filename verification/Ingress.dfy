/** Reading a request body into no more memory than was reserved for it. */
module Ingress {
  import opened Policy
  import opened ByteBudget

  datatype Ending = Going | Eof | UnexpectedEof | Broken | NoProgress

  /** What the connection does on one read: at most so many bytes, possibly with an error. An eager
      one reports the end together with the last bytes. */
  datatype Chunk = Chunk(n: nat, broken: bool, eager: bool)

  /** What the connection does, read by read; after that its read deadline makes every read fail. */
  type Connection = seq<Chunk>

  function Reply(conn: Connection, k: nat): Chunk { if k < |conn| then conn[k] else Chunk(0, true, false) }

  const EMPTY_READS := 100
  const FIRST_BUFFER := 4096

  function Least(a: int, b: int): int { if a < b then a else b }

  /** One read into `room` bytes, `pos` bytes of the stream having been read before. */
  function Delivered(data: string, pos: nat, room: nat, c: Chunk): (r: (nat, Ending))
    requires pos <= |data|
    ensures r.0 <= room && pos + r.0 <= |data|
  {
    var n := Least(c.n, Least(room, |data| - pos));
    (n, if c.broken then Broken else if pos == |data| || (c.eager && pos + n == |data|) then Eof else Going)
  }

  /** Copies the bytes of one read behind those already there. */
  method Fill(buf: array<char>, len: nat, data: string, n: nat)
    requires len + n <= buf.Length && len + n <= |data| && buf[..len] == data[..len]
    modifies buf
    ensures buf[..len+n] == data[..len+n]
  {
    var i := 0;
    while i < n
      invariant 0 <= i <= n && buf[..len+i] == data[..len+i]
    {
      buf[len+i] := data[len+i];
      i := i + 1;
    }
  }

  method Grow(buf: array<char>, len: nat, limit: nat, ghost data: string) returns (next: array<char>)
    requires len == buf.Length < limit && buf.Length >= 1 && len <= |data| && buf[..len] == data[..len]
    ensures fresh(next) && len < next.Length <= limit && next.Length <= 2 * buf.Length && next[..len] == data[..len]
  {
    next := new char[Least(2 * buf.Length, limit)];
    var i := 0;
    while i < len
      invariant 0 <= i <= len && next[..i] == buf[..i]
    {
      next[i] := buf[i];
      i := i + 1;
    }
    assert next[..len] == buf[..len];
  }

  /** A body of unknown length: the buffer doubles with the bytes that arrive and stops one byte
      over the size. */
  method ReadChunked(data: string, conn: Connection, size: nat) returns (buf: array<char>, len: nat, ending: Ending)
    ensures fresh(buf) && len <= buf.Length <= size + 1 && len <= |data| && buf[..len] == data[..len]
    ensures buf.Length <= FIRST_BUFFER || buf.Length <= 2 * len
    ensures ending == Going ==> len == size + 1 || len == |data|
    ensures ending in {Going, Broken, NoProgress}
  {
    var limit := size + 1;
    buf, len := new char[Least(FIRST_BUFFER, limit)], 0;
    var emptyReads, k := 0, 0;
    while len < limit
      invariant fresh(buf) && 1 <= buf.Length <= limit && len <= buf.Length && len <= |data| && buf[..len] == data[..len]
      invariant buf.Length <= FIRST_BUFFER || buf.Length <= 2 * len
      invariant 0 <= emptyReads < EMPTY_READS && 0 <= k
      decreases limit - len, EMPTY_READS - emptyReads
    {
      if len == buf.Length {
        buf := Grow(buf, len, limit, data);
      }
      var (n, stop) := Delivered(data, len, buf.Length - len, Reply(conn, k));
      Fill(buf, len, data, n);
      len, k := len + n, k + 1;
      if stop == Eof {
        return buf, len, Going;
      }
      if stop == Broken {
        return buf, len, Broken;
      }
      if n == 0 {
        emptyReads := emptyReads + 1;
        if emptyReads == EMPTY_READS {
          return buf, len, NoProgress;
        }
      } else {
        emptyReads := 0;
      }
    }
    return buf, len, Going;
  }

  /** A body of declared length: one buffer, filled until it is full or the stream stops. */
  method ReadDeclared(data: string, conn: Connection, size: nat) returns (buf: array<char>, len: nat, ending: Ending)
    ensures fresh(buf) && buf.Length == size + 1 && len <= buf.Length && len <= |data| && buf[..len] == data[..len]
    ensures ending == Going ==> len == size + 1
    ensures ending in {Eof, UnexpectedEof} ==> len == |data| && (ending == Eof <==> len == 0)
    ensures ending in {Going, Eof, UnexpectedEof, Broken}
  {
    buf, len := new char[size + 1], 0;
    var k := 0;
    while len < size + 1
      invariant fresh(buf) && buf.Length == size + 1 && len <= buf.Length && len <= |data| && buf[..len] == data[..len] && 0 <= k <= |conn| + 1
      decreases |conn| + 1 - k
    {
      var (n, stop) := Delivered(data, len, buf.Length - len, Reply(conn, k));
      Fill(buf, len, data, n);
      len, k := len + n, k + 1;
      if stop != Going && len < size + 1 {
        return buf, len, if stop == Broken then Broken else if len == 0 then Eof else UnexpectedEof;
      }
    }
    return buf, len, Going;
  }

  /** Both ways of reading leave no more than was reserved: the bytes are a prefix of the stream, and
      keeping buffer and copy is always less than the first reservation. */
  method ReadIngressBody(data: string, conn: Connection, size: nat, chunked: bool) returns (buf: array<char>, len: nat, ending: Ending)
    ensures fresh(buf) && len <= buf.Length <= size + 1 && len <= |data| && buf[..len] == data[..len]
    ensures len <= size ==> Retained(buf.Length, len) < BodyAmount(size)
    ensures len > size ==> |data| > size
    ensures ending !in {Broken, NoProgress} && len <= size ==> buf[..len] == data
  {
    if chunked {
      buf, len, ending := ReadChunked(data, conn, size);
    } else {
      buf, len, ending := ReadDeclared(data, conn, size);
    }
    if len <= size {
      ShrinkGivesBack(size, buf.Length, len);
    }
  }
}
