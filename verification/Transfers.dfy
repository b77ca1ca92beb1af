/**
 Chunked transfers: the loops that cut files and clipboard items into chunks, the checks of the
 receiving side, and the reassembly of what was received.
 */
module Transfers {
  import opened Common

  type Bytes = seq<bv8>

  datatype Chunk = Chunk(fileId: string, offset: nat, data: Bytes)

  datatype TransferError = UnknownFile | ChunkSize | NotContiguous | EndedEarly | SizeChanged

  // ---------------------------------------------------------------- streams

  /** The data of chunks, end to end. */
  function DataOf(chunks: seq<Chunk>): Bytes {
    if chunks == [] then [] else DataOf(chunks[..|chunks| - 1]) + chunks[|chunks| - 1].data
  }

  /** Non-empty chunks, each of which starts where the previous one ended. */
  predicate Contiguous(chunks: seq<Chunk>) {
    chunks == [] ||
    var last := chunks[|chunks| - 1];
    Contiguous(chunks[..|chunks| - 1]) && last.data != [] && last.offset == |DataOf(chunks[..|chunks| - 1])|
  }

  /** The chunks of one file, in the order of the stream. */
  function ChunksFor(stream: seq<Chunk>, fileId: string): seq<Chunk> {
    if stream == [] then []
    else
      ChunksFor(stream[..|stream| - 1], fileId)
      + if stream[|stream| - 1].fileId == fileId then [stream[|stream| - 1]] else []
  }

  predicate Bounded(chunks: seq<Chunk>, maxChunkBytes: Option<nat>) {
    maxChunkBytes.Some? ==> forall i :: 0 <= i < |chunks| ==> |chunks[i].data| <= maxChunkBytes.value
  }

  /** The chunks of a stream for one file cut its data, in order and without gaps. */
  predicate Cuts(stream: seq<Chunk>, fileId: string, data: Bytes) {
    Contiguous(ChunksFor(stream, fileId)) && DataOf(ChunksFor(stream, fileId)) == data
  }

  lemma Snoc(chunks: seq<Chunk>, c: Chunk)
    ensures DataOf(chunks + [c]) == DataOf(chunks) + c.data
    ensures Contiguous(chunks + [c]) <==> Contiguous(chunks) && c.data != [] && c.offset == |DataOf(chunks)|
  {
    assert (chunks + [c])[..|chunks|] == chunks;
  }

  lemma ChunksForSnoc(stream: seq<Chunk>, c: Chunk, fileId: string)
    ensures ChunksFor(stream + [c], fileId) == ChunksFor(stream, fileId) + if c.fileId == fileId then [c] else []
  {
    assert (stream + [c])[..|stream|] == stream;
  }

  lemma CutsAppend(stream: seq<Chunk>, c: Chunk, fileId: string, data: Bytes)
    requires Cuts(stream, fileId, data)
    ensures c.fileId != fileId ==> Cuts(stream + [c], fileId, data)
    ensures c.fileId == fileId && c.data != [] && c.offset == |data| ==> Cuts(stream + [c], fileId, data + c.data)
  {
    var chunks := ChunksFor(stream, fileId);
    ChunksForSnoc(stream, c, fileId);
    Snoc(chunks, c);
    assert chunks + [] == chunks;
  }

  // ---------------------------------------------------------------- senders

  datatype SourceFile = SourceFile(fileId: string, data: Bytes)

  predicate DistinctFiles(files: seq<SourceFile>) {
    forall i, j :: 0 <= i < j < |files| ==> files[i].fileId != files[j].fileId
  }

  function FileIds(files: seq<SourceFile>): set<string> {
    set file | file in files :: file.fileId
  }

  /** Every chunk names one of the files. */
  predicate FromFiles(stream: seq<Chunk>, fileIds: set<string>) {
    forall i :: 0 <= i < |stream| ==> stream[i].fileId in fileIds
  }

  /** The first `k` files are sent, and `part` of the next one. */
  predicate SentSoFar(files: seq<SourceFile>, stream: seq<Chunk>, k: nat, part: nat) {
    && (forall i {:trigger SentOf(files, i, k, part)} :: 0 <= i < |files| ==> Cuts(stream, files[i].fileId, SentOf(files, i, k, part)))
    && FromFiles(stream, FileIds(files))
  }

  function SentOf(files: seq<SourceFile>, i: nat, k: nat, part: nat): Bytes
    requires i < |files|
  {
    if i < k then files[i].data else if i == k then files[i].data[..Least(part, |files[i].data|)] else []
  }

  lemma SendOne(files: seq<SourceFile>, stream: seq<Chunk>, k: nat, part: nat, chunk: Chunk)
    requires DistinctFiles(files) && SentSoFar(files, stream, k, part) && k < |files|
    requires part + |chunk.data| <= |files[k].data| && chunk.data != []
    requires chunk == Chunk(files[k].fileId, part, files[k].data[part..part + |chunk.data|])
    ensures SentSoFar(files, stream + [chunk], k, part + |chunk.data|)
  {
    var end := part + |chunk.data|;
    assert files[k].data[..part] + chunk.data == files[k].data[..end];
    forall i | 0 <= i < |files| ensures Cuts(stream + [chunk], files[i].fileId, SentOf(files, i, k, end)) {
      CutsAppend(stream, chunk, files[i].fileId, SentOf(files, i, k, part));
    }
  }

  lemma NextFile(files: seq<SourceFile>, stream: seq<Chunk>, k: nat, part: nat)
    requires SentSoFar(files, stream, k, part) && k < |files| && part >= |files[k].data|
    ensures SentSoFar(files, stream, k + 1, 0)
  {
    forall i | 0 <= i < |files| ensures Cuts(stream, files[i].fileId, SentOf(files, i, k + 1, 0)) {
      assert SentOf(files, i, k + 1, 0) == SentOf(files, i, k, part);
    }
  }

  /**
   The upload, clipboard-write and clipboard-read loops: every file in turn, every slice of at most
   `maxChunkBytes` in turn.
   */
  method SendBytes(files: seq<SourceFile>, maxChunkBytes: nat) returns (stream: seq<Chunk>)
    requires maxChunkBytes >= 1 && DistinctFiles(files)
    ensures forall i :: 0 <= i < |files| ==> Cuts(stream, files[i].fileId, files[i].data)
    ensures FromFiles(stream, FileIds(files))
    ensures Bounded(stream, Some(maxChunkBytes))
  {
    stream := [];
    for k := 0 to |files|
      invariant SentSoFar(files, stream, k, 0)
      invariant Bounded(stream, Some(maxChunkBytes))
    {
      var file := files[k];
      var offset := 0;
      while offset < |file.data|
        invariant SentSoFar(files, stream, k, offset)
        invariant Bounded(stream, Some(maxChunkBytes))
        decreases |file.data| - offset
      {
        var end := Least(|file.data|, offset + maxChunkBytes);
        var chunk := Chunk(file.fileId, offset, file.data[offset..end]);
        SendSlice(files, stream, k, offset, maxChunkBytes);
        stream := stream + [chunk];
        offset := offset + maxChunkBytes;
      }
      NextFile(files, stream, k, offset);
    }
    forall i | 0 <= i < |files| ensures Cuts(stream, files[i].fileId, files[i].data) {
      assert Cuts(stream, files[i].fileId, SentOf(files, i, |files|, 0));
    }
  }

  /** One turn of the inner loop. */
  lemma SendSlice(files: seq<SourceFile>, stream: seq<Chunk>, k: nat, offset: nat, maxChunkBytes: nat)
    requires DistinctFiles(files) && SentSoFar(files, stream, k, offset) && k < |files| && offset < |files[k].data|
    requires maxChunkBytes >= 1 && Bounded(stream, Some(maxChunkBytes))
    ensures var chunk := Chunk(files[k].fileId, offset, files[k].data[offset..Least(|files[k].data|, offset + maxChunkBytes)]);
            SentSoFar(files, stream + [chunk], k, offset + maxChunkBytes) && Bounded(stream + [chunk], Some(maxChunkBytes))
  {
    var end := Least(|files[k].data|, offset + maxChunkBytes);
    var chunk := Chunk(files[k].fileId, offset, files[k].data[offset..end]);
    SendOne(files, stream, k, offset, chunk);
    BoundedSnoc(stream, chunk, maxChunkBytes);
    SamePart(files, stream + [chunk], k, end, offset + maxChunkBytes);
  }

  lemma BoundedSnoc(stream: seq<Chunk>, c: Chunk, maxChunkBytes: nat)
    requires Bounded(stream, Some(maxChunkBytes)) && |c.data| <= maxChunkBytes
    ensures Bounded(stream + [c], Some(maxChunkBytes))
  {
  }

  lemma SamePart(files: seq<SourceFile>, stream: seq<Chunk>, k: nat, part: nat, part': nat)
    requires SentSoFar(files, stream, k, part) && k < |files|
    requires part == Least(|files[k].data|, part')
    ensures SentSoFar(files, stream, k, part')
  {
    forall i | 0 <= i < |files| ensures Cuts(stream, files[i].fileId, SentOf(files, i, k, part')) {
      assert SentOf(files, i, k, part') == SentOf(files, i, k, part);
    }
  }

  function Least(a: nat, b: nat): nat {
    if a <= b then a else b
  }

  /**
   The download loop. `disk` is the file's content now, `size` the declared size, and `bytesRead`
   what a read of some length at some offset happens to return.
   */
  method StreamDownload(fileId: string, disk: Bytes, size: nat, maxChunkBytes: nat, bytesRead: (nat, nat) -> nat)
    returns (r: Result<seq<Chunk>, TransferError>)
    requires maxChunkBytes >= 1
    requires forall offset: nat, wanted: nat :: offset <= |disk| ==> bytesRead(offset, wanted) <= Least(wanted, |disk| - offset)
    ensures r.Ok? ==>
              && size <= |disk| && Cuts(r.value, fileId, disk[..size]) && Bounded(r.value, Some(maxChunkBytes))
              && forall i :: 0 <= i < |r.value| ==> r.value[i].fileId == fileId
    ensures (forall offset: nat, wanted: nat :: offset < size && wanted > 0 ==> bytesRead(offset, wanted) > 0) ==> r.Ok?
    ensures r.Err? ==> exists offset: nat, wanted: nat :: offset < size && wanted > 0 && bytesRead(offset, wanted) == 0
  {
    var stream: seq<Chunk> := [];
    var offset := 0;
    while offset < size
      invariant offset <= size && offset <= |disk|
      invariant Cuts(stream, fileId, disk[..offset])
      invariant Bounded(stream, Some(maxChunkBytes))
      invariant forall i :: 0 <= i < |stream| ==> stream[i].fileId == fileId
      decreases size - offset
    {
      var chunkSize := Least(maxChunkBytes, size - offset);
      var read := bytesRead(offset, chunkSize);
      if read == 0 {
        return Err(EndedEarly);
      }
      var chunk := Chunk(fileId, offset, disk[offset..offset + read]);
      CutsAppend(stream, chunk, fileId, disk[..offset]);
      assert disk[..offset] + chunk.data == disk[..offset + read];
      stream := stream + [chunk];
      offset := offset + read;
    }
    return Ok(stream);
  }

  // --------------------------------------------------------------- receiver

  /** One file or clipboard item being received. */
  datatype Incoming = Incoming(size: nat, nextOffset: nat, chunks: seq<Bytes>)

  type Files = map<string, Incoming>

  /** The receiving table when the transfer starts. */
  predicate Fresh(files: Files) {
    forall id :: id in files ==> files[id].nextOffset == 0 && files[id].chunks == []
  }

  /** One chunk. Only Core bounds the chunk's length. */
  function AcceptChunk(files: Files, maxChunkBytes: Option<nat>, c: Chunk): Result<Files, TransferError> {
    if c.fileId !in files then Err(UnknownFile)
    else if |c.data| == 0 || (maxChunkBytes.Some? && |c.data| > maxChunkBytes.value) then Err(ChunkSize)
    else
      var file := files[c.fileId];
      if c.offset != file.nextOffset || c.offset + |c.data| > file.size then Err(NotContiguous)
      else Ok(files[c.fileId := Incoming(file.size, file.nextOffset + |c.data|, file.chunks + [c.data])])
  }

  predicate Complete(files: Files) {
    forall id :: id in files ==> files[id].nextOffset == files[id].size
  }

  class TransferReceiver {
    var files: Files
    const maxChunkBytes: Option<nat>

    constructor (sizes: map<string, nat>, maxChunkBytes: Option<nat>)
      ensures this.maxChunkBytes == maxChunkBytes && Fresh(files) && files.Keys == sizes.Keys
      ensures forall id :: id in sizes ==> files[id].size == sizes[id]
    {
      this.maxChunkBytes := maxChunkBytes;
      files := map id | id in sizes :: Incoming(sizes[id], 0, []);
    }

    /** A refused chunk leaves the table alone; its caller aborts the transfer. */
    method WriteChunk(c: Chunk) returns (error: Option<TransferError>)
      modifies this
      ensures error.None? ==> AcceptChunk(old(files), maxChunkBytes, c) == Ok(files)
      ensures error.Some? ==> files == old(files) && AcceptChunk(old(files), maxChunkBytes, c) == Err(error.value)
    {
      if c.fileId !in files {
        return Some(UnknownFile);
      }
      var file := files[c.fileId];
      if |c.data| == 0 || (maxChunkBytes.Some? && |c.data| > maxChunkBytes.value) {
        return Some(ChunkSize);
      }
      if c.offset != file.nextOffset || c.offset + |c.data| > file.size {
        return Some(NotContiguous);
      }
      files := files[c.fileId := file.(chunks := file.chunks + [c.data], nextOffset := file.nextOffset + |c.data|)];
      return None;
    }
  }

  /** Concatenation of received pieces. */
  function Flatten(pieces: seq<Bytes>): Bytes {
    if pieces == [] then [] else Flatten(pieces[..|pieces| - 1]) + pieces[|pieces| - 1]
  }

  function Zeros(n: nat): Bytes {
    seq(n, _ => 0)
  }

  /** What reassembly yields; only the checked one refuses a total below the expected size. */
  function Joined(pieces: seq<Bytes>, expectedSize: nat, checked: bool): Result<Bytes, TransferError> {
    var data := Flatten(pieces);
    if |data| > expectedSize || (checked && |data| < expectedSize) then Err(SizeChanged)
    else Ok(data + Zeros(expectedSize - |data|))
  }

  /**
   Reassembly into one buffer of the declared size. A piece that does not fit makes the copy throw;
   Core also refuses a total below the declared size, the client leaves the rest zero.
   */
  method JoinChunks(pieces: seq<Bytes>, expectedSize: nat, checked: bool) returns (r: Result<Bytes, TransferError>)
    ensures r == Joined(pieces, expectedSize, checked)
  {
    var buffer := new bv8[expectedSize](_ => 0);
    var offset := 0;
    for k := 0 to |pieces|
      invariant offset <= buffer.Length == expectedSize
      invariant buffer[..offset] == Flatten(pieces[..k])
      invariant forall i :: offset <= i < buffer.Length ==> buffer[i] == 0
    {
      var piece := pieces[k];
      FlattenSnoc(pieces, k);
      if offset + |piece| > expectedSize {
        FlattenGrows(pieces, k + 1);
        return Err(SizeChanged);
      }
      ghost var before := buffer[..offset];
      forall i | 0 <= i < |piece| {
        buffer[offset + i] := piece[i];
      }
      offset := offset + |piece|;
      assert buffer[..offset] == before + piece;
    }
    assert pieces[..|pieces|] == pieces;
    assert buffer[..] == buffer[..offset] + Zeros(expectedSize - offset);
    if checked && offset != expectedSize {
      return Err(SizeChanged);
    }
    return Ok(buffer[..]);
  }

  lemma FlattenSnoc(pieces: seq<Bytes>, k: nat)
    requires k < |pieces|
    ensures Flatten(pieces[..k + 1]) == Flatten(pieces[..k]) + pieces[k]
  {
    assert pieces[..k + 1][..k] == pieces[..k];
  }

  lemma {:induction false} FlattenGrows(pieces: seq<Bytes>, k: nat)
    requires k <= |pieces|
    ensures |Flatten(pieces[..k])| <= |Flatten(pieces)|
    decreases |pieces| - k
  {
    if k < |pieces| {
      FlattenSnoc(pieces, k);
      FlattenGrows(pieces, k + 1);
    } else {
      assert pieces[..k] == pieces;
    }
  }

  // ------------------------------------------------------------- properties

  /** The table after a whole stream, or nothing when some chunk was refused. */
  function Receive(files: Files, maxChunkBytes: Option<nat>, stream: seq<Chunk>): Option<Files> {
    if stream == [] then Some(files)
    else
      var before := Receive(files, maxChunkBytes, stream[..|stream| - 1]);
      if before.None? then None
      else
        var r := AcceptChunk(before.value, maxChunkBytes, stream[|stream| - 1]);
        if r.Ok? then Some(r.value) else None
  }

  /** What an accepted stream leaves in the table for one file. */
  predicate Holds(file: Incoming, size: nat, chunks: seq<Chunk>) {
    && Contiguous(chunks)
    && file.size == size && file.nextOffset == |DataOf(chunks)| <= size
    && Flatten(file.chunks) == DataOf(chunks)
  }

  /** One accepted chunk extends what is held for its own file and leaves the others alone. */
  lemma AcceptExtends(before: Files, maxChunkBytes: Option<nat>, c: Chunk, init: seq<Chunk>, id: string, size: nat)
    requires id in before && Holds(before[id], size, ChunksFor(init, id))
    requires AcceptChunk(before, maxChunkBytes, c).Ok?
    ensures Holds(AcceptChunk(before, maxChunkBytes, c).value[id], size, ChunksFor(init + [c], id))
  {
    ChunksForSnoc(init, c, id);
    var after := AcceptChunk(before, maxChunkBytes, c).value;
    if id == c.fileId {
      Snoc(ChunksFor(init, id), c);
      assert after[id].chunks[..|before[id].chunks|] == before[id].chunks;
    } else {
      assert ChunksFor(init + [c], id) == ChunksFor(init, id);
    }
  }

  /** What is held for every file after a stream. */
  ghost predicate HoldsAll(received: Files, files: Files, stream: seq<Chunk>) {
    && received.Keys == files.Keys
    && forall id {:trigger ChunksFor(stream, id)} :: id in files ==> Holds(received[id], files[id].size, ChunksFor(stream, id))
  }

  lemma AcceptExtendsAll(before: Files, files: Files, maxChunkBytes: Option<nat>, c: Chunk, init: seq<Chunk>)
    requires HoldsAll(before, files, init) && AcceptChunk(before, maxChunkBytes, c).Ok?
    ensures HoldsAll(AcceptChunk(before, maxChunkBytes, c).value, files, init + [c])
  {
    forall id | id in files
      ensures Holds(AcceptChunk(before, maxChunkBytes, c).value[id], files[id].size, ChunksFor(init + [c], id))
    {
      assert Holds(before[id], files[id].size, ChunksFor(init, id));
      AcceptExtends(before, maxChunkBytes, c, init, id, files[id].size);
    }
  }

  lemma {:induction false} AcceptedStreamIsContiguous(files: Files, maxChunkBytes: Option<nat>, stream: seq<Chunk>)
    requires Fresh(files) && Receive(files, maxChunkBytes, stream).Some?
    ensures HoldsAll(Receive(files, maxChunkBytes, stream).value, files, stream)
    ensures FromFiles(stream, files.Keys) && Bounded(stream, maxChunkBytes)
  {
    if stream != [] {
      var init, c := stream[..|stream| - 1], stream[|stream| - 1];
      AcceptedStreamIsContiguous(files, maxChunkBytes, init);
      var before := Receive(files, maxChunkBytes, init).value;
      assert init + [c] == stream;
      AcceptExtendsAll(before, files, maxChunkBytes, c, init);
      assert c.fileId in before.Keys;
    } else {
      forall id | id in files ensures Holds(files[id], files[id].size, ChunksFor(stream, id)) {
        assert ChunksFor(stream, id) == [];
      }
    }
  }

  lemma {:induction false} ContiguousPrefix(stream: seq<Chunk>, id: string, n: nat)
    requires n <= |stream| && Contiguous(ChunksFor(stream, id))
    ensures Contiguous(ChunksFor(stream[..n], id))
    ensures |DataOf(ChunksFor(stream[..n], id))| <= |DataOf(ChunksFor(stream, id))|
    ensures n < |stream| && stream[n].fileId == id ==>
              && stream[n].data != [] && stream[n].offset == |DataOf(ChunksFor(stream[..n], id))|
              && stream[n].offset + |stream[n].data| <= |DataOf(ChunksFor(stream, id))|
    decreases |stream| - n
  {
    if n == |stream| {
      assert stream[..n] == stream;
    } else {
      ContiguousPrefix(stream, id, n + 1);
      assert stream[..n + 1] == stream[..n] + [stream[n]];
      ChunksForSnoc(stream[..n], stream[n], id);
      Snoc(ChunksFor(stream[..n], id), stream[n]);
      assert ChunksFor(stream[..n], id) + [] == ChunksFor(stream[..n], id);
    }
  }

  /** A chunk that continues a contiguous stream within the declared size passes the receiver's checks. */
  lemma NextChunkIsAccepted(files: Files, maxChunkBytes: Option<nat>, stream: seq<Chunk>, n: nat)
    requires Fresh(files) && Bounded(stream, maxChunkBytes) && n < |stream|
    requires FromFiles(stream, files.Keys)
    requires Contiguous(ChunksFor(stream, stream[n].fileId))
             && |DataOf(ChunksFor(stream, stream[n].fileId))| <= files[stream[n].fileId].size
    requires Receive(files, maxChunkBytes, stream[..n]).Some?
    ensures AcceptChunk(Receive(files, maxChunkBytes, stream[..n]).value, maxChunkBytes, stream[n]).Ok?
  {
    var init, c := stream[..n], stream[n];
    AcceptedStreamIsContiguous(files, maxChunkBytes, init);
    var before := Receive(files, maxChunkBytes, init).value;
    assert Holds(before[c.fileId], files[c.fileId].size, ChunksFor(init, c.fileId));
    ContiguousPrefix(stream, c.fileId, n);
  }

  /** The chunks of a file continue each other and stay within its declared size. */
  ghost predicate FitsFile(files: Files, stream: seq<Chunk>, id: string) {
    id in files ==> Contiguous(ChunksFor(stream, id)) && |DataOf(ChunksFor(stream, id))| <= files[id].size
  }

  lemma ReceiveSnoc(files: Files, maxChunkBytes: Option<nat>, stream: seq<Chunk>, n: nat)
    requires n < |stream| && Receive(files, maxChunkBytes, stream[..n]).Some?
    requires AcceptChunk(Receive(files, maxChunkBytes, stream[..n]).value, maxChunkBytes, stream[n]).Ok?
    ensures Receive(files, maxChunkBytes, stream[..n + 1]).Some?
  {
    assert stream[..n + 1][..n] == stream[..n];
  }

  /** Every stream of contiguous, bounded chunks within the declared sizes is accepted. */
  lemma {:induction false} ContiguousStreamIsAccepted(files: Files, maxChunkBytes: Option<nat>, stream: seq<Chunk>, n: nat)
    requires Fresh(files) && Bounded(stream, maxChunkBytes) && n <= |stream|
    requires FromFiles(stream, files.Keys)
    requires forall id {:trigger FitsFile(files, stream, id)} :: FitsFile(files, stream, id)
    ensures Receive(files, maxChunkBytes, stream[..n]).Some?
  {
    if n > 0 {
      ContiguousStreamIsAccepted(files, maxChunkBytes, stream, n - 1);
      assert FitsFile(files, stream, stream[n - 1].fileId);
      NextChunkIsAccepted(files, maxChunkBytes, stream, n - 1);
      ReceiveSnoc(files, maxChunkBytes, stream, n - 1);
    }
  }

  /** The stream passes every chunk check and the completion check. */
  predicate Completes(files: Files, maxChunkBytes: Option<nat>, stream: seq<Chunk>) {
    var received := Receive(files, maxChunkBytes, stream);
    received.Some? && Complete(received.value)
  }

  /** The chunks of every file are contiguous, bounded, and make up its declared size. */
  predicate CutsEveryFile(files: Files, maxChunkBytes: Option<nat>, stream: seq<Chunk>) {
    && Bounded(stream, maxChunkBytes)
    && FromFiles(stream, files.Keys)
    && forall id :: id in files ==>
         Contiguous(ChunksFor(stream, id)) && |DataOf(ChunksFor(stream, id))| == files[id].size
  }

  /**
   A stream, however it interleaves the files, passes every chunk check and the completion check
   exactly when its chunks cut, for every file, data of the declared size; and what is then
   reassembled is that data.
   */
  lemma CompletesIffEveryFileIsCut(files: Files, maxChunkBytes: Option<nat>, stream: seq<Chunk>)
    requires Fresh(files)
    ensures Completes(files, maxChunkBytes, stream) <==> CutsEveryFile(files, maxChunkBytes, stream)
    ensures Completes(files, maxChunkBytes, stream) ==>
              && Receive(files, maxChunkBytes, stream).value.Keys == files.Keys
              && forall id :: id in files ==>
                   Receive(files, maxChunkBytes, stream).value[id].size == files[id].size
                   && Flatten(Receive(files, maxChunkBytes, stream).value[id].chunks) == DataOf(ChunksFor(stream, id))
  {
    var received := Receive(files, maxChunkBytes, stream);
    if received.Some? {
      AcceptedStreamIsContiguous(files, maxChunkBytes, stream);
    }
    if CutsEveryFile(files, maxChunkBytes, stream) {
      ContiguousStreamIsAccepted(files, maxChunkBytes, stream, |stream|);
      assert stream[..|stream|] == stream;
      AcceptedStreamIsContiguous(files, maxChunkBytes, stream);
    }
  }

  /** The table that matches an offer of these files. */
  function Offer(files: seq<SourceFile>): Files
    requires DistinctFiles(files)
  {
    map i | 0 <= i < |files| :: files[i].fileId := Incoming(|files[i].data|, 0, [])
  }

  /** Every source completes at the receiver, and joining its pieces, checked or not, returns it. */
  ghost predicate Reassembled(files: seq<SourceFile>, received: Option<Files>) {
    && received.Some? && Complete(received.value)
    && forall i, checked :: 0 <= i < |files| ==>
         && files[i].fileId in received.value
         && Joined(received.value[files[i].fileId].chunks, received.value[files[i].fileId].size, checked) == Ok(files[i].data)
  }

  lemma ExactPiecesJoin(pieces: seq<Bytes>, data: Bytes, checked: bool)
    requires Flatten(pieces) == data
    ensures Joined(pieces, |data|, checked) == Ok(data)
  {
    assert data + Zeros(0) == data;
  }

  /**
   What the sending loop produces completes at a receiver, whether or not that one bounds chunks, and
   is joined to the sources again.
   */
  lemma TransferRoundTrip(files: seq<SourceFile>, maxChunkBytes: nat, stream: seq<Chunk>, bound: Option<nat>)
    requires DistinctFiles(files)
    requires forall i :: 0 <= i < |files| ==> Cuts(stream, files[i].fileId, files[i].data)
    requires FromFiles(stream, FileIds(files))
    requires Bounded(stream, Some(maxChunkBytes))
    requires bound == None || bound == Some(maxChunkBytes)
    ensures Reassembled(files, Receive(Offer(files), bound, stream))
  {
    var offer := Offer(files);
    forall id | id in offer
      ensures Contiguous(ChunksFor(stream, id)) && |DataOf(ChunksFor(stream, id))| == offer[id].size
    {
      var i :| 0 <= i < |files| && files[i].fileId == id;
      assert Cuts(stream, files[i].fileId, files[i].data);
    }
    OfferNames(files);
    assert CutsEveryFile(offer, bound, stream);
    CompletesIffEveryFileIsCut(offer, bound, stream);
    var received := Receive(offer, bound, stream).value;
    forall i, checked | 0 <= i < |files|
      ensures files[i].fileId in received && Joined(received[files[i].fileId].chunks, received[files[i].fileId].size, checked) == Ok(files[i].data)
    {
      assert Cuts(stream, files[i].fileId, files[i].data);
      ExactPiecesJoin(received[files[i].fileId].chunks, files[i].data, checked);
    }
  }

  /** A download read with any short reads arrives, is complete and is joined to what the disk held. */
  lemma DownloadRoundTrip(fileId: string, disk: Bytes, size: nat, maxChunkBytes: nat, stream: seq<Chunk>, bound: Option<nat>)
    requires size <= |disk| && Cuts(stream, fileId, disk[..size]) && Bounded(stream, Some(maxChunkBytes))
    requires forall i :: 0 <= i < |stream| ==> stream[i].fileId == fileId
    requires bound == None || bound == Some(maxChunkBytes)
    ensures Reassembled([SourceFile(fileId, disk[..size])], Receive(Offer([SourceFile(fileId, disk[..size])]), bound, stream))
  {
    var files := [SourceFile(fileId, disk[..size])];
    assert files[0] in files && files[0].fileId in FileIds(files);
    TransferRoundTrip(files, maxChunkBytes, stream, bound);
  }

  lemma OfferNames(files: seq<SourceFile>)
    requires DistinctFiles(files)
    ensures Offer(files).Keys == FileIds(files) && Fresh(Offer(files))
  {
  }

  /** In contiguous chunks every position of the data lies in exactly one chunk, which holds its byte. */
  lemma {:induction false} EveryByteExactlyOnce(chunks: seq<Chunk>, p: nat) returns (k: nat)
    requires Contiguous(chunks) && p < |DataOf(chunks)|
    ensures k < |chunks| && chunks[k].offset <= p < chunks[k].offset + |chunks[k].data|
    ensures chunks[k].data[p - chunks[k].offset] == DataOf(chunks)[p]
    ensures forall j :: 0 <= j < |chunks| && chunks[j].offset <= p < chunks[j].offset + |chunks[j].data| ==> j == k
  {
    var init, last := chunks[..|chunks| - 1], chunks[|chunks| - 1];
    forall j | 0 <= j < |init| ensures chunks[j].offset + |chunks[j].data| <= |DataOf(init)| {
      ChunkEndsWithin(init, j);
      assert init[j] == chunks[j];
    }
    if p >= |DataOf(init)| {
      return |chunks| - 1;
    }
    k := EveryByteExactlyOnce(init, p);
    assert init[k] == chunks[k];
    forall j | 0 <= j < |chunks| && chunks[j].offset <= p < chunks[j].offset + |chunks[j].data| ensures j == k {
      assert j < |init|;
      assert init[j] == chunks[j];
    }
  }

  lemma {:induction false} ChunkEndsWithin(chunks: seq<Chunk>, j: nat)
    requires Contiguous(chunks) && j < |chunks|
    ensures chunks[j].offset + |chunks[j].data| <= |DataOf(chunks)|
  {
    if j < |chunks| - 1 {
      ChunkEndsWithin(chunks[..|chunks| - 1], j);
    }
  }
}
