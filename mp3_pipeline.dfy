/** Model of the task side of main.c: the song-name and song-data queues,
    the Reader task that streams a file block by block into the data queue,
    the Player task that hands each block to the decoder, and start-up.

    A FatFs file is the sequence of its bytes. An f_read of 512 bytes into
    the Reader's buffer fills min(512, remaining) bytes and leaves the rest of
    the buffer as the previous read left it; whether an attempt fails is
    taken from a finite list of outcomes, and a failed read moves neither the
    file pointer nor the buffer. */
module Mp3Pipeline {
  import opened Queues
  import opened Mp3Decoder

  /** The depths given to xQueueCreate in main. */
  const NameQueueDepth: nat := 1
  const DataQueueDepth: nat := 5

  /** songName_s holds 64 chars including the terminating NUL. */
  const SongNameSize: nat := 64

  type SongName = s: string | |s| < SongNameSize

  function Min(a: nat, b: nat): nat
  {
    if a <= b then a else b
  }

  /** The buffer after one successful f_read from a file whose unread part is
      `rest`: its first min(512, |rest|) bytes are the next bytes of the file
      and the others are what `buf` held. */
  function ReadInto(buf: Block, rest: seq<byte>): (r: Block)
    ensures forall i :: 0 <= i < BlockSize ==> r[i] == if i < |rest| then rest[i] else buf[i]
  {
    var n := Min(BlockSize, |rest|);
    rest[..n] + buf[n..]
  }

  /** The blocks the Reader sends for a file whose unread part is `file`,
      when its buffer holds `buf`. */
  function Blocks(file: seq<byte>, buf: Block): seq<Block>
    decreases |file|
  {
    if file == [] then []
    else [ReadInto(buf, file)] + Blocks(file[Min(BlockSize, |file|)..], ReadInto(buf, file))
  }

  /** The Reader's buffer once the whole of `file` has been read into it. */
  function FinalBuffer(file: seq<byte>, buf: Block): Block
    decreases |file|
  {
    if file == [] then buf
    else FinalBuffer(file[Min(BlockSize, |file|)..], ReadInto(buf, file))
  }

  /** The valid bytes of a run of blocks that carries `length` file bytes:
      all 512 of each block but the last, which carries the remainder. */
  function Payload(blocks: seq<Block>, length: nat): seq<byte>
    decreases |blocks|
  {
    if blocks == [] then []
    else blocks[0][..Min(BlockSize, length)] + Payload(blocks[1..], length - Min(BlockSize, length))
  }

  /** A file of L bytes gives ceil(L / 512) blocks. */
  lemma {:induction false} BlockCount(file: seq<byte>, buf: Block)
    ensures |Blocks(file, buf)| == (|file| + BlockSize - 1) / BlockSize
    decreases |file|
  {
    if file != [] {
      BlockCount(file[Min(BlockSize, |file|)..], ReadInto(buf, file));
    }
  }

  /** The valid bytes of the blocks, put back together, are the file. */
  lemma {:induction false} Reassemble(file: seq<byte>, buf: Block)
    ensures Payload(Blocks(file, buf), |file|) == file
    decreases |file|
  {
    if file != [] {
      var n := Min(BlockSize, |file|);
      var bs := Blocks(file, buf);
      Reassemble(file[n..], ReadInto(buf, file));
      assert bs[1..] == Blocks(file[n..], ReadInto(buf, file));
      assert bs[0][..n] == file[..n];
      assert file[..n] + file[n..] == file;
    }
  }

  /** Block k holds file bytes 512k onwards, as many as are left up to 512;
      the rest of a short last block is stale: what the previous block of the
      same file (or, for the first block, the buffer before the file) held at
      those positions. */
  lemma {:induction false} BlockContents(file: seq<byte>, buf: Block, k: nat)
    requires k < |Blocks(file, buf)|
    ensures BlockSize * k < |file|
    ensures var n := Min(BlockSize, |file| - BlockSize * k);
      Blocks(file, buf)[k][..n] == file[BlockSize * k .. BlockSize * k + n] &&
      Blocks(file, buf)[k][n..] == (if k == 0 then buf else Blocks(file, buf)[k - 1])[n..]
    decreases |file|
  {
    var m := Min(BlockSize, |file|);
    var rest := file[m..];
    var b0 := ReadInto(buf, file);
    if k > 0 {
      assert Blocks(file, buf)[1..] == Blocks(rest, b0);
      BlockContents(rest, b0, k - 1);
      assert m == BlockSize;
      assert rest[BlockSize * (k - 1) ..] == file[BlockSize * k ..];
      if k > 1 {
        assert Blocks(rest, b0)[k - 2] == Blocks(file, buf)[k - 1];
      } else {
        assert b0 == Blocks(file, buf)[0];
      }
    }
  }

  /** A 1025-byte file is sent as three blocks; the third carries the file's
      last byte at index 0 and, at indices 1 to 511, the stale bytes of the
      second block. */
  lemma ThreeBlocksFor1025(file: seq<byte>, buf: Block)
    requires |file| == 1025
    ensures |Blocks(file, buf)| == 3
    ensures Blocks(file, buf)[2][..1] == file[1024..]
    ensures Blocks(file, buf)[2][1..] == Blocks(file, buf)[1][1..]
  {
    BlockCount(file, buf);
    BlockContents(file, buf, 2);
  }

  /** One f_open or f_close call of the Reader, with the outcome of f_open. */
  datatype FsCall = Open(name: SongName, ok: bool) | Close

  /** The Reader task's state: its songData_s buffer, the blocks it has put
      on the data queue, and its file-system calls. */
  class Reader {
    /** bytes.song_data: one buffer that every read refills in place. */
    const bytes: array<byte>
    var sent: seq<Block>
    var fsCalls: seq<FsCall>

    ghost predicate Valid()
      reads this
    {
      bytes.Length == BlockSize
    }

    /** The buffer's content as a block. */
    function Buffer(): Block
      requires Valid()
      reads this, bytes
    {
      bytes[..]
    }

    /** The task starts with whatever the stack held in `bytes`. */
    constructor (initial: Block)
      ensures Valid() && fresh(bytes)
      ensures Buffer() == initial && sent == [] && fsCalls == []
    {
      bytes := new byte[BlockSize](i requires 0 <= i < BlockSize => initial[i]);
      sent := [];
      fsCalls := [];
      new;
      assert bytes[..] == initial;
    }

    /** The read loop of mp3_reader_task for an open file: until end of file,
        read up to 512 bytes and, when the read succeeds, send the whole
        buffer. `failures[i]` says whether the i-th read attempt fails;
        attempts beyond the list succeed. */
    method StreamFile(file: seq<byte>, failures: seq<bool>)
      requires Valid()
      modifies this`sent, bytes
      ensures Valid()
      ensures sent == old(sent) + Blocks(file, old(Buffer()))
      ensures Buffer() == FinalBuffer(file, old(Buffer()))
    {
      var pos := 0;
      var pending := failures;
      while pos < |file|
        invariant Valid() && 0 <= pos <= |file|
        invariant old(sent) + Blocks(file, old(Buffer())) == sent + Blocks(file[pos..], Buffer())
        invariant FinalBuffer(file, old(Buffer())) == FinalBuffer(file[pos..], Buffer())
        decreases |file| - pos, |pending|
      {
        var failed := pending != [] && pending[0];
        if pending != [] {
          pending := pending[1..];
        }
        if !failed {
          var rest := file[pos..];
          var br := Min(BlockSize, |rest|);
          ghost var before := Buffer();
          forall j | 0 <= j < br {
            bytes[j] := file[pos + j];
          }
          assert Buffer() == ReadInto(before, rest);
          assert rest[br..] == file[pos + br..];
          pos := pos + br;
          sent := sent + [Buffer()];
        }
      }
    }

    /** One iteration of mp3_reader_task: take a song name from the name
        queue and open it. A file that opens is streamed and closed; a name
        that fails to open sends nothing, and the task goes on to the next
        name. The file system is the map from names to contents. */
    method ServeRequest(nameQ: BoundedQueue<SongName>, files: map<SongName, seq<byte>>, failures: seq<bool>)
      requires Valid() && nameQ.Valid() && nameQ.items != []
      modifies this`sent, this`fsCalls, bytes, nameQ
      ensures Valid() && nameQ.Valid()
      ensures nameQ.items == old(nameQ.items)[1..]
      ensures var name := old(nameQ.items)[0];
        if name in files then
          sent == old(sent) + Blocks(files[name], old(Buffer())) &&
          Buffer() == FinalBuffer(files[name], old(Buffer())) &&
          fsCalls == old(fsCalls) + [Open(name, true), Close]
        else
          sent == old(sent) && Buffer() == old(Buffer()) &&
          fsCalls == old(fsCalls) + [Open(name, false)]
    {
      var name := nameQ.Receive();
      if name in files {
        fsCalls := fsCalls + [Open(name, true)];
        StreamFile(files[name], failures);
        fsCalls := fsCalls + [Close];
      } else {
        fsCalls := fsCalls + [Open(name, false)];
      }
    }
  }

  /** One iteration of mp3_player_task: take the oldest block and transfer
      all of it before taking the next. */
  method PlayerIteration(dataQ: BoundedQueue<Block>, decoder: Decoder) returns (block: Block)
    requires dataQ.Valid() && dataQ.items != []
    modifies dataQ, decoder
    ensures dataQ.Valid()
    ensures block == old(dataQ.items)[0] && dataQ.items == old(dataQ.items)[1..]
    ensures decoder.trace == old(decoder.trace) + TransferTrace(block)
    ensures decoder.port2 == old(decoder.port2) + {SdiCsPin}
  {
    block := dataQ.Receive();
    decoder.TransferBlock(block);
  }

  /** The decoder events of playing `blocks` in order, one whole block after
      another. */
  function PlayTrace(blocks: seq<Block>): seq<Event>
    decreases |blocks|
  {
    if blocks == [] then []
    else PlayTrace(blocks[..|blocks| - 1]) + TransferTrace(blocks[|blocks| - 1])
  }

  /** The bytes of the blocks, in order. */
  function Concat(blocks: seq<Block>): seq<byte>
    decreases |blocks|
  {
    if blocks == [] then []
    else Concat(blocks[..|blocks| - 1]) + blocks[|blocks| - 1]
  }

  /** Playing a run of blocks puts every byte of every block on the data
      interface, in order. */
  lemma {:induction false} PlayDelivers(blocks: seq<Block>)
    ensures Exchanged(PlayTrace(blocks)) == Concat(blocks)
    decreases |blocks|
  {
    if blocks != [] {
      var init := blocks[..|blocks| - 1];
      var last := blocks[|blocks| - 1];
      assert PlayTrace(blocks) == PlayTrace(init) + TransferTrace(last);
      assert Concat(blocks) == Concat(init) + last;
      PlayDelivers(init);
      ExchangedAppend(PlayTrace(init), TransferTrace(last));
      TransferDelivers(last);
    }
  }

  /** Every block is played as 4 * 512 events. */
  lemma {:induction false} PlayTraceLength(blocks: seq<Block>)
    ensures |PlayTrace(blocks)| == 4 * BlockSize * |blocks|
    decreases |blocks|
  {
    if blocks != [] {
      var init := blocks[..|blocks| - 1];
      var last := blocks[|blocks| - 1];
      assert PlayTrace(blocks) == PlayTrace(init) + TransferTrace(last);
      PlayTraceLength(init);
      TransferTraceLength(last);
      assert |blocks| == |init| + 1;
      assert 4 * BlockSize * |blocks| == 4 * BlockSize * |init| + 4 * BlockSize;
    }
  }

  /** main, up to the scheduler: initialise the decoder and create the name
      queue with room for one name and the data queue with room for five
      blocks. */
  method Start(decoder: Decoder) returns (nameQ: BoundedQueue<SongName>, dataQ: BoundedQueue<Block>)
    modifies decoder
    ensures fresh(nameQ) && fresh(dataQ)
    ensures nameQ.Valid() && nameQ.capacity == NameQueueDepth && nameQ.items == []
    ensures dataQ.Valid() && dataQ.capacity == DataQueueDepth && dataQ.items == []
    ensures decoder.trace == old(decoder.trace) + InitTrace()
    ensures decoder.port2 == old(decoder.port2) + {SciCsPin, SdiCsPin, ResetPin}
  {
    decoder.Init();
    nameQ := new BoundedQueue<SongName>(NameQueueDepth);
    dataQ := new BoundedQueue<Block>(DataQueueDepth);
  }

  /** The state of a run: `produced` blocks sent, of which those not yet
      played are queued, oldest first, and the decoder has seen the played
      ones. */
  ghost predicate RunInv(dataQ: BoundedQueue<Block>, decoder: Decoder, blocks: seq<Block>, produced: nat, played: seq<Block>)
    reads dataQ, decoder
  {
    dataQ.Valid() && dataQ.capacity == DataQueueDepth &&
    produced <= |blocks| && played + dataQ.items == blocks[..produced] &&
    decoder.trace == PlayTrace(played)
  }

  /** The Reader and the Player sharing the five-block data queue, in any
      interleaving: `schedule[i]` says whether step i is the Reader's turn
      (send the next block, unless the queue is full) or the Player's (play
      the oldest queued block, unless the queue is empty); then the two run on
      until every block is played. The Player plays exactly the Reader's
      blocks, in order and each exactly once, and the decoder sees the
      transfers one whole block after another. */
  method RunPipeline(blocks: seq<Block>, schedule: seq<bool>) returns (played: seq<Block>, trace: seq<Event>)
    ensures played == blocks
    ensures trace == PlayTrace(blocks)
  {
    var dataQ := new BoundedQueue<Block>(DataQueueDepth);
    var decoder := new Decoder({});
    var produced;
    produced, played := RunSchedule(dataQ, decoder, blocks, schedule);
    played := Drain(dataQ, decoder, blocks, produced, played);
    trace := decoder.trace;
  }

  /** The interleaved part of a run: one step per schedule entry. */
  method RunSchedule(dataQ: BoundedQueue<Block>, decoder: Decoder, blocks: seq<Block>, schedule: seq<bool>)
    returns (produced: nat, played: seq<Block>)
    requires RunInv(dataQ, decoder, blocks, 0, [])
    modifies dataQ, decoder
    ensures RunInv(dataQ, decoder, blocks, produced, played)
  {
    produced, played := 0, [];
    for k := 0 to |schedule|
      invariant RunInv(dataQ, decoder, blocks, produced, played)
    {
      if schedule[k] {
        if produced < |blocks| && !dataQ.IsFull() {
          produced := SendStep(dataQ, blocks, produced, played);
        }
      } else if dataQ.items != [] {
        played := PlayStep(dataQ, decoder, played);
      }
    }
  }

  /** The rest of a run: the Reader sends while it has blocks and room, the
      Player plays otherwise, until every block is played. */
  method Drain(dataQ: BoundedQueue<Block>, decoder: Decoder, blocks: seq<Block>, produced: nat, played: seq<Block>)
    returns (allPlayed: seq<Block>)
    requires RunInv(dataQ, decoder, blocks, produced, played)
    modifies dataQ, decoder
    ensures allPlayed == blocks && decoder.trace == PlayTrace(blocks)
  {
    var sentSoFar: nat := produced;
    allPlayed := played;
    while |allPlayed| < |blocks|
      invariant RunInv(dataQ, decoder, blocks, sentSoFar, allPlayed)
      decreases 2 * |blocks| - sentSoFar - |allPlayed|
    {
      if sentSoFar < |blocks| && !dataQ.IsFull() {
        sentSoFar := SendStep(dataQ, blocks, sentSoFar, allPlayed);
      } else {
        allPlayed := PlayStep(dataQ, decoder, allPlayed);
      }
    }
    assert blocks[..sentSoFar] == blocks;
  }

  /** One Reader send inside a run: the next block joins the queue. */
  method SendStep(dataQ: BoundedQueue<Block>, blocks: seq<Block>, produced: nat, played: seq<Block>) returns (produced': nat)
    requires dataQ.Valid() && !dataQ.IsFull() && produced < |blocks|
    requires played + dataQ.items == blocks[..produced]
    modifies dataQ
    ensures dataQ.Valid() && dataQ.items == old(dataQ.items) + [blocks[produced]]
    ensures produced' == produced + 1 && played + dataQ.items == blocks[..produced']
  {
    dataQ.Send(blocks[produced]);
    produced' := produced + 1;
    assert blocks[..produced'] == blocks[..produced] + [blocks[produced]];
  }

  /** One Player iteration inside a run, adding the block to those played. */
  method PlayStep(dataQ: BoundedQueue<Block>, decoder: Decoder, played: seq<Block>) returns (played': seq<Block>)
    requires dataQ.Valid() && dataQ.items != []
    requires decoder.trace == PlayTrace(played)
    modifies dataQ, decoder
    ensures dataQ.Valid()
    ensures played' == played + [old(dataQ.items)[0]] && dataQ.items == old(dataQ.items)[1..]
    ensures decoder.trace == PlayTrace(played')
  {
    var b := PlayerIteration(dataQ, decoder);
    played' := played + [b];
    assert played'[..|played'| - 1] == played;
  }

  /** A name that fails to open followed by one that opens: the first sends
      nothing, the second is streamed in full whichever reads fail
      (`failures1` and `failures2` are the read outcomes offered to the two
      requests), and the calls are the failed open, then the open and the
      close of the second file. */
  method FailedOpenThenValid(content: seq<byte>, initial: Block, failures1: seq<bool>, failures2: seq<bool>)
    returns (sent: seq<Block>, calls: seq<FsCall>)
    ensures sent == Blocks(content, initial)
    ensures calls == [Open("missing.mp3", false), Open("song.mp3", true), Close]
  {
    var reader := new Reader(initial);
    var nameQ := new BoundedQueue<SongName>(NameQueueDepth);
    var files: map<SongName, seq<byte>> := map["song.mp3" := content];
    nameQ.Send("missing.mp3");
    reader.ServeRequest(nameQ, files, failures1);
    nameQ.Send("song.mp3");
    reader.ServeRequest(nameQ, files, failures2);
    sent, calls := reader.sent, reader.fsCalls;
  }
}
