// The chunk reader behind SendTaildropFiles (daemon/started_service_taildrop.go): it turns the
// messages of a stream into the bytes of one file after another and acknowledges what it hands out.
module TaildropReader {
  import opened Base

  datatype Message = Chunk(data: seq<Octet>) | FileDone | Other

  datatype Status = Ok | EndOfFile | StreamError | Unexpected

  /** An acknowledgement is due when this much has been handed out since the last one. */
  const ACK_INTERVAL := 1048576

  // ---- what the messages mean

  /** The bytes of all chunks, in order. */
  function Chunks(messages: seq<Message>): seq<Octet> {
    if messages == [] then [] else
    Chunks(messages[..|messages| - 1]) + if messages[|messages| - 1].Chunk? then messages[|messages| - 1].data else []
  }

  /** Where the current file ends. */
  function DoneAt(messages: seq<Message>): (r: Option<nat>)
    ensures r.Some? ==> r.value < |messages| && messages[r.value] == FileDone && FileDone !in messages[..r.value]
    ensures r.None? <==> FileDone !in messages
  {
    if messages == [] then None else if messages[0] == FileDone then Some(0) else
    var r := DoneAt(messages[1..]);
    if r.None? then None else
    assert messages[..r.value + 1] == [messages[0]] + messages[1..][..r.value];
    Some(r.value + 1)
  }

  /** The first n files of the messages, each the chunks up to its FileDone, and the messages after them. */
  function Split(messages: seq<Message>, n: nat): Option<(seq<seq<Octet>>, seq<Message>)> {
    if n == 0 then Some(([], messages)) else
    match Split(messages, n - 1)
    case None => None
    case Some((files, rest)) =>
      match DoneAt(rest)
      case None => None
      case Some(i) => Some((files + [Chunks(rest[..i])], rest[i + 1..]))
  }

  /** What is left of the file is its FileDone, after empty chunks at most. */
  predicate OnlyDone(messages: seq<Message>) {
    messages != [] && (messages[0] == FileDone || (messages[0] == Chunk([]) && OnlyDone(messages[1..])))
  }

  lemma {:induction false} DoneIs(messages: seq<Message>, i: nat)
    requires i < |messages| && messages[i] == FileDone && FileDone !in messages[..i]
    ensures DoneAt(messages) == Some(i)
  {
    if i > 0 {
      assert messages[..i] == [messages[0]] + messages[1..][..i - 1];
      DoneIs(messages[1..], i - 1);
    }
  }

  /** One more message adds its bytes, if it has any, and moves nothing. */
  lemma {:induction false} TakeOne(carried: seq<Octet>, taken: seq<Message>, message: Message)
    ensures (taken + [message])[..|taken|] == taken
    ensures carried + Chunks(taken + [message])
         == carried + Chunks(taken) + if message.Chunk? then message.data else []
  {
    var data, more := if message.Chunk? then message.data else [], taken + [message];
    assert more[..|taken|] == taken;
    assert Chunks(more) == Chunks(taken) + data;
    hide Chunks;
    assert carried + (Chunks(taken) + data) == carried + Chunks(taken) + data;
  }

  // ---- acknowledgements

  /** Acknowledgements grow by at least the interval, and less than the interval is outstanding. */
  ghost predicate AcksRight(acks: seq<nat>, received: nat, acknowledged: nat, reporting: bool) {
    && (forall i | 0 <= i < |acks| :: ACK_INTERVAL <= acks[i] <= acknowledged)
    && (forall i, j | 0 <= i < j < |acks| :: acks[i] + ACK_INTERVAL <= acks[j])
    && acknowledged == (if acks == [] then 0 else acks[|acks| - 1])
    && acknowledged <= received
    && (reporting ==> received - acknowledged < ACK_INTERVAL)
  }

  lemma Outstanding(acks: seq<nat>, received: nat, acknowledged: nat, reporting: bool)
    requires AcksRight(acks, received, acknowledged, reporting)
    ensures reporting ==> received - acknowledged < 1_048_576
  {
  }

  // ---- the reader

  class ChunkReader {
    const reporting: bool
    var incoming: seq<Message>
    var buffer: seq<Octet>
    var fileDone: bool
    var fileReceived: nat
    var received: nat
    var acknowledged: nat
    var acks: seq<nat>

    /** The bytes the file began with, and the messages taken and bytes handed out since. */
    ghost var carried: seq<Octet>
    ghost var taken: seq<Message>
    ghost var handed: seq<Octet>

    /** Every byte the file began with or took from the stream since has been handed out or is in the
        buffer, and nothing has been taken past the file's FileDone. */
    ghost predicate Valid()
      reads this
    {
      && carried + Chunks(taken) == handed + buffer
      && fileReceived == |handed|
      && (if fileDone then taken != [] && taken[|taken| - 1] == FileDone && FileDone !in taken[..|taken| - 1]
          else FileDone !in taken)
      && AcksRight(acks, received, acknowledged, reporting)
    }

    constructor (incoming: seq<Message>, reporting: bool)
      ensures Valid() && this.incoming == incoming && this.reporting == reporting && buffer == [] && received == 0
      ensures carried == []
    {
      this.incoming, this.reporting := incoming, reporting;
      buffer, fileDone, fileReceived, received, acknowledged, acks := [], false, 0, 0, 0, [];
      carried, taken, handed := [], [], [];
    }

    method BeginFile()
      requires Valid()
      modifies this
      ensures Valid() && taken == [] && handed == [] && !fileDone && carried == buffer == old(buffer)
      ensures incoming == old(incoming) && received == old(received) && acks == old(acks)
    {
      fileDone, fileReceived := false, 0;
      carried, taken, handed := buffer, [], [];
    }

    /** One message from the stream into the reader; the loops of Read and FinishFile share it. */
    method Receive() returns (status: Status)
      requires Valid() && buffer == [] && !fileDone
      modifies this`incoming, this`buffer, this`fileDone, this`taken
      ensures Valid()
      ensures old(incoming) == [] ==> status == StreamError && unchanged(this)
      ensures old(incoming) != [] ==>
                && incoming == old(incoming)[1..] && taken == old(taken) + [old(incoming)[0]]
                && fileDone == old(incoming)[0].FileDone?
                && buffer == (if old(incoming)[0].Chunk? then old(incoming)[0].data else [])
                && status == if old(incoming)[0].Other? then Unexpected else Ok
    {
      hide Chunks, AcksRight;
      if incoming == [] { return StreamError; }
      var message := incoming[0];
      incoming := incoming[1..];
      status := Ok;
      match message {
        case Chunk(data) => buffer := data;
        case FileDone => fileDone := true;
        case Other => status := Unexpected;
      }
      taken := taken + [message];
      TakeOne(carried, old(taken), message);
    }

    /** Takes messages until there is something to hand out; on success no message was unexpected. */
    method Fill() returns (status: Status)
      requires Valid()
      modifies this`incoming, this`buffer, this`fileDone, this`taken
      ensures Valid() && old(taken) + old(incoming) == taken + incoming
      ensures status == Ok <==> buffer != []
      ensures status == EndOfFile ==> fileDone
      ensures status == StreamError ==> incoming == [] && !fileDone
      ensures status == Unexpected ==> Other in taken && !fileDone
      ensures status == Ok || status == EndOfFile ==> (Other in taken ==> Other in old(taken))
      ensures |incoming| < |old(incoming)| || unchanged(this)
    {
      ghost var all := taken + incoming;
      status := Ok;
      while buffer == []
        invariant Valid() && all == taken + incoming && status == Ok
        invariant Other in taken ==> Other in old(taken)
        invariant |incoming| < |old(incoming)| || (incoming == old(incoming) && buffer == old(buffer)
                    && fileDone == old(fileDone) && taken == old(taken))
        decreases |incoming|, !fileDone
      {
        if fileDone { return EndOfFile; }
        status := Receive();
        if status != Ok { return; }
      }
    }

    method CopyBuffer(destination: array<Octet>) returns (n: nat)
      modifies destination
      ensures n == if destination.Length < |buffer| then destination.Length else |buffer|
      ensures destination[..n] == buffer[..n] && destination[n..] == old(destination[n..])
    {
      n := if destination.Length < |buffer| then destination.Length else |buffer|;
      forall i | 0 <= i < n { destination[i] := buffer[i]; }
      assert destination[..n] == buffer[..n];
    }

    /** Hands out the next bytes of the file; at least one, if there is room, unless the file is over or
        the stream is at fault. */
    method Read(destination: array<Octet>) returns (n: nat, status: Status)
      requires Valid()
      modifies this, destination
      ensures Valid() && n <= destination.Length
      ensures handed == old(handed) + destination[..n] && destination[n..] == old(destination[n..])
      ensures old(taken) + old(incoming) == taken + incoming && carried == old(carried)
      ensures received == old(received) + n && old(acks) <= acks
      ensures status == Ok ==> n == 0 ==> destination.Length == 0
      ensures status == Ok ==> n == destination.Length || buffer == []
      ensures reporting ==> received - acknowledged < 1_048_576
      ensures status != Ok ==> n == 0 && buffer == []
      ensures status == EndOfFile ==> fileDone
      ensures status == StreamError ==> incoming == [] && !fileDone
      ensures status == Unexpected ==> Other in taken && !fileDone
      ensures status == Ok || status == EndOfFile ==> (Other in taken ==> Other in old(taken))
      ensures status == Ok && n > 0 ==>
                |incoming| < |old(incoming)| || (incoming == old(incoming) && |buffer| < |old(buffer)|)
    {
      hide Chunks, AcksRight;
      status := Fill();
      n := 0;
      if status == Ok { n := HandOut(destination); }
      Outstanding(acks, received, acknowledged, reporting);
    }

    /** Copies as much of the buffer as there is room for. */
    method HandOut(destination: array<Octet>) returns (n: nat)
      requires Valid()
      modifies this`buffer, this`handed, this`fileReceived, this`received, this`acknowledged, this`acks, destination
      ensures Valid() && n == if destination.Length < |old(buffer)| then destination.Length else |old(buffer)|
      ensures buffer == old(buffer)[n..] && handed == old(handed) + destination[..n]
      ensures destination[n..] == old(destination[n..]) && received == old(received) + n && old(acks) <= acks
    {
      hide Chunks, AcksRight;
      n := CopyBuffer(destination);
      assert handed + buffer == (handed + buffer[..n]) + buffer[n..];
      handed := handed + buffer[..n];
      buffer := buffer[n..];
      fileReceived := fileReceived + n;
      Acknowledge(n);
    }

    /** Counts bytes handed out and acknowledges them when the interval is reached. */
    method Acknowledge(n: nat)
      requires AcksRight(acks, received, acknowledged, reporting)
      modifies this`received, this`acknowledged, this`acks
      ensures AcksRight(acks, received, acknowledged, reporting)
      ensures received == old(received) + n && old(acks) <= acks
      ensures acks == if reporting && received - old(acknowledged) >= 1_048_576 then old(acks) + [received]
                      else old(acks)
    {
      received := received + n;
      if reporting && received - acknowledged >= ACK_INTERVAL {
        acknowledged := received;
        acks := acks + [received];
      }
    }

    /** Succeeds exactly when everything has been read, only the FileDone is left to come, and the size
        is the declared one; then the bytes handed out are the file's chunks and nothing is left over. */
    method FinishFile(declaredSize: int) returns (ok: bool)
      requires Valid()
      modifies this
      ensures Valid() && old(taken) + old(incoming) == taken + incoming && handed == old(handed)
      ensures carried == old(carried)
      ensures received == old(received) && acks == old(acks) && fileReceived == old(fileReceived)
      ensures ok <==> old(buffer) == [] && (old(fileDone) || OnlyDone(old(incoming)))
                      && (declaredSize < 0 || old(fileReceived) == declaredSize)
      ensures ok ==> buffer == [] && fileDone
    {
      ghost var all := taken + incoming;
      while !fileDone
        invariant Valid() && all == taken + incoming && handed == old(handed) && carried == old(carried)
        invariant received == old(received) && acks == old(acks) && fileReceived == old(fileReceived)
        invariant (buffer == [] && (fileDone || OnlyDone(incoming))) <==>
                  (old(buffer) == [] && (old(fileDone) || OnlyDone(old(incoming))))
        decreases |incoming|, !fileDone
      {
        if |buffer| > 0 { return false; }
        var status := Receive();
        if status != Ok { return false; }
      }
      if |buffer| > 0 { return false; }
      ok := declaredSize < 0 || fileReceived == declaredSize;
    }

    lemma Received()
      requires Valid()
      ensures fileReceived == |handed|
    {
    }

    /** A finished file, told from the messages alone; what it began with comes first. */
    lemma FinishedFile(start: seq<Message>)
      requires Valid() && fileDone && buffer == [] && start == taken + incoming
      ensures DoneAt(start) == Some(|taken| - 1)
      ensures handed == carried + Chunks(start[..|taken| - 1]) && incoming == start[|taken|..]
    {
      assert start[..|taken| - 1] == taken[..|taken| - 1];
      assert handed + [] == handed;
      DoneIs(start, |taken| - 1);
    }
  }

  /** What the peer's side does with one file: the sizes it reads, and whether it gives up after them. */
  datatype Plan = Plan(lengths: seq<nat>, fails: bool)

  /** The reads of one file, in any pattern; returns the bytes read. */
  method ReadPattern(reader: ChunkReader, lengths: seq<nat>) returns (bytes: seq<Octet>)
    requires reader.Valid() && reader.handed == []
    modifies reader
    ensures reader.Valid() && bytes == reader.handed
    ensures reader.taken + reader.incoming == old(reader.taken) + old(reader.incoming)
    ensures reader.carried == old(reader.carried)
  {
    bytes := [];
    for i := 0 to |lengths|
      invariant reader.Valid() && bytes == reader.handed
      invariant reader.taken + reader.incoming == old(reader.taken) + old(reader.incoming)
      invariant reader.carried == old(reader.carried)
    {
      var destination := new Octet[lengths[i]](_ => 0);
      var n, status := reader.Read(destination);
      bytes := bytes + destination[..n];
    }
  }

  /** One file: what is reported complete is its chunks, with the declared size, and nothing after it. */
  method SendFile(reader: ChunkReader, size: int, plan: Plan) returns (bytes: seq<Octet>, ok: bool)
    requires reader.Valid() && reader.buffer == []
    modifies reader
    ensures reader.Valid()
    ensures ok ==> reader.buffer == [] && (size < 0 || |bytes| == size)
    ensures ok ==> var end := DoneAt(old(reader.incoming));
                   end.Some? && bytes == Chunks(old(reader.incoming)[..end.value])
                   && reader.incoming == old(reader.incoming)[end.value + 1..]
  {
    hide ChunkReader.Valid, Chunks;
    reader.BeginFile();
    assert reader.taken + reader.incoming == old(reader.incoming);
    bytes := ReadPattern(reader, plan.lengths);
    if plan.fails { return bytes, false; }
    ok := reader.FinishFile(size);
    if ok {
      reader.FinishedFile(old(reader.incoming));
      reader.Received();
      assert forall b: seq<Octet> :: [] + b == b;
    }
  }

  /** The per-file loop of SendTaildropFiles. However the peer reads, every file reported complete is the
      chunks of that file and of no other, with the declared size; the next begins right after it. */
  method SendFiles(reader: ChunkReader, sizes: seq<int>, plans: seq<Plan>) returns (sent: seq<seq<Octet>>, ok: bool)
    requires reader.Valid() && reader.buffer == [] && |plans| == |sizes|
    modifies reader
    ensures reader.Valid() && |sent| <= |sizes|
    ensures Split(old(reader.incoming), |sent|).Some? && sent == Split(old(reader.incoming), |sent|).value.0
    ensures forall i | 0 <= i < |sent| :: sizes[i] < 0 || |sent[i]| == sizes[i]
    ensures ok ==>
              |sent| == |sizes| && reader.buffer == []
                  && Split(old(reader.incoming), |sent|) == Some((sent, reader.incoming))
  {
    hide *;
    sent := [];
    assert Split(reader.incoming, 0) == Some(([], reader.incoming)) by { SplitUnfold(reader.incoming, 0); }
    for i := 0 to |sizes|
      invariant reader.Valid() && reader.buffer == [] && |sent| == i
      invariant Split(old(reader.incoming), i) == Some((sent, reader.incoming))
      invariant forall k | 0 <= k < i :: sizes[k] < 0 || |sent[k]| == sizes[k]
    {
      var bytes, done := SendFile(reader, sizes[i], plans[i]);
      if !done { return sent, false; }
      SplitUnfold(old(reader.incoming), i + 1);
      sent := sent + [bytes];
    }
    ok := true;
  }

  lemma SplitUnfold(messages: seq<Message>, n: nat)
    ensures n == 0 ==> Split(messages, n) == Some(([], messages))
    ensures n > 0 && Split(messages, n - 1).Some? && DoneAt(Split(messages, n - 1).value.1).Some? ==>
              var (files, rest) := Split(messages, n - 1).value;
              var i := DoneAt(rest).value;
              Split(messages, n) == Some((files + [Chunks(rest[..i])], rest[i + 1..]))
  {
  }

  /** The file ends, and only chunks come before its end. */
  ghost predicate WellFormed(messages: seq<Message>) {
    DoneAt(messages).Some? && Other !in messages[..DoneAt(messages).value]
  }

  /** Reads into a buffer of the given length until the file ends or the stream fails. */
  method ReadToEnd(reader: ChunkReader, length: nat) returns (bytes: seq<Octet>, status: Status)
    requires reader.Valid() && reader.handed == [] && Other !in reader.taken && length > 0
    modifies reader
    ensures reader.Valid() && bytes == reader.handed && status != Ok && reader.buffer == []
    ensures reader.taken + reader.incoming == old(reader.taken) + old(reader.incoming)
    ensures reader.carried == old(reader.carried)
    ensures status == EndOfFile ==> reader.fileDone && Other !in reader.taken
    ensures status == StreamError ==> reader.incoming == [] && !reader.fileDone
    ensures status == Unexpected ==> Other in reader.taken && !reader.fileDone
  {
    hide ChunkReader.Valid;
    bytes, status := [], Ok;
    while status == Ok
      invariant reader.Valid() && bytes == reader.handed
      invariant reader.taken + reader.incoming == old(reader.taken) + old(reader.incoming)
      invariant reader.carried == old(reader.carried)
      invariant status == Ok || status == EndOfFile ==> Other !in reader.taken
      invariant status != Ok ==> reader.buffer == []
      invariant status == EndOfFile ==> reader.fileDone
      invariant status == StreamError ==> reader.incoming == [] && !reader.fileDone
      invariant status == Unexpected ==> Other in reader.taken && !reader.fileDone
      decreases status == Ok, |reader.incoming|, |reader.buffer|
    {
      var destination := new Octet[length](_ => 0);
      var n;
      n, status := reader.Read(destination);
      bytes := bytes + destination[..n];
    }
  }

  /** A peer that reads the whole file succeeds exactly when the file's messages are well formed and add
      up to the declared size. */
  method SendWholeFile(reader: ChunkReader, size: int, length: nat) returns (bytes: seq<Octet>, ok: bool)
    requires reader.Valid() && reader.buffer == [] && length > 0
    modifies reader
    ensures reader.Valid()
    ensures ok <==> WellFormed(old(reader.incoming)) &&
                    (size < 0 || |Chunks(old(reader.incoming)[..DoneAt(old(reader.incoming)).value])| == size)
    ensures ok ==> bytes == Chunks(old(reader.incoming)[..DoneAt(old(reader.incoming)).value])
  {
    ghost var start := reader.incoming;
    reader.BeginFile();
    assert reader.taken + reader.incoming == start;
    var status;
    bytes, status := ReadToEnd(reader, length);
    if status == EndOfFile {
      reader.FinishedFile(start);
      assert [] + Chunks(start[..|reader.taken| - 1]) == Chunks(start[..|reader.taken| - 1]);
      assert start[..|reader.taken| - 1] == reader.taken[..|reader.taken| - 1];
      ok := reader.FinishFile(size);
    } else {
      BrokenFile(start, reader.taken, reader.incoming);
      ok := false;
    }
  }

  lemma BrokenFile(start: seq<Message>, taken: seq<Message>, incoming: seq<Message>)
    requires start == taken + incoming && FileDone !in taken && (Other in taken || incoming == [])
    ensures !WellFormed(start)
  {
    assert forall k | 0 <= k < |taken| :: start[k] == taken[k] && start[k] in taken;
    if DoneAt(start).Some? {
      var i := DoneAt(start).value;
      assert i >= |taken|;
      assert taken == start[..i][..|taken|];
    }
  }
}
