/** The messages of one websocket connection and the two queues that carry them. */
module Protocol {

  newtype Byte = x: int | 0 <= x < 256

  type Bytes = seq<Byte>

  datatype Option<+T> = None | Some(value: T)

  /** What the browser sends. `Chunk` is a binary frame, the others are text frames;
      `Garbage` stands for a text frame the server cannot decode. */
  datatype ClientMsg =
    | UploadReq(id: string, length: int)
    | Ack(ok: bool)
    | Chunk(data: Bytes)
    | Pause
    | Cancel
    | ClientError
    | Garbage

  /** What the server sends. The browser also knows a cancel message, which the server never sends. */
  datatype ServerMsg =
    | UploadConf(chunkKB: nat, filePos: nat, sendAhead: nat)
    | ChunkAck(size: nat)
    | CancelAck
    | ServerCancel
    | ServerError
    | AllDone

  function Min(a: int, b: int): int {
    if a <= b then a else b
  }

  /** The file bytes carried by a queue, in order. */
  function Payload(q: seq<ClientMsg>): Bytes {
    if q == [] then [] else (if q[0].Chunk? then q[0].data else []) + Payload(q[1..])
  }

  /** How many bytes that is. */
  function Size(q: seq<ClientMsg>): nat {
    if q == [] then 0 else (if q[0].Chunk? then |q[0].data| else 0) + Size(q[1..])
  }

  function Chunks(q: seq<ClientMsg>): nat {
    if q == [] then 0 else (if q[0].Chunk? then 1 else 0) + Chunks(q[1..])
  }

  /** The bytes acknowledged by a queue of server messages. */
  function AckedBytes(q: seq<ServerMsg>): nat {
    if q == [] then 0 else (if q[0].ChunkAck? then q[0].size else 0) + AckedBytes(q[1..])
  }

  function Acks(q: seq<ServerMsg>): nat {
    if q == [] then 0 else (if q[0].ChunkAck? then 1 else 0) + Acks(q[1..])
  }

  lemma {:induction false} QueueAppend(q: seq<ClientMsg>, m: ClientMsg)
    ensures Size(q + [m]) == Size(q) + (if m.Chunk? then |m.data| else 0)
    ensures Chunks(q + [m]) == Chunks(q) + (if m.Chunk? then 1 else 0)
  {
    if q == [] {
      assert q + [m] == [m];
    } else {
      assert (q + [m])[1..] == q[1..] + [m];
      QueueAppend(q[1..], m);
    }
  }

  lemma {:induction false} ReplyAppend(q: seq<ServerMsg>, m: ServerMsg)
    ensures AckedBytes(q + [m]) == AckedBytes(q) + (if m.ChunkAck? then m.size else 0)
    ensures Acks(q + [m]) == Acks(q) + (if m.ChunkAck? then 1 else 0)
  {
    if q == [] {
      assert q + [m] == [m];
    } else {
      assert (q + [m])[1..] == q[1..] + [m];
      ReplyAppend(q[1..], m);
    }
  }

  /** Losing the tail of a connection loses some of its bytes. */
  lemma {:induction false} QueuePrefix(q: seq<ClientMsg>, k: nat)
    requires k <= |q|
    ensures Size(q[..k]) <= Size(q)
  {
    if k > 0 {
      assert q[..k][1..] == q[1..][..k - 1];
      QueuePrefix(q[1..], k - 1);
    }
  }

  lemma {:induction false} ReplyPrefix(q: seq<ServerMsg>, k: nat)
    requires k <= |q|
    ensures AckedBytes(q[..k]) <= AckedBytes(q) && Acks(q[..k]) <= Acks(q)
  {
    if k > 0 {
      assert q[..k][1..] == q[1..][..k - 1];
      ReplyPrefix(q[1..], k - 1);
    }
  }
}
