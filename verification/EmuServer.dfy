/** The emulator server as a datagram server: request ids, the cached reply, the sector store. */
module EmuServer {
  import opened Block
  import opened SsdSim

  datatype Body =
    | Reset(size: nat, channels: nat, speed: int)
    | Submit(time: int, rw: Dir, sector: nat, count: nat, ioId: int)
    | GetNextResponses(time: int)
    | ReadSector(sector: nat)
    | WriteSector(sector: nat, payload: seq<Byte>)

  datatype Packet = Packet(id: int, body: Body)

  datatype ReplyBody = Done | Error | Responses(answer: Answer) | SectorData(bytes: seq<Byte>)

  datatype Reply = Reply(id: int, body: ReplyBody)

  /** `maxId` is the id of the last request executed, `last` the reply that was sent for it. */
  datatype Server = Server(sim: Sim, memory: seq<Byte>, maxId: int, last: Reply)

  datatype Served = Answers(server: Server, reply: Reply) | Silent(server: Server) | Stops

  const MEMORY_STORAGE_SIZE: nat := 400 * 1024 * 1024

  /** What a request does when it is executed. */
  datatype Effect = Effect(sim: Sim, memory: seq<Byte>, reply: ReplyBody) | NoReply | Never

  function Execute(sv: Server, body: Body): Effect {
    match body
    case Reset(size, channels, speed) =>
      if size > MEMORY_STORAGE_SIZE then Never else Effect(Setup(sv.sim, channels, speed), sv.memory, Done)
    case Submit(time, rw, sector, count, ioId) =>
      (match SubmitRequest(sv.sim, time, rw, sector, count, ioId)
       case Accepted(sim) => Effect(sim, sv.memory, Done)
       case Rejected => Effect(sv.sim, sv.memory, Error)
       case Stuck => Never)
    case GetNextResponses(time) =>
      Effect(Queried(sv.sim, time), sv.memory, Responses(NextResponses(sv.sim.chans, time)))
    case ReadSector(sector) =>
      var at := sector * SECTOR_SIZE;
      if at + SECTOR_SIZE <= |sv.memory| then Effect(sv.sim, sv.memory, SectorData(sv.memory[at..at + SECTOR_SIZE]))
      else Never
    case WriteSector(sector, payload) =>
      var at := sector * SECTOR_SIZE;
      if |payload| < SECTOR_SIZE then NoReply
      else if at + SECTOR_SIZE <= |sv.memory| then Effect(sv.sim, Splice(sv.memory, at, payload[..SECTOR_SIZE]), Done)
      else Never
  }

  function Finish(sv: Server, id: int, maxId: int, effect: Effect): Served {
    match effect
    case Effect(sim, memory, reply) => Answers(Server(sim, memory, maxId, Reply(id, reply)), Reply(id, reply))
    case NoReply => Silent(sv.(maxId := maxId))
    case Never => Stops
  }

  /** One datagram. A reset is executed whenever it comes; any other request is executed if its id is new, answered with
      the cached reply if it is the last one executed, and stops the server if it is older. */
  function Serve(sv: Server, p: Packet): Served {
    if p.body.Reset? then Finish(sv, p.id, 0, Execute(sv, p.body))
    else if p.id < sv.maxId then Stops
    else if p.id == sv.maxId then Answers(sv, sv.last)
    else Finish(sv, p.id, p.id, Execute(sv, p.body))
  }

  /** A request that is delivered again right after it was executed changes nothing and gets the same reply. */
  lemma Redelivery(sv: Server, p: Packet)
    requires Serve(sv, p).Answers? && (p.body.Reset? || sv.maxId < p.id)
    ensures var r := Serve(sv, p); Serve(r.server, p) == r && r.reply.id == p.id
  {
    hide SubmitRequest, NextResponses, Splice, Setup;
    if p.body.Reset? {
      SetupTwice(sv.sim, p.body.channels, p.body.speed);
    }
  }

  /** A submission is answered with an error exactly if no channel has completed before its time, and then nothing has
      changed. */
  lemma RefusalIsReported(sv: Server, p: Packet)
    requires p.body.Submit? && sv.maxId < p.id && Serve(sv, p).Answers?
    ensures Serve(sv, p).reply.body in {Done, Error}
    ensures Serve(sv, p).reply.body == Error <==>
              forall i | 0 <= i < |sv.sim.chans| :: sv.sim.chans[i].completion >= p.body.time
    ensures Serve(sv, p).reply.body == Error ==> Serve(sv, p).server.sim == sv.sim
    ensures Serve(sv, p).server.memory == sv.memory
  {
    hide SubmitRequest;
    var b := p.body;
    RefusedExactly(sv.sim, b.time, b.rw, b.sector, b.count, b.ioId);
  }

  /** A sector that was written is read back, by the next request and until it is written again; and no other sector
      changes. */
  lemma SectorsKeep(sv: Server, write: Packet, read: Packet)
    requires write.body.WriteSector? && sv.maxId < write.id && Serve(sv, write).Answers?
    requires read.body.ReadSector? && write.id < read.id && (read.body.sector + 1) * SECTOR_SIZE <= |sv.memory|
    requires |write.body.payload| == SECTOR_SIZE
    ensures var at := read.body.sector * SECTOR_SIZE;
            Serve(Serve(sv, write).server, read).Answers? &&
            Serve(Serve(sv, write).server, read).reply.body ==
            SectorData(if read.body.sector == write.body.sector then write.body.payload
                       else sv.memory[at..at + SECTOR_SIZE])
  {
    var from, at := write.body.sector * SECTOR_SIZE, read.body.sector * SECTOR_SIZE;
    var memory := Serve(sv, write).server.memory;
    assert memory == Splice(sv.memory, from, write.body.payload);
    if read.body.sector != write.body.sector {
      assert memory[at..at + SECTOR_SIZE] == sv.memory[at..at + SECTOR_SIZE];
    }
  }

  /** Of the requests up to the last one executed, all but that one stop the server for good. */
  lemma LateDuplicateStops(sv: Server, p: Packet)
    requires !p.body.Reset? && p.id <= sv.maxId
    ensures Serve(sv, p).Stops? <==> p.id < sv.maxId
  {
  }

  /** A late copy of a reset is executed again, and after it the server no longer knows any copy of any other
      request: it executes them all anew. */
  lemma LateResetForgets(sv: Server, reset: Packet, p: Packet)
    requires reset.body.Reset? && Serve(sv, reset).Answers? && !p.body.Reset? && p.id > 0
    ensures var after := Serve(sv, reset).server;
            && after.sim == Setup(sv.sim, reset.body.channels, reset.body.speed)
            && Serve(after, p) == Finish(after, p.id, p.id, Execute(after, p.body))
  {
    hide Setup, SubmitRequest, NextResponses, Splice;
  }
}
