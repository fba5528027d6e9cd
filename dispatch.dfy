/**
 * The per-request decision procedure of the listener, as pure functions:
 * what one inbound message makes the server send and which backend or
 * discovery calls it makes, and the same over a stream of messages.
 */
module Dispatch {
  import opened Wrappers
  import opened Api
  import opened Backends
  import opened Discovery
  import opened Auth

  /** Protobuf decoding of a request; the codec is not part of this model. */
  type Decoder = Bytes -> Option<Operation>

  /**
   * What the outside world answers while one request is handled: the secrets
   * service, `load_backend`, block-device enumeration and partition-table reads.
   */
  datatype World = World(
    vault: VaultAnswer,
    backend: Result<Backend>,
    devices: Result<seq<Device>>,
    readTable: PartitionReader)

  /** One inbound message together with the world it is handled in. */
  datatype Request = Request(bytes: Bytes, world: World)

  /** What handling one request produces: at most one reply, and the calls made. */
  datatype Step = Step(reply: Option<Reply>, calls: seq<Call>)

  const Dropped := Step(None, [])

  function ReplyList(reply: Option<Reply>): (rs: seq<Reply>)
    ensures |rs| <= 1
  {
    if reply.Some? then [reply.value] else []
  }

  /** The OpResult sent for an add or remove, built from the backend's outcome. */
  function OpResultOf(outcome: Result<()>): (r: OpResult)
    ensures r.result == OK <==> outcome.Ok?
    ensures r.errorMsg.Some? <==> r.result == ERR
    ensures OpResultOutcome(r) == outcome
  {
    match outcome
    case Ok(u) => assert u == (); OpResult(OK, None)
    case Err(e) => OpResult(ERR, Some(e))
  }

  /** How a client reads an OpResult back. */
  function OpResultOutcome(r: OpResult): Result<()> {
    if r.result == OK then Ok(()) else Err(if r.errorMsg.Some? then r.errorMsg.value else "")
  }

  /** The OpBoolResult sent for a safe-to-remove check. */
  function OpBoolResultOf(outcome: Result<bool>): (r: OpBoolResult)
    ensures r.result == OK <==> outcome.Ok?
    ensures r.value.Some? <==> r.result == OK
    ensures r.errorMsg.Some? <==> r.result == ERR
    ensures OpBoolResultOutcome(r) == outcome
  {
    match outcome
    case Ok(v) => OpBoolResult(OK, Some(v), None)
    case Err(e) => OpBoolResult(ERR, None, Some(e))
  }

  /** How a client reads an OpBoolResult back. */
  function OpBoolResultOutcome(r: OpBoolResult): Result<bool> {
    if r.result == OK then Ok(r.value.Some? && r.value.value)
    else Err(if r.errorMsg.Some? then r.errorMsg.value else "")
  }

  predicate NeedsDisk(kind: OpKind) {
    kind == Add || kind == Remove || kind == SafeToRemove
  }

  /** The request decodes and its token passes the gate. */
  predicate Authorised(decode: Decoder, req: Request) {
    decode(req.bytes).Some? && ValidateVaultToken(req.world.vault, decode(req.bytes).value.token).Ok?
  }

  /**
   * The requests that get a reply, stated independently of `Handle`: an
   * authorised request of a kind other than AddPartition that carries the
   * disk its kind needs, when the backend loads or the devices enumerate.
   */
  predicate Answered(decode: Decoder, req: Request) {
    Authorised(decode, req) &&
    var op := decode(req.bytes).value;
    op.kind != AddPartition &&
    (NeedsDisk(op.kind) ==> op.disk.Some? && req.world.backend.Ok?) &&
    (op.kind == List ==> req.world.devices.Ok?)
  }

  /** One pass of the receive loop's body. */
  function Handle(decode: Decoder, req: Request): (s: Step)
    // a message that does not decode, or whose token is refused, is dropped untouched
    ensures !Authorised(decode, req) ==> s == Dropped
    // a reply goes out exactly for the requests `Answered` describes
    ensures s.reply.Some? <==> Answered(decode, req)
    // at most one call, never a simulated one; every reply follows exactly one call
    ensures |s.calls| <= 1
    ensures forall c :: c in s.calls ==> !c.Simulates()
    ensures s.reply.Some? ==> |s.calls| == 1
    ensures Authorised(decode, req) ==>
      var op := decode(req.bytes).value;
      // a missing disk or an AddPartition does nothing at all
      ((NeedsDisk(op.kind) && op.disk.None?) || op.kind == AddPartition ==> s == Dropped) &&
      // a backend that fails to load is never called and nothing is sent
      (NeedsDisk(op.kind) && req.world.backend.Err? ==> s == Dropped) &&
      // a failed enumeration was attempted, but nothing is sent
      (op.kind == List && req.world.devices.Err? ==> s == Step(None, [EnumerateDevices])) &&
      // the reply carries the backend's or discovery's answer, in the shape of the kind
      (s.reply.Some? && op.kind == Add ==>
        s.calls == [AddDiskCall(op.disk.value, op.osdId, op.osdJournal, op.osdJournalPartition, false)] &&
        s.reply.value ==
          OpReply(OpResultOf(req.world.backend.value.AddDisk(op.disk.value, op.osdId, op.osdJournal, op.osdJournalPartition, false)))) &&
      (s.reply.Some? && op.kind == Remove ==>
        s.calls == [RemoveDiskCall(op.disk.value, false)] &&
        s.reply.value == OpReply(OpResultOf(req.world.backend.value.RemoveDisk(op.disk.value, false)))) &&
      (s.reply.Some? && op.kind == SafeToRemove ==>
        s.calls == [SafeToRemoveCall(op.disk.value, false)] &&
        s.reply.value == BoolReply(OpBoolResultOf(req.world.backend.value.SafeToRemove(op.disk.value, false)))) &&
      (s.reply.Some? && op.kind == List ==>
        s.calls == [EnumerateDevices] &&
        s.reply.value.DisksReply? &&
        Ok(s.reply.value.disks) == Discover(req.world.devices, req.world.readTable))
  {
    match decode(req.bytes)
    case None => Dropped
    case Some(op) =>
      if ValidateVaultToken(req.world.vault, op.token).Err? then Dropped
      else
        match op.kind
        case Add =>
          if op.disk.None? then Dropped
          else HandleAdd(op.disk.value, op.osdId, op.osdJournal, op.osdJournalPartition, req.world.backend)
        case AddPartition => Dropped
        case List => HandleList(req.world)
        case Remove =>
          if op.disk.None? then Dropped else HandleRemove(op.disk.value, req.world.backend)
        case SafeToRemove =>
          if op.disk.None? then Dropped else HandleSafeToRemove(op.disk.value, req.world.backend)
  }

  /** `add_disk`: a backend that fails to load sends nothing. */
  function HandleAdd(d: string, id: Option<U64>, journal: Option<string>, journalPartition: Option<U32>,
                     load: Result<Backend>): (s: Step)
    ensures load.Err? ==> s == Dropped
    ensures load.Ok? ==> s.calls == [AddDiskCall(d, id, journal, journalPartition, false)]
    ensures load.Ok? ==> s.reply == Some(OpReply(OpResultOf(load.value.AddDisk(d, id, journal, journalPartition, false))))
  {
    match load
    case Err(_) => Dropped
    case Ok(b) =>
      Step(Some(OpReply(OpResultOf(b.AddDisk(d, id, journal, journalPartition, false)))),
           [AddDiskCall(d, id, journal, journalPartition, false)])
  }

  /** `list_disks`: a failed device enumeration sends nothing. */
  function HandleList(world: World): (s: Step)
    ensures s.calls == [EnumerateDevices]
    ensures s.reply.Some? <==> world.devices.Ok?
    ensures s.reply.Some? ==> s.reply.value.DisksReply? && Ok(s.reply.value.disks) == Discover(world.devices, world.readTable)
  {
    match Discover(world.devices, world.readTable)
    case Err(_) => Step(None, [EnumerateDevices])
    case Ok(disks) => Step(Some(DisksReply(disks)), [EnumerateDevices])
  }

  /** `remove_disk`. */
  function HandleRemove(d: string, load: Result<Backend>): (s: Step)
    ensures load.Err? ==> s == Dropped
    ensures load.Ok? ==> s.calls == [RemoveDiskCall(d, false)]
    ensures load.Ok? ==> s.reply == Some(OpReply(OpResultOf(load.value.RemoveDisk(d, false))))
  {
    match load
    case Err(_) => Dropped
    case Ok(b) => Step(Some(OpReply(OpResultOf(b.RemoveDisk(d, false)))), [RemoveDiskCall(d, false)])
  }

  /** `safe_to_remove_disk`. */
  function HandleSafeToRemove(d: string, load: Result<Backend>): (s: Step)
    ensures load.Err? ==> s == Dropped
    ensures load.Ok? ==> s.calls == [SafeToRemoveCall(d, false)]
    ensures load.Ok? ==> s.reply == Some(BoolReply(OpBoolResultOf(load.value.SafeToRemove(d, false))))
  {
    match load
    case Err(_) => Dropped
    case Ok(b) => Step(Some(BoolReply(OpBoolResultOf(b.SafeToRemove(d, false)))), [SafeToRemoveCall(d, false)])
  }

  /** The replies sent and the calls made, in order, over a stream of requests. */
  datatype Trace = Trace(replies: seq<Reply>, calls: seq<Call>)

  function Run(decode: Decoder, reqs: seq<Request>): (t: Trace)
    ensures |t.replies| <= |reqs| && |t.calls| <= |reqs|
    decreases |reqs|
  {
    if reqs == [] then Trace([], [])
    else
      var prev := Run(decode, reqs[..|reqs| - 1]);
      var step := Handle(decode, reqs[|reqs| - 1]);
      Trace(prev.replies + ReplyList(step.reply), prev.calls + step.calls)
  }

  /** The number of requests in a stream that get a reply. */
  function CountAnswered(decode: Decoder, reqs: seq<Request>): (n: nat)
    ensures n <= |reqs|
    decreases |reqs|
  {
    if reqs == [] then 0
    else CountAnswered(decode, reqs[..|reqs| - 1]) + (if Answered(decode, reqs[|reqs| - 1]) then 1 else 0)
  }

  /** The number of requests in a stream that pass decoding and the token gate. */
  function CountAuthorised(decode: Decoder, reqs: seq<Request>): (n: nat)
    ensures n <= |reqs|
    decreases |reqs|
  {
    if reqs == [] then 0
    else CountAuthorised(decode, reqs[..|reqs| - 1]) + (if Authorised(decode, reqs[|reqs| - 1]) then 1 else 0)
  }

  /** Exactly one reply per answered request, and so never more replies than requests. */
  lemma {:induction false} RunRepliesCountAnswered(decode: Decoder, reqs: seq<Request>)
    ensures |Run(decode, reqs).replies| == CountAnswered(decode, reqs) <= |reqs|
    decreases |reqs|
  {
    if reqs != [] {
      RunRepliesCountAnswered(decode, reqs[..|reqs| - 1]);
    }
  }

  /** Backend and discovery calls are made only for authorised requests, one at most each. */
  lemma {:induction false} RunCallsOnlyWhenAuthorised(decode: Decoder, reqs: seq<Request>)
    ensures |Run(decode, reqs).calls| <= CountAuthorised(decode, reqs)
    decreases |reqs|
  {
    if reqs != [] {
      RunCallsOnlyWhenAuthorised(decode, reqs[..|reqs| - 1]);
    }
  }

  /** No call the dispatcher makes ever asks the backend to simulate. */
  lemma {:induction false} RunNeverSimulates(decode: Decoder, reqs: seq<Request>)
    ensures forall c :: c in Run(decode, reqs).calls ==> !c.Simulates()
    decreases |reqs|
  {
    if reqs != [] {
      RunNeverSimulates(decode, reqs[..|reqs| - 1]);
    }
  }

  /** Handling two streams one after the other is handling their concatenation. */
  lemma {:induction false} RunAppend(decode: Decoder, a: seq<Request>, b: seq<Request>)
    ensures Run(decode, a + b).replies == Run(decode, a).replies + Run(decode, b).replies
    ensures Run(decode, a + b).calls == Run(decode, a).calls + Run(decode, b).calls
    decreases |b|
  {
    if b == [] {
      assert a + b == a;
    } else {
      var b' := b[..|b| - 1];
      assert (a + b)[..|a + b| - 1] == a + b';
      assert (a + b)[|a + b| - 1] == b[|b| - 1];
      RunAppend(decode, a, b');
    }
  }

  /** A request that is not answered leaves the replies of a stream unchanged. */
  lemma UnansweredSendsNothing(decode: Decoder, reqs: seq<Request>, req: Request)
    requires !Answered(decode, req)
    ensures Run(decode, reqs + [req]).replies == Run(decode, reqs).replies
  {
    assert (reqs + [req])[..|reqs|] == reqs;
  }
}
