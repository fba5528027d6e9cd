/**
 * End-to-end consequences of the dispatcher with concrete backends: the
 * Gluster stub, and an external backend that refuses a removal.
 */
module Scenarios {
  import opened Wrappers
  import opened Api
  import opened Gluster
  import opened Backends
  import opened Auth
  import opened Dispatch

  /** With the Gluster backend every authorised add of a named disk is answered OK. */
  lemma GlusterAddAnsweredOk(decode: Decoder, req: Request)
    requires Authorised(decode, req)
    requires decode(req.bytes).value.kind == Add && decode(req.bytes).value.disk.Some?
    requires req.world.backend == Ok(Gluster(GlusterBackend))
    ensures Handle(decode, req).reply == Some(OpReply(OpResult(OK, None)))
  {
  }

  /** With the Gluster backend every authorised removal of a named disk is answered OK. */
  lemma GlusterRemoveAnsweredOk(decode: Decoder, req: Request)
    requires Authorised(decode, req)
    requires decode(req.bytes).value.kind == Remove && decode(req.bytes).value.disk.Some?
    requires req.world.backend == Ok(Gluster(GlusterBackend))
    ensures Handle(decode, req).reply == Some(OpReply(OpResult(OK, None)))
  {
  }

  /** With the Gluster backend every safe-to-remove check is answered OK, true. */
  lemma GlusterSafeToRemoveAnsweredTrue(decode: Decoder, req: Request)
    requires Authorised(decode, req)
    requires decode(req.bytes).value.kind == SafeToRemove && decode(req.bytes).value.disk.Some?
    requires req.world.backend == Ok(Gluster(GlusterBackend))
    ensures Handle(decode, req).reply == Some(BoolReply(OpBoolResult(OK, Some(true), None)))
  {
  }

  /** A removal the backend refuses is answered ERR with the backend's message. */
  lemma RemoveRefusedAnsweredErr(decode: Decoder, req: Request, message: string)
    requires Authorised(decode, req)
    requires decode(req.bytes).value.kind == Remove && decode(req.bytes).value.disk.Some?
    requires req.world.backend.Ok? && req.world.backend.value.External?
    requires req.world.backend.value.remove(decode(req.bytes).value.disk.value, false) == Err(message)
    ensures Handle(decode, req).reply == Some(OpReply(OpResult(ERR, Some(message))))
  {
  }

  /** A listing reports one disk per host device. */
  lemma ListReportsEveryDevice(decode: Decoder, req: Request)
    requires Authorised(decode, req)
    requires decode(req.bytes).value.kind == List
    requires req.world.devices.Ok?
    ensures Handle(decode, req).reply.Some?
    ensures |Handle(decode, req).reply.value.disks| == |req.world.devices.value|
  {
  }

  /** A request whose token the gate refuses gets no reply, whatever it asks. */
  lemma RefusedTokenNoReply(decode: Decoder, req: Request)
    requires decode(req.bytes).Some?
    requires ValidateVaultToken(req.world.vault, decode(req.bytes).value.token).Err?
    ensures Handle(decode, req) == Dropped
  {
  }
}
