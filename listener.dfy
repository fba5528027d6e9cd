/**
 * The listener: a server that receives requests one at a time, dispatches
 * each, and "sends" a reply by appending it to its reply log. The calls it
 * makes into the backend and into device discovery are logged as well.
 */
module Listener {
  import opened Wrappers
  import opened Api
  import opened Backends
  import opened Discovery
  import opened Auth
  import opened Dispatch

  class Server {
    /** The protobuf decoder the server parses requests with. */
    const decode: Decoder
    /** Every reply sent, in order. */
    var replies: seq<Reply>
    /** Every backend or discovery call made, in order. */
    var calls: seq<Call>

    constructor (decode: Decoder)
      ensures this.decode == decode
      ensures replies == [] && calls == []
    {
      this.decode := decode;
      replies := [];
      calls := [];
    }

    /** Sending on the reply socket. */
    method Send(reply: Reply)
      modifies this
      ensures replies == old(replies) + [reply]
      ensures calls == old(calls)
    {
      replies := replies + [reply];
    }

    /** `add_disk`: load the backend, call it, fill in an OpResult and send it. */
    method AddDisk(d: string, id: Option<U64>, journal: Option<string>, journalPartition: Option<U32>,
                   load: Result<Backend>) returns (r: Result<()>)
      modifies this
      ensures r.Ok? <==> load.Ok?
      ensures replies == old(replies) + ReplyList(HandleAdd(d, id, journal, journalPartition, load).reply)
      ensures calls == old(calls) + HandleAdd(d, id, journal, journalPartition, load).calls
    {
      if load.Err? {
        return Err(load.error);
      }
      var backend := load.value;
      var result := OpResult(OK, None);
      calls := calls + [AddDiskCall(d, id, journal, journalPartition, false)];
      match backend.AddDisk(d, id, journal, journalPartition, false) {
        case Ok(_) =>
          result := result.(result := OK);
        case Err(e) =>
          result := result.(result := ERR);
          result := result.(errorMsg := Some(e));
      }
      Send(OpReply(result));
      return Ok(());
    }

    /** `remove_disk`. */
    method RemoveDisk(d: string, load: Result<Backend>) returns (r: Result<()>)
      modifies this
      ensures r.Ok? <==> load.Ok?
      ensures replies == old(replies) + ReplyList(HandleRemove(d, load).reply)
      ensures calls == old(calls) + HandleRemove(d, load).calls
    {
      if load.Err? {
        return Err(load.error);
      }
      var backend := load.value;
      var result := OpResult(OK, None);
      calls := calls + [RemoveDiskCall(d, false)];
      match backend.RemoveDisk(d, false) {
        case Ok(_) =>
          result := result.(result := OK);
        case Err(e) =>
          result := result.(result := ERR);
          result := result.(errorMsg := Some(e));
      }
      Send(OpReply(result));
      return Ok(());
    }

    /** `safe_to_remove_disk`: the value is set only when the backend answers. */
    method SafeToRemoveDisk(d: string, load: Result<Backend>) returns (r: Result<()>)
      modifies this
      ensures r.Ok? <==> load.Ok?
      ensures replies == old(replies) + ReplyList(HandleSafeToRemove(d, load).reply)
      ensures calls == old(calls) + HandleSafeToRemove(d, load).calls
    {
      if load.Err? {
        return Err(load.error);
      }
      var backend := load.value;
      var result := OpBoolResult(OK, None, None);
      calls := calls + [SafeToRemoveCall(d, false)];
      match backend.SafeToRemove(d, false) {
        case Ok(val) =>
          result := result.(result := OK);
          result := result.(value := Some(val));
        case Err(e) =>
          result := result.(result := ERR);
          result := result.(errorMsg := Some(e));
      }
      Send(BoolReply(result));
      return Ok(());
    }

    /** `list_disks`: discover the disks and send them; on failure send nothing. */
    method ListDisks(world: World) returns (r: Result<()>)
      modifies this
      ensures r.Ok? <==> world.devices.Ok?
      ensures replies == old(replies) + ReplyList(HandleList(world).reply)
      ensures calls == old(calls) + HandleList(world).calls
    {
      calls := calls + [EnumerateDevices];
      var diskList := GetDisks(world.devices, world.readTable);
      if diskList.Err? {
        return Err(diskList.error);
      }
      Send(DisksReply(diskList.value));
      return Ok(());
    }

    /** One pass of the receive loop; each early return is the loop's `continue`. */
    method HandleRequest(req: Request)
      modifies this
      ensures replies == old(replies) + ReplyList(Handle(decode, req).reply)
      ensures calls == old(calls) + Handle(decode, req).calls
    {
      var parsed := decode(req.bytes);
      if parsed.None? {
        return;
      }
      var operation := parsed.value;
      if ValidateVaultToken(req.world.vault, operation.token).Err? {
        return;
      }
      match operation.kind {
        case Add =>
          var id := if operation.osdId.Some? then Some(operation.osdId.value) else None;
          var journal := if operation.osdJournal.Some? then Some(operation.osdJournal.value) else None;
          var journalPartition :=
            if operation.osdJournalPartition.Some? then Some(operation.osdJournalPartition.value) else None;
          if operation.disk.None? {
            return;
          }
          var _ := AddDisk(operation.disk.value, id, journal, journalPartition, req.world.backend);
        case AddPartition =>
        case List =>
          var _ := ListDisks(req.world);
        case Remove =>
          if operation.disk.None? {
            return;
          }
          var _ := RemoveDisk(operation.disk.value, req.world.backend);
        case SafeToRemove =>
          if operation.disk.None? {
            return;
          }
          var _ := SafeToRemoveDisk(operation.disk.value, req.world.backend);
      }
    }

    /** `listen`: the receive loop, over the requests that arrive. */
    method Listen(reqs: seq<Request>)
      modifies this
      ensures replies == old(replies) + Run(decode, reqs).replies
      ensures calls == old(calls) + Run(decode, reqs).calls
    {
      var i := 0;
      while i < |reqs|
        invariant 0 <= i <= |reqs|
        invariant replies == old(replies) + Run(decode, reqs[..i]).replies
        invariant calls == old(calls) + Run(decode, reqs[..i]).calls
      {
        HandleRequest(reqs[i]);
        assert reqs[..i + 1][..i] == reqs[..i];
        i := i + 1;
      }
      assert reqs[..i] == reqs;
    }
  }
}
