/**
 * The backend abstraction: a sum type selected once at start-up by
 * `load_backend`, exposing the three operations of the `Backend` trait.
 * `External` stands for a backend whose code is not part of this model (the
 * Ceph backend): its answers are the functions it carries.
 */
module Backends {
  import opened Wrappers
  import opened Api
  import opened Gluster

  type AddFn = (string, Option<U64>, Option<string>, Option<U32>, bool) -> Result<()>
  type RemoveFn = (string, bool) -> Result<()>
  type SafeFn = (string, bool) -> Result<bool>

  datatype Backend =
    | Gluster(gluster: GlusterBackend)
    | External(add: AddFn, remove: RemoveFn, safe: SafeFn)
  {
    function AddDisk(device: string, id: Option<U64>, journal: Option<string>,
                     journalPartition: Option<U32>, simulate: bool): (r: Result<()>)
      ensures Gluster? ==> r.Ok?
      ensures External? ==> r == add(device, id, journal, journalPartition, simulate)
    {
      match this
      case Gluster(g) => g.AddDisk(device, id, journal, journalPartition, simulate)
      case External(add, _, _) => add(device, id, journal, journalPartition, simulate)
    }

    function RemoveDisk(device: string, simulate: bool): (r: Result<()>)
      ensures Gluster? ==> r.Ok?
      ensures External? ==> r == remove(device, simulate)
    {
      match this
      case Gluster(g) => g.RemoveDisk(device, simulate)
      case External(_, remove, _) => remove(device, simulate)
    }

    function SafeToRemove(device: string, simulate: bool): (r: Result<bool>)
      ensures Gluster? ==> r == Ok(true)
      ensures External? ==> r == safe(device, simulate)
    {
      match this
      case Gluster(g) => g.SafeToRemove(device, simulate)
      case External(_, _, safe) => safe(device, simulate)
    }
  }

  /** A call the server made into the backend or into device discovery. */
  datatype Call =
    | AddDiskCall(device: string, id: Option<U64>, journal: Option<string>,
                  journalPartition: Option<U32>, simulate: bool)
    | RemoveDiskCall(device: string, simulate: bool)
    | SafeToRemoveCall(device: string, simulate: bool)
    | EnumerateDevices
  {
    predicate Simulates() {
      !EnumerateDevices? && simulate
    }
  }
}
