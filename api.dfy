/**
 * The protobuf messages of the `api::service` crate as the disk manager uses
 * them. Optional protobuf fields (those with a `has_` accessor) are `Option`s.
 */
module Api {
  import opened Wrappers

  type byte = x: int | 0 <= x < 0x100
  type Bytes = seq<byte>
  type U32 = x: int | 0 <= x < 0x1_0000_0000
  type U64 = x: int | 0 <= x < 0x1_0000_0000_0000_0000

  /** The kind of a request (`Op`). */
  datatype OpKind = Add | AddPartition | List | Remove | SafeToRemove

  /** A decoded request envelope (`Operation`). */
  datatype Operation = Operation(
    kind: OpKind,
    token: string,
    disk: Option<string>,
    osdId: Option<U64>,
    osdJournal: Option<string>,
    osdJournalPartition: Option<U32>)

  /** `DiskType`: the classification reported for each device. */
  datatype DiskType =
    | LOOPBACK | LVM | MDRAID | NVME | RAM | ROTATIONAL | SOLID_STATE | UNKNOWN | VIRTUAL

  datatype Partition = Partition(uuid: string, firstLba: U64, lastLba: U64, flags: U64, name: string)

  datatype Disk = Disk(
    diskType: DiskType,
    devPath: string,
    partitions: seq<Partition>,
    serialNumber: Option<string>)

  datatype ResultType = OK | ERR

  datatype OpResult = OpResult(result: ResultType, errorMsg: Option<string>)

  datatype OpBoolResult = OpBoolResult(result: ResultType, value: Option<bool>, errorMsg: Option<string>)

  /** The three reply shapes the server can send. */
  datatype Reply =
    | OpReply(opResult: OpResult)
    | BoolReply(boolResult: OpBoolResult)
    | DisksReply(disks: seq<Disk>)
}
