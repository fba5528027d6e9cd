/**
 * Device discovery: the host's block devices (from `block_utils`) and their
 * GPT partition entries (from the `gpt` crate) become `Disk` and `Partition`
 * records. Enumerating devices and reading a partition table are host I/O:
 * the device list is an input, and a partition-table read is a function from
 * a device path to the entries read or a read error.
 */
module Discovery {
  import opened Wrappers
  import opened Api
  import opened GuidFormat

  /** `block_utils::MediaType`. */
  datatype MediaType =
    | Loopback | LVM | MdRaid | NVME | Ram | Rotational | SolidState | Unknown | Virtual

  /** A device as `block_utils::get_all_device_info` describes it. */
  datatype Device = Device(name: string, mediaType: MediaType, serialNumber: Option<string>)

  /** A partition entry as `gpt::partition::read_partitions` returns it. */
  datatype GptEntry = GptEntry(partGuid: Guid, firstLba: U64, lastLba: U64, flags: U64, name: string)

  /** Reading the header and entries of the partition table at a device path. */
  type PartitionReader = string -> Result<seq<GptEntry>>

  /** The media-to-disk-type translation; no two media share a disk type. */
  function ConvertMediaToDiskType(m: MediaType): (t: DiskType)
    ensures DiskTypeToMedia(t) == m
  {
    match m
    case Loopback => LOOPBACK
    case LVM => DiskType.LVM
    case MdRaid => MDRAID
    case NVME => DiskType.NVME
    case Ram => RAM
    case Rotational => ROTATIONAL
    case SolidState => SOLID_STATE
    case Unknown => UNKNOWN
    case Virtual => VIRTUAL
  }

  /** The media a disk type was translated from. */
  function DiskTypeToMedia(t: DiskType): MediaType {
    match t
    case LOOPBACK => Loopback
    case LVM => MediaType.LVM
    case MDRAID => MdRaid
    case NVME => MediaType.NVME
    case RAM => Ram
    case ROTATIONAL => Rotational
    case SOLID_STATE => SolidState
    case UNKNOWN => Unknown
    case VIRTUAL => Virtual
  }

  lemma ConvertMediaInjective(m1: MediaType, m2: MediaType)
    requires ConvertMediaToDiskType(m1) == ConvertMediaToDiskType(m2)
    ensures m1 == m2
  {
    assert DiskTypeToMedia(ConvertMediaToDiskType(m1)) == m1;
  }

  /** Every disk type is reported for exactly the media it came from. */
  lemma ConvertMediaSurjective(t: DiskType)
    ensures ConvertMediaToDiskType(DiskTypeToMedia(t)) == t
  {
  }

  /** One protobuf `Partition` from one GPT entry. */
  function PartitionOf(e: GptEntry): (p: Partition)
    ensures ParseHyphenated(p.uuid) == Some(e.partGuid)
    ensures p.firstLba == e.firstLba && p.lastLba == e.lastLba
    ensures p.flags == e.flags && p.name == e.name
  {
    ParseHyphenatedOfHyphenated(e.partGuid);
    Partition(Hyphenated(e.partGuid), e.firstLba, e.lastLba, e.flags, e.name)
  }

  /** `get_partition_info`: the table's entries, converted one by one, in order. */
  function GetPartitionInfo(devPath: string, readTable: PartitionReader): (r: Result<seq<Partition>>)
    ensures r.Ok? <==> readTable(devPath).Ok?
    ensures r.Err? ==> r.error == readTable(devPath).error
    ensures r.Ok? ==> |r.value| == |readTable(devPath).value|
    ensures r.Ok? ==> forall k :: 0 <= k < |r.value| ==> r.value[k] == PartitionOf(readTable(devPath).value[k])
  {
    match readTable(devPath)
    case Err(e) => Err(e)
    case Ok(entries) => Ok(seq(|entries|, k requires 0 <= k < |entries| => PartitionOf(entries[k])))
  }

  /** Partitions keep the well-formedness of the entries they come from. */
  lemma PartitionsWellFormed(devPath: string, readTable: PartitionReader)
    requires readTable(devPath).Ok?
    requires forall e :: e in readTable(devPath).value ==> e.firstLba <= e.lastLba
    ensures forall p :: p in GetPartitionInfo(devPath, readTable).value ==> p.firstLba <= p.lastLba
  {
    var entries := readTable(devPath).value;
    var parts := GetPartitionInfo(devPath, readTable).value;
    forall p | p in parts ensures p.firstLba <= p.lastLba {
      var k :| 0 <= k < |parts| && parts[k] == p;
      assert entries[k] in entries;
    }
  }

  /** The record for one device; a failed partition read gives no partitions. */
  function DiskOf(device: Device, readTable: PartitionReader): (d: Disk)
    ensures d.devPath == "/dev/" + device.name
    ensures d.diskType == ConvertMediaToDiskType(device.mediaType)
    ensures d.serialNumber == device.serialNumber
    ensures readTable(d.devPath).Err? ==> d.partitions == []
    ensures readTable(d.devPath).Ok? ==> d.partitions == GetPartitionInfo(d.devPath, readTable).value
  {
    var devPath := "/dev/" + device.name;
    var partitions := GetPartitionInfo(devPath, readTable).UnwrapOr([]);
    Disk(ConvertMediaToDiskType(device.mediaType), devPath, partitions, device.serialNumber)
  }

  /** What a listing reports: one disk per device, in the order enumerated. */
  function Discover(devices: Result<seq<Device>>, readTable: PartitionReader): (r: Result<seq<Disk>>)
    ensures r.Ok? <==> devices.Ok?
    ensures r.Ok? ==> |r.value| == |devices.value|
    ensures r.Ok? ==> forall i :: 0 <= i < |r.value| ==> r.value[i] == DiskOf(devices.value[i], readTable)
  {
    match devices
    case Err(e) => Err(e)
    case Ok(ds) => Ok(seq(|ds|, i requires 0 <= i < |ds| => DiskOf(ds[i], readTable)))
  }

  /** `get_disks`: builds the disk list by pushing one record per device. */
  method GetDisks(devices: Result<seq<Device>>, readTable: PartitionReader) returns (r: Result<seq<Disk>>)
    ensures r == Discover(devices, readTable)
  {
    if devices.Err? {
      return Err(devices.error);
    }
    var deviceInfo := devices.value;
    var disks: seq<Disk> := [];
    for i := 0 to |deviceInfo|
      invariant |disks| == i
      invariant forall j :: 0 <= j < i ==> disks[j] == DiskOf(deviceInfo[j], readTable)
    {
      var device := deviceInfo[i];
      var devPath := "/dev/" + device.name;
      var p := GetPartitionInfo(devPath, readTable).UnwrapOr([]);
      var d := Disk(ConvertMediaToDiskType(device.mediaType), devPath, [], None);
      d := d.(partitions := p);
      if device.serialNumber.Some? {
        d := d.(serialNumber := Some(device.serialNumber.value));
      }
      disks := disks + [d];
    }
    ghost var listed := Discover(devices, readTable).value;
    assert forall j :: 0 <= j < |disks| ==> disks[j] == listed[j];
    assert disks == listed;
    return Ok(disks);
  }
}
