/** Values shared by the backup writer, the volume index and the restorer. */
module Streams {

  datatype Option<+T> = None | Some(value: T)

  type Dataset = string
  type SetId = nat
  type DiskId = nat

  datatype Kind = Full | Incremental

  /** A `backup-*` snapshot. The name carries its dataset; `ts` is the reading of the clock in it. */
  datatype Snap = Snap(ds: Dataset, ts: nat)

  /** Path of a stream relative to its volume: data/<ds>/full-<ts> or data/<ds>/incr-<ts>. */
  datatype StreamFile = StreamFile(ds: Dataset, kind: Kind, ts: nat)

  /** What `zfs send` left in a file: a torn prefix, or everything between `base` and `snap`. */
  datatype Stream = Partial | Complete(base: Option<Snap>, snap: Snap)

  /** One stream as the volume index and the per-stream sidecar describe it. */
  datatype Entry = Entry(
    file: StreamFile, kind: Kind, snap: Snap, base: Option<Snap>, fullAnchor: Option<Snap>,
    at: nat, media: DiskId, set_: SetId)
}
