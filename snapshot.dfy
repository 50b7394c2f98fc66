/**
 * The part of the vendor's full-state snapshot that the controller reads:
 * the structures and the three device collections, each a list of entries in
 * the order the decoded JSON object yields them. An absent key is None.
 */
module Snapshots {
  import opened Common

  /** One structure or device: its vendor id, display name and (thermostats only) temperature scale. */
  datatype Entry = Entry(id: string, name: string, temperatureScale: string)

  datatype Snapshot = Snapshot(
    structures: Option<seq<Entry>>,
    thermostats: Option<seq<Entry>>,
    smokeCoAlarms: Option<seq<Entry>>,
    cameras: Option<seq<Entry>>)
}
