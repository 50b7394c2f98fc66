/**
 * The structure (home) node of node_types.py: its away flag refreshed from
 * the vendor snapshot, the home/away command, and the rush-hour indicator.
 */
module Structures {
  import opened Common

  /**
   * One structure's subtree of the vendor snapshot. The peak-period times are
   * the vendor's timestamps already converted to a common clock (seconds);
   * absent keys are None.
   */
  datatype StructureData = StructureData(
    away: string,
    rhrEnrollment: Option<bool>,
    peakPeriodStartTime: Option<int>,
    peakPeriodEndTime: Option<int>)

  /** The NEST_AWAY table: the vendor's name for a home/away code. None is the KeyError of an unknown code. */
  function NestAway(code: int): (name: Option<string>)
    ensures name.Some? <==> code == 1 || code == 2
    ensures name.Some? ==> (name.value == "away" <==> code == 2)
  {
    if code == 1 then Some("home")
    else if code == 2 then Some("away")
    else None
  }

  class Structure {
    const elementId: string
    const setUrl: string

    /** The subtree the node last refreshed from. */
    var data: StructureData
    var away: bool
    /** The published driver values: ST is 2 away, 1 home; GV0 is 1 during a rush-hour event. */
    var drivers: map<Driver, int>
    /** The change requests handed to the controller, oldest first. */
    var outbox: seq<ChangeRequest>

    /** A new node, refreshed once from its subtree at time `now`, as start() does when the node is added. */
    constructor (elementId: string, device: StructureData, now: int)
      ensures this.elementId == elementId && setUrl == "/structures/" + elementId
      ensures data == device && away == (device.away == "away")
      ensures drivers == map[ST := if away then 2 else 1][GV0 := if CheckRushHour(now) then 1 else 0]
      ensures outbox == []
    {
      this.elementId := elementId;
      setUrl := "/structures/" + elementId;
      data := device;
      away := false;
      drivers := map[];
      outbox := [];
      new;
      Update(device, now);
    }

    /**
     * True while a rush-hour event is on: the structure is enrolled, both ends
     * of the peak period are present, and `now` lies strictly inside it.
     */
    predicate CheckRushHour(now: int): (rush: bool)
      reads this
      ensures rush <==>
        data.rhrEnrollment == Some(true)
        && data.peakPeriodStartTime.Some? && data.peakPeriodEndTime.Some?
        && data.peakPeriodStartTime.value < now < data.peakPeriodEndTime.value
    {
      if data.rhrEnrollment.Some? && data.rhrEnrollment.value then
        if data.peakPeriodStartTime.Some? && data.peakPeriodEndTime.Some? then
          var tsEnd := data.peakPeriodEndTime.value;
          var tsStart := data.peakPeriodStartTime.value;
          now > tsStart && now < tsEnd
        else false
      else false
    }

    /** Refresh from the structure's subtree of the current snapshot, at time `now`. */
    method Update(d: StructureData, now: int)
      modifies this`data, this`away, this`drivers
      ensures data == d
      ensures away <==> d.away == "away"
      ensures drivers == old(drivers)[ST := if away then 2 else 1][GV0 := if CheckRushHour(now) then 1 else 0]
    {
      data := d;
      if data.away == "away" {
        away := true;
        drivers := drivers[ST := 2];
      } else {
        away := false;
        drivers := drivers[ST := 1];
      }
      if CheckRushHour(now) {
        drivers := drivers[GV0 := 1];
      } else {
        drivers := drivers[GV0 := 0];
      }
    }

    /**
     * The SET_AWAY command: 2 asks for away, 1 for home. Asking for the state
     * the structure is already in is refused; the cached flag waits for the
     * next refresh.
     */
    method SetAway(value: int) returns (h: Handled)
      modifies this`drivers, this`outbox
      ensures h == Sent <==> (value == 2 && !away) || (value == 1 && away)
      ensures h == Refused <==> (value == 2 && away) || (value == 1 && !away)
      ensures h != Sent ==> drivers == old(drivers) && outbox == old(outbox)
      ensures h == Sent ==>
        drivers == old(drivers)[ST := value]
        && outbox == old(outbox) + [ChangeRequest(setUrl, map["away" := Text(NestAway(value).value)])]
    {
      if value == 2 && away {
        return Refused;
      }
      if value == 1 && !away {
        return Refused;
      }
      var name := NestAway(value);
      if name.None? {
        return Failed;
      }
      drivers := drivers[ST := value];
      outbox := outbox + [ChangeRequest(setUrl, map["away" := Text(name.value)])];
      return Sent;
    }
  }
}
