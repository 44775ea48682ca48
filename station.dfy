// types.Station (types/station.go): a station of the legacy discovery with
// its capability map, which records for each data type name the set of
// resolutions the station offers it in; UpdateCapabilities folds one more
// (type, resolution) pair into that map.
module Stations {
  import opened Common
  import opened Numbers
  import Resolutions
  import DataTypes

  /** DataCapabilities: resolutions by data type name (dataType.String()). */
  type Capabilities = map<string, Resolutions.Resolution>

  /**
   * types.Station; the location is the coordinate list of the GeoJSON point
   * (None for a nil geometry), and a nil capability map is None.
   */
  datatype Station = Station(
    id: string,
    name: string,
    state: string,
    height: Float,
    location: Option<seq<Float>>,
    dataCapabilities: Option<Capabilities>)

  /** The map a nil map reads as. */
  function CapabilitiesOf(s: Station): Capabilities
  {
    if s.dataCapabilities.Some? then s.dataCapabilities.value else map[]
  }

  /** The capability map after one update of the entry at key: ORed with the resolution, or created with it. */
  function Merge(caps: Capabilities, key: string, resolution: Resolutions.Resolution): Capabilities
  {
    if key in caps then caps[key := caps[key] + resolution] else caps[key := resolution]
  }

  /** The capability map after UpdateCapabilities(dataType, resolution). */
  function Updated(caps: Capabilities, dataType: DataTypes.DataType, resolution: Resolutions.Resolution): Capabilities
  {
    Merge(caps, DataTypes.String(dataType), resolution)
  }

  /** A variable holding a Station: the receiver of UpdateCapabilities. */
  class StationVar {
    var value: Station

    constructor (s: Station)
      ensures value == s
    {
      value := s;
    }

    /** UpdateCapabilities: create the map when it is nil, then OR the resolution into the type's entry. */
    method UpdateCapabilities(dataType: DataTypes.DataType, resolution: Resolutions.Resolution)
      modifies this
      ensures value == old(value).(dataCapabilities := Some(Updated(CapabilitiesOf(old(value)), dataType, resolution)))
    {
      if value.dataCapabilities.None? {
        value := value.(dataCapabilities := Some(map[]));
      }
      var caps := value.dataCapabilities.value;
      var key := DataTypes.String(dataType);
      if key in caps {
        var supportedResolutions := caps[key] + resolution;
        value := value.(dataCapabilities := Some(caps[key := supportedResolutions]));
      } else {
        value := value.(dataCapabilities := Some(caps[key := resolution]));
      }
    }
  }

  // ---------------------------------------------------------------- lemmas

  /**
   * The entry at the type's name holds the old resolutions and the new one
   * (just the new one when there was no entry); every other entry is as it
   * was.
   */
  lemma UpdatedEntries(caps: Capabilities, dataType: DataTypes.DataType, resolution: Resolutions.Resolution)
    ensures var m := Updated(caps, dataType, resolution); var key := DataTypes.String(dataType);
      && m.Keys == caps.Keys + {key}
      && m[key] == (if key in caps then caps[key] else {}) + resolution
      && forall k :: k in caps && k != key ==> m[k] == caps[k]
  {
  }

  /** An update never clears a resolution bit of any entry. */
  lemma UpdateNeverClears(caps: Capabilities, dataType: DataTypes.DataType, resolution: Resolutions.Resolution)
    ensures forall k :: k in caps ==> k in Updated(caps, dataType, resolution) && caps[k] <= Updated(caps, dataType, resolution)[k]
  {
  }

  /** Repeating an update changes nothing. */
  lemma UpdateIdempotent(caps: Capabilities, dataType: DataTypes.DataType, resolution: Resolutions.Resolution)
    ensures Updated(Updated(caps, dataType, resolution), dataType, resolution) == Updated(caps, dataType, resolution)
  {
    var m := Updated(caps, dataType, resolution);
    var key := DataTypes.String(dataType);
    assert m[key] + resolution == m[key];
  }

  /** Two updates give the same map in either order. */
  lemma UpdatesCommute(caps: Capabilities, d1: DataTypes.DataType, r1: Resolutions.Resolution,
                       d2: DataTypes.DataType, r2: Resolutions.Resolution)
    ensures Updated(Updated(caps, d1, r1), d2, r2) == Updated(Updated(caps, d2, r2), d1, r1)
  {
    MergesCommute(caps, DataTypes.String(d1), r1, DataTypes.String(d2), r2);
  }

  lemma MergesCommute(caps: Capabilities, k1: string, r1: Resolutions.Resolution, k2: string, r2: Resolutions.Resolution)
    ensures Merge(Merge(caps, k1, r1), k2, r2) == Merge(Merge(caps, k2, r2), k1, r1)
  {
    var a := Merge(Merge(caps, k1, r1), k2, r2);
    var b := Merge(Merge(caps, k2, r2), k1, r1);
    if k1 == k2 {
      var base := if k1 in caps then caps[k1] else {};
      assert a[k1] == base + r1 + r2 && b[k1] == base + r2 + r1;
    }
    assert a.Keys == b.Keys;
    assert forall k :: k in a ==> a[k] == b[k];
  }
}
