// The records of the v2 API (types/v2/*.go), mirrored as values: a
// datapoint and its metadata, a time series, and a station.
module V2Types {
  import opened Common
  import opened Numbers
  import opened Chrono
  import Granularities
  import QualityFlags

  /** The `any` value of a datapoint: nothing, a float read from the file, or the raw field. */
  datatype Value = NoValue | Number(f: Float) | Raw(text: string)

  /** Datapoint (types/v2/datapoint.go); the pointer fields are Options. */
  datatype Datapoint = Datapoint(
    labelName: string,  // Label
    timestamp: Time,
    value: Value,
    unit: Option<string>,
    qualityLevel: Option<QualityFlags.QualityFlag>)

  /** FieldMetadata (types/v2/metadata.go) */
  datatype FieldMetadata = FieldMetadata(
    name: string,
    description: string,
    unit: string,
    validFrom: Time,
    validUntil: Time)

  /** A description file attached to a time series: its display name, MIME type and base64 content. */
  datatype File = File(name: string, mimeType: string, content: string)

  /** Timeseries (types/v2/timeseries.go) */
  datatype Timeseries = Timeseries(
    datapoints: seq<Datapoint>,
    metadata: seq<FieldMetadata>,
    descriptionFiles: seq<File>)

  /** A geom.Point with x = longitude, y = latitude, z = height, and its SRID. */
  datatype Point = Point(x: Float, y: Float, z: Float, srid: int)

  /** Station (types/v2/station.go); SupportedProducts maps a product name to its granularities. */
  datatype Station = Station(
    id: string,
    name: string,
    height: Float,
    location: Point,
    supportedProducts: map<string, seq<Granularities.Granularity>>)

  /** The properties of the GeoJSON feature ToFeature builds. */
  datatype FeatureProperties = FeatureProperties(name: string, products: map<string, seq<Granularities.Granularity>>)

  /** A GeoJSON feature: the station ID, its location and its properties. */
  datatype Feature = Feature(id: string, geometry: Point, properties: FeatureProperties)

  /** ToFeature: the GeoJSON feature of a station, carrying its ID, location, name and products. */
  function ToFeature(s: Station): (f: Feature)
    ensures f.id == s.id && f.geometry == s.location
    ensures f.properties.name == s.name && f.properties.products == s.supportedProducts
  {
    Feature(s.id, s.location, FeatureProperties(s.name, s.supportedProducts))
  }
}
