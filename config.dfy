/** The parsed configuration file: one section per top-level key, in file order. */
module Config {
  import opened Dicts

  /** One replication stream: measurement, ordered field list, tag filter and row limit. */
  datatype Source = Source(measurement: string, fields: seq<string>, tags: Dict<string>, limit: int)

  /**
    A section either has a `tags` table, and is then a stream definition, or
    has none: the `local` and `cloud` connection settings, and any other
    section missing `tags`, which get_points rejects with KeyError('tags').
   */
  datatype Section = Untagged | Stream(source: Source)

  /** The configuration as an ordered dict from section key to section. */
  type Conf = Dict<Section>

  const LOCAL_KEY := "local"
  const CLOUD_KEY := "cloud"

  /** The two keys that name the store connections rather than streams. */
  predicate Reserved(key: string)
  {
    key == LOCAL_KEY || key == CLOUD_KEY
  }

  /** The sections the replication loop visits: all but the reserved ones, in key order. */
  function StreamSections(conf: Conf): (r: Conf)
    ensures |r| <= |conf|
    ensures forall e :: e in r ==> e in conf && !Reserved(e.0)
    ensures forall e :: e in conf && !Reserved(e.0) ==> e in r
  {
    if |conf| == 0 then []
    else if Reserved(conf[0].0) then StreamSections(conf[1..])
    else [conf[0]] + StreamSections(conf[1..])
  }
}
