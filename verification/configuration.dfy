/**
 * The workspace configuration: the key/value properties loaded from the
 * workspace's configuration file. Loading the file is not modelled; the
 * properties are given as a map.
 */
module Configuration {
  import opened Wrappers

  type Config = map<string, string>

  /** `Configuration.get(key)`: the configured value, or null when absent. */
  function Get(config: Config, key: string): Option<string>
  {
    if key in config then Some(config[key]) else None
  }

  /** `Configuration.getPlatform(id)`: the name configured for a platform id. */
  function GetPlatform(config: Config, platformId: string): Option<string>
  {
    Get(config, "platform " + platformId)
  }

  /** `Configuration.getExtension(kind)`. */
  function GetExtension(config: Config, kind: string): Option<string>
  {
    Get(config, "extension " + kind)
  }

  /** How Java renders a possibly null string in a concatenation or in
      `String.join`: a null becomes the text "null". */
  function Text(s: Option<string>): string
  {
    match s
    case Some(v) => v
    case None => "null"
  }
}
