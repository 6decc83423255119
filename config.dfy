/** Configuration records (src/config.ts). */
module Config {

  /** One configured firewall rule or zone-based policy entry: `{id, name, inverted}`. */
  datatype EntryConfig = EntryConfig(id: string, name: string, inverted: bool)

  /** Connection settings of one controller. */
  datatype ControllerConfig = ControllerConfig(
    url: string, username: string, password: string, site: string, strictSSL: bool)

  /** The platform's configuration; an absent `unifi9Policies` list behaves as the empty one. */
  datatype PlatformConfig = PlatformConfig(
    unifi: ControllerConfig, rules: seq<EntryConfig>, unifi9Policies: seq<EntryConfig>)
}
