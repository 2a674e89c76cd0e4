/** The configuration the purchase task reads. */
module Settings {
  import opened Notifier

  /** The plan to buy, the subsidiary, the extra option codes, the preferred
      datacenter order and the notification endpoints. */
  datatype Settings = Settings(planCode: string, zone: string, options: seq<string>,
                               priority: seq<string>, channels: Channels)

  /** The constants written into the legacy script. */
  const LegacySettings: Settings :=
    Settings("24ska01", "IE",
             ["bandwidth-100-24sk", "ram-64g-noecc-2133-24ska01", "softraid-1x480ssd-24ska01"],
             [], Channels("", ""))
}
