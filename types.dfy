/** The configuration document and the platform enumeration of src/types.ts. */
module Types {
  import opened Wrappers

  /** SupportedPlatform: the two operating systems the server supports. */
  datatype Platform = Darwin | Win32

  /** The identifier the operating system reports for a supported platform. */
  function PlatformName(p: Platform): string
  {
    match p
    case Darwin => "darwin"
    case Win32 => "win32"
  }

  /** A per-platform table of sound file paths (the `defaultPaths` object). */
  type PathTable = map<Platform, string>

  /** The `sound` section; `customPath` is an optional field. */
  datatype SoundConfig = SoundConfig(customPath: Option<string>, useDefault: bool, defaultPaths: PathTable)

  /** The `notification` section. */
  datatype NotificationConfig = NotificationConfig(enabled: bool, defaultTitle: string)

  /** The whole configuration document. */
  datatype Config = Config(sound: SoundConfig, notification: NotificationConfig)
}
