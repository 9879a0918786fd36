/**
 * The sound player of src/sound.ts: validate the file, detect the platform,
 * build the platform's player command and run it. File readability and
 * command execution are parameters (oracles); so is the platform the
 * operating system reports.
 */
module Sound {
  import opened Wrappers
  import opened Types
  import ConfigStore

  const PlayedPrefix: string := "音声を再生しました: "
  const PlaybackFailedPrefix: string := "音声再生に失敗しました: "
  const AccessErrorPrefix: string := "音声ファイルにアクセスできません: "

  /** How a thrown Error with this message reads once spliced into a template string. */
  function Rendered(message: string): string
  {
    "Error: " + message
  }

  /** What running a shell command did: it exited cleanly, or it failed with the rendered error. */
  datatype ExecResult = Exited | Failed(error: string)

  /** Fails, naming the path, unless the file is readable. */
  function ValidateSoundFile(readable: string -> bool, soundPath: string): (r: Outcome<string>)
    ensures r.Pass? <==> readable(soundPath)
    ensures r.Fail? ==> r.error == AccessErrorPrefix + soundPath
  {
    if readable(soundPath) then Pass else Fail(AccessErrorPrefix + soundPath)
  }

  /** The text of a platform's command up to the sound path. */
  function CommandPrefix(p: Platform): string
  {
    match p
    case Darwin => "afplay \""
    case Win32 => "powershell -c \"(New-Object Media.SoundPlayer '"
  }

  /** The text of a platform's command after the sound path. */
  function CommandSuffix(p: Platform): string
  {
    match p
    case Darwin => "\""
    case Win32 => "').PlaySync()\""
  }

  /** The shell command that plays a file: the path is spliced in verbatim, without escaping. */
  function GetPlayCommand(p: Platform, soundPath: string): (command: string)
    ensures |command| == |CommandPrefix(p)| + |soundPath| + |CommandSuffix(p)|
    ensures command[..|CommandPrefix(p)|] == CommandPrefix(p)
    ensures command[|CommandPrefix(p)|..|CommandPrefix(p)| + |soundPath|] == soundPath
    ensures command[|CommandPrefix(p)| + |soundPath|..] == CommandSuffix(p)
  {
    CommandPrefix(p) + soundPath + CommandSuffix(p)
  }

  /** The path argument of a command built for platform `p`. */
  function CommandArgument(p: Platform, command: string): string
    requires |command| >= |CommandPrefix(p)| + |CommandSuffix(p)|
  {
    command[|CommandPrefix(p)|..|command| - |CommandSuffix(p)|]
  }

  /** The command determines the path it plays: different paths give different commands. */
  lemma CommandArgumentRoundTrip(p: Platform, soundPath: string)
    ensures |GetPlayCommand(p, soundPath)| >= |CommandPrefix(p)| + |CommandSuffix(p)|
    ensures CommandArgument(p, GetPlayCommand(p, soundPath)) == soundPath
  {
  }

  /** The darwin and win32 commands, written out. */
  lemma PlayCommandText(soundPath: string)
    ensures GetPlayCommand(Darwin, soundPath) == "afplay \"" + soundPath + "\""
    ensures GetPlayCommand(Win32, soundPath) == "powershell -c \"(New-Object Media.SoundPlayer '" + soundPath + "').PlaySync()\""
  {
  }

  /**
   * Nothing is escaped: a double quote in the path reaches the shell as a
   * bare double quote, which ends afplay's quoted argument early.
   */
  lemma QuoteInPathReachesShell(soundPath: string, i: nat)
    requires i < |soundPath| && soundPath[i] == '"'
    ensures GetPlayCommand(Darwin, soundPath)[|"afplay \""| + i] == '"'
  {
  }

  /** The sound player's own platform detection. */
  function GetCurrentPlatform(os: string): (r: Result<Platform, string>)
    ensures r.Ok? <==> os == "darwin" || os == "win32"
    ensures r.Ok? ==> PlatformName(r.value) == os
    ensures r.Err? ==> r.error == "Unsupported platform: " + os
  {
    if os == "darwin" then Ok(Darwin)
    else if os == "win32" then Ok(Win32)
    else Err("Unsupported platform: " + os)
  }

  /** The sound player's own default-path table. */
  function GetDefaultSoundPath(os: string): (r: Result<string, string>)
    ensures r.Ok? <==> os == "darwin" || os == "win32"
    ensures r.Err? ==> r.error == "Unsupported platform: " + os
    ensures os == "darwin" ==> r == Ok(ConfigStore.DarwinDefaultSound)
    ensures os == "win32" ==> r == Ok(ConfigStore.Win32DefaultSound)
  {
    match GetCurrentPlatform(os)
    case Err(e) => Err(e)
    case Ok(p) =>
      var defaultPaths := map[Darwin := "/System/Library/Sounds/Glass.aiff", Win32 := "C:\\Windows\\Media\\Windows Notify.wav"];
      Ok(defaultPaths[p])
  }

  /** Both copies of platform detection agree on every reported platform. */
  lemma PlatformDetectionAgrees(os: string)
    ensures GetCurrentPlatform(os) == ConfigStore.GetCurrentPlatform(os)
  {
  }

  /** Both default-path tables give the same answer, errors included. */
  lemma DefaultSoundPathsAgree(os: string)
    ensures GetDefaultSoundPath(os) == ConfigStore.GetDefaultSoundPath(os)
  {
  }

  /** One playback: the command run, if any, and the message or error. */
  datatype Playback = Playback(executed: Option<string>, result: Result<string, string>)

  /**
   * Play a file: validate it, detect the platform, build the command and run
   * it, in that order. Every failure is reported with the same prefix.
   */
  function PlaySound(os: string, readable: string -> bool, exec: string -> ExecResult, soundPath: string): (pb: Playback)
    ensures !readable(soundPath) ==>
      pb == Playback(None, Err(PlaybackFailedPrefix + Rendered(AccessErrorPrefix + soundPath)))
    ensures readable(soundPath) && GetCurrentPlatform(os).Err? ==>
      pb == Playback(None, Err(PlaybackFailedPrefix + Rendered("Unsupported platform: " + os)))
    ensures pb.executed.Some? <==> readable(soundPath) && GetCurrentPlatform(os).Ok?
    ensures pb.executed.Some? ==> pb.executed.value == GetPlayCommand(GetCurrentPlatform(os).value, soundPath)
    ensures pb.result.Ok? <==> pb.executed.Some? && exec(pb.executed.value).Exited?
    ensures pb.result.Ok? ==> pb.result.value == PlayedPrefix + soundPath
    ensures pb.executed.Some? && exec(pb.executed.value).Failed? ==>
      pb.result == Err(PlaybackFailedPrefix + exec(pb.executed.value).error)
    ensures pb.result.Err? ==> PlaybackFailedPrefix <= pb.result.error
  {
    match ValidateSoundFile(readable, soundPath)
    case Fail(e) => Playback(None, Err(PlaybackFailedPrefix + Rendered(e)))
    case Pass =>
      match GetCurrentPlatform(os)
      case Err(e) => Playback(None, Err(PlaybackFailedPrefix + Rendered(e)))
      case Ok(p) =>
        var command := GetPlayCommand(p, soundPath);
        match exec(command)
        case Exited => Playback(Some(command), Ok(PlayedPrefix + soundPath))
        case Failed(e) => Playback(Some(command), Err(PlaybackFailedPrefix + e))
  }

  /** A boolean pre-flight check that never fails: true exactly when validation passes. */
  function TestSoundFile(readable: string -> bool, soundPath: string): (ok: bool)
    ensures ok <==> ValidateSoundFile(readable, soundPath).Pass?
    ensures ok <==> readable(soundPath)
  {
    match ValidateSoundFile(readable, soundPath)
    case Pass => true
    case Fail(_) => false
  }
}
