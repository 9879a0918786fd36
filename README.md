# notification-mcp core, modelled in Dafny

This project models the three self-contained pieces of the notification-mcp
server (a tool server that plays a sound and stores a sound-path preference):

- **Config store** (`src/config.ts`, module `ConfigStore` in `config.dfy`): the
  hard-coded default document, the shallow per-section merge of a saved
  document over the defaults, platform detection, the default sound path, and
  `load`/`save`/`backup` over a store of two files (the config file and its
  backup). The store is the class `FileConfigManager` with one field per file;
  each of its methods is proved equal to a pure step function over a `Disk`
  value (`BackupEffect`, `SaveEffect`, `LoadEffect`), and the lemmas about
  sequences of calls (save then load, self-heal twice, two saves) are proved
  about those functions.
- **Sound player** (`src/sound.ts`, module `Sound` in `sound.dfy`): the
  platform's player command, the player's own platform detection and default
  path table (proved to agree with the config store's), file validation, the
  ordered `playSound` pipeline and the non-failing `testSoundFile`.
- **Localisation** (`src/i18n.ts`, module `I18n` in `i18n.dfy`): the Japanese
  and English message tables, the language chosen from `MCP_LANG`, and the
  lookup `t` with its fallback to Japanese.

The data types of `src/types.ts` are in `types.dfy` (module `Types`);
`wrappers.dfy` holds `Option`, `Result` and `Outcome`, which stand for thrown
errors. Outside effects are parameters: the platform the operating system
reports (`os`), whether a file is readable (`readable`), what running a shell
command does (`exec`), the value of `MCP_LANG` (`mcpLang`, `None` when unset)
and, for the store, which file-system steps fail on a call (`IoFaults`, each
failure given as the text the thrown error renders to). JSON text is the
abstract `Text`: a document of the configuration's shape, or malformed text;
`Serialize` and `Parse` round-trip.

The merge in `mergeConfig` is shallow per section: a saved `defaultPaths`
table replaces the default table wholesale (`MergeReplacesPathTable`). The
tool handlers of `src/index.ts` return placeholder text and call neither the
store nor the player, so the model stops at the store, the player and the
message lookup.

## Model

| member | source | states |
|---|---|---|
| ConfigStore.DefaultPathsComplete | src/config.ts:28-31 | The default path table has an entry for both supported platforms, each an absolute path. |
| ConfigStore.GetDefaultConfig | src/config.ts:24-38 | The defaults: useDefault is true, no customPath, darwin `/System/Library/Sounds/Glass.aiff`, win32 `C:\Windows\Media\Windows Notify.wav`, notifications enabled, title `AI通知`. |
| ConfigStore.Parse | src/config.ts:46 | Parsing a JSON document gives that document; parsing malformed text fails, and only then, with `SyntaxError: ` and the parser's diagnostic. |
| ConfigStore.Message | src/config.ts:59 | A load error reads `Failed to load config: ` and a save error `Failed to save config: `, each followed by the rendered cause. |
| ConfigStore.Serialize | src/config.ts:72 | Parsing the serialized configuration gives back the complete saved document. |
| ConfigStore.MergeConfig | src/config.ts:100-111 | Per section, every field the saved document supplies wins and every omitted field keeps the default; a missing section is the default section. |
| ConfigStore.MergeSavedIsIdentity | src/config.ts:100-111 | Merging any complete saved configuration over the defaults gives that configuration back. |
| ConfigStore.MergeEmptyIsDefault | src/config.ts:100-111 | A document with neither section merges to the defaults. |
| ConfigStore.MergeReplacesPathTable | src/config.ts:100-111 | The merge is shallow: a saved table naming only darwin replaces the default table, so the win32 entry is lost, while other fields keep their defaults. |
| ConfigStore.GetCurrentPlatform | src/config.ts:116-122 | Succeeds exactly for `darwin` and `win32`, returning the platform with that name; otherwise fails with `Unsupported platform: <os>`. |
| ConfigStore.GetDefaultSoundPath | src/config.ts:127-131 | Succeeds exactly when the platform is supported, with the default document's path for it (an absolute path); otherwise the unsupported-platform error. |
| ConfigStore.BackupEffect | src/config.ts:83-95 | Backup never fails and never touches the config file; with no config file it changes nothing; otherwise it copies the config file to the backup unless the copy fails. |
| ConfigStore.SaveEffect | src/config.ts:66-78 | Save backs up first and then succeeds exactly when the write succeeds, leaving the serialized configuration in the config file; a failed write is the error whose message is `Failed to save config: ` and the write error, and leaves the config file as it was. |
| ConfigStore.LoadEffect | src/config.ts:43-61 | A missing file is healed by saving the defaults and returning them, and a failed heal surfaces the save error unwrapped; an existing file is never written, read or parse failures give the error whose message is `Failed to load config: ` and the read or syntax error, and success returns the saved document merged over the defaults. |
| ConfigStore.SaveThenLoad | src/config.ts:43-78 | After a successful save, a load that can read the file returns exactly the saved configuration and writes nothing. |
| ConfigStore.SelfHealIsIdempotent | src/config.ts:43-57 | A load of a missing file returns the defaults, and the next load returns the same defaults and changes nothing. |
| ConfigStore.SecondSaveBacksUpFirst | src/config.ts:66-95 | After two successful saves the config file holds the second configuration and the backup the first. |
| ConfigStore.FileConfigManager.constructor | src/config.ts:15-19 | The store starts over the given two files. |
| ConfigStore.FileConfigManager.Backup | src/config.ts:83-95 | The new contents of both files are those of BackupEffect. |
| ConfigStore.FileConfigManager.Save | src/config.ts:66-78 | The outcome and the new contents of both files are those of SaveEffect. |
| ConfigStore.FileConfigManager.Load | src/config.ts:43-61 | The result and the new contents of both files are those of LoadEffect. |
| Sound.ValidateSoundFile | src/sound.ts:37-43 | Passes exactly when the file is readable, otherwise fails with a message naming the path. |
| Sound.GetPlayCommand | src/sound.ts:48-61 | The command is the platform's prefix, the path verbatim, then the platform's suffix. |
| Sound.CommandArgumentRoundTrip | src/sound.ts:48-56 | The path can be read back from the command, so different paths give different commands. |
| Sound.PlayCommandText | src/sound.ts:50-56 | The darwin command is `afplay "<path>"` and the win32 command is `powershell -c "(New-Object Media.SoundPlayer '<path>').PlaySync()"`. |
| Sound.QuoteInPathReachesShell | src/sound.ts:50-52 | The path is not escaped: a double quote in it reaches the shell as a bare double quote inside afplay's argument. |
| Sound.GetCurrentPlatform | src/sound.ts:66-72 | Succeeds exactly for `darwin` and `win32`, returning the platform with that name; otherwise fails with `Unsupported platform: <os>`. |
| Sound.GetDefaultSoundPath | src/sound.ts:77-86 | The player's own table: the darwin and win32 default paths, the unsupported-platform error otherwise. |
| Sound.PlatformDetectionAgrees | src/sound.ts:66-72 | The player's platform detection agrees with the config store's on every input. |
| Sound.DefaultSoundPathsAgree | src/sound.ts:77-86 | The player's default-path table gives the config store's answer on every input, errors included. |
| Sound.PlaySound | src/sound.ts:18-32 | Validation comes first (an unreadable file runs nothing and reports the access error), then platform detection (an unsupported platform runs nothing), then the platform's command is run once; success is `音声を再生しました: <path>` exactly when that command exits cleanly, and every failure carries the prefix `音声再生に失敗しました: `. |
| Sound.TestSoundFile | src/sound.ts:91-98 | A boolean that never fails: true exactly when validation passes, that is, when the file is readable. |
| I18n.ToLower | src/i18n.ts:9 | Lowercasing keeps the length and lowercases each character. |
| I18n.LowersToEn | src/i18n.ts:9-10 | A value lowercases to `en` exactly when it is `en`, `En`, `eN` or `EN`. |
| I18n.GetLanguage | src/i18n.ts:8-11 | English exactly when MCP_LANG is set to `en` in any case; Japanese when unset or anything else. |
| I18n.TablesComplete | src/i18n.ts:13-56 | Both tables define every key with a non-empty text. |
| I18n.TablesShareKeys | src/i18n.ts:13-56 | The Japanese and English tables define the same thirteen keys. |
| I18n.T | src/i18n.ts:58-61 | The lookup is never empty; it is the Japanese text when the language is Japanese (in particular when MCP_LANG is unset) and the English text when it is English. It is a function of MCP_LANG and the key alone. |

## Left out

- `src/index.ts` (the tool server, its transport and signal handling): its five tool handlers return placeholder text and call neither the store nor the player; its catch-all that re-wraps every error, an unknown tool included, as `InternalError` is protocol plumbing.
- `src/notification.ts`: one call into an external notification library, passing the title and message with `sound` and `wait` defaulting to false and a timeout of 5; everything it does happens in that library.
- The manual test scripts: they print, sleep and trigger real sounds and notifications.
- Console logging (`console.error`), including the logged backup failures: logging has no effect on the files or results.
- The home-directory paths of the two files: the store owns two fixed, distinct files.
- JSON formatting and the exact text of parser and process errors: `Text` is abstract, and error texts come from the parameters.
- Ill-typed saved documents (a field holding `null` or a value of the wrong type, extra fields, a top level that is not an object): the parsed document is taken to have the configuration's shape, with fields possibly missing.
- A write or copy that fails part-way: a failed write leaves the config file unchanged and a failed copy leaves the backup unchanged.
- `IoFaults.readError` applies only to an existing config file; a missing file always reads as "not found".
- The unreachable `default` branch of `getPlayCommand`: the platform argument can only be `darwin` or `win32`.
- I18n.ToLower: lowercases ASCII letters only, not the full Unicode mapping of `toLowerCase`; no other character lowercases to `e` or `n`, so `GetLanguage` is unaffected.
- I18n.T: a key missing from the Japanese table would yield `undefined`; every key is present, and the model reads a missing entry as empty.
- Asynchronous execution: every call runs to completion in order, so methods and functions return their results directly.
