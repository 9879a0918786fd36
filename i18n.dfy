/**
 * The message lookup of src/i18n.ts: a Japanese and an English table of
 * the same keys, the language chosen from the MCP_LANG environment value,
 * and a lookup that falls back to Japanese for an empty entry.
 */
module I18n {
  import opened Wrappers

  datatype Language = Ja | En

  /** The message keys (the keys of the Japanese table). */
  datatype Key =
    | PlaySound | SetSoundPath | GetSoundPath | ResetSoundPath | ShowNotification
    | SoundPathDesc | TitleDesc | MessageDesc
    | SoundFileSet | SoundReset | CurrentSoundFile | SoundFileError | ParameterRequired

  /** Lowercasing of one character (ASCII letters only). */
  function LowerChar(c: char): char
  {
    if 'A' <= c <= 'Z' then (c as int + 32) as char else c
  }

  /** Lowercasing of a string, character by character. */
  function ToLower(s: string): (r: string)
    ensures |r| == |s|
    ensures forall i :: 0 <= i < |s| ==> r[i] == LowerChar(s[i])
  {
    if s == [] then [] else [LowerChar(s[0])] + ToLower(s[1..])
  }

  /** The four spellings of `en` in any case are exactly the values that lowercase to `en`. */
  lemma {:induction false} LowersToEn(s: string)
    ensures ToLower(s) == "en" <==> s in {"en", "En", "eN", "EN"}
  {
    if ToLower(s) == "en" {
      assert |s| == 2;
      assert LowerChar(s[0]) == 'e' && LowerChar(s[1]) == 'n';
      assert s == [s[0], s[1]];
    }
  }

  /**
   * The language: English exactly when MCP_LANG is set and lowercases to
   * `en`; Japanese when it is unset or anything else.
   */
  function GetLanguage(mcpLang: Option<string>): (l: Language)
    ensures l == En <==> mcpLang.Some? && mcpLang.value in {"en", "En", "eN", "EN"}
    ensures mcpLang.None? ==> l == Ja
  {
    if mcpLang.Some? then LowersToEn(mcpLang.value); (if ToLower(mcpLang.value) == "en" then En else Ja)
    else Ja
  }

  const JaMessages: map<Key, string> := map[
    PlaySound := "設定済みの音声ファイルを再生します",
    SetSoundPath := "通知音として使用する音声ファイルのパスを設定します",
    GetSoundPath := "現在設定されている音声ファイルのパスを取得します",
    ResetSoundPath := "音声設定をOS標準のデフォルト音に戻します",
    ShowNotification := "デスクトップ通知を表示します",
    SoundPathDesc := "音声ファイルの絶対パス",
    TitleDesc := "通知のタイトル",
    MessageDesc := "通知のメッセージ",
    SoundFileSet := "音声ファイルパスを設定しました",
    SoundReset := "音声設定をデフォルトに戻しました",
    CurrentSoundFile := "現在の音声ファイル",
    SoundFileError := "指定された音声ファイルにアクセスできません",
    ParameterRequired := "パラメータが必要です"]

  const EnMessages: map<Key, string> := map[
    PlaySound := "Plays the configured sound file",
    SetSoundPath := "Sets the sound file path to use for notifications",
    GetSoundPath := "Gets the currently configured sound file path",
    ResetSoundPath := "Resets sound settings to OS default sound",
    ShowNotification := "Displays a desktop notification",
    SoundPathDesc := "Absolute path to the sound file",
    TitleDesc := "Notification title",
    MessageDesc := "Notification message",
    SoundFileSet := "Sound file path has been set",
    SoundReset := "Sound settings have been reset to default",
    CurrentSoundFile := "Current sound file",
    SoundFileError := "Cannot access the specified sound file",
    ParameterRequired := "Parameter is required"]

  function Messages(l: Language): map<Key, string>
  {
    match l
    case Ja => JaMessages
    case En => EnMessages
  }

  /** A table's text for a key; a missing entry reads as empty, like `undefined`. */
  function Entry(table: map<Key, string>, key: Key): string
  {
    if key in table then table[key] else ""
  }

  /** Both tables define every key, with a non-empty text. */
  lemma TablesComplete(k: Key)
    ensures k in JaMessages && JaMessages[k] != ""
    ensures k in EnMessages && EnMessages[k] != ""
  {
  }

  /** Every message key. */
  const AllKeys: set<Key> := {
    PlaySound, SetSoundPath, GetSoundPath, ResetSoundPath, ShowNotification,
    SoundPathDesc, TitleDesc, MessageDesc,
    SoundFileSet, SoundReset, CurrentSoundFile, SoundFileError, ParameterRequired}

  /** The two tables define the same thirteen keys. */
  lemma TablesShareKeys()
    ensures JaMessages.Keys == AllKeys && EnMessages.Keys == AllKeys
    ensures |AllKeys| == 13
  {
    JaKeys();
    EnKeys();
    AllKeysCount();
  }

  lemma AllKeysCount()
    ensures |AllKeys| == 13
  {
  }

  lemma JaKeys()
    ensures JaMessages.Keys == AllKeys
  {
  }

  lemma EnKeys()
    ensures EnMessages.Keys == AllKeys
  {
  }

  /**
   * The message for a key in the current language, falling back to the
   * Japanese text when the entry is empty; it is never empty.
   */
  function T(mcpLang: Option<string>, key: Key): (s: string)
    ensures key in JaMessages && key in EnMessages
    ensures s != ""
    ensures GetLanguage(mcpLang) == Ja ==> s == JaMessages[key]
    ensures GetLanguage(mcpLang) == En ==> s == EnMessages[key]
    ensures mcpLang.None? ==> s == JaMessages[key]
  {
    TablesComplete(key);
    var text := Entry(Messages(GetLanguage(mcpLang)), key);
    if text != "" then text else Entry(JaMessages, key)
  }
}
