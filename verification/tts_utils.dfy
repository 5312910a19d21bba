/** Text-to-speech of utils/tts_utils.py: the text gate, the content-derived
    file name, the adapter around the remote synthesis call, the temporary
    audio directory and its age-based reaper.

    The remote call is an oracle from text to audio bytes or an exception;
    md5 is an oracle from text to its hex digest; the directory is a map from
    file name to contents and modification time, and the clock is a value
    `now` handed in by the caller. */
module TtsUtils {
  import opened Errors
  import opened Text
  import opened PyValues

  const MaxTtsTextLength: nat := 2000
  const TempAudioDir: string := "temp_audio"
  const FilenamePrefix: string := "audio_"
  const FilenameSuffix: string := ".wav"
  const HashLength: nat := 12

  const EmptyTextMessage: string := "Text cannot be empty"
  const EmptyAudioMessage: string := "TTS returned empty audio"
  const TtsFailedPrefix: string := "Text-to-speech conversion failed: "
  const SaveFailedPrefix: string := "Failed to save audio: "

  function TooLongMessage(length: nat): string {
    "Text too long: " + NatToDecimal(length) + " chars. Maximum: 2000 chars"
  }

  /** `validate_text_for_tts`: blank text is refused first; otherwise text
      longer than 2000 characters, counted before any stripping, is refused. */
  function ValidateTextForTts(text: string): (r: Outcome)
    ensures r.Pass? <==> !IsBlank(text) && |text| <= MaxTtsTextLength
    ensures r.Fail? ==> r.exc.kind == TtsError
    ensures IsBlank(text) ==> r == Fail(Exc(TtsError, EmptyTextMessage))
    ensures !IsBlank(text) && |text| > MaxTtsTextLength ==> r == Fail(Exc(TtsError, TooLongMessage(|text|)))
  {
    if Strip(text) == [] then Fail(Exc(TtsError, EmptyTextMessage))
    else if |text| > MaxTtsTextLength then Fail(Exc(TtsError, TooLongMessage(|text|)))
    else Pass
  }

  predicate IsLowerHex(s: string) {
    forall k :: 0 <= k < |s| ==> ('0' <= s[k] <= '9' || 'a' <= s[k] <= 'f')
  }

  /** What `hashlib.md5(...).hexdigest()` always returns. */
  predicate IsMd5HexDigest(d: string) {
    |d| == 32 && IsLowerHex(d)
  }

  /** `pattern.glob("audio_*.wav")` for one name of the directory: the name
      starts with "audio_" and ends with ".wav", the two not overlapping. */
  predicate MatchesAudioGlob(name: string) {
    |name| >= |FilenamePrefix| + |FilenameSuffix|
    && StartsWith(name, FilenamePrefix)
    && EndsWith(name, FilenameSuffix)
    && '/' !in name
  }

  /** Python's `d[:12]`, which is the whole of `d` when it is shorter. */
  function HashPrefix(d: string): string {
    if |d| <= HashLength then d else d[..HashLength]
  }

  /** `generate_audio_filename`: "audio_", the first 12 characters of the md5
      hex digest of the text, ".wav". */
  function GenerateAudioFilename(text: string, md5: string -> string): (name: string)
    ensures StartsWith(name, FilenamePrefix) && EndsWith(name, FilenameSuffix)
    ensures IsMd5HexDigest(md5(text)) ==> |name| == 22 && MatchesAudioGlob(name)
  {
    var hash := HashPrefix(md5(text));
    var name := FilenamePrefix + hash + FilenameSuffix;
    assert name[..|FilenamePrefix|] == FilenamePrefix;
    assert name[|name| - |FilenameSuffix|..] == FilenameSuffix;
    assert IsMd5HexDigest(md5(text)) ==> '/' !in name by {
      if IsMd5HexDigest(md5(text)) {
        assert forall k :: 6 <= k < 18 ==> name[k] == md5(text)[k - 6];
      }
    }
    name
  }

  /** The hash part of a generated file name, if the name has the shape. */
  function FilenameHash(name: string): Option<string> {
    if MatchesAudioGlob(name) then Some(name[|FilenamePrefix|..|name| - |FilenameSuffix|]) else None
  }

  /** Reading the hash back out of a generated name gives the digest prefix,
      so the name is a function of the text alone and distinct digest
      prefixes give distinct names. */
  lemma FilenameHashRoundTrip(text: string, md5: string -> string)
    requires IsMd5HexDigest(md5(text))
    ensures FilenameHash(GenerateAudioFilename(text, md5)) == Some(md5(text)[..HashLength])
  {
    var name := GenerateAudioFilename(text, md5);
    assert name[6..18] == md5(text)[..12];
  }

  /** `text_to_speech` given what the remote call produced: empty audio is an
      error; every failure is a `TTSError`, an existing one unchanged and any
      other re-raised with the prefix "Text-to-speech conversion failed: ". */
  function TextToSpeech(reply: Result<seq<Byte>>): (r: Result<seq<Byte>>)
    ensures r.Ok? <==> reply.Ok? && reply.value != []
    ensures r.Ok? ==> r.value == reply.value
    ensures r.Raise? ==> r.exc.kind == TtsError
    ensures reply.Raise? ==> r == Raise(WrapAs(TtsError, TtsFailedPrefix, reply.exc))
    ensures reply == Ok([]) ==> r == Raise(Exc(TtsError, EmptyAudioMessage))
  {
    match reply
    case Raise(e) => Raise(WrapAs(TtsError, TtsFailedPrefix, e))
    case Ok(audio) =>
      if audio == [] then Raise(WrapAs(TtsError, TtsFailedPrefix, Exc(TtsError, EmptyAudioMessage))) else Ok(audio)
  }

  /** A file of the temporary audio directory. */
  datatype AudioFile = AudioFile(data: seq<Byte>, mtime: real)

  /** The temporary audio directory, by file name. */
  type Directory = map<string, AudioFile>

  /** The path `TEMP_AUDIO_DIR / name`. */
  function AudioPath(name: string): string {
    TempAudioDir + "/" + name
  }

  /** `save_audio_file`: writes (or overwrites) the named file at time `now`.
      `writeFault` is the exception opening or writing raises, if any; it is
      always re-raised as a `TTSError` with the prefix "Failed to save audio: ",
      and the directory is then left as it was. */
  function SaveAudioFile(dir: Directory, audio: seq<Byte>, name: string, now: real, writeFault: Option<Exc>): (r: (Directory, Result<string>))
    ensures writeFault.None? ==> r.1 == Ok(name) && name in r.0 && r.0[name] == AudioFile(audio, now)
    ensures writeFault.None? ==> forall n :: n != name ==> (n in r.0 <==> n in dir) && (n in dir ==> r.0[n] == dir[n])
    ensures writeFault.Some? ==> r.0 == dir && r.1 == Raise(Exc(TtsError, SaveFailedPrefix + writeFault.value.message))
  {
    match writeFault
    case Some(e) => (dir, Raise(Exc(TtsError, SaveFailedPrefix + e.message)))
    case None => (dir[name := AudioFile(audio, now)], Ok(name))
  }

  /** `process_tts_request`: validate, synthesise, name the file after the
      text, save. The result is the saved file's name and the audio length. */
  function ProcessTtsRequest(text: string, md5: string -> string, remote: string -> Result<seq<Byte>>, dir: Directory, now: real, writeFault: Option<Exc>): (r: (Directory, Result<(string, nat)>))
    ensures r.1.Raise? ==> r.0 == dir && r.1.exc.kind == TtsError
    ensures r.1.Ok? <==> ValidateTextForTts(text).Pass? && remote(text).Ok? && remote(text).value != [] && writeFault.None?
    ensures r.1.Ok? ==> r.1.value == (GenerateAudioFilename(text, md5), |remote(text).value|)
    ensures r.1.Ok? ==> r.0 == dir[GenerateAudioFilename(text, md5) := AudioFile(remote(text).value, now)]
  {
    match ValidateTextForTts(text)
    case Fail(e) => (dir, Raise(e))
    case Pass =>
      match TextToSpeech(remote(text))
      case Raise(e) => (dir, Raise(e))
      case Ok(audio) =>
        var name := GenerateAudioFilename(text, md5);
        var (dir', saved) := SaveAudioFile(dir, audio, name, now, writeFault);
        match saved
        case Raise(e) => (dir', Raise(e))
        case Ok(n) => (dir', Ok((n, |audio|)))
  }

  /** Text the gate refuses never reaches the remote: the outcome is the gate's
      error whatever the remote would have answered, and nothing is written. */
  lemma InvalidTextMakesNoRemoteCall(text: string, md5: string -> string, remote1: string -> Result<seq<Byte>>, remote2: string -> Result<seq<Byte>>, dir: Directory, now: real, writeFault: Option<Exc>)
    requires ValidateTextForTts(text).Fail?
    ensures ProcessTtsRequest(text, md5, remote1, dir, now, writeFault) == ProcessTtsRequest(text, md5, remote2, dir, now, writeFault)
    ensures ProcessTtsRequest(text, md5, remote1, dir, now, writeFault) == (dir, Raise(ValidateTextForTts(text).exc))
  {
  }

  /** The saved file's name depends on the text only: two runs with different
      audio for the same text target the same name. */
  lemma FilenameIndependentOfAudio(text: string, md5: string -> string, remote1: string -> Result<seq<Byte>>, remote2: string -> Result<seq<Byte>>, dir1: Directory, dir2: Directory, now1: real, now2: real)
    requires ProcessTtsRequest(text, md5, remote1, dir1, now1, None).1.Ok?
    requires ProcessTtsRequest(text, md5, remote2, dir2, now2, None).1.Ok?
    ensures ProcessTtsRequest(text, md5, remote1, dir1, now1, None).1.value.0 == ProcessTtsRequest(text, md5, remote2, dir2, now2, None).1.value.0
  {
  }

  /** Synthesising the same text twice leaves one file whose contents are the
      second run's audio; no other file is touched and no new name appears. */
  lemma SameTextOverwrites(text: string, md5: string -> string, remote1: string -> Result<seq<Byte>>, remote2: string -> Result<seq<Byte>>, dir: Directory, now1: real, now2: real)
    requires ProcessTtsRequest(text, md5, remote1, dir, now1, None).1.Ok?
    requires ProcessTtsRequest(text, md5, remote2, ProcessTtsRequest(text, md5, remote1, dir, now1, None).0, now2, None).1.Ok?
    ensures var dir1 := ProcessTtsRequest(text, md5, remote1, dir, now1, None).0;
            var dir2 := ProcessTtsRequest(text, md5, remote2, dir1, now2, None).0;
            var name := GenerateAudioFilename(text, md5);
            && dir2.Keys == dir1.Keys
            && dir2[name] == AudioFile(remote2(text).value, now2)
            && (forall n :: n in dir1 && n != name ==> dir2[n] == dir1[n])
  {
  }

  /** `cleanup_audio_file`: removes the file if it exists; a failing removal
      (a name in `unlinkFails`) is swallowed, so the call never raises. */
  function CleanupAudioFile(dir: Directory, name: string, unlinkFails: set<string>): (r: Directory)
    ensures name !in r <==> name !in dir || name !in unlinkFails
    ensures forall n :: n in r ==> n in dir && r[n] == dir[n]
    ensures forall n :: n in dir && n != name ==> n in r
  {
    if name in dir && name !in unlinkFails then dir - {name} else dir
  }

  /** A file older than `maxAge` seconds at time `now` (strictly). */
  predicate IsStale(f: AudioFile, now: real, maxAge: int) {
    now - f.mtime > maxAge as real
  }

  /** A file the reaper is meant to remove. */
  predicate IsReapable(dir: Directory, name: string, now: real, maxAge: int) {
    name in dir && MatchesAudioGlob(name) && IsStale(dir[name], now, maxAge)
  }

  /** What remains of `dir` once every reapable file is gone. */
  function ReapTarget(dir: Directory, now: real, maxAge: int): (r: Directory)
    ensures forall n :: n in r <==> n in dir && !IsReapable(dir, n, now, maxAge)
  {
    map n | n in dir && !IsReapable(dir, n, now, maxAge) :: dir[n]
  }

  /** The outcome of a scan: the directory left behind and whether the scan
      ran to its end rather than stopping at an exception. */
  datatype ReapResult = ReapResult(dir: Directory, completed: bool)

  predicate NoDuplicates(names: seq<string>) {
    forall i, j :: 0 <= i < j < |names| ==> names[i] != names[j]
  }

  /** The scan meets no exception: each listed name matching the pattern is
      still there when reached, and no stale one refuses removal. */
  predicate ScanHasNoFault(dir: Directory, names: seq<string>, now: real, maxAge: int, unlinkFails: set<string>) {
    && NoDuplicates(names)
    && (forall n :: n in names && MatchesAudioGlob(n) ==> n in dir)
    && (forall n :: n in names && IsReapable(dir, n, now, maxAge) ==> n !in unlinkFails)
  }

  /** `cleanup_old_audio_files(max_age_seconds)` over the directory listing
      `names`, in the order the directory yields them. Names not matching the
      pattern are skipped. For each match, reading its modification time
      raises if it is gone, and removing it raises if it is in `unlinkFails`;
      one try block wraps the whole loop, so the first exception ends the scan
      and the removals made before it stand. */
  function CleanupOldAudioFiles(dir: Directory, names: seq<string>, now: real, maxAge: int, unlinkFails: set<string>): (r: ReapResult)
    ensures forall n :: n in r.dir ==> n in dir && r.dir[n] == dir[n]
    ensures forall n :: n in dir && n !in r.dir ==> n in names && IsReapable(dir, n, now, maxAge)
    ensures r.completed ==> forall n :: n in names && IsReapable(dir, n, now, maxAge) ==> n !in r.dir
    ensures ScanHasNoFault(dir, names, now, maxAge, unlinkFails) ==> r.completed
    decreases |names|
  {
    if names == [] then ReapResult(dir, true)
    else
      var n := names[0];
      if !MatchesAudioGlob(n) then CleanupOldAudioFiles(dir, names[1..], now, maxAge, unlinkFails)
      else if n !in dir then ReapResult(dir, false)
      else if !IsStale(dir[n], now, maxAge) then CleanupOldAudioFiles(dir, names[1..], now, maxAge, unlinkFails)
      else if n in unlinkFails then ReapResult(dir, false)
      else
        var rest := CleanupOldAudioFiles(dir - {n}, names[1..], now, maxAge, unlinkFails);
        assert ScanHasNoFault(dir, names, now, maxAge, unlinkFails) ==> ScanHasNoFault(dir - {n}, names[1..], now, maxAge, unlinkFails) by {
          if ScanHasNoFault(dir, names, now, maxAge, unlinkFails) {
            forall m | m in names[1..] && MatchesAudioGlob(m) ensures m in dir - {n} {
              var k :| 0 <= k < |names[1..]| && names[1..][k] == m;
              assert names[k + 1] == m && names[0] == n;
            }
          }
        }
        rest
  }

  /** When the listing covers the directory and the scan completes, the
      reaper leaves exactly the files that are not reapable. */
  lemma {:induction false} CompletedScanReachesTarget(dir: Directory, names: seq<string>, now: real, maxAge: int, unlinkFails: set<string>)
    requires forall n :: n in dir ==> n in names
    requires CleanupOldAudioFiles(dir, names, now, maxAge, unlinkFails).completed
    ensures CleanupOldAudioFiles(dir, names, now, maxAge, unlinkFails).dir == ReapTarget(dir, now, maxAge)
  {
    var r := CleanupOldAudioFiles(dir, names, now, maxAge, unlinkFails);
    var t := ReapTarget(dir, now, maxAge);
    assert r.dir.Keys == t.Keys;
  }

  /** The first exception ends the scan: if the first listed match is stale
      and refuses removal, nothing at all is removed, whatever follows it. */
  lemma FirstFailureStopsScan(dir: Directory, n: string, rest: seq<string>, now: real, maxAge: int, unlinkFails: set<string>)
    requires IsReapable(dir, n, now, maxAge) && n in unlinkFails
    ensures CleanupOldAudioFiles(dir, [n] + rest, now, maxAge, unlinkFails) == ReapResult(dir, false)
  {
  }

  /** With `max_age_seconds=0`, a scan without faults over a listing of the
      whole directory removes every generated file whose modification time
      is before `now`, and keeps every other file, including generated ones
      stamped exactly at `now` or later. */
  lemma ReapZeroRemovesPastFiles(dir: Directory, names: seq<string>, now: real, unlinkFails: set<string>)
    requires forall n :: n in dir ==> n in names
    requires ScanHasNoFault(dir, names, now, 0, unlinkFails)
    ensures var left := CleanupOldAudioFiles(dir, names, now, 0, unlinkFails).dir;
            forall n :: n in left <==> n in dir && !(MatchesAudioGlob(n) && dir[n].mtime < now)
  {
    CompletedScanReachesTarget(dir, names, now, 0, unlinkFails);
  }

  /** The directory once the reapable files among `ns` are gone. */
  function RemoveReapable(dir: Directory, ns: seq<string>, now: real, maxAge: int): (r: Directory)
    ensures forall n :: n in r <==> n in dir && !(n in ns && IsReapable(dir, n, now, maxAge))
    ensures forall n :: n in r ==> r[n] == dir[n]
  {
    map n | n in dir && !(n in ns && IsReapable(dir, n, now, maxAge)) :: dir[n]
  }

  /** Dropping the first listed name from a fault-free listing leaves it
      fault-free, against the directory with that file removed if it was. */
  lemma NoFaultAfterFirst(dir: Directory, n: string, rest: seq<string>, now: real, maxAge: int, unlinkFails: set<string>)
    requires ScanHasNoFault(dir, [n] + rest, now, maxAge, unlinkFails)
    ensures n !in rest
    ensures ScanHasNoFault(dir, rest, now, maxAge, unlinkFails)
    ensures ScanHasNoFault(dir - {n}, rest, now, maxAge, unlinkFails)
  {
    var names := [n] + rest;
    forall i, j | 0 <= i < j < |rest| ensures rest[i] != rest[j] {
      assert rest[i] == names[i + 1] && rest[j] == names[j + 1];
    }
    forall m | m in rest ensures m != n {
      var j :| 0 <= j < |rest| && rest[j] == m;
      assert names[j + 1] == m && names[0] == n;
    }
  }

  /** A name that is not reapable changes nothing about what a prefix removes. */
  lemma RemoveReapableSkips(dir: Directory, n: string, rest: seq<string>, now: real, maxAge: int)
    requires !IsReapable(dir, n, now, maxAge)
    ensures RemoveReapable(dir, rest, now, maxAge) == RemoveReapable(dir, [n] + rest, now, maxAge)
  {
    var a := RemoveReapable(dir, rest, now, maxAge);
    var b := RemoveReapable(dir, [n] + rest, now, maxAge);
    assert a.Keys == b.Keys;
  }

  /** Removing a reapable first name and then the rest removes the same files
      as removing the whole listing at once. */
  lemma RemoveReapableTakes(dir: Directory, n: string, rest: seq<string>, now: real, maxAge: int)
    requires IsReapable(dir, n, now, maxAge) && n !in rest
    ensures RemoveReapable(dir - {n}, rest, now, maxAge) == RemoveReapable(dir, [n] + rest, now, maxAge)
  {
    var a := RemoveReapable(dir - {n}, rest, now, maxAge);
    var b := RemoveReapable(dir, [n] + rest, now, maxAge);
    forall m ensures m in a <==> m in b {
      if m != n && m in dir {
        assert IsReapable(dir - {n}, m, now, maxAge) == IsReapable(dir, m, now, maxAge);
      }
    }
    assert a.Keys == b.Keys;
  }

  /** A scan whose first `k` names meet no fault has, by the time it reaches
      `names[k]`, removed exactly the reapable files among those names, and
      goes on from there. */
  lemma {:induction false} ScanPrefix(dir: Directory, names: seq<string>, k: nat, now: real, maxAge: int, unlinkFails: set<string>)
    requires k <= |names|
    requires ScanHasNoFault(dir, names[..k], now, maxAge, unlinkFails)
    ensures CleanupOldAudioFiles(dir, names, now, maxAge, unlinkFails)
      == CleanupOldAudioFiles(RemoveReapable(dir, names[..k], now, maxAge), names[k..], now, maxAge, unlinkFails)
    decreases k
  {
    if k == 0 {
      assert names[..0] == [] && names[0..] == names;
      assert RemoveReapable(dir, [], now, maxAge) == dir;
    } else {
      var n := names[0];
      var tail := names[1..];
      var rest := tail[..k - 1];
      assert names[..k] == [n] + rest;
      assert tail[k - 1..] == names[k..];
      NoFaultAfterFirst(dir, n, rest, now, maxAge, unlinkFails);
      if !IsReapable(dir, n, now, maxAge) {
        ScanPrefix(dir, tail, k - 1, now, maxAge, unlinkFails);
        RemoveReapableSkips(dir, n, rest, now, maxAge);
      } else {
        ScanPrefix(dir - {n}, tail, k - 1, now, maxAge, unlinkFails);
        RemoveReapableTakes(dir, n, rest, now, maxAge);
      }
    }
  }

  /** The first exception ends the scan wherever it happens: when the `k`-th
      listed name is a match that has vanished or is stale and refuses
      removal, and the names before it meet no fault, the scan stops there,
      keeping the removals already made and leaving every later file alone. */
  lemma MidScanFailureKeepsEarlierRemovals(dir: Directory, names: seq<string>, k: nat, now: real, maxAge: int, unlinkFails: set<string>)
    requires k < |names|
    requires ScanHasNoFault(dir, names[..k], now, maxAge, unlinkFails)
    requires MatchesAudioGlob(names[k])
    requires names[k] !in dir || (IsStale(dir[names[k]], now, maxAge) && names[k] in unlinkFails)
    ensures CleanupOldAudioFiles(dir, names, now, maxAge, unlinkFails)
      == ReapResult(RemoveReapable(dir, names[..k], now, maxAge), false)
  {
    ScanPrefix(dir, names, k, now, maxAge, unlinkFails);
    assert names[k..] == [names[k]] + names[k + 1..];
  }
}
