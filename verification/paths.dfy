/** Storage-key derivation for extracted audio (app/paths.py). */
module Paths {
  import opened Results
  import opened Text

  /** Top-level directory every key lives under. */
  const ProjectPrefix: string := "fretwise"

  /** Every key begins with this. */
  const KeyHead: string := ProjectPrefix + "/users/"

  /** Every key ends with this. */
  const KeyTail: string := "/audio/youtube.mp3"

  /** Length of the key's literal text, the identifiers excluded. */
  const FixedLength: nat := |KeyHead| + |"/transcriptions/"| + |KeyTail|

  /** `youtube_audio_path`: the object key for a transcription's audio.
      Both identifiers are inserted verbatim, with no sanitisation. */
  function YoutubeAudioPath(userId: string, transcriptionId: string): (key: string)
    ensures KeyHead <= key
    ensures |key| == FixedLength + |userId| + |transcriptionId|
    ensures key[|key| - |KeyTail|..] == KeyTail
    ensures key[|KeyHead|..|KeyHead| + |userId|] == userId
    ensures key[|key| - |KeyTail| - |transcriptionId|..|key| - |KeyTail|] == transcriptionId
  {
    ProjectPrefix + "/users/" + userId + "/transcriptions/" + transcriptionId + "/audio/youtube.mp3"
  }

  /** The key's `/`-separated segments, as a reference description of its layout. */
  function KeySegments(userId: string, transcriptionId: string): seq<string>
  {
    [ProjectPrefix, "users", userId, "transcriptions", transcriptionId, "audio", "youtube.mp3"]
  }

  /** Reads the identifiers back out of a key, if it has the expected layout. */
  function ParseYoutubeAudioPath(key: string): Option<(string, string)>
  {
    var ps := Split(key, '/');
    if |ps| == 7 && ps[0] == ProjectPrefix && ps[1] == "users" && ps[3] == "transcriptions"
       && ps[5] == "audio" && ps[6] == "youtube.mp3"
    then Some((ps[2], ps[4]))
    else None
  }

  /** The key is the seven segments joined with `/`. */
  lemma KeyIsJoinOfSegments(userId: string, transcriptionId: string)
    ensures YoutubeAudioPath(userId, transcriptionId) == Join(KeySegments(userId, transcriptionId), '/')
  {
    JoinSeven(ProjectPrefix, "users", userId, "transcriptions", transcriptionId, "audio", "youtube.mp3", '/');
    assert "/users/" == ['/'] + "users" + ['/'];
    assert "/transcriptions/" == ['/'] + "transcriptions" + ['/'];
    assert "/audio/youtube.mp3" == ['/'] + "audio" + ['/'] + "youtube.mp3";
  }

  /** Joining seven pieces puts one separator between each neighbouring pair. */
  lemma JoinSeven(a: string, b: string, c: string, d: string, e: string, f: string, g: string, sep: char)
    ensures Join([a, b, c, d, e, f, g], sep)
         == a + ([sep] + b + [sep]) + c + ([sep] + d + [sep]) + e + ([sep] + f + [sep] + g)
  {
    var s6: seq<string> := [g];
    var s5 := [f] + s6;
    var s4 := [e] + s5;
    var s3 := [d] + s4;
    var s2 := [c] + s3;
    var s1 := [b] + s2;
    var s0 := [a] + s1;
    assert s0 == [a, b, c, d, e, f, g];
    JoinCons(f, s6, sep);
    JoinCons(e, s5, sep);
    JoinCons(d, s4, sep);
    JoinCons(c, s3, sep);
    JoinCons(b, s2, sep);
    JoinCons(a, s1, sep);
  }

  /** With `/`-free identifiers, splitting the key on `/` gives the user id
      at index 2 and the transcription id at index 4. */
  lemma SplitKeyRecoversIds(userId: string, transcriptionId: string)
    requires '/' !in userId && '/' !in transcriptionId
    ensures var ps := Split(YoutubeAudioPath(userId, transcriptionId), '/');
            |ps| == 7 && ps[2] == userId && ps[4] == transcriptionId
  {
    KeyIsJoinOfSegments(userId, transcriptionId);
    SplitJoin(KeySegments(userId, transcriptionId), '/');
  }

  /** Parsing a derived key returns the identifiers it was derived from. */
  lemma ParseDerivedKey(userId: string, transcriptionId: string)
    requires '/' !in userId && '/' !in transcriptionId
    ensures ParseYoutubeAudioPath(YoutubeAudioPath(userId, transcriptionId)) == Some((userId, transcriptionId))
  {
    KeyIsJoinOfSegments(userId, transcriptionId);
    SplitJoin(KeySegments(userId, transcriptionId), '/');
  }

  /** Every key that parses is the derived key of the identifiers it parses to. */
  lemma ParsedKeyIsDerived(key: string, userId: string, transcriptionId: string)
    requires ParseYoutubeAudioPath(key) == Some((userId, transcriptionId))
    ensures YoutubeAudioPath(userId, transcriptionId) == key
    ensures '/' !in userId && '/' !in transcriptionId
  {
    var ps := Split(key, '/');
    assert ps == KeySegments(userId, transcriptionId);
    JoinSplit(key, '/');
    KeyIsJoinOfSegments(userId, transcriptionId);
  }

  /** Distinct `/`-free identifier pairs never share a key. */
  lemma DistinctIdsDistinctKeys(u1: string, t1: string, u2: string, t2: string)
    requires '/' !in u1 && '/' !in t1 && '/' !in u2 && '/' !in t2
    requires YoutubeAudioPath(u1, t1) == YoutubeAudioPath(u2, t2)
    ensures u1 == u2 && t1 == t2
  {
    ParseDerivedKey(u1, t1);
    ParseDerivedKey(u2, t2);
  }

  /** Because identifiers are not sanitised, two different pairs containing
      `/` can collide on one key. */
  lemma UnsanitisedIdsCanCollide()
    ensures YoutubeAudioPath("a/transcriptions/b", "c") == YoutubeAudioPath("a", "b/transcriptions/c")
  {
  }

  /** The documented example. */
  lemma DocumentedExample()
    ensures YoutubeAudioPath("usr_abc123", "txn_xyz789")
         == "fretwise/users/usr_abc123/transcriptions/txn_xyz789/audio/youtube.mp3"
  {
    var k1 := ProjectPrefix + "/users/";
    assert k1 == "fretwise/users/";
    var k2 := k1 + "usr_abc123";
    assert k2 == "fretwise/users/usr_abc123";
    var k3 := k2 + "/transcriptions/";
    assert k3 == "fretwise/users/usr_abc123/transcriptions/";
    var k4 := k3 + "txn_xyz789";
    assert k4 == "fretwise/users/usr_abc123/transcriptions/txn_xyz789";
    assert k4 + "/audio/youtube.mp3" == "fretwise/users/usr_abc123/transcriptions/txn_xyz789/audio/youtube.mp3";
  }
}
