/** The pieces of the voice-upload handler that work on the uploaded file's
    name and on the transcription outcome. */
module Uploads {
  import opened Wrappers

  /** The text after the last '.' of a filename, i.e. `name.rsplit('.', 1)[1]`;
      None when the name holds no '.', where that expression raises IndexError. */
  function Extension(name: string): (r: Option<string>)
    ensures r.None? <==> '.' !in name
    ensures r.Some? ==> '.' !in r.value && |r.value| < |name|
    ensures r.Some? ==> name[|name| - |r.value| - 1] == '.' && name[|name| - |r.value|..] == r.value
    decreases |name|
  {
    if |name| == 0 then None
    else
      var last := name[|name| - 1];
      var init := name[..|name| - 1];
      assert name == init + [last];
      if last == '.' then Some("")
      else
        match Extension(init)
        case None => None
        case Some(e) =>
          assert init[|init| - |e|..] + [last] == name[|name| - |e| - 1..];
          Some(e + [last])
  }

  /** The extension of "stem.ext" is "ext" whenever "ext" holds no '.',
      whatever the stem holds. */
  lemma {:induction false} ExtensionOfJoin(stem: string, ext: string)
    requires '.' !in ext
    ensures Extension(stem + "." + ext) == Some(ext)
    decreases |ext|
  {
    var name := stem + "." + ext;
    if |ext| == 0 {
      assert name[|name| - 1] == '.';
    } else {
      var init := ext[..|ext| - 1];
      assert name[..|name| - 1] == stem + "." + init;
      ExtensionOfJoin(stem, init);
    }
  }

  /** `str.lower` on the characters that can spell an allowed extension: ASCII
      upper-case letters become lower-case, everything else is kept. */
  function LowerChar(c: char): char {
    if 'A' <= c <= 'Z' then (c as int - 'A' as int + 'a' as int) as char else c
  }

  function AsciiLower(s: string): string {
    seq(|s|, i requires 0 <= i < |s| => LowerChar(s[i]))
  }

  const AllowedExtensions: seq<string> := ["wav", "mp3", "ogg"]

  predicate IsAllowedExtension(ext: string) {
    AsciiLower(ext) in AllowedExtensions
  }

  /** The allow-list, spelled out: three characters that lower-case to "wav",
      "mp3" or "ogg", in any mix of cases. */
  lemma AllowedExtensionSpelledOut(ext: string)
    ensures IsAllowedExtension(ext) <==>
      |ext| == 3 &&
      ((LowerChar(ext[0]) == 'w' && LowerChar(ext[1]) == 'a' && LowerChar(ext[2]) == 'v') ||
       (LowerChar(ext[0]) == 'm' && LowerChar(ext[1]) == 'p' && ext[2] == '3') ||
       (LowerChar(ext[0]) == 'o' && LowerChar(ext[1]) == 'g' && LowerChar(ext[2]) == 'g'))
  {
    var low := AsciiLower(ext);
    if |ext| == 3 {
      assert low == [LowerChar(ext[0]), LowerChar(ext[1]), LowerChar(ext[2])];
      assert LowerChar(ext[2]) == '3' <==> ext[2] == '3';
    }
  }

  /** What the transcription collaborator did with the saved audio file. */
  datatype Transcription = Transcribed(text: string) | TranscriptionFailed(reason: string)

  const FailurePrefix: string := "Transcription failed: "

  /** The value stored in the transcription column: the transcript when the
      call succeeded, otherwise a sentinel that embeds the failure reason. */
  function TranscriptionText(t: Transcription): (s: string)
    ensures t.Transcribed? ==> s == t.text
    ensures t.TranscriptionFailed? ==> |s| >= |FailurePrefix| && s[..|FailurePrefix|] == FailurePrefix
    ensures t.TranscriptionFailed? ==> s[|FailurePrefix|..] == t.reason
  {
    match t
    case Transcribed(text) => text
    case TranscriptionFailed(reason) => FailurePrefix + reason
  }
}
