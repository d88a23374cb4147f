/** The text-to-speech flow `narrationToAudio`: voice selection from a
    language code, and the policy that blank text, a reply without audio or a
    failed call all yield an empty audio URI instead of an error. The speech
    service itself is an oracle: its reply is an input. */
module Narration {
  import opened Prelude

  datatype Gender = Female

  /** The `voice` part of the synthesis request. */
  datatype VoiceSelection =
    | NamedVoice(languageCode: string, name: string)
    | GenderedVoice(languageCode: string, ssmlGender: Gender)

  /** `s.split('-')[0]`: the longest prefix without '-'. */
  function BeforeFirstDash(s: string): (r: string)
    ensures r <= s
    ensures '-' !in r
    ensures |r| < |s| ==> s[|r|] == '-'
  {
    if s == "" || s[0] == '-' then "" else [s[0]] + BeforeFirstDash(s[1..])
  }

  /** Lower-casing of the letters A-Z. The only non-ASCII characters whose
      lower case is ASCII are the Kelvin sign and dotted capital I, neither
      of which can turn a code into "en", "es" or "fr", so this is exact for
      the voice table. */
  function LowerChar(c: char): char {
    if 'A' <= c <= 'Z' then (c as int + 32) as char else c
  }

  /** No capital A-Z survives, and every other character is kept as it is. */
  function ToLower(s: string): (r: string)
    ensures |r| == |s|
    ensures forall i :: 0 <= i < |r| ==> !('A' <= r[i] <= 'Z')
    ensures forall i :: 0 <= i < |s| && !('A' <= s[i] <= 'Z') ==> r[i] == s[i]
    ensures forall i :: 0 <= i < |s| && 'A' <= s[i] <= 'Z' ==> r[i] != s[i] && r[i] == LowerChar(s[i])
  {
    seq(|s|, i requires 0 <= i < |s| => LowerChar(s[i]))
  }

  /** A string without capitals is already in lower case. */
  lemma ToLowerKeepsLower(s: string)
    requires forall i :: 0 <= i < |s| ==> !('A' <= s[i] <= 'Z')
    ensures ToLower(s) == s
  {
  }

  /** Lower-casing twice is lower-casing once. */
  lemma ToLowerIdempotent(s: string)
    ensures ToLower(ToLower(s)) == ToLower(s)
  {
    ToLowerKeepsLower(ToLower(s));
  }

  /** `languageCode.split('-')[0].toLowerCase()`. */
  function BaseLanguage(code: string): string {
    ToLower(BeforeFirstDash(code))
  }

  /** `getVoiceSelection`: three bases have a named voice; any other
      code is passed through unchanged, not normalised, with a female voice. */
  function GetVoiceSelection(code: string): (v: VoiceSelection)
    ensures v.NamedVoice? <==> BaseLanguage(code) in {"en", "es", "fr"}
    ensures v.GenderedVoice? ==> v == GenderedVoice(code, Female)
    ensures BaseLanguage(code) == "en" ==> v == NamedVoice("en-US", "en-US-Standard-C")
    ensures BaseLanguage(code) == "es" ==> v == NamedVoice("es-ES", "es-ES-Standard-A")
    ensures BaseLanguage(code) == "fr" ==> v == NamedVoice("fr-FR", "fr-FR-Standard-A")
  {
    match BaseLanguage(code)
    case "en" => NamedVoice("en-US", "en-US-Standard-C")
    case "es" => NamedVoice("es-ES", "es-ES-Standard-A")
    case "fr" => NamedVoice("fr-FR", "fr-FR-Standard-A")
    case _ => GenderedVoice(code, Female)
  }

  /** A region suffix never reaches the voice table: the base of
      `b + "-" + region` is the base of `b` when `b` has no dash. */
  lemma {:induction false} RegionIgnored(b: string, region: string)
    requires '-' !in b
    ensures BeforeFirstDash(b + "-" + region) == b
    ensures BaseLanguage(b + "-" + region) == BaseLanguage(b)
  {
    if b != "" {
      assert (b + "-" + region)[1..] == b[1..] + "-" + region;
      RegionIgnored(b[1..], region);
    }
    assert BeforeFirstDash(b) == b by { NoDashIsWhole(b); }
  }

  lemma {:induction false} NoDashIsWhole(s: string)
    requires '-' !in s
    ensures BeforeFirstDash(s) == s
  {
    if s != "" {
      NoDashIsWhole(s[1..]);
    }
  }

  /** Codes that differ only in letter case select the same voice when their
      base is in the table. */
  lemma CaseIgnored(a: string, b: string)
    requires |a| == |b| && forall i :: 0 <= i < |a| ==> LowerChar(a[i]) == LowerChar(b[i])
    requires BaseLanguage(a) in {"en", "es", "fr"}
    ensures GetVoiceSelection(a) == GetVoiceSelection(b)
  {
    var da, db := BeforeFirstDash(a), BeforeFirstDash(b);
    SameDashPosition(a, b);
    assert ToLower(da) == ToLower(db);
  }

  lemma {:induction false} SameDashPosition(a: string, b: string)
    requires |a| == |b| && forall i :: 0 <= i < |a| ==> LowerChar(a[i]) == LowerChar(b[i])
    ensures |BeforeFirstDash(a)| == |BeforeFirstDash(b)|
  {
    if a != "" {
      assert LowerChar(a[0]) == LowerChar(b[0]);
      assert a[0] == '-' <==> b[0] == '-';
      SameDashPosition(a[1..], b[1..]);
    }
  }

  /** "en", "EN" and "en-GB" select the same voice. */
  lemma EnglishVariants()
    ensures GetVoiceSelection("en") == NamedVoice("en-US", "en-US-Standard-C")
    ensures GetVoiceSelection("EN") == GetVoiceSelection("en")
    ensures GetVoiceSelection("en-GB") == GetVoiceSelection("en")
  {
    NoDashIsWhole("en");
    NoDashIsWhole("EN");
    assert ToLower("EN") == "en" == ToLower("en");
    RegionIgnored("en", "GB");
    assert "en" + "-" + "GB" == "en-GB";
  }

  /** The request sent to the speech client. */
  datatype SynthesizeRequest = SynthesizeRequest(text: string, voice: VoiceSelection, audioEncoding: string)

  /** What the speech client does with the request: audio content (given as
      its base64 text), a response without audio content, or an exception. */
  datatype SynthesisReply = AudioContent(base64: string) | NoAudioContent | SynthesisThrows

  /** The flow's output, with the request it made, if any. */
  datatype NarrationAudio = NarrationAudio(audioDataUri: string, request: Option<SynthesizeRequest>)

  const AudioUriPrefix := "data:audio/mp3;base64,"

  /** `narrationToAudioFlow`. */
  function NarrationToAudio(narratedText: string, voice: string, reply: SynthesisReply): (r: NarrationAudio)
    ensures IsBlank(narratedText) ==> r == NarrationAudio("", None)
    ensures !IsBlank(narratedText) ==>
              r.request == Some(SynthesizeRequest(narratedText, GetVoiceSelection(voice), "MP3"))
    ensures r.audioDataUri != "" <==> !IsBlank(narratedText) && reply.AudioContent?
    ensures r.audioDataUri != "" ==>
              StartsWith(r.audioDataUri, AudioUriPrefix) && r.audioDataUri[|AudioUriPrefix|..] == reply.base64
  {
    if Trim(narratedText) == "" then
      NarrationAudio("", None)
    else
      var request := SynthesizeRequest(narratedText, GetVoiceSelection(voice), "MP3");
      match reply
      case AudioContent(b64) => NarrationAudio(AudioUriPrefix + b64, Some(request))
      case NoAudioContent => NarrationAudio("", Some(request))
      case SynthesisThrows => NarrationAudio("", Some(request))
  }
}
