/** The avatar component: it turns the Azure viseme and word events of a synthesised
    reply into the Oculus lip-sync tracks of the TalkingHead library, and guards `speak`
    with two flags so that only one utterance plays at a time. */
module TalkingHead {
  import opened JsText

  /** One Azure viseme event; the offset is in 100 ns ticks. */
  datatype AzureViseme = AzureViseme(visemeId: int, audioOffset: real)

  /** One Azure word-boundary event; offset and duration in 100 ns ticks. */
  datatype AzureWord = AzureWord(text: string, audioOffset: real, duration: real)

  /** Ticks per millisecond: the divisor of every time conversion. */
  const TicksPerMs: real := 10000.0

  /** The duration given to the last viseme, in ms. */
  const LastVisemeMs: real := 100.0

  /** `azureToOculusMap`: the 22 Azure viseme ids onto Oculus viseme names. */
  const AzureToOculus: map<int, string> := map[
    0 := "sil", 1 := "PP", 2 := "FF", 3 := "TH", 4 := "DD", 5 := "kk", 6 := "CH",
    7 := "SS", 8 := "nn", 9 := "RR", 10 := "aa", 11 := "E", 12 := "I", 13 := "O", 14 := "U",
    15 := "PP", 16 := "aa", 17 := "E", 18 := "I", 19 := "O", 20 := "U", 21 := "sil"
  ]

  /** The 15 Oculus viseme names the library animates. */
  const OculusVisemes: set<string> :=
    {"sil", "PP", "FF", "TH", "DD", "kk", "CH", "SS", "nn", "RR", "aa", "E", "I", "O", "U"}

  /** `azureToOculusMap[id] || 'sil'`: the table entry for ids 0..21, "sil" for any other id;
      always an Oculus name. */
  function OculusName(id: int): (name: string)
    ensures name in OculusVisemes
    ensures 0 <= id <= 21 ==> id in AzureToOculus && name == AzureToOculus[id]
    ensures !(0 <= id <= 21) ==> name == "sil"
  {
    if id in AzureToOculus then AzureToOculus[id] else "sil"
  }

  /** The three parallel tracks handed to `speakAudio`: names, start times in ms, durations in ms. */
  datatype VisemeTrack = VisemeTrack(visemes: seq<string>, times: seq<real>, durations: seq<real>)

  /** `convertAzureVisemesToOculus`: one entry per event; each viseme lasts until the next
      one starts, and the last one lasts 100 ms. */
  function ConvertAzureVisemesToOculus(vs: seq<AzureViseme>): (t: VisemeTrack)
    ensures |t.visemes| == |vs| && |t.times| == |vs| && |t.durations| == |vs|
    ensures forall i :: 0 <= i < |vs| ==> t.visemes[i] in OculusVisemes && t.visemes[i] == OculusName(vs[i].visemeId)
    ensures forall i :: 0 <= i < |vs| ==> t.times[i] * TicksPerMs == vs[i].audioOffset
    ensures forall i :: 0 <= i < |vs| - 1 ==> t.times[i] + t.durations[i] == t.times[i + 1]
    ensures |vs| > 0 ==> t.durations[|vs| - 1] == LastVisemeMs
  {
    VisemeTrack(
      seq(|vs|, i requires 0 <= i < |vs| => OculusName(vs[i].visemeId)),
      seq(|vs|, i requires 0 <= i < |vs| => vs[i].audioOffset / TicksPerMs),
      seq(|vs|, i requires 0 <= i < |vs| =>
        if i < |vs| - 1 then (vs[i + 1].audioOffset - vs[i].audioOffset) / TicksPerMs else LastVisemeMs))
  }

  function Sum(s: seq<real>): real
  {
    if s == [] then 0.0 else Sum(s[..|s| - 1]) + s[|s| - 1]
  }

  /** The durations telescope: the first n-1 of them add up to the time from the first
      viseme to the n-th one (in ms). */
  lemma {:induction false} DurationsTelescope(vs: seq<AzureViseme>, n: nat)
    requires 1 <= n <= |vs|
    ensures Sum(ConvertAzureVisemesToOculus(vs).durations[..n - 1])
            == (vs[n - 1].audioOffset - vs[0].audioOffset) / TicksPerMs
  {
    var d := ConvertAzureVisemesToOculus(vs).durations;
    if n == 1 {
      assert d[..0] == [];
    } else {
      DurationsTelescope(vs, n - 1);
      assert d[..n - 1][..n - 2] == d[..n - 2];
      assert d[n - 2] == (vs[n - 1].audioOffset - vs[n - 2].audioOffset) / TicksPerMs;
    }
  }

  /** The whole track lasts from the first viseme's start until 100 ms after the last one starts. */
  lemma TrackLength(vs: seq<AzureViseme>)
    requires |vs| > 0
    ensures var t := ConvertAzureVisemesToOculus(vs);
            Sum(t.durations) == t.times[|vs| - 1] - t.times[0] + LastVisemeMs
  {
    var t := ConvertAzureVisemesToOculus(vs);
    DurationsTelescope(vs, |vs|);
    assert t.durations[..|vs|] == t.durations;
  }

  /** `words`, `wtimes` and `wdurations`: the word texts and their times in ms. */
  datatype WordTrack = WordTrack(words: seq<string>, wtimes: seq<real>, wdurations: seq<real>)

  /** The three `data.words.map` expressions: parallel to the events, ticks converted back to ms. */
  function ExtractWords(ws: seq<AzureWord>): (t: WordTrack)
    ensures |t.words| == |ws| && |t.wtimes| == |ws| && |t.wdurations| == |ws|
    ensures forall i :: 0 <= i < |ws| ==> t.words[i] == ws[i].text
    ensures forall i :: 0 <= i < |ws| ==>
      t.wtimes[i] * TicksPerMs == ws[i].audioOffset && t.wdurations[i] * TicksPerMs == ws[i].duration
  {
    WordTrack(
      seq(|ws|, i requires 0 <= i < |ws| => ws[i].text),
      seq(|ws|, i requires 0 <= i < |ws| => ws[i].audioOffset / TicksPerMs),
      seq(|ws|, i requires 0 <= i < |ws| => ws[i].duration / TicksPerMs))
  }

  /** One `onWord(word, i)` call, fired `delayMs` after the audio starts. */
  datatype WordCallback = WordCallback(word: string, index: nat, delayMs: real)

  /** The `words.forEach(setTimeout(...))` schedule: the i-th word at its own start time. */
  function WordSchedule(t: WordTrack): (cs: seq<WordCallback>)
    requires |t.wtimes| == |t.words|
    ensures |cs| == |t.words|
    ensures forall i :: 0 <= i < |cs| ==> cs[i].word == t.words[i] && cs[i].index == i && cs[i].delayMs == t.wtimes[i]
  {
    seq(|t.words|, i requires 0 <= i < |t.words| => WordCallback(t.words[i], i, t.wtimes[i]))
  }

  /** What the `/api/azure-tts` call answers: an error, or the audio with its events. */
  datatype TtsReply =
    | ErrorReply(error: string)
    | AudioReply(audio: string, visemes: seq<AzureViseme>, words: seq<AzureWord>)

  /** What `speakAudio` receives, and the `onWord` calls scheduled beside it. */
  datatype SpeechPlan = SpeechPlan(audio: string, lipSync: VisemeTrack, words: WordTrack, callbacks: seq<WordCallback>)

  /** The body of the `try`: none when the reply carries an error or the audio does not
      decode (the `catch`), otherwise the two tracks and, if an `onWord` handler is set,
      its schedule. */
  function PlanSpeech(reply: TtsReply, decodes: bool, hasOnWord: bool): (plan: Option<SpeechPlan>)
    ensures plan.Some? <==> reply.AudioReply? && decodes
    ensures plan.Some? ==>
      && plan.value.audio == reply.audio
      && plan.value.lipSync == ConvertAzureVisemesToOculus(reply.visemes)
      && plan.value.words == ExtractWords(reply.words)
      && |plan.value.callbacks| == (if hasOnWord then |reply.words| else 0)
      && forall i :: 0 <= i < |plan.value.callbacks| ==>
           plan.value.callbacks[i] == WordCallback(reply.words[i].text, i, reply.words[i].audioOffset / TicksPerMs)
  {
    if reply.ErrorReply? || !decodes then None
    else
      var words := ExtractWords(reply.words);
      Some(SpeechPlan(reply.audio, ConvertAzureVisemesToOculus(reply.visemes), words,
                      if hasOnWord then WordSchedule(words) else []))
  }

  /** The component's two state flags. */
  class Avatar {
    var isInitialized: bool
    var isPlaying: bool

    constructor ()
      ensures !isInitialized && !isPlaying
    {
      isInitialized := false;
      isPlaying := false;
    }

    /** `initAvatar`: the flag is set once the model has loaded; a failed load leaves it as it was. */
    method InitAvatar(loaded: bool)
      modifies this
      ensures isInitialized == (old(isInitialized) || loaded)
      ensures isPlaying == old(isPlaying)
    {
      if loaded {
        isInitialized := true;
      }
    }

    /** The guard at the top of `speak`: it starts only when initialised and idle, and then
        marks the avatar as playing; otherwise nothing changes. */
    method BeginSpeak() returns (started: bool)
      modifies this
      ensures started == (old(isInitialized) && !old(isPlaying))
      ensures isInitialized == old(isInitialized)
      ensures isPlaying == (old(isPlaying) || started)
    {
      if !isInitialized || isPlaying {
        return false;
      }
      isPlaying := true;
      started := true;
    }

    /** The `finally`: whatever happened, the avatar is idle again. */
    method FinishSpeak()
      modifies this
      ensures !isPlaying && isInitialized == old(isInitialized)
    {
      isPlaying := false;
    }

    /** `speak`, with the reply, the decoding outcome and the presence of `onWord` as parameters:
        a no-op unless initialised and idle; otherwise the plan of the `try` block, and idle
        afterwards whether it succeeded or failed. */
    method Speak(reply: TtsReply, decodes: bool, hasOnWord: bool) returns (plan: Option<SpeechPlan>)
      modifies this
      ensures isInitialized == old(isInitialized)
      ensures !(old(isInitialized) && !old(isPlaying)) ==> plan.None? && isPlaying == old(isPlaying)
      ensures old(isInitialized) && !old(isPlaying) ==> plan == PlanSpeech(reply, decodes, hasOnWord) && !isPlaying
    {
      var started := BeginSpeak();
      if !started {
        return None;
      }
      plan := PlanSpeech(reply, decodes, hasOnWord);
      FinishSpeak();
    }
  }

  /** An example run on a fresh, loaded avatar: a second `speak` while the first is under
      way does nothing; once the first has finished, a new one starts again. The general
      guard is the contract of `BeginSpeak`. */
  method OverlappingSpeak() returns (first: bool, second: bool, third: bool)
    ensures first && !second && third
  {
    var avatar := new Avatar();
    avatar.InitAvatar(true);
    first := avatar.BeginSpeak();
    second := avatar.BeginSpeak();
    avatar.FinishSpeak();
    third := avatar.BeginSpeak();
  }
}
