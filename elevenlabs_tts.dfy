/** The text-to-speech route that turns the vendor's per-character timings into word
    timings (split on spaces, durations summed) and into one Azure-style viseme per
    character, both in Azure's 100-nanosecond units. */
module ElevenLabsTts {
  import opened JsText

  /** `alignment`: three parallel arrays, times in seconds. */
  datatype Alignment = Alignment(characters: seq<char>, startTimes: seq<real>, endTimes: seq<real>)

  /** The loops read the two time arrays at every character index. */
  predicate WellFormed(a: Alignment) {
    |a.startTimes| >= |a.characters| && |a.endTimes| >= |a.characters|
  }

  datatype WordTiming = WordTiming(text: string, audioOffset: real, duration: real)
  datatype VisemeTiming = VisemeTiming(visemeId: nat, audioOffset: real)

  const MsPerSecond: real := 1000.0
  /** Milliseconds to 100 ns ticks, "like Azure". */
  const TicksPerMs: real := 10000.0

  function StartMs(a: Alignment, k: nat): real
    requires WellFormed(a) && k < |a.characters|
  {
    a.startTimes[k] * MsPerSecond
  }

  function DurationMs(a: Alignment, k: nat): real
    requires WellFormed(a) && k < |a.characters|
  {
    a.endTimes[k] * MsPerSecond - a.startTimes[k] * MsPerSecond
  }

  /** The sum of the character durations over characters lo..hi-1, in ms. */
  function SumDurationMs(a: Alignment, lo: nat, hi: nat): real
    requires WellFormed(a) && lo <= hi <= |a.characters|
    decreases hi - lo
  {
    if lo == hi then 0.0 else SumDurationMs(a, lo, hi - 1) + DurationMs(a, hi - 1)
  }

  //------------------------------------------------------------------
  // Words: the reference definition, by maximal runs of non-space characters
  //------------------------------------------------------------------

  /** The end of the run of non-space characters that starts at i. */
  function RunEnd(s: seq<char>, i: nat): (j: nat)
    requires i <= |s|
    ensures i <= j <= |s|
    ensures forall k :: i <= k < j ==> s[k] != ' '
    ensures j < |s| ==> s[j] == ' '
    decreases |s| - i
  {
    if i == |s| || s[i] == ' ' then i else RunEnd(s, i + 1)
  }

  /** The word made of characters lo..hi-1: its text, the start of its first character and
      the summed durations of its characters, converted to ticks. */
  function WordOf(a: Alignment, lo: nat, hi: nat): WordTiming
    requires WellFormed(a) && lo < hi <= |a.characters|
  {
    WordTiming(a.characters[lo..hi], StartMs(a, lo) * TicksPerMs, SumDurationMs(a, lo, hi) * TicksPerMs)
  }

  /** The words of characters i.. : one per maximal run of non-space characters, in order. */
  function WordsFrom(a: Alignment, i: nat): seq<WordTiming>
    requires WellFormed(a) && i <= |a.characters|
    decreases |a.characters| - i
  {
    if i == |a.characters| then []
    else if a.characters[i] == ' ' then WordsFrom(a, i + 1)
    else
      var j := RunEnd(a.characters, i + 1);
      [WordOf(a, i, j)] + WordsFrom(a, j)
  }

  /** The characters of s with every space removed. */
  function RemoveSpaces(s: seq<char>): (r: seq<char>)
    ensures ' ' !in r
  {
    if s == [] then [] else (if s[0] == ' ' then [] else [s[0]]) + RemoveSpaces(s[1..])
  }

  /** The word texts concatenated in order. */
  function Joined(ws: seq<WordTiming>): string
  {
    if ws == [] then "" else ws[0].text + Joined(ws[1..])
  }

  predicate ProperWord(w: WordTiming) {
    w.text != [] && ' ' !in w.text
  }

  /** No word is empty and none contains a space. */
  lemma {:induction false} WordsAreProper(a: Alignment, i: nat)
    requires WellFormed(a) && i <= |a.characters|
    ensures forall k :: 0 <= k < |WordsFrom(a, i)| ==> ProperWord(WordsFrom(a, i)[k])
    decreases |a.characters| - i
  {
    if i < |a.characters| {
      if a.characters[i] == ' ' {
        WordsAreProper(a, i + 1);
      } else {
        var j := RunEnd(a.characters, i + 1);
        WordsAreProper(a, j);
        assert forall k :: i <= k < j ==> a.characters[k] != ' ';
        assert forall k :: 0 <= k < j - i ==> a.characters[i..j][k] == a.characters[i + k];
      }
    }
  }

  /** Removing the spaces of a space-free run followed by the rest leaves the run in front. */
  lemma {:induction false} RemoveSpacesOfRun(s: seq<char>, i: nat, j: nat)
    requires i <= j <= |s|
    requires forall k :: i <= k < j ==> s[k] != ' '
    ensures RemoveSpaces(s[i..]) == s[i..j] + RemoveSpaces(s[j..])
    decreases j - i
  {
    if i < j {
      RemoveSpacesOfRun(s, i + 1, j);
      assert s[i..][1..] == s[i + 1..];
      assert s[i..j] == [s[i]] + s[i + 1..j];
    }
  }

  /** The concatenation law: the words, joined without separators, are the characters
      with their spaces removed. */
  lemma {:induction false} WordsJoinToCharacters(a: Alignment, i: nat)
    requires WellFormed(a) && i <= |a.characters|
    ensures Joined(WordsFrom(a, i)) == RemoveSpaces(a.characters[i..])
    decreases |a.characters| - i
  {
    var s := a.characters;
    if i == |s| {
      assert s[i..] == [];
    } else if s[i] == ' ' {
      WordsJoinToCharacters(a, i + 1);
      assert s[i..][1..] == s[i + 1..];
    } else {
      var j := RunEnd(s, i + 1);
      WordsJoinToCharacters(a, j);
      RemoveSpacesOfRun(s, i, j);
      var ws := WordsFrom(a, i);
      assert ws[0].text == s[i..j] && ws[1..] == WordsFrom(a, j);
    }
  }

  /** A text made only of spaces has no words. */
  lemma {:induction false} BlankHasNoWords(a: Alignment, i: nat)
    requires WellFormed(a) && i <= |a.characters|
    requires forall k :: i <= k < |a.characters| ==> a.characters[k] == ' '
    ensures WordsFrom(a, i) == []
    decreases |a.characters| - i
  {
    if i < |a.characters| {
      BlankHasNoWords(a, i + 1);
    }
  }

  /** The run containing position i, once it has started at lo, ends where the run at i ends. */
  lemma RunEndInside(s: seq<char>, lo: nat, i: nat)
    requires lo <= i <= |s|
    requires forall k :: lo <= k < i ==> s[k] != ' '
    ensures RunEnd(s, lo) == RunEnd(s, i)
    decreases i - lo
  {
    if lo < i {
      RunEndInside(s, lo + 1, i);
    }
  }

  //------------------------------------------------------------------
  // The two loops of the route
  //------------------------------------------------------------------

  /** A word that started at ws and has reached a space at i is the first of the words from ws. */
  lemma WordEndsAtSpace(a: Alignment, ws: nat, i: nat)
    requires WellFormed(a) && ws < i <= |a.characters|
    requires a.characters[ws] != ' ' && ' ' !in a.characters[ws..i]
    requires i < |a.characters| ==> a.characters[i] == ' '
    ensures WordsFrom(a, ws) == [WordOf(a, ws, i)] + (if i < |a.characters| then WordsFrom(a, i + 1) else [])
  {
    var s := a.characters;
    forall k | ws + 1 <= k < i
      ensures s[k] != ' '
    {
      assert s[k] == s[ws..i][k - ws];
    }
    RunEndInside(s, ws + 1, i);
  }

  /** The state of the word loop after characters 0..i-1: `done` followed by the words still
      to come is the whole word list; a pending `word` is the run that started at ws, with
      its start time and the durations summed so far. */
  ghost predicate Scanning(a: Alignment, i: nat, done: seq<WordTiming>, word: string, ws: nat, start: real, dur: real)
    requires WellFormed(a) && i <= |a.characters|
  {
    if word == [] then
      done + WordsFrom(a, i) == WordsFrom(a, 0) && dur == 0.0
    else
      && ws < i && word == a.characters[ws..i] && a.characters[ws] != ' ' && ' ' !in word
      && done + WordsFrom(a, ws) == WordsFrom(a, 0)
      && start == StartMs(a, ws) && dur == SumDurationMs(a, ws, i)
  }

  /** A space with no pending word is skipped. */
  lemma SkipSpace(a: Alignment, i: nat, done: seq<WordTiming>, ws: nat, start: real)
    requires WellFormed(a) && i < |a.characters| && a.characters[i] == ' '
    requires Scanning(a, i, done, [], ws, start, 0.0)
    ensures Scanning(a, i + 1, done, [], ws, start, 0.0)
  {
  }

  /** A space after a pending word completes it: the word is the next of the list. */
  lemma EndWord(a: Alignment, i: nat, done: seq<WordTiming>, word: string, ws: nat, start: real, dur: real)
    requires WellFormed(a) && i <= |a.characters| && word != []
    requires i < |a.characters| ==> a.characters[i] == ' '
    requires Scanning(a, i, done, word, ws, start, dur)
    ensures WordTiming(word, start * TicksPerMs, dur * TicksPerMs) == WordOf(a, ws, i)
    ensures i < |a.characters| ==> Scanning(a, i + 1, done + [WordOf(a, ws, i)], [], ws, start, 0.0)
    ensures i == |a.characters| ==> done + [WordOf(a, ws, i)] == WordsFrom(a, 0)
  {
    WordEndsAtSpace(a, ws, i);
    var w := WordOf(a, ws, i);
    if i < |a.characters| {
      assert (done + [w]) + WordsFrom(a, i + 1) == done + ([w] + WordsFrom(a, i + 1));
    } else {
      assert WordsFrom(a, ws) == [w];
    }
  }

  /** A non-space with no pending word starts one. */
  lemma StartWord(a: Alignment, i: nat, done: seq<WordTiming>, ws: nat, start: real)
    requires WellFormed(a) && i < |a.characters| && a.characters[i] != ' '
    requires Scanning(a, i, done, [], ws, start, 0.0)
    ensures Scanning(a, i + 1, done, [a.characters[i]], i, StartMs(a, i), DurationMs(a, i))
  {
    assert a.characters[i..i + 1] == [a.characters[i]];
    assert SumDurationMs(a, i, i + 1) == DurationMs(a, i);
  }

  /** A non-space extends the pending word and adds its duration. */
  lemma ExtendWord(a: Alignment, i: nat, done: seq<WordTiming>, word: string, ws: nat, start: real, dur: real)
    requires WellFormed(a) && i < |a.characters| && a.characters[i] != ' ' && word != []
    requires Scanning(a, i, done, word, ws, start, dur)
    ensures Scanning(a, i + 1, done, word + [a.characters[i]], ws, start, dur + DurationMs(a, i))
  {
    assert a.characters[ws..i + 1] == a.characters[ws..i] + [a.characters[i]];
  }

  /** The first loop: accumulate characters into `word` until a space, push finished words,
      and push the last word if the text does not end in a space. */
  method AlignmentToWords(a: Alignment) returns (wordData: seq<WordTiming>)
    requires WellFormed(a)
    ensures wordData == WordsFrom(a, 0)
    ensures forall k :: 0 <= k < |wordData| ==> ProperWord(wordData[k])
    ensures Joined(wordData) == RemoveSpaces(a.characters)
  {
    var s := a.characters;
    wordData := [];
    var word := "";
    var wordStartTime := 0.0;
    var wordDuration := 0.0;
    ghost var ws: nat := 0;
    for i := 0 to |s|
      invariant Scanning(a, i, wordData, word, ws, wordStartTime, wordDuration)
    {
      var ch := s[i];
      var charStartTime := a.startTimes[i] * MsPerSecond;
      var charEndTime := a.endTimes[i] * MsPerSecond;
      var charDuration := charEndTime - charStartTime;
      if |word| == 0 {
        wordStartTime := charStartTime;
        ws := i;
      }
      if ch == ' ' {
        if |word| > 0 {
          EndWord(a, i, wordData, word, ws, wordStartTime, wordDuration);
          wordData := wordData + [WordTiming(word, wordStartTime * TicksPerMs, wordDuration * TicksPerMs)];
          word := "";
          wordDuration := 0.0;
        } else {
          SkipSpace(a, i, wordData, ws, wordStartTime);
        }
      } else {
        if |word| == 0 {
          StartWord(a, i, wordData, ws, wordStartTime);
        } else {
          ExtendWord(a, i, wordData, word, ws, wordStartTime, wordDuration);
        }
        word := word + [ch];
        wordDuration := wordDuration + charDuration;
      }
    }
    if |word| > 0 {
      EndWord(a, |s|, wordData, word, ws, wordStartTime, wordDuration);
      wordData := wordData + [WordTiming(word, wordStartTime * TicksPerMs, wordDuration * TicksPerMs)];
    }
    WordsAreProper(a, 0);
    WordsJoinToCharacters(a, 0);
    assert s[0..] == s;
  }

  /** `charToViseme`: Azure viseme ids for lower-case letters and the space. */
  const CharToViseme: map<char, nat> := map[
    'a' := 10, 'e' := 11, 'i' := 12, 'o' := 13, 'u' := 14,
    'b' := 1, 'p' := 1, 'm' := 1,
    'f' := 2, 'v' := 2,
    't' := 3, 'd' := 4, 'n' := 8, 'l' := 8,
    'k' := 5, 'g' := 5, 'c' := 5, 'q' := 5,
    's' := 7, 'z' := 7, 'j' := 6,
    'r' := 9,
    ' ' := 0, 'h' := 0, 'w' := 0, 'y' := 0, 'x' := 0
  ]

  /** `charToViseme[char.toLowerCase()] || 0`: an id in 0..14, 0 for any character not in the table. */
  function VisemeIdOf(c: char): (id: nat)
    ensures id <= 14
    ensures AsciiLower(c) !in CharToViseme ==> id == 0
    ensures AsciiLower(c) in CharToViseme ==> id == CharToViseme[AsciiLower(c)]
  {
    var lower := AsciiLower(c);
    if lower in CharToViseme then CharToViseme[lower] else 0
  }

  /** An upper-case ASCII letter gets the viseme of its lower-case form. */
  lemma VisemeIdCaseInsensitive(c: char)
    requires 'A' <= c <= 'Z'
    ensures VisemeIdOf(c) == VisemeIdOf((c as int + 32) as char)
  {
  }

  /** The second loop: one viseme per character, in character order. */
  method AlignmentToVisemes(a: Alignment) returns (visemeData: seq<VisemeTiming>)
    requires WellFormed(a)
    ensures |visemeData| == |a.characters|
    ensures forall k :: 0 <= k < |visemeData| ==>
      visemeData[k].visemeId == VisemeIdOf(a.characters[k])
      && visemeData[k].audioOffset == StartMs(a, k) * TicksPerMs
  {
    visemeData := [];
    for i := 0 to |a.characters|
      invariant |visemeData| == i
      invariant forall k :: 0 <= k < i ==>
        visemeData[k].visemeId == VisemeIdOf(a.characters[k])
        && visemeData[k].audioOffset == StartMs(a, k) * TicksPerMs
    {
      var startTime := a.startTimes[i] * MsPerSecond;
      visemeData := visemeData + [VisemeTiming(VisemeIdOf(a.characters[i]), startTime * TicksPerMs)];
    }
  }

  /** `data.normalized_alignment || data.alignment`. */
  function ChooseAlignment(normalized: Option<Alignment>, raw: Option<Alignment>): (r: Option<Alignment>)
    ensures normalized.Some? ==> r == normalized
    ensures normalized.None? ==> r == raw
  {
    if normalized.Some? then normalized else raw
  }

  predicate ReplyWellFormed(o: Option<Alignment>) {
    o.Some? ==> WellFormed(o.value)
  }

  /** The timing part of the route: empty lists without an alignment, otherwise both loops
      over the chosen alignment. */
  method ProcessAlignment(normalized: Option<Alignment>, raw: Option<Alignment>)
    returns (visemeData: seq<VisemeTiming>, wordData: seq<WordTiming>)
    requires ReplyWellFormed(ChooseAlignment(normalized, raw))
    ensures ChooseAlignment(normalized, raw).None? ==> visemeData == [] && wordData == []
    ensures ChooseAlignment(normalized, raw).Some? ==>
      var a := ChooseAlignment(normalized, raw).value;
      && wordData == WordsFrom(a, 0)
      && Joined(wordData) == RemoveSpaces(a.characters)
      && |visemeData| == |a.characters|
      && forall k :: 0 <= k < |visemeData| ==>
           visemeData[k] == VisemeTiming(VisemeIdOf(a.characters[k]), StartMs(a, k) * TicksPerMs)
  {
    var alignment := ChooseAlignment(normalized, raw);
    visemeData, wordData := [], [];
    if alignment.Some? {
      wordData := AlignmentToWords(alignment.value);
      visemeData := AlignmentToVisemes(alignment.value);
    }
  }

  /** What the vendor answers: an HTTP failure, or the audio and its alignments. */
  datatype VendorReply =
    | HttpFailure(httpStatus: int, errorText: string)
    | Synthesized(audioBase64: string, normalizedAlignment: Option<Alignment>, alignment: Option<Alignment>)

  datatype TtsError = KeyNotConfigured | VendorError(httpStatus: int, errorText: string)

  datatype TtsPayload = TtsPayload(audio: string, visemes: seq<VisemeTiming>, words: seq<WordTiming>)

  /** The whole route, with the vendor's reply as a parameter. */
  method Post(apiKey: Option<string>, reply: VendorReply) returns (r: Result<TtsPayload, TtsError>)
    requires reply.Synthesized? ==> ReplyWellFormed(ChooseAlignment(reply.normalizedAlignment, reply.alignment))
    ensures (apiKey.None? || apiKey.value == "") ==> r == Failure(KeyNotConfigured)
    ensures (apiKey.Some? && apiKey.value != "" && reply.HttpFailure?) ==>
      r == Failure(VendorError(reply.httpStatus, reply.errorText))
    ensures (apiKey.Some? && apiKey.value != "" && reply.Synthesized?) ==>
      && r.Success? && r.value.audio == reply.audioBase64
      && var chosen := ChooseAlignment(reply.normalizedAlignment, reply.alignment);
         (chosen.None? ==> r.value.words == [] && r.value.visemes == [])
         && (chosen.Some? ==>
               && r.value.words == WordsFrom(chosen.value, 0)
               && |r.value.visemes| == |chosen.value.characters|
               && forall k :: 0 <= k < |r.value.visemes| ==>
                    r.value.visemes[k] == VisemeTiming(VisemeIdOf(chosen.value.characters[k]), StartMs(chosen.value, k) * TicksPerMs))
  {
    if apiKey.None? || apiKey.value == "" {
      return Failure(KeyNotConfigured);
    }
    if reply.HttpFailure? {
      return Failure(VendorError(reply.httpStatus, reply.errorText));
    }
    var visemeData, wordData := ProcessAlignment(reply.normalizedAlignment, reply.alignment);
    r := Success(TtsPayload(reply.audioBase64, visemeData, wordData));
  }
}
