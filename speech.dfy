/** The two expression-only helpers of the assistant component: the choice of
    a synthesis voice and the join of a recognition event's transcripts
    (src/components/AIAssistant.tsx). */
module Speech {
  import opened Types
  import opened Text

  /** A synthesis voice as the platform lists it; only its name matters here. */
  datatype Voice = Voice(name: string)

  /** The preference test applied to each voice: its name mentions Google or Daniel. */
  predicate IsPreferred(v: Voice)
    ensures IsPreferred(v) <==>
      (exists i: nat :: OccursAt(v.name, "Google", i)) || (exists i: nat :: OccursAt(v.name, "Daniel", i))
  {
    ContainsIff(v.name, "Google");
    ContainsIff(v.name, "Daniel");
    Contains(v.name, "Google") || Contains(v.name, "Daniel")
  }

  /** The index `voices.find` stops at: the first preferred voice, if any. */
  function FindPreferred(voices: seq<Voice>): (r: Option<nat>)
    ensures r.Some? ==> r.value < |voices| && IsPreferred(voices[r.value])
    ensures r.Some? ==> forall j :: 0 <= j < r.value ==> !IsPreferred(voices[j])
    ensures r.None? <==> forall j :: 0 <= j < |voices| ==> !IsPreferred(voices[j])
  {
    if voices == [] then None
    else if IsPreferred(voices[0]) then Some(0)
    else match FindPreferred(voices[1..])
      case None => None
      case Some(k) => Some(k + 1)
  }

  /** The voice set on the utterance; None leaves the engine's default voice. */
  function ChooseVoice(voices: seq<Voice>): (r: Option<Voice>)
    ensures r.Some? ==> r.value in voices && IsPreferred(r.value)
    ensures r.Some? ==>
      exists i :: 0 <= i < |voices| && r.value == voices[i] && forall j :: 0 <= j < i ==> !IsPreferred(voices[j])
    ensures r.None? <==> forall j :: 0 <= j < |voices| ==> !IsPreferred(voices[j])
  {
    match FindPreferred(voices)
    case None => None
    case Some(i) => Some(voices[i])
  }

  /** One recognition result: the transcripts of its alternatives, best first. */
  type RecognitionResult = seq<string>

  predicate HasAlternatives(results: seq<RecognitionResult>) {
    forall i :: 0 <= i < |results| ==> results[i] != []
  }

  /** The event's transcript: each result's first alternative, joined with no separator. */
  function JoinTranscripts(results: seq<RecognitionResult>): (r: string)
    requires HasAlternatives(results)
    ensures results != [] ==> |results[0][0]| <= |r| && r[..|results[0][0]|] == results[0][0]
    ensures r == "" <==> forall i :: 0 <= i < |results| ==> results[i][0] == ""
  {
    if results == [] then "" else results[0][0] + JoinTranscripts(results[1..])
  }

  /** Joining is a homomorphism: the transcript of two runs of results is the
      first run's transcript followed by the second's. */
  lemma {:induction false} JoinTranscriptsAppend(a: seq<RecognitionResult>, b: seq<RecognitionResult>)
    requires HasAlternatives(a) && HasAlternatives(b)
    ensures HasAlternatives(a + b)
    ensures JoinTranscripts(a + b) == JoinTranscripts(a) + JoinTranscripts(b)
  {
    if a != [] {
      assert (a + b)[1..] == a[1..] + b;
      JoinTranscriptsAppend(a[1..], b);
    } else {
      assert a + b == b;
    }
  }

  /** A single result contributes its best alternative and nothing else. */
  lemma JoinTranscriptsSingle(r: RecognitionResult)
    requires r != []
    ensures JoinTranscripts([r]) == r[0]
  {
    assert [r][1..] == [];
  }
}
