/**
 * Trigger events as the annotation parser delivers them: one (sample, code)
 * pair per marker, in recording order, and a label-to-code map.
 */
module Triggers {

  datatype Event = Event(sample: nat, code: int)

  /**
   * The events carrying `code`, in their original order (the boolean mask at denoising.py:34).
   */
  function Matching(events: seq<Event>, code: int): (r: seq<Event>)
    ensures |r| <= |events|
    ensures forall k :: 0 <= k < |r| ==> r[k].code == code && r[k] in events
    ensures forall k :: 0 <= k < |events| && events[k].code == code ==> events[k] in r
  {
    if |events| == 0 then []
    else if events[0].code == code then [events[0]] + Matching(events[1..], code)
    else Matching(events[1..], code)
  }

  /** Filtering distributes over concatenation, so relative order is kept. */
  lemma {:induction false} MatchingAppend(a: seq<Event>, b: seq<Event>, code: int)
    ensures Matching(a + b, code) == Matching(a, code) + Matching(b, code)
  {
    if |a| == 0 {
      assert a + b == b;
    } else {
      assert (a + b)[1..] == a[1..] + b;
      MatchingAppend(a[1..], b, code);
    }
  }

  /** Filtering keeps everything exactly when every event carries the code. */
  lemma {:induction false} MatchingKeepsAll(events: seq<Event>, code: int)
    ensures Matching(events, code) == events <==> forall k :: 0 <= k < |events| ==> events[k].code == code
  {
    if |events| > 0 {
      MatchingKeepsAll(events[1..], code);
      if events[0].code != code {
        assert |Matching(events, code)| < |events|;
      }
    }
  }

  /** The sample index of every event, in order. */
  function Onsets(events: seq<Event>): seq<nat>
  {
    seq(|events|, k requires 0 <= k < |events| => events[k].sample)
  }
}
