/**
 * What a runner hands to the window: output lines (on_output_line) and the
 * completion code (on_process_end), in the order they are delivered. The
 * window's root.after hop is taken as direct, in-order delivery.
 */
module Events {

  datatype Event = Line(text: string) | End(code: int)

  /** Texts delivered one after another as output lines. */
  function Lines(texts: seq<string>): seq<Event>
  {
    seq(|texts|, k requires 0 <= k < |texts| => Line(texts[k]))
  }

  lemma LinesAppend(a: seq<string>, b: seq<string>)
    ensures Lines(a + b) == Lines(a) + Lines(b)
  {
    assert forall k :: 0 <= k < |a + b| ==> Lines(a + b)[k] == (Lines(a) + Lines(b))[k];
  }

  lemma LinesOne(t: string)
    ensures Lines([t]) == [Line(t)]
  {
  }

  /** Output lines only, then exactly one completion, which is the last event. */
  predicate CompletesOnce(evs: seq<Event>)
  {
    evs != [] && evs[|evs| - 1].End? && forall k :: 0 <= k < |evs| - 1 ==> evs[k].Line?
  }

  /** The pair of callbacks a runner is constructed with. */
  class Channel {
    var events: seq<Event>

    constructor ()
      ensures events == []
    {
      events := [];
    }

    /** on_output_line(text). */
    method Emit(text: string)
      modifies this
      ensures events == old(events) + [Line(text)]
    {
      events := events + [Line(text)];
    }

    /** on_process_end(code). */
    method Finish(code: int)
      modifies this
      ensures events == old(events) + [End(code)]
    {
      events := events + [End(code)];
    }
  }
}
