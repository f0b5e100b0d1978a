// The invocation port: one admission before a call goes out, one recorded outcome after it.

module Invocations {
  import opened Wrappers

  datatype Selection = Selection(reference: string, intent: string, version: string)

  /** An exact committed grant to resolve one secret. */
  datatype Grant =
    | Unversioned(authorization: string, reference: string, intent: string)
    | Versioned(authorization: string, selection: Selection)

  datatype Call = SecretResolution(grant: Grant) | RuntimeDispatch

  datatype Outcome = Returned | Unknown

  datatype Event =
    | Admitted(admitted: Call)
    | Reached(reached: Call)
    | Recorded(recorded: Call, outcome: Outcome)

  datatype Code = MissingSecret | DeniedSecret | InvalidResult | MalformedReference | NotSelected | OutOfScope

  /** What a call may raise: the port's own control error, the error of a port that was not
      supplied as required, a cancellation, a secret error, or anything else. */
  datatype Raised = ControlError | PortError | Cancelled | SecretFailure(code: Code) | OtherError

  /** One admitted call: reached once, and its outcome recorded or not. */
  datatype Bracket = Bracket(call: Call, recorded: Option<Outcome>)

  function EventsOf(b: Bracket): seq<Event> {
    [Admitted(b.call), Reached(b.call)]
    + match b.recorded case None => [] case Some(outcome) => [Recorded(b.call, outcome)]
  }

  function Flatten(bs: seq<Bracket>): seq<Event> {
    if bs == [] then [] else Flatten(bs[..|bs| - 1]) + EventsOf(bs[|bs| - 1])
  }

  lemma FlattenOne(b: Bracket)
    ensures Flatten([b]) == EventsOf(b)
  {
    assert [b][..0] == [];
  }

  lemma {:induction false} FlattenConcat(a: seq<Bracket>, b: seq<Bracket>)
    ensures Flatten(a + b) == Flatten(a) + Flatten(b)
  {
    if b == [] {
      assert a + b == a;
    } else {
      var n := |b| - 1;
      assert (a + b)[..|a + b| - 1] == a + b[..n];
      FlattenConcat(a, b[..n]);
    }
  }

  class Port {
    var events: seq<Event>
    /** Whether the last outcome was acknowledged by the port. */
    ghost var acknowledged: bool
    /** What the last refused admission or acknowledgement has raised. */
    ghost var refused: Raised

    constructor ()
      ensures events == []
    {
      events := [];
    }

    /** Admission may refuse, or fail in any other way; only an admitted call goes out. */
    method Admit(call: Call) returns (r: Result<(), Raised>)
      modifies this
      ensures events == old(events) + if r.Success? then [Admitted(call)] else []
      ensures r.Failure? ==> r.error == refused
    {
      r := *;
      match r {
        case Success(_) => events := events + [Admitted(call)];
        case Failure(e) => refused := e;
      }
    }

    method Reach(call: Call)
      modifies this
      ensures events == old(events) + [Reached(call)]
    {
      events := events + [Reached(call)];
    }

    method RecordOutcome(call: Call, outcome: Outcome) returns (r: Result<(), Raised>)
      modifies this
      ensures events == old(events) + [Recorded(call, outcome)] && acknowledged == r.Success?
      ensures r.Failure? ==> r.error == refused
    {
      r := *;
      acknowledged := r.Success?;
      refused := if r.Failure? then r.error else refused;
      events := events + [Recorded(call, outcome)];
    }

    /** Acknowledges a call that ended without a control error. A failed acknowledgement is
        raised, except that it never displaces a cancellation. */
    method Finish(call: Call, error: Option<Raised>) returns (r: Result<(), Raised>)
      modifies this
      ensures events == old(events) + [Recorded(call, if error.None? then Returned else Unknown)]
      ensures r.Success? <==> error.None? && acknowledged
      ensures error == Some(Cancelled) ==> r == Failure(Cancelled)
      ensures error.Some? && acknowledged ==> r == Failure(error.value)
      ensures error != Some(Cancelled) && !acknowledged ==> r == Failure(refused)
    {
      if error == Some(Cancelled) {
        var _ := RecordOutcome(call, Unknown);
        return Failure(Cancelled);
      }
      r := RecordOutcome(call, if error.None? then Returned else Unknown);
      if r.Success? && error.Some? {
        r := Failure(error.value);
      }
    }

    /** What happens after the admitted call has answered or raised: a control error goes through
        unrecorded, everything else is recorded once. */
    method Conclude<T>(call: Call, answer: Result<T, Raised>) returns (r: Result<T, Raised>, ghost end: Option<Outcome>)
      modifies this
      ensures events == old(events) + match end case None => [] case Some(outcome) => [Recorded(call, outcome)]
      ensures end == if answer == Failure(ControlError) then None
                     else Some(if answer.Success? then Returned else Unknown)
      ensures end.None? || answer == Failure(Cancelled) ==> r == answer
      ensures end.Some? && acknowledged ==> r == answer
      ensures end.Some? && answer != Failure(Cancelled) && !acknowledged ==> r == Failure(refused)
      ensures r.Success? <==> answer.Success? && acknowledged
    {
      if answer == Failure(ControlError) {
        return answer, None;
      }
      var error := match answer case Success(_) => None case Failure(e) => Some(e);
      var finished := Finish(call, error);
      end := Some(if error.None? then Returned else Unknown);
      r := match finished
           case Success(_) => answer
           case Failure(e) => Failure(e);
    }
  }
}
