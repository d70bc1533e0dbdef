/**
 The table of outstanding calls that both JSON-RPC clients keep under one mutex
 (internal/lsp/client.go, internal/mcp/stdio.go). Each method is one critical section.
 */
module CallTable {
  import opened Prelude

  datatype Failure = Closed | WriteFailed | StreamEnded | BadEnvelope | InvalidId | NotPending

  /** Ids that await a response, ids whose caller gave up, and the failure that ended the client. */
  datatype Table = Table(pending: set<int>, abandoned: set<int>, failure: Option<Failure>)

  /** What the reader does with a response: hand it over, drop it, or fail the client. */
  datatype Verdict = HandOver | Drop | Unexpected

  function Register(t: Table, id: int): Table {
    if t.failure.Some? then t else t.(pending := t.pending + {id})
  }

  function Remove(t: Table, id: int, abandon: bool): Table {
    if id !in t.pending then t
    else t.(pending := t.pending - {id}, abandoned := if abandon then t.abandoned + {id} else t.abandoned)
  }

  function Resolve(t: Table, id: int): (Table, Verdict) {
    (t.(pending := t.pending - {id}, abandoned := t.abandoned - {id}),
     if id in t.abandoned then Drop else if id in t.pending then HandOver else Unexpected)
  }

  /** The first failure empties the table; the ids returned are sent that failure afterwards. */
  function Fail(t: Table, cause: Failure): (Table, set<int>) {
    if t.failure.Some? then (t, {}) else (Table({}, {}, Some(cause)), t.pending)
  }

  class Calls {
    var pending: set<int>
    var abandoned: set<int>
    var failure: Option<Failure>

    function State(): Table
      reads this
    {
      Table(pending, abandoned, failure)
    }

    constructor ()
      ensures State() == Table({}, {}, None)
    {
      pending, abandoned, failure := {}, {}, None;
    }

    /** Registering either adds the call or reports why the client can take no more. */
    method RegisterCall(id: int) returns (err: Option<Failure>)
      modifies this
      ensures State() == Register(old(State()), id) && err == old(failure)
    {
      if failure.Some? {
        return failure;
      }
      pending := pending + {id};
      err := None;
    }

    method RemovePending(id: int, abandon: bool)
      modifies this
      ensures State() == Remove(old(State()), id, abandon)
    {
      if id in pending {
        pending := pending - {id};
        if abandon {
          abandoned := abandoned + {id};
        }
      }
    }

    method ResolveResponse(id: int) returns (verdict: Verdict)
      modifies this
      ensures (State(), verdict) == Resolve(old(State()), id)
    {
      var waiting := id in pending;
      if waiting {
        pending := pending - {id};
      }
      var given := id in abandoned;
      if given {
        abandoned := abandoned - {id};
      }
      verdict := if given then Drop else if waiting then HandOver else Unexpected;
      assert pending == old(pending) - {id} && abandoned == old(abandoned) - {id};
    }

    method FailCalls(cause: Failure) returns (waiting: set<int>)
      modifies this
      ensures (State(), waiting) == Fail(old(State()), cause)
    {
      if failure.Some? {
        return {};
      }
      failure := Some(cause);
      waiting := pending;
      pending, abandoned := {}, {};
    }
  }
}
