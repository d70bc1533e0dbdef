/**
 Crash-safe replication of a remote event stream (internal/cyberagent/source.go).

 A `RemoteSource` copies an authoritative event sequence into a local transaction log and keeps
 a separate cursor file. The two writes are not atomic: every durable write carries a `Fault`
 that says whether the caller (or a crash) saw it fail before or after it took effect.
 */
module Replication {
  import opened Prelude

  datatype Cursor = Cursor(sessionID: string, sequence: int, eventID: string)

  datatype Binding = Binding(schemaVersion: int, taskID: string, sessionID: string, cursor: Cursor)

  datatype Envelope = Envelope(
    eventID: string, taskID: string, sessionID: string, sequence: int,
    topic: string, emittedAt: int, payload: string)

  datatype Origin = Origin(sessionID: string, sequence: int, eventID: string, topic: string)

  datatype ProductEvent = ProductEvent(
    eventID: string, taskID: string, cursor: int, runtimeID: string, body: string, origin: Option<Origin>)

  datatype Snapshot = Snapshot(sessionID: string, taskID: string, cursor: Cursor)

  /** What the two durable stores hold for one task. */
  datatype Durable = Durable(log: seq<ProductEvent>, binding: Option<Binding>)

  datatype Fault = Intact | LostBefore | LostAfter

  datatype SourceError =
    | BindingConflict | CursorGap | CursorConflict | IdentityConflict | InvalidBinding
    | ProjectionFailed | StoreRejected | Interrupted

  /** The identities of one source. `mapPayload` stands for the topic mapping and schema check of
      `ProjectEvent`; `folds` for the store's own acceptance of the next event. */
  datatype Config = Config(
    taskID: string, sessionID: string, runtimeID: string,
    mapPayload: Envelope -> Option<string>,
    folds: (seq<ProductEvent>, ProductEvent) -> bool)

  predicate ValidBinding(b: Binding) {
    && b.schemaVersion == 1 && b.taskID != "" && b.sessionID != ""
    && b.cursor.sessionID == b.sessionID && b.cursor.sequence >= 0
    && (b.cursor.sequence == 0 <==> b.cursor.eventID == "")
  }

  function ProjectEvent(cfg: Config, e: Envelope): Option<ProductEvent> {
    if TrimSpace(cfg.runtimeID) == "" || e.eventID == "" || e.taskID == "" || e.sessionID == "" ||
       e.sequence < 1 || e.topic == "" || e.emittedAt == 0 then None
    else match cfg.mapPayload(e)
      case None => None
      case Some(body) => Some(ProductEvent(
        e.eventID, e.taskID, e.sequence, cfg.runtimeID, body,
        Some(Origin(e.sessionID, e.sequence, e.eventID, e.topic))))
  }

  function Committed(log: seq<ProductEvent>): int {
    if log == [] then 0 else log[|log| - 1].cursor
  }

  /** Position of the first logged event with this cursor, or the log's length. */
  function Find(log: seq<ProductEvent>, cursor: int): (i: nat)
    ensures i <= |log|
    ensures i < |log| ==> log[i].cursor == cursor
    ensures forall j :: 0 <= j < i ==> log[j].cursor != cursor
  {
    if log == [] || log[0].cursor == cursor then 0 else 1 + Find(log[1..], cursor)
  }

  function CommitExternal(cfg: Config, log: seq<ProductEvent>, p: ProductEvent, fault: Fault)
    : (seq<ProductEvent>, Option<SourceError>)
  {
    if p.cursor <= Committed(log) then
      var i := Find(log, p.cursor);
      if i < |log| && log[i] == p then (log, None) else (log, Some(IdentityConflict))
    else if p.cursor != Committed(log) + 1 || !cfg.folds(log, p) then (log, Some(StoreRejected))
    else match fault
      case Intact => (log + [p], None)
      case LostBefore => (log, Some(Interrupted))
      case LostAfter => (log + [p], Some(Interrupted))
  }

  function SaveBinding(d: Durable, b: Binding, fault: Fault): (Durable, Option<SourceError>) {
    if !ValidBinding(b) then (d, Some(InvalidBinding))
    else match fault
      case Intact => (d.(binding := Some(b)), None)
      case LostBefore => (d, Some(Interrupted))
      case LostAfter => (d.(binding := Some(b)), Some(Interrupted))
  }

  /** The verdict on an event at or below the cursor: the first logged event of that sequence
      that has an origin decides. */
  function Known(log: seq<ProductEvent>, e: Envelope): Option<SourceError> {
    if log == [] then Some(CursorConflict)
    else if log[0].cursor == e.sequence && log[0].origin.Some? then
      if log[0].origin.value.eventID == e.eventID then None else Some(CursorConflict)
    else Known(log[1..], e)
  }

  /** One delivered event, as the specification of `RemoteSource.Apply`. */
  function ApplyEvent(cfg: Config, d: Durable, e: Envelope, commit: Fault, save: Fault)
    : (Durable, Option<SourceError>)
  {
    if e.taskID != cfg.taskID || e.sessionID != cfg.sessionID then (d, Some(BindingConflict))
    else if d.binding.Some? && !ValidBinding(d.binding.value) then (d, Some(InvalidBinding))
    else if d.binding.None? || d.binding.value.sessionID != cfg.sessionID then (d, Some(BindingConflict))
    else
      var b := d.binding.value;
      if e.sequence <= b.cursor.sequence then (d, Known(d.log, e))
      else if e.sequence != b.cursor.sequence + 1 then (d, Some(CursorGap))
      else match ProjectEvent(cfg, e)
        case None => (d, Some(ProjectionFailed))
        case Some(p) =>
          var (log, err) := CommitExternal(cfg, d.log, p, commit);
          if err.Some? then (d.(log := log), err)
          else SaveBinding(d.(log := log), b.(cursor := Cursor(cfg.sessionID, e.sequence, e.eventID)), save)
  }

  predicate SnapshotFits(cfg: Config, s: Snapshot) {
    && s.sessionID == cfg.sessionID && s.taskID == cfg.taskID && s.cursor.sessionID == cfg.sessionID
    && s.cursor.sequence >= 0 && (s.cursor.sequence == 0 <==> s.cursor.eventID == "")
  }

  predicate LastFits(cfg: Config, log: seq<ProductEvent>)
    requires log != []
  {
    var origin := log[|log| - 1].origin;
    origin.Some? && origin.value.sessionID == cfg.sessionID && origin.value.sequence == Committed(log)
  }

  /** The binding that the last logged event's origin stands for. */
  function DurableBinding(cfg: Config, log: seq<ProductEvent>): Binding
    requires log != [] ==> LastFits(cfg, log)
  {
    Binding(1, cfg.taskID, cfg.sessionID,
            if log == [] then Cursor(cfg.sessionID, 0, "")
            else var origin := log[|log| - 1].origin.value;
                 Cursor(cfg.sessionID, origin.sequence, origin.eventID))
  }

  /** The specification of `RemoteSource.Attach`; no snapshot means the remote call failed. */
  function AttachTo(cfg: Config, d: Durable, snapshot: Option<Snapshot>, save: Fault)
    : (Durable, Option<SourceError>)
  {
    if snapshot.None? then (d, Some(Interrupted))
    else if !SnapshotFits(cfg, snapshot.value) then (d, Some(BindingConflict))
    else if d.binding.Some? && !ValidBinding(d.binding.value) then (d, Some(InvalidBinding))
    else if d.binding.Some? && (d.binding.value.taskID != cfg.taskID || d.binding.value.sessionID != cfg.sessionID) then
      (d, Some(BindingConflict))
    else if d.log != [] && !LastFits(cfg, d.log) then (d, Some(BindingConflict))
    else
      var durable := DurableBinding(cfg, d.log);
      var remote := snapshot.value.cursor;
      if d.binding.Some? && d.binding.value.cursor.sequence > durable.cursor.sequence then (d, Some(CursorConflict))
      else if remote.sequence < durable.cursor.sequence ||
              (remote.sequence == durable.cursor.sequence && durable.cursor.sequence > 0 &&
               remote.eventID != durable.cursor.eventID) then (d, Some(CursorConflict))
      else if d.binding.None? || d.binding.value.cursor != durable.cursor then SaveBinding(d, durable, save)
      else (d, None)
  }

  // ------------------------------------------------------------ the replication invariant

  /** `auth` is the authoritative sequence of the source's session: event i has sequence i + 1. */
  ghost predicate Authentic(cfg: Config, auth: seq<Envelope>) {
    && cfg.taskID != "" && cfg.sessionID != ""
    && forall i :: 0 <= i < |auth| ==>
         auth[i].sequence == i + 1 && auth[i].taskID == cfg.taskID && auth[i].sessionID == cfg.sessionID
  }

  ghost predicate Delivers(auth: seq<Envelope>, e: Envelope) {
    1 <= e.sequence <= |auth| && auth[e.sequence - 1] == e
  }

  /** The log is the projection, event by event, of a gap-free prefix of `auth`. */
  ghost predicate IsProjection(cfg: Config, auth: seq<Envelope>, log: seq<ProductEvent>) {
    |log| <= |auth| && forall i :: 0 <= i < |log| ==> ProjectEvent(cfg, auth[i]) == Some(log[i])
  }

  function BindingAt(cfg: Config, log: seq<ProductEvent>, n: nat): Binding
    requires n <= |log|
  {
    Binding(1, cfg.taskID, cfg.sessionID, Cursor(cfg.sessionID, n, if n == 0 then "" else log[n - 1].eventID))
  }

  /** The log replicates a prefix 1..n and a saved cursor stands at n or at n - 1. */
  ghost predicate Replicated(cfg: Config, auth: seq<Envelope>, d: Durable) {
    && IsProjection(cfg, auth, d.log)
    && (d.binding.Some? ==>
          || d.binding.value == BindingAt(cfg, d.log, |d.log|)
          || (d.log != [] && d.binding.value == BindingAt(cfg, d.log, |d.log| - 1)))
  }

  lemma ProjectedShape(cfg: Config, auth: seq<Envelope>, log: seq<ProductEvent>)
    requires Authentic(cfg, auth) && IsProjection(cfg, auth, log)
    ensures forall i :: 0 <= i < |log| ==>
      && log[i].cursor == i + 1 && log[i].eventID == auth[i].eventID != ""
      && log[i].taskID == cfg.taskID && log[i].runtimeID == cfg.runtimeID
      && cfg.mapPayload(auth[i]) == Some(log[i].body)
      && log[i].origin == Some(Origin(cfg.sessionID, i + 1, auth[i].eventID, auth[i].topic))
    ensures Committed(log) == |log|
    ensures log != [] ==> LastFits(cfg, log)
    ensures DurableBinding(cfg, log) == BindingAt(cfg, log, |log|)
    ensures forall n :: 0 <= n <= |log| ==> ValidBinding(BindingAt(cfg, log, n))
  {
    forall i | 0 <= i < |log|
      ensures log[i].cursor == i + 1 && log[i].eventID == auth[i].eventID != ""
      ensures log[i].taskID == cfg.taskID && log[i].runtimeID == cfg.runtimeID
      ensures cfg.mapPayload(auth[i]) == Some(log[i].body)
      ensures log[i].origin == Some(Origin(cfg.sessionID, i + 1, auth[i].eventID, auth[i].topic))
    {
      assert ProjectEvent(cfg, auth[i]) == Some(log[i]);
    }
  }

  lemma {:induction false} KnownFrom(log: seq<ProductEvent>, base: int, e: Envelope)
    requires forall i :: 0 <= i < |log| ==> log[i].cursor == base + i + 1 && log[i].origin.Some?
    requires base < e.sequence <= base + |log|
    ensures Known(log, e) ==
      if log[e.sequence - base - 1].origin.value.eventID == e.eventID then None else Some(CursorConflict)
  {
    if log[0].cursor != e.sequence {
      KnownFrom(log[1..], base + 1, e);
    }
  }

  /** Replaying an event at or below the cursor touches neither store: it succeeds when its
      identity matches the authoritative event of that sequence and conflicts otherwise. */
  lemma ReplayIsIdempotent(cfg: Config, auth: seq<Envelope>, d: Durable, e: Envelope, commit: Fault, save: Fault)
    requires Authentic(cfg, auth) && Replicated(cfg, auth, d) && d.binding.Some?
    requires e.taskID == cfg.taskID && e.sessionID == cfg.sessionID
    requires 1 <= e.sequence <= d.binding.value.cursor.sequence
    ensures ApplyEvent(cfg, d, e, commit, save) ==
      (d, if e.eventID == auth[e.sequence - 1].eventID then None else Some(CursorConflict))
  {
    hide ProjectEvent, CommitExternal, SaveBinding;
    ProjectedShape(cfg, auth, d.log);
    KnownFrom(d.log, 0, e);
  }

  lemma ProjectedEvent(cfg: Config, e: Envelope)
    requires ProjectEvent(cfg, e).Some?
    ensures var p := ProjectEvent(cfg, e).value; p.cursor == e.sequence && p.eventID == e.eventID
  {
  }

  /** The event after an exact cursor: committed and then recorded, each unless its write is lost. */
  lemma ApplyNext(cfg: Config, auth: seq<Envelope>, d: Durable, e: Envelope, commit: Fault, save: Fault)
    requires Authentic(cfg, auth) && IsProjection(cfg, auth, d.log) && Delivers(auth, e)
    requires d.binding == Some(BindingAt(cfg, d.log, |d.log|)) && e.sequence == |d.log| + 1
    ensures var (next, err) := ApplyEvent(cfg, d, e, commit, save);
      var p := ProjectEvent(cfg, e);
      if p.None? || !cfg.folds(d.log, p.value) then next == d && err.Some?
      else if commit == LostBefore then next == d && err.Some?
      else
        && next.log == d.log + [p.value]
        && next.binding == Some(BindingAt(cfg, next.log, if commit == Intact && save != LostBefore then |d.log| + 1
            else |d.log|))
        && (err.None? <==> commit == Intact && save == Intact)
  {
    hide ProjectEvent, Find;
    ProjectedShape(cfg, auth, d.log);
    var p := ProjectEvent(cfg, e);
    if p.Some? {
      ProjectedEvent(cfg, e);
      var log := d.log + [p.value];
      ProjectedShape(cfg, auth, log);
      assert BindingAt(cfg, log, |d.log|) == BindingAt(cfg, d.log, |d.log|);
    }
  }

  /** The last logged event delivered again while the cursor still lags by one: the commit is
      recognised as a replay and only the cursor moves. */
  lemma ApplyLagging(cfg: Config, auth: seq<Envelope>, d: Durable, e: Envelope, commit: Fault, save: Fault)
    requires Authentic(cfg, auth) && IsProjection(cfg, auth, d.log) && Delivers(auth, e)
    requires d.log != [] && d.binding == Some(BindingAt(cfg, d.log, |d.log| - 1)) && e.sequence == |d.log|
    ensures var (next, err) := ApplyEvent(cfg, d, e, commit, save);
      && next.log == d.log
      && next.binding == Some(BindingAt(cfg, d.log, if save == LostBefore then |d.log| - 1 else |d.log|))
      && (err.None? <==> save == Intact)
  {
    hide ProjectEvent;
    ProjectedShape(cfg, auth, d.log);
    var n := |d.log|;
    assert ProjectEvent(cfg, auth[n - 1]) == Some(d.log[n - 1]);
    assert Find(d.log, n) == n - 1;
    assert CommitExternal(cfg, d.log, d.log[n - 1], commit) == (d.log, None);
  }

  /** Without a binding, or past the next sequence, a delivery is refused and changes nothing. */
  lemma ApplyRefuses(cfg: Config, auth: seq<Envelope>, d: Durable, e: Envelope, commit: Fault, save: Fault)
    requires Authentic(cfg, auth) && Replicated(cfg, auth, d) && Delivers(auth, e)
    requires d.binding.None? || e.sequence > d.binding.value.cursor.sequence + 1
    ensures var (next, err) := ApplyEvent(cfg, d, e, commit, save); next == d && err.Some?
  {
    hide ProjectEvent, CommitExternal, SaveBinding, IsProjection;
  }

  /** One delivery of an authoritative event keeps the invariant for every pair of faults. */
  lemma ApplyKeeps(cfg: Config, auth: seq<Envelope>, d: Durable, e: Envelope, commit: Fault, save: Fault)
    requires Authentic(cfg, auth) && Replicated(cfg, auth, d) && Delivers(auth, e)
    ensures var (next, err) := ApplyEvent(cfg, d, e, commit, save);
      && Replicated(cfg, auth, next)
      && d.log <= next.log
      && (d.binding.Some? ==> next.binding.Some?)
      && (err.None? ==> next.binding.Some? && e.sequence <= next.binding.value.cursor.sequence)
  {
    hide ApplyEvent, ProjectEvent;
    ProjectedShape(cfg, auth, d.log);
    if d.binding.None? || e.sequence > d.binding.value.cursor.sequence + 1 {
      ApplyRefuses(cfg, auth, d, e, commit, save);
    } else if e.sequence <= d.binding.value.cursor.sequence {
      ReplayIsIdempotent(cfg, auth, d, e, commit, save);
    } else if d.binding.value.cursor.sequence == |d.log| {
      ApplyNext(cfg, auth, d, e, commit, save);
    } else {
      ApplyLagging(cfg, auth, d, e, commit, save);
    }
  }

  /** Attaching never touches the log, keeps the invariant whatever the remote snapshot says, and
      succeeds exactly when the snapshot is of this session, is not behind the log and agrees with
      it at the log's end, and no save that it needs is lost. The cursor is then exact. */
  lemma AttachRepairs(cfg: Config, auth: seq<Envelope>, d: Durable, snapshot: Option<Snapshot>, save: Fault)
    requires Authentic(cfg, auth) && Replicated(cfg, auth, d)
    ensures var (next, err) := AttachTo(cfg, d, snapshot, save);
      && next.log == d.log
      && Replicated(cfg, auth, next)
      && (d.binding.Some? ==> next.binding.Some?)
      && (err.None? ==> next.binding == Some(BindingAt(cfg, d.log, |d.log|)))
      && (err.None? <==>
            && snapshot.Some? && SnapshotFits(cfg, snapshot.value)
            && |d.log| <= snapshot.value.cursor.sequence
            && (|d.log| == snapshot.value.cursor.sequence && d.log != [] ==>
                  snapshot.value.cursor.eventID == auth[|d.log| - 1].eventID)
            && (save == Intact || d.binding == Some(BindingAt(cfg, d.log, |d.log|))))
  {
    ProjectedShape(cfg, auth, d.log);
  }

  // ------------------------------------------------------------ whole runs

  datatype Action =
    | Deliver(event: Envelope, commit: Fault, save: Fault)
    | Reattach(snapshot: Option<Snapshot>, save: Fault)

  function Step(cfg: Config, d: Durable, a: Action): Durable {
    match a
    case Deliver(e, commit, save) => ApplyEvent(cfg, d, e, commit, save).0
    case Reattach(snapshot, save) => AttachTo(cfg, d, snapshot, save).0
  }

  function RunActions(cfg: Config, d: Durable, actions: seq<Action>): Durable
    decreases |actions|
  {
    if actions == [] then d else RunActions(cfg, Step(cfg, d, actions[0]), actions[1..])
  }

  /** Every run that mixes deliveries of authoritative events (repeated, gapped, restarted), lost
      writes, crashes between the two writes, and restarts through Attach keeps the log a
      projection of a gap-free prefix that only grows, and the cursor at n or n - 1. */
  lemma {:induction false} RunReplicates(cfg: Config, auth: seq<Envelope>, d: Durable, actions: seq<Action>)
    requires Authentic(cfg, auth) && Replicated(cfg, auth, d)
    requires forall a :: a in actions && a.Deliver? ==> Delivers(auth, a.event)
    ensures Replicated(cfg, auth, RunActions(cfg, d, actions))
    ensures d.log <= RunActions(cfg, d, actions).log
    decreases |actions|
  {
    if actions != [] {
      var a := actions[0];
      match a {
        case Deliver(e, commit, save) => ApplyKeeps(cfg, auth, d, e, commit, save);
        case Reattach(snapshot, save) => AttachRepairs(cfg, auth, d, snapshot, save);
      }
      RunReplicates(cfg, auth, Step(cfg, d, a), actions[1..]);
    }
  }

  /** Deliveries in order without faults, up to the first error. */
  function DeliverAll(cfg: Config, d: Durable, events: seq<Envelope>): (Durable, Option<SourceError>)
    decreases |events|
  {
    if events == [] then (d, None)
    else
      var (next, err) := ApplyEvent(cfg, d, events[0], Intact, Intact);
      if err.Some? then (next, err) else DeliverAll(cfg, next, events[1..])
  }

  /** Straight-line application: each event is projected and appended once, up to the first event
      that does not project or that the store refuses. */
  function AppendAll(cfg: Config, log: seq<ProductEvent>, events: seq<Envelope>): seq<ProductEvent>
    decreases |events|
  {
    if events == [] then log
    else match ProjectEvent(cfg, events[0])
      case None => log
      case Some(p) => if cfg.folds(log, p) then AppendAll(cfg, log + [p], events[1..]) else log
  }

  lemma DeliverStep(cfg: Config, auth: seq<Envelope>, d: Durable, from: nat, k: nat)
    requires from < k <= |auth|
    ensures var (next, err) := ApplyEvent(cfg, d, auth[from], Intact, Intact);
      DeliverAll(cfg, d, auth[from..k]) == if err.Some? then (next, err) else DeliverAll(cfg, next, auth[from + 1..k])
  {
    hide ApplyEvent;
    assert auth[from..k][0] == auth[from] && auth[from..k][1..] == auth[from + 1..k];
  }

  lemma AppendStep(cfg: Config, log: seq<ProductEvent>, auth: seq<Envelope>, from: nat, k: nat)
    requires from < k <= |auth|
    ensures AppendAll(cfg, log, auth[from..k]) ==
      match ProjectEvent(cfg, auth[from])
      case None => log
      case Some(p) => if cfg.folds(log, p) then AppendAll(cfg, log + [p], auth[from + 1..k]) else log
  {
    hide ProjectEvent;
    assert auth[from..k][0] == auth[from] && auth[from..k][1..] == auth[from + 1..k];
  }

  /** What DeliverRefines says of a result. */
  ghost predicate Refines(cfg: Config, auth: seq<Envelope>, log: seq<ProductEvent>, k: nat,
      result: (Durable, Option<SourceError>))
    requires k <= |auth|
  {
    && result.0.log == (if k <= |log| then log else AppendAll(cfg, log, auth[|log|..k]))
    && (result.1.None? <==> (|log| < k ==> |AppendAll(cfg, log, auth[|log|..k])| == k))
  }

  lemma NothingToAppend(cfg: Config, log: seq<ProductEvent>, auth: seq<Envelope>, k: nat)
    requires k <= |auth|
    ensures AppendAll(cfg, log, auth[k..k]) == log
  {
  }

  /** The step that appends: an event just past an exact cursor. */
  lemma AppendingRefines(cfg: Config, auth: seq<Envelope>, d: Durable, k: nat)
    requires Authentic(cfg, auth) && IsProjection(cfg, auth, d.log) && |d.log| < k <= |auth|
    requires d.binding == Some(BindingAt(cfg, d.log, |d.log|))
    ensures var n := |d.log|;
      var (next, err) := ApplyEvent(cfg, d, auth[n], Intact, Intact);
      if err.Some? then Refines(cfg, auth, d.log, k, (next, err))
      else next.binding.Some? && next.binding.value.cursor.sequence == n + 1 && |next.log| == n + 1 &&
           forall result :: Refines(cfg, auth, next.log, k, result) ==> Refines(cfg, auth, d.log, k, result)
  {
    hide ApplyEvent, ProjectEvent, AppendAll;
    ApplyNext(cfg, auth, d, auth[|d.log|], Intact, Intact);
    AppendStep(cfg, d.log, auth, |d.log|, k);
    var (next, err) := ApplyEvent(cfg, d, auth[|d.log|], Intact, Intact);
    if |d.log| + 1 == k {
      NothingToAppend(cfg, next.log, auth, k);
    }
  }

  lemma NothingRefines(cfg: Config, auth: seq<Envelope>, d: Durable, k: nat)
    requires Replicated(cfg, auth, d) && d.binding.Some? && k <= d.binding.value.cursor.sequence && k <= |auth|
    ensures Refines(cfg, auth, d.log, k, DeliverAll(cfg, d, auth[k..k]))
  {
  }

  /** One delivery on the way: what is refined after it is refined before it. */
  lemma AdvanceRefines(cfg: Config, auth: seq<Envelope>, d: Durable, from: nat, k: nat)
    requires Authentic(cfg, auth) && Replicated(cfg, auth, d) && d.binding.Some?
    requires from < k <= |auth| && from <= d.binding.value.cursor.sequence
    ensures var (next, err) := ApplyEvent(cfg, d, auth[from], Intact, Intact);
      if err.Some? then Refines(cfg, auth, d.log, k, (next, err))
      else next.binding.Some? && from < next.binding.value.cursor.sequence &&
           forall result :: Refines(cfg, auth, next.log, k, result) ==> Refines(cfg, auth, d.log, k, result)
  {
    hide ApplyEvent, ProjectEvent, Refines, IsProjection;
    var n, c := |d.log|, d.binding.value.cursor.sequence;
    ProjectedShape(cfg, auth, d.log);
    if from < c {
      ReplayIsIdempotent(cfg, auth, d, auth[from], Intact, Intact);
    } else if c < n {
      ApplyLagging(cfg, auth, d, auth[from], Intact, Intact);
    } else {
      AppendingRefines(cfg, auth, d, k);
    }
  }

  /** Delivering auth[from..k] from a cursor that has reached `from` appends exactly what is new. */
  lemma {:induction false} DeliverRefines(cfg: Config, auth: seq<Envelope>, d: Durable, from: nat, k: nat)
    requires Authentic(cfg, auth) && Replicated(cfg, auth, d) && d.binding.Some?
    requires from <= k <= |auth| && from <= d.binding.value.cursor.sequence
    ensures Refines(cfg, auth, d.log, k, DeliverAll(cfg, d, auth[from..k]))
    decreases k - from
  {
    hide ApplyEvent, ProjectEvent, Refines, IsProjection, DeliverAll;
    if from == k {
      NothingRefines(cfg, auth, d, k);
    } else {
      var (next, err) := ApplyEvent(cfg, d, auth[from], Intact, Intact);
      DeliverStep(cfg, auth, d, from, k);
      ApplyKeeps(cfg, auth, d, auth[from], Intact, Intact);
      AdvanceRefines(cfg, auth, d, from, k);
      if err.None? {
        DeliverRefines(cfg, auth, next, from + 1, k);
      }
    }
  }

  lemma {:induction false} AppendAllProjects(cfg: Config, auth: seq<Envelope>, log: seq<ProductEvent>, k: nat)
    requires IsProjection(cfg, auth, log) && |log| <= k <= |auth|
    ensures IsProjection(cfg, auth, AppendAll(cfg, log, auth[|log|..k]))
    ensures |AppendAll(cfg, log, auth[|log|..k])| <= k
    decreases k - |log|
  {
    if |log| < k {
      var e := auth[|log|];
      assert auth[|log|..k][0] == e && auth[|log|..k][1..] == auth[|log| + 1..k];
      if ProjectEvent(cfg, e).Some? && cfg.folds(log, ProjectEvent(cfg, e).value) {
        AppendAllProjects(cfg, auth, log + [ProjectEvent(cfg, e).value], k);
      }
    }
  }

  /** A stream restarted from zero that delivers events 1..k in order leaves the log as
      straight-line application of events 1..max(n, k) would, each exactly once. */
  lemma RestartRefinesStraightLine(cfg: Config, auth: seq<Envelope>, d: Durable, k: nat)
    requires Authentic(cfg, auth) && Replicated(cfg, auth, d) && d.binding.Some?
    requires k <= |auth|
    ensures var (next, err) := DeliverAll(cfg, d, auth[..k]);
      && next.log == (if k <= |d.log| then d.log else AppendAll(cfg, d.log, auth[|d.log|..k]))
      && (err.None? <==> k <= |next.log|)
      && IsProjection(cfg, auth, next.log)
  {
    assert auth[..k] == auth[0..k];
    DeliverRefines(cfg, auth, d, 0, k);
    if |d.log| < k {
      AppendAllProjects(cfg, auth, d.log, k);
    }
  }

  // ------------------------------------------------------------ the source itself

  datatype Delivery = Delivery(event: Envelope, commit: Fault, save: Fault)

  datatype StreamEnd = EndOfStream | StreamBroken | Cancelled

  /** What one pass of `Run` meets: an open stream, a 409 answered by a fresh snapshot, or another refusal. */
  datatype Attempt =
    | Opened(deliveries: seq<Delivery>, end: StreamEnd)
    | Replaced(snapshot: Option<Snapshot>, save: Fault)
    | Refused

  /** How a pass went: where its stream was asked to start, how many deliveries it applied, and
      whether it ended by asking for a replay from sequence zero. */
  datatype Pass = Pass(after: Option<Cursor>, applied: nat, replay: bool)

  /** The cursor of some prefix of the log. */
  predicate CursorOf(cfg: Config, log: seq<ProductEvent>, c: Cursor) {
    0 <= c.sequence <= |log| && c == BindingAt(cfg, log, c.sequence).cursor
  }

  datatype Stop =
    | AttachFailed(error: SourceError) | ApplyFailed(error: SourceError) | StreamFailed | Stopped | Following

  /** Deliveries in order, each with its faults: the state they leave, how many were applied, and the
      error that stopped them, if one did. */
  function DeliverItems(cfg: Config, d: Durable, items: seq<Delivery>): (r: (Durable, nat, Option<SourceError>))
    ensures r.1 <= |items| && (r.2.None? <==> r.1 == |items|)
    decreases |items|
  {
    if items == [] then (d, 0, None)
    else
      var (next, err) := ApplyEvent(cfg, d, items[0].event, items[0].commit, items[0].save);
      if err.Some? then (next, 0, err)
      else
        var (last, applied, failure) := DeliverItems(cfg, next, items[1..]);
        (last, 1 + applied, failure)
  }

  /** What all the deliveries come to, `applied` of them being done. */
  predicate Left(all: (Durable, nat, Option<SourceError>), applied: nat, rest: (Durable, nat, Option<SourceError>)) {
    all == (rest.0, applied + rest.1, rest.2)
  }

  lemma AllLeft(all: (Durable, nat, Option<SourceError>))
    ensures Left(all, 0, all)
  {
  }

  lemma NoneLeft(cfg: Config, d: Durable, items: seq<Delivery>, all: (Durable, nat, Option<SourceError>))
    requires Left(all, |items|, DeliverItems(cfg, d, items[|items|..]))
    ensures all == (d, |items|, None)
  {
  }

  lemma ItemDone(cfg: Config, d: Durable, items: seq<Delivery>, i: nat, all: (Durable, nat, Option<SourceError>))
    requires i < |items| && Left(all, i, DeliverItems(cfg, d, items[i..]))
    ensures var (next, err) := ApplyEvent(cfg, d, items[i].event, items[i].commit, items[i].save);
      if err.Some? then all == (next, i, err) else Left(all, i + 1, DeliverItems(cfg, next, items[i + 1..]))
  {
    hide ApplyEvent;
    assert items[i..][0] == items[i] && items[i..][1..] == items[i + 1..];
  }

  /** An error that another pass can mend by replaying from the start. */
  predicate Mendable(err: Option<SourceError>) { err == Some(CursorGap) || err == Some(CursorConflict) }

  /** One turn of the outer loop of `Run`: where the stream starts, what it applied, and why to stop, if at all. */
  function PassOf(cfg: Config, d: Durable, attempt: Attempt, asked: bool): (Durable, Pass, Option<Stop>)
    requires d.binding.Some?
  {
    var after := if asked then None else Some(d.binding.value.cursor);
    match attempt
    case Refused => (d, Pass(after, 0, asked), Some(StreamFailed))
    case Replaced(snapshot, save) =>
      var (next, err) := AttachTo(cfg, d, snapshot, save);
      (next, Pass(after, 0, true), if err.Some? then Some(AttachFailed(err.value)) else None)
    case Opened(deliveries, end) =>
      var (next, applied, err) := DeliverItems(cfg, d, deliveries);
      (next, Pass(after, applied, Mendable(err) || (asked && applied == 0)),
       if Mendable(err) then None
       else if err.Some? then Some(ApplyFailed(err.value))
       else match end
         case EndOfStream => None
         case StreamBroken => Some(StreamFailed)
         case Cancelled => Some(Stopped))
  }

  lemma AttachKeepsBinding(cfg: Config, d: Durable, snapshot: Option<Snapshot>, save: Fault)
    ensures var (next, err) := AttachTo(cfg, d, snapshot, save);
      (d.binding.Some? || err.None? ==> next.binding.Some?) && next.log == d.log
  {
  }

  lemma ApplyKeepsBinding(cfg: Config, d: Durable, e: Envelope, commit: Fault, save: Fault)
    requires d.binding.Some?
    ensures ApplyEvent(cfg, d, e, commit, save).0.binding.Some?
  {
    hide CommitExternal, ProjectEvent, Known;
  }

  lemma {:induction false} ItemsKeepBinding(cfg: Config, d: Durable, items: seq<Delivery>)
    requires d.binding.Some?
    ensures DeliverItems(cfg, d, items).0.binding.Some?
    decreases |items|
  {
    hide ApplyEvent;
    if items != [] {
      ApplyKeepsBinding(cfg, d, items[0].event, items[0].commit, items[0].save);
      ItemsKeepBinding(cfg, ApplyEvent(cfg, d, items[0].event, items[0].commit, items[0].save).0, items[1..]);
    }
  }

  lemma PassKeepsBinding(cfg: Config, d: Durable, attempt: Attempt, asked: bool)
    requires d.binding.Some?
    ensures PassOf(cfg, d, attempt, asked).0.binding.Some?
  {
    hide AttachTo, DeliverItems;
    match attempt
    case Refused =>
    case Replaced(snapshot, save) => AttachKeepsBinding(cfg, d, snapshot, save);
    case Opened(deliveries, _) => ItemsKeepBinding(cfg, d, deliveries);
  }

  /** Passes one after the other until one says why to stop. */
  function RunScript(cfg: Config, d: Durable, script: seq<Attempt>, asked: bool): (Durable, Stop, seq<Pass>)
    requires d.binding.Some?
    decreases |script|
  {
    if script == [] then (d, Following, [])
    else
      PassKeepsBinding(cfg, d, script[0], asked);
      var (next, pass, stop) := PassOf(cfg, d, script[0], asked);
      if stop.Some? then (next, stop.value, [pass])
      else
        var (last, end, passes) := RunScript(cfg, next, script[1..], pass.replay);
        (last, end, [pass] + passes)
  }

  /** What a whole run comes to, some of its passes being done. */
  predicate Remains(all: (Durable, Stop, seq<Pass>), done: seq<Pass>, rest: (Durable, Stop, seq<Pass>)) {
    all == (rest.0, rest.1, done + rest.2)
  }

  lemma NothingDone(all: (Durable, Stop, seq<Pass>))
    ensures Remains(all, [], all)
  {
    assert [] + all.2 == all.2;
  }

  lemma AllDone(all: (Durable, Stop, seq<Pass>), done: seq<Pass>, rest: (Durable, Stop, seq<Pass>))
    requires Remains(all, done, rest) && rest.2 == []
    ensures all == (rest.0, rest.1, done)
  {
    assert done + [] == done;
  }

  lemma PassDone(cfg: Config, d: Durable, rest: seq<Attempt>, asked: bool, all: (Durable, Stop, seq<Pass>),
      done: seq<Pass>)
    requires d.binding.Some? && rest != [] && Remains(all, done, RunScript(cfg, d, rest, asked))
    ensures var (next, pass, stop) := PassOf(cfg, d, rest[0], asked);
      && next.binding.Some?
      && Remains(all, done + [pass], if stop.Some? then (next, stop.value, [])
                                     else RunScript(cfg, next, rest[1..], pass.replay))
  {
    hide PassOf;
    PassKeepsBinding(cfg, d, rest[0], asked);
    var pass := PassOf(cfg, d, rest[0], asked).1;
    assert forall more: seq<Pass> :: done + ([pass] + more) == done + [pass] + more;
    assert done + [pass] + [] == done + [pass];
  }

  /** `Run`: attach, and then follow the stream over everything the environment does in `script`. */
  function RunAll(cfg: Config, d: Durable, snapshot: Option<Snapshot>, save: Fault, script: seq<Attempt>)
    : (Durable, Stop, seq<Pass>)
  {
    AttachKeepsBinding(cfg, d, snapshot, save);
    var (attached, err) := AttachTo(cfg, d, snapshot, save);
    if err.Some? then (attached, AttachFailed(err.value), []) else RunScript(cfg, attached, script, false)
  }

  /** The first pass resumes from a cursor; a later one starts from zero exactly when the pass
      before it asked for a replay. */
  predicate Chained(passes: seq<Pass>) {
    && (passes != [] ==> passes[0].after.Some?)
    && forall i, j :: 0 <= i && j == i + 1 < |passes| ==> (passes[j].after.None? <==> passes[i].replay)
  }

  lemma SavedCursor(cfg: Config, auth: seq<Envelope>, d: Durable)
    requires Replicated(cfg, auth, d) && d.binding.Some?
    ensures CursorOf(cfg, d.log, d.binding.value.cursor)
  {
  }

  /** A cursor stays the cursor of a prefix while the log only grows. */
  lemma CursorsSurvive(cfg: Config, before: seq<ProductEvent>, log: seq<ProductEvent>)
    requires before <= log
    ensures forall c :: CursorOf(cfg, before, c) ==> CursorOf(cfg, log, c)
  {
  }

  class RemoteSource {
    const cfg: Config
    var log: seq<ProductEvent>
    var binding: Option<Binding>

    function State(): Durable
      reads this
    {
      Durable(log, binding)
    }

    /** Reopens whatever the two stores hold. */
    constructor (cfg: Config, stored: Durable)
      ensures this.cfg == cfg && State() == stored
    {
      this.cfg, log, binding := cfg, stored.log, stored.binding;
    }

    method Save(b: Binding, fault: Fault) returns (err: Option<SourceError>)
      modifies this`binding
      ensures (State(), err) == SaveBinding(old(State()), b, fault)
    {
      if !ValidBinding(b) {
        return Some(InvalidBinding);
      }
      if fault != LostBefore {
        binding := Some(b);
      }
      err := if fault == Intact then None else Some(Interrupted);
    }

    method Commit(p: ProductEvent, fault: Fault) returns (err: Option<SourceError>)
      modifies this`log
      ensures (log, err) == CommitExternal(cfg, old(log), p, fault)
    {
      if p.cursor <= Committed(log) {
        for i := 0 to |log|
          invariant forall j :: 0 <= j < i ==> log[j].cursor != p.cursor
        {
          if log[i].cursor == p.cursor {
            return if log[i] == p then None else Some(IdentityConflict);
          }
        }
        return Some(IdentityConflict);
      }
      if p.cursor != Committed(log) + 1 || !cfg.folds(log, p) {
        return Some(StoreRejected);
      }
      if fault != LostBefore {
        log := log + [p];
      }
      err := if fault == Intact then None else Some(Interrupted);
    }

    method Attach(snapshot: Option<Snapshot>, save: Fault) returns (err: Option<SourceError>)
      modifies this`binding
      ensures (State(), err) == AttachTo(cfg, old(State()), snapshot, save)
    {
      if snapshot.None? {
        return Some(Interrupted);
      }
      if !SnapshotFits(cfg, snapshot.value) {
        return Some(BindingConflict);
      }
      if binding.Some? && !ValidBinding(binding.value) {
        return Some(InvalidBinding);
      }
      if binding.Some? && (binding.value.taskID != cfg.taskID || binding.value.sessionID != cfg.sessionID) {
        return Some(BindingConflict);
      }
      var cursor := Cursor(cfg.sessionID, 0, "");
      if log != [] {
        var last := log[|log| - 1];
        if last.origin.None? || last.origin.value.sessionID != cfg.sessionID ||
            last.origin.value.sequence != Committed(log) {
          return Some(BindingConflict);
        }
        cursor := cursor.(sequence := last.origin.value.sequence, eventID := last.origin.value.eventID);
      }
      if binding.Some? && binding.value.cursor.sequence > cursor.sequence {
        return Some(CursorConflict);
      }
      var remote := snapshot.value.cursor;
      if remote.sequence < cursor.sequence ||
         (remote.sequence == cursor.sequence && cursor.sequence > 0 && remote.eventID != cursor.eventID) {
        return Some(CursorConflict);
      }
      if binding.None? || binding.value.cursor != cursor {
        err := Save(Binding(1, cfg.taskID, cfg.sessionID, cursor), save);
        return;
      }
      err := None;
    }

    method Apply(e: Envelope, commit: Fault, save: Fault) returns (err: Option<SourceError>)
      modifies this
      ensures (State(), err) == ApplyEvent(cfg, old(State()), e, commit, save)
    {
      if e.taskID != cfg.taskID || e.sessionID != cfg.sessionID {
        return Some(BindingConflict);
      }
      if binding.Some? && !ValidBinding(binding.value) {
        return Some(InvalidBinding);
      }
      if binding.None? || binding.value.sessionID != cfg.sessionID {
        return Some(BindingConflict);
      }
      var current := binding.value;
      if e.sequence <= current.cursor.sequence {
        var i := 0;
        while i < |log|
          invariant i <= |log| && Known(log, e) == Known(log[i..], e)
        {
          if log[i].cursor == e.sequence && log[i].origin.Some? {
            return if log[i].origin.value.eventID == e.eventID then None else Some(CursorConflict);
          }
          i := i + 1;
        }
        return Some(CursorConflict);
      }
      if e.sequence != current.cursor.sequence + 1 {
        return Some(CursorGap);
      }
      var mapped := ProjectEvent(cfg, e);
      if mapped.None? {
        return Some(ProjectionFailed);
      }
      err := Commit(mapped.value, commit);
      if err.None? {
        err := Save(current.(cursor := Cursor(cfg.sessionID, e.sequence, e.eventID)), save);
      }
    }

    /** Apply with what an authoritative delivery guarantees. */
    method Deliver(item: Delivery, ghost auth: seq<Envelope>) returns (err: Option<SourceError>)
      requires Authentic(cfg, auth) && Replicated(cfg, auth, State()) && binding.Some? && Delivers(auth, item.event)
      modifies this
      ensures (State(), err) == ApplyEvent(cfg, old(State()), item.event, item.commit, item.save)
      ensures Replicated(cfg, auth, State()) && binding.Some? && old(log) <= log
      ensures err.None? ==> item.event.sequence <= |log|
    {
      ApplyKeeps(cfg, auth, State(), item.event, item.commit, item.save);
      err := Apply(item.event, item.commit, item.save);
    }

    /** The inner loop of `Run`: deliveries up to the first error. A gap or conflict asks for a
        replay; `replay` carries the caller's flag, which any applied event clears. */
    method FollowStream(deliveries: seq<Delivery>, asked: bool, ghost auth: seq<Envelope>)
      returns (applied: nat, replay: bool, err: Option<SourceError>)
      requires Authentic(cfg, auth) && Replicated(cfg, auth, State()) && binding.Some?
      requires forall d :: d in deliveries ==> Delivers(auth, d.event)
      modifies this
      ensures Replicated(cfg, auth, State()) && binding.Some? && old(log) <= log
      ensures (State(), applied, err) == DeliverItems(cfg, old(State()), deliveries)
      ensures replay <==> Mendable(err) || (asked && applied == 0)
      ensures forall i :: 0 <= i < applied ==> deliveries[i].event.sequence <= |log|
    {
      hide ApplyEvent, ProjectEvent, Replicated, Authentic, DeliverItems, Left;
      applied, replay, err := 0, asked, None;
      ghost var all := DeliverItems(cfg, State(), deliveries);
      assert deliveries[0..] == deliveries;
      AllLeft(all);
      while applied < |deliveries|
        invariant applied <= |deliveries| && Replicated(cfg, auth, State()) && binding.Some? && old(log) <= log
        invariant Left(all, applied, DeliverItems(cfg, State(), deliveries[applied..]))
        invariant replay == (asked && applied == 0)
        invariant err.None? && forall i :: 0 <= i < applied ==> deliveries[i].event.sequence <= |log|
      {
        var item := deliveries[applied];
        ItemDone(cfg, State(), deliveries, applied, all);
        err := Deliver(item, auth);
        if err.Some? {
          replay := replay || Mendable(err);
          return;
        }
        replay, applied := false, applied + 1;
      }
      NoneLeft(cfg, State(), deliveries, all);
    }

    /** Attach with what the invariant adds: the log is untouched and success leaves an exact cursor. */
    method Repair(snapshot: Option<Snapshot>, save: Fault, ghost auth: seq<Envelope>) returns (err: Option<SourceError>)
      requires Authentic(cfg, auth) && Replicated(cfg, auth, State())
      modifies this`binding
      ensures Replicated(cfg, auth, State())
      ensures err.None? ==> binding == Some(BindingAt(cfg, log, |log|))
      ensures old(binding).Some? ==> binding.Some?
      ensures (State(), err) == AttachTo(cfg, old(State()), snapshot, save)
    {
      AttachRepairs(cfg, auth, State(), snapshot, save);
      err := Attach(snapshot, save);
    }

    /** One turn of the outer loop: where the stream starts, what it applied, and why to stop, if at all. */
    method RunPass(attempt: Attempt, asked: bool, ghost auth: seq<Envelope>) returns (pass: Pass, stop: Option<Stop>)
      requires Authentic(cfg, auth) && Replicated(cfg, auth, State()) && binding.Some?
      requires attempt.Opened? ==> forall d :: d in attempt.deliveries ==> Delivers(auth, d.event)
      modifies this
      ensures Replicated(cfg, auth, State()) && binding.Some? && old(log) <= log
      ensures (State(), pass, stop) == PassOf(cfg, old(State()), attempt, asked)
      ensures pass.after == if asked then None else Some(old(binding).value.cursor)
      ensures pass.after.Some? ==> CursorOf(cfg, log, pass.after.value)
      ensures attempt.Replaced? && stop.None? ==> pass.replay && binding == Some(BindingAt(cfg, log, |log|))
      ensures stop !in {Some(ApplyFailed(CursorGap)), Some(ApplyFailed(CursorConflict)), Some(Following)}
      ensures attempt.Opened? && stop.None? && !pass.replay ==> pass.applied == |attempt.deliveries|
    {
      hide ApplyEvent, AttachTo, DeliverItems;
      SavedCursor(cfg, auth, State());
      var after := if asked then None else Some(binding.value.cursor);
      match attempt
      case Refused =>
        return Pass(after, 0, asked), Some(StreamFailed);
      case Replaced(latest, saved) =>
        var err := Repair(latest, saved, auth);
        return Pass(after, 0, true), if err.Some? then Some(AttachFailed(err.value)) else None;
      case Opened(deliveries, end) =>
        ghost var before := log;
        var applied, replay, err := FollowStream(deliveries, asked, auth);
        CursorsSurvive(cfg, before, log);
        pass := Pass(after, applied, replay);
        stop :=
          if Mendable(err) then None
          else if err.Some? then Some(ApplyFailed(err.value))
          else if end == StreamBroken then Some(StreamFailed)
          else if end == Cancelled then Some(Stopped)
          else None;
    }

    /** The outer loop of `Run`. */
    method FollowScript(script: seq<Attempt>, ghost auth: seq<Envelope>) returns (stop: Stop, passes: seq<Pass>)
      requires Authentic(cfg, auth) && Replicated(cfg, auth, State()) && binding.Some?
      requires forall a, d :: a in script && a.Opened? && d in a.deliveries ==> Delivers(auth, d.event)
      modifies this
      ensures Replicated(cfg, auth, State()) && old(log) <= log && Chained(passes)
      ensures stop.Following? ==> |passes| == |script|
      ensures stop != ApplyFailed(CursorGap) && stop != ApplyFailed(CursorConflict)
      ensures (State(), stop, passes) == RunScript(cfg, old(State()), script, false)
    {
      hide ApplyEvent, AttachTo, Replicated, SnapshotFits, PassOf, Remains;
      passes := [];
      var replayFromStart := false;
      ghost var all := RunScript(cfg, State(), script, false);
      NothingDone(all);
      assert script[0..] == script;
      for k := 0 to |script|
        invariant |passes| == k && Replicated(cfg, auth, State()) && old(log) <= log && binding.Some?
        invariant Remains(all, passes, RunScript(cfg, State(), script[k..], replayFromStart))
        invariant Chained(passes) && replayFromStart == (passes != [] && passes[k - 1].replay)
      {
        assert script[k..][0] == script[k] && script[k..][1..] == script[k + 1..];
        PassDone(cfg, State(), script[k..], replayFromStart, all, passes);
        var pass, failure := RunPass(script[k], replayFromStart, auth);
        passes := passes + [pass];
        replayFromStart := pass.replay;
        if failure.Some? {
          AllDone(all, passes, (State(), failure.value, []));
          return failure.value, passes;
        }
      }
      AllDone(all, passes, (State(), Following, []));
      stop := Following;
    }

    /** Follows the stream over everything the environment does in `script`. Every pass keeps the
        replication invariant; a gap or a cursor conflict never escapes, it only makes the next pass
        start from zero; and a pass starts from zero exactly when the one before asked for it. */
    method Run(snapshot: Option<Snapshot>, save: Fault, script: seq<Attempt>, ghost auth: seq<Envelope>)
      returns (stop: Stop, passes: seq<Pass>)
      requires Authentic(cfg, auth) && Replicated(cfg, auth, State())
      requires forall a, d :: a in script && a.Opened? && d in a.deliveries ==> Delivers(auth, d.event)
      modifies this
      ensures Replicated(cfg, auth, State()) && old(log) <= log
      ensures stop != ApplyFailed(CursorGap) && stop != ApplyFailed(CursorConflict)
      ensures stop.Following? ==> |passes| == |script|
      ensures Chained(passes)
      ensures (State(), stop, passes) == RunAll(cfg, old(State()), snapshot, save, script)
    {
      hide ApplyEvent, AttachTo, Replicated, SnapshotFits, PassOf, RunScript;
      var err := Repair(snapshot, save, auth);
      if err.Some? {
        return AttachFailed(err.value), [];
      }
      stop, passes := FollowScript(script, auth);
    }
  }
}
