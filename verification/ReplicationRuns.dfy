/**
 When a run of the remote source goes on, and that it then repairs what was missed
 (internal/cyberagent/source.go).
 */
module ReplicationRuns {
  import opened Prelude
  import opened Replication

  /** Some delivery left a gap or contradicted the log. */
  predicate MetGap(cfg: Config, d: Durable, items: seq<Delivery>) {
    var err := DeliverItems(cfg, d, items).2;
    err == Some(CursorGap) || err == Some(CursorConflict)
  }

  /** A stream is its deliveries one after the other: those before the n-th were all applied, and the
      n-th is applied to what they left, unless there was an error before. */
  lemma {:induction false} DeliveriesAreSteps(cfg: Config, d: Durable, items: seq<Delivery>, n: nat)
    requires n < |items| && n <= DeliverItems(cfg, d, items).1
    ensures var (last, applied, err) := DeliverItems(cfg, d, items);
      var mid := DeliverItems(cfg, d, items[..n]);
      var (next, failure) := ApplyEvent(cfg, mid.0, items[n].event, items[n].commit, items[n].save);
      && mid.1 == n && mid.2.None?
      && (n < applied ==> failure.None? && DeliverItems(cfg, d, items[..n + 1]) == (next, n + 1, None))
      && (n == applied ==> failure.Some? && (next, failure) == (last, err))
    decreases n
  {
    hide ApplyEvent;
    var (after, failure) := ApplyEvent(cfg, d, items[0].event, items[0].commit, items[0].save);
    if n == 0 {
      assert items[..0] == [] && items[..1][0] == items[0] && items[..1][1..] == [];
    } else {
      DeliveriesAreSteps(cfg, after, items[1..], n - 1);
      assert items[..n][0] == items[0] && items[..n][1..] == items[1..][..n - 1];
      assert items[..n + 1][0] == items[0] && items[..n + 1][1..] == items[1..][..n];
    }
  }

  /** Exactly when a pass goes on to another, and why it stops otherwise: a stream goes on when it met a
      gap or a conflict, or when everything was applied and it ended by itself; a replaced stream goes
      on when attaching again succeeds; any other refusal ends the run. */
  lemma PassGoesOnIff(cfg: Config, d: Durable, attempt: Attempt, asked: bool)
    requires d.binding.Some?
    ensures attempt.Opened? ==>
      var (next, pass, stop) := PassOf(cfg, d, attempt, asked);
      var (last, applied, err) := DeliverItems(cfg, d, attempt.deliveries);
      var met := MetGap(cfg, d, attempt.deliveries);
      && next == last && pass.applied == applied
      && (stop.None? <==> met || (applied == |attempt.deliveries| && attempt.end.EndOfStream?))
      && (pass.replay <==> met || (asked && applied == 0))
      && (err.None? && attempt.end.StreamBroken? ==> stop == Some(StreamFailed))
      && (err.None? && attempt.end.Cancelled? ==> stop == Some(Stopped))
      && (err.Some? && !met ==> stop == Some(ApplyFailed(err.value)))
    ensures attempt.Replaced? ==>
      var (next, pass, stop) := PassOf(cfg, d, attempt, asked);
      var (attached, err) := AttachTo(cfg, d, attempt.snapshot, attempt.save);
      && next == attached && pass.replay
      && (stop.None? <==> err.None?) && (err.Some? ==> stop == Some(AttachFailed(err.value)))
    ensures attempt.Refused? ==>
      PassOf(cfg, d, attempt, asked).0 == d && PassOf(cfg, d, attempt, asked).2 == Some(StreamFailed)
  {
    hide DeliverItems;
  }

  function Faultless(events: seq<Envelope>): (items: seq<Delivery>)
    ensures |items| == |events|
    ensures forall i :: 0 <= i < |events| ==> items[i] == Delivery(events[i], Intact, Intact)
  {
    seq(|events|, i requires 0 <= i < |events| => Delivery(events[i], Intact, Intact))
  }

  lemma {:induction false} FaultlessDelivers(cfg: Config, d: Durable, events: seq<Envelope>)
    ensures DeliverItems(cfg, d, Faultless(events)).0 == DeliverAll(cfg, d, events).0
    ensures DeliverItems(cfg, d, Faultless(events)).2 == DeliverAll(cfg, d, events).1
    decreases |events|
  {
    hide ApplyEvent;
    var items := Faultless(events);
    if events == [] {
      assert items == [] && DeliverItems(cfg, d, items) == (d, 0, None) && DeliverAll(cfg, d, events) == (d, None);
    } else {
      var (next, err) := ApplyEvent(cfg, d, events[0], Intact, Intact);
      var tail := DeliverItems(cfg, next, items[1..]);
      assert items[0] == Delivery(events[0], Intact, Intact) && items[1..] == Faultless(events[1..]);
      assert DeliverItems(cfg, d, items) == if err.Some? then (next, 0, err) else (tail.0, 1 + tail.1, tail.2);
      assert DeliverAll(cfg, d, events) == if err.Some? then (next, err) else DeliverAll(cfg, next, events[1..]);
      FaultlessDelivers(cfg, next, events[1..]);
      assert (tail.0, tail.2) == DeliverAll(cfg, next, events[1..]);
    }
  }

  predicate Taken(cfg: Config, auth: seq<Envelope>, log: seq<ProductEvent>)
    requires |log| < |auth|
  {
    var p := ProjectEvent(cfg, auth[|log|]);
    p.Some? && cfg.folds(log, p.value)
  }

  /** Each of the first k events projects, and the store takes it behind those before it. */
  ghost predicate Accepts(cfg: Config, auth: seq<Envelope>, k: nat)
    requires k <= |auth|
  {
    && (forall i :: 0 <= i < k ==> ProjectEvent(cfg, auth[i]).Some?)
    && forall log :: IsProjection(cfg, auth, log) && |log| < k ==> Taken(cfg, auth, log)
  }

  lemma {:induction false} AcceptedIsAppended(cfg: Config, auth: seq<Envelope>, log: seq<ProductEvent>, k: nat)
    requires IsProjection(cfg, auth, log) && |log| <= k <= |auth| && Accepts(cfg, auth, k)
    ensures |AppendAll(cfg, log, auth[|log|..k])| == k
    decreases k - |log|
  {
    hide ProjectEvent;
    if |log| < k {
      var e := auth[|log|];
      assert auth[|log|..k][0] == e && auth[|log|..k][1..] == auth[|log| + 1..k];
      assert Taken(cfg, auth, log);
      AcceptedIsAppended(cfg, auth, log + [ProjectEvent(cfg, e).value], k);
    }
  }

  lemma {:induction false} DeliveriesKeep(cfg: Config, auth: seq<Envelope>, d: Durable, items: seq<Delivery>)
    requires Authentic(cfg, auth) && Replicated(cfg, auth, d) && d.binding.Some?
    requires forall item :: item in items ==> Delivers(auth, item.event)
    ensures var last := DeliverItems(cfg, d, items).0;
      Replicated(cfg, auth, last) && last.binding.Some? && d.log <= last.log
    decreases |items|
  {
    hide ApplyEvent, Replicated, Authentic, Delivers;
    if items != [] {
      assert items[0] in items;
      ApplyKeeps(cfg, auth, d, items[0].event, items[0].commit, items[0].save);
      DeliveriesKeep(cfg, auth, ApplyEvent(cfg, d, items[0].event, items[0].commit, items[0].save).0, items[1..]);
    }
  }

  /** A stream without faults that starts where the source asked, or before, and whose events the store
      accepts: everything is applied and the log holds straight-line application of all events so far. */
  lemma PassFollows(cfg: Config, auth: seq<Envelope>, d: Durable, asked: bool, from: nat, k: nat)
    requires Authentic(cfg, auth) && Replicated(cfg, auth, d) && d.binding.Some?
    requires from <= k <= |auth| && Accepts(cfg, auth, k)
    requires from <= if asked then 0 else d.binding.value.cursor.sequence
    ensures var (next, pass, stop) := PassOf(cfg, d, Opened(Faultless(auth[from..k]), EndOfStream), asked);
      && stop.None? && pass.applied == k - from && (pass.replay <==> asked && k == from)
      && next.log == (if k <= |d.log| then d.log else AppendAll(cfg, d.log, auth[|d.log|..k]))
      && IsProjection(cfg, auth, next.log) && k <= |next.log| && (|d.log| <= k ==> |next.log| == k)
  {
    hide ApplyEvent, ProjectEvent, Accepts, AttachTo;
    var events := auth[from..k];
    FaultlessDelivers(cfg, d, events);
    DeliverRefines(cfg, auth, d, from, k);
    if |d.log| < k {
      AcceptedIsAppended(cfg, auth, d.log, k);
      AppendAllProjects(cfg, auth, d.log, k);
    }
  }

  lemma AsksFromZero(cfg: Config, d: Durable, attempt: Attempt)
    requires d.binding.Some?
    ensures PassOf(cfg, d, attempt, true).1.after.None?
    ensures PassOf(cfg, d, attempt, false).1.after == Some(d.binding.value.cursor)
  {
    hide AttachTo, DeliverItems;
  }

  lemma TwoPasses(cfg: Config, d: Durable, script: seq<Attempt>)
    requires d.binding.Some? && |script| == 2 && PassOf(cfg, d, script[0], false).2.None?
    requires var (next, pass, _) := PassOf(cfg, d, script[0], false);
      next.binding.Some? && PassOf(cfg, next, script[1], pass.replay).2.None?
    ensures var (next, first, _) := PassOf(cfg, d, script[0], false);
      var (last, second, _) := PassOf(cfg, next, script[1], first.replay);
      RunScript(cfg, d, script, false) == (last, Following, [first, second])
  {
    hide PassOf;
    var (next, first, _) := PassOf(cfg, d, script[0], false);
    PassKeepsBinding(cfg, next, script[1], first.replay);
    assert script[1..] == [script[1]] && script[1..][1..] == [];
    var (last, second, _) := PassOf(cfg, next, script[1], first.replay);
    assert RunScript(cfg, last, [], second.replay) == (last, Following, []);
    assert RunScript(cfg, next, script[1..], first.replay) == (last, Following, [second] + []);
    assert [first] + ([second] + []) == [first, second];
  }

  /** What a pass missed, the next one brings: when the first stream of a run meets a gap or a conflict,
      the second is asked for from sequence zero, and if that delivers events 1..k and the store accepts
      them, the run still follows and its log is straight-line application of them, each exactly once. */
  lemma GapIsRepaired(cfg: Config, auth: seq<Envelope>, d: Durable, snapshot: Option<Snapshot>, save: Fault,
      items: seq<Delivery>, end: StreamEnd, k: nat)
    requires Authentic(cfg, auth) && Replicated(cfg, auth, d) && AttachTo(cfg, d, snapshot, save).1.None?
    requires forall item :: item in items ==> Delivers(auth, item.event)
    requires AttachTo(cfg, d, snapshot, save).0.binding.Some? ==> MetGap(cfg, AttachTo(cfg, d, snapshot, save).0, items)
    requires k <= |auth| && Accepts(cfg, auth, k)
    ensures var script := [Opened(items, end), Opened(Faultless(auth[..k]), EndOfStream)];
      var (last, stop, passes) := RunAll(cfg, d, snapshot, save, script);
      var missed := DeliverItems(cfg, AttachTo(cfg, d, snapshot, save).0, items).0;
      && stop == Following && |passes| == 2
      && passes[0].replay && passes[1].after.None? && passes[1].applied == k
      && d.log <= missed.log
      && last.log == (if k <= |missed.log| then missed.log else AppendAll(cfg, missed.log, auth[|missed.log|..k]))
      && IsProjection(cfg, auth, last.log) && k <= |last.log|
  {
    hide ApplyEvent, ProjectEvent, Accepts, AttachTo, Authentic, Replicated, IsProjection, PassOf;
    var script := [Opened(items, end), Opened(Faultless(auth[..k]), EndOfStream)];
    AttachKeepsBinding(cfg, d, snapshot, save);
    AttachRepairs(cfg, auth, d, snapshot, save);
    var attached := AttachTo(cfg, d, snapshot, save).0;
    DeliveriesKeep(cfg, auth, attached, items);
    PassGoesOnIff(cfg, attached, script[0], false);
    var (missed, first, _) := PassOf(cfg, attached, script[0], false);
    assert auth[0..k] == auth[..k];
    PassFollows(cfg, auth, missed, true, 0, k);
    var second := PassOf(cfg, missed, script[1], true).1;
    AsksFromZero(cfg, missed, script[1]);
    assert script[1..] == [script[1]] && script[1..][1..] == [];
    TwoPasses(cfg, attached, script);
  }
}
