/**
 What the mailbox's operations come to over whole runs (internal/collaboration/mailbox.go), said of the
 calls and the file alone: where each message comes from, which sends arrive, and where a watermark is.
 */
module MailboxLaws {
  import opened Prelude
  import opened TextLaws
  import opened Mailbox

  /** The write of an operation with this fault reaches the file, whether or not the caller hears of it. */
  predicate TakesEffect(fault: Fault) {
    fault == NoFault || fault == LostAfter
  }

  /** The message is what this call stores: its text without surrounding white space, under its id. */
  ghost predicate SentBy(l: Limits, op: Operation, m: Message) {
    && op.DoSend? && TakesEffect(op.fault) && m.id == op.id
    && Trims(op.draft.sender, m.sender) && Trims(op.draft.to, m.to) && Trims(op.draft.body, m.body)
    && m.sender != "" && m.to != "" && m.body != "" && ByteLength(m.body) <= l.maxBody
  }

  /** One send and one number: when a call stores anything it is the next message, made of its own draft. */
  lemma SendStores(l: Limits, f: File, draft: Message, id: string, fault: Fault)
    ensures var g := Send(l, f, draft, id, fault).1;
      g.acks == f.acks && (g.messages == f.messages || |g.messages| == |f.messages| + 1)
    ensures var g := Send(l, f, draft, id, fault).1;
      g.messages != f.messages ==>
        var m := g.messages[|f.messages|];
        && g.messages == f.messages + [m] && m.sequence == |f.messages| + 1 && |f.messages| < l.maxMessages
        && SentBy(l, DoSend(draft, id, fault), m)
        && (fault == NoFault ==> Send(l, f, draft, id, fault).0 == Ok(m))
  {
    hide TrimSpace, ByteLength, Trims;
    TrimSpaceIff(draft.sender, TrimSpace(draft.sender));
    TrimSpaceIff(draft.to, TrimSpace(draft.to));
    TrimSpaceIff(draft.body, TrimSpace(draft.body));
  }

  /** A draft is complete when something but white space stands in each of its texts. */
  ghost predicate Complete(draft: Message) {
    !Blank(draft.sender) && !Blank(draft.to) && !Blank(draft.body)
  }

  lemma BlankIff(s: string)
    ensures Blank(s) <==> TrimSpace(s) == ""
  {
    hide TrimSpace;
    TrimSpaceIff(s, "");
    assert s == s + "" + "" && Blank("");
    if TrimSpace(s) == "" {
      var a, b :| Blank(a) && Blank(b) && s == a + "" + b;
      assert forall i :: 0 <= i < |s| ==> s[i] == if i < |a| then a[i] else b[i - |a|];
    }
  }

  /** What a sender is told, by the draft, the room in the file and the fault: the text is judged before
      the file is read, and the room before anything is written. */
  lemma SendAnswers(l: Limits, f: File, draft: Message, body: string, id: string, fault: Fault)
    requires Trims(draft.body, body)
    ensures var result, long, full :=
        Send(l, f, draft, id, fault).0, ByteLength(body) > l.maxBody, |f.messages| >= l.maxMessages;
      && (result == Err(Incomplete) <==> !Complete(draft))
      && (result == Err(TooLong) <==> Complete(draft) && long)
      && (result == Err(Full) <==> Complete(draft) && !long && fault != CannotRead && full)
      && (result.Ok? <==> Complete(draft) && !long && !full && fault == NoFault)
    ensures TakesEffect(fault) && Complete(draft) && ByteLength(body) <= l.maxBody && |f.messages| < l.maxMessages ==>
      |Send(l, f, draft, id, fault).1.messages| == |f.messages| + 1
  {
    hide TrimSpace, ByteLength, Trims, Blank;
    TrimSpaceIff(draft.body, body);
    BlankIff(draft.sender);
    BlankIff(draft.to);
    BlankIff(draft.body);
  }

  lemma PerformGrows(l: Limits, f: File, op: Operation)
    ensures f.messages <= Perform(l, f, op).messages
  {
    hide Send, SentBy;
    if op.DoSend? {
      SendStores(l, f, op.draft, op.id, op.fault);
    }
  }

  lemma {:induction false} RunGrows(l: Limits, f: File, ops: seq<Operation>)
    ensures f.messages <= PerformAll(l, f, ops).messages
    decreases |ops|
  {
    hide Perform;
    if ops != [] {
      PerformGrows(l, f, ops[0]);
      RunGrows(l, Perform(l, f, ops[0]), ops[1..]);
    }
  }

  /** Nothing is made up: after any run each message was there before or was stored by a send of the run. */
  lemma {:induction false} MessagesComeFromSends(l: Limits, f: File, ops: seq<Operation>, m: Message)
    requires m in PerformAll(l, f, ops).messages
    ensures m in f.messages || exists i :: 0 <= i < |ops| && SentBy(l, ops[i], m)
    decreases |ops|
  {
    hide Send, SentBy;
    if ops != [] {
      var g, op := Perform(l, f, ops[0]), ops[0];
      MessagesComeFromSends(l, g, ops[1..], m);
      if m in g.messages {
        if op.DoSend? {
          SendStores(l, f, op.draft, op.id, op.fault);
        }
      } else {
        var i :| 0 <= i < |ops[1..]| && SentBy(l, ops[1..][i], m);
        assert ops[1..][i] == ops[i + 1];
      }
    }
  }

  /** Nothing is lost on the way in: a send of the run with a complete text within the limit arrives
      whenever its write takes effect and the run leaves room. */
  lemma {:induction false} SendsArrive(l: Limits, f: File, ops: seq<Operation>, i: nat, body: string)
    requires i < |ops| && ops[i].DoSend? && TakesEffect(ops[i].fault) && Complete(ops[i].draft)
    requires Trims(ops[i].draft.body, body) && ByteLength(body) <= l.maxBody
    requires |PerformAll(l, f, ops).messages| < l.maxMessages
    ensures exists m :: m in PerformAll(l, f, ops).messages && SentBy(l, ops[i], m)
    decreases |ops|
  {
    hide Send, SentBy, Trims, ByteLength, Complete;
    var op, g := ops[0], Perform(l, f, ops[0]);
    RunGrows(l, g, ops[1..]);
    if i > 0 {
      assert ops[i] == ops[1..][i - 1];
      SendsArrive(l, g, ops[1..], i - 1, body);
    } else {
      PerformGrows(l, f, op);
      SendAnswers(l, f, op.draft, body, op.id, op.fault);
      SendStores(l, f, op.draft, op.id, op.fault);
      assert g.messages[|f.messages|] in PerformAll(l, f, ops).messages;
    }
  }

  /** The operation acknowledges everything up to n for the recipient. */
  predicate Acknowledges(op: Operation, recipient: string, n: nat) {
    op.DoAck? && op.recipient == recipient && op.sequence >= n && op.fault != CannotRead && op.fault != CannotWrite
  }

  /** A recipient told of its acknowledgement has it, and only a failure around the file leaves it untold. */
  lemma AckAnswers(f: File, recipient: string, sequence: nat, fault: Fault)
    ensures Ack(f, recipient, sequence, fault).0 ==>
      Watermark(Ack(f, recipient, sequence, fault).1, recipient) >= sequence
    ensures Ack(f, recipient, sequence, fault).0 <==> fault !in {CannotRead, CannotWrite, LostAfter}
    ensures Ack(f, recipient, sequence, fault).1.messages == f.messages
  {
  }

  lemma MarkAfterOne(l: Limits, f: File, op: Operation, recipient: string, n: nat)
    requires n > 0
    ensures Watermark(Perform(l, f, op), recipient) >= n <==>
            Watermark(f, recipient) >= n || Acknowledges(op, recipient, n)
  {
    hide Send, SentBy;
    if op.DoSend? {
      SendStores(l, f, op.draft, op.id, op.fault);
    }
  }

  /** A watermark is the highest number acknowledged: after any run it has reached n exactly when it had
      before or some acknowledgement of that recipient, with n or more, took effect. */
  lemma {:induction false} WatermarkIsHighest(l: Limits, f: File, ops: seq<Operation>, recipient: string, n: nat)
    requires n > 0
    ensures Watermark(PerformAll(l, f, ops), recipient) >= n <==>
            Watermark(f, recipient) >= n || exists i :: 0 <= i < |ops| && Acknowledges(ops[i], recipient, n)
    decreases |ops|
  {
    hide Perform, Watermark, Acknowledges;
    if ops != [] {
      MarkAfterOne(l, f, ops[0], recipient, n);
      WatermarkIsHighest(l, Perform(l, f, ops[0]), ops[1..], recipient, n);
      assert forall i :: 0 <= i < |ops[1..]| ==> ops[1..][i] == ops[i + 1];
      assert forall i :: 0 < i < |ops| ==> ops[i] == ops[1..][i - 1];
    }
  }

  lemma {:induction false} SelectFromLarger(messages: seq<Message>, recipient: string, after: nat, mark: nat,
      start: nat)
    requires start == if after < mark then mark else after
    ensures Select(messages, recipient, after, mark) == Select(messages, recipient, start, start)
  {
    if messages != [] {
      SelectFromLarger(messages[1..], recipient, after, mark, start);
    }
  }

  lemma {:induction false} NothingBeyond(messages: seq<Message>, recipient: string, start: nat)
    requires forall i :: 0 <= i < |messages| ==> messages[i].sequence <= start
    ensures Select(messages, recipient, start, start) == []
  {
    if messages != [] {
      assert forall i :: 0 <= i < |messages[1..]| ==> messages[1..][i] == messages[i + 1];
      NothingBeyond(messages[1..], recipient, start);
    }
  }

  lemma NumbersBounded(messages: seq<Message>)
    requires Numbered(messages)
    ensures forall i :: 0 <= i < |messages| ==> messages[i].sequence <= |messages|
  {
  }

  /** The same of one page: the run of the recipient's messages up to its last one. */
  lemma PageFrom(messages: seq<Message>, recipient: string, start: nat, size: nat, page: seq<Message>)
    requires Numbered(messages) && start <= |messages| && size > 0
    requires page == Page(Select(messages, recipient, start, start), size)
    ensures |page| <= size && (start == |messages| ==> page == [])
    ensures |page| < size ==> page == For(messages[start..], recipient)
    ensures page != [] ==>
      var last := page[|page| - 1].sequence;
      start < last <= |messages| && For(messages[start..last], recipient) == page
  {
    hide Select, For;
    PolledRun(messages, recipient, start, start, size);
    SelectIsForTail(messages, 0, recipient, start, start);
    assert start == 0 ==> messages[0..] == messages;
    if start == |messages| {
      NothingBeyond(messages, recipient, start);
    }
  }

  /** What any poll returns: nothing but a failed read stops it; from the later of the requested number
      and the watermark, it is the run of the recipient's messages up to its last one, at most `limit` of
      them (a hundred without a limit), and all of them when there are fewer. */
  lemma PollReturns(f: File, recipient: string, after: nat, limit: int, fault: Fault, start: nat, size: nat)
      returns (page: seq<Message>)
    requires Numbered(f.messages)
    requires start == if after < Watermark(f, recipient) then Watermark(f, recipient) else after
    requires size == if limit > 0 then limit else 100
    ensures Poll(f, recipient, after, limit, fault) == if fault == CannotRead then None else Some(page)
    ensures |page| <= size && (start >= |f.messages| ==> page == [])
    ensures start <= |f.messages| && |page| < size ==> page == For(f.messages[start..], recipient)
    ensures start <= |f.messages| && page != [] ==>
      var last := page[|page| - 1].sequence;
      start < last <= |f.messages| && For(f.messages[start..last], recipient) == page
  {
    hide Select, For, Numbered;
    page := Page(Select(f.messages, recipient, after, Watermark(f, recipient)), size);
    SelectFromLarger(f.messages, recipient, after, Watermark(f, recipient), start);
    if start <= |f.messages| {
      PageFrom(f.messages, recipient, start, size, page);
    } else {
      assert forall i :: 0 <= i < |f.messages| ==> f.messages[i].sequence <= start by { NumbersBounded(f.messages); }
      NothingBeyond(f.messages, recipient, start);
    }
  }
}
