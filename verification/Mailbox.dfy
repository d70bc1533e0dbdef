/**
 The durable mailbox between agents (internal/collaboration/mailbox.go): messages numbered in order
 of arrival, and per recipient the highest acknowledged number. Each operation holds the lock for as
 long as it reads and rewrites the file. A write either leaves the old file or, when the call fails or
 is cut off behind the rename, has taken effect although nobody is told.
 */
module Mailbox {
  import opened Prelude

  datatype Message = Message(id: string, sequence: nat, sender: string, to: string, body: string)

  datatype File = File(messages: seq<Message>, acks: map<string, nat>)

  datatype Limits = Limits(maxMessages: nat, maxBody: nat)

  /** What goes wrong outside the mailbox during one operation. */
  datatype Fault = NoFault | CannotRead | NoRandom | CannotWrite | LostAfter

  datatype MailError = Incomplete | TooLong | Full | OutsideFailure

  function Watermark(f: File, recipient: string): nat {
    if recipient in f.acks then f.acks[recipient] else 0
  }

  function Trimmed(m: Message): Message {
    m.(sender := TrimSpace(m.sender), to := TrimSpace(m.to), body := TrimSpace(m.body))
  }

  /** Send, given the random id. */
  function Send(l: Limits, f: File, draft: Message, id: string, fault: Fault): (Result<Message, MailError>, File) {
    var m := Trimmed(draft);
    if m.sender == "" || m.to == "" || m.body == "" then (Err(Incomplete), f)
    else if ByteLength(m.body) > l.maxBody then (Err(TooLong), f)
    else if fault == CannotRead then (Err(OutsideFailure), f)
    else if |f.messages| >= l.maxMessages then (Err(Full), f)
    else if fault == NoRandom || fault == CannotWrite then (Err(OutsideFailure), f)
    else
      var numbered := m.(id := id, sequence := |f.messages| + 1);
      (if fault == LostAfter then Err(OutsideFailure) else Ok(numbered),
       f.(messages := f.messages + [numbered]))
  }

  function Ack(f: File, recipient: string, sequence: nat, fault: Fault): (bool, File) {
    if fault == CannotRead || fault == CannotWrite then (false, f)
    else
      (fault != LostAfter,
       if sequence > Watermark(f, recipient) then f.(acks := f.acks[recipient := sequence]) else f)
  }

  function PageSize(limit: int): nat {
    if limit <= 0 then 100 else limit
  }

  predicate Unread(m: Message, recipient: string, after: nat, watermark: nat) {
    m.to == recipient && m.sequence > after && m.sequence > watermark
  }

  function Select(messages: seq<Message>, recipient: string, after: nat, watermark: nat): seq<Message> {
    if messages == [] then []
    else (if Unread(messages[0], recipient, after, watermark) then [messages[0]] else []) +
         Select(messages[1..], recipient, after, watermark)
  }

  function Page<T>(all: seq<T>, limit: nat): seq<T> {
    if |all| <= limit then all else all[..limit]
  }

  function Poll(f: File, recipient: string, after: nat, limit: int, fault: Fault): Option<seq<Message>> {
    if fault == CannotRead then None
    else Some(Page(Select(f.messages, recipient, after, Watermark(f, recipient)), PageSize(limit)))
  }

  // ------------------------------------------------------------ numbering

  /** Numbered 1 to n in order. */
  ghost predicate Numbered(messages: seq<Message>) {
    forall i :: 0 <= i < |messages| ==> messages[i].sequence == i + 1
  }

  /** Messages are only appended and watermarks never decrease. */
  ghost predicate Grows(f: File, g: File) {
    f.messages <= g.messages && forall r :: Watermark(f, r) <= Watermark(g, r)
  }

  datatype Operation =
    | DoSend(draft: Message, id: string, fault: Fault)
    | DoPoll(recipient: string, after: nat, limit: int, fault: Fault)
    | DoAck(recipient: string, sequence: nat, fault: Fault)

  function Perform(l: Limits, f: File, op: Operation): File {
    match op
    case DoSend(draft, id, fault) => Send(l, f, draft, id, fault).1
    case DoPoll(_, _, _, _) => f
    case DoAck(recipient, sequence, fault) => Ack(f, recipient, sequence, fault).1
  }

  function PerformAll(l: Limits, f: File, ops: seq<Operation>): File
    decreases |ops|
  {
    if ops == [] then f else PerformAll(l, Perform(l, f, ops[0]), ops[1..])
  }

  /** Whatever senders, recipients and failures do, the numbers are 1 to n, the limit holds, nothing
      sent is changed and no watermark goes back. */
  lemma {:induction false} EveryRunKeepsNumbers(l: Limits, f: File, ops: seq<Operation>)
    requires Numbered(f.messages) && |f.messages| <= l.maxMessages
    ensures var g := PerformAll(l, f, ops);
      Numbered(g.messages) && |g.messages| <= l.maxMessages && Grows(f, g)
    decreases |ops|
  {
    if ops != [] {
      EveryRunKeepsNumbers(l, Perform(l, f, ops[0]), ops[1..]);
    }
  }

  // ------------------------------------------------------------ what a recipient gets

  /** All messages to the recipient, in order. */
  function For(messages: seq<Message>, recipient: string): seq<Message> {
    if messages == [] then []
    else if messages[0].to == recipient then [messages[0]] + For(messages[1..], recipient)
    else For(messages[1..], recipient)
  }

  lemma {:induction false} ForConcat(a: seq<Message>, b: seq<Message>, recipient: string)
    ensures For(a + b, recipient) == For(a, recipient) + For(b, recipient)
  {
    if a == [] {
      assert a + b == b;
    } else {
      assert (a + b)[1..] == a[1..] + b;
      ForConcat(a[1..], b, recipient);
    }
  }

  /** With numbered messages the test on numbers cuts the list at a place. */
  lemma {:induction false} SelectIsForTail(messages: seq<Message>, first: nat, recipient: string, after: nat,
      watermark: nat)
    requires forall i :: 0 <= i < |messages| ==> messages[i].sequence == first + i + 1
    requires after <= watermark
    ensures Select(messages, recipient, after, watermark) ==
      For(messages[if watermark <= first then 0 else if watermark - first <= |messages| then watermark - first
          else |messages|..], recipient)
  {
    if messages != [] {
      SelectIsForTail(messages[1..], first + 1, recipient, after, watermark);
      if watermark <= first {
        assert messages[0..] == messages && messages[1..][0..] == messages[1..];
      } else if watermark - first <= |messages| {
        assert messages[1..][watermark - first - 1..] == messages[watermark - first..];
      }
    }
  }

  /** The first n messages to a recipient are those up to some place in the list. */
  lemma {:induction false} FirstFor(messages: seq<Message>, recipient: string, n: nat) returns (j: nat)
    requires 1 <= n <= |For(messages, recipient)|
    ensures j < |messages| && For(messages, recipient)[n - 1] == messages[j]
    ensures For(messages[..j + 1], recipient) == For(messages, recipient)[..n]
  {
    var rest := messages[1..];
    if messages[0].to == recipient && n == 1 {
      j := 0;
      assert messages[..1] == [messages[0]];
    } else {
      j := FirstFor(rest, recipient, if messages[0].to == recipient then n - 1 else n);
      assert messages[..j + 2][1..] == rest[..j + 1];
      j := j + 1;
    }
  }

  lemma PageOfTail(tail: seq<Message>, recipient: string, watermark: nat, limit: nat)
    requires (forall i :: 0 <= i < |tail| ==> tail[i].sequence == watermark + i + 1) && limit > 0
    ensures var page := Page(For(tail, recipient), limit);
      if page == [] then For(tail, recipient) == []
      else
        var last := page[|page| - 1].sequence;
        watermark < last <= watermark + |tail| && For(tail[..last - watermark], recipient) == page
  {
    hide For;
    var page := Page(For(tail, recipient), limit);
    if page != [] {
      assert page == For(tail, recipient)[..|page|];
      var j := FirstFor(tail, recipient, |page|);
    }
  }

  /** A poll from the watermark, under any number of earlier sends: what it returns is exactly the run
      of the recipient's messages from the watermark to the last one returned. */
  lemma PolledRun(messages: seq<Message>, recipient: string, after: nat, watermark: nat, limit: nat)
    requires Numbered(messages) && after <= watermark <= |messages| && limit > 0
    ensures var page := Page(Select(messages, recipient, after, watermark), limit);
      if page == [] then For(messages[watermark..], recipient) == []
      else
        var last := page[|page| - 1].sequence;
        watermark < last <= |messages| && For(messages[watermark..last], recipient) == page
  {
    hide Select, For;
    SelectIsForTail(messages, 0, recipient, after, watermark);
    var tail := messages[watermark..];
    assert watermark == 0 ==> messages[0..] == messages;
    PageOfTail(tail, recipient, watermark, limit);
    var page := Page(For(tail, recipient), limit);
    if page != [] {
      var last := page[|page| - 1].sequence;
      assert messages[watermark..last] == tail[..last - watermark];
    }
  }

  // ------------------------------------------------------------ a polling recipient

  /** A page the recipient is done with: it finished with it, or a crash took it for good. */
  datatype Fate = Kept(page: seq<Message>) | Lost(page: seq<Message>)

  /** The recipient: the fates of its pages so far, and the page it has polled but not acknowledged. */
  datatype Consumer = Consumer(past: seq<Fate>, page: Option<seq<Message>>)

  datatype World = World(file: File, consumer: Consumer)

  /** Everything in the past pages, in order. */
  function Passed(past: seq<Fate>): seq<Message> {
    if past == [] then [] else Passed(past[..|past| - 1]) + past[|past| - 1].page
  }

  /** What the recipient finished with. */
  function Finished(past: seq<Fate>): seq<Message> {
    if past == [] then []
    else
      var last := past[|past| - 1];
      Finished(past[..|past| - 1]) + if last.Kept? then last.page else []
  }

  /** Others send and acknowledge in between; the recipient polls, acknowledges the last message of its
      page, or crashes and forgets the page. */
  datatype Event =
    | SomeoneSends(draft: Message, id: string, fault: Fault)
    | OtherAcks(other: string, sequence: nat, fault: Fault)
    | Polls(after: nat, limit: int, fault: Fault)
    | Acks(fault: Fault)
    | Crashes

  /** The recipient polls from at most its watermark, and nobody else acknowledges for it. */
  predicate Allowed(w: World, me: string, e: Event) {
    match e
    case OtherAcks(other, _, _) => other != me
    case Polls(after, _, _) => w.consumer.page.None? && after <= Watermark(w.file, me)
    case Acks(_) => w.consumer.page.Some?
    case _ => true
  }

  /** The page is acknowledged in the file, and the recipient does not know. */
  predicate InDoubt(w: World, me: string) {
    && w.consumer.page.Some? && w.consumer.page.value != []
    && w.consumer.page.value[|w.consumer.page.value| - 1].sequence <= Watermark(w.file, me)
  }

  /** An empty page needs no acknowledgement; a failed one is kept and can be tried again. */
  function Acknowledge(w: World, me: string, fault: Fault): World
    requires w.consumer.page.Some?
  {
    var page := w.consumer.page.value;
    if page == [] then w.(consumer := w.consumer.(page := None))
    else
      var (ok, file) := Ack(w.file, me, page[|page| - 1].sequence, fault);
      World(file, if ok then Consumer(w.consumer.past + [Kept(page)], None) else w.consumer)
  }

  /** The recipient starts again without its page. */
  function Restart(w: World, me: string): Consumer {
    Consumer(if InDoubt(w, me) then w.consumer.past + [Lost(w.consumer.page.value)] else w.consumer.past, None)
  }

  function Happen(l: Limits, w: World, me: string, e: Event): World
    requires Allowed(w, me, e)
  {
    match e
    case SomeoneSends(draft, id, fault) => w.(file := Send(l, w.file, draft, id, fault).1)
    case OtherAcks(other, sequence, fault) => w.(file := Ack(w.file, other, sequence, fault).1)
    case Polls(after, limit, fault) => w.(consumer := w.consumer.(page := Poll(w.file, me, after, limit, fault)))
    case Acks(fault) => Acknowledge(w, me, fault)
    case Crashes => w.(consumer := Restart(w, me))
  }

  function HappenAll(l: Limits, w: World, me: string, events: seq<Event>): World
    decreases |events|
  {
    if events == [] then w
    else HappenAll(l, if Allowed(w, me, events[0]) then Happen(l, w, me, events[0]) else w, me, events[1..])
  }

  ghost predicate PageInStep(messages: seq<Message>, mark: nat, me: string, page: seq<Message>)
    requires mark <= |messages|
  {
    page != [] ==>
      var last := page[|page| - 1].sequence;
      mark < last <= |messages| && For(messages[mark..last], me) == page
  }

  /** The past pages, and the one in doubt, are exactly the messages up to the watermark, each once and
      in order; another page is the run that follows. */
  ghost predicate InStep(w: World, me: string) {
    var mark := Watermark(w.file, me);
    && Numbered(w.file.messages) && mark <= |w.file.messages|
    && if InDoubt(w, me) then Passed(w.consumer.past) + w.consumer.page.value == For(w.file.messages[..mark], me)
       else
         && Passed(w.consumer.past) == For(w.file.messages[..mark], me)
         && (w.consumer.page.Some? ==> PageInStep(w.file.messages, mark, me, w.consumer.page.value))
  }

  lemma SendKeepsStep(l: Limits, w: World, me: string, e: Event)
    requires InStep(w, me) && e.SomeoneSends?
    ensures InStep(Happen(l, w, me, e), me)
  {
    hide For, Passed;
    var messages, next := w.file.messages, Happen(l, w, me, e).file.messages;
    var mark := Watermark(w.file, me);
    assert next[..mark] == messages[..mark];
    if w.consumer.page.Some? && w.consumer.page.value != [] && !InDoubt(w, me) {
      var last := w.consumer.page.value[|w.consumer.page.value| - 1].sequence;
      assert next[mark..last] == messages[mark..last];
    }
  }

  lemma PassedSnoc(past: seq<Fate>, fate: Fate)
    ensures Passed(past + [fate]) == Passed(past) + fate.page
    ensures Finished(past + [fate]) == Finished(past) + if fate.Kept? then fate.page else []
  {
    assert (past + [fate])[..|past|] == past;
  }

  /** A page in doubt is already acknowledged: trying again changes no watermark. */
  lemma DoubtKeepsStep(w: World, me: string, fault: Fault)
    requires InStep(w, me) && InDoubt(w, me)
    ensures InStep(Acknowledge(w, me, fault), me)
  {
    hide For, Passed, PageInStep;
    PassedSnoc(w.consumer.past, Kept(w.consumer.page.value));
    assert Ack(w.file, me, w.consumer.page.value[|w.consumer.page.value| - 1].sequence, fault).1 == w.file;
  }

  /** The watermark moves to the end of the page. */
  lemma RunGrows(messages: seq<Message>, mark: nat, me: string, page: seq<Message>)
    requires mark <= |messages| && page != [] && PageInStep(messages, mark, me, page)
    ensures mark < page[|page| - 1].sequence <= |messages|
    ensures For(messages[..page[|page| - 1].sequence], me) == For(messages[..mark], me) + page
  {
    hide For;
    var last := page[|page| - 1].sequence;
    assert messages[..last] == messages[..mark] + messages[mark..last];
    ForConcat(messages[..mark], messages[mark..last], me);
  }

  lemma AheadKeepsStep(w: World, me: string, fault: Fault)
    requires InStep(w, me) && !InDoubt(w, me) && w.consumer.page.Some? && w.consumer.page.value != []
    ensures InStep(Acknowledge(w, me, fault), me)
  {
    hide For, Passed, Numbered, PageInStep;
    var page, mark := w.consumer.page.value, Watermark(w.file, me);
    var last := page[|page| - 1].sequence;
    var v := Acknowledge(w, me, fault);
    PassedSnoc(w.consumer.past, Kept(page));
    RunGrows(w.file.messages, mark, me, page);
    if v.file != w.file {
      assert Watermark(v.file, me) == last;
    }
  }

  lemma AckKeepsStep(w: World, me: string, fault: Fault)
    requires InStep(w, me) && w.consumer.page.Some?
    ensures InStep(Acknowledge(w, me, fault), me)
  {
    hide For, Passed;
    if InDoubt(w, me) {
      DoubtKeepsStep(w, me, fault);
    } else if w.consumer.page.value != [] {
      AheadKeepsStep(w, me, fault);
    }
  }

  lemma CrashKeepsStep(w: World, me: string)
    requires InStep(w, me)
    ensures InStep(w.(consumer := Restart(w, me)), me)
  {
    hide For, Passed;
    if InDoubt(w, me) {
      PassedSnoc(w.consumer.past, Lost(w.consumer.page.value));
    }
  }

  lemma PollKeepsStep(w: World, me: string, after: nat, limit: int, fault: Fault)
    requires InStep(w, me) && w.consumer.page.None? && after <= Watermark(w.file, me)
    ensures InStep(w.(consumer := w.consumer.(page := Poll(w.file, me, after, limit, fault))), me)
  {
    hide For, Passed, Select;
    PolledRun(w.file.messages, me, after, Watermark(w.file, me), PageSize(limit));
  }

  lemma HappenKeepsStep(l: Limits, w: World, me: string, e: Event)
    requires InStep(w, me) && Allowed(w, me, e)
    ensures InStep(Happen(l, w, me, e), me)
  {
    hide For, Passed, Poll, Acknowledge, Restart;
    match e
    case SomeoneSends(_, _, _) => SendKeepsStep(l, w, me, e);
    case OtherAcks(_, _, _) =>
    case Polls(after, limit, fault) => PollKeepsStep(w, me, after, limit, fault);
    case Acks(fault) => AckKeepsStep(w, me, fault);
    case Crashes => CrashKeepsStep(w, me);
  }

  lemma {:induction false} EveryRunStaysInStep(l: Limits, w: World, me: string, events: seq<Event>)
    requires InStep(w, me)
    ensures InStep(HappenAll(l, w, me, events), me)
    decreases |events|
  {
    hide InStep, Happen, Allowed;
    if events != [] {
      if Allowed(w, me, events[0]) {
        HappenKeepsStep(l, w, me, events[0]);
        EveryRunStaysInStep(l, Happen(l, w, me, events[0]), me, events[1..]);
      } else {
        EveryRunStaysInStep(l, w, me, events[1..]);
      }
    }
  }

  const EMPTY := World(File([], map[]), Consumer([], None))

  lemma NothingPassed(me: string)
    ensures InStep(EMPTY, me)
  {
  }

  /** From an empty mailbox, under any interleaving of sends, acknowledgements by others, failures and
      crashes: each message up to the watermark is, exactly once and in order, in a page the recipient
      finished with, in one that a crash took, or in the one whose acknowledgement is in doubt. */
  lemma DeliveredOnceInOrder(l: Limits, me: string, events: seq<Event>)
    ensures var w := HappenAll(l, EMPTY, me, events);
      && Watermark(w.file, me) <= |w.file.messages|
      && Passed(w.consumer.past) + (if InDoubt(w, me) then w.consumer.page.value else []) ==
         For(w.file.messages[..Watermark(w.file, me)], me)
  {
    hide HappenAll, For;
    NothingPassed(me);
    EveryRunStaysInStep(l, EMPTY, me, events);
  }

  predicate NoneLost(past: seq<Fate>) {
    forall fate :: fate in past ==> fate.Kept?
  }

  lemma {:induction false} AllFinished(past: seq<Fate>)
    requires NoneLost(past)
    ensures Finished(past) == Passed(past)
  {
    if past != [] {
      AllFinished(past[..|past| - 1]);
    }
  }

  /** The recipient's own acknowledgements are told how they ended. */
  predicate Told(e: Event) {
    e.Acks? ==> e.fault != LostAfter
  }

  lemma PolledIsAhead(w: World, me: string, after: nat, limit: int, fault: Fault)
    requires InStep(w, me) && after <= Watermark(w.file, me)
    ensures !InDoubt(w.(consumer := w.consumer.(page := Poll(w.file, me, after, limit, fault))), me)
  {
    hide For, Passed, Select;
    PolledRun(w.file.messages, me, after, Watermark(w.file, me), PageSize(limit));
  }

  lemma ToldStaysCertain(l: Limits, w: World, me: string, e: Event)
    requires InStep(w, me) && Allowed(w, me, e) && Told(e) && !InDoubt(w, me) && NoneLost(w.consumer.past)
    ensures !InDoubt(Happen(l, w, me, e), me) && NoneLost(Happen(l, w, me, e).consumer.past)
  {
    hide For, Passed, Select, Poll;
    if e.Polls? {
      PollKeepsStep(w, me, e.after, e.limit, e.fault);
      PolledIsAhead(w, me, e.after, e.limit, e.fault);
    }
  }

  /** When every acknowledgement of the recipient's own is told how it ended, no crash loses anything:
      it has finished with each of its messages up to the watermark exactly once and in order. */
  lemma {:induction false} ToldLosesNothing(l: Limits, w: World, me: string, events: seq<Event>)
    requires InStep(w, me) && !InDoubt(w, me) && NoneLost(w.consumer.past) && forall e :: e in events ==> Told(e)
    ensures var v := HappenAll(l, w, me, events);
      && Watermark(v.file, me) <= |v.file.messages|
      && Finished(v.consumer.past) == For(v.file.messages[..Watermark(v.file, me)], me)
    decreases |events|
  {
    hide Happen, Allowed, InDoubt, Told, For, NoneLost;
    if events == [] {
      AllFinished(w.consumer.past);
    } else if Allowed(w, me, events[0]) {
      HappenKeepsStep(l, w, me, events[0]);
      ToldStaysCertain(l, w, me, events[0]);
      ToldLosesNothing(l, Happen(l, w, me, events[0]), me, events[1..]);
    } else {
      ToldLosesNothing(l, w, me, events[1..]);
    }
  }

  /** A poll that finds nothing means every message sent to the recipient is in one of its past pages. */
  lemma EmptyPollMeansDone(l: Limits, w: World, me: string, after: nat, limit: int)
    requires InStep(w, me) && w.consumer.page.None? && after <= Watermark(w.file, me)
    requires Poll(w.file, me, after, limit, NoFault) == Some([])
    ensures Passed(w.consumer.past) == For(w.file.messages, me)
  {
    var messages, mark := w.file.messages, Watermark(w.file, me);
    PolledRun(messages, me, after, mark, PageSize(limit));
    assert messages == messages[..mark] + messages[mark..];
    ForConcat(messages[..mark], messages[mark..], me);
  }

  // ------------------------------------------------------------ what a crash takes

  lemma {:induction false} ForIsIn(messages: seq<Message>, recipient: string, m: Message)
    requires m in For(messages, recipient)
    ensures m in messages
  {
    if messages[0].to != recipient || m != messages[0] {
      ForIsIn(messages[1..], recipient, m);
    }
  }

  lemma {:induction false} SelectIsUnread(messages: seq<Message>, recipient: string, after: nat, mark: nat, m: Message)
    requires m in Select(messages, recipient, after, mark)
    ensures m.sequence > mark
  {
    if !(Unread(messages[0], recipient, after, mark) && m == messages[0]) {
      SelectIsUnread(messages[1..], recipient, after, mark, m);
    }
  }

  /** A page in doubt is never polled again. */
  lemma DoubtIsNotPolled(w: World, g: File, me: string, after: nat, limit: int, m: Message)
    requires InStep(w, me) && InDoubt(w, me) && Watermark(w.file, me) <= Watermark(g, me) && m in w.consumer.page.value
    ensures m !in Poll(g, me, after, limit, NoFault).value
  {
    hide For, Select, Passed;
    var messages, mark := w.file.messages, Watermark(w.file, me);
    assert m in For(messages[..mark], me);
    ForIsIn(messages[..mark], me, m);
    if m in Poll(g, me, after, limit, NoFault).value {
      SelectIsUnread(g.messages, me, after, Watermark(g, me), m);
    }
  }

  /** Any other page is polled again, in full and first, when there is room for it. */
  lemma OtherPageIsPolled(w: World, g: File, me: string, after: nat, limit: int)
    requires InStep(w, me) && !InDoubt(w, me) && w.consumer.page.Some?
    requires Grows(w.file, g) && Watermark(g, me) == Watermark(w.file, me)
    requires after <= Watermark(g, me) && |w.consumer.page.value| <= PageSize(limit) && Numbered(g.messages)
    ensures w.consumer.page.value <= Poll(g, me, after, limit, NoFault).value
  {
    hide For, Select, Passed;
    var page, mark := w.consumer.page.value, Watermark(g, me);
    if page != [] {
      var last := page[|page| - 1].sequence;
      assert g.messages[mark..last] == w.file.messages[mark..last];
      assert g.messages[mark..] == g.messages[mark..last] + g.messages[last..];
      ForConcat(g.messages[mark..last], g.messages[last..], me);
      SelectIsForTail(g.messages, 0, me, after, mark);
      assert mark == 0 ==> g.messages[0..] == g.messages;
    }
  }

  /** A recipient that crashes with a page and polls again, whatever was sent meanwhile, gets that page
      again exactly when its acknowledgement was not in doubt; otherwise it gets none of it, ever. */
  lemma CrashRedeliversIff(w: World, g: File, me: string, after: nat, limit: int)
    requires InStep(w, me) && w.consumer.page.Some? && w.consumer.page.value != []
    requires Grows(w.file, g) && Watermark(g, me) == Watermark(w.file, me) && Numbered(g.messages)
    requires after <= Watermark(g, me) && |w.consumer.page.value| <= PageSize(limit)
    ensures w.consumer.page.value <= Poll(g, me, after, limit, NoFault).value <==> !InDoubt(w, me)
    ensures InDoubt(w, me) ==>
      forall m :: m in w.consumer.page.value ==> m !in Poll(g, me, after, limit, NoFault).value
  {
    hide InStep, InDoubt, Select, Page, Numbered, Grows;
    var page, again := w.consumer.page.value, Poll(g, me, after, limit, NoFault).value;
    assert page[0] in page && (page <= again ==> page[0] in again);
    if InDoubt(w, me) {
      forall m | m in page
        ensures m !in again
      {
        DoubtIsNotPolled(w, g, me, after, limit, m);
      }
    } else {
      OtherPageIsPolled(w, g, me, after, limit);
    }
  }

  /** The message Send stores in an empty mailbox. */
  lemma SentOne(l: Limits, draft: Message, id: string)
    requires Send(l, EMPTY.file, draft, id, NoFault).0.Ok?
    ensures Send(l, EMPTY.file, draft, id, NoFault).1 ==
            File([Trimmed(draft).(id := id, sequence := 1)], map[])
  {
    hide TrimSpace, ByteLength;
  }

  lemma OnePolled(m: Message, me: string)
    requires m.to == me && m.sequence == 1
    ensures Poll(File([m], map[]), me, 0, 0, NoFault) == Some([m]) && For([m], me) == [m]
  {
    assert [m][1..] == [] && Select([], me, 0, 0) == [];
    assert Select([m], me, 0, 0) == [m] + Select([m][1..], me, 0, 0) == [m];
    assert For([m], me) == [m] + For([m][1..], me) == [m];
  }

  lemma HappenOne(l: Limits, w: World, me: string, e: Event, rest: seq<Event>)
    requires Allowed(w, me, e)
    ensures HappenAll(l, w, me, [e] + rest) == HappenAll(l, Happen(l, w, me, e), me, rest)
  {
    assert ([e] + rest)[1..] == rest;
  }

  lemma NothingMore(l: Limits, w: World, me: string)
    ensures HappenAll(l, w, me, []) == w
  {
  }

  lemma EventsHappen(l: Limits, sent: World, polled: World, untold: World, me: string, draft: Message, id: string,
      m: Message)
    requires m.to == me && m.sequence == 1 && sent == World(File([m], map[]), Consumer([], None))
    requires polled == World(sent.file, Consumer([], Some([m])))
    requires untold == World(File([m], map[me := 1]), polled.consumer)
    requires Send(l, EMPTY.file, draft, id, NoFault).1 == sent.file
    requires Poll(sent.file, me, 0, 0, NoFault) == Some([m])
    ensures Happen(l, EMPTY, me, SomeoneSends(draft, id, NoFault)) == sent
    ensures Happen(l, sent, me, Polls(0, 0, NoFault)) == polled
    ensures Happen(l, polled, me, Acks(LostAfter)) == untold
    ensures Happen(l, untold, me, Crashes) == World(untold.file, Consumer([Lost([m])], None))
  {
    hide Send, Poll;
    assert Watermark(sent.file, me) == 0;
  }

  /** One message sent, polled and acknowledged, the acknowledgement taking effect without being told,
      and a crash: the message is behind the watermark and the recipient never finished with it. */
  lemma UntoldAckLoses(l: Limits, me: string, draft: Message, id: string)
    requires Send(l, EMPTY.file, draft, id, NoFault).0.Ok? && TrimSpace(draft.to) == me
    ensures var events := [SomeoneSends(draft, id, NoFault), Polls(0, 0, NoFault), Acks(LostAfter), Crashes];
      var w := HappenAll(l, EMPTY, me, events);
      |For(w.file.messages, me)| == 1 && Watermark(w.file, me) == 1 && Finished(w.consumer.past) == []
  {
    hide Send, TrimSpace, Poll, For, Happen, HappenAll;
    var m := Trimmed(draft).(id := id, sequence := 1);
    SentOne(l, draft, id);
    OnePolled(m, me);
    var a, b, c, d := SomeoneSends(draft, id, NoFault), Polls(0, 0, NoFault), Acks(LostAfter), Crashes;
    var sent := World(File([m], map[]), Consumer([], None));
    var polled := World(sent.file, Consumer([], Some([m])));
    var untold := World(File([m], map[me := 1]), polled.consumer);
    var crashed := World(untold.file, Consumer([Lost([m])], None));
    EventsHappen(l, sent, polled, untold, me, draft, id, m);
    HappenOne(l, EMPTY, me, a, [b, c, d]);
    HappenOne(l, sent, me, b, [c, d]);
    HappenOne(l, polled, me, c, [d]);
    HappenOne(l, untold, me, d, []);
    assert [a] + [b, c, d] == [a, b, c, d] && [b] + [c, d] == [b, c, d] && [c] + [d] == [c, d] && [d] + [] == [d];
    NothingMore(l, crashed, me);
    PassedSnoc([], Lost([m]));
  }

  // ------------------------------------------------------------ the mailbox object

  lemma FullPage(found: seq<Message>, rest: seq<Message>)
    ensures Page(found + rest, |found|) == found
  {
    assert |rest| == 0 ==> found + rest == found;
  }

  lemma SelectStep(messages: seq<Message>, i: nat, found: seq<Message>, recipient: string, after: nat, mark: nat)
    requires i < |messages|
    ensures found + Select(messages[i..], recipient, after, mark) ==
      (if Unread(messages[i], recipient, after, mark) then found + [messages[i]] else found) +
      Select(messages[i + 1..], recipient, after, mark)
  {
    assert messages[i..][0] == messages[i] && messages[i..][1..] == messages[i + 1..];
  }

  class Box {
    const limits: Limits
    var file: File

    constructor (maxMessages: int, maxBody: int)
      ensures file == File([], map[])
      ensures limits == Limits(if maxMessages <= 0 then 4096 else maxMessages, if maxBody <= 0 then 65536 else maxBody)
    {
      limits := Limits(if maxMessages <= 0 then 4096 else maxMessages, if maxBody <= 0 then 65536 else maxBody);
      file := File([], map[]);
    }

    method SendMessage(draft: Message, id: string, fault: Fault) returns (result: Result<Message, MailError>)
      modifies `file
      ensures (result, file) == Send(limits, old(file), draft, id, fault)
    {
      var message := draft.(sender := TrimSpace(draft.sender), to := TrimSpace(draft.to), body :=
          TrimSpace(draft.body));
      if message.sender == "" || message.to == "" || message.body == "" {
        return Err(Incomplete);
      }
      if ByteLength(message.body) > limits.maxBody {
        return Err(TooLong);
      }
      if fault == CannotRead {
        return Err(OutsideFailure);
      }
      var state := file;
      if |state.messages| >= limits.maxMessages {
        return Err(Full);
      }
      if fault == NoRandom {
        return Err(OutsideFailure);
      }
      message := message.(id := id);
      message := message.(sequence := |state.messages| + 1);
      state := state.(messages := state.messages + [message]);
      if fault == CannotWrite {
        return Err(OutsideFailure);
      }
      file := state;
      result := if fault == LostAfter then Err(OutsideFailure) else Ok(message);
    }

    method PollMessages(recipient: string, after: nat, limit: int, fault: Fault) returns (result: Option<seq<Message>>)
      ensures result == Poll(file, recipient, after, limit, fault)
    {
      if fault == CannotRead {
        return None;
      }
      var size := if limit <= 0 then 100 else limit;
      var messages, mark := file.messages, Watermark(file, recipient);
      var found: seq<Message> := [];
      ghost var all := Select(messages, recipient, after, mark);
      for i := 0 to |messages|
        invariant found + Select(messages[i..], recipient, after, mark) == all && |found| < size
      {
        var message := messages[i];
        SelectStep(messages, i, found, recipient, after, mark);
        if message.to == recipient && message.sequence > after && message.sequence > mark {
          found := found + [message];
          if |found| == size {
            FullPage(found, Select(messages[i + 1..], recipient, after, mark));
            return Some(found);
          }
        }
      }
      assert found == all;
      result := Some(found);
    }

    method AckMessages(recipient: string, sequence: nat, fault: Fault) returns (ok: bool)
      modifies `file
      ensures (ok, file) == Ack(old(file), recipient, sequence, fault)
    {
      if fault == CannotRead {
        return false;
      }
      var state := file;
      if sequence > Watermark(state, recipient) {
        state := state.(acks := state.acks[recipient := sequence]);
      }
      if fault == CannotWrite {
        return false;
      }
      file := state;
      ok := fault != LostAfter;
    }
  }
}
