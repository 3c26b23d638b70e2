/** The event stream of one scan: `run_forwarder` and the terminal event that `run_scan` adds. */
module Stream {
  import opened Types
  import opened ScanStateCell

  /** minotari's events, with the payloads that reach Dart. */
  datatype ScanStatus =
    | FastSyncPhaseStarted(account: int)
    | FastSyncPhaseCompleted(account: int)
    | Started(account: int, fromHeight: nat)
    | Progress(account: int, currentHeight: nat, tipHeight: nat, blocksScanned: nat)
    | Completed(account: int, finalHeight: nat, totalBlocksScanned: nat)
    | Waiting(account: int, resumeInNanos: nat)
    | MoreBlocksAvailable(account: int, lastScannedHeight: nat)
    | Cancelled(account: int)
    | BudgetExhausted(account: int, lastScannedHeight: nat, tipHeight: nat)

  datatype ProcessingEvent =
    | Status(status: ScanStatus)
    | Ready(ready: seq<int>)
    | Updated(updated: seq<int>)
    | Reorg(reorg: seq<int>)
    | BlockProcessed(block: int)

  /** `ScanEventDto`. */
  datatype Event =
    | StartedDto(account: int, fromHeight: nat)
    | ProgressDto(account: int, currentHeight: nat, tipHeight: nat, blocksScanned: nat)
    | CompletedDto(account: int, finalHeight: nat, totalBlocksScanned: nat)
    | WaitingDto(account: int, resumeInSeconds: nat)
    | MoreBlocksAvailableDto(account: int, lastScannedHeight: nat)
    | TransactionsReady(ready: seq<int>)
    | TransactionsUpdated(updated: seq<int>)
    | ReorgDetected(reorg: seq<int>)
    | CancelledDto
    | SupersededDto
    | BudgetExhaustedDto(account: int, lastScannedHeight: nat, tipHeight: nat)
    | ErrorDto(message: string)

  const NANOS_PER_SECOND: nat := 1_000_000_000

  /** `map_processing_event`. */
  function MapEvent(e: ProcessingEvent): Option<Event> {
    match e
    case Ready(ready) => Some(TransactionsReady(ready))
    case Updated(updated) => Some(TransactionsUpdated(updated))
    case Reorg(reorg) => Some(ReorgDetected(reorg))
    case BlockProcessed(_) => None
    case Status(status) =>
      match status {
        case FastSyncPhaseStarted(_) | FastSyncPhaseCompleted(_) => None
        case Started(account, from) => Some(StartedDto(account, from))
        case Progress(account, current, tip, scanned) => Some(ProgressDto(account, current, tip, scanned))
        case Completed(account, final, total) => Some(CompletedDto(account, final, total))
        case Waiting(account, nanos) => Some(WaitingDto(account, nanos / NANOS_PER_SECOND))
        case MoreBlocksAvailable(account, last) => Some(MoreBlocksAvailableDto(account, last))
        case Cancelled(_) => Some(CancelledDto)
        case BudgetExhausted(account, last, tip) => Some(BudgetExhaustedDto(account, last, tip))
      }
  }

  predicate IsTerminal(e: Event) {
    e.CompletedDto? || e.CancelledDto? || e.SupersededDto? || e.BudgetExhaustedDto? || e.ErrorDto?
  }

  /** The scanner's events that belong on the stream before its end, in order. */
  function NonTerminal(es: seq<ProcessingEvent>): seq<Event> {
    if es == [] then []
    else
      var e := MapEvent(es[|es| - 1]);
      NonTerminal(es[..|es| - 1]) + (if e.Some? && !IsTerminal(e.value) then [e.value] else [])
  }

  /** The scanner's own last word, if it had one. */
  function LastTerminal(es: seq<ProcessingEvent>): Option<Event> {
    if es == [] then None
    else
      var e := MapEvent(es[|es| - 1]);
      if e.Some? && IsTerminal(e.value) then e else LastTerminal(es[..|es| - 1])
  }

  /** Each event of the scanner arrives as the one event that bears its name, with every payload in
      its own field; waiting times are whole seconds, rounded down; the phases of a fast sync and
      single blocks are not passed on. */
  lemma PayloadsKept(e: ProcessingEvent)
    ensures MapEvent(e).None? <==>
              e.BlockProcessed? || (e.Status? && (e.status.FastSyncPhaseStarted? || e.status.FastSyncPhaseCompleted?))
    ensures MapEvent(e).Some? ==>
              var to := MapEvent(e).value;
              && (to.TransactionsReady? <==> e.Ready?) && (to.TransactionsReady? ==> to.ready == e.ready)
              && (to.TransactionsUpdated? <==> e.Updated?) && (to.TransactionsUpdated? ==> to.updated == e.updated)
              && (to.ReorgDetected? <==> e.Reorg?) && (to.ReorgDetected? ==> to.reorg == e.reorg)
              && !to.SupersededDto? && !to.ErrorDto?
    ensures MapEvent(e).Some? && e.Status? ==> Arrives(e.status, MapEvent(e).value)
    ensures MapEvent(e).Some? && IsTerminal(MapEvent(e).value) <==>
              e.Status? && (e.status.Completed? || e.status.Cancelled? || e.status.BudgetExhausted?)
  {
    if MapEvent(e).Some? && e.Status? {
      StatusArrives(e);
    }
  }

  predicate Arrives(from: ScanStatus, to: Event) {
    && (to.StartedDto? <==> from.Started?)
    && (to.StartedDto? ==> to.account == from.account && to.fromHeight == from.fromHeight)
    && (to.ProgressDto? <==> from.Progress?)
    && (to.ProgressDto? ==> to.account == from.account && to.currentHeight == from.currentHeight
                            && to.tipHeight == from.tipHeight && to.blocksScanned == from.blocksScanned)
    && (to.CompletedDto? <==> from.Completed?)
    && (to.CompletedDto? ==> to.account == from.account && to.finalHeight == from.finalHeight
                             && to.totalBlocksScanned == from.totalBlocksScanned)
    && (to.WaitingDto? <==> from.Waiting?)
    && (to.WaitingDto? ==> to.account == from.account
                           && to.resumeInSeconds * 1_000_000_000 <= from.resumeInNanos < (to.resumeInSeconds + 1) * 1_000_000_000)
    && (to.MoreBlocksAvailableDto? <==> from.MoreBlocksAvailable?)
    && (to.MoreBlocksAvailableDto? ==> to.account == from.account && to.lastScannedHeight == from.lastScannedHeight)
    && (to.CancelledDto? <==> from.Cancelled?)
    && (to.BudgetExhaustedDto? <==> from.BudgetExhausted?)
    && (to.BudgetExhaustedDto? ==> to.account == from.account && to.lastScannedHeight == from.lastScannedHeight
                                   && to.tipHeight == from.tipHeight)
  }

  lemma StatusArrives(e: ProcessingEvent)
    requires e.Status? && MapEvent(e).Some?
    ensures Arrives(e.status, MapEvent(e).value)
  {
    if e.status.Waiting? {
      assert e.status.resumeInNanos / NANOS_PER_SECOND == MapEvent(e).value.resumeInSeconds;
    }
  }

  /** The scanner reports its own ending. */
  predicate Ends(e: ProcessingEvent) {
    e.Status? && (e.status.Completed? || e.status.Cancelled? || e.status.BudgetExhausted?)
  }

  /** What is streamed keeps the order of the events, adds none and drops only those that have no
      event of their own and the endings. */
  lemma {:induction false} StreamedInOrder(a: seq<ProcessingEvent>, b: seq<ProcessingEvent>)
    ensures NonTerminal(a + b) == NonTerminal(a) + NonTerminal(b)
    decreases |b|
  {
    if b == [] {
      assert a + b == a;
    } else {
      var last := |b| - 1;
      assert (a + b)[..|a + b| - 1] == a + b[..last];
      StreamedInOrder(a, b[..last]);
    }
  }

  lemma StreamedOne(e: ProcessingEvent)
    ensures NonTerminal([e]) == if MapEvent(e).None? || Ends(e) then [] else [MapEvent(e).value]
  {
    PayloadsKept(e);
    assert [e][..0] == [];
  }

  lemma EndsMeans(e: ProcessingEvent)
    ensures Ends(e) <==> MapEvent(e).Some? && IsTerminal(MapEvent(e).value)
  {
    PayloadsKept(e);
  }

  /** The scanner's last word is the last ending it reported, at `k`. */
  lemma {:induction false} LastWordIsLastEnding(es: seq<ProcessingEvent>) returns (k: Option<nat>)
    ensures LastTerminal(es) == if k.None? || k.value >= |es| then None else MapEvent(es[k.value])
    ensures k.None? ==> forall j :: 0 <= j < |es| ==> !Ends(es[j])
    ensures k.Some? ==> k.value < |es| && Ends(es[k.value]) && forall j :: k.value < j < |es| ==> !Ends(es[j])
    decreases |es|
  {
    k := None;
    if es != [] {
      var last := |es| - 1;
      EndsMeans(es[last]);
      hide Ends, MapEvent, IsTerminal;
      if Ends(es[last]) {
        k := Some(last);
      } else {
        k := LastWordIsLastEnding(es[..last]);
      }
    }
  }

  /** The first delivery from `from` on that the listener refuses, or `n`. */
  function FirstRefusal(accepts: nat -> bool, from: nat, n: nat): (k: nat)
    requires from <= n
    ensures from <= k <= n
    decreases n - from
  {
    if from == n then n else if !accepts(from) then from else FirstRefusal(accepts, from + 1, n)
  }

  /** What a listener that starts with delivery `from` is given of `es`: everything up to and
      including the first delivery it refuses. */
  function Given(es: seq<Event>, accepts: nat -> bool, from: nat): seq<Event> {
    var k := FirstRefusal(accepts, from, from + |es|) - from;
    if k < |es| then es[..k + 1] else es
  }

  lemma {:induction false} FirstRefusalIsFirst(accepts: nat -> bool, from: nat, n: nat)
    requires from <= n
    ensures var k := FirstRefusal(accepts, from, n);
            from <= k <= n && (k < n ==> !accepts(k)) && forall j :: from <= j < k ==> accepts(j)
    decreases n - from
  {
    if from < n && accepts(from) {
      FirstRefusalIsFirst(accepts, from + 1, n);
    }
  }

  /** `Given` is characterised without its definition: a prefix, refused nowhere but at its end,
      and complete unless refused there. */
  lemma GivenMeans(es: seq<Event>, accepts: nat -> bool, from: nat)
    ensures var d := Given(es, accepts, from);
            && d <= es
            && (forall j :: from <= j < from + |d| - 1 ==> accepts(j))
            && (|d| < |es| ==> |d| > 0 && !accepts(from + |d| - 1))
  {
    FirstRefusalIsFirst(accepts, from, from + |es|);
  }

  /** No other sequence of deliveries fits that description. */
  lemma GivenIsTheOnly(es: seq<Event>, accepts: nat -> bool, from: nat, d: seq<Event>)
    requires d <= es
    requires forall j :: from <= j < from + |d| - 1 ==> accepts(j)
    requires |d| < |es| ==> |d| > 0 && !accepts(from + |d| - 1)
    ensures d == Given(es, accepts, from)
  {
    FirstRefusalIsFirst(accepts, from, from + |es|);
  }

  predicate Refused(es: seq<Event>, accepts: nat -> bool, from: nat) {
    FirstRefusal(accepts, from, from + |es|) < from + |es|
  }

  lemma {:induction false} FirstRefusalGrows(accepts: nat -> bool, from: nat, n: nat)
    requires from <= n
    ensures FirstRefusal(accepts, from, n + 1) ==
            (if FirstRefusal(accepts, from, n) < n then FirstRefusal(accepts, from, n)
             else if accepts(n) then n + 1 else n)
    decreases n - from
  {
    if from < n {
      FirstRefusalGrows(accepts, from + 1, n);
    }
  }

  /** One more event reaches the listener exactly if it has refused none before. */
  lemma GivenGrows(es: seq<Event>, e: Event, accepts: nat -> bool, from: nat)
    ensures Given(es + [e], accepts, from) ==
            (if Refused(es, accepts, from) then Given(es, accepts, from) else es + [e])
    ensures Refused(es + [e], accepts, from) <==> Refused(es, accepts, from) || !accepts(from + |es|)
    ensures !Refused(es, accepts, from) ==> Given(es, accepts, from) == es
  {
    FirstRefusalIsFirst(accepts, from, from + |es|);
    FirstRefusalGrows(accepts, from, from + |es|);
  }

  /** The Dart stream: it takes what it is given and may answer that it is closed. */
  class Sink {
    const accepts: nat -> bool
    var delivered: seq<Event>

    constructor (accepts: nat -> bool)
      ensures this.accepts == accepts && delivered == []
    {
      this.accepts := accepts;
      delivered := [];
    }

    method Add(e: Event) returns (ok: bool)
      modifies this
      ensures delivered == old(delivered) + [e]
      ensures ok == accepts(|old(delivered)|)
    {
      ok := accepts(|delivered|);
      delivered := delivered + [e];
    }
  }

  /** The scanner's event queue, closed when it is empty. */
  class Receiver {
    var queue: seq<ProcessingEvent>

    constructor (events: seq<ProcessingEvent>)
      ensures queue == events
    {
      queue := events;
    }

    method Recv() returns (e: Option<ProcessingEvent>)
      modifies this
      ensures old(queue) == [] ==> e == None && queue == []
      ensures old(queue) != [] ==> e == Some(old(queue)[0]) && queue == old(queue)[1..]
    {
      if queue == [] {
        return None;
      }
      e := Some(queue[0]);
      queue := queue[1..];
    }
  }

  /** Reading one more event. */
  lemma ReadOne(seen: seq<ProcessingEvent>, e: ProcessingEvent)
    ensures var mapped := MapEvent(e);
            var read := seen + [e];
            && NonTerminal(read) == (if mapped.Some? && !IsTerminal(mapped.value)
                                     then NonTerminal(seen) + [mapped.value] else NonTerminal(seen))
            && LastTerminal(read) == (if mapped.Some? && IsTerminal(mapped.value) then mapped else LastTerminal(seen))
  {
    var read := seen + [e];
    assert read[..|read| - 1] == seen;
  }

  /** What the forwarder has yet to handle: the event it has taken, then the queue. */
  function Pending(event: Option<ProcessingEvent>, queue: seq<ProcessingEvent>): seq<ProcessingEvent> {
    if event.Some? then [event.value] + queue else queue
  }

  lemma PendingMoves(seen: seq<ProcessingEvent>, e: ProcessingEvent, queue: seq<ProcessingEvent>)
    ensures seen + Pending(Some(e), queue) == (seen + [e]) + queue
    ensures queue != [] ==> Pending(Some(queue[0]), queue[1..]) == queue
    ensures queue == [] ==> Pending(None, queue) == queue
  {
  }

  /** Passes one event on unless an earlier one was refused; the first refusal cancels the scan. */
  method Deliver(e: Event, sinkOpen: bool, token: CancellationToken, sink: Sink,
                 ghost sent: seq<Event>, ghost before: seq<Event>) returns (open: bool)
    requires sinkOpen <==> !Refused(sent, sink.accepts, |before|)
    requires sink.delivered == before + Given(sent, sink.accepts, |before|)
    modifies token, sink
    ensures open ==> sinkOpen
    ensures open <==> !Refused(sent + [e], sink.accepts, |before|)
    ensures sink.delivered == before + Given(sent + [e], sink.accepts, |before|)
    ensures token.fired <==> old(token.fired) || (sinkOpen && !open)
  {
    GivenGrows(sent, e, sink.accepts, |before|);
    open := sinkOpen;
    if open {
      open := sink.Add(e);
      if !open {
        token.Cancel();
      }
    }
  }

  /** `run_forwarder`. */
  method RunForwarder(rx: Receiver, token: CancellationToken, sink: Sink) returns (terminal: Option<Event>)
    modifies rx, token, sink
    ensures rx.queue == []
    ensures terminal == LastTerminal(old(rx.queue))
    ensures sink.delivered ==
            old(sink.delivered) + Given(NonTerminal(old(rx.queue)), sink.accepts, |old(sink.delivered)|)
    ensures token.fired <==> old(token.fired) || Refused(NonTerminal(old(rx.queue)), sink.accepts, |old(sink.delivered)|)
  {
    ghost var from := |sink.delivered|;
    ghost var seen: seq<ProcessingEvent> := [];
    terminal := None;
    var sinkOpen := true;
    var event := rx.Recv();
    while event.Some?
      invariant event.None? ==> rx.queue == []
      invariant old(rx.queue) == seen + Pending(event, rx.queue)
      invariant terminal == LastTerminal(seen)
      invariant sinkOpen <==> !Refused(NonTerminal(seen), sink.accepts, from)
      invariant sink.delivered == old(sink.delivered) + Given(NonTerminal(seen), sink.accepts, from)
      invariant token.fired <==> old(token.fired) || !sinkOpen
      decreases |rx.queue|, event.Some?
    {
      var mapped := MapEvent(event.value);
      ReadOne(seen, event.value);
      if mapped.Some? {
        if IsTerminal(mapped.value) {
          terminal := mapped;
        } else {
          sinkOpen := Deliver(mapped.value, sinkOpen, token, sink, NonTerminal(seen), old(sink.delivered));
        }
      }
      PendingMoves(seen, event.value, rx.queue);
      seen := seen + [event.value];
      event := rx.Recv();
    }
    assert old(rx.queue) == seen;
  }

  /** How the body of a scan comes out: it fails before it scans, it finds itself stopped before it
      scans, or it scans. */
  datatype Body =
    | FailsEarly(message: string)
    | StopsEarly(superseded: bool)
    | Scans(events: seq<ProcessingEvent>, failure: Option<string>, superseded: bool)

  /** The terminal event of a scan. */
  function TerminalOf(body: Body): Event {
    match body
    case FailsEarly(message) => ErrorDto(message)
    case StopsEarly(superseded) => if superseded then SupersededDto else CancelledDto
    case Scans(events, failure, superseded) =>
      if failure.Some? then ErrorDto(failure.value)
      else if superseded then SupersededDto
      else if LastTerminal(events).Some? then LastTerminal(events).value
      else CancelledDto
  }

  function EventsOf(body: Body): seq<Event> {
    if body.Scans? then NonTerminal(body.events) else []
  }

  /** `run_scan` around `claim_and_scan`: the events the scanner streams, then the terminal one. */
  method RunScan(body: Body, token: CancellationToken, sink: Sink) returns (ok: bool)
    modifies token, sink
    ensures sink.delivered == old(sink.delivered)
                              + Given(EventsOf(body), sink.accepts, |old(sink.delivered)|) + [TerminalOf(body)]
    ensures token.fired <==> old(token.fired) || Refused(EventsOf(body), sink.accepts, |old(sink.delivered)|)
    ensures ok <==> !TerminalOf(body).ErrorDto?
  {
    var terminal: Event;
    match body {
      case FailsEarly(message) => terminal := ErrorDto(message);
      case StopsEarly(superseded) => terminal := if superseded then SupersededDto else CancelledDto;
      case Scans(events, failure, superseded) =>
        var rx := new Receiver(events);
        var last := RunForwarder(rx, token, sink);
        terminal := if failure.Some? then ErrorDto(failure.value)
                    else if superseded then SupersededDto
                    else if last.Some? then last.value
                    else CancelledDto;
    }
    LastTerminalIsTerminal(if body.Scans? then body.events else []);
    var _ := sink.Add(terminal);
    ok := !terminal.ErrorDto?;
  }

  lemma {:induction false} LastTerminalIsTerminal(es: seq<ProcessingEvent>)
    ensures LastTerminal(es).Some? ==> IsTerminal(LastTerminal(es).value) && !LastTerminal(es).value.ErrorDto?
    ensures LastTerminal(es).Some? ==> !LastTerminal(es).value.SupersededDto?
    decreases |es|
  {
    if es == [] {
    } else {
      LastTerminalIsTerminal(es[..|es| - 1]);
    }
  }

  lemma {:induction false} NonTerminalIsNonTerminal(es: seq<ProcessingEvent>)
    ensures forall k :: 0 <= k < |NonTerminal(es)| ==> !IsTerminal(NonTerminal(es)[k])
    decreases |es|
  {
    if es == [] {
    } else {
      NonTerminalIsNonTerminal(es[..|es| - 1]);
    }
  }

  /** Every stream has exactly one terminal event, and it is the last; `Superseded` and `Error` never
      come out of the scanner's events. */
  lemma OneTerminalLast(body: Body, accepts: nat -> bool, from: nat)
    ensures var stream := Given(EventsOf(body), accepts, from) + [TerminalOf(body)];
            forall k :: 0 <= k < |stream| ==> (IsTerminal(stream[k]) <==> k == |stream| - 1)
    ensures TerminalOf(body).SupersededDto? <==>
              (body.StopsEarly? && body.superseded) || (body.Scans? && body.failure.None? && body.superseded)
    ensures TerminalOf(body).ErrorDto? <==> body.FailsEarly? || (body.Scans? && body.failure.Some?)
  {
    GivenMeans(EventsOf(body), accepts, from);
    if body.Scans? {
      LastTerminalIsTerminal(body.events);
      NonTerminalIsNonTerminal(body.events);
    }
  }

  /** Which event that is: an error that kept the scan from its end comes first, then a stop or a
      replacement, then the last ending the scanner reported, at `k`; without any it is `Cancelled`. */
  lemma TerminalSpelled(body: Body) returns (k: Option<nat>)
    ensures body.FailsEarly? ==> TerminalOf(body) == ErrorDto(body.message)
    ensures body.StopsEarly? ==> TerminalOf(body) == if body.superseded then SupersededDto else CancelledDto
    ensures body.Scans? && body.failure.Some? ==> TerminalOf(body) == ErrorDto(body.failure.value)
    ensures body.Scans? && body.failure.None? && body.superseded ==> TerminalOf(body) == SupersededDto
    ensures body.Scans? && body.failure.None? && !body.superseded ==>
              match k
              case None => TerminalOf(body) == CancelledDto && forall j :: 0 <= j < |body.events| ==> !Ends(body.events[j])
              case Some(at) =>
                && at < |body.events| && Ends(body.events[at]) && Some(TerminalOf(body)) == MapEvent(body.events[at])
                && forall j :: at < j < |body.events| ==> !Ends(body.events[j])
  {
    k := None;
    if body.Scans? {
      k := LastWordIsLastEnding(body.events);
      if k.Some? {
        EndsMeans(body.events[k.value]);
      }
      hide Ends, MapEvent, LastTerminal;
    }
  }
}
