/** The transition system and the stream agree on how a scan can end. */
module Endings {
  import opened Types
  import P = Protocol
  import S = Stream

  /** The ending that a terminal event reports. */
  function EndingOf(e: S.Event): Option<P.Ending> {
    match e
    case CompletedDto(_, _, _) => Some(P.Completed)
    case CancelledDto => Some(P.Cancelled)
    case SupersededDto => Some(P.Superseded)
    case BudgetExhaustedDto(_, _, _) => Some(P.BudgetExhausted)
    case ErrorDto(_) => Some(P.Error)
    case _ => None
  }

  /** Whatever a scanner reports, its scan's terminal event is one the transition system allows. */
  lemma EveryTerminalIsAnEnding(sh: P.Shared, i: CallId, body: S.Body) returns (ch: P.Choice)
    requires body.Scans? && (body.superseded <==> i in sh.scans.superseded)
    ensures EndingOf(S.TerminalOf(body)) == Some(P.ScanEnding(sh, i, ch))
    ensures ch.ok <==> body.failure.None?
  {
    var last := S.LastTerminal(body.events);
    S.LastTerminalIsTerminal(body.events);
    ch := P.Choice(body.failure.None?, if last.Some? then EndingOf(last.value).value else P.Cancelled, None);
  }

  lemma LastOfOne(e: S.ProcessingEvent)
    ensures S.LastTerminal([e]) ==
            (if S.MapEvent(e).Some? && S.IsTerminal(S.MapEvent(e).value) then S.MapEvent(e) else None)
  {
    S.ReadOne([], e);
    assert [] + [e] == [e];
  }

  /** And every ending the transition system allows is reported by some scanner. */
  lemma EveryEndingIsATerminal(sh: P.Shared, i: CallId, ch: P.Choice) returns (body: S.Body)
    ensures body.Scans? && (body.superseded <==> i in sh.scans.superseded)
    ensures EndingOf(S.TerminalOf(body)) == Some(P.ScanEnding(sh, i, ch))
    ensures ch.ok <==> body.failure.None?
  {
    var event := if ch.ending.Completed? then S.Completed(0, 0, 0)
                 else if ch.ending.BudgetExhausted? then S.BudgetExhausted(0, 0, 0)
                 else S.Cancelled(0);
    LastOfOne(S.Status(event));
    body := S.Scans([S.Status(event)], if ch.ok then None else Some("failed"), i in sh.scans.superseded);
  }

  /** A scan stopped before its scanner ran ends as both say. */
  lemma StoppedEarly(sh: P.Shared, i: CallId)
    ensures EndingOf(S.TerminalOf(S.StopsEarly(i in sh.scans.superseded))) == Some(P.StoppedEvent(sh, i))
  {
  }
}
