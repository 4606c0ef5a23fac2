/** The saturation branch is reached: the shortest run into it, and what late linking shows of it. */
module CallOverrun {
  import opened Prelude
  import opened Text
  import opened CallDomain
  import opened CallStore
  import opened CallSteps
  import opened CallRuns
  import opened CallLateLink
  import opened CallService

  const OPENING := Begin(0, None, Twilio, None, Outbound, Pstn, None, 0)

  /** An event at the last sequence number for a target two steps away. */
  function LastReport(callId: Option<CallId>, providerCallId: Option<string>): Report {
    Report(Twilio, callId, providerCallId, "e", Active, Some(U64_MAX), 0)
  }

  lemma PlainText()
    ensures Trim("e") == "e" && Trim("p") == "p"
  {
    TrimFixpoint("e");
    TrimFixpoint("p");
  }

  lemma RunOne(op: Op)
    ensures Valid(EMPTY) && Run([op]) == Step(EMPTY, op)
  {
    hide Step;
    assert [op][..0] == [];
    assert RunFrom(EMPTY, []) == EMPTY;
  }

  lemma RunTwo(a: Op, b: Op)
    ensures Run([a, b]) == Step(Run([a]), b)
  {
    hide Step;
    assert [a, b][..1] == [a];
  }

  /** After the opening, the call waits for its provider with the last sequence number 2. */
  lemma OpeningRun()
    ensures var db := Run([OPENING]);
            && db.calls.Keys == {0} && 0 in db.log && 0 in db.events && db.events[0] == map[]
            && db.calls[0].state == Initiating && db.calls[0].lastSequence == Some(2)
            && db.calls[0].provider == Twilio && db.calls[0].providerCallId == None
            && Consistent(db.calls[0], db.log[0])
            && db.byProviderCall == map[] && db.unmatched == []
  {
    hide Walk, Consistent, Run;
    var row := NewCall(None, Twilio, Outbound, Pstn, 0);
    OutboundSteps(row, 0);
    RunOne(OPENING);
    BeginCreates(EMPTY, OPENING, 0);
  }

  /** A run of two operations after which the call's row no longer agrees with its log. */
  lemma OverrunIsReached()
    ensures var ops := [OPENING, Receive(LastReport(Some(0), None))];
            && 0 in Run(ops).calls && 0 in Run(ops).log
            && !Consistent(Run(ops).calls[0], Run(ops).log[0]) && Overran(ops, 0)
  {
    hide Consistent, ApplyState, Overran, Run;
    var report := LastReport(Some(0), None);
    var ops := [OPENING, Receive(report)];
    var db := Run([OPENING]);
    OpeningRun();
    PlainText();
    RunTwo(OPENING, Receive(report));
    OverrunExample(db, 0, report);
    StepEffect(db, Receive(report), 0);
    RowAgreesWithLog(ops, 0);
  }

  /** The same report about a provider call: delivered after the link or replayed by it, it leaves different rows behind. */
  lemma LateLinkShowsTheOverrun()
    ensures var db, reports := Run([OPENING]), [LastReport(None, Some("p"))];
            && Setting(db, 0, "p", reports)
            && 0 in LinkedAfter(db, 0, "p", reports, 0).calls && 0 in LinkedAfter(db, 0, "p", reports, 1).calls
            && !Alike(File(LinkedAfter(db, 0, "p", reports, 0), 0), File(LinkedAfter(db, 0, "p", reports, 1), 0))
  {
    hide LinkedAfter, Alike, Run, Consistent, Overrun, Trim;
    var db, reports := Run([OPENING]), [LastReport(None, Some("p"))];
    OpeningRun();
    PlainText();
    assert Setting(db, 0, "p", reports);
    var d, m := AtLink(db, 0, "p"), AsMessage(reports[0]);
    NothingPending(db, 0, "p");
    assert Overrun(d, m) by { FreshLastReportOverruns(d, m); }
    OneRelevant(reports[0], Twilio);
    OneOverrun(d, m);
    LateLinkIsInvisible(db, 0, "p", reports);
  }

  lemma NothingPending(db: Database, c: CallId, p: string)
    requires Valid(db) && c in db.calls && db.unmatched == []
    ensures AtLink(db, c, p) == File(db, c).(call := db.calls[c].(providerCallId := Some(p)))
  {
  }

  lemma FreshLastReportOverruns(d: Dossier, m: Message)
    requires d.call.state == Initiating && d.call.lastSequence == Some(2) && m.eventId !in d.events
    requires m.target == Active && m.sequence == Some(U64_MAX)
    ensures Overrun(d, m)
  {
    TwoStepsToActive();
  }

  lemma OneRelevant(report: Report, provider: CallProvider)
    requires IsFor(report, provider)
    ensures Relevant([report], provider) == [AsMessage(report)]
  {
    hide Trim;
    assert [report][..0] == [];
  }

  lemma OneOverrun(d: Dossier, m: Message)
    requires Overrun(d, m)
    ensures !NoOverruns(d, [m])
  {
    hide Overrun;
    assert [m][..0] == [];
  }
}
