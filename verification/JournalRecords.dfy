/**
 * What the indexes of a journal say of its records: every entry, turn, attempt, step and label is
 * what some record made it, and every record is still told.
 */
module JournalRecords {
  import opened Options
  import opened ModelOutput
  import opened JournalModel
  import opened JournalInvariant
  import opened JournalRules
  import opened JournalPreservation
  import opened JournalHistory

  // ------------------------------------------------------------------ what each index says

  ghost predicate Begins(p: Payload) {
    p.TurnStarted? || p.TurnRetried? || p.CollaborationTurnStarted?
  }

  ghost predicate Appends(records: seq<Record>, i: nat) {
    i < |records| && records[i].AppendEntry?
  }

  ghost predicate Retains(records: seq<Record>, i: nat, entry: Entry) {
    Appends(records, i) && records[i].entry == entry
  }

  /** Every append is retained under its identity with its sequence, and nothing else is. */
  ghost predicate EntriesTold(
    records: seq<Record>, entries: map<EntryId, Entry>, sequences: map<EntryId, nat>)
  {
    && entries.Keys == sequences.Keys
    && (forall i: nat, entry :: Retains(records, i, entry) ==>
          entry.id in entries && entries[entry.id] == entry && sequences[entry.id] == i + 1)
    && (forall e <- entries :: 1 <= sequences[e] && Retains(records, sequences[e] - 1, entries[e]))
  }

  ghost predicate StartsTurn(records: seq<Record>, i: nat, t: TurnId) {
    Appends(records, i) && Begins(records[i].entry.payload) && records[i].entry.payload.turn == t
  }

  /** A turn was started by the agent and at the entry the index names, and every start is indexed. */
  ghost predicate StartsTold(records: seq<Record>, starts: map<TurnId, TurnStart>) {
    && (forall i: nat, t :: StartsTurn(records, i, t) ==>
          t in starts && starts[t] == TurnStart(records[i].entry.payload.agent, records[i].entry.id))
    && (forall t <- starts :: exists i: nat :: StartsTurn(records, i, t))
  }

  ghost predicate FinishesWith(records: seq<Record>, i: nat, fact: TurnFinish) {
    i < |records| && records[i].FinishTurn? && records[i].finish == fact
  }

  ghost predicate FinishesTold(records: seq<Record>, finishes: map<TurnId, TurnFinish>) {
    && (forall i: nat, fact :: FinishesWith(records, i, fact) ==>
          fact.turn in finishes && finishes[fact.turn] == fact)
    && (forall t <- finishes :: exists i: nat :: FinishesWith(records, i, finishes[t]))
  }

  ghost predicate Authorizes(records: seq<Record>, i: nat, fact: Authorization) {
    i < |records| && records[i].AuthorizeAttempt? && records[i].authorization == fact
  }

  /** The record ends an attempt with this terminal. */
  ghost predicate EndsAttempt(records: seq<Record>, i: nat, terminal: Terminal) {
    && i < |records|
    && (|| (records[i].FinishAttempt? && records[i].terminal == terminal)
        || (records[i].FinishCompaction? && records[i].collected.terminal == terminal))
  }

  /** Attempts carry the authorization and the terminal their records gave them, and no other. */
  ghost predicate AttemptsTold(records: seq<Record>, attempts: map<AttemptId, Attempt>) {
    && (forall i: nat, fact :: Authorizes(records, i, fact) ==>
          fact.attempt in attempts && attempts[fact.attempt].authorization == fact)
    && (forall a <- attempts :: exists i: nat :: Authorizes(records, i, attempts[a].authorization))
    && (forall i: nat, terminal :: EndsAttempt(records, i, terminal) ==>
          terminal.attempt in attempts && attempts[terminal.attempt].terminal == Some(terminal))
    && (forall a <- attempts :: attempts[a].terminal.Some? ==>
          exists i: nat :: EndsAttempt(records, i, attempts[a].terminal.value))
  }

  /** The attempts of a record list in the order they were authorized. */
  ghost function AuthorizedIn(records: seq<Record>): seq<AttemptId> {
    if records == [] then []
    else
      var r := records[|records| - 1];
      AuthorizedIn(records[..|records| - 1]) +
      (if r.AuthorizeAttempt? then [r.authorization.attempt] else [])
  }

  ghost predicate Collects(records: seq<Record>, i: nat, a: AttemptId) {
    i < |records| && records[i].FinishCompaction? && records[i].collected.terminal.attempt == a
  }

  ghost predicate CompactionsTold(records: seq<Record>, compactions: map<AttemptId, nat>) {
    && (forall i: nat, a :: Collects(records, i, a) ==> a in compactions && compactions[a] == i)
    && (forall a <- compactions :: Collects(records, compactions[a], a))
  }

  ghost predicate RecordsStep(records: seq<Record>, i: nat, step: StepId) {
    && Appends(records, i) && records[i].entry.payload.AssistantOutput?
    && records[i].entry.payload.step == step
  }

  ghost predicate StepsTold(records: seq<Record>, steps: set<StepId>) {
    forall step :: step in steps <==> exists i: nat :: RecordsStep(records, i, step)
  }

  ghost predicate Labels(r: Record, e: EntryId) {
    r.SetEntryLabel? && r.target == e
  }

  /** Record `i` is the last one to label the entry. */
  ghost predicate LastLabels(records: seq<Record>, i: nat, e: EntryId) {
    i < |records| && Labels(records[i], e) && forall j :: i < j < |records| ==> !Labels(records[j], e)
  }

  ghost predicate LabelsTold(records: seq<Record>, labels: map<EntryId, string>) {
    && (forall i: nat, e :: LastLabels(records, i, e) ==>
          if records[i].text.Some? then e in labels && labels[e] == records[i].text.value
          else e !in labels)
    && (forall e <- labels :: exists i: nat :: LastLabels(records, i, e))
  }

  /** Everything the indexes hold is what the records say, and everything the records say is held. */
  ghost predicate Told(s: JournalState) {
    && EntriesTold(s.records, s.entries, s.entrySequences)
    && StartsTold(s.records, s.starts)
    && FinishesTold(s.records, s.finishes)
    && AttemptsTold(s.records, s.attempts)
    && s.attemptOrder == AuthorizedIn(s.records)
    && CompactionsTold(s.records, s.compactions)
    && StepsTold(s.records, s.steps)
    && LabelsTold(s.records, s.labels)
  }

  // ------------------------------------------------------------------ one more record

  lemma EntriesGrow(
    records: seq<Record>, entries: map<EntryId, Entry>, sequences: map<EntryId, nat>, r: Record)
    requires EntriesTold(records, entries, sequences)
    requires r.AppendEntry? ==> r.entry.id !in entries && r.sequence == |records| + 1
    ensures if r.AppendEntry?
            then EntriesTold(records + [r], entries[r.entry.id := r.entry],
                             sequences[r.entry.id := r.sequence])
            else EntriesTold(records + [r], entries, sequences)
  {
    var more := records + [r];
    forall i: nat, entry
      ensures Retains(more, i, entry) <==>
        Retains(records, i, entry) || (i == |records| && r.AppendEntry? && r.entry == entry)
    {
    }
    hide Retains;
  }

  lemma StartsAt(records: seq<Record>, r: Record)
    requires r.AppendEntry? && Begins(r.entry.payload)
    ensures StartsTurn(records + [r], |records|, r.entry.payload.turn)
  {
  }

  lemma StartsOnly(records: seq<Record>, r: Record, t: TurnId)
    requires StartsTurn(records + [r], |records|, t)
    ensures r.AppendEntry? && Begins(r.entry.payload) && t == r.entry.payload.turn
  {
  }

  lemma StartsNone(records: seq<Record>, r: Record, t: TurnId)
    requires !(r.AppendEntry? && Begins(r.entry.payload))
    ensures !StartsTurn(records + [r], |records|, t)
  {
  }

  lemma StartsGrow(records: seq<Record>, starts: map<TurnId, TurnStart>, r: Record)
    requires StartsTold(records, starts)
    requires r.AppendEntry? && Begins(r.entry.payload) ==> r.entry.payload.turn !in starts
    ensures if r.AppendEntry? && Begins(r.entry.payload)
            then StartsTold(records + [r], starts[r.entry.payload.turn :=
                                                    TurnStart(r.entry.payload.agent, r.entry.id)])
            else StartsTold(records + [r], starts)
  {
    var more := records + [r];
    forall i: nat, t
      ensures StartsTurn(more, i, t) <==>
        StartsTurn(records, i, t) || (i == |records| && StartsTurn(more, |records|, t))
    {
    }
    hide StartsTurn, Appends;
    if r.AppendEntry? && Begins(r.entry.payload) {
      assert StartsTurn(more, |records|, r.entry.payload.turn) by { StartsAt(records, r); }
      forall i: nat, t | StartsTurn(more, i, t) && i == |records| ensures t == r.entry.payload.turn {
        StartsOnly(records, r, t);
      }
    } else {
      forall t ensures !StartsTurn(more, |records|, t) { StartsNone(records, r, t); }
    }
  }

  lemma FinishesGrow(records: seq<Record>, finishes: map<TurnId, TurnFinish>, r: Record)
    requires FinishesTold(records, finishes)
    requires r.FinishTurn? ==> r.finish.turn !in finishes
    ensures if r.FinishTurn? then FinishesTold(records + [r], finishes[r.finish.turn := r.finish])
            else FinishesTold(records + [r], finishes)
  {
    var more := records + [r];
    forall i: nat, fact
      ensures FinishesWith(more, i, fact) <==>
        FinishesWith(records, i, fact) || (i == |records| && r.FinishTurn? && r.finish == fact)
    {
    }
    hide FinishesWith;
    assert r.FinishTurn? ==> FinishesWith(more, |records|, r.finish);
    forall t <- finishes ensures exists i: nat :: FinishesWith(more, i, finishes[t]) {
      var i: nat :| FinishesWith(records, i, finishes[t]);
      assert FinishesWith(more, i, finishes[t]);
    }
  }

  lemma AuthorizationsGrow(records: seq<Record>, attempts: map<AttemptId, Attempt>, r: Record)
    requires AttemptsTold(records, attempts)
    requires r.AuthorizeAttempt? && r.authorization.attempt !in attempts
    ensures AttemptsTold(records + [r], attempts[r.authorization.attempt := Attempt(r.authorization, None)])
  {
    var more := records + [r];
    forall i: nat, fact
      ensures Authorizes(more, i, fact) <==>
        Authorizes(records, i, fact) || (i == |records| && fact == r.authorization)
    {
    }
    forall i: nat, terminal
      ensures EndsAttempt(more, i, terminal) <==> EndsAttempt(records, i, terminal)
    {
    }
    hide Authorizes, EndsAttempt;
    assert Authorizes(more, |records|, r.authorization);
    forall a <- attempts ensures exists i: nat :: Authorizes(more, i, attempts[a].authorization) {
      var i: nat :| Authorizes(records, i, attempts[a].authorization);
      assert Authorizes(more, i, attempts[a].authorization);
    }
  }

  lemma TerminalsGrow(
    records: seq<Record>, attempts: map<AttemptId, Attempt>, r: Record, terminal: Terminal)
    requires AttemptsTold(records, attempts)
    requires EndsAttempt(records + [r], |records|, terminal)
    requires terminal.attempt in attempts && attempts[terminal.attempt].terminal.None?
    ensures AttemptsTold(records + [r], attempts[terminal.attempt :=
                                          attempts[terminal.attempt].(terminal := Some(terminal))])
  {
    var more := records + [r];
    forall i: nat, fact ensures Authorizes(more, i, fact) <==> Authorizes(records, i, fact) {
    }
    forall i: nat, other
      ensures EndsAttempt(more, i, other) <==>
        EndsAttempt(records, i, other) || (i == |records| && other == terminal)
    {
    }
    hide Authorizes, EndsAttempt;
  }

  lemma AttemptsRest(records: seq<Record>, attempts: map<AttemptId, Attempt>, r: Record)
    requires AttemptsTold(records, attempts)
    requires !r.AuthorizeAttempt? && !r.FinishAttempt? && !r.FinishCompaction?
    ensures AttemptsTold(records + [r], attempts)
  {
    var more := records + [r];
    forall i: nat, fact ensures Authorizes(more, i, fact) <==> Authorizes(records, i, fact) {
    }
    forall i: nat, terminal
      ensures EndsAttempt(more, i, terminal) <==> EndsAttempt(records, i, terminal)
    {
    }
    hide Authorizes, EndsAttempt;
  }

  lemma CompactionsGrow(records: seq<Record>, compactions: map<AttemptId, nat>, r: Record)
    requires CompactionsTold(records, compactions)
    requires r.FinishCompaction? ==> r.collected.terminal.attempt !in compactions
    ensures if r.FinishCompaction?
            then CompactionsTold(records + [r], compactions[r.collected.terminal.attempt := |records|])
            else CompactionsTold(records + [r], compactions)
  {
    var more := records + [r];
    forall i: nat, a
      ensures Collects(more, i, a) <==>
        Collects(records, i, a)
        || (i == |records| && r.FinishCompaction? && r.collected.terminal.attempt == a)
    {
    }
    hide Collects;
  }

  lemma StepsGrow(records: seq<Record>, steps: set<StepId>, r: Record)
    requires StepsTold(records, steps)
    ensures if r.AppendEntry? && r.entry.payload.AssistantOutput?
            then StepsTold(records + [r], steps + {r.entry.payload.step})
            else StepsTold(records + [r], steps)
  {
    var more := records + [r];
    forall i: nat, step
      ensures RecordsStep(more, i, step) <==>
        RecordsStep(records, i, step)
        || (i == |records| && r.AppendEntry? && r.entry.payload.AssistantOutput?
            && r.entry.payload.step == step)
    {
    }
    hide RecordsStep;
    forall step ensures (exists i: nat :: RecordsStep(more, i, step)) <==>
        step in steps || (r.AppendEntry? && r.entry.payload.AssistantOutput? && r.entry.payload.step == step)
    {
      if step in steps {
        var i: nat :| RecordsStep(records, i, step);
        assert RecordsStep(more, i, step);
      } else if r.AppendEntry? && r.entry.payload.AssistantOutput? && r.entry.payload.step == step {
        assert RecordsStep(more, |records|, step);
      }
    }
  }

  lemma LabelsMove(records: seq<Record>, r: Record, i: nat, e: EntryId)
    ensures LastLabels(records + [r], i, e) <==>
      if Labels(r, e) then i == |records| else LastLabels(records, i, e)
  {
    var more := records + [r];
    assert more[|records|] == r && forall j :: 0 <= j < |records| ==> more[j] == records[j];
  }

  lemma LabelsGrow(records: seq<Record>, labels: map<EntryId, string>, r: Record)
    requires LabelsTold(records, labels)
    ensures if r.SetEntryLabel?
            then LabelsTold(records + [r], if r.text.Some? then labels[r.target := r.text.value]
                                           else labels - {r.target})
            else LabelsTold(records + [r], labels)
  {
    var more := records + [r];
    assert forall i: nat :: i < |records| ==> more[i] == records[i];
    forall i: nat, e
      ensures LastLabels(more, i, e) <==>
        if Labels(r, e) then i == |records| else LastLabels(records, i, e)
    {
      LabelsMove(records, r, i, e);
    }
    hide LastLabels;
    assert r.SetEntryLabel? ==> Labels(r, r.target) && LastLabels(more, |records|, r.target);
    forall e <- labels ensures exists i: nat :: LastLabels(more, i, e) {
      var i: nat :| LastLabels(records, i, e);
      assert LastLabels(more, if Labels(r, e) then |records| else i, e);
    }
  }

  // ------------------------------------------------------------------ every record keeps it

  lemma EmptyIsTold(session: string)
    ensures Told(Empty(session))
  {
  }

  lemma OrderGrows(records: seq<Record>, r: Record)
    ensures AuthorizedIn(records + [r]) ==
              AuthorizedIn(records) + (if r.AuthorizeAttempt? then [r.authorization.attempt] else [])
  {
    assert (records + [r])[..|records|] == records;
  }

  lemma AppendIsTold(s: JournalState, r: Record)
    requires Told(s) && r.AppendEntry? && AppendGuard(s, r.head, r.entry)
    requires r.sequence == |s.records| + 1
    ensures Told(Reduce(s, r))
  {
    hide EntriesTold, StartsTold, FinishesTold, AttemptsTold, CompactionsTold, StepsTold, LabelsTold;
    hide AuthorizedIn;
    EntriesGrow(s.records, s.entries, s.entrySequences, r);
    StartsGrow(s.records, s.starts, r);
    FinishesGrow(s.records, s.finishes, r);
    AttemptsRest(s.records, s.attempts, r);
    OrderGrows(s.records, r);
    CompactionsGrow(s.records, s.compactions, r);
    StepsGrow(s.records, s.steps, r);
    LabelsGrow(s.records, s.labels, r);
  }

  /** A record that appends nothing leaves the four indexes only an append writes. */
  lemma OthersAreTold(s: JournalState, r: Record)
    requires Told(s) && !r.AppendEntry?
    ensures EntriesTold(s.records + [r], s.entries, s.entrySequences)
    ensures StartsTold(s.records + [r], s.starts) && StepsTold(s.records + [r], s.steps)
    ensures !r.FinishTurn? ==> FinishesTold(s.records + [r], s.finishes)
    ensures !r.FinishCompaction? ==> CompactionsTold(s.records + [r], s.compactions)
    ensures !r.SetEntryLabel? ==> LabelsTold(s.records + [r], s.labels)
  {
    hide EntriesTold, StartsTold, FinishesTold, AttemptsTold, CompactionsTold, StepsTold, LabelsTold;
    EntriesGrow(s.records, s.entries, s.entrySequences, r);
    StartsGrow(s.records, s.starts, r);
    StepsGrow(s.records, s.steps, r);
    if !r.FinishTurn? { FinishesGrow(s.records, s.finishes, r); }
    if !r.FinishCompaction? { CompactionsGrow(s.records, s.compactions, r); }
    LabelsGrow(s.records, s.labels, r);
  }

  lemma FinishIsTold(s: JournalState, r: Record)
    requires Told(s) && r.FinishTurn? && FinishGuard(s, r.head, r.finish)
    ensures Told(Reduce(s, r))
  {
    hide EntriesTold, StartsTold, FinishesTold, AttemptsTold, CompactionsTold, StepsTold, LabelsTold;
    hide AuthorizedIn;
    OthersAreTold(s, r);
    FinishesGrow(s.records, s.finishes, r);
    AttemptsRest(s.records, s.attempts, r);
    OrderGrows(s.records, r);
  }

  lemma LabelsUnmoved(s: JournalState, r: Record)
    requires IsHeadMutation(r) && HeadGuard(s, r)
    ensures Reduce(s, r).labels == s.labels
  {
  }

  lemma HeadIsTold(s: JournalState, r: Record)
    requires Told(s) && IsHeadMutation(r) && HeadGuard(s, r)
    ensures Told(Reduce(s, r))
  {
    OthersAreTold(s, r);
    AttemptsRest(s.records, s.attempts, r);
    OrderGrows(s.records, r);
    RetainedFields(s, r);
    ContentUnmoved(s, r);
    LabelsUnmoved(s, r);
    hide EntriesTold, StartsTold, FinishesTold, AttemptsTold, CompactionsTold, StepsTold, LabelsTold;
    hide AuthorizedIn, HeadGuard, HeadMutated;
  }

  /** A collected attempt had no terminal yet, so it was not collected before. */
  lemma NotCollectedYet(records: seq<Record>, attempts: map<AttemptId, Attempt>,
                        compactions: map<AttemptId, nat>, a: AttemptId)
    requires AttemptsTold(records, attempts) && CompactionsTold(records, compactions)
    requires a in attempts && attempts[a].terminal.None?
    ensures a !in compactions
  {
    if a in compactions {
      var i := compactions[a];
      assert EndsAttempt(records, i, records[i].collected.terminal);
    }
  }

  lemma AttemptIsTold(s: JournalState, r: Record)
    requires Told(s) && IsAttemptRecord(r) && AttemptGuard(s, r)
    ensures Told(Reduce(s, r))
  {
    hide EntriesTold, StartsTold, FinishesTold, AttemptsTold, CompactionsTold, StepsTold, LabelsTold;
    hide AuthorizedIn;
    OthersAreTold(s, r);
    OrderGrows(s.records, r);
    LabelsGrow(s.records, s.labels, r);
    match r {
      case AuthorizeAttempt(_, _, _, _, _) => AuthorizationsGrow(s.records, s.attempts, r);
      case FinishAttempt(_, _, terminal) =>
        assert (s.records + [r])[|s.records|] == r;
        TerminalsGrow(s.records, s.attempts, r, terminal);
      case FinishCompaction(_, _, collected) =>
        assert (s.records + [r])[|s.records|] == r;
        TerminalsGrow(s.records, s.attempts, r, collected.terminal);
        NotCollectedYet(s.records, s.attempts, s.compactions, collected.terminal.attempt);
        CompactionsGrow(s.records, s.compactions, r);
      case SetEntryLabel(_, _, _, _) => AttemptsRest(s.records, s.attempts, r);
    }
  }

  lemma ToldStays(s: JournalState, r: Record)
    requires Inv(s) && Accepts(s, r) && Told(s)
    ensures Told(Reduce(s, r))
  {
    assert s.nextSequence == |s.records| + 1;
    hide Inv, Accepts, Reduce, Told;
    EnvelopeAccepted(s, r);
    if r.AppendEntry? {
      AppendAccepted(s, r);
      AppendIsTold(s, r);
    } else if r.FinishTurn? {
      FinishAccepted(s, r);
      FinishIsTold(s, r);
    } else if IsHeadMutation(r) {
      HeadMutationAccepted(s, r);
      HeadIsTold(s, r);
    } else {
      AttemptAccepted(s, r);
      AttemptIsTold(s, r);
    }
  }

  lemma {:induction false} RunIsTold(session: string, records: seq<Record>)
    requires Replay(session, records).Some?
    ensures Told(Replay(session, records).value)
  {
    hide Accepts, Reduce, Told;
    if records == [] {
      EmptyIsTold(session);
    } else {
      var last := |records| - 1;
      RunIsTold(session, records[..last]);
      ReplayHolds(session, records[..last]);
      ToldStays(Replay(session, records[..last]).value, records[last]);
    }
  }

  /** Every index of a reachable journal says exactly what its records say. */
  lemma IndexesTellRecords(s: JournalState)
    requires Reachable(s)
    ensures Told(s)
  {
    hide Told;
    ReplayOfOwnRecords(s);
    RunIsTold(s.session, s.records);
  }
}
