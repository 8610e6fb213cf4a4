/** The Sessions that reconciliation quarantines are the Sessions that leases are taken on. */
module ReconcileSessions {
  import S = Sessions
  import ST = SessionTheorems
  import SS = SessionStore
  import opened Reconcile
  import opened ReconcileTheorems
  import opened ReconcileRuns

  /** One directory seen by the store and by reconciliation: evidence and fence stand in both or in neither. */
  predicate SameSession(dir: S.Disk, s: Session) {
    (dir.record.quarantine.Some? <==> s.evidence.Some?) && (dir.fence.Some? <==> s.fence.Some?)
  }

  /** The store calls behind one Session's fence-and-quarantine. */
  function StoreCalls(dir: S.Disk, ev: S.Evidence, token: nat, input: S.Input): S.Disk {
    if dir.record.quarantine.Some? then
      if dir.fence.Some? then SS.Whole(dir, token, S.Mark(ev), input) else dir
    else SS.Whole(SS.Whole(dir, token, S.WriteFence(ev), input), token, S.Mark(ev), input)
  }

  /**
   * Reconciliation's Session writes are those calls: what they leave is the same directory, with the lease untouched.
   */
  lemma WritesAreStoreCalls(d: Disk, sid: string, ev: Evidence, dir: S.Disk, sev: S.Evidence, token: nat,
      input: S.Input)
    requires sid in d.sessions && SameSession(dir, d.sessions[sid])
    ensures var d' := ApplyAll(d, SessionWrites(d.sessions[sid], sid, ev));
      && sid in d'.sessions && SameSession(StoreCalls(dir, sev, token, input), d'.sessions[sid])
    ensures StoreCalls(dir, sev, token, input).lock == dir.lock
  {
    var ws := SessionWrites(d.sessions[sid], sid, ev);
    if |ws| == 1 {
      ApplyOne(d, ws[0]);
    } else if |ws| == 3 {
      ApplyThree(d, ws[0], ws[1], ws[2]);
    }
  }

  /**
   * After a pass that listens, take a Run that had no terminal and either a dispatch marker or an unproven switch with
   * an actionable Session. However its Session's directory is used from then on, no caller that refuses quarantined
   * Sessions is ever granted its lease again, and the evidence in its record stands.
   */
  lemma NeverLeasedAgain(d: Disk, order: seq<string>, r: string, s: S.State, actions: seq<S.Action>)
    requires Listed(d, order) && Distinct(order) && Verdict(d, order).None? && r in order && r in d.runs
    requires var doc := d.runs[r];
      doc.result.NoResult? && (doc.dispatch || (SwitchUnproven(doc) && Actionable(d.sessions, Attributed(doc))))
    requires ST.Inv(s)
    requires var a := Attributed(d.runs[r]);
      a.Some? && a.value.session in Final(d, order).sessions
      ==> SameSession(s.disk, Final(d, order).sessions[a.value.session])
    ensures Attributed(d.runs[r]).Some? && Attributed(d.runs[r]).value.session in Final(d, order).sessions
    ensures s.disk.record.quarantine.Some? && S.Run(s, actions).disk.record == s.disk.record
    ensures ST.Refusing(S.Run(s, actions).grants) == ST.Refusing(s.grants)
  {
    hide Final, Verdict, ST.Inv, S.Run;
    ListeningMeansSettled(d, order, r);
    ST.QuarantineIsForever(s, actions);
  }
}
