/**
 What each step of an owner comes to, in a form the proofs can use without looking at the step again: the call
 has failed, or it goes on in a known way.
 */
module StepForms {
  import opened Wrappers
  import opened VaultModel
  import opened Executor
  import opened System

  /** The same call, wherever it is. */
  ghost predicate SameJob(p: Proc, q: Proc) {
    q.token == p.token && q.diff == p.diff && q.proposed == p.proposed && q.key == p.key && q.message == p.message && q.kept == p.kept
  }

  /** The same call, with nothing written, logged or asked in between. */
  ghost predicate Unmoved(w: World, p: Proc, w': World, p': Proc) {
    && SameJob(p, p') && p'.wrote == p.wrote && p'.started == p.started
    && w'.log == w.log && w'.nextKey == w.nextKey && SameNotes(w'.disk, w.disk)
  }

  /** A call that is over without success. */
  predicate Failed(p: Proc) { p.pc.Dead? || (p.pc.Finished? && !p.pc.outcome.success) }

  lemma AdmitForm(env: Env, w: World, p: Proc, c: Choice)
    ensures var p' := AdmitStep(env, w, p, c);
      || (Failed(p') && SameJob(p, p'))
      || (NoteProblem(env, w.disk, p.token.plan).None? && KeptBytes(w.disk, p).Some?
          && p' == p.(pc := MakeRecord, kept := KeptBytes(w.disk, p).value))
  {
  }

  lemma RecordPut(w: World, p: Proc, c: Choice)
    requires p.token in w.disk.records
    ensures var (w', p') := RecordStep(w, p, c);
      SameJob(p, p') && w'.disk == Put(w.disk, p.token, RecordWrite(p, w.disk.records[p.token], Extent(c)))
  {
  }

  lemma RecordForm(w: World, p: Proc, c: Choice)
    requires Recording(p.pc) || p.pc.CommitManifest? || p.pc.CommitReceipt?
    ensures var (w', p') := RecordStep(w, p, c);
      Failed(p') || (c.Go? && p' == p.To(AfterWrite(p)) && Unmoved(w, p, w', p') && w'.disk.temps == w.disk.temps && w'.mem == w.mem)
  {
  }

  lemma ConsumeForm(w: World, p: Proc, c: Choice)
    requires p.pc.Consume?
    ensures var (w', p') := ConsumeStep(w, p, c);
      && w'.disk == w.disk && SameJob(p, p')
      && (Failed(p')
          || (Unmoved(w, p, w', p')
              && p'.pc == (if Replaces(p.token.plan) then StageFile else if p.token.plan.MoveDraft? then Probe else Protect)))
  {
  }

  lemma StageForm(w: World, p: Proc, c: Choice)
    requires p.pc.StageFile?
    ensures var (w', p') := StageStep(w, p, c);
      && SameNotes(w'.disk, w.disk) && w'.disk.records == w.disk.records && SameJob(p, p')
      && (Failed(p')
          || (Unmoved(w, p, w', p') && p'.pc.Protect? && p.token in w'.disk.temps && w'.disk.temps[p.token] == p.proposed))
  {
  }

  lemma ProbeForm(w: World, p: Proc, c: Choice)
    requires p.pc.Probe?
    ensures var (w', p') := ProbeStep(w, p, c);
      w' == w && SameJob(p, p') && (Failed(p') || (p'.pc.Protect? && Unmoved(w, p, w', p')))
  {
  }

  lemma UnlinkForm(w: World, p: Proc, c: Choice)
    requires p.pc.Unlink? && p.token.plan.MoveDraft? && ShaOf(At(w.disk, InInbox(p.token.plan.source))) == Some(p.token.plan.sourceSha)
    ensures var (w', p') := UnlinkStep(w, p, c);
      && w'.disk == (if Extent(c).Full? then With(w.disk, InInbox(p.token.plan.source), None) else w.disk)
      && SameJob(p, p') && (Failed(p') || (c.Go? && p'.pc == Verify))
  {
  }

  lemma VerifyForm(w: World, p: Proc, c: Choice)
    requires p.pc.VerifyCopy? || p.pc.Verify?
    ensures var (w', p') := VerifyStep(w, p, c);
      && w' == w && SameJob(p, p')
      && (Failed(p') || (Unmoved(w, p, w', p') && p'.pc == (if p.pc.VerifyCopy? then Unlink else CommitManifest)))
  {
  }
}
