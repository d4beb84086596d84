/** Retried until it can be: a bounded number of faults delays an overlay declaration by at most as
    many passes. */
module OverlayProgress {
  import opened Runs
  import opened Status
  import opened Paging
  import opened Overlay
  import opened OverlayGuarantees
  import OverlayPasses

  /** A fault: a crash, a call that reports an error, a save that meets a newer version. */
  predicate Fault(s: State, l: Label) {
    !s.pc.Idle? && (l.Crash? || (l.Answer? && (!l.reply.Accepted? || (s.pc.Saving? && !s.Writable(s.pc.obj.version)))))
  }

  predicate ReadyLands(s: State, l: Label) {
    s.pc.Saving? && l.Answer? && l.reply.TookEffect() && s.Writable(s.pc.obj.version) &&
        s.pc.obj.status.verdict == Set(Reconciled)
  }

  function Count(s: State, t: Tally, l: Label): Tally {
    t.Next(!s.pc.Idle? && Apply(s, l).pc.Idle?, Fault(s, l), ReadyLands(s, l))
  }

  function Counted(s: State, labels: seq<Label>): Tally {
    if labels == [] then NOTHING
    else Count(Exec(s, labels[..|labels| - 1]), Counted(s, labels[..|labels| - 1]), labels[|labels| - 1])
  }

  /** The declaration stands; everything else goes on, other writers of the overlay included. */
  predicate Favourable(l: Label) { !l.Declare? && !l.Edit? && !l.MarkDeleted? && !l.Remove? }

  ghost predicate Stage(s: State, spec: Spec) {
    && s.declared.Some? && !s.declared.value.deleting && s.declared.value.spec == spec
    && OverlayPasses.ValidTypes(spec) && OverlayPasses.NamesKnown(s.mesh, spec)
  }

  predicate Clean(pc: Pc) {
    match pc
    case Idle(_) => true
    case Ensuring(_, sdone) => All(sdone)
    case Resolving(_, sdone, pdone, _, _) => All(sdone) && All(pdone)
    case Creating(_, sdone, pdone, _, _) => All(sdone) && All(pdone)
    case Saving(_, _, sdone, pdone) => All(sdone) && All(pdone)
  }

  ghost predicate OnTrack(s: State, t: Tally, spec: Spec) {
    && Inv(s) && Stage(s, spec)
    && (!s.pc.Idle? ==> s.pc.obj.spec == spec) && (s.pc.Idle? ==> !t.tainted)
    && (t.ready || t.Bound() <= t.faults) && (!t.tainted ==> Clean(s.pc))
  }

  lemma NextIsClean(obj: Object, sdone: seq<bool>, pdone: seq<bool>, cache: Cache)
    requires |pdone| <= |obj.spec.policies| && All(sdone) && All(pdone)
    ensures Clean(NextPolicy(obj, sdone, pdone, cache))
  {
  }

  /** A call that is accepted leaves nothing pending. */
  lemma AcceptedIsClean(s: State, spec: Spec, id: string)
    requires Inv(s) && Stage(s, spec) && Clean(s.pc) && !s.pc.Idle? && !s.pc.Saving? && s.pc.obj.spec == spec
    ensures Clean(Continue(s, Accepted, id).pc)
  {
    match s.pc
    case Ensuring(obj, sdone) =>
      var sdone' := sdone + [true];
      if |sdone'| == |spec.services| {
        NextIsClean(obj.(status := obj.status.(services := Applied(ServiceNames(obj.spec), sdone'))), sdone', [],
            map[]);
      }
    case Resolving(obj, sdone, pdone, cache, resolved) => NameIsThere(s, spec);
    case Creating(obj, sdone, pdone, cache, _) => NextIsClean(obj, sdone, pdone + [true], cache);
  }

  lemma NameIsThere(s: State, spec: Spec)
    requires Inv(s) && Stage(s, spec) && Clean(s.pc) && s.pc.Resolving? && s.pc.obj.spec == spec
    ensures Named(spec.policies[|s.pc.pdone|].serviceRoles[|s.pc.resolved|]).value in s.mesh.services
  {
    var name := Named(spec.policies[|s.pc.pdone|].serviceRoles[|s.pc.resolved|]).value;
    if name in ServiceNames(spec) {
      var n :| 0 <= n < |ServiceNames(spec)| && ServiceNames(spec)[n] == name;
      assert s.pc.sdone[n];
    }
  }

  lemma StaysOnSpec(s: State, reply: Reply, id: string)
    requires Inv(s) && !s.pc.Idle? && !s.pc.Saving?
    ensures !Continue(s, reply, id).pc.Idle? && Continue(s, reply, id).pc.obj.spec == s.pc.obj.spec
    ensures Continue(s, reply, id).declared == s.declared
  {
    match s.pc
    case Ensuring(_, _) => assert Continue(s, reply, id) == EnsureService(s, reply, id);
    case Resolving(_, _, _, _, _) => assert Continue(s, reply, id) == LookUp(s, reply);
    case Creating(_, _, _, _, _) => assert Continue(s, reply, id) == CreatePolicy(s, reply);
  }

  lemma StageStays(s: State, spec: Spec, l: Label)
    requires Inv(s) && Stage(s, spec) && Favourable(l) && (!s.pc.Idle? ==> s.pc.obj.spec == spec)
    ensures Stage(Apply(s, l), spec)
  {
    StepExtends(s, l);
  }

  lemma CallStep(s: State, t: Tally, spec: Spec, l: Label)
    requires OnTrack(s, t, spec) && l.Answer? && !s.pc.Idle? && !s.pc.Saving?
    ensures OnTrack(Apply(s, l), Count(s, t, l), spec)
  {
    StepKeepsInv(s, l);
    StageStays(s, spec, l);
    StaysOnSpec(s, l.reply, l.id);
    if l.reply.Accepted? && !t.tainted { AcceptedIsClean(s, spec, l.id); }
  }

  lemma SaveStep(s: State, t: Tally, spec: Spec, l: Label)
    requires OnTrack(s, t, spec) && l.Answer? && s.pc.Saving?
    ensures OnTrack(Apply(s, l), Count(s, t, l), spec)
  {
    StepKeepsInv(s, l);
    StageStays(s, spec, l);
  }

  lemma BeginStep(s: State, t: Tally, spec: Spec)
    requires OnTrack(s, t, spec)
    ensures OnTrack(Apply(s, Begin), Count(s, t, Begin), spec)
  {
    StepKeepsInv(s, Begin);
    StageStays(s, spec, Begin);
    if s.pc.Idle? && spec.services == [] {
      var obj := s.declared.value;
      NextIsClean(obj.(status := obj.status.(services := [])), [], [], map[]);
    }
  }

  lemma OtherStep(s: State, t: Tally, spec: Spec, l: Label)
    requires OnTrack(s, t, spec) && Favourable(l) && !l.Begin? && (l.Answer? ==> s.pc.Idle?)
    ensures OnTrack(Apply(s, l), Count(s, t, l), spec)
  {
    StepKeepsInv(s, l);
    StageStays(s, spec, l);
  }

  lemma {:induction false} OnTrackRun(s: State, labels: seq<Label>, spec: Spec)
    requires Inv(s) && Stage(s, spec) && s.pc.Idle? && forall l :: l in labels ==> Favourable(l)
    ensures OnTrack(Exec(s, labels), Counted(s, labels), spec)
  {
    if labels != [] {
      var before, l := labels[..|labels| - 1], labels[|labels| - 1];
      OnTrackRun(s, before, spec);
      var e, t := Exec(s, before), Counted(s, before);
      if l.Begin? {
        BeginStep(e, t, spec);
      } else if l.Answer? && e.pc.Saving? {
        SaveStep(e, t, spec, l);
      } else if l.Answer? && !e.pc.Idle? {
        CallStep(e, t, spec, l);
      } else {
        OtherStep(e, t, spec, l);
      }
    }
  }

  /** From any reachable state in which a declaration with valid types stands, and each name it uses is
      declared with it or exists: if more passes ended than faults were met, a Ready save landed. */
  lemma ReadyWithinFaults(s: State, before: seq<Label>, labels: seq<Label>, spec: Spec)
    requires Init(s) && Stage(Exec(s, before), spec) && Exec(s, before).pc.Idle?
    requires forall l :: l in labels ==> Favourable(l)
    requires var t := Counted(Exec(s, before), labels); t.passes > t.faults
    ensures Counted(Exec(s, before), labels).ready
  {
    Reachable(s, before);
    OnTrackRun(Exec(s, before), labels, spec);
  }
}
