/** Retried until it can be: a bounded number of faults delays an Organization or an Image by at most
    as many passes. */
module Progress {
  import opened Runs
  import opened Status
  import opened Paging
  import opened Provisioning
  import Reporting

  /** A worker is in a pass over a declaration. */
  predicate On(s: State, name: Name) {
    !s.Pc(name.kind).Idle? && s.Pc(name.kind).name == name
  }

  /** A fault: a crash, a call that ends with a transient error, a save that does not go through. */
  predicate Fault(s: State, name: Name, l: Label) {
    On(s, name) &&
    match l
    case Crash(kind) => kind == name.kind
    case Answer(kind, reply, _, _) =>
      && kind == name.kind
      && (reply.Transient() ||
          (s.Pc(kind).Saving? && (reply.Failed? || !s.Writable(name, s.Pc(kind).obj.version))))
    case _ => false
  }

  predicate ReadyLands(s: State, name: Name, l: Label) {
    && On(s, name) && l.Answer? && l.kind == name.kind && s.Pc(l.kind).Saving?
    && s.Pc(l.kind).obj.status.verdict == Set(Reconciled)
    && s.Writable(name, s.Pc(l.kind).obj.version) && l.reply.TookEffect()
  }

  /** The tally of the passes over one declaration. */
  function Count(s: State, t: Tally, name: Name, l: Label): Tally {
    t.Next(On(s, name) && !On(Apply(s, l), name), Fault(s, name, l), ReadyLands(s, name, l))
  }

  function Counted(s: State, name: Name, labels: seq<Label>): Tally {
    if labels == [] then NOTHING
    else Count(Exec(s, labels[..|labels| - 1]), Counted(s, name, labels[..|labels| - 1]), name, labels[|labels| - 1])
  }

  /** A smooth stretch for a declaration: it is not edited or removed, nor is the organization it
      names or the Secret it reads; nobody edits the platform by hand; its calls are not refused; the
      platform hands out non-empty ids. Everything else goes on: other declarations, foreign writes,
      faults of every kind. */
  predicate Favourable(name: Name, spec: Spec, l: Label) {
    var organization := Name(Organization, Reference(spec));
    match l
    case Edit(n, _) => n != name
    case MarkDeleted(n) => n != name
    case Remove(n) => n != name && (spec.ImageSpec? ==> n != organization)
    case DropSecret(secret) => spec.ImageSpec? && spec.credentials.Some? ==> secret != spec.credentials.value
    case Drift(_, _) => false
    case Forget(_) => false
    case Answer(kind, reply, id, _) => id != "" && (kind == name.kind ==> !reply.Refused())
    case _ => true
  }

  /** What the declaration waits for is there. */
  ghost predicate Stage(s: State, name: Name, spec: Spec) {
    && name in s.objects && s.objects[name].spec == spec && !s.objects[name].deleting
    && WellFormed(spec) && (spec.OrganizationSpec? || spec.ImageSpec?)
    && (forall key :: key in s.records ==> s.records[key].id != "")
    && spec.Kind() == name.kind
    && (spec.ImageSpec? ==>
          && OrganizationReady(s, Name(Organization, spec.organization))
          && (spec.credentials.Some? ==> spec.credentials.value in s.secrets))
  }

  /** An Organization has an id, and so has any copy of it that could still be saved. */
  predicate OrganizationReady(s: State, organization: Name) {
    && organization.kind.Organization? && organization in s.objects && s.objects[organization].status.platformId != ""
    && var pc := s.Pc(Organization);
       && (!pc.Idle? && pc.name == organization && s.Writable(organization, pc.obj.version) ==>
             pc.obj.status.platformId != "")
       && (pc.Updating? ==> pc.id != "")
  }

  ghost predicate OnTrack(s: State, t: Tally, name: Name, spec: Spec) {
    && Reporting.Inv(s) && Stage(s, name, spec)
    && (!On(s, name) ==> !t.tainted)
    && (t.ready || t.Bound() <= t.faults)
    && (On(s, name) ==> name.kind in s.log.calm)
    && (On(s, name) && !t.tainted && s.Writable(name, s.Pc(name.kind).obj.version) && s.Pc(name.kind).Saving? ==>
          s.Pc(name.kind).obj.status.verdict == Set(Reconciled))
  }

  lemma OrganizationCall(s: State, organization: Name, l: Label)
    requires Reporting.Sight(s, Organization, s.Pc(Organization)) && OrganizationReady(s, organization)
    requires forall key :: key in s.records ==> s.records[key].id != ""
    requires l.Answer? && l.kind.Organization? && l.id != "" && !s.Pc(Organization).Saving?
    ensures OrganizationReady(Apply(s, l), organization)
  {
    match s.Pc(Organization) {
      case Looking(_, _, _, _) =>
      case Updating(_, _, _, _, _, _) => assert Apply(s, l) == Update(s, Organization, l.reply);
      case Creating(_, _, _, _) => assert Apply(s, l) == Create(s, Organization, l.reply, l.id, l.token);
      case _ =>
    }
  }

  lemma OrganizationSave(s: State, organization: Name, l: Label)
    requires OrganizationReady(s, organization) && l.Answer? && l.kind.Organization? && s.Pc(Organization).Saving?
    ensures OrganizationReady(Apply(s, l), organization)
  {
    assert Apply(s, l) == SaveStatus(s, Organization, l.reply);
  }

  lemma OrganizationOther(s: State, organization: Name, l: Label)
    requires OrganizationReady(s, organization) && l.Answer? && !l.kind.Organization?
    requires !s.Pc(l.kind).Idle? ==> s.Pc(l.kind).name.kind == l.kind
    ensures OrganizationReady(Apply(s, l), organization)
  {
    AnswerSettles(s, l);
    AnswerMovesItsWorker(s, l);
  }

  lemma OrganizationWorld(s: State, organization: Name, l: Label)
    requires OrganizationReady(s, organization) && !l.Answer? && !(l.Remove? && l.name == organization)
    requires s.objects[organization].version <= s.clock
    requires !s.Pc(Organization).Idle? ==> s.Pc(Organization).obj.version <= s.clock
    ensures OrganizationReady(Apply(s, l), organization)
  {
  }

  lemma OrganizationStaysReady(s: State, name: Name, spec: Spec, l: Label)
    requires Reporting.Inv(s) && Stage(s, name, spec) && Favourable(name, spec, l) && spec.ImageSpec?
    ensures OrganizationReady(Apply(s, l), Name(Organization, spec.organization))
  {
    var organization := Name(Organization, spec.organization);
    assert Reporting.Sight(s, Organization, s.Pc(Organization)) && Reporting.StoredWell(s, organization);
    if !l.Answer? {
      OrganizationWorld(s, organization, l);
    } else if l.kind.Organization? {
      if s.Pc(Organization).Saving? { OrganizationSave(s, organization, l); } else {
        OrganizationCall(s, organization, l);
      }
    } else {
      assert Reporting.Sight(s, l.kind, s.Pc(l.kind));
      OrganizationOther(s, organization, l);
    }
  }

  lemma AnswerKeepsIds(s: State, l: Label)
    requires l.Answer? && l.id != "" && forall key :: key in s.records ==> s.records[key].id != ""
    ensures forall key :: key in Apply(s, l).records ==> Apply(s, l).records[key].id != ""
    ensures s.secrets.Keys <= Apply(s, l).secrets.Keys
  {
    match s.Pc(l.kind) {
      case Updating(_, _, _, _, _, _) =>
      case Creating(_, _, _, _) =>
      case _ =>
    }
  }

  lemma StageStays(s: State, name: Name, spec: Spec, l: Label)
    requires Reporting.Inv(s) && Stage(s, name, spec) && Favourable(name, spec, l)
    ensures Stage(Apply(s, l), name, spec)
  {
    if spec.ImageSpec? { OrganizationStaysReady(s, name, spec, l); }
    if l.Answer? {
      AnswerSettles(s, l);
      AnswerKeepsIds(s, l);
    }
  }

  lemma BeginLooksAt(s: State, name: Name, l: Label)
    requires l.Begin?
    ensures On(s, name) ==> Apply(s, l).Pc(name.kind) == s.Pc(name.kind)
    ensures Apply(s, l).objects == s.objects && s.log.calm <= Apply(s, l).log.calm
    ensures !On(s, name) && On(Apply(s, l), name) ==>
              name.kind in Apply(s, l).log.calm && !Apply(s, l).Pc(name.kind).Saving?
  {
  }

  /** A pass starts. */
  lemma BeginStep(s: State, t: Tally, name: Name, spec: Spec, l: Label)
    requires OnTrack(s, t, name, spec) && Favourable(name, spec, l) && l.Begin?
    ensures OnTrack(Apply(s, l), Count(s, t, name, l), name, spec)
  {
    Reporting.StepKeepsInv(s, l);
    StageStays(s, name, spec, l);
    BeginLooksAt(s, name, l);
  }

  /** A worker crashes. */
  lemma CrashStep(s: State, t: Tally, name: Name, spec: Spec, l: Label)
    requires OnTrack(s, t, name, spec) && Favourable(name, spec, l) && l.Crash?
    ensures OnTrack(Apply(s, l), Count(s, t, name, l), name, spec)
  {
    Reporting.StepKeepsInv(s, l);
    StageStays(s, name, spec, l);
  }

  /** A step of the environment. */
  lemma WorldStep(s: State, t: Tally, name: Name, spec: Spec, l: Label)
    requires OnTrack(s, t, name, spec) && Favourable(name, spec, l) && Reporting.Sane(l)
    requires !l.Answer? && !l.Begin? && !l.Crash?
    ensures OnTrack(Apply(s, l), Count(s, t, name, l), name, spec)
  {
    Reporting.StepKeepsInv(s, l);
    StageStays(s, name, spec, l);
    assert Reporting.Sight(s, name.kind, s.Pc(name.kind));
    WorldLeavesWorkers(s, name, spec, l);
  }

  lemma WorldLeavesWorkers(s: State, name: Name, spec: Spec, l: Label)
    requires Favourable(name, spec, l) && !l.Answer? && !l.Begin? && !l.Crash?
    ensures Apply(s, l).workers == s.workers && Apply(s, l).log == s.log
  {
  }

  /** A step by another worker. */
  lemma OtherStep(s: State, t: Tally, name: Name, spec: Spec, l: Label)
    requires OnTrack(s, t, name, spec) && Favourable(name, spec, l) && Reporting.Sane(l) && l.Answer? &&
             l.kind != name.kind
    ensures OnTrack(Apply(s, l), Count(s, t, name, l), name, spec)
  {
    Reporting.StepKeepsInv(s, l);
    StageStays(s, name, spec, l);
    assert Reporting.Sight(s, l.kind, s.Pc(l.kind));
    AnswerSettles(s, l);
    AnswerMovesItsWorker(s, l);
    assert On(Apply(s, l), name) == On(s, name);
    assert Apply(s, l).objects[name] == s.objects[name];
  }

  /** With everything in place an accepted answer leads on, or to Ready. */
  lemma AcceptedLeadsToReady(s: State, name: Name, spec: Spec, l: Label)
    requires Reporting.Inv(s) && Stage(s, name, spec) && On(s, name) && l.Answer? && l.kind == name.kind &&
             l.reply.Accepted?
    requires name.kind in s.log.calm && !s.Pc(l.kind).Saving? && s.Pc(l.kind).obj.spec == spec
    ensures var pc := Apply(s, l).Pc(l.kind); pc.Saving? ==> pc.obj.status.verdict == Set(Reconciled)
  {
    assert Reporting.Sight(s, l.kind, s.Pc(l.kind));
    match s.Pc(l.kind) {
      case Resolving(n, obj) =>
        assert spec.ImageSpec?;
        assert OrganizationId(s, Reference(obj.spec)) ==
          Some(s.objects[Name(Organization, spec.organization)].status.platformId);
        assert Apply(s, l).Pc(l.kind) == AfterOrganization(n, obj, OrganizationId(s, Reference(obj.spec)));
      case ReadingCredentials(_, _, _) =>
      case Looking(_, _, _, _) =>
      case Updating(_, _, _, _, _, _) => Reporting.UpdateMoves(s, l.kind, l.reply);
      case Creating(_, _, _, _) =>
      case _ =>
    }
  }

  lemma CallStaysOn(s: State, name: Name, l: Label)
    requires l.Answer? && l.kind == name.kind && On(s, name) && !s.Pc(l.kind).Saving?
    ensures On(Apply(s, l), name) && Apply(s, l).objects == s.objects
    ensures Apply(s, l).Pc(l.kind).obj.version == s.Pc(l.kind).obj.version
  {
    match s.Pc(l.kind) {
      case Resolving(_, _) =>
      case ReadingCredentials(_, _, _) =>
      case Looking(_, _, _, _) =>
      case Checking(_, _, _, _, _) =>
      case _ =>
    }
  }

  /** An answer to a call of the pass that is not its save. */
  lemma CallStep(s: State, t: Tally, name: Name, spec: Spec, l: Label)
    requires OnTrack(s, t, name, spec) && Favourable(name, spec, l) && Reporting.Sane(l)
    requires l.Answer? && l.kind == name.kind && On(s, name) && !s.Pc(l.kind).Saving?
    ensures OnTrack(Apply(s, l), Count(s, t, name, l), name, spec)
  {
    Reporting.StepKeepsInv(s, l);
    StageStays(s, name, spec, l);
    CallStaysOn(s, name, l);
    AnswerSettles(s, l);
    assert Reporting.Sight(s, l.kind, s.Pc(l.kind));
    if l.reply.Accepted? && s.Writable(name, s.Pc(l.kind).obj.version) {
      AcceptedLeadsToReady(s, name, spec, l);
    }
  }

  lemma SaveStep(s: State, t: Tally, name: Name, spec: Spec, l: Label)
    requires OnTrack(s, t, name, spec) && Favourable(name, spec, l) && Reporting.Sane(l)
    requires l.Answer? && l.kind == name.kind && (On(s, name) ==> s.Pc(l.kind).Saving?)
    ensures OnTrack(Apply(s, l), Count(s, t, name, l), name, spec)
  {
    Reporting.StepKeepsInv(s, l);
    StageStays(s, name, spec, l);
    AnswerSettles(s, l);
    if On(s, name) {
      assert Apply(s, l).Pc(l.kind).Idle?;
    } else {
      AnswerMovesItsWorker(s, l);
    }
  }

  lemma {:induction false} OnTrackRun(s: State, labels: seq<Label>, name: Name, spec: Spec)
    requires Reporting.Inv(s) && Stage(s, name, spec) && !On(s, name)
    requires forall l :: l in labels ==> Favourable(name, spec, l) && Reporting.Sane(l)
    ensures OnTrack(Exec(s, labels), Counted(s, name, labels), name, spec)
  {
    if labels != [] {
      var before, l := labels[..|labels| - 1], labels[|labels| - 1];
      OnTrackRun(s, before, name, spec);
      var e, t := Exec(s, before), Counted(s, name, before);
      if l.Begin? {
        BeginStep(e, t, name, spec, l);
      } else if l.Crash? {
        CrashStep(e, t, name, spec, l);
      } else if !l.Answer? {
        WorldStep(e, t, name, spec, l);
      } else if l.kind != name.kind {
        OtherStep(e, t, name, spec, l);
      } else if On(e, name) && !e.Pc(l.kind).Saving? {
        CallStep(e, t, name, spec, l);
      } else {
        SaveStep(e, t, name, spec, l);
      }
    }
  }

  /** From any reachable state in which an Organization is declared, or an Image whose organization has
      its id: if more passes over it ended than faults were met, its Ready save landed. */
  lemma ReadyWithinFaults(s: State, before: seq<Label>, labels: seq<Label>, name: Name, spec: Spec)
    requires Reporting.Run(s, before)
    requires Stage(Exec(s, before), name, spec) && !On(Exec(s, before), name)
    requires forall l :: l in labels ==> Favourable(name, spec, l) && Reporting.Sane(l)
    requires var t := Counted(Exec(s, before), name, labels); t.passes > t.faults
    ensures Counted(Exec(s, before), name, labels).ready
  {
    Reporting.Reachable(s, before);
    OnTrackRun(Exec(s, before), labels, name, spec);
  }
}
