/** Where everything on the overlay comes from: it was there, somebody else added it, or the controller
    created it from something that was declared. */
module OverlayOrigins {
  import opened Status
  import opened Paging
  import opened Overlay
  import opened OverlayGuarantees

  ghost predicate WasDeclared(labels: seq<Label>, spec: Spec) { Declare(spec) in labels || Edit(spec) in labels }

  ghost predicate ServiceDeclared(labels: seq<Label>, service: Service) {
    exists spec :: WasDeclared(labels, spec) && service in spec.services
  }

  ghost predicate PolicyDeclared(labels: seq<Label>, policy: Policy) {
    exists spec :: WasDeclared(labels, spec) && policy in spec.policies
  }

  ghost predicate HostedByOthers(labels: seq<Label>, name: string) { exists hosted :: Host(name, hosted) in labels }
  ghost predicate PermittedByOthers(labels: seq<Label>, name: string) { exists rule :: Permit(name, rule) in labels }

  /** What is held was declared, and what was created comes from a declaration of its own name. */
  ghost predicate Traced(labels: seq<Label>, s: State) {
    && (s.declared.Some? ==> WasDeclared(labels, s.declared.value.spec))
    && (!s.pc.Idle? ==> WasDeclared(labels, s.pc.obj.spec) && !s.pc.obj.deleting)
    && (forall name :: name in s.log.hosted ==>
          s.log.hosted[name].name == name && ServiceDeclared(labels, s.log.hosted[name]))
    && (forall name :: name in s.log.made ==> s.log.made[name].name == name && PolicyDeclared(labels, s.log.made[name]))
  }

  ghost predicate Explained(s0: State, labels: seq<Label>, s: State) {
    && (forall name :: name in s.mesh.services ==>
          name in s0.mesh.services || name in s.log.hosted || HostedByOthers(labels, name))
    && (forall name :: name in s.mesh.policies ==>
          name in s0.mesh.policies || name in s.log.made || PermittedByOthers(labels, name))
  }

  lemma TracedStays(labels: seq<Label>, l: Label, s: State)
    requires Traced(labels, s)
    ensures Traced(labels + [l], s)
  {
    forall spec | WasDeclared(labels, spec) ensures WasDeclared(labels + [l], spec) {}
    var more := labels + [l];
    forall name | name in s.log.hosted ensures ServiceDeclared(more, s.log.hosted[name]) {
      var spec :| WasDeclared(labels, spec) && s.log.hosted[name] in spec.services;
      assert WasDeclared(more, spec);
    }
    forall name | name in s.log.made ensures PolicyDeclared(more, s.log.made[name]) {
      var spec :| WasDeclared(labels, spec) && s.log.made[name] in spec.policies;
      assert WasDeclared(more, spec);
    }
  }

  lemma NextKeepsSpec(obj: Object, sdone: seq<bool>, pdone: seq<bool>, cache: Cache)
    requires |pdone| <= |obj.spec.policies|
    ensures var pc := NextPolicy(obj, sdone, pdone, cache); !pc.Idle? && pc.obj == obj.(status := pc.obj.status)
  {
  }

  lemma ServicesKeepSpec(obj: Object, sdone: seq<bool>)
    requires |sdone| <= |obj.spec.services|
    ensures var pc := AfterServices(obj, sdone); !pc.Idle? && pc.obj == obj.(status := pc.obj.status)
  {
  }

  /** A call of the worker goes on about the same declaration and creates only what it lists. */
  lemma AnswerIsTraced(labels: seq<Label>, s: State, reply: Reply, id: string)
    requires Inv(s) && Traced(labels, s)
    ensures Traced(labels, Continue(s, reply, id))
  {
    match s.pc
    case Idle(_) =>
    case Ensuring(_, _) => ServiceIsTraced(labels, s, reply, id);
    case Resolving(obj, sdone, pdone, cache, _) => NextKeepsSpec(obj, sdone, pdone + [false], cache);
    case Creating(_, _, _, _, _) => PolicyIsTraced(labels, s, reply);
    case Saving(_, _, _, _) =>
  }

  lemma ServiceIsTraced(labels: seq<Label>, s: State, reply: Reply, id: string)
    requires Traced(labels, s) && s.pc.Ensuring? && |s.pc.sdone| < |s.pc.obj.spec.services|
    ensures Traced(labels, EnsureService(s, reply, id))
  {
    var Ensuring(obj, sdone) := s.pc;
    assert obj.spec.services[|sdone|] in obj.spec.services;
    ServicesKeepSpec(obj, sdone + [reply.Accepted?]);
  }

  lemma PolicyIsTraced(labels: seq<Label>, s: State, reply: Reply)
    requires Traced(labels, s) && s.pc.Creating? && |s.pc.pdone| < |s.pc.obj.spec.policies|
    ensures Traced(labels, CreatePolicy(s, reply))
  {
    var Creating(obj, sdone, pdone, cache, _) := s.pc;
    assert obj.spec.policies[|pdone|] in obj.spec.policies;
    NextKeepsSpec(obj, sdone, pdone + [reply.Accepted?], cache);
  }

  lemma StepIsTraced(labels: seq<Label>, s: State, l: Label)
    requires Inv(s) && Traced(labels, s)
    ensures Traced(labels + [l], Apply(s, l))
  {
    TracedStays(labels, l, s);
    match l
    case Begin => if s.declared.Some? { ServicesKeepSpec(s.declared.value, []); }
    case Answer(reply, id) => AnswerIsTraced(labels + [l], s, reply, id);
    case Declare(spec) => assert l in labels + [l];
    case Edit(spec) => assert l in labels + [l];
    case _ =>
  }

  lemma StepAdds(s: State, l: Label)
    ensures forall name :: name in s.log.hosted ==> name in Apply(s, l).log.hosted
    ensures forall name :: name in s.log.made ==> name in Apply(s, l).log.made
    ensures forall name :: name in Apply(s, l).mesh.services ==>
              name in s.mesh.services || name in Apply(s, l).log.hosted || (l.Host? && l.name == name)
    ensures forall name :: name in Apply(s, l).mesh.policies ==>
              name in s.mesh.policies || name in Apply(s, l).log.made || (l.Permit? && l.name == name)
  {
  }

  lemma StepIsExplained(s0: State, labels: seq<Label>, s: State, l: Label)
    requires Explained(s0, labels, s)
    ensures Explained(s0, labels + [l], Apply(s, l))
  {
    StepAdds(s, l);
    var more := labels + [l];
    assert l in more;
    forall name | HostedByOthers(labels, name) ensures HostedByOthers(more, name) {
      var hosted :| Host(name, hosted) in labels;
      assert Host(name, hosted) in more;
    }
    forall name | PermittedByOthers(labels, name) ensures PermittedByOthers(more, name) {
      var rule :| Permit(name, rule) in labels;
      assert Permit(name, rule) in more;
    }
    if l.Host? { assert Host(l.name, l.hosted) in more; }
    if l.Permit? { assert Permit(l.name, l.rule) in more; }
  }

  /** Over every run: whatever is on the overlay was there at the start, was added by somebody else, or was
      created by the controller; and what the controller created was declared, under that name. No pass
      works from a declaration that was being deleted when it was read. */
  lemma {:induction false} EverythingHasAnOrigin(s: State, labels: seq<Label>)
    requires Init(s)
    ensures Traced(labels, Exec(s, labels)) && Explained(s, labels, Exec(s, labels))
  {
    if labels != [] {
      var before, l := labels[..|labels| - 1], labels[|labels| - 1];
      EverythingHasAnOrigin(s, before);
      Reachable(s, before);
      assert before + [l] == labels;
      StepIsTraced(before, Exec(s, before), l);
      StepIsExplained(s, before, Exec(s, before), l);
    }
  }

  /** A declaration that is being deleted is left alone. */
  lemma DeletedIsLeftAlone(s: State)
    requires s.pc.Idle? && s.declared.Some? && s.declared.value.deleting
    ensures Apply(s, Begin) == s.(pc := Idle(Nothing))
  {
  }

  /** What a save returns: the schedule if the status is stored, the short retry if a newer version is there,
      otherwise the error. */
  lemma SaveReturns(s: State, reply: Reply, id: string)
    requires s.pc.Saving?
    ensures var pc, e := s.pc, Apply(s, Answer(reply, id));
            && e.mesh == s.mesh && e.pc.Idle?
            && (reply.Failed? || s.declared.None? ==> e.pc.outcome == Errored)
            && (reply.Accepted? && s.declared.Some? && s.declared.value.version != pc.obj.version ==>
                  e.pc.outcome == Again(Requeue) && e.declared == s.declared)
            && (reply.Accepted? && s.declared.Some? && s.declared.value.version == pc.obj.version ==>
                  && e.pc.outcome == Again(pc.retry) && e.declared.Some?
                  && e.declared.value == s.declared.value.(status := pc.obj.status,
                      version := e.declared.value.version))
  {
  }

  function Ones(done: seq<bool>): nat {
    if done == [] then 0 else Ones(done[..|done| - 1]) + if done[|done| - 1] then 1 else 0
  }

  /** The names applied are in the order declared, and are no others: the name at place `i` is preceded by
      just those that were applied before it. */
  lemma {:induction false} AppliedInOrder(names: seq<string>, done: seq<bool>, i: nat)
    requires |done| <= |names|
    ensures |Applied(names, done)| == Ones(done)
    ensures i < |done| && done[i] ==> Ones(done[..i]) < |Applied(names, done)| &&
                                      Applied(names, done)[Ones(done[..i])] == names[i]
  {
    if done != [] {
      var k := |done| - 1;
      AppliedInOrder(names, done[..k], i);
      if i < k { assert done[..k][..i] == done[..i]; }
    }
  }

  /** A new service has the id its create was answered with. */
  lemma ServiceHasItsId(s: State, reply: Reply, id: string, name: string)
    requires name in Apply(s, Answer(reply, id)).mesh.services && name !in s.mesh.services
    ensures reply.TookEffect() && Apply(s, Answer(reply, id)).mesh.services[name].id == id
  {
  }

  /** Everybody else's powers, and no more: a crash ends the pass, a write of the declaration is a new
      version, and what somebody adds to the overlay leaves alone what is there. */
  lemma OthersAct(s: State, l: Label)
    requires !l.Answer? && !l.Begin?
    ensures var e := Apply(s, l);
            && e.log == s.log && (l.Crash? ==> e == s.(pc := Idle(Nothing))) && (!l.Crash? ==> e.pc == s.pc)
            && (!l.Host? && !l.Permit? ==> e.mesh == s.mesh)
            && (l.Host? && l.name !in s.mesh.services ==>
                  e.mesh == s.mesh.(services := s.mesh.services[l.name := l.hosted]))
            && (l.Permit? && l.name !in s.mesh.policies ==>
                  e.mesh == s.mesh.(policies := s.mesh.policies[l.name := l.rule]))
            && (l.Host? && l.name in s.mesh.services ==> e == s) && (l.Permit? && l.name in s.mesh.policies ==> e == s)
            && (l.Remove? ==> e == s.(declared := None))
            && (s.declared.None? && l.Declare? ==>
                  e.declared == Some(Object(s.clock + 1, 1, false, l.spec, Standing([], [], Unset, 0))))
            && (s.declared.Some? && (l.Edit? || l.Touch? || l.MarkDeleted?) ==>
                  var o := s.declared.value.(version := s.clock + 1);
                  e.declared == Some(if l.Edit? then o.(spec := l.spec, generation := o.generation + 1)
                                     else if l.Touch? then o else o.(deleting := true, generation := o.generation + 1)))
  {
  }

  /** A call takes effect if it is accepted, and may take effect and still report an error, but never if
      it was refused: just then the service or the policy is there, and the status is stored. */
  lemma EffectIff(s: State, reply: Reply, id: string)
    requires Inv(s) && !s.pc.Idle?
    ensures var e := Apply(s, Answer(reply, id));
            var lands := reply.Accepted? ||
                (reply.landed && reply.code != InvalidArgument && reply.code != AlreadyExists);
            && (s.pc.Ensuring? ==>
                  var name := s.pc.obj.spec.services[|s.pc.sdone|].name;
                  e.mesh.services.Keys == if lands then s.mesh.services.Keys + {name} else s.mesh.services.Keys)
            && (s.pc.Creating? ==>
                  var name := s.pc.obj.spec.policies[|s.pc.pdone|].name;
                  e.mesh.policies.Keys == if lands then s.mesh.policies.Keys + {name} else s.mesh.policies.Keys)
            && (s.pc.Saving? ==>
                  e.declared == if lands && s.Writable(s.pc.obj.version)
                                then Some(s.declared.value.(status := s.pc.obj.status, version := s.clock + 1))
                                    else s.declared)
  {
  }
}
