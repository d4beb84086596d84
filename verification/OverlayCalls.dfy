/** Which services and policies a pass of the overlay reconciler applies, told by its own calls: each
    call may end as it likes, whatever an earlier one about the same name did, and others may add to the
    overlay in between. */
module OverlayCalls {
  import opened Status
  import opened Paging
  import opened Overlay
  import opened OverlayGuarantees

  /** A call that ended: the create of a declared service, the lookup of a name for a declared policy,
      the create of that policy. */
  datatype Call =
    | Asked(service: nat, ok: bool)
    | Looked(policy: nat, name: string, ok: bool)
    | Made(policy: nat, ok: bool)

  /** The call a step ends. A lookup is good if it is accepted and finds the service. */
  function Ended(s: State, l: Label): seq<Call> {
    if !l.Answer? then []
    else match s.pc
      case Ensuring(_, sdone) => [Asked(|sdone|, l.reply.Accepted?)]
      case Resolving(_, _, pdone, _, _) =>
        var name := PendingName(s.pc);
        if name.None? then []
        else [Looked(|pdone|, name.value, l.reply.Accepted? && name.value in s.mesh.services)]
      case Creating(_, _, pdone, _, _) => [Made(|pdone|, l.reply.Accepted?)]
      case _ => []
  }

  function PendingName(pc: Pc): Option<string>
    requires pc.Resolving?
  {
    if |pc.pdone| < |pc.obj.spec.policies| && |pc.resolved| < |pc.obj.spec.policies[|pc.pdone|].serviceRoles|
    then Named(pc.obj.spec.policies[|pc.pdone|].serviceRoles[|pc.resolved|]) else None
  }

  /** The calls of the running pass, or of the last one, in order. */
  function CallsOfPass(s: State, labels: seq<Label>): seq<Call> {
    if labels == [] then []
    else
      var before, l := labels[..|labels| - 1], labels[|labels| - 1];
      if l.Begin? && Exec(s, before).pc.Idle? then [] else CallsOfPass(s, before) + Ended(Exec(s, before), l)
  }

  // ---- What the calls say ----

  /** The name was looked up with success for a policy up to this one. */
  ghost predicate KnownBy(calls: seq<Call>, i: nat, name: string) {
    exists j: nat :: j <= i && Looked(j, name, true) in calls
  }

  ghost predicate Found(calls: seq<Call>, name: string) { exists j: nat :: Looked(j, name, true) in calls }

  ghost predicate AllKnown(calls: seq<Call>, roles: seq<string>, i: nat) {
    forall k :: 0 <= k < |roles| && Named(roles[k]).Some? ==> KnownBy(calls, i, Named(roles[k]).value)
  }

  /** A policy is tried exactly if every name in it was looked up with success by then, for itself or
      for an earlier policy; and it is applied exactly if its create was then accepted. */
  ghost predicate Judged(calls: seq<Call>, roles: seq<string>, i: nat, done: bool) {
    && (Made(i, true) in calls || Made(i, false) in calls <==> AllKnown(calls, roles, i))
    && (done <==> Made(i, true) in calls) && !(Made(i, true) in calls && Made(i, false) in calls)
  }

  ghost predicate Served(calls: seq<Call>, sdone: seq<bool>) {
    forall i: nat, ok :: Asked(i, ok) in calls <==> i < |sdone| && ok == sdone[i]
  }

  predicate Mentions(roles: seq<string>, name: string) {
    exists k :: 0 <= k < |roles| && Named(roles[k]) == Some(name)
  }

  /** No call is about a policy that was not reached, or about a name the policy does not have. */
  ghost predicate Pertinent(calls: seq<Call>, spec: Spec) {
    forall i: nat, name, ok :: Looked(i, name, ok) in calls ==>
      i < |spec.policies| && Mentions(spec.policies[i].serviceRoles, name)
  }

  ghost predicate Accounts(calls: seq<Call>, spec: Spec, sdone: seq<bool>, pdone: seq<bool>) {
    && |pdone| <= |spec.policies| && Served(calls, sdone) && Pertinent(calls, spec)
    && forall i :: 0 <= i < |pdone| ==> Judged(calls, spec.policies[i].serviceRoles, i, pdone[i])
  }

  /** The pass has come to the policy after those judged. */
  ghost predicate Between(calls: seq<Call>, spec: Spec, sdone: seq<bool>, pdone: seq<bool>, cache: Cache) {
    && Accounts(calls, spec, sdone, pdone)
    && (forall i: nat, ok :: Made(i, ok) in calls ==> i < |pdone|)
    && (forall i: nat, name, ok :: Looked(i, name, ok) in calls ==> i < |pdone|)
    && (forall name :: name in cache <==> Found(calls, name))
  }

  /** Its names up to here are known, and none of its lookups has failed. */
  ghost predicate Amid(calls: seq<Call>, spec: Spec, sdone: seq<bool>, pdone: seq<bool>, cache: Cache, n: nat) {
    && Accounts(calls, spec, sdone, pdone) && |pdone| < |spec.policies|
    && (forall i: nat, ok :: Made(i, ok) in calls ==> i < |pdone|)
    && (forall i: nat, name, ok :: Looked(i, name, ok) in calls ==> i < |pdone| || (i == |pdone| && ok))
    && (forall name :: name in cache <==> Found(calls, name))
    && CachedUpTo(cache, spec.policies[|pdone|].serviceRoles, n)
  }

  predicate CachedUpTo(cache: Cache, roles: seq<string>, n: nat) {
    n <= |roles| && forall k :: 0 <= k < n && Named(roles[k]).Some? ==> Named(roles[k]).value in cache
  }

  /** The worker's own account agrees with the calls. */
  ghost predicate Recounts(calls: seq<Call>, pc: Pc) {
    match pc
    case Idle(_) => true
    case Ensuring(obj, sdone) => Between(calls, obj.spec, sdone, [], map[])
    case Resolving(obj, sdone, pdone, cache, resolved) => Amid(calls, obj.spec, sdone, pdone, cache, |resolved|)
    case Creating(obj, sdone, pdone, cache, _) =>
      |pdone| < |obj.spec.policies| &&
          Amid(calls, obj.spec, sdone, pdone, cache, |obj.spec.policies[|pdone|].serviceRoles|)
    case Saving(obj, _, sdone, pdone) => exists cache :: Between(calls, obj.spec, sdone, pdone, cache)
  }

  // ---- Steps ----

  lemma {:induction false} ReachIsCached(cache: Cache, roles: seq<string>, resolved: seq<string>)
    requires CachedUpTo(cache, roles, |resolved|)
    ensures CachedUpTo(cache, roles, |Reach(roles, cache, resolved)|)
    decreases |roles| - |resolved|
  {
    if |resolved| < |roles| {
      match Named(roles[|resolved|])
      case None => ReachIsCached(cache, roles, resolved + [roles[|resolved|]]);
      case Some(name) => if name in cache { ReachIsCached(cache, roles, resolved + ["@" + cache[name]]); }
    }
  }

  lemma WalkRecounts(calls: seq<Call>, obj: Object, sdone: seq<bool>, pdone: seq<bool>, cache: Cache,
      resolved: seq<string>)
    requires Amid(calls, obj.spec, sdone, pdone, cache, |resolved|)
    ensures Recounts(calls, Walk(obj, sdone, pdone, cache, resolved))
  {
    ReachIsCached(cache, obj.spec.policies[|pdone|].serviceRoles, resolved);
  }

  lemma NextRecounts(calls: seq<Call>, obj: Object, sdone: seq<bool>, pdone: seq<bool>, cache: Cache)
    requires Between(calls, obj.spec, sdone, pdone, cache)
    ensures Recounts(calls, NextPolicy(obj, sdone, pdone, cache))
  {
    if |pdone| < |obj.spec.policies| && ServicePolicyType(obj.spec.policies[|pdone|].kind).Some? {
      WalkRecounts(calls, obj, sdone, pdone, cache, []);
    }
  }

  lemma ServicesRecount(calls: seq<Call>, obj: Object, sdone: seq<bool>)
    requires |sdone| <= |obj.spec.services| && Between(calls, obj.spec, sdone, [], map[])
    ensures Recounts(calls, AfterServices(obj, sdone))
  {
    if |sdone| == |obj.spec.services| {
      NextRecounts(calls, obj.(status := obj.status.(services := Applied(ServiceNames(obj.spec), sdone))), sdone, [],
          map[]);
    }
  }

  /** Calls about later policies do not bear on this one. */
  lemma JudgedStays(calls: seq<Call>, call: Call, roles: seq<string>, i: nat, done: bool)
    requires Judged(calls, roles, i, done) && (call.Asked? || call.policy > i)
    ensures Judged(calls + [call], roles, i, done)
  {
    var more := calls + [call];
    forall name | KnownBy(calls, i, name) ensures KnownBy(more, i, name) {
      var j: nat :| j <= i && Looked(j, name, true) in calls;
      assert Looked(j, name, true) in more;
    }
    assert forall name :: KnownBy(more, i, name) ==> KnownBy(calls, i, name);
  }

  lemma AskedRecounts(calls: seq<Call>, obj: Object, sdone: seq<bool>, ok: bool)
    requires |sdone| < |obj.spec.services| && Between(calls, obj.spec, sdone, [], map[])
    ensures Recounts(calls + [Asked(|sdone|, ok)], AfterServices(obj, sdone + [ok]))
  {
    var more, sdone' := calls + [Asked(|sdone|, ok)], sdone + [ok];
    assert forall j: nat, name, good :: Looked(j, name, good) in more <==> Looked(j, name, good) in calls;
    assert forall name :: Found(more, name) == Found(calls, name);
    ServicesRecount(more, obj, sdone');
  }

  lemma FoundRecounts(calls: seq<Call>, obj: Object, sdone: seq<bool>, pdone: seq<bool>, cache: Cache,
      resolved: seq<string>, name: string, id: string)
    requires Amid(calls, obj.spec, sdone, pdone, cache, |resolved|)
    requires Mentions(obj.spec.policies[|pdone|].serviceRoles, name)
    ensures Recounts(calls + [Looked(|pdone|, name, true)], Walk(obj, sdone, pdone, cache[name := id], resolved))
  {
    var call := Looked(|pdone|, name, true);
    LaterKeepsAccounts(calls, call, obj.spec, sdone, pdone);
    var more := calls + [call];
    assert Looked(|pdone|, name, true) in more;
    forall n ensures Found(more, n) == (n == name || Found(calls, n)) {
      if Found(calls, n) {
        var j: nat :| Looked(j, n, true) in calls;
        assert Looked(j, n, true) in more;
      }
    }
    WalkRecounts(more, obj, sdone, pdone, cache[name := id], resolved);
  }

  lemma LaterKeepsAccounts(calls: seq<Call>, call: Call, spec: Spec, sdone: seq<bool>, pdone: seq<bool>)
    requires Accounts(calls, spec, sdone, pdone) && !call.Asked? && call.policy == |pdone| < |spec.policies|
    requires call.Looked? ==> Mentions(spec.policies[|pdone|].serviceRoles, call.name)
    ensures Accounts(calls + [call], spec, sdone, pdone)
  {
    forall i | 0 <= i < |pdone| ensures Judged(calls + [call], spec.policies[i].serviceRoles, i, pdone[i]) {
      JudgedStays(calls, call, spec.policies[i].serviceRoles, i, pdone[i]);
    }
  }

  lemma MissedRecounts(calls: seq<Call>, obj: Object, sdone: seq<bool>, pdone: seq<bool>, cache: Cache,
      n: nat, name: string)
    requires Amid(calls, obj.spec, sdone, pdone, cache, n) && name !in cache
    requires Mentions(obj.spec.policies[|pdone|].serviceRoles, name)
    ensures Recounts(calls + [Looked(|pdone|, name, false)], NextPolicy(obj, sdone, pdone + [false], cache))
  {
    var call, roles := Looked(|pdone|, name, false), obj.spec.policies[|pdone|].serviceRoles;
    var more := calls + [call];
    LaterKeepsAccounts(calls, call, obj.spec, sdone, pdone);
    assert forall j: nat, m :: Looked(j, m, true) in more <==> Looked(j, m, true) in calls;
    assert forall m :: Found(more, m) == Found(calls, m);
    assert !KnownBy(more, |pdone|, name);
    assert Judged(more, roles, |pdone|, false);
    NextRecounts(more, obj, sdone, pdone + [false], cache);
  }

  lemma MadeRecounts(calls: seq<Call>, obj: Object, sdone: seq<bool>, pdone: seq<bool>, cache: Cache, ok: bool)
    requires |pdone| < |obj.spec.policies|
    requires Amid(calls, obj.spec, sdone, pdone, cache, |obj.spec.policies[|pdone|].serviceRoles|)
    ensures Recounts(calls + [Made(|pdone|, ok)], NextPolicy(obj, sdone, pdone + [ok], cache))
  {
    var call, roles := Made(|pdone|, ok), obj.spec.policies[|pdone|].serviceRoles;
    var more := calls + [call];
    LaterKeepsAccounts(calls, call, obj.spec, sdone, pdone);
    assert forall j: nat, m, good :: Looked(j, m, good) in more <==> Looked(j, m, good) in calls;
    assert forall m :: Found(more, m) == Found(calls, m);
    forall k | 0 <= k < |roles| && Named(roles[k]).Some? ensures KnownBy(more, |pdone|, Named(roles[k]).value) {
      var j: nat :| Looked(j, Named(roles[k]).value, true) in calls;
      assert Looked(j, Named(roles[k]).value, true) in more;
    }
    assert Judged(more, roles, |pdone|, ok);
    NextRecounts(more, obj, sdone, pdone + [ok], cache);
  }

  lemma AnswerRecounts(s: State, reply: Reply, id: string, calls: seq<Call>)
    requires Inv(s) && Recounts(calls, s.pc)
    ensures Recounts(calls + Ended(s, Answer(reply, id)), Continue(s, reply, id).pc)
  {
    match s.pc
    case Idle(_) =>
    case Ensuring(obj, sdone) => AskedRecounts(calls, obj, sdone, reply.Accepted?);
    case Resolving(obj, sdone, pdone, cache, resolved) =>
      var name := PendingName(s.pc).value;
      assert Mentions(obj.spec.policies[|pdone|].serviceRoles, name);
      if reply.Accepted? && name in s.mesh.services {
        FoundRecounts(calls, obj, sdone, pdone, cache, resolved, name, s.mesh.services[name].id);
      } else {
        MissedRecounts(calls, obj, sdone, pdone, cache, |resolved|, name);
      }
    case Creating(obj, sdone, pdone, cache, _) => MadeRecounts(calls, obj, sdone, pdone, cache, reply.Accepted?);
    case Saving(_, _, _, _) =>
  }

  lemma {:induction false} RunRecounts(s: State, labels: seq<Label>)
    requires Init(s)
    ensures Recounts(CallsOfPass(s, labels), Exec(s, labels).pc)
  {
    if labels != [] {
      var before, l := labels[..|labels| - 1], labels[|labels| - 1];
      var e := Exec(s, before);
      RunRecounts(s, before);
      Reachable(s, before);
      match l
      case Begin =>
        if e.pc.Idle? && e.declared.Some? && !e.declared.value.deleting { ServicesRecount([], e.declared.value, []); }
        assert CallsOfPass(s, before) + [] == CallsOfPass(s, before);
      case Answer(reply, id) => AnswerRecounts(e, reply, id, CallsOfPass(s, before));
      case _ => assert CallsOfPass(s, before) + [] == CallsOfPass(s, before);
    }
  }

  /** Over every run, with one reply per call: what a pass is about to record follows from its own calls,
      service by service and policy by policy, and from nothing else. */
  lemma AppliedByItsCalls(s: State, labels: seq<Label>)
    requires Init(s) && Exec(s, labels).pc.Saving?
    ensures var Saving(obj, _, sdone, pdone) := Exec(s, labels).pc; var calls := CallsOfPass(s, labels);
            && |sdone| == |obj.spec.services| && |pdone| <= |obj.spec.policies|
            && (forall i: nat, ok :: Asked(i, ok) in calls <==> i < |sdone| && ok == sdone[i])
            && (forall i :: 0 <= i < |pdone| ==> Judged(calls, obj.spec.policies[i].serviceRoles, i, pdone[i]))
            && (forall i: nat, ok :: Made(i, ok) in calls ==> i < |pdone|)
            && (forall i: nat, name, ok :: Looked(i, name, ok) in calls ==>
                  i < |pdone| && Mentions(obj.spec.policies[i].serviceRoles, name))
            && obj.status.services == Applied(ServiceNames(obj.spec), sdone)
            && (|pdone| == |obj.spec.policies| ==> obj.status.policies == Applied(PolicyNames(obj.spec), pdone))
  {
    RunRecounts(s, labels);
    Reachable(s, labels);
  }
}
