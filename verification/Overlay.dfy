/** internal/controller/overlaypolicy_controller.go as a state machine, one step per external call.
    The worker, other writers of the overlay and whoever edits the declaration act in any order;
    `Apply` is total, so every list of labels is a run. */
module Overlay {
  import opened Status
  import opened Paging

  // ---- The declaration ----

  datatype PortRange = PortRange(low: int, high: int)

  datatype Intercept = Intercept(protocols: seq<string>, addresses: seq<string>, ports: seq<PortRange>)

  datatype Service = Service(name: string, attributes: seq<string>, intercept: Option<Intercept>)

  /** A policy as declared: the type is a word, a service role is "@name" or "#attribute". */
  datatype Policy = Policy(name: string, kind: string, identityRoles: seq<string>, serviceRoles: seq<string>)

  datatype Spec = Spec(services: seq<Service>, policies: seq<Policy>)

  datatype Standing = Standing(services: seq<string>, policies: seq<string>, verdict: Verdict, observed: nat)

  datatype Object = Object(version: nat, generation: nat, deleting: bool, spec: Spec, status: Standing)

  // ---- The overlay ----

  datatype PolicyType = Dial | Bind

  datatype WireRange = WireRange(low: int, high: int)

  datatype WireIntercept = WireIntercept(protocols: seq<string>, addresses: seq<string>, ports: seq<WireRange>)

  datatype Hosted = Hosted(id: string, attributes: seq<string>, intercept: Option<WireIntercept>)

  datatype Rule = Rule(kind: PolicyType, identityRoles: seq<string>, serviceRoles: seq<string>)

  datatype Mesh = Mesh(services: map<string, Hosted>, policies: map<string, Rule>) {
    /** CreateService and CreateServicePolicy with return_existing: what is there is left alone. */
    function AddService(name: string, hosted: Hosted): Mesh {
      if name in services then this else this.(services := services[name := hosted])
    }
    function AddPolicy(name: string, rule: Rule): Mesh {
      if name in policies then this else this.(policies := policies[name := rule])
    }
  }

  /** Everything that was there is there, as it was. */
  ghost predicate Extends(a: Mesh, b: Mesh) {
    && (forall name :: name in a.services ==> name in b.services && b.services[name] == a.services[name])
    && (forall name :: name in a.policies ==> name in b.policies && b.policies[name] == a.policies[name])
  }

  function ServicePolicyType(value: string): Option<PolicyType> {
    match value
    case "Dial" => Some(Dial)
    case "Bind" => Some(Bind)
    case _ => None
  }

  function Wired(ranges: seq<PortRange>): seq<WireRange> {
    seq(|ranges|, k requires 0 <= k < |ranges| => WireRange(ranges[k].low, ranges[k].high))
  }

  /** What CreateService is asked for. */
  function Request(service: Service, id: string): Hosted {
    Hosted(id, service.attributes,
           match service.intercept
           case None => None
           case Some(i) => Some(WireIntercept(i.protocols, i.addresses, Wired(i.ports))))
  }

  // ---- Service roles ----

  /** The service a role names, if it is written "@name". */
  function Named(role: string): Option<string> {
    if |role| > 0 && role[0] == '@' then Some(role[1..]) else None
  }

  /** A role's direct lookup: "@name" is the id of the service of that name, anything else stays. */
  predicate LooksUp(services: map<string, Hosted>, role: string, resolved: string) {
    if role != "" && role[0] == '@'
    then role[1..] in services && resolved == "@" + services[role[1..]].id
    else resolved == role
  }

  /** The roles with every "@name" looked up one by one. */
  ghost predicate IsDirect(services: map<string, Hosted>, roles: seq<string>, resolved: seq<string>) {
    |resolved| == |roles| && forall k :: 0 <= k < |roles| ==> LooksUp(services, roles[k], resolved[k])
  }

  // ---- The worker ----

  type Cache = map<string, string>

  /** Where the worker is between two calls. `sdone` and `pdone` say of each declared service and
      policy reached so far whether it was applied; `resolved` are the roles of the policy at hand. */
  datatype Pc =
    | Idle(outcome: Outcome)
    | Ensuring(obj: Object, sdone: seq<bool>)
    | Resolving(obj: Object, sdone: seq<bool>, pdone: seq<bool>, cache: Cache, resolved: seq<string>)
    | Creating(obj: Object, sdone: seq<bool>, pdone: seq<bool>, cache: Cache, resolved: seq<string>)
    | Saving(obj: Object, retry: Retry, sdone: seq<bool>, pdone: seq<bool>)

  /** History: the successful lookups of the running pass, and the services and policies the controller
      created, with what was declared for each. */
  datatype Log = Log(found: seq<string>, hosted: map<string, Service>, made: map<string, Policy>)

  datatype State = State(declared: Option<Object>, mesh: Mesh, pc: Pc, clock: nat, log: Log) {
    predicate Writable(version: nat) { declared.Some? && declared.value.version == version }
    function Answered(version: nat, reply: Reply): WriteResult {
      if reply.Failed? || declared.None? then Error else if Writable(version) then Written else Conflict
    }
    function Store(obj: Object): State { this.(declared := Some(obj.(version := clock + 1)), clock := clock + 1) }
  }

  datatype Label =
    | Begin
    | Answer(reply: Reply, id: string)
    | Crash
    | Declare(spec: Spec)
    | Edit(spec: Spec)
    | Touch
    | MarkDeleted
    | Remove
    | Host(name: string, hosted: Hosted)    // somebody else adds a service
    | Permit(name: string, rule: Rule)      // or a policy

  /** The names applied, in the order declared. */
  function Applied(names: seq<string>, done: seq<bool>): seq<string>
    requires |done| <= |names|
  {
    if done == [] then []
    else
      var k := |done| - 1;
      Applied(names, done[..k]) + if done[k] then [names[k]] else []
  }

  function ServiceNames(spec: Spec): seq<string> {
    seq(|spec.services|, i requires 0 <= i < |spec.services| => spec.services[i].name)
  }
  function PolicyNames(spec: Spec): seq<string> {
    seq(|spec.policies|, i requires 0 <= i < |spec.policies| => spec.policies[i].name)
  }

  predicate All(done: seq<bool>) { forall i :: 0 <= i < |done| ==> done[i] }

  function Mark(obj: Object, reason: Reason): Object {
    obj.(status := obj.status.(verdict := Set(reason), observed := obj.generation))
  }

  /** A service answered, or none was declared. */
  function AfterServices(obj: Object, sdone: seq<bool>): Pc
    requires |sdone| <= |obj.spec.services|
  {
    if |sdone| < |obj.spec.services| then Ensuring(obj, sdone)
    else NextPolicy(obj.(status := obj.status.(services := Applied(ServiceNames(obj.spec), sdone))), sdone, [], map[])
  }

  /** The policy after those in `pdone`, up to its first call; or the end of the pass. */
  function NextPolicy(obj: Object, sdone: seq<bool>, pdone: seq<bool>, cache: Cache): Pc
    requires |pdone| <= |obj.spec.policies|
  {
    if |pdone| == |obj.spec.policies| then
      var obj' := obj.(status := obj.status.(policies := Applied(PolicyNames(obj.spec), pdone)));
      if All(sdone) && All(pdone) then Saving(Mark(obj', Reconciled), Done, sdone, pdone)
      else Saving(Mark(obj', Pending), Requeue, sdone, pdone)
    else if ServicePolicyType(obj.spec.policies[|pdone|].kind).None?
        then Saving(Mark(obj, Rejected), Done, sdone, pdone)
    else Walk(obj, sdone, pdone, cache, [])
  }

  /** Resolves roles as far as the cache reaches. */
  function Reach(roles: seq<string>, cache: Cache, resolved: seq<string>): seq<string>
    requires |resolved| <= |roles|
    decreases |roles| - |resolved|
  {
    if |resolved| == |roles| then resolved
    else match Named(roles[|resolved|])
      case None => Reach(roles, cache, resolved + [roles[|resolved|]])
      case Some(name) => if name in cache then Reach(roles, cache, resolved + ["@" + cache[name]]) else resolved
  }

  lemma {:induction false} ReachStays(roles: seq<string>, cache: Cache, resolved: seq<string>)
    requires |resolved| <= |roles|
    ensures var r := Reach(roles, cache, resolved);
            && resolved <= r && |r| <= |roles|
            && (|r| < |roles| ==> Named(roles[|r|]).Some? && Named(roles[|r|]).value !in cache)
    decreases |roles| - |resolved|
  {
    if |resolved| < |roles| {
      match Named(roles[|resolved|])
      case None => ReachStays(roles, cache, resolved + [roles[|resolved|]]);
      case Some(name) => if name in cache { ReachStays(roles, cache, resolved + ["@" + cache[name]]); }
    }
  }

  function Walk(obj: Object, sdone: seq<bool>, pdone: seq<bool>, cache: Cache, resolved: seq<string>): Pc
    requires |pdone| < |obj.spec.policies| && |resolved| <= |obj.spec.policies[|pdone|].serviceRoles|
  {
    var roles := obj.spec.policies[|pdone|].serviceRoles;
    var reached := Reach(roles, cache, resolved);
    if |reached| == |roles| then Creating(obj, sdone, pdone, cache, reached)
        else Resolving(obj, sdone, pdone, cache, reached)
  }

  // ---- Steps ----

  function Apply(s: State, l: Label): State {
    match l
    case Begin =>
      if !s.pc.Idle? || s.declared.None? then s
      else if s.declared.value.deleting then s.(pc := Idle(Nothing))
      else s.(pc := AfterServices(s.declared.value, []), log := s.log.(found := []))
    case Answer(reply, id) => Continue(s, reply, id)
    case Crash => s.(pc := Idle(Nothing))
    case Declare(spec) => if s.declared.Some? then s else s.Store(Object(0, 1, false, spec, Standing([], [], Unset, 0)))
    case Edit(spec) =>
      if s.declared.None? then s
      else s.Store(s.declared.value.(spec := spec, generation := s.declared.value.generation + 1))
    case Touch => if s.declared.None? then s else s.Store(s.declared.value)
    case MarkDeleted =>
      if s.declared.None? then s
      else s.Store(s.declared.value.(deleting := true, generation := s.declared.value.generation + 1))
    case Remove => s.(declared := None)
    case Host(name, hosted) => s.(mesh := s.mesh.AddService(name, hosted))
    case Permit(name, rule) => s.(mesh := s.mesh.AddPolicy(name, rule))
  }

  /** The worker's pending call ends; `id` is what a new service gets. */
  function Continue(s: State, reply: Reply, id: string): State {
    match s.pc
    case Idle(_) => s
    case Ensuring(obj, sdone) => if |sdone| < |obj.spec.services| then EnsureService(s, reply, id) else s
    case Resolving(obj, sdone, pdone, cache, resolved) =>
      if |pdone| < |obj.spec.policies| && |resolved| < |obj.spec.policies[|pdone|].serviceRoles| then LookUp(s, reply)
          else s
    case Creating(obj, sdone, pdone, cache, resolved) =>
        if |pdone| < |obj.spec.policies| then CreatePolicy(s, reply) else s
    case Saving(obj, retry, sdone, pdone) => SaveStatus(s, reply)
  }

  function EnsureService(s: State, reply: Reply, id: string): State
    requires s.pc.Ensuring? && |s.pc.sdone| < |s.pc.obj.spec.services|
  {
    var Ensuring(obj, sdone) := s.pc;
    var service := obj.spec.services[|sdone|];
    var makes := reply.TookEffect() && service.name !in s.mesh.services;
    s.(mesh := if makes then s.mesh.AddService(service.name, Request(service, id)) else s.mesh,
       log := if makes then s.log.(hosted := s.log.hosted[service.name := service]) else s.log,
       pc := AfterServices(obj, sdone + [reply.Accepted?]))
  }

  /** ListServices by name. An error or an empty list leaves the policy pending. */
  function LookUp(s: State, reply: Reply): State
    requires s.pc.Resolving? && |s.pc.pdone| < |s.pc.obj.spec.policies|
    requires |s.pc.resolved| < |s.pc.obj.spec.policies[|s.pc.pdone|].serviceRoles|
  {
    var Resolving(obj, sdone, pdone, cache, resolved) := s.pc;
    match Named(obj.spec.policies[|pdone|].serviceRoles[|resolved|])
    case None => s
    case Some(name) =>
      if reply.Accepted? && name in s.mesh.services
      then s.(pc := Walk(obj, sdone, pdone, cache[name := s.mesh.services[name].id], resolved),
              log := s.log.(found := s.log.found + [name]))
      else s.(pc := NextPolicy(obj, sdone, pdone + [false], cache))
  }

  function CreatePolicy(s: State, reply: Reply): State
    requires s.pc.Creating? && |s.pc.pdone| < |s.pc.obj.spec.policies|
  {
    var Creating(obj, sdone, pdone, cache, resolved) := s.pc;
    var policy := obj.spec.policies[|pdone|];
    var kind := ServicePolicyType(policy.kind);
    var makes := reply.TookEffect() && kind.Some? && policy.name !in s.mesh.policies;
    s.(mesh := if makes then s.mesh.AddPolicy(policy.name, Rule(kind.value, policy.identityRoles, resolved))
        else s.mesh,
       log := if makes then s.log.(made := s.log.made[policy.name := policy]) else s.log,
       pc := NextPolicy(obj, sdone, pdone + [reply.Accepted?], cache))
  }

  function SaveStatus(s: State, reply: Reply): State
    requires s.pc.Saving?
  {
    var Saving(obj, retry, _, _) := s.pc;
    var s' := s.(pc := Idle(AfterWrite(s.Answered(obj.version, reply), Again(retry))));
    if s.Writable(obj.version) && reply.TookEffect() then s'.Store(s.declared.value.(status := obj.status)) else s'
  }

  // ---- Runs ----

  function Exec(s: State, labels: seq<Label>): State {
    if labels == [] then s else Apply(Exec(s, labels[..|labels| - 1]), labels[|labels| - 1])
  }

  lemma ExecSnoc(s: State, labels: seq<Label>, l: Label)
    ensures Exec(s, labels + [l]) == Apply(Exec(s, labels), l)
  {
    assert (labels + [l])[..|labels|] == labels;
  }

  ghost predicate Init(s: State) {
    s.declared.None? && s.pc == Idle(Nothing) && s.log == Log([], map[], map[])
  }
}
