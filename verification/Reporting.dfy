/** What a landed status means: a Ready one, that the platform matches the declaration; any one, that
    the generation it names is the one it was computed from and that the queue was told to come back.
    No assumption on the labels: every edit, removal and failure is allowed. */
module Reporting {
  import opened Status
  import opened Paging
  import opened Provisioning
  import opened Words

  /** A key names what a declaration names. */
  predicate Names(spec: Spec, key: Key) {
    match (spec, key)
    case (OrganizationSpec(slug, _), OrganizationKey(k)) => k == slug
    case (ImageSpec(_, name, _, _, _, _, _, _), ImageKey(_, k)) => k == name
    case (AppSpec(_, slug, _, _, _, _), AppKey(_, k)) => k == slug
    case (RunnerSpec(name, _, _, _), RunnerKey(k)) => k == name
    case _ => false
  }

  /** The store hands out versions once, and a declaration's spec is of its kind. */
  ghost predicate AllStoredWell(s: State) {
    forall name :: name in s.objects ==> StoredWell(s, name)
  }

  predicate StoredWell(s: State, name: Name)
    requires name in s.objects
  {
    var o := s.objects[name];
    o.version <= s.clock && o.spec.Kind() == name.kind && o.status.observed <= o.generation
  }

  /** A worker's copy is the stored declaration as long as the version is. */
  predicate Copy(s: State, name: Name, obj: Object) {
    && obj.version <= s.clock
    && (s.Writable(name, obj.version) ==>
          s.objects[name].spec == obj.spec && s.objects[name].generation == obj.generation)
  }

  predicate Agrees(s: State, spec: Spec, key: Key, login: Login, id: string) {
    && WellFormed(spec) && key in s.records && s.records[key].id == id
    && Matches(spec, login, s.records[key].body)
  }

  /** What a worker knows about the platform while nobody has edited it by hand. */
  ghost predicate Sight(s: State, kind: Kind, pc: Pc) {
    pc.Idle? ||
    (pc.name.kind == kind && pc.obj.spec.Kind() == kind && Copy(s, pc.name, pc.obj) &&
     match pc
     case Resolving(_, obj) => obj.spec.ImageSpec? || obj.spec.AppSpec?
     case ReadingCredentials(_, obj, _) => obj.spec.ImageSpec? && WellFormed(obj.spec) && obj.spec.credentials.Some?
     case Looking(_, obj, key, _) => Names(obj.spec, key) && WellFormed(obj.spec)
     case Checking(_, obj, key, _, found) =>
       && Names(obj.spec, key) && WellFormed(obj.spec) && obj.spec.Minting() && obj.status.platformId == found.id
       && (kind in s.log.calm ==>
             && key in s.records && s.records[key] == found
             && (obj.spec.RunnerSpec? ==> found.body.RunnerBody?))
     case Updating(_, obj, key, _, id, _) =>
       && Names(obj.spec, key) && WellFormed(obj.spec)
       && (kind in s.log.calm ==>
             key in s.records && s.records[key].id == id && Comparable(obj.spec, s.records[key].body))
     case Creating(_, obj, key, _) => Names(obj.spec, key) && WellFormed(obj.spec)
     case Storing(_, obj, key, login, id, _) =>
       && Names(obj.spec, key) && WellFormed(obj.spec) && obj.spec.Minting()
       && (kind in s.log.calm ==> Agrees(s, obj.spec, key, login, id))
     case Saving(_, obj, retry, basis) =>
       && obj.status.verdict.Set? && obj.status.observed == obj.generation
       && (basis.Agreed? <==> obj.status.verdict == Set(Reconciled))
       && (obj.status.verdict == Set(Pending) ==> retry == Requeue)
       && (obj.status.verdict == Set(Reconciled) || obj.status.verdict == Set(CredentialMissing) ==> retry == Done)
       && (basis.Agreed? ==> Names(obj.spec, basis.key))
       && (basis.Agreed? && kind in s.log.calm ==> Agrees(s, obj.spec, basis.key, basis.login, obj.status.platformId))
     case Idle(_) => true)
  }

  /** A record's body is of the kind its key says. */
  predicate Typed(key: Key, body: Body) {
    match key
    case OrganizationKey(_) => body.OrganizationBody?
    case ImageKey(_, _) => body.ImageBody?
    case AppKey(_, _) => body.AppBody?
    case _ => body.RunnerBody?
  }

  ghost predicate Inv(s: State) {
    && AllStoredWell(s)
    && (forall key :: key in s.records ==> Typed(key, s.records[key].body))
    && forall kind :: Sight(s, kind, s.Pc(kind))
  }

  /** The platform keeps its own types: a hand edit does not turn an app into an image. */
  predicate Sane(l: Label) { l.Drift? ==> Typed(l.key, l.body) }

  /** Sight survives a step that leaves this kind's records alone, or is a hand edit. */
  lemma SightStays(s: State, s': State, kind: Kind)
    requires Sight(s, kind, s.Pc(kind)) && s'.Pc(kind) == s.Pc(kind) && s.clock <= s'.clock
    requires forall name :: name in s'.objects && s'.objects[name].version <= s.clock ==>
               name in s.objects && s'.objects[name] == s.objects[name]
    requires kind in s'.log.calm ==> kind in s.log.calm
    requires kind in s'.log.calm ==> forall key: Key :: key.Of(kind) && key in s.records ==>
               key in s'.records && s'.records[key] == s.records[key]
    ensures Sight(s', kind, s'.Pc(kind))
  {
    var pc := s.Pc(kind);
    if !pc.Idle? && s'.Writable(pc.name, pc.obj.version) {
      assert s.Writable(pc.name, pc.obj.version);
    }
  }

  lemma MoveKeepsInv(s: State, kind: Kind, pc: Pc)
    requires Inv(s) && Sight(s, kind, pc)
    ensures Inv(s.Move(kind, pc))
  {
    var s' := s.Move(kind, pc);
    forall other ensures Sight(s', other, s'.Pc(other)) {
      if other != kind { SightStays(s, s', other); }
    }
    forall name | name in s'.objects ensures StoredWell(s', name) { assert StoredWell(s, name); }
  }

  lemma StoreKeepsInv(s: State, name: Name, obj: Object)
    requires Inv(s) && obj.spec.Kind() == name.kind && obj.status.observed <= obj.generation
    ensures Inv(s.Store(name, obj))
  {
    var s' := s.Store(name, obj);
    forall other ensures Sight(s', other, s'.Pc(other)) { SightStays(s, s', other); }
    forall n | n in s'.objects ensures StoredWell(s', n) {
      if n != name { assert StoredWell(s, n); }
    }
  }

  /** Steps that only remove declarations, touch Secrets, or edit records by hand. */
  lemma WorldKeepsInv(s: State, s': State)
    requires Inv(s) && s'.workers == s.workers && s'.clock == s.clock && s'.log.calm <= s.log.calm
    requires forall name :: name in s'.objects ==> name in s.objects && s'.objects[name] == s.objects[name]
    requires s'.records == s.records || s'.log.calm == {}
    requires forall key :: key in s'.records ==> Typed(key, s'.records[key].body)
    ensures Inv(s')
  {
    forall other ensures Sight(s', other, s'.Pc(other)) { SightStays(s, s', other); }
    forall n | n in s'.objects ensures StoredWell(s', n) { assert StoredWell(s, n); }
  }

  lemma EditKeepsInv(s: State, l: Label)
    requires Inv(s) && (l.Declare? || l.Edit? || l.Touch? || l.MarkDeleted?)
    ensures Inv(Apply(s, l))
  {
    if l.name in s.objects {
      var o := s.objects[l.name];
      assert StoredWell(s, l.name);
      match l {
        case Edit(name, spec) =>
          if spec.Kind() == name.kind {
            StoreKeepsInv(s, name, o.(spec := spec, generation := o.generation + 1));
          }
        case Touch(name) => StoreKeepsInv(s, name, o);
        case MarkDeleted(name) => StoreKeepsInv(s, name, o.(deleting := true, generation := o.generation + 1));
        case _ =>
      }
    } else if l.Declare? && l.spec.Kind() == l.name.kind {
      StoreKeepsInv(s, l.name, Object(0, 1, false, l.spec, Standing("", "", Unset, 0)));
    }
  }

  /** A pass starts calm: it has seen nothing yet. */
  lemma BeginKeepsInv(s: State, name: Name)
    requires Inv(s)
    ensures Inv(Apply(s, Begin(name)))
  {
    var s' := Apply(s, Begin(name));
    if s.Pc(name.kind).Idle? && name in s.objects {
      assert StoredWell(s, name);
      forall other ensures Sight(s', other, s'.Pc(other)) {
        if other != name.kind { SightStays(s, s', other); }
      }
      forall n | n in s'.objects ensures StoredWell(s', n) { assert StoredWell(s, n); }
    }
  }

  lemma EnvironmentKeepsInv(s: State, l: Label)
    requires Inv(s) && Sane(l) && !l.Answer?
    ensures Inv(Apply(s, l))
  {
    match l {
      case Begin(name) => BeginKeepsInv(s, name);
      case Crash(kind) => MoveKeepsInv(s, kind, Idle(Nothing));
      case Declare(_, _) => EditKeepsInv(s, l);
      case Edit(_, _) => EditKeepsInv(s, l);
      case Touch(_) => EditKeepsInv(s, l);
      case MarkDeleted(_) => EditKeepsInv(s, l);
      case _ => WorldKeepsInv(s, Apply(s, l));
    }
  }

  lemma ReadKeepsInv(s: State, kind: Kind, reply: Reply)
    requires Inv(s) && (s.Pc(kind).Resolving? || s.Pc(kind).ReadingCredentials?)
    ensures Inv(Continue(s, kind, reply, "", ""))
  {
    assert Sight(s, kind, s.Pc(kind));
    MoveKeepsInv(s, kind, Continue(s, kind, reply, "", "").Pc(kind));
  }

  lemma LookKeepsInv(s: State, kind: Kind, reply: Reply)
    requires Inv(s) && s.Pc(kind).Looking?
    ensures Inv(Continue(s, kind, reply, "", ""))
  {
    assert Sight(s, kind, s.Pc(kind));
    var Looking(name, obj, key, login) := s.Pc(kind);
    var next := if !reply.Accepted? then Conclude(name, obj, Pending, Requeue)
                else AfterLookup(name, obj, key, login, if key in s.records then Some(s.records[key]) else None);
    MoveKeepsInv(s, kind, next);
  }

  lemma CheckKeepsInv(s: State, kind: Kind, reply: Reply)
    requires Inv(s) && s.Pc(kind).Checking?
    ensures Inv(Continue(s, kind, reply, "", ""))
  {
    assert Sight(s, kind, s.Pc(kind));
    MoveKeepsInv(s, kind, Continue(s, kind, reply, "", "").Pc(kind));
  }

  /** A worker writes a record of its own kind. */
  lemma OwnWriteKeepsInv(s: State, s': State, kind: Kind)
    requires Inv(s) && s'.objects == s.objects && s'.clock == s.clock && s'.log.calm == s.log.calm
    requires forall other :: other != kind ==> s'.Pc(other) == s.Pc(other)
    requires forall key: Key :: !key.Of(kind) && key in s.records ==>
             key in s'.records && s'.records[key] == s.records[key]
    requires forall key :: key in s'.records ==> Typed(key, s'.records[key].body)
    requires Sight(s', kind, s'.Pc(kind))
    ensures Inv(s')
  {
    forall other ensures Sight(s', other, s'.Pc(other)) {
      if other != kind { SightStays(s, s', other); }
    }
    forall n | n in s'.objects ensures StoredWell(s', n) { assert StoredWell(s, n); }
  }

  /** A correction makes the compared fields agree, whatever they were, and touches nothing that is
      not compared: an image keeps its type, repository and (without a declared one) its password, an
      app its permissions. */
  lemma CorrectedMatches(spec: Spec, login: Login, body: Body)
    requires WellFormed(spec) && Comparable(spec, body)
    ensures Matches(spec, login, Corrected(spec, login, body)) && Comparable(spec, Corrected(spec, login, body))
    ensures body.ImageBody? ==> var c := Corrected(spec, login, body);
              c.imageType == body.imageType && c.repository == body.repository &&
              (login.password == "" ==> c.password == body.password)
    ensures body.AppBody? ==> Corrected(spec, login, body).permissions == body.permissions
  {
  }

  /** The record after a pass that finds it. */
  function AfterPass(spec: Spec, login: Login, body: Body): Body
    requires WellFormed(spec)
  {
    if Matches(spec, login, body) then body else Corrected(spec, login, body)
  }

  /** What no pass compares or corrects is as declared. A password counts as corrected only when
      another field drifted too and the declaration carries one. */
  predicate RestAsDeclared(spec: Spec, login: Login, body: Body)
    requires WellFormed(spec)
  {
    match (spec, body)
    case (OrganizationSpec(_, _), OrganizationBody(_)) => true
    case (ImageSpec(_, _, _, t, r, v, _, _), ImageBody(_, _, _, _, password, imageType, repository)) =>
      && imageType == ImageEnums(t, v).value.0 && repository == r
      && (password == login.password || (login.password != "" && !Matches(spec, login, body)))
    case (AppSpec(_, _, _, _, p, _), AppBody(_, _, permissions)) => permissions == p
    case (RunnerSpec(_, l, c, _), RunnerBody(labels, capabilities)) => labels == l && capabilities == c
    case _ => false
  }

  /** What a correction leaves is exactly what is declared if and only if nothing else was changed. */
  lemma CorrectionIsExactIff(spec: Spec, login: Login, body: Body)
    requires WellFormed(spec) && Comparable(spec, body)
    ensures AfterPass(spec, login, body) == Declared(spec, login) <==> RestAsDeclared(spec, login, body)
    ensures body == Declared(spec, login) <==> RestAsDeclared(spec, login, body) && Matches(spec, login, body)
  {
    match spec
    case OrganizationSpec(_, _) =>
    case ImageSpec(_, _, _, _, _, _, _, _) =>
    case AppSpec(_, _, _, _, _, _) =>
    case RunnerSpec(_, _, _, _) =>
  }

  lemma UpdatedRecord(s: State, kind: Kind, reply: Reply)
    requires Inv(s) && s.Pc(kind).Updating? && kind in s.log.calm && reply.TookEffect()
    ensures var pc := s.Pc(kind); Agrees(Update(s, kind, reply), pc.obj.spec, pc.key, pc.login, pc.id)
  {
    assert Sight(s, kind, s.Pc(kind));
    var Updating(name, obj, key, login, id, seen) := s.Pc(kind);
    CorrectedMatches(obj.spec, login, s.records[key].body);
  }

  lemma UpdateMoves(s: State, kind: Kind, reply: Reply)
    requires Inv(s) && s.Pc(kind).Updating?
    ensures var pc := s.Pc(kind);
            var there := pc.key in s.records && s.records[pc.key].id == pc.id;
            var answer := if reply.Accepted? && !there then Failed(NotFound, false) else reply;
            && Update(s, kind, reply).Pc(kind) ==
               AfterUpdate(pc.name, pc.obj, pc.key, pc.login, pc.id, pc.token, answer)
            && (kind in s.log.calm ==> answer == reply)
  {
    assert Sight(s, kind, s.Pc(kind));
  }

  lemma UpdatedSight(s: State, kind: Kind, reply: Reply)
    requires Inv(s) && s.Pc(kind).Updating?
    ensures Sight(Update(s, kind, reply), kind, Update(s, kind, reply).Pc(kind))
  {
    assert Sight(s, kind, s.Pc(kind));
    UpdateMoves(s, kind, reply);
    if kind in s.log.calm && reply.TookEffect() { UpdatedRecord(s, kind, reply); }
  }

  lemma UpdateKeepsInv(s: State, kind: Kind, reply: Reply)
    requires Inv(s) && s.Pc(kind).Updating?
    ensures Inv(Update(s, kind, reply))
  {
    assert Sight(s, kind, s.Pc(kind));
    UpdatedSight(s, kind, reply);
    OwnWriteKeepsInv(s, Update(s, kind, reply), kind);
  }

  lemma CreatedSight(s: State, kind: Kind, reply: Reply, id: string, token: string)
    requires s.Pc(kind).Creating? && Sight(s, kind, s.Pc(kind))
    ensures Sight(Create(s, kind, reply, id, token), kind, Create(s, kind, reply, id, token).Pc(kind))
    ensures var pc, e := s.Pc(kind), Create(s, kind, reply, id, token);
            e.records == s.records ||
            (e.records == s.records[pc.key := e.records[pc.key]] && Typed(pc.key, e.records[pc.key].body) &&
                pc.key.Of(kind))
  {
  }

  lemma CreateKeepsInv(s: State, kind: Kind, reply: Reply, id: string, token: string)
    requires Inv(s) && s.Pc(kind).Creating?
    ensures Inv(Create(s, kind, reply, id, token))
  {
    assert Sight(s, kind, s.Pc(kind));
    CreatedSight(s, kind, reply, id, token);
    OwnWriteKeepsInv(s, Create(s, kind, reply, id, token), kind);
  }

  lemma WriteSecretKeepsInv(s: State, kind: Kind, reply: Reply)
    requires Inv(s) && s.Pc(kind).Storing?
    ensures Inv(WriteSecret(s, kind, reply))
  {
    assert Sight(s, kind, s.Pc(kind));
    OwnWriteKeepsInv(s, WriteSecret(s, kind, reply), kind);
  }

  lemma SaveKeepsInv(s: State, kind: Kind, reply: Reply)
    requires Inv(s) && s.Pc(kind).Saving?
    ensures Inv(SaveStatus(s, kind, reply))
  {
    assert Sight(s, kind, s.Pc(kind));
    var Saving(name, obj, retry, basis) := s.Pc(kind);
    var end := SaveStatus(s, kind, reply).Pc(kind);
    if s.Writable(name, obj.version) && reply.TookEffect() {
      assert StoredWell(s, name);
      StoreKeepsInv(s, name, s.objects[name].(status := obj.status));
      MoveKeepsInv(s.Store(name, s.objects[name].(status := obj.status)), kind, end);
    } else {
      MoveKeepsInv(s, kind, end);
    }
  }

  lemma StepKeepsInv(s: State, l: Label)
    requires Inv(s) && Sane(l)
    ensures Inv(Apply(s, l))
  {
    if !l.Answer? {
      EnvironmentKeepsInv(s, l);
    } else {
      match s.Pc(l.kind) {
        case Idle(_) =>
        case Looking(_, _, _, _) => LookKeepsInv(s, l.kind, l.reply);
        case Checking(_, _, _, _, _) => CheckKeepsInv(s, l.kind, l.reply);
        case Updating(_, _, _, _, _, _) => UpdateKeepsInv(s, l.kind, l.reply);
        case Creating(_, _, _, _) => CreateKeepsInv(s, l.kind, l.reply, l.id, l.token);
        case Storing(_, _, _, _, _, _) => WriteSecretKeepsInv(s, l.kind, l.reply);
        case Saving(_, _, _, _) => SaveKeepsInv(s, l.kind, l.reply);
        case _ => ReadKeepsInv(s, l.kind, l.reply);
      }
    }
  }

  lemma {:induction false} RunKeepsInv(s: State, labels: seq<Label>)
    requires Inv(s) && forall l :: l in labels ==> Sane(l)
    ensures Inv(Exec(s, labels))
  {
    if labels != [] {
      RunKeepsInv(s, labels[..|labels| - 1]);
      StepKeepsInv(Exec(s, labels[..|labels| - 1]), labels[|labels| - 1]);
    }
  }

  /** Any stored world with idle workers. */
  ghost predicate Init(s: State) {
    && AllStoredWell(s) && (forall key :: key in s.records ==> Typed(key, s.records[key].body))
    && forall kind :: s.Pc(kind).Idle?
  }

  ghost predicate Run(s: State, labels: seq<Label>) {
    Init(s) && forall l :: l in labels ==> Sane(l)
  }

  lemma Reachable(s: State, labels: seq<Label>)
    requires Run(s, labels)
    ensures Inv(Exec(s, labels))
  {
    assert Inv(s) by {
      forall kind ensures Sight(s, kind, s.Pc(kind)) {}
    }
    RunKeepsInv(s, labels);
  }

  // ---- Where a pass has its key and its login from ----

  /** The pass a worker is in began with label `i`. */
  ghost predicate BeganAt(s: State, labels: seq<Label>, kind: Kind, i: int) {
    && 0 <= i < |labels| && labels[i].Begin? && labels[i].name.kind == kind
    && Before(s, labels, i).Pc(kind).Idle?
    && forall k :: i < k <= |labels| ==> !Before(s, labels, k).Pc(kind).Idle?
  }

  lemma IdleStaysIdle(s: State, l: Label, kind: Kind)
    requires s.Pc(kind).Idle? && !(l.Begin? && l.name.kind == kind)
    ensures Apply(s, l).Pc(kind).Idle?
  {
    if l.Answer? { AnswerMovesItsWorker(s, l); }
  }

  /** A worker that is in a pass has begun it. */
  lemma {:induction false} PassBegan(s: State, labels: seq<Label>, kind: Kind) returns (i: nat)
    requires s.Pc(kind).Idle? && !Exec(s, labels).Pc(kind).Idle?
    ensures BeganAt(s, labels, kind, i)
  {
    var n := |labels| - 1;
    var before := labels[..n];
    if Exec(s, before).Pc(kind).Idle? {
      i := n;
      IdleThenBegun(s, labels, kind);
    } else {
      i := PassBegan(s, before, kind);
      BeganStays(s, labels, kind, i);
    }
  }

  lemma IdleThenBegun(s: State, labels: seq<Label>, kind: Kind)
    requires labels != [] && Exec(s, labels[..|labels| - 1]).Pc(kind).Idle? && !Exec(s, labels).Pc(kind).Idle?
    ensures BeganAt(s, labels, kind, |labels| - 1)
  {
    var n := |labels| - 1;
    assert labels[..n + 1] == labels;
    if !(labels[n].Begin? && labels[n].name.kind == kind) { IdleStaysIdle(Exec(s, labels[..n]), labels[n], kind); }
  }

  lemma BeganStays(s: State, labels: seq<Label>, kind: Kind, i: int)
    requires labels != [] && BeganAt(s, labels[..|labels| - 1], kind, i) && !Exec(s, labels).Pc(kind).Idle?
    ensures BeganAt(s, labels, kind, i)
  {
    var before := labels[..|labels| - 1];
    assert labels[..|labels|] == labels;
    forall k | i <= k < |labels| ensures Before(s, labels, k) == Before(s, before, k) {
      assert before[..k] == labels[..k];
    }
  }

  predicate HasKey(pc: Pc) {
    pc.Looking? || pc.Checking? || pc.Updating? || pc.Creating? || pc.Storing? || (pc.Saving? && pc.basis.Agreed?)
  }

  function KeyIn(pc: Pc): Key
    requires HasKey(pc)
  {
    if pc.Saving? then pc.basis.key else pc.key
  }

  function LoginIn(pc: Pc): Login
    requires HasKey(pc)
  {
    if pc.Saving? then pc.basis.login else pc.login
  }

  /** At some moment of the pass the declaration's key was this one, its organization known. */
  ghost predicate KeySeen(s: State, labels: seq<Label>, i: nat, spec: Spec, key: Key) {
    exists k :: i <= k <= |labels| && Unblocked(Before(s, labels, k), spec) && key == KeyOf(Before(s, labels, k), spec)
  }

  /** At some moment of the pass the declaration's credentials were these, read from the Secret it names. */
  ghost predicate LoginSeen(s: State, labels: seq<Label>, i: nat, spec: Spec, login: Login) {
    exists k :: i <= k <= |labels| && LoginRead(Before(s, labels, k), spec, login)
  }

  ghost predicate Sourced(s: State, labels: seq<Label>, i: nat, pc: Pc) {
    && (HasKey(pc) ==>
          && KeySeen(s, labels, i, pc.obj.spec, KeyIn(pc))
          && LoginSeen(s, labels, i, pc.obj.spec, LoginIn(pc)))
    && (pc.ReadingCredentials? ==>
          && pc.obj.spec.ImageSpec? && pc.obj.spec.credentials.Some?
          && KeySeen(s, labels, i, pc.obj.spec, ImageKey(pc.organization, pc.obj.spec.name)))
  }

  /** One step of a pass: key and login are kept, or are what the declaration's are now. */
  ghost predicate Draws(s: State, pc: Pc, pc': Pc)
    requires !pc.Idle? && !pc'.Idle?
  {
    && pc'.obj.spec == pc.obj.spec
    && var spec := pc.obj.spec;
       && (HasKey(pc') ==>
             || (HasKey(pc) && KeyIn(pc') == KeyIn(pc) && LoginIn(pc') == LoginIn(pc))
             || (Unblocked(s, spec) && Readable(s, spec) && KeyIn(pc') == KeyOf(s, spec) &&
                 LoginIn(pc') == LoginOf(s, spec))
             || (pc.ReadingCredentials? && spec.ImageSpec? && Readable(s, spec) && LoginIn(pc') == LoginOf(s, spec)
                 && KeyIn(pc') == ImageKey(pc.organization, spec.name)))
       && (pc'.ReadingCredentials? ==>
             && spec.ImageSpec? && spec.credentials.Some? && Unblocked(s, spec)
             && ImageKey(pc'.organization, spec.name) == KeyOf(s, spec))
  }

  lemma ReadDraws(s: State, l: Label)
    requires l.Answer? && (s.Pc(l.kind).Resolving? || s.Pc(l.kind).ReadingCredentials?)
    requires s.Pc(l.kind).ReadingCredentials? ==>
             s.Pc(l.kind).obj.spec.ImageSpec? && s.Pc(l.kind).obj.spec.credentials.Some?
    ensures !Apply(s, l).Pc(l.kind).Idle? && Draws(s, s.Pc(l.kind), Apply(s, l).Pc(l.kind))
  {
  }

  lemma CallDraws(s: State, l: Label)
    requires l.Answer? && (s.Pc(l.kind).Looking? || s.Pc(l.kind).Checking?)
    ensures !Apply(s, l).Pc(l.kind).Idle? && Draws(s, s.Pc(l.kind), Apply(s, l).Pc(l.kind))
  {
  }

  lemma WriteDraws(s: State, l: Label)
    requires l.Answer? && (s.Pc(l.kind).Updating? || s.Pc(l.kind).Creating? || s.Pc(l.kind).Storing?)
    ensures !Apply(s, l).Pc(l.kind).Idle? && Draws(s, s.Pc(l.kind), Apply(s, l).Pc(l.kind))
  {
    match s.Pc(l.kind) {
      case Updating(_, _, _, _, _, _) => assert Apply(s, l) == Update(s, l.kind, l.reply);
      case Creating(_, _, _, _) => assert Apply(s, l) == Create(s, l.kind, l.reply, l.id, l.token);
      case Storing(_, _, _, _, _, _) => assert Apply(s, l) == WriteSecret(s, l.kind, l.reply);
    }
  }

  lemma SeenStays(s: State, labels: seq<Label>, l: Label, i: nat, pc: Pc)
    requires Sourced(s, labels, i, pc)
    ensures Sourced(s, labels + [l], i, pc)
  {
    assert forall k :: 0 <= k <= |labels| ==> (labels + [l])[..k] == labels[..k];
    assert forall k :: 0 <= k <= |labels| ==> Before(s, labels + [l], k) == Before(s, labels, k);
  }

  lemma SeenNow(s: State, labels: seq<Label>, i: nat, spec: Spec)
    requires i <= |labels|
    ensures Unblocked(Exec(s, labels), spec) ==> KeySeen(s, labels, i, spec, KeyOf(Exec(s, labels), spec))
    ensures Readable(Exec(s, labels), spec) ==> LoginSeen(s, labels, i, spec, LoginOf(Exec(s, labels), spec))
  {
    assert labels[..|labels|] == labels;
    assert Before(s, labels, |labels|) == Exec(s, labels);
    if Readable(Exec(s, labels), spec) { LoginIsRead(Exec(s, labels), spec); }
  }

  /** A step keeps the sources: what it draws on is the state before it. */
  lemma DrawKeepsSources(s: State, labels: seq<Label>, l: Label, i: nat, pc: Pc, pc': Pc)
    requires i <= |labels| && Sourced(s, labels, i, pc) && !pc.Idle? && !pc'.Idle? && Draws(Exec(s, labels), pc, pc')
    ensures Sourced(s, labels + [l], i, pc')
  {
    SeenNow(s, labels, i, pc.obj.spec);
    assert Sourced(s, labels, i, pc');
    SeenStays(s, labels, l, i, pc');
  }

  lemma BeginSources(s: State, labels: seq<Label>, name: Name)
    requires Exec(s, labels).Pc(name.kind).Idle?
    ensures Sourced(s, labels + [Begin(name)], |labels|, Apply(Exec(s, labels), Begin(name)).Pc(name.kind))
  {
    var e := Exec(s, labels);
    if name in e.objects {
      SeenNow(s, labels, |labels|, e.objects[name].spec);
      assert Sourced(s, labels, |labels|, Apply(e, Begin(name)).Pc(name.kind));
      SeenStays(s, labels, Begin(name), |labels|, Apply(e, Begin(name)).Pc(name.kind));
    }
  }

  lemma OwnStepSources(s: State, labels: seq<Label>, l: Label, i: nat)
    requires l.Answer? && i <= |labels| && Sourced(s, labels, i, Exec(s, labels).Pc(l.kind))
    requires !Exec(s, labels).Pc(l.kind).Idle? && !Exec(s, labels).Pc(l.kind).Saving?
    ensures Sourced(s, labels + [l], i, Apply(Exec(s, labels), l).Pc(l.kind))
  {
    var e := Exec(s, labels);
    match e.Pc(l.kind) {
      case Resolving(_, _) => ReadDraws(e, l);
      case ReadingCredentials(_, _, _) => ReadDraws(e, l);
      case Looking(_, _, _, _) => CallDraws(e, l);
      case Checking(_, _, _, _, _) => CallDraws(e, l);
      case _ => WriteDraws(e, l);
    }
    DrawKeepsSources(s, labels, l, i, e.Pc(l.kind), Apply(e, l).Pc(l.kind));
  }

  lemma BeganBefore(s: State, labels: seq<Label>, kind: Kind, i: int)
    requires BeganAt(s, labels, kind, i) && i < |labels| - 1
    ensures BeganAt(s, labels[..|labels| - 1], kind, i) && !Exec(s, labels[..|labels| - 1]).Pc(kind).Idle?
  {
    var before := labels[..|labels| - 1];
    forall k | 0 <= k < |labels| ensures Before(s, labels, k) == Before(s, before, k) {
      assert before[..k] == labels[..k];
    }
    assert Before(s, labels, |labels| - 1) == Exec(s, before);
  }

  /** Whatever a pass compares or creates, its key and its login are ones the declaration had at some
      moment of that very pass. */
  lemma {:induction false} PassIsSourced(s: State, labels: seq<Label>, kind: Kind, i: nat)
    requires BeganAt(s, labels, kind, i)
    ensures Sourced(s, labels, i, Exec(s, labels).Pc(kind))
  {
    var n := |labels| - 1;
    var before, l := labels[..n], labels[n];
    assert before + [l] == labels && labels[..n + 1] == labels;
    assert !Before(s, labels, n + 1).Pc(kind).Idle?;
    if i == n {
      BeginSources(s, before, l.name);
    } else {
      BeganBefore(s, labels, kind, i);
      PassIsSourced(s, before, kind, i);
      if l.Answer? && l.kind == kind {
        SaveEnds(Exec(s, before), l);
        OwnStepSources(s, before, l, i);
      } else {
        SourceStays(Exec(s, before), l, kind);
        SeenStays(s, before, l, i, Exec(s, before).Pc(kind));
      }
    }
  }

  lemma SaveEnds(s: State, l: Label)
    requires l.Answer?
    ensures s.Pc(l.kind).Saving? ==> Apply(s, l).Pc(l.kind).Idle?
  {
    if s.Pc(l.kind).Saving? { assert Apply(s, l) == SaveStatus(s, l.kind, l.reply); }
  }

  lemma SourceStays(s: State, l: Label, kind: Kind)
    requires !s.Pc(kind).Idle? && !Apply(s, l).Pc(kind).Idle? && !(l.Answer? && l.kind == kind)
    ensures Apply(s, l).Pc(kind) == s.Pc(kind)
  {
    if l.Answer? { AnswerMovesItsWorker(s, l); }
  }

  /** Since label `i` neither the recorded id of the organization nor the credentials changed. */
  ghost predicate HeldStill(s: State, labels: seq<Label>, i: nat, spec: Spec) {
    forall k :: i <= k <= |labels| ==>
      && KeyOf(Before(s, labels, k), spec) == KeyOf(Exec(s, labels), spec)
      && LoginOf(Before(s, labels, k), spec) == LoginOf(Exec(s, labels), spec)
  }

  /** Ready means matching, for all four kinds and however the record got there: when a save of Ready
      takes effect at the end of a pass during which nobody edited the platform by hand, the stored
      declaration names a record that agrees with it on every compared field. The organization and
      the user name it is compared with are ones the Organization's status and the credentials Secret
      held during the pass; if those held still, they are the present ones. */
  lemma ReadyMeansMatching(s: State, labels: seq<Label>, kind: Kind, reply: Reply) returns (i: nat)
    requires Run(s, labels)
    requires var e := Exec(s, labels); var pc := e.Pc(kind);
             && pc.Saving? && pc.obj.status.verdict == Set(Reconciled) && kind in e.log.calm
             && e.Writable(pc.name, pc.obj.version) && reply.TookEffect()
    ensures BeganAt(s, labels, kind, i)
    ensures var pc := Exec(s, labels).Pc(kind); var e := SaveStatus(Exec(s, labels), kind, reply);
            && pc.name in e.objects && e.objects[pc.name].status.verdict == Set(Reconciled)
            && e.objects[pc.name].spec == pc.obj.spec
            && e.objects[pc.name].status.observed == e.objects[pc.name].generation
            && pc.basis.Agreed? && Names(e.objects[pc.name].spec, pc.basis.key)
            && Agrees(e, e.objects[pc.name].spec, pc.basis.key, pc.basis.login, e.objects[pc.name].status.platformId)
            && KeySeen(s, labels, i, pc.obj.spec, pc.basis.key) && LoginSeen(s, labels, i, pc.obj.spec, pc.basis.login)
            && Known(pc.obj.spec) && AsWritten(pc.obj.spec, pc.basis.login, e.records[pc.basis.key].body)
    ensures var pc := Exec(s, labels).Pc(kind); var e := SaveStatus(Exec(s, labels), kind, reply);
            HeldStill(s, labels, i, pc.obj.spec) ==>
              pc.name in e.objects &&
              Agrees(e, pc.obj.spec, KeyOf(e, pc.obj.spec), LoginOf(e, pc.obj.spec),
                  e.objects[pc.name].status.platformId)
  {
    Reachable(s, labels);
    var e := Exec(s, labels);
    assert Sight(e, kind, e.Pc(kind));
    i := PassBegan(s, labels, kind);
    PassIsSourced(s, labels, kind, i);
    SaveLeavesInputs(e, kind, reply);
    MatchesAsWritten(e.Pc(kind).obj.spec, e.Pc(kind).basis.login, e.records[e.Pc(kind).basis.key].body);
    KnownIsWellFormed(e.Pc(kind).obj.spec);
  }

  lemma SaveLeavesInputs(s: State, kind: Kind, reply: Reply)
    requires s.Pc(kind).Saving? && s.Pc(kind).name.kind == kind && s.Pc(kind).obj.spec.Kind() == kind
    ensures var spec, e := s.Pc(kind).obj.spec, SaveStatus(s, kind, reply);
            KeyOf(e, spec) == KeyOf(s, spec) && LoginOf(e, spec) == LoginOf(s, spec)
  {
  }

  /** Ready exactly when reconciled, and the schedule a landed save sets: the short retry for Pending,
      the resync for Ready and for a missing credential. */
  lemma LandedSaveSchedules(s: State, labels: seq<Label>, kind: Kind)
    requires Run(s, labels) && Exec(s, labels).Pc(kind).Saving?
    requires var pc := Exec(s, labels).Pc(kind); Exec(s, labels).Writable(pc.name, pc.obj.version)
    ensures var pc := Exec(s, labels).Pc(kind); var e := SaveStatus(Exec(s, labels), kind, Accepted);
            && pc.name in e.objects && e.Pc(kind).Idle? && e.Pc(kind).outcome.Again?
            && var verdict := e.objects[pc.name].status.verdict;
               && (verdict == Set(Pending) ==> e.Pc(kind).outcome.retry == Requeue)
               && (verdict == Set(Reconciled) || verdict == Set(CredentialMissing) ==> e.Pc(kind).outcome.retry == Done)
               && (verdict == Set(Reconciled) <==> pc.basis.Agreed?)
  {
    Reachable(s, labels);
    assert Sight(Exec(s, labels), kind, Exec(s, labels).Pc(kind));
  }

  lemma SaveObserves(s: State, kind: Kind, reply: Reply)
    requires s.Pc(kind).Saving? && Sight(s, kind, s.Pc(kind)) && s.Pc(kind).name in s.objects
    requires StoredWell(s, s.Pc(kind).name)
    ensures var name, e := s.Pc(kind).name, SaveStatus(s, kind, reply);
            name in e.objects && s.objects[name].status.observed <= e.objects[name].status.observed
  {
  }

  /** The observed generation of a declaration never goes back and never runs ahead. */
  lemma ObservedNeverGoesBack(s: State, labels: seq<Label>, l: Label, name: Name)
    requires Run(s, labels) && Sane(l) && name in Exec(s, labels).objects && name in Apply(Exec(s, labels), l).objects
    ensures var o, o' := Exec(s, labels).objects[name], Apply(Exec(s, labels), l).objects[name];
            o.status.observed <= o'.status.observed <= o'.generation
  {
    Reachable(s, labels);
    var e := Exec(s, labels);
    assert StoredWell(e, name);
    StepKeepsInv(e, l);
    assert StoredWell(Apply(e, l), name);
    if l.Answer? { AnswerSettles(e, l); }
    if l.Answer? && e.Pc(l.kind).Saving? && e.Pc(l.kind).name == name {
      assert Sight(e, l.kind, e.Pc(l.kind));
      assert Apply(e, l) == SaveStatus(e, l.kind, l.reply);
      SaveObserves(e, l.kind, l.reply);
    }
  }
}
