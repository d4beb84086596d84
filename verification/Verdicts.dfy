/** Why a pass over an organization, an image, an app or a runner ends as it does: over every run, the
    call whose answer ended it accounts for the reason, the schedule and the ids it saves. Error codes and
    words are spelled out. */
module Verdicts {
  import opened Status
  import opened Paging
  import opened Provisioning
  import opened Words
  import Registration

  // ---- What a worker has in hand ----

  /** The declaration was not being deleted when it was read, the product knows its words by the time
      anything but its organization is asked about, and a record's id is kept once it is seen. */
  predicate Placed(pc: Pc) {
    pc.Idle? || (!pc.obj.deleting && Fitting(pc))
  }

  predicate Fitting(pc: Pc)
    requires !pc.Idle?
  {
    match pc
    case Idle(_) => true
    case Resolving(_, obj) => obj.spec.ImageSpec? || obj.spec.AppSpec?
    case ReadingCredentials(_, obj, _) => obj.spec.ImageSpec? && obj.spec.credentials.Some? && Known(obj.spec)
    case Looking(_, obj, _, _) => Known(obj.spec)
    case Checking(_, obj, _, _, found) => Known(obj.spec) && obj.spec.Minting() && obj.status.platformId == found.id
    case Updating(_, obj, _, _, id, _) =>
      && Known(obj.spec) && !obj.spec.RunnerSpec? && (!obj.spec.OrganizationSpec? ==> obj.status.platformId == id)
      && (obj.spec.AppSpec? ==> obj.status.tokenRef == obj.spec.tokenSecret)
    case Creating(_, obj, _, _) => Known(obj.spec)
    case Storing(_, obj, _, _, _, _) => Known(obj.spec) && obj.spec.Minting()
    case Saving(_, obj, _, _) => true
  }

  lemma BeginIsPlaced(s: State, name: Name)
    requires Placed(s.Pc(name.kind))
    ensures Placed(Apply(s, Begin(name)).Pc(name.kind))
  {
  }

  lemma AnswerIsPlaced(s: State, l: Label)
    requires l.Answer? && Placed(s.Pc(l.kind))
    ensures Placed(Apply(s, l).Pc(l.kind))
  {
    match s.Pc(l.kind) {
      case Updating(_, _, _, _, _, _) => assert Apply(s, l) == Update(s, l.kind, l.reply);
      case Creating(_, _, _, _) => assert Apply(s, l) == Create(s, l.kind, l.reply, l.id, l.token);
      case Storing(_, _, _, _, _, _) => assert Apply(s, l) == WriteSecret(s, l.kind, l.reply);
      case Saving(_, _, _, _) => assert Apply(s, l) == SaveStatus(s, l.kind, l.reply);
      case _ => ReadIsPlaced(s, l);
    }
  }

  lemma ReadIsPlaced(s: State, l: Label)
    requires l.Answer? && Placed(s.Pc(l.kind))
    requires var pc := s.Pc(l.kind); !pc.Updating? && !pc.Creating? && !pc.Storing? && !pc.Saving?
    ensures Placed(Apply(s, l).Pc(l.kind))
  {
    var pc := s.Pc(l.kind);
    if !pc.Idle? { KnownIsWellFormed(pc.obj.spec); }
  }

  lemma StepIsPlaced(s: State, l: Label, kind: Kind)
    requires Placed(s.Pc(kind))
    ensures Placed(Apply(s, l).Pc(kind))
  {
    match l
    case Begin(name) => if name.kind == kind { BeginIsPlaced(s, name); }
    case Answer(_, _, _, _) => if l.kind == kind { AnswerIsPlaced(s, l); } else { AnswerMovesItsWorker(s, l); }
    case _ =>
  }

  /** Over every run: no pass works from a declaration that was being deleted when it was read, and one
      with a word the product does not know is never looked up, created or updated. */
  lemma {:induction false} UnknownWordsCallNothing(s: State, labels: seq<Label>, kind: Kind)
    requires s.Pc(kind).Idle?
    ensures Placed(Exec(s, labels).Pc(kind))
  {
    if labels != [] {
      UnknownWordsCallNothing(s, labels[..|labels| - 1], kind);
      StepIsPlaced(Exec(s, labels[..|labels| - 1]), labels[|labels| - 1], kind);
    }
  }

  /** A declaration that is being deleted is left alone: no call is made and nothing is returned. */
  lemma DeletedIsLeftAlone(s: State, name: Name)
    requires name in s.objects && s.objects[name].deleting && s.Pc(name.kind).Idle?
    ensures var e := Apply(s, Begin(name));
            && e.Pc(name.kind) == Idle(Nothing) && e.objects == s.objects && e.records == s.records
            && e.secrets == s.secrets && forall kind :: kind != name.kind ==> e.Pc(kind) == s.Pc(kind)
  {
  }

  // ---- What an answer can mean ----

  /** The organization is not declared, or could not be read. */
  predicate Unresolved(s: State, l: Label)
    requires l.Answer?
  {
    var pc := s.Pc(l.kind);
    && pc.Resolving? && (pc.obj.spec.ImageSpec? || pc.obj.spec.AppSpec?)
    && (l.reply.Failed? || Name(Organization, pc.obj.spec.organization) !in s.objects)
  }

  /** The organization is known, and a word of the declaration is not. */
  predicate Misspelt(s: State, l: Label)
    requires l.Answer?
  {
    var pc := s.Pc(l.kind);
    && pc.Resolving? && (pc.obj.spec.ImageSpec? || pc.obj.spec.AppSpec?) && !Known(pc.obj.spec)
    && l.reply.Accepted? && Name(Organization, pc.obj.spec.organization) in s.objects
    && s.objects[Name(Organization, pc.obj.spec.organization)].status.platformId != ""
  }

  /** The platform refused the declaration itself: one of two codes, and no other. An organization's
      update is never final. */
  predicate TurnedDown(s: State, l: Label)
    requires l.Answer?
  {
    var pc := s.Pc(l.kind);
    && l.reply.Failed? && (l.reply.code == InvalidArgument || l.reply.code == AlreadyExists)
    && (pc.Creating? || (pc.Updating? && !pc.obj.spec.OrganizationSpec?))
  }

  predicate TokenThere(s: State, secret: string) {
    secret in s.secrets && "token" in s.secrets[secret] && s.secrets[secret]["token"] != ""
  }

  /** The token of a registered record is gone, or could not be stored. */
  predicate TokenLost(s: State, l: Label)
    requires l.Answer?
  {
    var pc := s.Pc(l.kind);
    || (pc.Checking? && pc.obj.spec.Minting() && l.reply.Accepted? && !TokenThere(s, pc.obj.spec.tokenSecret))
    || (pc.Storing? && l.reply.Failed?)
  }

  /** The record was found as written, corrected or created, and the token is there. */
  predicate Fulfilled(s: State, l: Label)
    requires l.Answer?
  {
    var pc := s.Pc(l.kind);
    && l.reply.Accepted?
    && match pc
       case Looking(_, obj, key, login) =>
         !obj.spec.Minting() && key in s.records && AsWritten(obj.spec, login, s.records[key].body)
       case Checking(_, obj, key, login, found) =>
         && obj.spec.Minting() && TokenThere(s, obj.spec.tokenSecret)
         && (obj.spec.AppSpec? ==> AsWritten(obj.spec, login, found.body))
       case Updating(_, _, key, _, id, _) => key in s.records && s.records[key].id == id
       case Creating(_, obj, _, _) => !obj.spec.Minting()
       case Storing(_, _, _, _, _, _) => true
       case _ => false
  }

  /** The reason and the schedule a pass ends with. Everything else is a Pending with the short retry. */
  predicate Explains(s: State, l: Label, verdict: Verdict, retry: Retry)
    requires l.Answer?
  {
    && (verdict == Set(Reconciled) <==> Fulfilled(s, l))
    && (verdict == Set(Rejected) <==> Unresolved(s, l) || Misspelt(s, l) || TurnedDown(s, l))
    && (verdict == Set(CredentialMissing) <==> TokenLost(s, l))
    && verdict.Set?
    && (retry == Requeue <==> verdict == Set(Pending) || Unresolved(s, l))
  }

  /** The id and the token reference it saves. */
  predicate Identifies(s: State, l: Label, status: Standing)
    requires l.Answer? && !s.Pc(l.kind).Idle?
  {
    var pc, was := s.Pc(l.kind), s.Pc(l.kind).obj.status;
    match pc
    case Looking(_, obj, key, _) =>
      && status.tokenRef == was.tokenRef
      && status.platformId == (if l.reply.Accepted? && key in s.records then s.records[key].id else was.platformId)
    case Checking(_, obj, _, _, found) =>
      && status.platformId == found.id
      && (l.reply.Failed? ==> status.tokenRef == was.tokenRef)
      && (obj.spec.Minting() && l.reply.Accepted? ==>
            status.tokenRef == if TokenThere(s, obj.spec.tokenSecret) then obj.spec.tokenSecret else "")
    case Updating(_, obj, _, _, id, _) =>
      && status.platformId == (if status.verdict == Set(Reconciled) || !obj.spec.OrganizationSpec? then id
          else was.platformId)
      && status.tokenRef == (if obj.spec.AppSpec? then obj.spec.tokenSecret else was.tokenRef)
    case Creating(_, _, _, _) =>
      && status.tokenRef == was.tokenRef
      && status.platformId == if l.reply.Accepted? then l.id else was.platformId
    case Storing(_, obj, _, _, id, _) =>
      && status.platformId == id
      && (l.reply.Failed? ==> status.tokenRef == was.tokenRef)
      && (obj.spec.Minting() && l.reply.Accepted? ==> status.tokenRef == obj.spec.tokenSecret)
    case _ => status.platformId == was.platformId && status.tokenRef == was.tokenRef
  }

  // ---- Every answer that ends a pass ----

  predicate Ended(s: State, l: Label) {
    l.Answer? && !s.Pc(l.kind).Idle? && !s.Pc(l.kind).Saving? && Apply(s, l).Pc(l.kind).Saving?
  }

  /** What the save says follows from the answer. */
  predicate Accounted(s: State, l: Label)
    requires Ended(s, l)
  {
    var pc, save := s.Pc(l.kind), Apply(s, l).Pc(l.kind);
    && save.name == pc.name && save.obj == pc.obj.(status := save.obj.status)
    && save.obj.status.observed == pc.obj.generation
    && Explains(s, l, save.obj.status.verdict, save.retry) && Identifies(s, l, save.obj.status)
  }

  lemma ReadIsAccounted(s: State, l: Label)
    requires Ended(s, l) && Placed(s.Pc(l.kind)) && (s.Pc(l.kind).Resolving? || s.Pc(l.kind).ReadingCredentials?)
    ensures Accounted(s, l)
  {
    KnownIsWellFormed(s.Pc(l.kind).obj.spec);
  }

  lemma LookupIsAccounted(s: State, l: Label)
    requires Ended(s, l) && Placed(s.Pc(l.kind)) && (s.Pc(l.kind).Looking? || s.Pc(l.kind).Checking?)
    ensures Accounted(s, l)
  {
    var pc := s.Pc(l.kind);
    KnownIsWellFormed(pc.obj.spec);
    if pc.Checking? {
      MatchesAsWritten(pc.obj.spec, pc.login, pc.found.body);
    } else if pc.key in s.records {
      MatchesAsWritten(pc.obj.spec, pc.login, s.records[pc.key].body);
    }
  }

  lemma WriteIsAccounted(s: State, l: Label)
    requires Ended(s, l) && Placed(s.Pc(l.kind))
    requires s.Pc(l.kind).Updating? || s.Pc(l.kind).Creating? || s.Pc(l.kind).Storing?
    ensures Accounted(s, l)
  {
    match s.Pc(l.kind) {
      case Updating(_, _, _, _, _, _) => assert Apply(s, l) == Update(s, l.kind, l.reply);
      case Creating(_, _, _, _) => assert Apply(s, l) == Create(s, l.kind, l.reply, l.id, l.token);
      case Storing(_, _, _, _, _, _) => assert Apply(s, l) == WriteSecret(s, l.kind, l.reply);
    }
  }

  lemma EndIsAccounted(s: State, l: Label)
    requires Ended(s, l) && Placed(s.Pc(l.kind))
    ensures Accounted(s, l)
  {
    var pc := s.Pc(l.kind);
    if pc.Resolving? || pc.ReadingCredentials? { ReadIsAccounted(s, l); }
    else if pc.Looking? || pc.Checking? { LookupIsAccounted(s, l); }
    else { WriteIsAccounted(s, l); }
  }

  // ---- Every answer that does not ----

  predicate GoesOn(s: State, l: Label) {
    l.Answer? && !s.Pc(l.kind).Idle? && !s.Pc(l.kind).Saving? && !Apply(s, l).Pc(l.kind).Saving?
  }

  /** What a pass has next in hand. Only an accepted call lets it go on: a known organization to the
      credentials or the lookup, the credentials to the lookup, no record to a create, a minting record to
      the check of its token, drift to an update, a create that mints to the write of the Secret. */
  predicate Proceeds(s: State, l: Label)
    requires l.Answer?
  {
    var pc, next := s.Pc(l.kind), Apply(s, l).Pc(l.kind);
    && l.reply.Accepted?
    && match pc
       case Resolving(name, obj) =>
         && (obj.spec.ImageSpec? || obj.spec.AppSpec?) && Name(Organization, obj.spec.organization) in s.objects
         && var id := s.objects[Name(Organization, obj.spec.organization)].status.platformId;
            && id != ""
            && next == (if obj.spec.AppSpec? then Looking(name, obj, AppKey(id, obj.spec.slug), Login("", ""))
                        else if obj.spec.credentials.Some? then ReadingCredentials(name, obj, id)
                        else Looking(name, obj, ImageKey(id, obj.spec.name), Login("", "")))
       case ReadingCredentials(name, obj, organization) =>
         && obj.spec.ImageSpec? && next.Looking? && LoginRead(s, obj.spec, next.login)
         && next == Looking(name, obj, ImageKey(organization, obj.spec.name), next.login)
       case Looking(name, obj, key, login) =>
         if key !in s.records then next == Creating(name, obj, key, login)
         else
           var found := s.records[key];
           if obj.spec.Minting()
           then next == Checking(name, obj.(status := obj.status.(platformId := found.id)), key, login, found)
           else !AsWritten(obj.spec, login, found.body) && next.Updating? && next.key == key && next.id == found.id
                && next.login == login
       case Checking(name, obj, key, login, found) =>
         && obj.spec.AppSpec? && !AsWritten(obj.spec, login, found.body) && TokenThere(s, obj.spec.tokenSecret)
         && next.Updating? && next.key == key && next.id == found.id && next.login == login
       case Creating(name, obj, key, login) =>
         obj.spec.Minting() && next == Storing(name, obj, key, login, l.id, l.token)
       case _ => false
  }

  lemma GoesOnAccepted(s: State, l: Label)
    requires GoesOn(s, l) && Placed(s.Pc(l.kind))
    ensures Proceeds(s, l) && Apply(s, l).Pc(l.kind).name == s.Pc(l.kind).name
  {
    var pc := s.Pc(l.kind);
    KnownIsWellFormed(pc.obj.spec);
    match pc {
      case ReadingCredentials(_, obj, _) => if Readable(s, obj.spec) { LoginIsRead(s, obj.spec); }
      case Looking(_, obj, key, login) => if key in s.records {
        MatchesAsWritten(obj.spec, login, s.records[key].body);
      }
      case Checking(_, obj, _, login, found) => MatchesAsWritten(obj.spec, login, found.body);
      case _ => WriteGoesOn(s, l);
    }
  }

  lemma WriteGoesOn(s: State, l: Label)
    requires GoesOn(s, l) && Placed(s.Pc(l.kind))
    requires var pc := s.Pc(l.kind); !pc.ReadingCredentials? && !pc.Looking? && !pc.Checking?
    ensures Proceeds(s, l)
  {
    if s.Pc(l.kind).Creating? {
      assert Apply(s, l) == Create(s, l.kind, l.reply, l.id, l.token);
    } else if s.Pc(l.kind).Resolving? {
      KnownIsWellFormed(s.Pc(l.kind).obj.spec);
    }
  }

  /** A pass starts with what its declaration is about. */
  lemma BeginLeadsTo(s: State, name: Name)
    requires name in s.objects && !s.objects[name].deleting && s.Pc(name.kind).Idle?
    ensures var obj, next := s.objects[name], Apply(s, Begin(name)).Pc(name.kind);
            match obj.spec
            case OrganizationSpec(slug, _) => next == Looking(name, obj, OrganizationKey(slug), Login("", ""))
            case RunnerSpec(runner, _, _, _) => next == Looking(name, obj, RunnerKey(runner), Login("", ""))
            case _ => next == Resolving(name, obj)
  {
  }

  /** Over every run: an answer in a pass ends it with a save that is accounted for, or was accepted and
      brings the next call; the save's own answer ends the pass. */
  lemma EveryAnswerCounts(s: State, labels: seq<Label>, l: Label)
    requires l.Answer? && s.Pc(l.kind).Idle? && !Exec(s, labels).Pc(l.kind).Idle?
    ensures var e := Exec(s, labels);
            if e.Pc(l.kind).Saving? then Apply(e, l).Pc(l.kind).Idle?
            else if Apply(e, l).Pc(l.kind).Saving? then Accounted(e, l)
            else Proceeds(e, l) && Apply(e, l).Pc(l.kind).name == e.Pc(l.kind).name
  {
    var e := Exec(s, labels);
    UnknownWordsCallNothing(s, labels, l.kind);
    if e.Pc(l.kind).Saving? {
      assert Apply(e, l) == SaveStatus(e, l.kind, l.reply);
    } else if Apply(e, l).Pc(l.kind).Saving? {
      EndIsAccounted(e, l);
    } else {
      GoesOnAccepted(e, l);
    }
  }

  /** The count of platform writes misses none: it grows by one just when a create or an update is answered. */
  lemma WritesAreCounted(s: State, l: Label)
    ensures Apply(s, l).log.writes ==
            s.log.writes + if l.Answer? && (s.Pc(l.kind).Creating? || s.Pc(l.kind).Updating?) then 1 else 0
  {
    if l.Answer? {
      match s.Pc(l.kind) {
        case Updating(_, _, _, _, _, _) => assert Apply(s, l) == Update(s, l.kind, l.reply);
        case Creating(_, _, _, _) => assert Apply(s, l) == Create(s, l.kind, l.reply, l.id, l.token);
        case Storing(_, _, _, _, _, _) => assert Apply(s, l) == WriteSecret(s, l.kind, l.reply);
        case Saving(_, _, _, _) => assert Apply(s, l) == SaveStatus(s, l.kind, l.reply);
        case _ =>
      }
    }
  }

  /** A worker never touches a Secret that exists, and one it creates is the token Secret of its declaration,
      with the token it was just given and, for an app, the id beside it, and nothing else. */
  lemma SecretAsMinted(s: State, l: Label, secret: string)
    requires l.Answer? && Placed(s.Pc(l.kind)) && secret in Apply(s, l).secrets
    ensures secret in s.secrets ==> Apply(s, l).secrets[secret] == s.secrets[secret]
    ensures secret !in s.secrets ==>
              && s.Pc(l.kind).Storing? && l.reply.TookEffect()
              && var Storing(_, obj, _, _, id, token) := s.Pc(l.kind);
                 && obj.spec.Minting() && secret == obj.spec.tokenSecret
                 && Apply(s, l).secrets[secret] ==
                    if obj.spec.AppSpec? then map["token" := token, "app_id" := id] else map["token" := token]
  {
    AnswerWritesItsSecret(s, l);
    if s.Pc(l.kind).Storing? { assert Apply(s, l) == WriteSecret(s, l.kind, l.reply); }
  }

  // ---- Over every run ----

  /** The answer that brought a worker to its save, and nothing of the save has changed since. */
  ghost predicate EndedAt(s: State, labels: seq<Label>, kind: Kind, k: nat) {
    && k < |labels| && labels[k].Answer? && labels[k].kind == kind && Ended(Before(s, labels, k), labels[k])
    && Apply(Before(s, labels, k), labels[k]).Pc(kind) == Exec(s, labels).Pc(kind)
  }

  lemma {:induction false} SaveHasItsAnswer(s: State, labels: seq<Label>, kind: Kind) returns (k: nat)
    requires s.Pc(kind).Idle? && Exec(s, labels).Pc(kind).Saving?
    ensures EndedAt(s, labels, kind, k)
  {
    var n := |labels| - 1;
    var before, l := labels[..n], labels[n];
    var e := Exec(s, before);
    if l.Answer? && l.kind == kind {
      AnswerMovesItsWorker(e, l);
      if e.Pc(kind).Saving? { SaveReturns(e, l); }
      k := n;
    } else {
      SaveWasThere(e, l, kind);
      k := SaveHasItsAnswer(s, before, kind);
      assert before[..k] == labels[..k];
    }
  }

  lemma SaveWasThere(s: State, l: Label, kind: Kind)
    requires Apply(s, l).Pc(kind).Saving? && !(l.Answer? && l.kind == kind)
    ensures Apply(s, l).Pc(kind) == s.Pc(kind)
  {
    if l.Answer? { AnswerMovesItsWorker(s, l); }
  }

  /** Over every run, whatever fails, crashes or interferes: the save a worker is about to make is
      accounted for by one answered call of that pass. */
  lemma VerdictByItsAnswer(s: State, labels: seq<Label>, kind: Kind) returns (k: nat)
    requires s.Pc(kind).Idle? && Exec(s, labels).Pc(kind).Saving?
    ensures EndedAt(s, labels, kind, k) && Accounted(Before(s, labels, k), labels[k])
  {
    k := SaveHasItsAnswer(s, labels, kind);
    UnknownWordsCallNothing(s, labels[..k], kind);
    EndIsAccounted(Before(s, labels, k), labels[k]);
  }

  /** And what the save's own answer returns: the schedule if the status is stored, the short retry and
      nothing stored if a newer version is there, otherwise the error. */
  lemma SaveReturns(s: State, l: Label)
    requires l.Answer? && s.Pc(l.kind).Saving?
    ensures var pc, e := s.Pc(l.kind), Apply(s, l); var there := pc.name in s.objects;
            && e.Pc(l.kind).Idle? && e.records == s.records && e.secrets == s.secrets
            && (l.reply.Failed? || !there ==> e.Pc(l.kind).outcome == Errored)
            && (l.reply.Accepted? && there && s.objects[pc.name].version != pc.obj.version ==>
                  e.Pc(l.kind).outcome == Again(Requeue) && e.objects == s.objects)
            && (l.reply.Accepted? && there && s.objects[pc.name].version == pc.obj.version ==>
                  && e.Pc(l.kind).outcome == Again(pc.retry) && pc.name in e.objects
                  && e.objects[pc.name].status == pc.obj.status && e.objects[pc.name].spec == s.objects[pc.name].spec)
            && forall name :: name in s.objects && name != pc.name ==>
                name in e.objects && e.objects[name] == s.objects[name]
  {
    assert Apply(s, l) == SaveStatus(s, l.kind, l.reply);
  }

  /** Everybody else's powers, and no more, over the records and Secrets. */
  lemma OthersAct(s: State, l: Label)
    requires !l.Answer? && !l.Begin?
    ensures var e := Apply(s, l);
            && (l.Crash? ==> e == s.Move(l.kind, Idle(Nothing))) && (!l.Crash? ==> e.workers == s.workers)
            && e.log.created == s.log.created && e.log.writes == s.log.writes
            && e.secrets == (if l.DropSecret? then s.secrets - {l.secret}
                             else if l.PutSecret? then s.secrets[l.secret := l.data] else s.secrets)
            && e.records == (if l.Forget? then s.records - {l.key}
                             else if l.Drift? && l.key in s.records
                             then s.records[l.key := s.records[l.key].(body := l.body)] else s.records)
  {
  }

  /** And over the declarations: every write is a new version. */
  lemma OthersWrite(s: State, l: Label)
    requires l.Declare? || l.Edit? || l.Touch? || l.MarkDeleted? || l.Remove?
    ensures var e := Apply(s, l);
            && (forall name :: name != l.name ==> (name in e.objects <==> name in s.objects))
            && (forall name :: name != l.name && name in s.objects ==> e.objects[name] == s.objects[name])
            && (l.Remove? ==> l.name !in e.objects)
            && (l.Declare? && l.name !in s.objects && l.spec.Kind() == l.name.kind ==>
                  l.name in e.objects && e.objects[l.name] == Object(s.clock + 1, 1, false, l.spec,
                      Standing("", "", Unset, 0)))
            && (l.name in s.objects && (l.Edit? ==> l.spec.Kind() == l.name.kind) && !l.Declare? && !l.Remove? ==>
                  var o := s.objects[l.name].(version := s.clock + 1);
                  l.name in e.objects && e.objects[l.name] ==
                    if l.Edit? then o.(spec := l.spec, generation := o.generation + 1)
                    else if l.Touch? then o else o.(deleting := true, generation := o.generation + 1))
  {
  }

  /** Whether a call takes effect: if it is accepted, and possibly with an error, but not with a refusal. */
  predicate Lands(reply: Reply) {
    reply.Accepted? || (reply.landed && reply.code != InvalidArgument && reply.code != AlreadyExists)
  }

  /** Just then the record is created or corrected, the Secret is written, the status is stored. */
  lemma EffectIff(s: State, l: Label)
    requires l.Answer? && Placed(s.Pc(l.kind))
    ensures var e, pc := Apply(s, l), s.Pc(l.kind);
            && (pc.Creating? && pc.key !in s.records ==> (pc.key in e.records <==> Lands(l.reply)))
            && (pc.Updating? && pc.key in s.records && s.records[pc.key].id == pc.id
                && Comparable(pc.obj.spec, s.records[pc.key].body) ==>
                  if Lands(l.reply) then AsWritten(pc.obj.spec, pc.login, e.records[pc.key].body)
                  else e.records[pc.key] == s.records[pc.key])
            && (pc.Storing? && pc.obj.spec.tokenSecret !in s.secrets ==>
                  (pc.obj.spec.tokenSecret in e.secrets <==> Lands(l.reply)))
            && (pc.Saving? && pc.name in s.objects && s.objects[pc.name].version == pc.obj.version ==>
                  e.objects[pc.name] == if Lands(l.reply)
                    then s.objects[pc.name].(status := pc.obj.status, version := s.clock + 1) else s.objects[pc.name])
  {
    match s.Pc(l.kind) {
      case Updating(_, obj, _, login, _, _) => UpdateLands(s, l);
      case Creating(_, obj, _, _) =>
        KnownIsWellFormed(obj.spec);
        assert Apply(s, l) == Create(s, l.kind, l.reply, l.id, l.token);
      case Storing(_, _, _, _, _, _) => assert Apply(s, l) == WriteSecret(s, l.kind, l.reply);
      case Saving(_, _, _, _) => assert Apply(s, l) == SaveStatus(s, l.kind, l.reply);
      case _ =>
    }
  }

  lemma UpdateLands(s: State, l: Label)
    requires l.Answer? && Placed(s.Pc(l.kind)) && s.Pc(l.kind).Updating?
    requires var pc := s.Pc(l.kind);
             pc.key in s.records && s.records[pc.key].id == pc.id ==> pc.key in Apply(s, l).records
    ensures var pc := s.Pc(l.kind);
            pc.key in s.records && s.records[pc.key].id == pc.id && Comparable(pc.obj.spec, s.records[pc.key].body) ==>
              if Lands(l.reply) then AsWritten(pc.obj.spec, pc.login, Apply(s, l).records[pc.key].body)
              else Apply(s, l).records[pc.key] == s.records[pc.key]
  {
    var pc := s.Pc(l.kind);
    assert Apply(s, l) == Update(s, l.kind, l.reply);
    KnownIsWellFormed(pc.obj.spec);
    if pc.key in Apply(s, l).records { MatchesAsWritten(pc.obj.spec, pc.login, Apply(s, l).records[pc.key].body); }
  }

  // ---- Where what is there comes from ----

  /** The step leaves this record: a hand edit, a create of exactly what is written, or a correction of the
      compared fields to what is written. */
  predicate Leaves(s: State, l: Label, key: Key) {
    && key in Apply(s, l).records
    && var record := Apply(s, l).records[key];
       if l.Drift? then key == l.key && record.body == l.body
       else
         && l.Answer?
         && match s.Pc(l.kind)
            case Creating(_, obj, k, login) =>
              && key == k && key !in s.records && record.id == l.id && record.token == l.token && Known(obj.spec)
              && AsWritten(obj.spec, login, record.body) && RestAsWritten(obj.spec, login, record.body)
            case Updating(_, obj, k, login, id, _) =>
              && key == k && key in s.records && record.id == s.records[key].id && record.token == s.records[key].token
              && (Comparable(obj.spec, s.records[key].body) ==>
                    CorrectedAsWritten(obj.spec, login, s.records[key].body, record.body))
            case _ => false
  }

  lemma StepLeaves(s: State, l: Label, key: Key)
    requires Registration.Inv(s) && key in Apply(s, l).records
    requires key in s.records ==> s.records[key] != Apply(s, l).records[key]
    ensures Leaves(s, l, key)
  {
    if l.Answer? { assert Registration.InPlace(s, l.kind, s.Pc(l.kind)); }
    if key in s.records { ChangedAsWritten(s, l, key); } else { CreatedAsWritten(s, l, key); }
  }

  /** Over every run: a record that is not as it was at the start was left so by a hand edit, by a create of
      what is written in each field, or by a correction to what is written; nothing has changed it since. */
  lemma {:induction false} EveryRecordHasItsSource(s: State, labels: seq<Label>, key: Key) returns (k: nat)
    requires Registration.Inv(s) && key in Exec(s, labels).records
    requires key in s.records ==> s.records[key] != Exec(s, labels).records[key]
    ensures k < |labels| && Leaves(Before(s, labels, k), labels[k], key)
    ensures Apply(Before(s, labels, k), labels[k]).records[key] == Exec(s, labels).records[key]
  {
    var n := |labels| - 1;
    var before, l := labels[..n], labels[n];
    var e := Exec(s, before);
    if key in e.records && e.records[key] == Exec(s, labels).records[key] {
      k := EveryRecordHasItsSource(s, before, key);
      assert before[..k] == labels[..k];
    } else {
      Registration.RunKeepsInv(s, before);
      StepLeaves(e, l, key);
      k := n;
    }
  }

  /** The step leaves this Secret: somebody else wrote it, or a worker did, under the name its declaration
      gives, with the token just returned, for an app the id beside it, and nothing else. */
  predicate Stores(s: State, l: Label, secret: string) {
    && secret in Apply(s, l).secrets
    && var data := Apply(s, l).secrets[secret];
       if l.PutSecret? then secret == l.secret && data == l.data
       else
         && l.Answer? && s.Pc(l.kind).Storing? && secret !in s.secrets
         && var Storing(_, obj, _, _, id, token) := s.Pc(l.kind);
            && obj.spec.Minting() && secret == obj.spec.tokenSecret
            && data == if obj.spec.AppSpec? then map["token" := token, "app_id" := id] else map["token" := token]
  }

  lemma StepStores(s: State, l: Label, secret: string)
    requires (l.Answer? ==> Placed(s.Pc(l.kind))) && secret in Apply(s, l).secrets
    requires secret in s.secrets ==> s.secrets[secret] != Apply(s, l).secrets[secret]
    ensures Stores(s, l, secret)
  {
    if l.Answer? { SecretAsMinted(s, l, secret); }
  }

  /** Over every run: a Secret that is not as it was at the start comes from such a step. */
  lemma {:induction false} EverySecretHasItsSource(s: State, labels: seq<Label>, secret: string) returns (k: nat)
    requires (forall kind :: s.Pc(kind).Idle?) && secret in Exec(s, labels).secrets
    requires secret in s.secrets ==> s.secrets[secret] != Exec(s, labels).secrets[secret]
    ensures k < |labels| && Stores(Before(s, labels, k), labels[k], secret)
    ensures Apply(Before(s, labels, k), labels[k]).secrets[secret] == Exec(s, labels).secrets[secret]
  {
    var n := |labels| - 1;
    var before, l := labels[..n], labels[n];
    var e := Exec(s, before);
    if secret in e.secrets && e.secrets[secret] == Exec(s, labels).secrets[secret] {
      k := EverySecretHasItsSource(s, before, secret);
      assert before[..k] == labels[..k];
    } else {
      if l.Answer? { UnknownWordsCallNothing(s, before, l.kind); }
      StepStores(e, l, secret);
      k := n;
    }
  }
}
