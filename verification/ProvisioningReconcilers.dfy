/** The reconcilers of organizations, images, apps and runners, as code over the store and the
    platform. Every call lets the rest of the world act first, ends however it likes, and is recorded;
    each method is proved to perform a run of the machine in Provisioning. */
module ProvisioningReconcilers {
  import opened Status
  import opened Paging
  import opened Provisioning
  import opened Words

  /** What an update asks for. A password is only sent when there is one. */
  datatype Correction =
    | UpdateOrganization(name: string)
    | UpdateImage(description: string, visibility: Visibility, tagFilter: string, username: string,
                  password: Option<string>)
    | UpdateApp(name: string, visibility: Visibility)

  /** It asks for what is written, field by field. */
  predicate Asks(request: Correction, spec: Spec, login: Login) {
    match request
    case UpdateOrganization(name) => AsWritten(spec, login, OrganizationBody(name))
    case UpdateImage(description, visibility, tagFilter, username, password) =>
      && AsWritten(spec, login, ImageBody(description, visibility, tagFilter, username, "", Workspace, ""))
      && password == if login.password != "" then Some(login.password) else None
    case UpdateApp(name, visibility) => AsWritten(spec, login, AppBody(name, visibility, []))
  }

  /** What may happen between two calls of a worker: anything but its own steps. */
  predicate Foreign(l: Label, kind: Kind) {
    match l
    case Begin(name) => name.kind != kind
    case Answer(k, _, _, _) => k != kind
    case Crash(k) => k != kind
    case _ => true
  }

  lemma ForeignLeavesWorker(s: State, l: Label, kind: Kind)
    requires Foreign(l, kind)
    ensures Apply(s, l).Pc(kind) == s.Pc(kind)
  {
    if l.Answer? { AnswerMovesItsWorker(s, l); }
  }

  /** Every declaration is of its name's kind. */
  ghost predicate Kinded(s: State) {
    forall name :: name in s.objects ==> s.objects[name].spec.Kind() == name.kind
  }

  lemma StepKeepsKinds(s: State, l: Label)
    requires Kinded(s)
    ensures Kinded(Apply(s, l))
  {
    if l.Answer? { AnswerSettles(s, l); }
  }

  /** One entry of a platform listing. */
  type Item = (Key, Record)

  /** A listing shows every record once, and nothing else. */
  ghost predicate Shows(items: seq<Item>, records: map<Key, Record>) {
    && (forall i :: 0 <= i < |items| ==> items[i].0 in records && records[items[i].0] == items[i].1)
    && (forall key :: key in records ==> exists i :: 0 <= i < |items| && items[i].0 == key)
  }

  lemma {:induction false} FirstIsTheRecord(items: seq<Item>, records: map<Key, Record>, key: Key)
    requires forall i :: 0 <= i < |items| ==> items[i].0 in records && records[items[i].0] == items[i].1
    ensures var found := FirstOf(items, (item: Item) => item.0 == key);
            if exists i :: 0 <= i < |items| && items[i].0 == key
                then key in records && found == Some((key, records[key]))
            else found == None
  {
    if items != [] && items[0].0 != key {
      FirstIsTheRecord(items[1..], records, key);
      assert forall i :: 1 <= i < |items| ==> items[i] == items[1..][i - 1];
    }
  }

  /** Any order a listing may come in. */
  method Enumerate(records: map<Key, Record>) returns (items: seq<Item>)
    ensures Shows(items, records)
  {
    items := [];
    var left := records.Keys;
    while left != {}
      invariant left <= records.Keys
      invariant forall i :: 0 <= i < |items| ==> items[i].0 in records && records[items[i].0] == items[i].1
      invariant forall key :: key in records && key !in left ==> exists i :: 0 <= i < |items| && items[i].0 == key
      decreases |left|
    {
      var key :| key in left;
      ghost var before := items;
      items := items + [(key, records[key])];
      left := left - {key};
      assert items[|before|].0 == key;
      assert forall i :: 0 <= i < |before| ==> items[i] == before[i];
    }
  }

  function Marked(obj: Object, reason: Reason): Object {
    obj.(status := obj.status.(verdict := Set(reason), observed := obj.generation))
  }

  /** The declarations a kind's worker took up, in order. */
  function Taken(labels: seq<Label>, kind: Kind): seq<Name> {
    if labels == [] then []
    else
      var l := labels[|labels| - 1];
      var before := Taken(labels[..|labels| - 1], kind);
      if l.Begin? && l.name.kind == kind then before + [l.name] else before
  }

  /** The worker of one kind, in the shared world. Whatever happens is a step of the machine; the code
      itself takes up declarations one by one, and does not crash. */
  class Reconciler {
    const kind: Kind
    ghost const origin: State
    ghost var history: seq<Label>
    ghost var passes: seq<Name>
    var s: State

    ghost predicate Valid()
      reads this
    {
      && Kinded(s) && s == Exec(origin, history)
      && passes == Taken(history, kind) && Crash(kind) !in history
    }

    constructor (kind: Kind, start: State)
      requires Kinded(start)
      ensures Valid() && this.kind == kind && s == origin == start && passes == []
    {
      this.kind, origin, history, passes, s := kind, start, [], [], start;
    }

    /** The state before the last label. */
    ghost function Previous(): State
      requires history != []
      reads this
    {
      Exec(origin, history[..|history| - 1])
    }

    method Perform(l: Label)
      requires Valid() && l != Crash(kind)
      modifies this
      ensures Valid() && s == Apply(old(s), l) && history != [] && Previous() == old(s)
      ensures passes == if l.Begin? && l.name.kind == kind then old(passes) + [l.name] else old(passes)
    {
      ExecSnoc(origin, history, l);
      StepKeepsKinds(s, l);
      assert (history + [l])[..|history|] == history;
      s := Apply(s, l);
      history := history + [l];
      passes := if l.Begin? && l.name.kind == kind then passes + [l.name] else passes;
    }

    /** Any number of foreign actions, other workers' passes included. */
    method Interfere()
      requires Valid()
      modifies this
      ensures Valid() && s.Pc(kind) == old(s.Pc(kind)) && passes == old(passes)
    {
      var rounds: nat :| 0 <= rounds;
      for i := 0 to rounds
        invariant Valid() && s.Pc(kind) == old(s.Pc(kind)) && passes == old(passes)
      {
        var l: Label := *;
        if Foreign(l, kind) {
          ForeignLeavesWorker(s, l, kind);
          Perform(l);
        }
      }
    }

    // ---- Calls ----

    method Get(name: Name) returns (found: bool, obj: Object)
      requires Valid() && name.kind == kind && s.Pc(kind).Idle?
      modifies this
      ensures Valid() && passes == if found then old(passes) + [name] else old(passes)
      ensures found ==> obj.spec.Kind() == kind && s.Pc(kind) == AfterRead(name, obj)
      ensures !found ==> name !in s.objects && s.Pc(kind).Idle?
    {
      Interfere();
      found := name in s.objects;
      if found {
        obj := s.objects[name];
        Perform(Begin(name));
      } else {
        obj := Object(0, 0, false, OrganizationSpec("", ""), Standing("", "", Unset, 0));
      }
    }

    /** resolveOrganization: an error, an id, or "" for "not yet". */
    method ResolveOrganization(name: Name, obj: Object) returns (failed: bool, organization: string)
      requires Valid() && s.Pc(kind) == Resolving(name, obj)
      modifies this
      ensures Valid() && passes == old(passes)
      ensures s.Pc(kind) == AfterOrganization(name, obj, if failed then None else Some(organization))
      ensures !failed ==> OrganizationId(s, Reference(obj.spec)) == Some(organization)
    {
      Interfere();
      var reply: Reply := *;
      var declared := Name(Organization, Reference(obj.spec));
      failed := !reply.Accepted? || declared !in s.objects;
      organization := if failed then "" else s.objects[declared].status.platformId;
      Perform(Answer(kind, reply, "", ""));
    }

    /** credentials: nothing to read, or the login in the Secret the image names. */
    method Credentials(name: Name, obj: Object, organization: string) returns (failed: bool, login: Login)
      requires Valid() && obj.spec.ImageSpec?
      requires s.Pc(kind) == if obj.spec.credentials.Some? then ReadingCredentials(name, obj, organization)
                                  else Looking(name, obj, ImageKey(organization, obj.spec.name), NO_LOGIN)
      modifies this
      ensures Valid() && passes == old(passes)
      ensures s.Pc(kind) == if failed then Conclude(name, obj, Pending, Requeue)
                                 else Looking(name, obj, ImageKey(organization, obj.spec.name), login)
      ensures !failed ==> login == LoginOf(s, obj.spec)
      ensures !failed && obj.spec.credentials.Some? ==> obj.spec.credentials.value in s.secrets
    {
      if obj.spec.credentials.None? {
        return false, NO_LOGIN;
      }
      Interfere();
      var reply: Reply := *;
      var secret := obj.spec.credentials.value;
      failed := !reply.Accepted? || secret !in s.secrets;
      login := if failed then NO_LOGIN
               else Login(Entry(s.secrets[secret], "username"), Entry(s.secrets[secret], "password"));
      Perform(Answer(kind, reply, "", ""));
    }

    /** A List method of the platform, as it will be served during one lookup. */
    method Records() returns (listing: Listing<Item>)
      requires Valid()
      ensures fresh(listing) && WellTokened(listing.pages) && Shows(Concat(listing.pages), s.records)
    {
      var items := Enumerate(s.records);
      var broken: set<string> := *;
      ghost var whole := [Page("", items)];
      assert Concat(whole) == whole[0].items + Concat<Item>([]);
      var pages: seq<Page<Item>> :| WellTokened(pages) && Concat(pages) == items;
      listing := new Listing(pages, broken);
    }

    /** findBySlug and findByName: pages through a listing for the record with the wanted key. */
    method FindListed(name: Name, obj: Object, key: Key, login: Login) returns (failed: bool, found: Option<Record>)
      requires Valid() && s.Pc(kind) == Looking(name, obj, key, login)
      modifies this
      ensures Valid() && passes == old(passes)
      ensures s.Pc(kind) == if failed then Conclude(name, obj, Pending, Requeue)
                                 else AfterLookup(name, obj, key, login, found)
      ensures !failed ==> found == if key in s.records then Some(s.records[key]) else None
    {
      Interfere();
      var listing := Records();
      var item;
      failed, item := listing.FindFirst((item: Item) => item.0 == key);
      FirstIsTheRecord(Concat(listing.pages), s.records, key);
      found := if item.Some? then Some(item.value.1) else None;
      Perform(Answer(kind, if failed then Failed(Unavailable, false) else Accepted, "", ""));
    }

    /** find of an app: GetAppBySlug, whose NotFound means there is none. */
    method FindApp(name: Name, obj: Object, key: Key, login: Login) returns (failed: bool, found: Option<Record>)
      requires Valid() && s.Pc(kind) == Looking(name, obj, key, login)
      modifies this
      ensures Valid() && passes == old(passes)
      ensures s.Pc(kind) == if failed then Conclude(name, obj, Pending, Requeue)
                                 else AfterLookup(name, obj, key, login, found)
      ensures !failed ==> found == if key in s.records then Some(s.records[key]) else None
    {
      Interfere();
      var reply: Reply :| reply.Accepted? || reply.code != NotFound;
      var answer := if reply.Accepted? && key !in s.records then Failed(NotFound, false) else reply;
      found := if answer.Accepted? then Some(s.records[key]) else None;
      Perform(Answer(kind, reply, "", ""));
      failed := answer.Failed? && answer.code != NotFound;
    }

    /** serviceTokenPresent: whether the Secret holds a non-empty token. */
    method ServiceTokenPresent(name: Name, obj: Object, key: Key, login: Login, record: Record)
      returns (failed: bool, present: bool, ghost seen: string)
      requires Valid() && s.Pc(kind) == Checking(name, obj, key, login, record)
      modifies this
      ensures Valid() && passes == old(passes)
      ensures !failed ==> (present <==> seen != "")
      ensures !failed ==> seen == if TokenSecret(obj.spec) in s.secrets
              then Entry(s.secrets[TokenSecret(obj.spec)], "token") else ""
      ensures s.Pc(kind) == if failed then Conclude(name, obj, Pending, Requeue)
                                 else AfterCheck(name, obj, key, login, record, seen)
    {
      Interfere();
      var reply: Reply := *;
      var secret := TokenSecret(obj.spec);
      failed := !reply.Accepted?;
      present := secret in s.secrets && |Entry(s.secrets[secret], "token")| > 0;
      seen := if secret in s.secrets then Entry(s.secrets[secret], "token") else "";
      Perform(Answer(kind, reply, "", ""));
    }

    /** CreateOrganization, CreateImage, CreateApp, RegisterRunner. */
    method Register(name: Name, obj: Object, key: Key, login: Login, request: Body)
      returns (reply: Reply, id: string, token: string)
      requires Valid() && s.Pc(kind) == Creating(name, obj, key, login)
      requires AsWritten(obj.spec, login, request) && RestAsWritten(obj.spec, login, request)
      modifies this
      ensures Valid() && passes == old(passes)
      ensures s.Pc(kind) == AfterCreate(name, obj, key, login, id, token, reply)
    {
      Interfere();
      reply, id, token := *, *, *;
      Perform(Answer(kind, reply, id, token));
    }

    /** UpdateOrganization, UpdateImage, UpdateApp. */
    method Correct(name: Name, obj: Object, key: Key, login: Login, id: string, request: Correction, ghost seen: string)
      returns (reply: Reply)
      requires Valid() && s.Pc(kind) == Updating(name, obj, key, login, id, seen) && Asks(request, obj.spec, login)
      modifies this
      ensures Valid() && passes == old(passes)
      ensures s.Pc(kind) == AfterUpdate(name, obj, key, login, id, seen, reply)
    {
      Interfere();
      reply := *;
      var there := key in s.records && s.records[key].id == id;
      Perform(Answer(kind, reply, "", ""));
      if reply.Accepted? && !there {
        reply := Failed(NotFound, false);
      }
    }

    /** writeServiceToken: an existing Secret is never overwritten, and counts as written. */
    method WriteServiceToken(name: Name, obj: Object, key: Key, login: Login, id: string, token: string)
      returns (written: bool)
      requires Valid() && s.Pc(kind) == Storing(name, obj, key, login, id, token)
      modifies this
      ensures Valid() && passes == old(passes)
      ensures s.Pc(kind) == AfterStore(name, obj, key, login, id, token, written)
      ensures written ==> TokenSecret(obj.spec) in s.secrets
      ensures history != [] && Previous().secrets.Keys <= s.secrets.Keys
      ensures s.secrets.Keys <= Previous().secrets.Keys + {TokenSecret(obj.spec)}
      ensures forall secret :: secret in Previous().secrets ==> s.secrets[secret] == Previous().secrets[secret]
      ensures written && TokenSecret(obj.spec) !in Previous().secrets ==>
                s.secrets[TokenSecret(obj.spec)] == TokenData(obj.spec, id, token)
    {
      Interfere();
      var reply: Reply :| reply.Accepted? || reply.code != AlreadyExists;
      var answer := if reply.Accepted? && TokenSecret(obj.spec) in s.secrets then Failed(AlreadyExists, false)
          else reply;
      Perform(Answer(kind, reply, "", ""));
      if answer.Failed? && answer.code == AlreadyExists {
        return true;
      }
      written := answer.Accepted?;
    }

    /** What a save that answered so has left: the status stored, or a newer version than the pass read. */
    predicate Left(result: WriteResult, name: Name, obj: Object)
      reads this
    {
      match result
      case Written => name in s.objects && s.objects[name].status == obj.status
      case Conflict => name in s.objects && !s.Writable(name, obj.version)
      case Error => true
    }

    /** save: Status().Update, then what the pass returns: the intended schedule if the status was
        stored, the short retry on a conflict, otherwise the error. */
    method Save(name: Name, obj: Object, retry: Retry) returns (outcome: Outcome)
      requires Valid() && s.Pc(kind).Saving?
      requires s.Pc(kind).name == name && s.Pc(kind).obj == obj && s.Pc(kind).retry == retry
      modifies this
      ensures Valid() && passes == old(passes) && s.Pc(kind) == Idle(outcome)
      ensures exists result :: outcome == AfterWrite(result, Again(retry)) && Left(result, name, obj)
    {
      Interfere();
      var reply: Reply :| reply.Accepted? || reply.Failed?;
      var result := s.Answered(name, obj.version, reply);
      Perform(Answer(kind, reply, "", ""));
      assert Left(result, name, obj);
      match result
      case Written => outcome := Again(retry);
      case Conflict => outcome := Again(Requeue);
      case Error => outcome := Errored;
    }

    /** setReady, setPending or setFailed, and the save. */
    method Finish(name: Name, obj: Object, reason: Reason, retry: Retry) returns (outcome: Outcome)
      requires Valid() && s.Pc(kind).Saving?
      requires s.Pc(kind).name == name && s.Pc(kind).obj == Marked(obj, reason) && s.Pc(kind).retry == retry
      modifies this
      ensures Valid() && passes == old(passes) && s.Pc(kind) == Idle(outcome)
    {
      outcome := Save(name, Marked(obj, reason), retry);
    }

    /** The end of a pass whose create or update failed: final if the platform refused the declaration. */
    method GiveUp(name: Name, obj: Object, code: Code) returns (outcome: Outcome)
      requires Valid()
      requires s.Pc(kind) == if code == InvalidArgument || code == AlreadyExists
               then Conclude(name, obj, Rejected, Done)
                             else Conclude(name, obj, Pending, Requeue)
      modifies this
      ensures Valid() && passes == old(passes) && s.Pc(kind) == Idle(outcome)
    {
      if Permanent(code) {
        outcome := Finish(name, obj, Rejected, Done);
      } else {
        outcome := Finish(name, obj, Pending, Requeue);
      }
    }

    // ---- The reconcilers ----

    /** One pass over `name` and what it returned; none if the declaration is gone. */
    ghost predicate Passed(before: seq<Name>, name: Name, outcome: Outcome)
      reads this
    {
      || (passes == before + [name] && s.Pc(kind) == Idle(outcome))
      || (passes == before && s.Pc(kind).Idle? && name !in s.objects && outcome == Nothing)
    }

    method ReconcileOrganization(name: Name) returns (outcome: Outcome)
      requires Valid() && kind.Organization? && name.kind == kind && s.Pc(kind).Idle?
      modifies this
      ensures Valid() && Passed(old(passes), name, outcome)
    {
      var read, organization := Get(name);
      if !read || organization.deleting {
        return Nothing;
      }
      var slug, displayName := organization.spec.slug, DisplayName(organization.spec);
      var key := OrganizationKey(slug);

      var failed, existing := FindListed(name, organization, key, NO_LOGIN);
      if failed {
        outcome := Finish(name, organization, Pending, Requeue);
        return;
      }

      if existing.None? {
        outcome := CreateOrganization(name, organization, key, displayName);
        return;
      }
      outcome := CorrectOrganization(name, organization, key, displayName, existing.value);
    }

    /** The rest of the pass over an organization that does not exist. */
    method CreateOrganization(name: Name, organization: Object, key: Key, displayName: string)
      returns (outcome: Outcome)
      requires Valid() && organization.spec.OrganizationSpec? && displayName == DisplayName(organization.spec)
      requires s.Pc(kind) == Creating(name, organization, key, NO_LOGIN)
      modifies this
      ensures Valid() && passes == old(passes) && s.Pc(kind) == Idle(outcome)
    {
      var reply, id, _ := Register(name, organization, key, NO_LOGIN, OrganizationBody(displayName));
      if reply.Failed? {
        outcome := GiveUp(name, organization, reply.code);
        return;
      }
      outcome := Finish(name, WithId(organization, id), Reconciled, Done);
    }

    /** The rest of the pass over an organization that exists. */
    method CorrectOrganization(name: Name, organization: Object, key: Key, displayName: string, existing: Record)
      returns (outcome: Outcome)
      requires Valid() && organization.spec.OrganizationSpec? && displayName == DisplayName(organization.spec)
      requires s.Pc(kind) == AfterLookup(name, organization, key, NO_LOGIN, Some(existing))
      modifies this
      ensures Valid() && passes == old(passes) && s.Pc(kind) == Idle(outcome)
    {
      var id := existing.id;
      if existing.body != OrganizationBody(displayName) {
        var reply := Correct(name, organization, key, NO_LOGIN, id, UpdateOrganization(displayName), "");
        if reply.Failed? {
          outcome := Finish(name, organization, Pending, Requeue);
          return;
        }
      }
      outcome := Finish(name, WithId(organization, id), Reconciled, Done);
    }

    method ReconcileImage(name: Name) returns (outcome: Outcome)
      requires Valid() && kind.Image? && name.kind == kind && s.Pc(kind).Idle?
      modifies this
      ensures Valid() && Passed(old(passes), name, outcome)
    {
      var read, image := Get(name);
      if !read || image.deleting {
        return Nothing;
      }

      var unresolved, organization := ResolveOrganization(name, image);
      if unresolved {
        outcome := Finish(name, image, Rejected, Requeue);
        return;
      }
      if organization == "" {
        outcome := Finish(name, image, Pending, Requeue);
        return;
      }

      var enums := ImageEnums(image.spec.imageType, image.spec.visibility);
      if enums.None? {
        outcome := Finish(name, image, Rejected, Done);
        return;
      }
      var (imageType, visibility) := enums.value;
      var unread, login := Credentials(name, image, organization);
      if unread {
        outcome := Finish(name, image, Pending, Requeue);
        return;
      }

      var key := ImageKey(organization, image.spec.name);
      var failed, existing := FindListed(name, image, key, login);
      if failed {
        outcome := Finish(name, image, Pending, Requeue);
        return;
      }

      if existing.None? {
        outcome := CreateImage(name, image, key, login, imageType, visibility);
        return;
      }
      outcome := CorrectImage(name, image, key, login, visibility, existing.value);
    }

    /** The rest of the pass over an image that does not exist. */
    method CreateImage(name: Name, image: Object, key: Key, login: Login, imageType: ImageType, visibility: Visibility)
      returns (outcome: Outcome)
      requires Valid() && image.spec.ImageSpec? && s.Pc(kind) == Creating(name, image, key, login)
      requires ImageEnums(image.spec.imageType, image.spec.visibility) == Some((imageType, visibility))
      modifies this
      ensures Valid() && passes == old(passes) && s.Pc(kind) == Idle(outcome)
    {
      var request := ImageBody(image.spec.description, visibility, image.spec.tagFilter, login.username, login.password,
                               imageType, image.spec.repository);
      var reply, id, _ := Register(name, image, key, login, request);
      if reply.Failed? {
        outcome := GiveUp(name, image, reply.code);
        return;
      }
      outcome := Finish(name, WithId(image, id), Reconciled, Done);
    }

    /** The rest of the pass over an image that exists. */
    method CorrectImage(name: Name, image: Object, key: Key, login: Login, visibility: Visibility, existing: Record)
      returns (outcome: Outcome)
      requires Valid() && image.spec.ImageSpec? && WellFormed(image.spec)
      requires ImageEnums(image.spec.imageType, image.spec.visibility).value.1 == visibility
      requires s.Pc(kind) == AfterLookup(name, image, key, login, Some(existing))
      modifies this
      ensures Valid() && passes == old(passes) && s.Pc(kind) == Idle(outcome)
    {
      var found := WithId(image, existing.id);
      var body := existing.body;
      if !body.ImageBody? || body.description != image.spec.description || body.visibility != visibility ||
         body.tagFilter != image.spec.tagFilter || body.username != login.username {
        var password := if login.password != "" then Some(login.password) else None;
        var request := UpdateImage(image.spec.description, visibility, image.spec.tagFilter, login.username, password);
        var reply := Correct(name, found, key, login, existing.id, request, "");
        if reply.Failed? {
          outcome := GiveUp(name, found, reply.code);
          return;
        }
      }
      outcome := Finish(name, found, Reconciled, Done);
    }

    method ReconcileApp(name: Name) returns (outcome: Outcome)
      requires Valid() && kind.App? && name.kind == kind && s.Pc(kind).Idle?
      modifies this
      ensures Valid() && Passed(old(passes), name, outcome)
    {
      var read, app := Get(name);
      if !read || app.deleting {
        return Nothing;
      }

      var unresolved, organization := ResolveOrganization(name, app);
      if unresolved {
        outcome := Finish(name, app, Rejected, Requeue);
        return;
      }
      if organization == "" {
        outcome := Finish(name, app, Pending, Requeue);
        return;
      }

      var visibility := AppVisibility(app.spec.visibility);
      if visibility.None? {
        outcome := Finish(name, app, Rejected, Done);
        return;
      }

      var key := AppKey(organization, app.spec.slug);
      var failed, existing := FindApp(name, app, key, NO_LOGIN);
      if failed {
        outcome := Finish(name, app, Pending, Requeue);
        return;
      }

      if existing.Some? {
        outcome := CheckApp(name, app, key, visibility.value, existing.value);
        return;
      }
      outcome := RegisterApp(name, app, key, visibility.value);
    }

    /** The rest of the pass over an app that exists. */
    method CheckApp(name: Name, app: Object, key: Key, visibility: Visibility, existing: Record)
      returns (outcome: Outcome)
      requires Valid() && app.spec.AppSpec? && AppVisibility(app.spec.visibility) == Some(visibility)
      requires s.Pc(kind) == AfterLookup(name, app, key, NO_LOGIN, Some(existing))
      modifies this
      ensures Valid() && passes == old(passes) && s.Pc(kind) == Idle(outcome)
    {
      var found := WithId(app, existing.id);
      var unread, present, seen := ServiceTokenPresent(name, found, key, NO_LOGIN, existing);
      if unread {
        outcome := Finish(name, found, Pending, Requeue);
        return;
      }
      if !present {
        found := WithRef(found, "");
        outcome := Finish(name, found, CredentialMissing, Done);
        return;
      }
      found := WithRef(found, app.spec.tokenSecret);

      var body := existing.body;
      if !body.AppBody? || body.name != app.spec.name || body.visibility != visibility {
        var request := UpdateApp(app.spec.name, visibility);
        var reply := Correct(name, found, key, NO_LOGIN, existing.id, request, seen);
        if reply.Failed? {
          outcome := GiveUp(name, found, reply.code);
          return;
        }
      }
      outcome := Finish(name, found, Reconciled, Done);
    }

    /** The rest of the pass over an app that does not. */
    method RegisterApp(name: Name, app: Object, key: Key, visibility: Visibility) returns (outcome: Outcome)
      requires Valid() && app.spec.AppSpec? && AppVisibility(app.spec.visibility) == Some(visibility)
      requires s.Pc(kind) == Creating(name, app, key, NO_LOGIN)
      modifies this
      ensures Valid() && passes == old(passes) && s.Pc(kind) == Idle(outcome)
    {
      var reply, id, token := Register(name, app, key, NO_LOGIN,
          AppBody(app.spec.name, visibility, app.spec.permissions));
      if reply.Failed? {
        outcome := GiveUp(name, app, reply.code);
        return;
      }
      var written := WriteServiceToken(name, app, key, NO_LOGIN, id, token);
      var created := WithId(app, id);
      if !written {
        outcome := Finish(name, created, CredentialMissing, Done);
        return;
      }
      created := WithRef(created, app.spec.tokenSecret);
      outcome := Finish(name, created, Reconciled, Done);
    }

    method ReconcileRunner(name: Name) returns (outcome: Outcome)
      requires Valid() && kind.Runner? && name.kind == kind && s.Pc(kind).Idle?
      modifies this
      ensures Valid() && Passed(old(passes), name, outcome)
    {
      var read, runner := Get(name);
      if !read || runner.deleting {
        return Nothing;
      }

      var key := RunnerKey(runner.spec.name);
      var failed, existing := FindListed(name, runner, key, NO_LOGIN);
      if failed {
        outcome := Finish(name, runner, Pending, Requeue);
        return;
      }

      if existing.Some? {
        runner := WithId(runner, existing.value.id);
        var unread, present, _ := ServiceTokenPresent(name, runner, key, NO_LOGIN, existing.value);
        if unread {
          outcome := Finish(name, runner, Pending, Requeue);
          return;
        }
        if !present {
          runner := WithRef(runner, "");
          outcome := Finish(name, runner, CredentialMissing, Done);
          return;
        }
        runner := WithRef(runner, runner.spec.tokenSecret);
        outcome := Finish(name, runner, Reconciled, Done);
        return;
      }

      var request := RunnerBody(runner.spec.labels, runner.spec.capabilities);
      var reply, id, token := Register(name, runner, key, NO_LOGIN, request);
      if reply.Failed? {
        outcome := GiveUp(name, runner, reply.code);
        return;
      }

      var written := WriteServiceToken(name, runner, key, NO_LOGIN, id, token);
      if !written {
        runner := Marked(runner, CredentialMissing);
        runner := WithId(runner, id);
        outcome := Save(name, runner, Done);
        return;
      }
      runner := WithId(runner, id);
      runner := WithRef(runner, runner.spec.tokenSecret);
      outcome := Finish(name, runner, Reconciled, Done);
    }
  }
}
