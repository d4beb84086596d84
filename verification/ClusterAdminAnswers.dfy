/** Why a cluster admin pass ends as it does: over every run, the answers of the pass itself account for
    what it saves, and for the finalizer being dropped. Error codes are spelled out. */
module ClusterAdminAnswers {
  import opened Strings
  import opened Status
  import opened Paging
  import opened ClusterAdmin
  import opened ClusterAdminGuarantees

  /** A call that ended: the lookup, with what it found; a grant or a clear, with its answer. */
  datatype Call =
    | Searched(found: Option<seq<string>>)
    | Granted(id: string, reply: Reply)
    | Cleared(id: string, reply: Reply)

  function Ended(s: State, l: Label): seq<Call> {
    if !l.Answer? then []
    else match s.pc
      case Searching(_, obj) => [Searched(if l.reply.Accepted? then Some(Lookup(s.roster, obj.address)) else None)]
      case Granting(_, _, matches, next, _) => if next < |matches| then [Granted(matches[next], l.reply)] else []
      case Revoking(_, obj, next, _, _) => if next < |obj.ids| then [Cleared(obj.ids[next], l.reply)] else []
      case _ => []
  }

  /** The calls of the running pass, or of the last one, in order. */
  function CallsOfPass(s: State, labels: seq<Label>): seq<Call>
    requires s.Valid()
  {
    if labels == [] then []
    else
      var before, l := labels[..|labels| - 1], labels[|labels| - 1];
      if l.Begin? && Exec(s, before).pc.Idle? then [] else CallsOfPass(s, before) + Ended(Exec(s, before), l)
  }

  // ---- What the calls say ----

  /** The lookup found these, and the first `n` of them were granted, one by one. */
  predicate GrantedUpTo(calls: seq<Call>, matches: seq<string>, n: nat) {
    && n <= |matches| && |calls| == n + 1 && calls[0] == Searched(Some(matches))
    && forall k :: 0 <= k < n ==> calls[k + 1] == Granted(matches[k], Accepted)
  }

  /** A grant was refused: one of two codes, and no other. */
  predicate EndsRefused(calls: seq<Call>) {
    calls != [] && var last := calls[|calls| - 1];
    last.Granted? && last.reply.Failed? && (last.reply.code == InvalidArgument || last.reply.code == AlreadyExists)
  }

  /** The lookup failed or found nobody, or a grant ended with any other code, a denial among them. */
  predicate EndsOpen(calls: seq<Call>) {
    calls != [] && var last := calls[|calls| - 1];
    || last == Searched(None) || last == Searched(Some([]))
    || (last.Granted? && last.reply.Failed? && last.reply.code != InvalidArgument && last.reply.code != AlreadyExists)
  }

  /** The reason and the schedule a granting pass ends with, and the identities it reports. */
  predicate Explains(calls: seq<Call>, verdict: Verdict, retry: Retry, matches: seq<string>) {
    && (verdict == Set(Reconciled) <==> matches != [] && GrantedUpTo(calls, matches, |matches|))
    && (verdict == Set(Rejected) <==> EndsRefused(calls)) && (verdict == Set(Pending) <==> EndsOpen(calls))
    && (verdict == Set(Reconciled) || verdict == Set(Rejected) || verdict == Set(Pending))
    && (retry == Requeue <==> verdict == Set(Pending))
  }

  /** The first `n` recorded identities were cleared or refused in this very pass, in order, a refusal
      being one of two codes; `denied` are the refused ones. */
  ghost predicate ClearedUpTo(calls: seq<Call>, ids: seq<string>, n: nat, denied: set<string>) {
    && n <= |ids| && |calls| == n
    && (forall k :: 0 <= k < n ==> IsClear(calls[k], ids[k]))
    && forall id :: id in denied <==>
        exists k :: 0 <= k < n && calls[k].Cleared? && calls[k].id == id && calls[k].reply.Failed?
  }

  predicate IsClear(call: Call, id: string) {
    && call.Cleared? && call.id == id
    && (call.reply.Failed? ==> call.reply.code == InvalidArgument || call.reply.code == AlreadyExists)
  }

  ghost predicate Recounts(calls: seq<Call>, pc: Pc) {
    match pc
    case Idle => true
    case AddingFinalizer(_, _) => calls == []
    case Searching(_, _) => calls == []
    case Granting(_, _, matches, next, _) => next < |matches| && GrantedUpTo(calls, matches, next)
    case Saving(_, obj, retry, matches, _) => Explains(calls, obj.verdict, retry, matches)
    case Revoking(_, obj, next, _, denied) => next < |obj.ids| && ClearedUpTo(calls, obj.ids, next, denied)
    case Dropping(_, obj, _, denied) => ClearedUpTo(calls, obj.ids, |obj.ids|, denied)
  }

  // ---- Steps ----

  lemma GrantRecounts(s: State, reply: Reply, calls: seq<Call>)
    requires s.Valid() && s.pc.Granting? && Recounts(calls, s.pc)
    ensures Recounts(calls + Ended(s, Answer(reply)), Continue(s, reply).pc)
  {
    var Granting(at, obj, matches, next, done) := s.pc;
    var more := calls + [Granted(matches[next], reply)];
    assert more[|more| - 1] == Granted(matches[next], reply);
    if reply.Accepted? { assert GrantedUpTo(more, matches, next + 1); }
  }

  lemma RevokeRecounts(s: State, reply: Reply, calls: seq<Call>)
    requires s.Valid() && s.pc.Revoking? && Recounts(calls, s.pc)
    ensures Recounts(calls + Ended(s, Answer(reply)), Continue(s, reply).pc)
  {
    var Revoking(at, obj, next, done, denied) := s.pc;
    var call := Cleared(obj.ids[next], reply);
    var more := calls + [call];
    if reply.Accepted? || reply.code == InvalidArgument || reply.code == AlreadyExists {
      var denied' := if reply.Failed? then denied + {obj.ids[next]} else denied;
      assert more[next] == call;
      forall id ensures id in denied' <==>
          exists k :: 0 <= k < next + 1 && more[k].Cleared? && more[k].id == id && more[k].reply.Failed?
      {
        if id in denied {
          var k :| 0 <= k < next && calls[k].Cleared? && calls[k].id == id && calls[k].reply.Failed?;
          assert more[k] == calls[k];
        }
      }
      assert ClearedUpTo(more, obj.ids, next + 1, denied');
    }
  }

  lemma AnswerRecounts(s: State, reply: Reply, calls: seq<Call>)
    requires s.Valid() && Recounts(calls, s.pc)
    ensures Recounts(calls + Ended(s, Answer(reply)), Continue(s, reply).pc)
  {
    assert calls + [] == calls;
    match s.pc
    case Granting(_, _, _, _, _) => GrantRecounts(s, reply, calls);
    case Revoking(_, _, _, _, _) => RevokeRecounts(s, reply, calls);
    case Searching(_, obj) => assert calls + Ended(s, Answer(reply)) == Ended(s, Answer(reply));
    case _ =>
  }

  lemma {:induction false} RunRecounts(s: State, labels: seq<Label>)
    requires s.Valid() && s.pc.Idle?
    ensures Recounts(CallsOfPass(s, labels), Exec(s, labels).pc)
  {
    if labels != [] {
      var before, l := labels[..|labels| - 1], labels[|labels| - 1];
      RunRecounts(s, before);
      assert CallsOfPass(s, before) + [] == CallsOfPass(s, before);
      match l
      case Answer(reply) => AnswerRecounts(Exec(s, before), reply, CallsOfPass(s, before));
      case _ =>
    }
  }

  // ---- Over every run ----

  /** What a granting pass is about to save follows from its own answers. */
  lemma VerdictByItsAnswers(s: State, labels: seq<Label>)
    requires Init(s) && Exec(s, labels).pc.Saving?
    ensures var pc, calls := Exec(s, labels).pc, CallsOfPass(s, labels);
            && Explains(calls, pc.obj.verdict, pc.retry, pc.matches)
            && pc.at < |Exec(s, labels).versions| && pc.obj.observed == pc.obj.generation
            && (pc.obj.verdict != Set(Reconciled) ==> pc.obj.ids == Exec(s, labels).versions[pc.at].ids)
  {
    RunRecounts(s, labels);
    ReachableInv(s, labels);
  }

  /** A pass about to drop the finalizer had each recorded identity answered for in this very pass, by an
      accepted clear or by one of the two codes; those left with the role are the ones so refused that
      were never cleared, and those never recorded. */
  lemma DroppedByItsAnswers(s: State, labels: seq<Label>, reply: Reply)
    requires Init(s) && Exec(s, labels).pc.Dropping?
    ensures var e := Exec(s, labels); ClearedUpTo(CallsOfPass(s, labels), e.pc.obj.ids, |e.pc.obj.ids|, e.pc.denied)
    ensures var e, e' := Exec(s, labels), Apply(Exec(s, labels), Answer(reply));
            e'.log.dropped && !e.log.dropped ==>
              reply.TookEffect() && e'.log.held == Unrecorded(e') + (e.pc.denied - e'.log.cleared)
  {
    RunRecounts(s, labels);
    DropOnlyAfterAll(s, labels, reply);
  }

  /** What a clear that fails leads to: with any code but two the pass ends with the short retry; with one
      of the two it goes on to the next identity, and the role stays as it is. Either way finalizer and
      record stay. */
  predicate LeadsOn(s: State, code: Code, e: State)
    requires s.pc.Revoking?
  {
    && e.versions == s.versions && e.gone == s.gone && e.log.dropped == s.log.dropped
    && (code != InvalidArgument && code != AlreadyExists ==> e.pc == Idle && e.outcome == Again(Requeue))
    && (code == InvalidArgument || code == AlreadyExists ==>
          && e.log.held == s.log.held
          && var Revoking(at, obj, next, done, denied) := s.pc;
             && next < |obj.ids|
             && e.pc == if next + 1 < |obj.ids| then Revoking(at, obj, next + 1, done, denied + {obj.ids[next]})
                        else Dropping(at, obj, done, denied + {obj.ids[next]}))
  }

  lemma ClearFails(s: State, code: Code, landed: bool)
    requires s.Valid() && s.pc.Revoking? && s.pc.next < |s.pc.obj.ids|
    ensures LeadsOn(s, code, Apply(s, Answer(Failed(code, landed))))
  {
  }

  /** Over every run, so it is; and until it is dropped the finalizer is there. */
  lemma OtherCodesKeepTheFinalizer(s: State, labels: seq<Label>, code: Code, landed: bool)
    requires Init(s) && Exec(s, labels).pc.Revoking?
    ensures LeadsOn(Exec(s, labels), code, Apply(Exec(s, labels), Answer(Failed(code, landed))))
    ensures !Exec(s, labels).log.dropped ==> !Exec(s, labels).gone && Exec(s, labels).Current().finalizer
  {
    ReachableRevoking(s, labels);
    ClearFails(Exec(s, labels), code, landed);
  }

  lemma ReachableRevoking(s: State, labels: seq<Label>)
    requires Init(s) && Exec(s, labels).pc.Revoking?
    ensures var e := Exec(s, labels);
            e.pc.next < |e.pc.obj.ids| && (!e.log.dropped ==> e.Current().finalizer && !e.gone)
  {
    ReachableInv(s, labels);
    var e := Exec(s, labels);
    assert e.versions[e.pc.at].finalizer;
  }

  /** What a version-checked write returns: an error if it reports one or the declaration is gone, the short
      retry if a newer version is there; otherwise it is stored, and the pass goes on or returns what it
      meant to. */
  lemma WritesReturn(s: State, reply: Reply)
    requires s.Valid() && (s.pc.AddingFinalizer? || s.pc.Saving? || s.pc.Dropping?)
    ensures var e, o := Apply(s, Answer(reply)), s.Current();
            && (reply.Failed? || s.gone ==> e.pc.Idle? && e.outcome == Errored)
            && (s.gone || s.pc.at + 1 != |s.versions| ==> e.versions == s.versions)
            && (reply.Accepted? && !s.gone && s.pc.at + 1 != |s.versions| ==> e.pc.Idle? && e.outcome == Again(Requeue))
            && (reply.Accepted? && !s.gone && s.pc.at + 1 == |s.versions| ==>
                  match s.pc
                  case AddingFinalizer(_, _) =>
                    e.versions == s.versions + [o.(finalizer := true)] && e.pc == Searching(|s.versions|, e.Current())
                  case Dropping(_, _, _, _) =>
                    && e.versions == s.versions + [o.(finalizer := false)] && e.log.dropped
                    && e.pc.Idle? && e.outcome == Nothing
                  case Saving(_, obj, retry, _, _) =>
                    && e.versions == s.versions + [o.(ids := obj.ids, verdict := obj.verdict, observed := obj.observed)]
                    && e.pc.Idle? && e.outcome == Again(retry)
                  case _ => true)
  {
  }

  /** What a pass starts with: a deleted declaration is only revoked, and only while it has the finalizer;
      another one gets the finalizer before anything is looked up. */
  lemma ReadLeadsTo(s: State, at: nat)
    requires s.Valid() && s.pc.Idle? && s.seen <= at < |s.versions|
    ensures var e, o := Apply(s, Begin(at)), s.versions[at];
            && e.versions == s.versions && e.log == s.log
            && (o.deleting && !o.finalizer ==> e.pc.Idle? && e.outcome == Nothing)
            && (o.deleting && o.finalizer && o.ids != [] ==> e.pc == Revoking(at, o, 0, {}, {}))
            && (o.deleting && o.finalizer && o.ids == [] ==> e.pc == Dropping(at, o, {}, {}))
            && (!o.deleting && o.finalizer ==> e.pc == Searching(at, o))
            && (!o.deleting && !o.finalizer ==> e.pc == AddingFinalizer(at, o))
  {
  }

  /** Everybody else's powers, and no more: each of them leaves the pass in progress, the ledger and the
      versions stored so far alone, a crash ends the pass, and every other write is a new version. */
  lemma OthersAct(s: State, l: Label)
    requires s.Valid() && !l.Answer? && !l.Begin?
    ensures var e, o := Apply(s, l), s.Current();
            && e.log == s.log && e.seen == s.seen && (l.Crash? ==> e == s.(pc := Idle)) && (!l.Crash? ==> e.pc == s.pc)
            && (l.Roster? ==> e == s.(roster := l.roster))
            && (l.Vanish? ==> e == s.(gone := s.gone || (o.deleting && !o.finalizer)))
            && (l.Edit? && !s.gone ==>
                  e.versions == s.versions + [o.(address := l.address, generation := o.generation + 1)])
            && (l.Touch? && !s.gone ==> e.versions == s.versions + [o])
            && (l.Delete? && !s.gone && !o.deleting ==>
                  e.versions == s.versions + [o.(deleting := true, generation := o.generation + 1)])
            && (s.gone || l.Vanish? || l.Roster? || (l.Delete? && o.deleting) ==> e.versions == s.versions)
  {
  }

  /** Once the declaration is gone, a pass that looks for it finds nothing to do. */
  lemma GoneIsLeftAlone(s: State, at: nat)
    requires s.Valid() && s.pc.Idle? && s.gone && !(s.seen <= at < |s.versions|)
    ensures Apply(s, Begin(at)) == s.(outcome := Nothing)
  {
  }

  /** A call takes effect if it is accepted, and may take effect and still report an error, but never if
      it was refused: the role is written, the finalizer and the status are stored, just then. */
  lemma EffectIff(s: State, reply: Reply)
    requires s.Valid()
    requires s.pc.Granting? ==> s.pc.next < |s.pc.matches|
    requires s.pc.Revoking? ==> s.pc.next < |s.pc.obj.ids|
    ensures var e := Apply(s, Answer(reply));
            var lands := reply.Accepted? ||
                (reply.landed && reply.code != InvalidArgument && reply.code != AlreadyExists);
            && (s.pc.Granting? ==>
                  && e.log.held == (if lands then s.log.held + {s.pc.matches[s.pc.next]} else s.log.held)
                  && e.log.granted == if lands then s.log.granted + {s.pc.matches[s.pc.next]} else s.log.granted)
            && (s.pc.Revoking? ==> e.log.held == if lands then s.log.held - {s.pc.obj.ids[s.pc.next]} else s.log.held)
            && (!s.pc.Granting? && !s.pc.Revoking? ==> e.log.held == s.log.held && e.log.granted == s.log.granted)
            && (s.pc.AddingFinalizer? || s.pc.Saving? || s.pc.Dropping? ==>
                  |e.versions| == |s.versions| + if lands && !s.gone && s.pc.at + 1 == |s.versions| then 1 else 0)
  {
  }
}
