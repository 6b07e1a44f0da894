/** The installed audit as the object it is: arrays and maps its handlers update in place. */
module AuditHandler {
  import opened Json
  import opened SafeWriteAudit
  import opened FirestoreServer
  import opened AuditProtocol
  import opened AuditFailClosed

  class InstalledAudit {
    const identity: Identity
    var records: seq<Record>
    var failures: seq<string>
    var sessions: map<string, Session>
    var pending: set<nat>
    ghost var routed: seq<(nat, bool)>
    ghost var world: World

    ghost function Model(): Audit
      reads this
    {
      Audit(records, failures, sessions, pending, routed)
    }

    /** The object is the audit of a run of the protocol, which fails closed. */
    ghost predicate Valid()
      reads this
    {
      world.audit == Model() && Closed(world, identity)
    }

    constructor (identity: Identity, ghost docs: Documents)
      ensures this.identity == identity && Valid() && world == Start(docs)
    {
      this.identity := identity;
      records, failures, sessions, pending, routed := [], [], map[], {}, [];
      world := Start(docs);
      new;
      RunCloses(docs, identity, []);
    }

    method RouteContinue(id: nat)
      modifies this`routed
      ensures Model() == old(Model()).(routed := old(routed) + [(id, true)])
    {
      routed := routed + [(id, true)];
    }

    method RouteAbort(id: nat, failure: string)
      modifies this`failures, this`routed
      ensures (Model(), Aborted) == Abort(old(Model()), id, failure)
    {
      failures := failures + [failure];
      routed := routed + [(id, false)];
    }

    method CatchAll(id: nat)
      modifies this`records, this`failures, this`routed
      ensures (Model(), Aborted) == Reject(old(Model()), id)
    {
      records := records + [Record(id, Unknown, true)];
      RouteAbort(id, "Could not safely classify Firestore request");
    }

    /** The `for` loop over the writes, up to its next suspension, its end or an exception. */
    method ScanFrom(id: nat, writes: seq<Value>, session: Option<Session>, start: nat,
                    already: bool) returns (p: Progress)
      requires start <= |writes|
      modifies this`records
      ensures p == Scan(id, writes, session, start, already, old(records)) && records == p.records
    {
      var next, blocked := start, already;
      while next < |writes|
        invariant start <= next <= |writes|
        invariant Scan(id, writes, session, next, blocked, records)
               == Scan(id, writes, session, start, already, old(records))
      {
        var write := writes[next];
        var verdict := Classify(write, session, None);
        if verdict.Threw? {
          return Broken(records);
        }
        if session.Some? && verdict.value == Denied {
          if write.Null? {
            return Broken(records);
          }
          if WantsBaseline(write, session.value) {
            return NeedsBaseline(records, next, blocked);
          }
        }
        var denied := verdict.value == Denied;
        blocked := blocked || denied;
        if RecordThrows(write) {
          return Broken(records);
        }
        records := records + [Record(id, verdict.value, denied)];
        next := next + 1;
      }
      return Finished(records, blocked);
    }

    /** What follows the loop: abort, continue, suspend, or the `catch`. */
    method Conclude(id: nat, session: Option<Session>, groups: seq<seq<Value>>, used: seq<Baseline>, p: Progress)
      returns (phase: Phase)
      requires p.records == records && (p.NeedsBaseline? ==> session.Some?)
      modifies this`records, this`failures, this`routed
      ensures (Model(), phase) == Settle(old(Model()), id, session, groups, used, p)
    {
      match p
      case Broken(_) =>
        CatchAll(id);
        phase := Aborted;
      case NeedsBaseline(_, next, blocked) =>
        phase := Reading(session.value, groups, next, blocked, used);
      case Finished(_, blocked) =>
        if blocked {
          RouteAbort(id, "Blocked unexpected product write");
          phase := Aborted;
        } else {
          RouteContinue(id);
          phase := Continued(session, groups, used);
        }
    }

    method HandleWrite(id: nat, request: Request) returns (phase: Phase)
      modifies this`records, this`failures, this`sessions, this`pending, this`routed
      ensures (Model(), phase) == BeginWrite(old(Model()), identity, id, request)
    {
      hide Scan, ParsePayload, RequestDatabase, BoundUid, Flatten;
      var database := RequestDatabase(request);
      if database.None? {
        CatchAll(id);
        return Aborted;
      }
      var bound := BindSession(sessions, identity, request.bearer, database.value);
      if bound.None? {
        CatchAll(id);
        return Aborted;
      }
      sessions := bound.value;
      var groups := ParsePayload(request);
      if groups.None? {
        CatchAll(id);
        return Aborted;
      }
      var session := if database.value in sessions then Some(sessions[database.value]) else None;
      ScanNeedsSession(id, Flatten(groups.value), session, 0, false, records);
      var p := ScanFrom(id, Flatten(groups.value), session, 0, false);
      phase := Conclude(id, session, groups.value, [], p);
    }

    /** A request is intercepted: its handler runs to its first await and becomes pending. */
    method Handle(id: nat, request: Request) returns (phase: Phase)
      modifies this`records, this`failures, this`sessions, this`pending, this`routed
      ensures (Model(), phase) == Begin(old(Model()), identity, id, request)
    {
      pending := pending + {id};
      if request.verb in {"GET", "HEAD", "OPTIONS"} {
        RouteContinue(id);
        return Continued(None, [], []);
      }
      if !request.firestore {
        var allowed := request.dependency.AllowedDependency?;
        records := records + [Record(id, Dependency(request.dependency), !allowed)];
        if allowed {
          RouteContinue(id);
          return Continued(None, [], []);
        }
        RouteAbort(id, if request.dependency.KnownMutation? then "Blocked known product mutation"
                       else "Blocked unclassified non-read request");
        return Aborted;
      }
      if request.verb == "POST" && request.path == LISTEN_CHANNEL {
        RouteContinue(id);
        return Continued(None, [], []);
      }
      phase := HandleWrite(id, request);
    }

    /** The awaited baseline read has been answered. */
    method OnBaseline(id: nat, waiting: Phase, reply: Option<Baseline>) returns (phase: Phase)
      requires waiting.Reading? && waiting.next < |Flatten(waiting.groups)|
      modifies this`records, this`failures, this`sessions, this`pending, this`routed
      ensures (Model(), phase) == Resume(old(Model()), id, waiting, reply)
    {
      hide Scan, ClassifyWrite, RecordThrows, Flatten;
      var writes := Flatten(waiting.groups);
      var write := writes[waiting.next];
      if reply.None? || reply.value.name != waiting.account.ownDocument {
        CatchAll(id);
        return Aborted;
      }
      var verdict := ClassifyWrite(write, waiting.account.ownDocument, reply.value.fields);
      if verdict.Threw? || RecordThrows(write) {
        CatchAll(id);
        return Aborted;
      }
      var denied := verdict.value == Denied;
      records := records + [Record(id, verdict.value, denied)];
      ScanNeedsSession(id, writes, Some(waiting.account), waiting.next + 1, waiting.blocked || denied, records);
      var p := ScanFrom(id, writes, Some(waiting.account), waiting.next + 1, waiting.blocked || denied);
      phase := Conclude(id, Some(waiting.account), waiting.groups, waiting.used + [reply.value], p);
    }

    method OnSettled(id: nat)
      modifies this`pending
      ensures Model() == Complete(old(Model()), id)
    {
      pending := pending - {id};
    }

    // ---------------------------------------------------------------- the run's steps

    /**
     * `tracked`: an intercepted request starts its handler. When that does not suspend, the request has been routed
     * exactly once, and was aborted iff it has a blocked record.
     */
    method Tracked(id: nat, request: Request) returns (phase: Phase)
      requires Valid() && id !in world.tasks && !world.unrouted
      modifies this
      ensures Valid() && world == Step(old(world), identity, Arrive(id, request)) && phase == world.tasks[id]
      ensures id in pending && RoutedOnce(id, phase)
    {
      hide Begin, Closed;
      StepCloses(world, identity, Arrive(id, request));
      ArrivesPending(world, identity, id, request);
      phase := Handle(id, request);
      world := Step(world, identity, Arrive(id, request));
      ClosedRoutes(world, identity, id);
    }

    /** The handler's baseline read has been answered, and it runs on. */
    method Resumed(id: nat, waiting: Phase, reply: Option<Baseline>) returns (phase: Phase)
      requires Valid() && Ready(world, id) && waiting == world.tasks[id] && reply == world.replies[id]
      modifies this
      ensures Valid() && world == Step(old(world), identity, Wake(id)) && phase == world.tasks[id]
      ensures RoutedOnce(id, phase)
    {
      hide Resume, Closed, Flatten;
      StepCloses(world, identity, Wake(id));
      phase := OnBaseline(id, waiting, reply);
      world := Step(world, identity, Wake(id));
      ClosedRoutes(world, identity, id);
    }

    /** The handler's promise has settled. */
    method Settled(id: nat)
      requires Valid() && Over(world, id)
      modifies this
      ensures Valid() && world == Step(old(world), identity, Finish(id))
      ensures id !in pending && forall i :: i in world.tasks && world.tasks[i].Reading? ==> i in pending
    {
      StepCloses(world, identity, Finish(id));
      OnSettled(id);
      world := Step(world, identity, Finish(id));
      ClosedPending(world, identity);
    }

    /**
     * A handler that is over has made one route call, and the other way round; the call aborts iff a record is
     * blocked.
     */
    ghost predicate RoutedOnce(id: nat, phase: Phase)
      reads this
    {
      && multiset(RoutedIds(routed))[id] == (if phase.Reading? then 0 else 1)
      && (!phase.Reading? ==> (phase.Aborted? <==> exists r :: r in records && r.request == id && r.blocked))
      && |failures| == Aborts(routed)
    }
  }

  lemma ClosedRoutes(w: World, identity: Identity, id: nat)
    requires Closed(w, identity) && id in w.tasks
    ensures multiset(RoutedIds(w.audit.routed))[id] == if w.tasks[id].Reading? then 0 else 1
    ensures !w.tasks[id].Reading? ==>
        (w.tasks[id].Aborted? <==> exists r :: r in w.audit.records && r.request == id && r.blocked)
    ensures |w.audit.failures| == Aborts(w.audit.routed)
  {
    hide BlockedIds, Aborts, AllJustified, SessionsVouched, PendingMatches;
    BlockedIdsMean(w.audit.records, id);
  }

  lemma ArrivesPending(w: World, identity: Identity, id: nat, request: Request)
    requires Closed(w, identity) && Closed(Step(w, identity, Arrive(id, request)), identity) && id !in w.tasks
    requires !w.unrouted
    ensures id in Step(w, identity, Arrive(id, request)).audit.pending
  {
    hide Begin, RecordsMatch, RoutesMatch, Aborts, AllJustified, SessionsVouched;
  }

  lemma ClosedPending(w: World, identity: Identity)
    requires Closed(w, identity)
    ensures forall i :: i in w.tasks && w.tasks[i].Reading? ==> i in w.audit.pending
  {
    hide RecordsMatch, RoutesMatch, Aborts, AllJustified, SessionsVouched;
  }
}
