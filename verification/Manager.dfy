/**
  The communication manager of one process: a table of subscriptions, each with
  a predicate on packets, and the dispatch loop over it.
*/
module Manager {
  import opened Packets
  import opened SyncFormat
  import opened Protocol

  /** The predicates the program subscribes with. */
  datatype Filter =
    | Requests
    | AgreementsOn(name: Name)
    | Waits
    | WaitEnds
    | ConfirmationsOn(cond: Name)
    | NotificationsOn(cond: Name)
    | SyncsOf(name: Name)

  predicate Accepts(mutexes: set<Name>, conds: set<Name>, f: Filter, k: Packet) {
    match f
    case Requests => k.messageType.MutexRequest? && k.message in mutexes
    case AgreementsOn(m) => k.Is(MutexAgreement, m)
    case Waits => k.messageType.CondWait? && k.message in conds
    case WaitEnds => k.messageType.CondWaitEnd? && k.message in conds
    case ConfirmationsOn(c) => k.Is(CondWaitEndConfirm, c)
    case NotificationsOn(c) => k.Is(CondNotify, c)
    case SyncsOf(m) => k.messageType.Sync? && ExtractName(k.message) == Some(m)
  }

  function MainFilters(p: Proc): set<Filter> {
    if p.main.Subscribed? || p.main.Requesting? then {AgreementsOn(p.main.name)} else {}
  }

  function WaitFilters(p: Proc): set<Filter> {
    match p.wait
    case NoWait => {}
    case Listening(c) => {NotificationsOn(c)}
    case Ending(c, _) => {NotificationsOn(c), ConfirmationsOn(c)}
  }

  /** Those of the objects, made before the process listens. */
  function ObjectFilters(cfg: Config): set<Filter> {
    {Requests, Waits, WaitEnds} + set m | m in cfg.monitors :: SyncsOf(m)
  }

  /** The subscriptions of a process. */
  function Filters(cfg: Config, p: Proc): set<Filter> {
    ObjectFilters(cfg) + (MainFilters(p) + WaitFilters(p))
  }

  predicate Taken(cfg: Config, p: Proc, f: Filter, k: Packet) {
    f in Filters(cfg, p) && Accepts(cfg.mutexes, cfg.guard.Keys, f, k)
  }

  /** A SYNC message too short for the name it announces. */
  predicate Malformed(k: Packet) {
    k.messageType.Sync? && ExtractData(k.message).None?
  }

  /** No packet is taken twice, and the packets that none takes (or that break
      the one that does) are those the step system does not dispatch. */
  lemma AtMostOneTakes(cfg: Config, p: Proc, k: Packet)
    ensures forall f, g :: Taken(cfg, p, f, k) && Taken(cfg, p, g, k) ==> f == g
    ensures OutcomeOf(cfg, p, k) == NoCallback <==> Malformed(k) || forall f :: !Taken(cfg, p, f, k)
    ensures !Malformed(k) && (exists f :: Taken(cfg, p, f, k)) <==>
              || (k.messageType == MutexRequest && k.message in cfg.mutexes)
              || (k.messageType == MutexAgreement
                  && (p.main == Subscribed(k.message) || (p.main.Requesting? && p.main.name == k.message)))
              || ((k.messageType == CondWait || k.messageType == CondWaitEnd) && k.message in cfg.guard)
              || (k.messageType == CondWaitEndConfirm && p.wait.Ending? && p.wait.cond == k.message)
              || (k.messageType == CondNotify
                  && (p.wait == Listening(k.message) || (p.wait.Ending? && p.wait.cond == k.message)))
              || (k.messageType == MessageType.Sync && ExtractData(k.message).Some?
                  && exists m :: m in cfg.monitors && ExtractName(k.message) == Some(m))
  {
    var f: Filter :=
      match k.messageType
      case MutexRequest => Requests
      case MutexAgreement => AgreementsOn(k.message)
      case CondWait => Waits
      case CondWaitEnd => WaitEnds
      case CondWaitEndConfirm => ConfirmationsOn(k.message)
      case CondNotify => NotificationsOn(k.message)
      case Sync => SyncsOf(match ExtractName(k.message) case Some(m) => m case None => []);
    assert forall g :: Taken(cfg, p, g, k) ==> g == f;
    assert (exists g :: Taken(cfg, p, g, k)) <==> Taken(cfg, p, f, k);
    assert OutcomeOf(cfg, p, k) != NoCallback <==> Taken(cfg, p, f, k) && !Malformed(k);
  }

  /** What a step subscribes to, and what it unsubscribes from. */
  function Added(step: Step): set<Filter> {
    match step
    case Subscribe(m) => {AgreementsOn(m)}
    case BeginWait(c) => {NotificationsOn(c)}
    case StopWait(c) => {ConfirmationsOn(c)}
    case _ => {}
  }

  function Removed(step: Step): set<Filter> {
    match step
    case Enter(m) => {AgreementsOn(m)}
    case FinishWait(c) => {NotificationsOn(c), ConfirmationsOn(c)}
    case _ => {}
  }

  /** The steps that neither start nor end a lock or a wait. */
  lemma QuietFilters(cfg: Config, p: Proc, step: Step)
    requires LocalEnabled(cfg, p, step) && !step.Dispatch? && !step.Queue?
    requires !step.Subscribe? && !step.Enter? && !step.BeginWait? && !step.StopWait? && !step.FinishWait?
    ensures MainFilters(LocalNext(cfg, p, step)) == MainFilters(p)
    ensures WaitFilters(LocalNext(cfg, p, step)) == WaitFilters(p)
  {
  }

  lemma DispatchFilters(cfg: Config, p: Proc)
    requires LocalEnabled(cfg, p, Dispatch)
    ensures MainFilters(LocalNext(cfg, p, Dispatch)) == MainFilters(p)
    ensures WaitFilters(LocalNext(cfg, p, Dispatch)) == WaitFilters(p)
  {
  }

  lemma OwnFilters(cfg: Config, p: Proc, step: Step)
    requires LocalEnabled(cfg, p, step)
    ensures var p' := LocalNext(cfg, p, step);
            MainFilters(p') + WaitFilters(p') == MainFilters(p) + WaitFilters(p) + Added(step) - Removed(step)
    ensures Added(step) !! MainFilters(p) + WaitFilters(p)
    ensures Removed(step) <= MainFilters(p) + WaitFilters(p)
  {
    match step
    case Subscribe(m) =>
    case Queue(m) =>
    case Enter(m) =>
    case BeginWait(c) =>
    case StopWait(c) =>
    case FinishWait(c) =>
    case Dispatch => DispatchFilters(cfg, p);
    case _ => QuietFilters(cfg, p, step);
  }

  lemma ChangedPart(fixed: set<Filter>, part: set<Filter>, added: set<Filter>, removed: set<Filter>)
    requires added !! fixed + part && removed <= part && removed !! fixed
    ensures fixed + (part + added - removed) == fixed + part + added - removed
  {
  }

  /** acquireMutex subscribes to agreements before it queues and unsubscribes when it returns; wait
      subscribes to notifications before it announces itself and to confirmations before it announces its
      end, and unsubscribes from both when it returns.  Nothing is subscribed twice or unsubscribed in vain. */
  lemma SubscriptionsFollowSteps(cfg: Config, p: Proc, step: Step)
    requires LocalEnabled(cfg, p, step)
    ensures Filters(cfg, LocalNext(cfg, p, step)) == Filters(cfg, p) + Added(step) - Removed(step)
    ensures Added(step) !! Filters(cfg, p) && Removed(step) <= Filters(cfg, p)
  {
    OwnFilters(cfg, p, step);
    ChangedPart(ObjectFilters(cfg), MainFilters(p) + WaitFilters(p), Added(step), Removed(step));
  }

  /** The same, call by call. */
  lemma SubscriptionsOfCalls(cfg: Config, p: Proc, m: Name)
    ensures LocalEnabled(cfg, p, Step.Subscribe(m)) ==>
              Filters(cfg, LocalNext(cfg, p, Step.Subscribe(m))) == Filters(cfg, p) + {AgreementsOn(m)}
    ensures LocalEnabled(cfg, p, Enter(m)) ==>
              Filters(cfg, LocalNext(cfg, p, Enter(m))) == Filters(cfg, p) - {AgreementsOn(m)}
    ensures LocalEnabled(cfg, p, BeginWait(m)) ==>
              Filters(cfg, LocalNext(cfg, p, BeginWait(m))) == Filters(cfg, p) + {NotificationsOn(m)}
    ensures LocalEnabled(cfg, p, StopWait(m)) ==>
              Filters(cfg, LocalNext(cfg, p, StopWait(m))) == Filters(cfg, p) + {ConfirmationsOn(m)}
    ensures LocalEnabled(cfg, p, FinishWait(m)) ==>
              Filters(cfg, LocalNext(cfg, p, FinishWait(m)))
              == Filters(cfg, p) - {NotificationsOn(m)} - {ConfirmationsOn(m)}
  {
    if LocalEnabled(cfg, p, Step.Subscribe(m)) { SubscriptionsFollowSteps(cfg, p, Step.Subscribe(m)); }
    if LocalEnabled(cfg, p, Enter(m)) { SubscriptionsFollowSteps(cfg, p, Enter(m)); }
    if LocalEnabled(cfg, p, BeginWait(m)) { SubscriptionsFollowSteps(cfg, p, BeginWait(m)); }
    if LocalEnabled(cfg, p, StopWait(m)) { SubscriptionsFollowSteps(cfg, p, StopWait(m)); }
    if LocalEnabled(cfg, p, FinishWait(m)) { SubscriptionsFollowSteps(cfg, p, FinishWait(m)); }
  }

  type SubscriptionId = nat

  /** The table holds each of the subscriptions once. */
  ghost predicate Lists(table: map<SubscriptionId, Filter>, filters: set<Filter>) {
    && (forall id :: id in table ==> table[id] in filters)
    && (forall f :: f in filters ==> exists id :: id in table && table[id] == f)
    && (forall a, b :: a in table && b in table && table[a] == table[b] ==> a == b)
  }

  lemma ListsMore(table: map<SubscriptionId, Filter>, filters: set<Filter>, id: SubscriptionId, f: Filter)
    requires Lists(table, filters) && id !in table && f !in filters
    ensures Lists(table[id := f], filters + {f})
  {
    var more := table[id := f];
    forall g | g in filters + {f} ensures exists a :: a in more && more[a] == g {
      if g in filters {
        var a :| a in table && table[a] == g;
        assert more[a] == g;
      } else {
        assert more[id] == g;
      }
    }
  }

  lemma ListsFewer(table: map<SubscriptionId, Filter>, filters: set<Filter>, id: SubscriptionId)
    requires Lists(table, filters) && id in table
    ensures Lists(table - {id}, filters - {table[id]})
  {
    var fewer := table - {id};
    forall g | g in filters - {table[id]} ensures exists a :: a in fewer && fewer[a] == g {
      var a :| a in table && table[a] == g;
      assert fewer[a] == g;
    }
  }

  class CommunicationManager {
    var subscriptions: map<SubscriptionId, Filter>
    var subscriptionSeqNo: SubscriptionId

    ghost predicate Valid()
      reads this
    {
      forall id :: id in subscriptions ==> id < subscriptionSeqNo
    }

    ghost predicate Represents(cfg: Config, p: Proc)
      reads this
    {
      Valid() && Lists(subscriptions, Filters(cfg, p))
    }

    constructor ()
      ensures Valid() && subscriptions == map[] && subscriptionSeqNo == 0
    {
      subscriptions, subscriptionSeqNo := map[], 0;
    }

    /** Identifiers are never reused, so no subscription is overwritten. */
    method Subscribe(f: Filter) returns (id: SubscriptionId)
      requires Valid()
      modifies this
      ensures Valid() && id !in old(subscriptions) && subscriptions == old(subscriptions)[id := f]
      ensures id == old(subscriptionSeqNo) && subscriptionSeqNo == id + 1
    {
      id := subscriptionSeqNo;
      subscriptions := subscriptions[id := f];
      subscriptionSeqNo := subscriptionSeqNo + 1;
    }

    method Unsubscribe(id: SubscriptionId)
      requires Valid()
      modifies this`subscriptions
      ensures Valid() && subscriptions == old(subscriptions) - {id}
    {
      subscriptions := subscriptions - {id};
    }

    /** Calls back every subscription that accepts the packet; false stands for the exception. */
    method Dispatch(packet: Packet, mutexes: set<Name>, conds: set<Name>)
      returns (invoked: set<SubscriptionId>, anyCallbackInvoked: bool)
      ensures forall id :: id in invoked <==> id in subscriptions && Accepts(mutexes, conds, subscriptions[id], packet)
      ensures anyCallbackInvoked <==>
                exists id :: id in subscriptions && Accepts(mutexes, conds, subscriptions[id], packet)
    {
      var todo := subscriptions.Keys;
      invoked, anyCallbackInvoked := {}, false;
      while todo != {}
        invariant todo <= subscriptions.Keys
        invariant forall id :: id in invoked <==>
                                 id in subscriptions && id !in todo
                                   && Accepts(mutexes, conds, subscriptions[id], packet)
        invariant anyCallbackInvoked <==> invoked != {}
        decreases todo
      {
        var id :| id in todo;
        if Accepts(mutexes, conds, subscriptions[id], packet) {
          invoked := invoked + {id};
          anyCallbackInvoked := true;
        }
        todo := todo - {id};
      }
    }

    /** acquireMutex subscribes to agreements ... */
    method SubscribeToAgreements(m: Name, ghost cfg: Config, ghost p: Proc) returns (id: SubscriptionId)
      requires Represents(cfg, p) && LocalEnabled(cfg, p, Step.Subscribe(m))
      modifies this
      ensures Represents(cfg, LocalNext(cfg, p, Step.Subscribe(m)))
      ensures id !in old(subscriptions) && subscriptions == old(subscriptions)[id := AgreementsOn(m)]
    {
      SubscriptionsFollowSteps(cfg, p, Step.Subscribe(m));
      ListsMore(subscriptions, Filters(cfg, p), subscriptionSeqNo, AgreementsOn(m));
      id := Subscribe(AgreementsOn(m));
    }

    /** ... and unsubscribes when they are complete. */
    method UnsubscribeFromAgreements(id: SubscriptionId, m: Name, ghost cfg: Config, ghost p: Proc)
      requires Represents(cfg, p) && LocalEnabled(cfg, p, Enter(m))
      requires id in subscriptions && subscriptions[id] == AgreementsOn(m)
      modifies this`subscriptions
      ensures Represents(cfg, LocalNext(cfg, p, Enter(m))) && subscriptions == old(subscriptions) - {id}
    {
      SubscriptionsFollowSteps(cfg, p, Enter(m));
      ListsFewer(subscriptions, Filters(cfg, p), id);
      assert Filters(cfg, p) + {} - {AgreementsOn(m)} == Filters(cfg, p) - {AgreementsOn(m)};
      Unsubscribe(id);
    }

    /** In a represented process the loop calls back exactly one subscription, or throws. */
    method DispatchFor(packet: Packet, cfg: Config, ghost p: Proc)
      returns (invoked: set<SubscriptionId>, anyCallbackInvoked: bool)
      requires Represents(cfg, p)
      ensures anyCallbackInvoked <==> exists f :: Taken(cfg, p, f, packet)
      ensures anyCallbackInvoked && !Malformed(packet) <==> OutcomeOf(cfg, p, packet) != NoCallback
      ensures anyCallbackInvoked ==> exists id :: invoked == {id}
    {
      invoked, anyCallbackInvoked := Dispatch(packet, cfg.mutexes, cfg.guard.Keys);
      AtMostOneTakes(cfg, p, packet);
      if anyCallbackInvoked {
        ghost var id :| id in invoked;
        assert Taken(cfg, p, subscriptions[id], packet);
        forall a | a in invoked ensures a == id {
          assert Taken(cfg, p, subscriptions[a], packet);
        }
        assert invoked == {id};
      } else {
        assert forall f :: f in Filters(cfg, p) ==> exists id :: id in subscriptions && subscriptions[id] == f;
      }
    }
  }
}
