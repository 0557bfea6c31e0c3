/** The Remote Config updater's proxy: when the updater tags change, a new client takes over from
    the old one under two locks, without losing subscriptions, state or exclusivity. */
module ClientHandover {
  import opened PendingSlot
  import opened Packages

  datatype Subscription = Subscription(product: string, handler: nat)

  /** A client as the updater sees it. `identity` is the ID it shows to the backend. */
  datatype Client = Client(identity: nat, subscriptions: seq<Subscription>, state: seq<PackageState>, closed: bool)

  /** A callback on its way: it holds the callback lock for reading until it leaves. */
  datatype Progress = Entered | Admitted | Running

  datatype Flight = Flight(owner: nat, subscription: Subscription, progress: Progress)

  /** A refresh at work: it holds both locks for writing. */
  datatype Refresh = Refresh(replacement: Client, tags: seq<string>)

  /** A handler was called on behalf of `owner` while `active` was the active client. */
  datatype Delivery = Delivery(owner: nat, active: nat, subscription: Subscription)

  /** Clients are named by number, in the order in which they were created. */
  datatype World = World(
    clients: seq<Client>,
    active: nat,
    subscriptions: seq<Subscription>,
    tags: seq<string>,
    flights: map<nat, Flight>,
    refresh: Option<Refresh>,
    written: seq<PackageState>,       // the installer state written last
    deliveries: seq<Delivery>)

  datatype Step =
    | Subscribe(subscription: Subscription)
    | SetState(packages: seq<PackageState>)
    | Enter(flight: nat, owner: nat, index: nat)      // a client calls one of its callbacks
    | Check(flight: nat)                              // is the owner the active client?
    | Call(flight: nat)                               // the handler is called
    | Leave(flight: nat)                              // it returns
    | BeginRefresh(tags: seq<string>, fails: bool)    // both locks are taken, the new client is created
    | CopySubscription
    | Swap                                            // the new client takes over, the locks are released

  /** Subscribe, state writes and checks need the client lock, entering the callback lock; a
      refresh holds both, and starts only when no callback is inside. A retired client may still
      call its callbacks at any time. */
  predicate Enabled(w: World, step: Step) {
    match step
    case Subscribe(_) => w.refresh.None?
    case SetState(_) => w.refresh.None?
    case Enter(flight, owner, index) =>
      w.refresh.None? && flight !in w.flights && owner < |w.clients| && index < |w.clients[owner].subscriptions|
    case Check(flight) => w.refresh.None? && flight in w.flights && w.flights[flight].progress.Entered?
    case Call(flight) => flight in w.flights && w.flights[flight].progress.Admitted?
    case Leave(flight) => flight in w.flights && w.flights[flight].progress.Running?
    case BeginRefresh(_, _) => w.refresh.None? && w.flights == map[]
    case CopySubscription => w.refresh.Some? && |w.refresh.value.replacement.subscriptions| < |w.subscriptions|
    case Swap => w.refresh.Some? && |w.refresh.value.replacement.subscriptions| == |w.subscriptions|
  }

  function Registered(client: Client, subscription: Subscription): Client {
    client.(subscriptions := client.subscriptions + [subscription])
  }

  function Next(w: World, step: Step): World
    requires w.active < |w.clients| && Enabled(w, step)
  {
    match step
    case Subscribe(subscription) =>
      w.(subscriptions := w.subscriptions + [subscription],
         clients := w.clients[w.active := Registered(w.clients[w.active], subscription)])
    case SetState(packages) =>
      w.(clients := w.clients[w.active := w.clients[w.active].(state := packages)], written := packages)
    case Enter(flight, owner, index) =>
      w.(flights := w.flights[flight := Flight(owner, w.clients[owner].subscriptions[index], Entered)])
    case Check(flight) =>
      if w.flights[flight].owner == w.active
      then w.(flights := w.flights[flight := w.flights[flight].(progress := Admitted)])
      else w.(flights := w.flights - {flight})
    case Call(flight) =>
      w.(flights := w.flights[flight := w.flights[flight].(progress := Running)],
         deliveries := w.deliveries + [Delivery(w.flights[flight].owner, w.active, w.flights[flight].subscription)])
    case Leave(flight) => w.(flights := w.flights - {flight})
    case BeginRefresh(tags, fails) =>
      if tags == w.tags || fails then w
      else
        var current := w.clients[w.active];
        w.(refresh := Some(Refresh(Client(current.identity, [], current.state, false), tags)))
    case CopySubscription =>
      var r := w.refresh.value;
      w.(refresh := Some(r.(replacement := Registered(r.replacement, w.subscriptions[|r.replacement.subscriptions|]))))
    case Swap =>
      var r := w.refresh.value;
      w.(clients := w.clients[w.active := w.clients[w.active].(closed := true)] + [r.replacement],
         active := |w.clients|, tags := r.tags, refresh := None)
  }

  /** Right after Start: one client with the initial state, and no subscription yet. */
  predicate Init(w: World) {
    && |w.clients| == 1 && w.active == 0 && w.clients[0].subscriptions == [] && !w.clients[0].closed
    && w.subscriptions == [] && w.flights == map[] && w.refresh.None? && w.deliveries == []
    && w.written == w.clients[0].state
  }

  // ---------------------------------------------------------------- invariants

  /** The active client is the newest and the only one not closed; it has every subscription once,
      in order, and the last installer state. */
  predicate ActiveOK(w: World) {
    && |w.clients| > 0 && w.active == |w.clients| - 1
    && w.clients[w.active].subscriptions == w.subscriptions
    && w.clients[w.active].state == w.written
    && (forall c :: 0 <= c < |w.clients| ==> (w.clients[c].closed <==> c != w.active))
    && (forall c :: 0 <= c < |w.clients| ==> w.clients[c].identity == w.clients[0].identity)
  }

  predicate RefreshOK(w: World)
    requires |w.clients| > 0
  {
    w.refresh.Some? ==>
      var replacement := w.refresh.value.replacement;
      && w.flights == map[]
      && replacement.subscriptions <= w.subscriptions
      && replacement.state == w.written && !replacement.closed && replacement.identity == w.clients[0].identity
  }

  /** A callback that passed the check belongs to the active client, and every callback to a
      subscription of the updater. */
  predicate FlightsOK(w: World) {
    forall f :: f in w.flights ==>
      (!w.flights[f].progress.Entered? ==> w.flights[f].owner == w.active) && w.flights[f].subscription in w.subscriptions
  }

  /** Each client's subscriptions are an initial part of the updater's. */
  predicate ClientsOK(w: World) {
    forall c :: 0 <= c < |w.clients| ==> w.clients[c].subscriptions <= w.subscriptions
  }

  predicate DeliveriesOK(w: World) {
    forall i :: 0 <= i < |w.deliveries| ==>
      w.deliveries[i].owner == w.deliveries[i].active && w.deliveries[i].subscription in w.subscriptions
  }

  predicate Inv(w: World) {
    ActiveOK(w) && RefreshOK(w) && FlightsOK(w) && ClientsOK(w) && DeliveriesOK(w)
  }

  lemma StepKeepsActive(w: World, step: Step)
    requires Inv(w) && Enabled(w, step)
    ensures ActiveOK(Next(w, step)) && RefreshOK(Next(w, step))
  {
  }

  lemma StepKeepsFlights(w: World, step: Step)
    requires Inv(w) && Enabled(w, step)
    ensures FlightsOK(Next(w, step)) && DeliveriesOK(Next(w, step))
  {
  }

  lemma StepKeepsClients(w: World, step: Step)
    requires Inv(w) && Enabled(w, step)
    ensures ClientsOK(Next(w, step))
  {
  }

  predicate IsRun(worlds: seq<World>, steps: seq<Step>) {
    && |worlds| == |steps| + 1 && Init(worlds[0])
    && forall i :: 0 <= i < |steps| ==>
         worlds[i].active < |worlds[i].clients| && Enabled(worlds[i], steps[i]) && worlds[i + 1] == Next(worlds[i], steps[i])
  }

  lemma {:induction false} ReachableInv(worlds: seq<World>, steps: seq<Step>, i: nat)
    requires IsRun(worlds, steps) && i < |worlds|
    ensures Inv(worlds[i])
  {
    if i > 0 {
      ReachableInv(worlds, steps, i - 1);
      StepKeepsActive(worlds[i - 1], steps[i - 1]);
      StepKeepsFlights(worlds[i - 1], steps[i - 1]);
      StepKeepsClients(worlds[i - 1], steps[i - 1]);
    }
  }

  // ---------------------------------------------------------------- what every run promises

  /** The subscriptions made in the first steps of a run, in order. */
  function Subscribed(steps: seq<Step>): seq<Subscription> {
    if steps == [] then []
    else
      Subscribed(steps[..|steps| - 1])
      + if steps[|steps| - 1].Subscribe? then [steps[|steps| - 1].subscription] else []
  }

  /** The installer state of the last write, or the initial one. */
  function LastWritten(initial: seq<PackageState>, steps: seq<Step>): seq<PackageState> {
    if steps == [] then initial
    else if steps[|steps| - 1].SetState? then steps[|steps| - 1].packages
    else LastWritten(initial, steps[..|steps| - 1])
  }

  lemma StepHistory(w: World, step: Step)
    requires w.active < |w.clients| && Enabled(w, step)
    ensures Next(w, step).subscriptions == w.subscriptions + if step.Subscribe? then [step.subscription] else []
    ensures Next(w, step).written == if step.SetState? then step.packages else w.written
  {
  }

  lemma {:induction false} HistoryOf(worlds: seq<World>, steps: seq<Step>, i: nat)
    requires IsRun(worlds, steps) && i < |worlds|
    ensures worlds[i].subscriptions == Subscribed(steps[..i])
    ensures worlds[i].written == LastWritten(worlds[0].written, steps[..i])
  {
    if i > 0 {
      HistoryOf(worlds, steps, i - 1);
      StepHistory(worlds[i - 1], steps[i - 1]);
      assert steps[..i][..i - 1] == steps[..i - 1] && steps[..i][i - 1] == steps[i - 1];
    }
  }

  /** Between a start and a stop, whatever the order of subscriptions, refreshes, state writes and
      deliveries: the active client holds every subscription ever made, once each and in order;
      it reports the installer state that was written last, across every refresh; it shows the
      backend the identity of the first client; and it is the only client not closed. */
  lemma ActiveClientComplete(worlds: seq<World>, steps: seq<Step>, i: nat)
    requires IsRun(worlds, steps) && i < |worlds|
    ensures var w := worlds[i];
            && w.active < |w.clients|
            && w.clients[w.active].subscriptions == Subscribed(steps[..i])
            && w.clients[w.active].state == LastWritten(worlds[0].written, steps[..i])
            && w.clients[w.active].identity == w.clients[0].identity
            && forall c :: 0 <= c < |w.clients| ==> (w.clients[c].closed <==> c != w.active)
  {
    ReachableInv(worlds, steps, i);
    HistoryOf(worlds, steps, i);
  }

  /** A retired client's callback never reaches a handler: a handler is called only on behalf of
      the client that is active at that moment, which is not closed. */
  lemma RetiredNeverDelivers(worlds: seq<World>, steps: seq<Step>, i: nat)
    requires IsRun(worlds, steps) && i < |steps| && steps[i].Call?
    ensures var w := worlds[i];
            && steps[i].flight in w.flights && w.flights[steps[i].flight].owner == w.active
            && w.active < |w.clients| && !w.clients[w.active].closed
            && w.flights[steps[i].flight].subscription in Subscribed(steps[..i])
            && worlds[i + 1].deliveries ==
               w.deliveries + [Delivery(w.active, w.active, w.flights[steps[i].flight].subscription)]
  {
    ReachableInv(worlds, steps, i);
    HistoryOf(worlds, steps, i);
  }

  /** While a handler runs, no handover happens: the client that called it stays active until it
      returns. */
  lemma NoHandoverDuringCall(worlds: seq<World>, steps: seq<Step>, i: nat, f: nat)
    requires IsRun(worlds, steps) && i < |steps|
    requires f in worlds[i].flights && !worlds[i].flights[f].progress.Entered?
    ensures worlds[i + 1].active == worlds[i].active == worlds[i].flights[f].owner
  {
    ReachableInv(worlds, steps, i);
  }

  // ---------------------------------------------------------------- in place

  /** A client object; the updater compares clients by reference. */
  class RcClient {
    var identity: nat
    var subscriptions: seq<Subscription>
    var state: seq<PackageState>
    var closed: bool

    constructor (identity: nat)
      ensures this.identity == identity && subscriptions == [] && state == [] && !closed
    {
      this.identity := identity;
      subscriptions, state, closed := [], [], false;
    }

    method Register(subscription: Subscription)
      modifies `subscriptions
      ensures subscriptions == old(subscriptions) + [subscription]
    {
      subscriptions := subscriptions + [subscription];
    }
  }

  class Updater {
    var client: RcClient
    var subscriptions: seq<Subscription>
    var tags: seq<string>

    constructor (client: RcClient, tags: seq<string>)
      requires client.subscriptions == [] && !client.closed
      ensures this.client == client && subscriptions == [] && this.tags == tags && Valid()
    {
      this.client := client;
      subscriptions := [];
      this.tags := tags;
    }

    /** The client that is active has every subscription, in order, and is open. */
    predicate Valid()
      reads this, client
    {
      client.subscriptions == subscriptions && !client.closed
    }

    method Subscribe(subscription: Subscription)
      requires Valid()
      modifies this`subscriptions, client`subscriptions
      ensures Valid() && subscriptions == old(subscriptions) + [subscription]
    {
      subscriptions := subscriptions + [subscription];
      client.Register(subscription);
    }

    method SetInstallerState(packages: seq<PackageState>)
      requires Valid()
      modifies client`state
      ensures Valid() && client.state == packages
    {
      client.state := packages;
    }

    /** The handover. A refresh with the same tags, or that cannot create a client, changes
        nothing; any other leaves a new client with the old one's identity and state and every
        subscription, and the old one closed. */
    method RefreshTags(newTags: seq<string>, fails: bool) returns (ok: bool)
      requires Valid()
      modifies this`client, this`tags, client`closed
      ensures Valid() && client.identity == old(client.identity) && client.state == old(client.state)
      ensures ok <==> newTags == old(tags) || !fails
      ensures if newTags == old(tags) || fails then client == old(client) && tags == old(tags)
              else fresh(client) && tags == newTags && old(client).closed
    {
      if newTags == tags {
        return true;
      }
      if fails {
        return false;
      }
      var replacement := new RcClient(client.identity);
      replacement.state := client.state;
      for i := 0 to |subscriptions|
        invariant fresh(replacement) && !replacement.closed
        invariant replacement.identity == client.identity && replacement.state == client.state
        invariant replacement.subscriptions == subscriptions[..i]
        invariant client == old(client) && tags == old(tags) && Valid()
        invariant unchanged(client)
      {
        replacement.Register(subscriptions[i]);
      }
      client.closed := true;
      client := replacement;
      tags := newTags;
      return true;
    }
  }
}
