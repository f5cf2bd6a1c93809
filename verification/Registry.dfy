/**
  The handle registry both transports use: clients and their calls (or connections)
  under one mutex and one counter, and a tree of cancellation tokens beside it.

  `Registry` is the object behind the mutex; each of its methods is one critical
  section. `World` adds what runs outside the mutex: tokens, and callers between
  two sections. `create_request` looks its client up in one section and inserts in
  a later one, and `close` removes in a section and cancels afterwards, so both
  race with everything else.
 */
module Registry {
  import opened Bytes

  type Id = nat
  type Token = nat
  type Caller = nat

  /** A call or connection: its owner, the owner's token, and its own child token. */
  datatype Child = Child(client: Id, parent: Token, token: Token)

  datatype Entries = Entries(nextId: Id, clients: map<Id, Token>, children: map<Id, Child>)

  // ------------------------------------------------------- critical sections

  /** `next`: the following handle, or none when the counter would overflow. */
  function Issue(r: Entries): Option<Id> {
    if r.nextId + 1 < WORD then Some(r.nextId + 1) else None
  }

  function WithClient(r: Entries, token: Token): Entries {
    match Issue(r)
    case None => r
    case Some(id) => r.(nextId := id, clients := r.clients[id := token])
  }

  /** The second section of `create_request`: the client may have been closed meanwhile. */
  function WithChild(r: Entries, child: Child): Entries {
    if child.client !in r.clients then r
    else match Issue(r)
         case None => r
         case Some(id) => r.(nextId := id, children := r.children[id := child])
  }

  function Owned(r: Entries, client: Id): (ids: set<Id>)
    ensures forall k :: k in ids <==> k in r.children && r.children[k].client == client
  {
    set k | k in r.children && r.children[k].client == client
  }

  function WithoutClient(r: Entries, client: Id): Entries {
    r.(clients := r.clients - {client}, children := r.children - Owned(r, client))
  }

  function WithoutChild(r: Entries, id: Id): Entries {
    r.(children := r.children - {id})
  }

  /** Handles are in use once, between 1 and the counter, and every call belongs to a client that is entered. */
  ghost predicate EntriesOk(r: Entries) {
    && r.nextId < WORD
    && (forall c | c in r.clients :: 0 < c <= r.nextId)
    && (forall k | k in r.children :: 0 < k <= r.nextId && k !in r.clients && r.children[k].client in r.clients)
  }

  class Registry {
    var nextId: Id
    var clients: map<Id, Token>
    var children: map<Id, Child>

    function View(): Entries
      reads this
    {
      Entries(nextId, clients, children)
    }

    ghost predicate Valid()
      reads this
    {
      EntriesOk(View())
    }

    constructor ()
      ensures View() == Entries(0, map[], map[]) && Valid()
    {
      nextId, clients, children := 0, map[], map[];
    }

    /** A handle that is issued is in use for nothing. */
    method Next() returns (id: Option<Id>)
      requires Valid()
      modifies this`nextId
      ensures Valid()
      ensures id == Issue(old(View()))
      ensures id.Some? <==> old(nextId) + 1 < 0x1_0000_0000_0000_0000
      ensures id.Some? ==> id.value == old(nextId) + 1
      ensures View() == old(View()).(nextId := if id.Some? then id.value else old(nextId))
      ensures id.Some? ==> id.value != 0 && id.value !in clients && id.value !in children
    {
      if nextId + 1 >= WORD {
        return None;
      }
      nextId := nextId + 1;
      return Some(nextId);
    }

    method AddClient(token: Token) returns (id: Option<Id>)
      requires Valid()
      modifies this
      ensures Valid()
      ensures View() == WithClient(old(View()), token)
      ensures id.Some? <==> old(nextId) + 1 < 0x1_0000_0000_0000_0000
      ensures id.None? ==> View() == old(View())
      ensures id.Some? ==>
                && id.value != 0 && id.value !in old(clients) && id.value !in old(children)
                && clients == old(clients)[id.value := token] && children == old(children)
    {
      id := Next();
      if id.Some? {
        clients := clients[id.value := token];
      }
    }

    /** Finds a client under its handle, and never a call. */
    method FindClient(id: Id) returns (token: Option<Token>)
      requires Valid()
      ensures token == if id in clients then Some(clients[id]) else None
      ensures token.Some? ==> id != 0 && id !in children
    {
      token := if id in clients then Some(clients[id]) else None;
    }

    method AddChild(child: Child) returns (id: Option<Id>)
      requires Valid()
      modifies this
      ensures Valid()
      ensures View() == WithChild(old(View()), child)
      ensures id.Some? <==> child.client in old(clients) && old(nextId) + 1 < 0x1_0000_0000_0000_0000
      ensures id.None? ==> View() == old(View())
      ensures id.Some? ==>
                && id.value != 0 && id.value !in old(clients) && id.value !in old(children)
                && clients == old(clients) && children == old(children)[id.value := child]
    {
      if child.client !in clients {
        return None;
      }
      id := Next();
      if id.Some? {
        children := children[id.value := child];
      }
    }

    method RemoveClient(id: Id) returns (token: Option<Token>)
      requires Valid()
      modifies this
      ensures Valid()
      ensures View() == WithoutClient(old(View()), id)
      ensures token == if id in old(clients) then Some(old(clients)[id]) else None
      ensures clients == old(clients) - {id} && nextId == old(nextId)
      ensures forall k :: k in children <==> k in old(children) && old(children)[k].client != id
      ensures forall k | k in children :: children[k] == old(children)[k]
    {
      token := if id in clients then Some(clients[id]) else None;
      clients := clients - {id};
      var ids := set k | k in children && children[k].client == id;
      children := children - ids;
      assert ids == Owned(old(View()), id);
    }

    method RemoveChild(id: Id) returns (child: Option<Child>)
      requires Valid()
      modifies this`children
      ensures Valid()
      ensures View() == WithoutChild(old(View()), id)
      ensures child == if id in old(children) then Some(old(children)[id]) else None
      ensures children == old(children) - {id}
    {
      child := if id in children then Some(children[id]) else None;
      children := children - {id};
    }

    /**
      `create_request` when nothing comes in between: the call is entered for its
      client, hangs from the client's token, and is found under the new handle.
     */
    method CreateRequest(client: Id, token: Token) returns (id: Option<Id>)
      requires Valid()
      modifies this
      ensures Valid()
      ensures id.Some? <==> client in old(clients) && old(nextId) + 1 < WORD
      ensures id.None? ==> View() == old(View())
      ensures id.Some? ==>
                && id.value !in old(clients) && id.value !in old(children)
                && clients == old(clients)
                && children == old(children)[id.value := Child(client, clients[client], token)]
    {
      var parent := FindClient(client);
      if parent.None? {
        return None;
      }
      id := AddChild(Child(client, parent.value, token));
    }
  }

  // ------------------------------------------------------------------ the world

  /** A caller between two sections. */
  datatype Flight =
    | Creating(child: Child)   // looked the client up, has built the call
    | Closing(token: Token)    // removed a client, will cancel its token
    | Dropping(token: Token)   // removed a child, will cancel its token

  /** `issued` are the handles given out so far; `tokens` counts the tokens made. */
  datatype World = World(
    entries: Entries,
    cancelled: set<Token>,
    tokens: nat,
    flights: map<Caller, Flight>,
    issued: set<Id>)

  datatype Step =
    | Create                                // create: a new client
    | Begin(caller: Caller, client: Id)     // create_request, first section and building
    | Commit(caller: Caller)                // create_request, second section
    | Close(caller: Caller, client: Id)     // close, the section
    | Cancel(caller: Caller)                // close or close_request, the cancellation
    | CloseChild(caller: Caller, id: Id)    // close_request, the section

  const EMPTY := World(Entries(0, map[], map[]), {}, 0, map[], {})

  predicate Can(w: World, step: Step) {
    match step
    case Create => true
    case Begin(c, client) => c !in w.flights && client in w.entries.clients
    case Commit(c) => c in w.flights && w.flights[c].Creating?
    case Close(c, client) => c !in w.flights
    case Cancel(c) => c in w.flights && !w.flights[c].Creating?
    case CloseChild(c, id) => c !in w.flights
  }

  /** The handle a step returns to its caller. */
  function Returned(w: World, step: Step): Option<Id>
    requires Can(w, step)
  {
    match step
    case Create => Issue(w.entries)
    case Commit(c) => if w.flights[c].child.client in w.entries.clients then Issue(w.entries) else None
    case _ => None
  }

  function Next(w: World, step: Step): World
    requires Can(w, step)
  {
    var issued := w.issued + (if Returned(w, step).Some? then {Returned(w, step).value} else {});
    match step
    case Create =>
      w.(entries := WithClient(w.entries, w.tokens), tokens := w.tokens + 1, issued := issued)
    case Begin(c, client) =>
      var child := Child(client, w.entries.clients[client], w.tokens);
      w.(tokens := w.tokens + 1, flights := w.flights[c := Creating(child)])
    case Commit(c) =>
      w.(entries := WithChild(w.entries, w.flights[c].child), flights := w.flights - {c}, issued := issued)
    case Close(c, client) =>
      if client in w.entries.clients
      then w.(entries := WithoutClient(w.entries, client), flights := w.flights[c := Closing(w.entries.clients[client])])
      else w.(entries := WithoutClient(w.entries, client))
    case Cancel(c) =>
      w.(cancelled := w.cancelled + {w.flights[c].token}, flights := w.flights - {c})
    case CloseChild(c, id) =>
      if id in w.entries.children
      then w.(entries := WithoutChild(w.entries, id), flights := w.flights[c := Dropping(w.entries.children[id].token)])
      else w
  }

  /** A token is cancelled by itself or through its parent. */
  predicate IsCancelled(w: World, child: Child) {
    child.token in w.cancelled || child.parent in w.cancelled
  }

  predicate Runs(w: World, steps: seq<Step>)
    decreases |steps|
  {
    steps == [] || (Can(w, steps[0]) && Runs(Next(w, steps[0]), steps[1..]))
  }

  function After(w: World, steps: seq<Step>): World
    requires Runs(w, steps)
    decreases |steps|
  {
    if steps == [] then w else After(Next(w, steps[0]), steps[1..])
  }

  // ------------------------------------------------------------------ invariant

  /** A call that may still be cancelled by someone: its tokens have been made and are its own. */
  ghost predicate Fresh(w: World, child: Child) {
    child.token < w.tokens && child.parent < w.tokens && child.token != child.parent
  }

  ghost predicate TokensOk(w: World) {
    && (forall t | t in w.cancelled :: t < w.tokens)
    && (forall c | c in w.entries.clients :: w.entries.clients[c] < w.tokens && w.entries.clients[c] !in w.cancelled)
    && (forall k | k in w.entries.children :: Fresh(w, w.entries.children[k]) && w.entries.children[k].token !in w.cancelled)
    && (forall p | p in w.flights && w.flights[p].Creating? ::
          Fresh(w, w.flights[p].child) && w.flights[p].child.token !in w.cancelled)
    && (forall p | p in w.flights && !w.flights[p].Creating? :: w.flights[p].token < w.tokens)
  }

  /** No token belongs to two clients, two calls, or a client and a call. */
  ghost predicate Distinct(w: World) {
    && (forall c, d | c in w.entries.clients && d in w.entries.clients && c != d :: w.entries.clients[c] != w.entries.clients[d])
    && (forall j, k | j in w.entries.children && k in w.entries.children && j != k ::
          w.entries.children[j].token != w.entries.children[k].token)
    && (forall c, k | c in w.entries.clients && k in w.entries.children :: w.entries.clients[c] != w.entries.children[k].token)
  }

  /** What callers hold between sections is nobody else's. */
  ghost predicate FlightsApart(w: World) {
    && (forall p | p in w.flights && w.flights[p].Creating? ::
          && (forall c | c in w.entries.clients :: w.entries.clients[c] != w.flights[p].child.token)
          && (forall k | k in w.entries.children :: w.entries.children[k].token != w.flights[p].child.token)
          && (w.flights[p].child.client in w.entries.clients ==>
                w.entries.clients[w.flights[p].child.client] == w.flights[p].child.parent))
    && (forall p, q | p in w.flights && q in w.flights && p != q && w.flights[p].Creating? && w.flights[q].Creating? ::
          w.flights[p].child.token != w.flights[q].child.token)
    && (forall p | p in w.flights && !w.flights[p].Creating? ::
          && (forall c | c in w.entries.clients :: w.entries.clients[c] != w.flights[p].token)
          && (forall k | k in w.entries.children :: w.entries.children[k].token != w.flights[p].token)
          && (forall q | q in w.flights && w.flights[q].Creating? :: w.flights[q].child.token != w.flights[p].token))
  }

  ghost predicate HandlesOk(w: World) {
    && w.entries.nextId < WORD
    && (forall id | id in w.issued :: 0 < id <= w.entries.nextId)
    && (forall c | c in w.entries.clients :: c in w.issued)
    && (forall k | k in w.entries.children :: k in w.issued && k !in w.entries.clients)
    && (forall p | p in w.flights && w.flights[p].Creating? :: w.flights[p].child.client in w.issued)
  }

  /** Every call names a live client, and hangs from that client's token. */
  ghost predicate OwnersOk(w: World) {
    forall k | k in w.entries.children ::
      && w.entries.children[k].client in w.entries.clients
      && w.entries.children[k].parent == w.entries.clients[w.entries.children[k].client]
  }

  ghost predicate Valid(w: World) {
    TokensOk(w) && Distinct(w) && FlightsApart(w) && HandlesOk(w) && OwnersOk(w)
  }

  lemma CommitTokens(w: World, c: Caller)
    requires TokensOk(w) && Can(w, Commit(c))
    ensures TokensOk(Next(w, Commit(c)))
  {
  }

  lemma CancelTokens(w: World, c: Caller)
    requires TokensOk(w) && FlightsApart(w) && Can(w, Cancel(c))
    ensures TokensOk(Next(w, Cancel(c)))
  {
  }

  lemma OpenTokens(w: World, step: Step)
    requires TokensOk(w) && Can(w, step) && (step.Create? || step.Begin?)
    ensures TokensOk(Next(w, step))
  {
  }

  lemma StepTokens(w: World, step: Step)
    requires Valid(w) && Can(w, step)
    ensures TokensOk(Next(w, step))
  {
    match step
    case Commit(c) => CommitTokens(w, c);
    case Cancel(c) => CancelTokens(w, c);
    case Create => OpenTokens(w, step);
    case Begin(_, _) => OpenTokens(w, step);
    case Close(_, _) =>
    case CloseChild(_, _) =>
  }

  lemma CommitDistinct(w: World, c: Caller)
    requires Valid(w) && Can(w, Commit(c))
    ensures Distinct(Next(w, Commit(c)))
  {
  }

  lemma StepDistinct(w: World, step: Step)
    requires Valid(w) && Can(w, step)
    ensures Distinct(Next(w, step))
  {
    match step
    case Commit(c) => CommitDistinct(w, c);
    case _ =>
  }

  lemma CommitFlights(w: World, c: Caller)
    requires Valid(w) && Can(w, Commit(c))
    ensures FlightsApart(Next(w, Commit(c)))
  {
  }

  lemma CloseFlights(w: World, c: Caller, client: Id)
    requires Valid(w) && Can(w, Close(c, client))
    ensures FlightsApart(Next(w, Close(c, client)))
  {
  }

  lemma OpenFlights(w: World, step: Step)
    requires Valid(w) && Can(w, step) && (step.Create? || step.Begin?)
    ensures FlightsApart(Next(w, step))
  {
  }

  lemma StepFlights(w: World, step: Step)
    requires Valid(w) && Can(w, step)
    ensures FlightsApart(Next(w, step))
  {
    match step
    case Commit(c) => CommitFlights(w, c);
    case Close(c, client) => CloseFlights(w, c, client);
    case Create => OpenFlights(w, step);
    case Begin(_, _) => OpenFlights(w, step);
    case Cancel(_) =>
    case CloseChild(_, _) =>
  }

  lemma StepHandles(w: World, step: Step)
    requires Valid(w) && Can(w, step)
    ensures HandlesOk(Next(w, step))
  {
  }

  lemma StepOwners(w: World, step: Step)
    requires Valid(w) && Can(w, step)
    ensures OwnersOk(Next(w, step))
  {
  }

  lemma NextValid(w: World, step: Step)
    requires Valid(w) && Can(w, step)
    ensures Valid(Next(w, step))
  {
    StepTokens(w, step);
    StepDistinct(w, step);
    StepFlights(w, step);
    StepHandles(w, step);
    StepOwners(w, step);
  }

  lemma {:induction false} AlwaysValid(w: World, steps: seq<Step>)
    requires Valid(w) && Runs(w, steps)
    ensures Valid(After(w, steps))
    decreases |steps|
  {
    if steps != [] {
      NextValid(w, steps[0]);
      AlwaysValid(Next(w, steps[0]), steps[1..]);
    }
  }

  // -------------------------------------------------------------------- results

  /**
    In every reachable state, `create_request` racing `close` included: every call
    names a live client and hangs from its token, handles of clients and calls are
    disjoint, none is 0, none is above the counter, and no call that can still be
    looked up is cancelled.
   */
  lemma RegistryInvariant(steps: seq<Step>)
    requires Runs(EMPTY, steps)
    ensures var w := After(EMPTY, steps);
            && (forall k | k in w.entries.children ::
                  && w.entries.children[k].client in w.entries.clients
                  && w.entries.children[k].parent == w.entries.clients[w.entries.children[k].client]
                  && k !in w.entries.clients
                  && 0 < k <= w.entries.nextId
                  && !IsCancelled(w, w.entries.children[k]))
            && (forall c | c in w.entries.clients :: 0 < c <= w.entries.nextId)
            && w.entries.nextId < WORD
  {
    AlwaysValid(EMPTY, steps);
    var w := After(EMPTY, steps);
    forall k | k in w.entries.children
      ensures !IsCancelled(w, w.entries.children[k])
    {
      assert w.entries.children[k].client in w.entries.clients;
    }
  }

  /** A handle that is returned is not 0 and was never returned before. */
  lemma NeverReissued(steps: seq<Step>, step: Step)
    requires Runs(EMPTY, steps) && Can(After(EMPTY, steps), step)
    requires Returned(After(EMPTY, steps), step).Some?
    ensures var id := Returned(After(EMPTY, steps), step).value;
            id != 0 && id !in After(EMPTY, steps).issued && id in Next(After(EMPTY, steps), step).issued
  {
    AlwaysValid(EMPTY, steps);
  }

  lemma {:induction false} IssuedGrows(w: World, steps: seq<Step>)
    requires Runs(w, steps)
    ensures w.issued <= After(w, steps).issued && w.cancelled <= After(w, steps).cancelled
    decreases |steps|
  {
    if steps != [] {
      IssuedGrows(Next(w, steps[0]), steps[1..]);
    }
  }

  lemma StillGone(w: World, step: Step, id: Id)
    requires Valid(w) && Can(w, step) && id in w.issued && id !in w.entries.children
    ensures id in Next(w, step).issued && id !in Next(w, step).entries.children
  {
  }

  /** A call that has left the registry under a handle is never found under that handle again. */
  lemma {:induction false} GoneForGood(w: World, steps: seq<Step>, id: Id)
    requires Valid(w) && Runs(w, steps) && id in w.issued && id !in w.entries.children
    ensures id !in After(w, steps).entries.children
    decreases |steps|
  {
    if steps != [] {
      NextValid(w, steps[0]);
      StillGone(w, steps[0], id);
      GoneForGood(Next(w, steps[0]), steps[1..], id);
    }
  }

  // ------------------------------------------------------- what a lookup finds

  /** The world before step `i` of a run. */
  function At(w: World, steps: seq<Step>, i: nat): World
    requires Runs(w, steps) && i <= |steps|
    decreases |steps|
  {
    if i == 0 then w else At(Next(w, steps[0]), steps[1..], i - 1)
  }

  /** `create_request` returns handle `id` for a call of the client. */
  predicate Enters(w: World, step: Step, id: Id, client: Id) {
    && Can(w, step) && step.Commit? && Returned(w, step) == Some(id)
    && w.flights[step.caller].child.client == client
  }

  /** `close` of the client or `close_request` of the call. */
  predicate Takes(step: Step, id: Id, client: Id) {
    (step.Close? && step.client == client) || (step.CloseChild? && step.id == id)
  }

  predicate Untaken(steps: seq<Step>, id: Id, client: Id) {
    forall step | step in steps :: !Takes(step, id, client)
  }

  predicate EnteredAndKept(w: World, steps: seq<Step>, i: nat, id: Id, client: Id)
    requires Runs(w, steps)
  {
    i < |steps| && Enters(At(w, steps, i), steps[i], id, client) && Untaken(steps[i + 1..], id, client)
  }

  /** Already entered for a client, and kept. */
  predicate Kept(w: World, steps: seq<Step>, id: Id) {
    id in w.entries.children && Untaken(steps, id, w.entries.children[id].client)
  }

  lemma StepFound(w: World, step: Step, id: Id)
    requires Valid(w) && Can(w, step)
    ensures var w' := Next(w, step);
            && (id in w'.entries.children <==>
                  || (id in w.entries.children && !Takes(step, id, w.entries.children[id].client))
                  || exists client :: Enters(w, step, id, client))
            && (id in w.entries.children && id in w'.entries.children ==> w'.entries.children[id] == w.entries.children[id])
            && (forall client | Enters(w, step, id, client) ::
                  id !in w.entries.children && id in w'.entries.children && w'.entries.children[id].client == client)
  {
    if step.Commit? && Returned(w, step) == Some(id) {
      assert Enters(w, step, id, w.flights[step.caller].child.client);
    }
  }

  /** One step less of a run, for what was entered later. */
  lemma KeptLater(w: World, steps: seq<Step>, i: nat, id: Id, client: Id)
    requires Runs(w, steps) && steps != []
    ensures EnteredAndKept(w, steps, i + 1, id, client) <==> EnteredAndKept(Next(w, steps[0]), steps[1..], i, id, client)
  {
    if i + 1 < |steps| {
      assert steps[1..][i + 1..] == steps[i + 2..];
    }
  }

  lemma UntakenCons(steps: seq<Step>, id: Id, client: Id)
    requires steps != []
    ensures Untaken(steps, id, client) <==> !Takes(steps[0], id, client) && Untaken(steps[1..], id, client)
  {
    assert forall step :: step in steps <==> step == steps[0] || step in steps[1..];
  }

  lemma EnteredFirst(w: World, steps: seq<Step>, id: Id, client: Id)
    requires Valid(w) && Runs(w, steps) && steps != [] && Enters(w, steps[0], id, client)
    ensures EnteredAndKept(w, steps, 0, id, client) <==> Kept(Next(w, steps[0]), steps[1..], id)
  {
    StepFound(w, steps[0], id);
  }

  lemma FoundStep(w: World, steps: seq<Step>, id: Id)
    requires Valid(w) && Runs(w, steps) && steps != []
    ensures Kept(Next(w, steps[0]), steps[1..], id)
       <==> Kept(w, steps, id) || exists client :: Enters(w, steps[0], id, client) && Kept(Next(w, steps[0]), steps[1..], id)
  {
    StepFound(w, steps[0], id);
    if id in w.entries.children {
      UntakenCons(steps, id, w.entries.children[id].client);
    }
  }

  lemma {:induction false} FoundFrom(w: World, steps: seq<Step>, id: Id)
    requires Valid(w) && Runs(w, steps)
    ensures id in After(w, steps).entries.children
       <==> Kept(w, steps, id) || exists i: nat, client :: EnteredAndKept(w, steps, i, id, client)
    decreases |steps|
  {
    if steps != [] {
      var w', rest := Next(w, steps[0]), steps[1..];
      NextValid(w, steps[0]);
      FoundFrom(w', rest, id);
      FoundStep(w, steps, id);
      forall i: nat, client
        ensures EnteredAndKept(w', rest, i, id, client) <==> EnteredAndKept(w, steps, i + 1, id, client)
      {
        KeptLater(w, steps, i, id, client);
      }
      if i: nat, client :| EnteredAndKept(w, steps, i, id, client) {
        if i > 0 {
          assert EnteredAndKept(w', rest, i - 1, id, client);
        } else {
          EnteredFirst(w, steps, id, client);
        }
      }
      if exists client :: Enters(w, steps[0], id, client) && Kept(w', rest, id) {
        var client :| Enters(w, steps[0], id, client) && Kept(w', rest, id);
        EnteredFirst(w, steps, id, client);
      }
    }
  }

  /**
    A lookup finds exactly the calls that were returned to a caller and have since
    been taken away neither by a close of their own nor by one of their client: over
    every run, however creations, closes and cancellations interleave.
   */
  lemma FoundExactly(steps: seq<Step>, id: Id)
    requires Runs(EMPTY, steps)
    ensures id in After(EMPTY, steps).entries.children
       <==> exists i: nat, client :: EnteredAndKept(EMPTY, steps, i, id, client)
  {
    FoundFrom(EMPTY, steps, id);
  }

  predicate NotClosed(steps: seq<Step>, client: Id) {
    forall step | step in steps :: !(step.Close? && step.client == client)
  }

  /** Step `i` of the run is a `create` that returns the handle, and no later one closes that client. */
  predicate CreatedAndKept(w: World, steps: seq<Step>, i: nat, client: Id)
    requires Runs(w, steps)
  {
    && i < |steps| && steps[i].Create? && Returned(At(w, steps, i), steps[i]) == Some(client)
    && NotClosed(steps[i + 1..], client)
  }

  lemma StepClient(w: World, step: Step, client: Id)
    requires Valid(w) && Can(w, step)
    ensures client in Next(w, step).entries.clients
       <==> || (client in w.entries.clients && !(step.Close? && step.client == client))
            || (step.Create? && Returned(w, step) == Some(client))
    ensures step.Create? && Returned(w, step) == Some(client) ==> client !in w.entries.clients
  {
  }

  lemma CreatedLater(w: World, steps: seq<Step>, i: nat, client: Id)
    requires Runs(w, steps) && steps != []
    ensures CreatedAndKept(w, steps, i + 1, client) <==> CreatedAndKept(Next(w, steps[0]), steps[1..], i, client)
  {
    if i + 1 < |steps| {
      assert steps[1..][i + 1..] == steps[i + 2..];
    }
  }

  lemma NotClosedCons(steps: seq<Step>, client: Id)
    requires steps != []
    ensures NotClosed(steps, client) <==> !(steps[0].Close? && steps[0].client == client) && NotClosed(steps[1..], client)
  {
    assert forall step :: step in steps <==> step == steps[0] || step in steps[1..];
  }

  lemma {:induction false} ClientsFrom(w: World, steps: seq<Step>, client: Id)
    requires Valid(w) && Runs(w, steps)
    ensures client in After(w, steps).entries.clients
       <==> (client in w.entries.clients && NotClosed(steps, client)) || exists i: nat :: CreatedAndKept(w, steps, i, client)
    decreases |steps|
  {
    hide Valid, Next;
    if steps != [] {
      var w', rest := Next(w, steps[0]), steps[1..];
      NextValid(w, steps[0]);
      ClientsFrom(w', rest, client);
      StepClient(w, steps[0], client);
      NotClosedCons(steps, client);
      forall i: nat
        ensures CreatedAndKept(w', rest, i, client) <==> CreatedAndKept(w, steps, i + 1, client)
      {
        CreatedLater(w, steps, i, client);
      }
      if i: nat :| CreatedAndKept(w, steps, i, client) {
        if i > 0 {
          assert CreatedAndKept(w', rest, i - 1, client);
        }
      }
      if client in w'.entries.clients && NotClosed(rest, client) && client !in w.entries.clients {
        assert CreatedAndKept(w, steps, 0, client);
      }
    }
  }

  /** Over every run, a client is there exactly if its handle was returned and it has not been closed since. */
  lemma ClientsExactly(steps: seq<Step>, client: Id)
    requires Runs(EMPTY, steps)
    ensures client in After(EMPTY, steps).entries.clients
       <==> exists i: nat :: CreatedAndKept(EMPTY, steps, i, client)
  {
    ClientsFrom(EMPTY, steps, client);
  }

  /** Caller `c` has not cancelled anything yet. */
  predicate StillIn(steps: seq<Step>, c: Caller) {
    Cancel(c) !in steps
  }

  lemma {:induction false} FlightWaits(w: World, steps: seq<Step>, c: Caller)
    requires Runs(w, steps) && c in w.flights && !w.flights[c].Creating? && StillIn(steps, c)
    ensures c in After(w, steps).flights && After(w, steps).flights[c] == w.flights[c]
    decreases |steps|
  {
    if steps != [] {
      assert steps[0] in steps && forall x | x in steps[1..] :: x in steps;
      FlightWaits(Next(w, steps[0]), steps[1..], c);
    }
  }

  /** Closing the client of call `id`, or the call itself. */
  predicate Removes(w: World, step: Step, c: Caller, id: Id) {
    && id in w.entries.children
    && (step == Close(c, w.entries.children[id].client) || step == CloseChild(c, id))
  }

  lemma RemovalPending(w: World, step: Step, c: Caller, id: Id)
    requires Valid(w) && Can(w, step) && Removes(w, step, c, id)
    ensures var w1 := Next(w, step);
            && id in w1.issued && id !in w1.entries.children
            && c in w1.flights && !w1.flights[c].Creating?
            && w1.flights[c].token in {w.entries.children[id].token, w.entries.children[id].parent}
  {
  }

  /**
    `close` and `close_request` cover what they remove: whatever happens between the
    section and the cancellation, and for ever after the function has returned, the
    call is cancelled, directly or through its parent, and is never found again.
   */
  lemma CloseCovers(before: seq<Step>, step: Step, c: Caller, between: seq<Step>, later: seq<Step>, id: Id)
    requires Runs(EMPTY, before)
    requires Can(After(EMPTY, before), step) && Removes(After(EMPTY, before), step, c, id)
    requires var w1 := Next(After(EMPTY, before), step);
             Runs(w1, between) && StillIn(between, c) && Can(After(w1, between), Cancel(c)) &&
             Runs(Next(After(w1, between), Cancel(c)), later)
    ensures var w := After(EMPTY, before);
            var end := After(Next(After(Next(w, step), between), Cancel(c)), later);
            IsCancelled(end, w.entries.children[id]) && id !in end.entries.children
  {
    AlwaysValid(EMPTY, before);
    var w := After(EMPTY, before);
    var w1 := Next(w, step);
    NextValid(w, step);
    RemovalPending(w, step, c, id);
    FlightWaits(w1, between, c);
    AlwaysValid(w1, between);
    var w2 := After(w1, between);
    GoneForGood(w1, between, id);
    IssuedGrows(w1, between);
    NextValid(w2, Cancel(c));
    GoneForGood(Next(w2, Cancel(c)), later, id);
    IssuedGrows(Next(w2, Cancel(c)), later);
  }

  /**
    ... and nothing else: a cancellation never reaches a call of another client, a
    sibling, or a call that is still being built for a client that is alive.
   */
  lemma CancelIsolated(steps: seq<Step>, c: Caller)
    requires Runs(EMPTY, steps) && Can(After(EMPTY, steps), Cancel(c))
    ensures var w := After(EMPTY, steps);
            var w' := Next(w, Cancel(c));
            && w'.entries == w.entries
            && (forall k | k in w.entries.children :: !IsCancelled(w', w.entries.children[k]))
            && (forall p | p in w.flights && w.flights[p].Creating? && w.flights[p].child.client in w.entries.clients ::
                  !IsCancelled(w', w.flights[p].child))
  {
    AlwaysValid(EMPTY, steps);
    var w := After(EMPTY, steps);
    NextValid(w, Cancel(c));
    var w' := Next(w, Cancel(c));
    forall k | k in w'.entries.children
      ensures !IsCancelled(w', w'.entries.children[k])
    {
      assert w'.entries.children[k].client in w'.entries.clients;
    }
    forall p | p in w'.flights && w'.flights[p].Creating? && w'.flights[p].child.client in w'.entries.clients
      ensures !IsCancelled(w', w'.flights[p].child)
    {
    }
  }

  /** The token of a client is cancelled, or the `close` that removed the client is about to cancel it. */
  ghost predicate Doomed(w: World, token: Token) {
    token in w.cancelled || exists q :: q in w.flights && w.flights[q] == Closing(token)
  }

  /** A call that is being built for a client that is gone. */
  predicate Orphan(w: World, p: Caller) {
    p in w.flights && w.flights[p].Creating? && w.flights[p].child.client !in w.entries.clients
  }

  ghost predicate OrphansDoomed(w: World) {
    forall p | Orphan(w, p) :: Doomed(w, w.flights[p].child.parent)
  }

  lemma StillDoomed(w: World, step: Step, token: Token)
    requires Can(w, step) && Doomed(w, token)
    ensures Doomed(Next(w, step), token)
  {
    if token !in w.cancelled {
      var q :| q in w.flights && w.flights[q] == Closing(token);
      if step != Cancel(q) {
        assert q in Next(w, step).flights && Next(w, step).flights[q] == Closing(token);
      }
    }
  }

  /** A call becomes an orphan only when `close` removes its client. */
  lemma BecomesOrphan(w: World, step: Step, p: Caller)
    requires Valid(w) && Can(w, step) && Orphan(Next(w, step), p) && !Orphan(w, p)
    ensures step.Close? && step.caller in Next(w, step).flights
    ensures Next(w, step).flights[step.caller] == Closing(Next(w, step).flights[p].child.parent)
  {
  }

  lemma StaysOrphan(w: World, step: Step, p: Caller)
    requires Can(w, step) && Orphan(Next(w, step), p) && Orphan(w, p)
    ensures Next(w, step).flights[p] == w.flights[p]
  {
  }

  lemma {:induction false} AlwaysDoomed(w: World, steps: seq<Step>)
    requires Valid(w) && OrphansDoomed(w) && Runs(w, steps)
    ensures OrphansDoomed(After(w, steps))
    decreases |steps|
  {
    if steps != [] {
      var w' := Next(w, steps[0]);
      NextValid(w, steps[0]);
      forall p | Orphan(w', p)
        ensures Doomed(w', w'.flights[p].child.parent)
      {
        if Orphan(w, p) {
          StaysOrphan(w, steps[0], p);
          StillDoomed(w, steps[0], w.flights[p].child.parent);
        } else {
          BecomesOrphan(w, steps[0], p);
        }
      }
      AlwaysDoomed(w', steps[1..]);
    }
  }

  /**
    A creation that loses the race against `close` enters nothing and returns no
    handle, and its call does not escape: its parent token is cancelled, or the
    `close` it lost to is about to cancel it.
   */
  lemma LostRaceInsertsNothing(steps: seq<Step>, c: Caller)
    requires Runs(EMPTY, steps) && Can(After(EMPTY, steps), Commit(c))
    requires After(EMPTY, steps).flights[c].child.client !in After(EMPTY, steps).entries.clients
    ensures var w := After(EMPTY, steps);
            && Next(w, Commit(c)).entries == w.entries
            && Returned(w, Commit(c)) == None
            && Doomed(Next(w, Commit(c)), w.flights[c].child.parent)
  {
    AlwaysValid(EMPTY, steps);
    AlwaysDoomed(EMPTY, steps);
    var w := After(EMPTY, steps);
    assert Orphan(w, c);
    StillDoomed(w, Commit(c), w.flights[c].child.parent);
  }
}
