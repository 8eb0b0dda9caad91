/** Admission of players by compare-and-swap on the shared player count, and the matching
    decrement on disconnection, as a state machine over the atomic steps of any number of
    concurrent connections. */
module Admission {
  import opened Options

  /** How far a connection's single call of login has come. `seen` is the count it read. */
  datatype Phase =
    | Connected
    | Reading
    | Testing(seen: int)
    | Swapping(seen: int)
    | Counted
    | Finished

  datatype PlayerState = Closed | Login | InGame

  /** One connection. Of the calls of Disconnect running on it, `observed` have found it in
      the game, `leaving` have closed it after that and still owe the decrement, and `stale`
      have found it logging in. `admitted` and `departed` record the history: whether the count
      was raised for it, and how many calls of Disconnect have found it in the game. */
  datatype Client = Client(phase: Phase, state: PlayerState, observed: nat, leaving: nat, stale: nat,
                           admitted: bool, departed: nat, left: nat)

  datatype System = System(playerCount: int, clients: seq<Client>)

  const FRESH := Client(Connected, Closed, 0, 0, 0, false, 0, 0)

  predicate Init(s: System) {
    s.playerCount == 0 && forall i :: 0 <= i < |s.clients| ==> s.clients[i] == FRESH
  }

  /** The atomic steps of connection i. */
  datatype Action =
    | Accept           // the connection starts; its state becomes Login
    | BeginLogin       // login finds the state to be Login and passes the other checks
    | ReadCount
    | TestCount        // either on to the swap, or "Server full!"
    | SwapCount        // compare-and-swap: admitted, or back to reading
    | Enter            // the entity got an id: the state becomes InGame
    | NoEntity         // the server had no entity id left: login gives up
    | Observe          // Disconnect finds the state to be InGame
    | Close            // ... and closes it
    | Disconnect       // both at once
    | ObserveLogin     // Disconnect finds the state to be Login
    | CloseLogin       // ... and closes it, without owing a decrement
    | Leave            // the decrement at the end of Disconnect

  function Local(max: int, count: int, c: Client, a: Action): Option<(int, Client)> {
    match a
    case Accept =>
      if c.phase.Connected? && c.state.Closed? then Some((count, c.(state := Login))) else None
    case BeginLogin =>
      if c.phase.Connected? && c.state.Login? then Some((count, c.(phase := Reading))) else None
    case ReadCount =>
      if c.phase.Reading? then Some((count, c.(phase := Testing(count)))) else None
    case TestCount =>
      if !c.phase.Testing? then None
      else if c.phase.seen >= max then Some((count, c.(phase := Finished)))
      else Some((count, c.(phase := Swapping(c.phase.seen))))
    case SwapCount =>
      if !c.phase.Swapping? then None
      else if count == c.phase.seen then Some((count + 1, c.(phase := Counted, admitted := true)))
      else Some((count, c.(phase := Reading)))
    case Enter =>
      if c.phase.Counted? then Some((count, c.(phase := Finished, state := InGame))) else None
    case NoEntity =>
      if c.phase.Counted? then Some((count, c.(phase := Finished))) else None
    case Observe =>
      if c.state.InGame? then Some((count, c.(observed := c.observed + 1, departed := c.departed + 1))) else None
    case Close =>
      if c.observed > 0 then Some((count, c.(observed := c.observed - 1, leaving := c.leaving + 1, state := Closed)))
      else None
    case Disconnect =>
      if c.state.InGame? then Some((count, c.(leaving := c.leaving + 1, departed := c.departed + 1, state := Closed)))
      else None
    case ObserveLogin =>
      if c.state.Login? then Some((count, c.(stale := c.stale + 1))) else None
    case CloseLogin =>
      if c.stale > 0 then Some((count, c.(stale := c.stale - 1, state := Closed))) else None
    case Leave =>
      if c.leaving > 0 then Some((count - 1, c.(leaving := c.leaving - 1, left := c.left + 1))) else None
  }

  /** One connection takes one step; the others only share the count with it. */
  ghost predicate Next(max: int, s: System, i: nat, a: Action, t: System) {
    && i < |s.clients|
    && var r := Local(max, s.playerCount, s.clients[i], a);
    && r.Some?
    && t == System(r.value.0, s.clients[i := r.value.1])
  }

  ghost predicate Run(max: int, states: seq<System>, who: seq<nat>, actions: seq<Action>) {
    && |states| == |who| + 1 == |actions| + 1
    && Init(states[0])
    && forall k :: 0 <= k < |who| ==> Next(max, states[k], who[k], actions[k], states[k + 1])
  }

  // ------------------------------------------------------------------
  // Counting.

  /** What one connection contributes to the count. */
  function Share(c: Client): int {
    (if c.admitted then 1 else 0) - c.left
  }

  function Shares(clients: seq<Client>): int {
    if clients == [] then 0 else Shares(clients[..|clients| - 1]) + Share(clients[|clients| - 1])
  }

  function Playing(clients: seq<Client>): nat {
    if clients == [] then 0 else
      Playing(clients[..|clients| - 1]) + (if clients[|clients| - 1].state.InGame? then 1 else 0)
  }

  lemma {:induction false} SharesUpdate(clients: seq<Client>, i: nat, c: Client)
    requires i < |clients|
    ensures Shares(clients[i := c]) == Shares(clients) - Share(clients[i]) + Share(c)
  {
    var init := clients[..|clients| - 1];
    if i == |clients| - 1 {
      assert clients[i := c][..|clients| - 1] == init;
    } else {
      SharesUpdate(init, i, c);
      assert clients[i := c][..|clients| - 1] == init[i := c];
    }
  }

  /** What every connection keeps about itself. */
  predicate ClientOk(max: int, c: Client) {
    && (c.admitted <==> c.phase.Counted? || (c.phase.Finished? && c.admitted))
    && (c.phase.Swapping? ==> c.phase.seen < max)
    && (c.state.InGame? ==> c.phase.Finished? && c.admitted)
    && c.departed == c.observed + c.leaving + c.left
    && (c.departed > 0 ==> c.phase.Finished? && c.admitted)
    && (c.leaving + c.left > 0 ==> !c.state.InGame?)
  }

  ghost predicate Invariant(max: int, s: System) {
    && s.playerCount == Shares(s.clients)
    && (0 <= max ==> s.playerCount <= max)
    && forall i :: 0 <= i < |s.clients| ==> ClientOk(max, s.clients[i])
  }

  lemma {:induction false} NoShares(clients: seq<Client>)
    requires forall i :: 0 <= i < |clients| ==> clients[i] == FRESH
    ensures Shares(clients) == 0
  {
    if clients != [] {
      NoShares(clients[..|clients| - 1]);
    }
  }

  lemma LocalOk(max: int, count: int, c: Client, a: Action)
    requires ClientOk(max, c) && Local(max, count, c, a).Some?
    ensures var (count', c') := Local(max, count, c, a).value;
            ClientOk(max, c') && count' - count == Share(c') - Share(c)
            && count' <= count + 1 && (count' > count ==> count < max)
  {
  }

  lemma StepKeeps(max: int, s: System, i: nat, a: Action, t: System)
    requires Invariant(max, s) && Next(max, s, i, a, t)
    ensures Invariant(max, t)
  {
    hide Local, ClientOk, Shares, Share;
    var r := Local(max, s.playerCount, s.clients[i], a).value;
    LocalOk(max, s.playerCount, s.clients[i], a);
    SharesUpdate(s.clients, i, r.1);
  }

  lemma {:induction false} RunKeeps(max: int, states: seq<System>, who: seq<nat>, actions: seq<Action>, n: nat)
    requires Run(max, states, who, actions) && n < |states|
    ensures Invariant(max, states[n])
    decreases n
  {
    hide Next, Shares, ClientOk;
    if n == 0 {
      InitOk(max, states[0]);
    } else {
      RunKeeps(max, states, who, actions, n - 1);
      StepKeeps(max, states[n - 1], who[n - 1], actions[n - 1], states[n]);
    }
  }

  lemma InitOk(max: int, s: System)
    requires Init(s)
    ensures Invariant(max, s)
  {
    NoShares(s.clients);
  }

  // ------------------------------------------------------------------
  // Main results.

  /** However the steps interleave, the count never exceeds the configured maximum. */
  lemma NeverOverfull(max: nat, states: seq<System>, who: seq<nat>, actions: seq<Action>, n: nat)
    requires Run(max, states, who, actions) && n < |states|
    ensures states[n].playerCount <= max
  {
    RunKeeps(max, states, who, actions, n);
  }

  /** No connection has been found in the game by two calls of Disconnect. */
  ghost predicate DepartOnce(s: System) {
    forall i :: 0 <= i < |s.clients| ==> s.clients[i].departed <= 1
  }

  lemma {:induction false} SharesCoverPlaying(max: int, clients: seq<Client>)
    requires forall i :: 0 <= i < |clients| ==> ClientOk(max, clients[i]) && clients[i].departed <= 1
    ensures Playing(clients) <= Shares(clients)
  {
    if clients != [] {
      var last := clients[|clients| - 1];
      SharesCoverPlaying(max, clients[..|clients| - 1]);
      assert ClientOk(max, last) && last.departed <= 1;
    }
  }

  /** As long as no two calls of Disconnect find the same player in the game, the count never
      falls below the number of players in the game. */
  lemma NeverUndercounted(max: int, states: seq<System>, who: seq<nat>, actions: seq<Action>, n: nat)
    requires Run(max, states, who, actions) && n < |states|
    requires DepartOnce(states[n])
    ensures Playing(states[n].clients) <= states[n].playerCount
  {
    RunKeeps(max, states, who, actions, n);
    SharesCoverPlaying(max, states[n].clients);
  }

  /** If Disconnect tests and closes in one step, no player departs twice. */
  lemma {:induction false} AtomicDepartsOnce(max: int, states: seq<System>, who: seq<nat>, actions: seq<Action>, n: nat)
    requires Run(max, states, who, actions) && n < |states|
    requires forall k :: 0 <= k < |actions| ==> !actions[k].Observe?
    ensures forall i :: 0 <= i < |states[n].clients| ==>
              var c := states[n].clients[i];
              c.departed <= 1 && c.observed == 0 && (c.departed == 1 ==> c.phase.Finished? && !c.state.InGame?)
    decreases n
  {
    if n > 0 {
      AtomicDepartsOnce(max, states, who, actions, n - 1);
      RunKeeps(max, states, who, actions, n - 1);
      var s, i := states[n - 1], who[n - 1];
      assert Next(max, s, i, actions[n - 1], states[n]);
      assert ClientOk(max, s.clients[i]);
    }
  }

  lemma AtomicNeverUndercounted(max: int, states: seq<System>, who: seq<nat>, actions: seq<Action>, n: nat)
    requires Run(max, states, who, actions) && n < |states|
    requires forall k :: 0 <= k < |actions| ==> !actions[k].Observe?
    ensures Playing(states[n].clients) <= states[n].playerCount
  {
    AtomicDepartsOnce(max, states, who, actions, n);
    NeverUndercounted(max, states, who, actions, n);
  }

  // ------------------------------------------------------------------
  // Why the test and the closing must not be separated.

  lemma Extend(max: int, states: seq<System>, who: seq<nat>, actions: seq<Action>, i: nat, a: Action, t: System)
    requires Run(max, states, who, actions) && Next(max, states[|states| - 1], i, a, t)
    ensures Run(max, states + [t], who + [i], actions + [a])
  {
    hide Next;
    var states', who', actions' := states + [t], who + [i], actions + [a];
    forall k | 0 <= k < |who'|
      ensures Next(max, states'[k], who'[k], actions'[k], states'[k + 1])
    {
      if k < |who| {
        assert Next(max, states[k], who[k], actions[k], states[k + 1]);
      }
    }
  }

  /** Performs one step at the end of a run. */
  lemma Perform(max: int, states: seq<System>, who: seq<nat>, actions: seq<Action>, i: nat, a: Action)
    returns (states': seq<System>, who': seq<nat>, actions': seq<Action>)
    requires Run(max, states, who, actions)
    requires var s := states[|states| - 1]; i < |s.clients| && Local(max, s.playerCount, s.clients[i], a).Some?
    ensures Run(max, states', who', actions') && |states'| == |states| + 1
    ensures states'[0] == states[0]
    ensures var s := states[|states| - 1];
            var r := Local(max, s.playerCount, s.clients[i], a).value;
            states'[|states|] == System(r.0, s.clients[i := r.1])
  {
    var s := states[|states| - 1];
    var r := Local(max, s.playerCount, s.clients[i], a).value;
    var t := System(r.0, s.clients[i := r.1]);
    Extend(max, states, who, actions, i, a, t);
    states', who', actions' := states + [t], who + [i], actions + [a];
  }

  /** Counts a fresh connection while there is room. */
  lemma Counting(max: int, states: seq<System>, who: seq<nat>, actions: seq<Action>, i: nat)
    returns (states': seq<System>, who': seq<nat>, actions': seq<Action>)
    requires Run(max, states, who, actions)
    requires var s := states[|states| - 1]; i < |s.clients| && s.clients[i] == FRESH && s.playerCount < max
    ensures Run(max, states', who', actions') && states'[0] == states[0]
    ensures var s := states[|states| - 1];
            states'[|states'| - 1] == System(s.playerCount + 1,
              s.clients[i := Client(Counted, Login, 0, 0, 0, true, 0, 0)])
  {
    hide Run;
    states', who', actions' := Perform(max, states, who, actions, i, Accept);
    states', who', actions' := Perform(max, states', who', actions', i, BeginLogin);
    states', who', actions' := Perform(max, states', who', actions', i, ReadCount);
    states', who', actions' := Perform(max, states', who', actions', i, TestCount);
    states', who', actions' := Perform(max, states', who', actions', i, SwapCount);
  }

  /** Brings a fresh connection into the game while there is room. */
  lemma Admit(max: int, states: seq<System>, who: seq<nat>, actions: seq<Action>, i: nat)
    returns (states': seq<System>, who': seq<nat>, actions': seq<Action>)
    requires Run(max, states, who, actions)
    requires var s := states[|states| - 1]; i < |s.clients| && s.clients[i] == FRESH && s.playerCount < max
    ensures Run(max, states', who', actions') && states'[0] == states[0]
    ensures var s := states[|states| - 1];
            states'[|states'| - 1] == System(s.playerCount + 1,
              s.clients[i := Client(Finished, InGame, 0, 0, 0, true, 0, 0)])
  {
    hide Run;
    states', who', actions' := Counting(max, states, who, actions, i);
    states', who', actions' := Perform(max, states', who', actions', i, Enter);
  }

  /** A single connection is enough: two calls of Disconnect that both find its player in the game
      before either closes it take the count below zero. */
  lemma DoubleDisconnect(max: int, n: nat)
    returns (states: seq<System>, who: seq<nat>, actions: seq<Action>)
    requires max >= 1 && n >= 1
    ensures Run(max, states, who, actions)
    ensures |states[0].clients| == n
    ensures states[|states| - 1].playerCount == -1
  {
    var start := System(0, seq(n, _ => FRESH));
    states, who, actions := [start], [], [];
    assert Run(max, states, who, actions);
    hide Run;
    states, who, actions := Admit(max, states, who, actions, 0);
    states, who, actions := Perform(max, states, who, actions, 0, Observe);
    states, who, actions := Perform(max, states, who, actions, 0, Observe);
    states, who, actions := Perform(max, states, who, actions, 0, Close);
    states, who, actions := Perform(max, states, who, actions, 0, Close);
    states, who, actions := Perform(max, states, who, actions, 0, Leave);
    states, who, actions := Perform(max, states, who, actions, 0, Leave);
  }

  /** A server without places admits nobody: the count stays 0, and nobody is on the way in. */
  ghost predicate Deserted(s: System) {
    s.playerCount == 0 && forall i :: 0 <= i < |s.clients| ==>
      var c := s.clients[i];
      && !c.admitted && !c.state.InGame? && !c.phase.Swapping? && !c.phase.Counted?
      && c.observed == 0 && c.leaving == 0
  }

  lemma {:induction false} StaysDeserted(max: int, states: seq<System>, who: seq<nat>, actions: seq<Action>, n: nat)
    requires Run(max, states, who, actions) && n < |states| && max < 1
    ensures Deserted(states[n])
    decreases n
  {
    if n > 0 {
      StaysDeserted(max, states, who, actions, n - 1);
      assert Next(max, states[n - 1], who[n - 1], actions[n - 1], states[n]);
      SeenCounts(max, states, who, actions, n - 1);
    }
  }

  /** Without places, every count that was read was 0, which is no less than the maximum. */
  lemma {:induction false} SeenCounts(max: int, states: seq<System>, who: seq<nat>, actions: seq<Action>, n: nat)
    requires Run(max, states, who, actions) && n < |states| && max < 1
    ensures forall i :: 0 <= i < |states[n].clients| && states[n].clients[i].phase.Testing? ==>
              states[n].clients[i].phase.seen == 0
    decreases n
  {
    if n > 0 {
      SeenCounts(max, states, who, actions, n - 1);
      StaysDeserted(max, states, who, actions, n - 1);
      assert Next(max, states[n - 1], who[n - 1], actions[n - 1], states[n]);
    }
  }

  lemma {:induction false} NobodyPlaying(clients: seq<Client>)
    requires forall i :: 0 <= i < |clients| ==> !clients[i].state.InGame?
    ensures Playing(clients) == 0
  {
    if clients != [] {
      NobodyPlaying(clients[..|clients| - 1]);
    }
  }

  lemma {:induction false} SameClients(max: int, states: seq<System>, who: seq<nat>, actions: seq<Action>, n: nat)
    requires Run(max, states, who, actions) && n < |states|
    ensures |states[n].clients| == |states[0].clients|
    decreases n
  {
    if n > 0 {
      SameClients(max, states, who, actions, n - 1);
      assert Next(max, states[n - 1], who[n - 1], actions[n - 1], states[n]);
    }
  }

  /** With n connections, no run of the separate steps ever counts fewer players than there are. */
  ghost predicate AlwaysCovers(max: int, n: nat) {
    forall states: seq<System>, who: seq<nat>, actions: seq<Action> ::
      Run(max, states, who, actions) && |states[0].clients| == n ==>
        forall k :: 0 <= k < |states| ==> Playing(states[k].clients) <= states[k].playerCount
  }

  lemma DesertedCovers(max: int, n: nat)
    requires max < 1 || n == 0
    ensures AlwaysCovers(max, n)
  {
    forall states: seq<System>, who: seq<nat>, actions: seq<Action>, k: nat
      | Run(max, states, who, actions) && |states[0].clients| == n && k < |states|
      ensures Playing(states[k].clients) <= states[k].playerCount
    {
      if max < 1 {
        StaysDeserted(max, states, who, actions, k);
        NobodyPlaying(states[k].clients);
      } else {
        SameClients(max, states, who, actions, k);
        RunKeeps(max, states, who, actions, k);
      }
    }
  }

  /** The separate steps of the source count correctly in every run exactly if nobody can play at
      all: the server has no places, or there are no connections. */
  lemma CoversIffNobodyPlays(max: int, n: nat)
    ensures AlwaysCovers(max, n) <==> max < 1 || n == 0
  {
    if max < 1 || n == 0 {
      DesertedCovers(max, n);
    } else {
      var states, who, actions := DoubleDisconnect(max, n);
      var last := |states| - 1;
      assert Run(max, states, who, actions);
      assert Playing(states[last].clients) > states[last].playerCount;
    }
  }

  // ------------------------------------------------------------------
  // When no call is in progress.

  /** No call of login or Disconnect is running on the connection. */
  predicate Idle(c: Client) {
    (c.phase.Connected? || c.phase.Finished?) && c.observed == 0 && c.leaving == 0 && c.stale == 0
  }

  ghost predicate AllIdle(s: System) {
    forall i :: 0 <= i < |s.clients| ==> Idle(s.clients[i])
  }

  /** The connections that were counted, are not in the game, and were never counted off. */
  function LostPlaces(clients: seq<Client>): nat {
    if clients == [] then 0 else
      var c := clients[|clients| - 1];
      LostPlaces(clients[..|clients| - 1]) + (if c.admitted && !c.state.InGame? && c.left == 0 then 1 else 0)
  }

  /** How often connections were counted off more than once. */
  function ExtraLeaves(clients: seq<Client>): nat {
    if clients == [] then 0 else
      var c := clients[|clients| - 1];
      ExtraLeaves(clients[..|clients| - 1]) + (if c.left > 1 then c.left - 1 else 0)
  }

  lemma {:induction false} SharesSplit(max: int, clients: seq<Client>)
    requires forall i :: 0 <= i < |clients| ==> ClientOk(max, clients[i]) && Idle(clients[i])
    ensures Shares(clients) == Playing(clients) + LostPlaces(clients) - ExtraLeaves(clients)
  {
    if clients != [] {
      var last := clients[|clients| - 1];
      SharesSplit(max, clients[..|clients| - 1]);
      assert ClientOk(max, last) && Idle(last);
    }
  }

  /** When no call is in progress, the count is the number of players, plus the places lost, minus the
      players counted off too often; so it is right exactly if these make up for each other. */
  lemma CountWhenIdle(max: int, states: seq<System>, who: seq<nat>, actions: seq<Action>, n: nat)
    requires Run(max, states, who, actions) && n < |states| && AllIdle(states[n])
    ensures var s := states[n];
            && s.playerCount == Playing(s.clients) + LostPlaces(s.clients) - ExtraLeaves(s.clients)
            && (s.playerCount == Playing(s.clients) <==> LostPlaces(s.clients) == ExtraLeaves(s.clients))
  {
    RunKeeps(max, states, who, actions, n);
    SharesSplit(max, states[n].clients);
  }

  lemma {:induction false} NoExtraLeaves(clients: seq<Client>)
    requires forall i :: 0 <= i < |clients| ==> clients[i].left <= 1
    ensures ExtraLeaves(clients) == 0
  {
    if clients != [] {
      NoExtraLeaves(clients[..|clients| - 1]);
    }
  }

  lemma {:induction false} NothingLost(clients: seq<Client>)
    ensures LostPlaces(clients) == 0 <==>
              forall i :: 0 <= i < |clients| && clients[i].admitted && !clients[i].state.InGame? ==> clients[i].left > 0
  {
    if clients != [] {
      var init := clients[..|clients| - 1];
      NothingLost(init);
      assert forall i :: 0 <= i < |init| ==> init[i] == clients[i];
      assert clients == init + [clients[|clients| - 1]];
    }
  }

  /** If Disconnect tests and closes in one step, the count is right, when no call is in progress,
      exactly if every counted connection is in the game or was counted off. */
  lemma AtomicCountWhenIdle(max: int, states: seq<System>, who: seq<nat>, actions: seq<Action>, n: nat)
    requires Run(max, states, who, actions) && n < |states| && AllIdle(states[n])
    requires forall k :: 0 <= k < |actions| ==> !actions[k].Observe?
    ensures var s := states[n];
            s.playerCount == Playing(s.clients) <==>
            forall i :: 0 <= i < |s.clients| && s.clients[i].admitted && !s.clients[i].state.InGame? ==>
              s.clients[i].left > 0
  {
    hide Run, Local;
    var s := states[n];
    AtomicDepartsOnce(max, states, who, actions, n);
    RunKeeps(max, states, who, actions, n);
    forall i | 0 <= i < |s.clients|
      ensures s.clients[i].left <= 1
    {
      assert ClientOk(max, s.clients[i]) && s.clients[i].departed <= 1;
    }
    NoExtraLeaves(s.clients);
    NothingLost(s.clients);
    CountWhenIdle(max, states, who, actions, n);
  }

  /** A login for which the server has no entity id left keeps its place for good. */
  lemma PlaceWithoutEntity(max: int)
    returns (states: seq<System>, who: seq<nat>, actions: seq<Action>)
    requires max >= 1
    ensures Run(max, states, who, actions)
    ensures var s := states[|states| - 1]; AllIdle(s) && s.playerCount == 1 && Playing(s.clients) == 0
  {
    var start := System(0, [FRESH]);
    states, who, actions := [start], [], [];
    assert Run(max, states, who, actions);
    hide Run;
    states, who, actions := Counting(max, states, who, actions, 0);
    states, who, actions := Perform(max, states, who, actions, 0, NoEntity);
    var gone := Client(Finished, Login, 0, 0, 0, true, 0, 0);
    assert states[|states| - 1] == System(1, [gone]);
    assert [gone][..0] == [];
  }

  /** So does a player whose Disconnect was decided while login had not finished. */
  lemma PlaceOfLateClose(max: int)
    returns (states: seq<System>, who: seq<nat>, actions: seq<Action>)
    requires max >= 1
    ensures Run(max, states, who, actions)
    ensures var s := states[|states| - 1]; AllIdle(s) && s.playerCount == 1 && Playing(s.clients) == 0
  {
    var start := System(0, [FRESH]);
    states, who, actions := [start], [], [];
    assert Run(max, states, who, actions);
    hide Run;
    states, who, actions := Counting(max, states, who, actions, 0);
    states, who, actions := Perform(max, states, who, actions, 0, ObserveLogin);
    states, who, actions := Perform(max, states, who, actions, 0, Enter);
    states, who, actions := Perform(max, states, who, actions, 0, CloseLogin);
    var gone := Client(Finished, Closed, 0, 0, 0, true, 0, 0);
    assert states[|states| - 1] == System(1, [gone]);
    assert [gone][..0] == [];
  }

  // ------------------------------------------------------------------
  // All places can be taken.

  /** The first n connections are in the game and counted, and the others have not started. */
  ghost predicate FilledTo(s: System, size: nat, n: nat) {
    && s.playerCount == n <= |s.clients| == size
    && (forall i :: 0 <= i < n ==> s.clients[i].state.InGame?)
    && (forall i :: n <= i < size ==> s.clients[i] == FRESH)
  }

  /** With max places, any number of players up to max can get into the game. */
  lemma {:induction false} Filled(max: nat, size: nat, n: nat)
    returns (states: seq<System>, who: seq<nat>, actions: seq<Action>)
    requires n <= max && n <= size
    ensures Run(max, states, who, actions)
    ensures FilledTo(states[|states| - 1], size, n)
  {
    if n == 0 {
      states, who, actions := [System(0, seq(size, _ => FRESH))], [], [];
    } else {
      states, who, actions := Filled(max, size, n - 1);
      states, who, actions := Admit(max, states, who, actions, n - 1);
    }
  }
}
