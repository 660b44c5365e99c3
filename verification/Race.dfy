/** Concurrent calls of `Provision` (rdsbroker/broker.go admits the race): any number of calls, advanced
    one external call at a time in any order, while RDS finishes deletions in between. */
module Race {
  import opened Wrappers
  import opened Models
  import opened Records
  import opened Names
  import opened SqlServers
  import opened Broker
  import opened RunRecords
  import opened RunReferences
  import opened RunClusters

  datatype Call = Call(req: ProvisionRequest, outcomes: ProvisionCalls, stage: Stage)
  datatype Race = Race(w: World, calls: seq<Call>)
  datatype Tick = Advance(call: nat) | Vanish(server: ServerId)

  function After(cfg: Config, r: Race, t: Tick): Race {
    match t
    case Vanish(id) => r.(w := Disappear(r.w, id))
    case Advance(k) =>
      if k >= |r.calls| then r
      else
        var c := r.calls[k];
        var (w, stage) := ProvisionStep(cfg, r.w, c.req, c.outcomes, c.stage);
        Race(w, r.calls[k := c.(stage := stage)])
  }

  function Play(cfg: Config, r: Race, ticks: seq<Tick>): Race {
    if ticks == [] then r else After(cfg, Play(cfg, r, ticks[..|ticks| - 1]), ticks[|ticks| - 1])
  }

  /** Every call is about to begin. */
  predicate Ready(r: Race) {
    forall k :: 0 <= k < |r.calls| ==> r.calls[k].stage == Begin
  }

  predicate Won(c: Call) {
    c.stage.Finished? && c.stage.reply.Provisioned?
  }

  predicate Stores(rows: Rows, row: InstanceRow) {
    exists i :: i in rows.instances && rows.instances[i] == row
  }

  // ---- Records and answers -------------------------------------------------

  ghost predicate CallsOk(cfg: Config, calls: seq<Call>) {
    forall k :: 0 <= k < |calls| ==> StageFor(cfg, calls[k].req, calls[k].stage) && StageOk(calls[k].stage)
  }

  /** For each instance ID at most one call has been told that it succeeded. */
  ghost predicate OneWinner(calls: seq<Call>) {
    forall j, k :: 0 <= j < |calls| && 0 <= k < |calls| && Won(calls[j]) && Won(calls[k])
                   && calls[j].req.instanceID == calls[k].req.instanceID
      ==> j == k
  }

  /** Who has won what, against the tables the race started from. */
  ghost predicate Tally(cfg: Config, start: Rows, r: Race) {
    && (forall k :: 0 <= k < |r.calls| && Won(r.calls[k]) ==> Stores(r.w.rows, RowOf(cfg, r.calls[k].req))
                                                              && !HasRecord(start, r.calls[k].req.instanceID))
    && OneWinner(r.calls)
    && (forall i :: i in start.instances ==> i in r.w.rows.instances && r.w.rows.instances[i] == start.instances[i])
    && (forall i :: i in r.w.rows.instances && i !in start.instances ==> Claimed(cfg, r, r.w.rows.instances[i]))
  }

  /** Some call has been told that it provisioned that record. */
  ghost predicate Claimed(cfg: Config, r: Race, row: InstanceRow) {
    exists k :: 0 <= k < |r.calls| && Won(r.calls[k]) && RowOf(cfg, r.calls[k].req) == row
  }

  ghost predicate RaceOk(cfg: Config, start: Rows, r: Race) {
    WorldOk(r.w) && CallsOk(cfg, r.calls) && Tally(cfg, start, r)
  }

  /** A tick that changes no record and lets nobody win. */
  lemma QuietTally(cfg: Config, start: Rows, r: Race, r': Race)
    requires Tally(cfg, start, r) && r'.w.rows == r.w.rows && |r'.calls| == |r.calls|
    requires forall k :: 0 <= k < |r.calls| ==> r'.calls[k].req == r.calls[k].req && (Won(r'.calls[k]) <==> Won(r.calls[k]))
    ensures Tally(cfg, start, r')
  {
    forall i | i in r'.w.rows.instances && i !in start.instances
      ensures Claimed(cfg, r', r'.w.rows.instances[i])
    {
      var k :| 0 <= k < |r.calls| && Won(r.calls[k]) && RowOf(cfg, r.calls[k].req) == r.w.rows.instances[i];
      assert Won(r'.calls[k]);
    }
  }

  /** The tick in which call k wins. */
  lemma WinTally(cfg: Config, start: Rows, r: Race, r': Race, k: nat, master: UserRow)
    requires Tally(cfg, start, r) && KeysUsed(r.w.rows) && k < |r.calls| && !Won(r.calls[k])
    requires |r'.calls| == |r.calls| && r'.calls == r.calls[k := r'.calls[k]] && r'.calls[k].req == r.calls[k].req && Won(r'.calls[k])
    requires InsertInstance(r.w.rows, RowOf(cfg, r.calls[k].req), master) == Some(r'.w.rows)
    ensures Tally(cfg, start, r')
  {
    var row := RowOf(cfg, r.calls[k].req);
    assert r'.w.rows.instances[r.w.rows.nextID] == row;
    forall j | 0 <= j < |r'.calls| && Won(r'.calls[j])
      ensures Stores(r'.w.rows, RowOf(cfg, r'.calls[j].req)) && !HasRecord(start, r'.calls[j].req.instanceID)
      ensures j != k ==> r'.calls[j].req.instanceID != row.instanceID
    {
      if j != k {
        var i :| i in r.w.rows.instances && r.w.rows.instances[i] == RowOf(cfg, r.calls[j].req);
        assert r'.w.rows.instances[i] == r.w.rows.instances[i];
      }
    }
    forall i | i in r'.w.rows.instances && i !in start.instances
      ensures Claimed(cfg, r', r'.w.rows.instances[i])
    {
      if i == r.w.rows.nextID {
        assert Won(r'.calls[k]);
      } else {
        var j :| 0 <= j < |r.calls| && Won(r.calls[j]) && RowOf(cfg, r.calls[j].req) == r.w.rows.instances[i];
        assert r'.calls[j] == r.calls[j];
      }
    }
  }

  lemma AdvanceKeepsTally(cfg: Config, start: Rows, r: Race, k: nat)
    requires RaceOk(cfg, start, r) && k < |r.calls|
    ensures RaceOk(cfg, start, After(cfg, r, Advance(k)))
  {
    var c := r.calls[k];
    var r' := After(cfg, r, Advance(k));
    ProvisionStepKeeps(cfg, r.w, c.req, c.outcomes, c.stage);
    if c.stage.Finished? {
      assert r' == r;
    } else {
      ProvisionStepInstances(cfg, r.w, c.req, c.outcomes, c.stage);
      if Won(r'.calls[k]) {
        var master: UserRow :| master.kind == Master && InsertInstance(r.w.rows, RowOf(cfg, c.req), master) == Some(r'.w.rows);
        WinTally(cfg, start, r, r', k, master);
      } else {
        QuietTally(cfg, start, r, r');
      }
    }
  }

  lemma TickKeepsRace(cfg: Config, start: Rows, r: Race, t: Tick)
    requires RaceOk(cfg, start, r)
    ensures RaceOk(cfg, start, After(cfg, r, t))
  {
    match t
    case Advance(k) => if k < |r.calls| { AdvanceKeepsTally(cfg, start, r, k); }
    case Vanish(id) => QuietTally(cfg, start, r, After(cfg, r, t));
  }

  lemma {:induction false} PlayKeepsRace(cfg: Config, r: Race, ticks: seq<Tick>)
    requires WorldOk(r.w) && Ready(r)
    ensures RaceOk(cfg, r.w.rows, Play(cfg, r, ticks))
  {
    if ticks != [] {
      PlayKeepsRace(cfg, r, ticks[..|ticks| - 1]);
      TickKeepsRace(cfg, r.w.rows, Play(cfg, r, ticks[..|ticks| - 1]), ticks[|ticks| - 1]);
    }
  }

  /** However the calls interleave: every call keeps its request; there is one record for an ID at most;
      one call for an ID at most reports success, and none for an ID that was recorded before; and the
      records are those from before and exactly one for each success. */
  lemma OneWinnerOneRecord(cfg: Config, r: Race, ticks: seq<Tick>)
    requires WorldOk(r.w) && Ready(r)
    ensures var e := Play(cfg, r, ticks);
            && UniqueInstanceIDs(e.w.rows) && OneWinner(e.calls)
            && (forall k :: 0 <= k < |e.calls| && Won(e.calls[k]) ==> !HasRecord(r.w.rows, e.calls[k].req.instanceID))
            && (forall row :: Stores(e.w.rows, row) <==> Stores(r.w.rows, row) || Claimed(cfg, e, row))
  {
    PlayKeepsRace(cfg, r, ticks);
    var e := Play(cfg, r, ticks);
    forall row
      ensures Stores(e.w.rows, row) <==> Stores(r.w.rows, row) || Claimed(cfg, e, row)
    {
      if Stores(e.w.rows, row) {
        var i :| i in e.w.rows.instances && e.w.rows.instances[i] == row;
      }
      if Stores(r.w.rows, row) {
        var i :| i in r.w.rows.instances && r.w.rows.instances[i] == row;
        assert e.w.rows.instances[i] == row;
      }
    }
  }

  // ---- A losing call removes nothing ---------------------------------------

  /** Every row of the one is a row of the other. */
  ghost predicate Kept(rows: Rows, rows': Rows) {
    && (forall i :: i in rows.instances ==> i in rows'.instances && rows'.instances[i] == rows.instances[i])
    && (forall u :: u in rows.users ==> u in rows'.users && rows'.users[u] == rows.users[u])
    && rows'.bindings == rows.bindings
  }

  lemma TickKeepsRows(cfg: Config, r: Race, t: Tick)
    requires KeysUsed(r.w.rows)
    ensures Kept(r.w.rows, After(cfg, r, t).w.rows)
  {
    match t
    case Vanish(id) =>
    case Advance(k) =>
      if k < |r.calls| {
        var c := r.calls[k];
        var w' := ProvisionStep(cfg, r.w, c.req, c.outcomes, c.stage).0;
        assert w'.rows == r.w.rows || (c.stage.Built? && InsertInstance(r.w.rows, c.stage.row, c.stage.master) == Some(w'.rows));
      }
  }

  /** What is stored at some moment, in particular a winner's record and its master user, is there at every
      later moment, whatever the losers do. */
  lemma {:induction false} LosersRemoveNothing(cfg: Config, start: Rows, r: Race, ticks: seq<Tick>)
    requires RaceOk(cfg, start, r)
    ensures RaceOk(cfg, start, Play(cfg, r, ticks)) && Kept(r.w.rows, Play(cfg, r, ticks).w.rows)
  {
    if ticks != [] {
      var before := Play(cfg, r, ticks[..|ticks| - 1]);
      LosersRemoveNothing(cfg, start, r, ticks[..|ticks| - 1]);
      TickKeepsRows(cfg, before, ticks[|ticks| - 1]);
      TickKeepsRace(cfg, start, before, ticks[|ticks| - 1]);
    }
  }

  // ---- Clusters ------------------------------------------------------------

  /** The call succeeded and its cluster has that identifier. */
  predicate Wins(cfg: Config, c: Call, id: string) {
    Won(c) && IsClusterRow(cfg, RowOf(cfg, c.req), id)
  }

  predicate Owns(cfg: Config, c: Call, id: string) {
    Own(cfg, c.stage) == Some(id)
  }

  /** The call holds the cluster: it has still to be recorded or given up, or it is recorded. */
  predicate Holds(cfg: Config, c: Call, id: string) {
    Owns(cfg, c, id) || Wins(cfg, c, id)
  }

  /** A stage of a dedicated plan whose server was created: the server is up. */
  ghost predicate StageUp(cfg: Config, servers: map<ServerId, Server>, stage: Stage) {
    && (stage.ClusterUp? ==> !stage.plan.shared && IsAurora(stage.plan))
    && (stage.Built? ==> (stage.cluster <==> !stage.plan.shared && IsAurora(stage.plan)))
    && (stage.Built? && !stage.plan.shared ==> Up(servers, InstanceServer(cfg, stage.row)))
  }

  /** No cluster is held by two calls, and one that is held is up. */
  ghost predicate Held(cfg: Config, r: Race) {
    && (forall k :: 0 <= k < |r.calls| ==> StageUp(cfg, r.w.servers, r.calls[k].stage))
    && (forall k, id :: 0 <= k < |r.calls| && Holds(cfg, r.calls[k], id) ==> Up(r.w.servers, RdsCluster(id)))
    && (forall k, id :: 0 <= k < |r.calls| && Wins(cfg, r.calls[k], id) ==> Up(r.w.servers, RdsInstance(id)))
    && (forall j, k, id :: 0 <= j < |r.calls| && 0 <= k < |r.calls| && Holds(cfg, r.calls[j], id) && Holds(cfg, r.calls[k], id)
          ==> j == k)
  }

  /** A cluster created since the start and not given up is held by a call. */
  ghost predicate Accounted(cfg: Config, start: seq<Effect>, r: Race) {
    forall id :: Pending(r.w.log, id) ==> Pending(start, id) || exists k :: 0 <= k < |r.calls| && Holds(cfg, r.calls[k], id)
  }

  /** A tick of call k after which k holds what it held, or less, and all servers that are up stay so but
      for a cluster that k held and holds no more. */
  lemma LessHeld(cfg: Config, r: Race, r': Race, k: nat)
    requires Held(cfg, r) && k < |r.calls| && |r'.calls| == |r.calls|
    requires r'.calls == r.calls[k := r'.calls[k]]
    requires StageUp(cfg, r'.w.servers, r'.calls[k].stage)
    requires forall id :: Holds(cfg, r'.calls[k], id) ==> Holds(cfg, r.calls[k], id)
    requires forall id :: Wins(cfg, r'.calls[k], id) ==> Up(r'.w.servers, RdsInstance(id))
    requires forall id: ServerId :: Up(r.w.servers, id)
               ==> Up(r'.w.servers, id)
                   || (id.RdsCluster? && Holds(cfg, r.calls[k], id.identifier) && !Holds(cfg, r'.calls[k], id.identifier))
    ensures Held(cfg, r')
  {
    forall j | 0 <= j < |r'.calls|
      ensures StageUp(cfg, r'.w.servers, r'.calls[j].stage)
    {
      assert j != k ==> r'.calls[j] == r.calls[j];
    }
    forall j, id | 0 <= j < |r'.calls| && Holds(cfg, r'.calls[j], id)
      ensures Up(r'.w.servers, RdsCluster(id)) && Holds(cfg, r.calls[j], id)
    {
      assert j != k ==> r'.calls[j] == r.calls[j];
    }
    forall j, id | 0 <= j < |r'.calls| && Wins(cfg, r'.calls[j], id)
      ensures Up(r'.w.servers, RdsInstance(id))
    {
      assert j != k ==> r'.calls[j] == r.calls[j];
    }
  }

  /** The tick in which call k creates a cluster, which nobody can hold. */
  lemma OneMoreHeld(cfg: Config, r: Race, r': Race, k: nat, mine: string)
    requires Held(cfg, r) && k < |r.calls| && |r'.calls| == |r.calls|
    requires r'.calls == r.calls[k := r'.calls[k]]
    requires r'.calls[k].stage.ClusterUp? && StageUp(cfg, r'.w.servers, r'.calls[k].stage) && Owns(cfg, r'.calls[k], mine)
    requires RdsCluster(mine) !in r.w.servers && Up(r'.w.servers, RdsCluster(mine)) && StaysUp(r.w.servers, r'.w.servers)
    ensures Held(cfg, r')
  {
    forall j, id | 0 <= j < |r'.calls| && Holds(cfg, r'.calls[j], id)
      ensures Up(r'.w.servers, RdsCluster(id)) && (if j == k then id == mine else id != mine && Holds(cfg, r.calls[j], id))
    {
      assert j != k ==> r'.calls[j] == r.calls[j];
    }
    forall j | 0 <= j < |r'.calls|
      ensures StageUp(cfg, r'.w.servers, r'.calls[j].stage)
      ensures forall id :: Wins(cfg, r'.calls[j], id) ==> Up(r'.w.servers, RdsInstance(id))
    {
      assert j != k ==> r'.calls[j] == r.calls[j];
    }
  }

  /** The two kinds of tick. */
  ghost predicate CreatesCluster(cfg: Config, w: World, w': World, c: Call, c': Call, mine: string) {
    && c.stage.Checked? && c'.stage.ClusterUp? && Owns(cfg, c', mine)
    && RdsCluster(mine) !in w.servers && Up(w'.servers, RdsCluster(mine)) && StaysUp(w.servers, w'.servers)
    && w'.log == w.log + [ClusterCreated(mine)]
  }

  ghost predicate HoldsNoMore(cfg: Config, w: World, w': World, c: Call, c': Call) {
    && (forall id :: Holds(cfg, c', id) ==> Holds(cfg, c, id))
    && (forall id :: Wins(cfg, c', id) ==> Up(w'.servers, RdsInstance(id)))
    && (forall id: ServerId :: Up(w.servers, id)
          ==> Up(w'.servers, id) || (id.RdsCluster? && Holds(cfg, c, id.identifier) && !Holds(cfg, c', id.identifier)))
    && (if c.stage.Undo? then w'.log == w.log + [ClusterDeleteIssued(Identifier(cfg.dbPrefix, c.stage.row.instanceID))]
        else w'.log == w.log && forall id :: Holds(cfg, c, id) ==> Holds(cfg, c', id))
  }

  lemma CheckedTick(cfg: Config, w: World, c: Call)
    requires c.stage.Checked? && StageFor(cfg, c.req, c.stage)
    ensures var (w', next) := ProvisionStep(cfg, w, c.req, c.outcomes, c.stage);
            && StageUp(cfg, w'.servers, next)
            && (if next.ClusterUp? then
                  CreatesCluster(cfg, w, w', c, c.(stage := next), Identifier(cfg.dbPrefix, c.stage.row.instanceID))
                else HoldsNoMore(cfg, w, w', c, c.(stage := next)))
  {
    CheckedStepShape(cfg, w, c.req, c.outcomes, c.stage);
  }

  lemma ClusterUpTick(cfg: Config, w: World, c: Call)
    requires c.stage.ClusterUp? && StageFor(cfg, c.req, c.stage) && StageUp(cfg, w.servers, c.stage)
    ensures var (w', next) := ProvisionStep(cfg, w, c.req, c.outcomes, c.stage);
            StageUp(cfg, w'.servers, next) && HoldsNoMore(cfg, w, w', c, c.(stage := next))
  {
  }

  lemma BuiltTick(cfg: Config, w: World, c: Call)
    requires c.stage.Built? && StageFor(cfg, c.req, c.stage) && StageUp(cfg, w.servers, c.stage)
    ensures var (w', next) := ProvisionStep(cfg, w, c.req, c.outcomes, c.stage);
            StageUp(cfg, w'.servers, next) && HoldsNoMore(cfg, w, w', c, c.(stage := next))
  {
  }

  lemma UndoTick(cfg: Config, w: World, c: Call)
    requires c.stage.Undo? && StageFor(cfg, c.req, c.stage)
    ensures var (w', next) := ProvisionStep(cfg, w, c.req, c.outcomes, c.stage);
            StageUp(cfg, w'.servers, next) && HoldsNoMore(cfg, w, w', c, c.(stage := next))
  {
  }

  lemma BeginTick(cfg: Config, w: World, c: Call)
    requires c.stage.Begin? || c.stage.Finished?
    requires forall id :: Wins(cfg, c, id) ==> Up(w.servers, RdsInstance(id))
    ensures var (w', next) := ProvisionStep(cfg, w, c.req, c.outcomes, c.stage);
            StageUp(cfg, w'.servers, next) && HoldsNoMore(cfg, w, w', c, c.(stage := next))
  {
  }

  lemma TickHolds(cfg: Config, w: World, c: Call)
    requires StageFor(cfg, c.req, c.stage) && StageUp(cfg, w.servers, c.stage)
    requires forall id :: Wins(cfg, c, id) ==> Up(w.servers, RdsInstance(id))
    ensures var (w', next) := ProvisionStep(cfg, w, c.req, c.outcomes, c.stage);
            && StageUp(cfg, w'.servers, next)
            && (if c.stage.Checked? && next.ClusterUp? then
                  CreatesCluster(cfg, w, w', c, c.(stage := next), Identifier(cfg.dbPrefix, c.stage.row.instanceID))
                else HoldsNoMore(cfg, w, w', c, c.(stage := next)))
  {
    match c.stage
    case Checked(_, _, _) => CheckedTick(cfg, w, c);
    case ClusterUp(_, _, _) => ClusterUpTick(cfg, w, c);
    case Built(_, _, _, _) => BuiltTick(cfg, w, c);
    case Undo(_, _) => UndoTick(cfg, w, c);
    case _ => BeginTick(cfg, w, c);
  }

  lemma AdvanceKeepsHeld(cfg: Config, r: Race, k: nat)
    requires CallsOk(cfg, r.calls) && Held(cfg, r) && k < |r.calls|
    ensures Held(cfg, After(cfg, r, Advance(k)))
  {
    var c := r.calls[k];
    var r' := After(cfg, r, Advance(k));
    TickHolds(cfg, r.w, c);
    if c.stage.Checked? && r'.calls[k].stage.ClusterUp? {
      OneMoreHeld(cfg, r, r', k, Identifier(cfg.dbPrefix, c.stage.row.instanceID));
    } else {
      LessHeld(cfg, r, r', k);
    }
  }

  /** The same call holds the cluster before and after the tick. */
  lemma StillHeld(cfg: Config, r: Race, r': Race, k: nat, id: string)
    requires k < |r.calls| && |r'.calls| == |r.calls| && r'.calls == r.calls[k := r'.calls[k]]
    requires exists j :: 0 <= j < |r.calls| && Holds(cfg, r.calls[j], id)
    requires Holds(cfg, r.calls[k], id) ==> Holds(cfg, r'.calls[k], id)
    ensures exists j :: 0 <= j < |r'.calls| && Holds(cfg, r'.calls[j], id)
  {
    var j :| 0 <= j < |r.calls| && Holds(cfg, r.calls[j], id);
    assert Holds(cfg, r'.calls[j], id);
  }

  lemma AdvanceKeepsAccount(cfg: Config, start: seq<Effect>, r: Race, k: nat)
    requires CallsOk(cfg, r.calls) && Held(cfg, r) && Accounted(cfg, start, r) && k < |r.calls|
    ensures Accounted(cfg, start, After(cfg, r, Advance(k)))
  {
    var c := r.calls[k];
    var r' := After(cfg, r, Advance(k));
    TickHolds(cfg, r.w, c);
    var mine := if c.stage.Checked? || c.stage.Undo? then Identifier(cfg.dbPrefix, c.stage.row.instanceID) else "";
    forall id | Pending(r'.w.log, id) && !Pending(start, id)
      ensures exists j :: 0 <= j < |r'.calls| && Holds(cfg, r'.calls[j], id)
    {
      PendingAppend(r.w.log, ClusterCreated(mine), id);
      PendingAppend(r.w.log, ClusterDeleteIssued(mine), id);
      if Pending(r.w.log, id) {
        StillHeld(cfg, r, r', k, id);
      } else {
        assert Holds(cfg, r'.calls[k], id);
      }
    }
  }

  lemma VanishKeepsHeld(cfg: Config, start: seq<Effect>, r: Race, id: ServerId)
    requires Held(cfg, r) && Accounted(cfg, start, r)
    ensures Held(cfg, After(cfg, r, Vanish(id))) && Accounted(cfg, start, After(cfg, r, Vanish(id)))
  {
    assert StaysUp(r.w.servers, After(cfg, r, Vanish(id)).w.servers);
  }

  lemma {:induction false} PlayKeepsHeld(cfg: Config, r: Race, ticks: seq<Tick>)
    requires WorldOk(r.w) && Ready(r)
    ensures var e := Play(cfg, r, ticks); Held(cfg, e) && Accounted(cfg, r.w.log, e)
  {
    if ticks != [] {
      var before := Play(cfg, r, ticks[..|ticks| - 1]);
      PlayKeepsHeld(cfg, r, ticks[..|ticks| - 1]);
      PlayKeepsRace(cfg, r, ticks[..|ticks| - 1]);
      match ticks[|ticks| - 1]
      case Advance(k) =>
        if k < |before.calls| {
          AdvanceKeepsHeld(cfg, before, k);
          AdvanceKeepsAccount(cfg, r.w.log, before, k);
        }
      case Vanish(id) => VanishKeepsHeld(cfg, r.w.log, before, id);
    }
  }

  /** However the calls interleave and whichever fail: a winner's cluster and RDS instance are up, since no
      loser's clean-up ever touches them; and once all calls have ended, every cluster that the race
      created is a winner's, with its record, or has had a deletion issued. */
  lemma WinnersKeepTheirClusters(cfg: Config, r: Race, ticks: seq<Tick>)
    requires WorldOk(r.w) && Ready(r)
    ensures var e := Play(cfg, r, ticks);
            && (forall k, id :: 0 <= k < |e.calls| && Wins(cfg, e.calls[k], id)
                  ==> Up(e.w.servers, RdsCluster(id)) && Up(e.w.servers, RdsInstance(id)) && Referenced(cfg, e.w.rows, id))
            && ((forall k :: 0 <= k < |e.calls| ==> e.calls[k].stage.Finished?)
                ==> forall id :: Pending(e.w.log, id) ==> Pending(r.w.log, id) || Referenced(cfg, e.w.rows, id))
  {
    var e := Play(cfg, r, ticks);
    PlayKeepsRace(cfg, r, ticks);
    PlayKeepsHeld(cfg, r, ticks);
    forall k, id | 0 <= k < |e.calls| && Wins(cfg, e.calls[k], id)
      ensures Up(e.w.servers, RdsCluster(id)) && Up(e.w.servers, RdsInstance(id)) && Referenced(cfg, e.w.rows, id)
    {
      assert Holds(cfg, e.calls[k], id);
      assert Stores(e.w.rows, RowOf(cfg, e.calls[k].req));
    }
    if forall k :: 0 <= k < |e.calls| ==> e.calls[k].stage.Finished? {
      forall id | Pending(e.w.log, id) && !Pending(r.w.log, id)
        ensures Referenced(cfg, e.w.rows, id)
      {
        var k :| 0 <= k < |e.calls| && Holds(cfg, e.calls[k], id);
        assert Wins(cfg, e.calls[k], id);
      }
    }
  }

  // ---- The sequential call is one of the interleavings ---------------------

  /** `n` ticks of call k. */
  function Only(k: nat, n: nat): seq<Tick> {
    if n == 0 then [] else Only(k, n - 1) + [Advance(k)]
  }

  lemma PlayAppend(cfg: Config, r: Race, ticks: seq<Tick>, t: Tick)
    ensures Play(cfg, r, ticks + [t]) == After(cfg, Play(cfg, r, ticks), t)
  {
    assert (ticks + [t])[..|ticks|] == ticks;
  }

  /** Of the calls only k has moved on, at least n stages or to its end, and what remains of it is the
      rest of the uninterrupted call. */
  ghost predicate OnlyMoved(cfg: Config, r: Race, e: Race, k: nat, n: nat)
    requires k < |r.calls|
  {
    && |e.calls| == |r.calls|
    && e.calls == r.calls[k := r.calls[k].(stage := e.calls[k].stage)]
    && (StepsLeft(e.calls[k].stage) + n <= StepsLeft(r.calls[k].stage) || e.calls[k].stage.Finished?)
    && var c := r.calls[k];
       ProvisionFrom(cfg, e.w, c.req, c.outcomes, e.calls[k].stage) == ProvisionFrom(cfg, r.w, c.req, c.outcomes, c.stage)
  }

  lemma MovesOn(cfg: Config, r: Race, e: Race, k: nat, n: nat)
    requires k < |r.calls| && OnlyMoved(cfg, r, e, k, n)
    ensures OnlyMoved(cfg, r, After(cfg, e, Advance(k)), k, n + 1)
  {
    var c := e.calls[k];
    ProvisionUnfold(cfg, e.w, c.req, c.outcomes, c.stage);
    StepsGoDown(cfg, e.w, c.req, c.outcomes, c.stage);
  }

  lemma StepsGoDown(cfg: Config, w: World, req: ProvisionRequest, o: ProvisionCalls, stage: Stage)
    ensures !stage.Finished? ==> StepsLeft(ProvisionStep(cfg, w, req, o, stage).1) < StepsLeft(stage)
    ensures stage.Finished? ==> ProvisionStep(cfg, w, req, o, stage) == (w, stage)
  {
  }

  lemma {:induction false} OnlyOneAdvances(cfg: Config, r: Race, k: nat, n: nat)
    requires k < |r.calls|
    ensures OnlyMoved(cfg, r, Play(cfg, r, Only(k, n)), k, n)
  {
    if n > 0 {
      OnlyOneAdvances(cfg, r, k, n - 1);
      MovesOn(cfg, r, Play(cfg, r, Only(k, n - 1)), k, n - 1);
      PlayAppend(cfg, r, Only(k, n - 1), Advance(k));
    }
  }

  /** A call that nothing interrupts does in five ticks what `Provision` does. */
  lemma UninterruptedIsProvision(cfg: Config, r: Race, k: nat)
    requires k < |r.calls| && r.calls[k].stage == Begin
    ensures var (c, e) := (r.calls[k], Play(cfg, r, Only(k, 5)));
            var (w, reply) := Provision(cfg, r.w, c.req, c.outcomes);
            e == Race(w, r.calls[k := c.(stage := Finished(reply))])
  {
    OnlyOneAdvances(cfg, r, k, 5);
    var e := Play(cfg, r, Only(k, 5));
    ProvisionUnfold(cfg, e.w, r.calls[k].req, r.calls[k].outcomes, e.calls[k].stage);
  }
}
