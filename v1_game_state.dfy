/** The v1 adapter: per-player bookkeeping over the estimated cars of the
    wrapped game state, exposed in the v1 schema. */
module V1State {
  import opened Common
  import opened Packet
  import opened CarModel
  import opened V1Player

  /** What the adapter reads from the wrapped game state once that state
      has consumed the packet: its cars in dictionary order, the pad
      timers and the ball. */
  datatype V2View = V2View(
    order: seq<int>,
    cars: map<int, CarData>,
    padTimers: seq<real>,
    invertedPadTimers: seq<real>,
    ball: Physics,
    invertedBall: Physics)

  /** The cars' dictionary order lists each tracked car once, and every
      car is on one of the two teams. */
  predicate WellFormedView(v: V2View)
  {
    && (forall i, j :: 0 <= i < j < |v.order| ==> v.order[i] != v.order[j])
    && (forall i :: 0 <= i < |v.order| ==> v.order[i] in v.cars)
    && (forall i :: 0 <= i < |v.order| ==> v.cars[v.order[i]].teamNum in {BLUE_TEAM, ORANGE_TEAM})
  }

  // ---------------------------------------------------------------------
  // Spectator ids

  /** Number of cars of `team` among `order`. */
  function CountTeam(order: seq<int>, cars: map<int, CarData>, team: int): nat
    requires forall i :: 0 <= i < |order| ==> order[i] in cars
  {
    if |order| == 0 then 0
    else CountTeam(order[..|order| - 1], cars, team) + (if cars[order[|order| - 1]].teamNum == team then 1 else 0)
  }

  /** The spectator id of the car at position `k`: blue cars count up
      from 1, orange cars from 5 or from after the last blue id. */
  function SpectatorId(v: V2View, k: int): int
    requires WellFormedView(v) && 0 <= k < |v.order|
  {
    if v.cars[v.order[k]].teamNum == BLUE_TEAM then 1 + CountTeam(v.order[..k], v.cars, BLUE_TEAM)
    else MaxInt(5, 1 + CountTeam(v.order, v.cars, BLUE_TEAM)) + CountTeam(v.order[..k], v.cars, ORANGE_TEAM)
  }

  /** Position of `pid` in the dictionary order. */
  function IndexOf(order: seq<int>, pid: int): (k: nat)
    requires pid in order
    ensures k < |order| && order[k] == pid
    ensures forall j :: 0 <= j < k ==> order[j] != pid
  {
    if order[0] == pid then 0 else 1 + IndexOf(order[1..], pid)
  }

  lemma CountTeamStep(order: seq<int>, cars: map<int, CarData>, team: int, i: nat)
    requires forall j :: 0 <= j < |order| ==> order[j] in cars
    requires i < |order|
    ensures CountTeam(order[..i + 1], cars, team) == CountTeam(order[..i], cars, team) + (if cars[order[i]].teamNum == team then 1 else 0)
  {
    assert order[..i + 1][..i] == order[..i];
  }

  /** A car of `team` earlier in the order has a smaller rank than any
      later position. */
  lemma {:induction false} CountTeamRankBelow(order: seq<int>, cars: map<int, CarData>, team: int, i: nat, j: nat)
    requires forall k :: 0 <= k < |order| ==> order[k] in cars
    requires i < j <= |order| && cars[order[i]].teamNum == team
    ensures CountTeam(order[..i], cars, team) < CountTeam(order[..j], cars, team)
    decreases j
  {
    CountTeamStep(order, cars, team, j - 1);
    if i < j - 1 {
      CountTeamRankBelow(order, cars, team, i, j - 1);
    }
  }

  /** Spectator ids are distinct: blue ids lie in 1..nBlue, orange ids
      start above them, and within a team the ranks differ. */
  lemma SpectatorIdsDistinct(v: V2View, i: nat, j: nat)
    requires WellFormedView(v) && i < |v.order| && j < |v.order| && i != j
    ensures SpectatorId(v, i) != SpectatorId(v, j)
    ensures v.cars[v.order[i]].teamNum == BLUE_TEAM ==> 1 <= SpectatorId(v, i) <= CountTeam(v.order, v.cars, BLUE_TEAM)
    ensures v.cars[v.order[i]].teamNum == ORANGE_TEAM ==> SpectatorId(v, i) >= MaxInt(5, 1 + CountTeam(v.order, v.cars, BLUE_TEAM))
  {
    var n := |v.order|;
    assert v.order[..n] == v.order;
    if v.cars[v.order[i]].teamNum == BLUE_TEAM {
      CountTeamRankBelow(v.order, v.cars, BLUE_TEAM, i, n);
    }
    if v.cars[v.order[j]].teamNum == BLUE_TEAM {
      CountTeamRankBelow(v.order, v.cars, BLUE_TEAM, j, n);
    }
    var ti, tj := v.cars[v.order[i]].teamNum, v.cars[v.order[j]].teamNum;
    if ti == tj {
      if i < j {
        CountTeamRankBelow(v.order, v.cars, ti, i, j);
      } else {
        CountTeamRankBelow(v.order, v.cars, ti, j, i);
      }
    }
  }

  /** `ids` after the cars of `team` among `order` are given consecutive
      ids from `first`, in order. */
  function Numbered(ids: map<int, int>, order: seq<int>, cars: map<int, CarData>, team: int, first: int): map<int, int>
    requires forall k :: 0 <= k < |order| ==> order[k] in cars
  {
    if |order| == 0 then ids
    else
      var n := |order| - 1;
      var before := Numbered(ids, order[..n], cars, team, first);
      if cars[order[n]].teamNum == team then before[order[n] := first + CountTeam(order[..n], cars, team)]
      else before
  }

  /** Numbering adds the cars of `team` and nothing else. */
  lemma {:induction false} NumberedDomain(ids: map<int, int>, order: seq<int>, cars: map<int, CarData>, team: int, first: int)
    requires forall k :: 0 <= k < |order| ==> order[k] in cars
    ensures var r := Numbered(ids, order, cars, team, first);
      && (forall pid :: pid in r ==> pid in ids || (pid in cars && cars[pid].teamNum == team))
      && (forall k :: 0 <= k < |order| && cars[order[k]].teamNum == team ==> order[k] in r)
      && ids.Keys <= r.Keys
  {
    if |order| > 0 {
      var n := |order| - 1;
      NumberedDomain(ids, order[..n], cars, team, first);
      forall k | 0 <= k < n ensures order[..n][k] == order[k] { }
    }
  }

  /** An entry for a car outside `team` is kept. */
  lemma {:induction false} NumberedKeeps(ids: map<int, int>, order: seq<int>, cars: map<int, CarData>, team: int, first: int, pid: int)
    requires forall k :: 0 <= k < |order| ==> order[k] in cars
    requires pid in ids && !(pid in cars && cars[pid].teamNum == team)
    ensures var r := Numbered(ids, order, cars, team, first);
      pid in r && r[pid] == ids[pid]
  {
    if |order| > 0 {
      NumberedKeeps(ids, order[..|order| - 1], cars, team, first, pid);
    }
  }

  /** With each car listed once, the car at position `k`, of `team`, gets
      its rank among the earlier cars of `team`, counted from `first`. */
  lemma {:induction false} NumberedRank(ids: map<int, int>, order: seq<int>, cars: map<int, CarData>, team: int, first: int, k: nat)
    requires forall j :: 0 <= j < |order| ==> order[j] in cars
    requires forall i, j :: 0 <= i < j < |order| ==> order[i] != order[j]
    requires k < |order| && cars[order[k]].teamNum == team
    ensures var r := Numbered(ids, order, cars, team, first);
      order[k] in r && r[order[k]] == first + CountTeam(order[..k], cars, team)
  {
    var n := |order| - 1;
    if k < n {
      var prefix := order[..n];
      assert prefix[k] == order[k] && prefix[..k] == order[..k] && order[k] != order[n];
      NumberedRank(ids, prefix, cars, team, first, k);
    }
  }

  /** One numbering loop: the cars of `team`, in dictionary order, get
      consecutive ids from `first`. */
  method NumberTeam(v: V2View, team: int, ids: map<int, int>, first: int) returns (ids': map<int, int>, next: int)
    requires WellFormedView(v)
    ensures ids' == Numbered(ids, v.order, v.cars, team, first)
    ensures next == first + CountTeam(v.order, v.cars, team)
  {
    ids' := ids;
    next := first;
    var i := 0;
    while i < |v.order|
      invariant 0 <= i <= |v.order|
      invariant next == first + CountTeam(v.order[..i], v.cars, team)
      invariant ids' == Numbered(ids, v.order[..i], v.cars, team, first)
    {
      CountTeamStep(v.order, v.cars, team, i);
      assert v.order[..i + 1][..i] == v.order[..i];
      var pid := v.order[i];
      if v.cars[pid].teamNum == team {
        ids' := ids'[pid := next];
        next := next + 1;
      }
      i := i + 1;
    }
    assert v.order[..i] == v.order;
  }

  /** The two loops that number the blue, then the orange cars. */
  method SpectatorIds(v: V2View) returns (ids: map<int, int>)
    requires WellFormedView(v)
    ensures ids.Keys <= v.cars.Keys
    ensures forall k :: 0 <= k < |v.order| ==> v.order[k] in ids && ids[v.order[k]] == SpectatorId(v, k)
  {
    var none: map<int, int> := map[];
    var blueIds, blueNext := NumberTeam(v, BLUE_TEAM, none, 1);
    NumberedDomain(none, v.order, v.cars, BLUE_TEAM, 1);
    var orangeNext;
    ids, orangeNext := NumberTeam(v, ORANGE_TEAM, blueIds, MaxInt(5, blueNext));
    NumberedDomain(blueIds, v.order, v.cars, ORANGE_TEAM, MaxInt(5, blueNext));
    forall pid | pid in ids ensures pid in v.cars {
      if pid in blueIds {
        assert pid !in none;
      }
    }
    forall k | 0 <= k < |v.order|
      ensures v.order[k] in ids && ids[v.order[k]] == SpectatorId(v, k)
    {
      if v.cars[v.order[k]].teamNum == BLUE_TEAM {
        NumberedRank(none, v.order, v.cars, BLUE_TEAM, 1, k);
        NumberedKeeps(blueIds, v.order, v.cars, ORANGE_TEAM, MaxInt(5, blueNext), v.order[k]);
      } else {
        NumberedRank(blueIds, v.order, v.cars, ORANGE_TEAM, MaxInt(5, blueNext), k);
      }
    }
  }

  // ---------------------------------------------------------------------
  // Latest touch

  /** The sort key of the latest-touch search: -1 for a player without a
      touch, else the touch's game time. */
  function TouchKey(info: PlayerInfo): real
  {
    if info.latestTouch.None? then -1.0 else info.latestTouch.value.gameSeconds
  }

  /** `k` is where Python's `max` stops: the first position of a maximal key. */
  predicate IsLatestTouchIndex(players: seq<PlayerInfo>, k: int)
  {
    && 0 <= k < |players|
    && (forall j :: 0 <= j < |players| ==> TouchKey(players[j]) <= TouchKey(players[k]))
    && (forall j :: 0 <= j < k ==> TouchKey(players[j]) < TouchKey(players[k]))
  }

  /** The last-touch index the adapter reports for a maximal position. */
  function LastTouchOf(players: seq<PlayerInfo>, k: int): int
    requires 0 <= k < |players|
  {
    if players[k].latestTouch.None? then -1 else k
  }

  /** The search over the players, keeping the first maximal key. */
  method LatestTouchIndex(players: seq<PlayerInfo>) returns (k: nat)
    requires |players| > 0
    ensures IsLatestTouchIndex(players, k)
  {
    k := 0;
    var i := 1;
    while i < |players|
      invariant 1 <= i <= |players| && k < i
      invariant forall j :: 0 <= j < i ==> TouchKey(players[j]) <= TouchKey(players[k])
      invariant forall j :: 0 <= j < k ==> TouchKey(players[j]) < TouchKey(players[k])
    {
      if TouchKey(players[i]) > TouchKey(players[k]) {
        k := i;
      }
      i := i + 1;
    }
  }

  /** With real (non-negative) touch times, the reported last touch is -1
      exactly when nobody has touched the ball, and otherwise a player
      whose touch is the latest. */
  lemma LastTouchMeaning(players: seq<PlayerInfo>, k: int)
    requires IsLatestTouchIndex(players, k)
    requires forall j :: 0 <= j < |players| && players[j].latestTouch.Some? ==> players[j].latestTouch.value.gameSeconds >= 0.0
    ensures LastTouchOf(players, k) == -1 <==> forall j :: 0 <= j < |players| ==> players[j].latestTouch.None?
    ensures LastTouchOf(players, k) != -1 ==>
      && players[k].latestTouch.Some?
      && forall j :: 0 <= j < |players| && players[j].latestTouch.Some? ==>
           players[j].latestTouch.value.gameSeconds <= players[k].latestTouch.value.gameSeconds
  {
    if players[k].latestTouch.None? {
      forall j | 0 <= j < |players|
        ensures players[j].latestTouch.None?
      {
        assert TouchKey(players[j]) <= -1.0;
      }
    }
  }

  // ---------------------------------------------------------------------
  // Boost pickups and ball touches

  /** The boost of the last packet entry with id `pid`, in [0, 1] units. */
  function PacketBoost(players: seq<PlayerInfo>, pid: int): real
  {
    if |players| == 0 then 0.0
    else if players[|players| - 1].playerId == pid then players[|players| - 1].boost / 100.0
    else PacketBoost(players[..|players| - 1], pid)
  }

  /** The boost each player had before this packet: the tracked car's
      where there is one, else the packet's own. */
  function OldBoost(players: seq<PlayerInfo>, tracked: map<int, real>, pid: int): real
  {
    if pid in tracked then tracked[pid] else PacketBoost(players, pid)
  }

  /** The per-player counters the adapter keeps across packets. */
  datatype Counters = Counters(pickups: map<int, int>, touched: map<int, bool>)

  /** Everything one update needs to judge a player's touch and pickup. */
  datatype Frame = Frame(phase: MatchPhase, secondsElapsed: real, tickSkip: int,
                         players: seq<PlayerInfo>, tracked: map<int, real>)

  /** A touch younger than `tickSkip` ticks. */
  predicate RecentTouch(f: Frame, info: PlayerInfo)
  {
    info.latestTouch.Some? && Round(SecondsToTicks(f.secondsElapsed - info.latestTouch.value.gameSeconds)) < f.tickSkip
  }

  /** During play, a boost amount above the old one counts as a pickup. */
  predicate PickedUp(f: Frame, info: PlayerInfo)
  {
    f.phase in {Active, Kickoff} && OldBoost(f.players, f.tracked, info.playerId) < info.boost / 100.0
  }

  /** The counters after one player of the packet. */
  function CountPlayer(c: Counters, f: Frame, info: PlayerInfo): Counters
  {
    var pid := info.playerId;
    var pickups := if pid in c.pickups then c.pickups[pid] else 0;
    var touched := if pid in c.touched then c.touched[pid] else false;
    Counters(c.pickups[pid := if PickedUp(f, info) then pickups + 1 else pickups],
             c.touched[pid := touched || RecentTouch(f, info)])
  }

  /** The counters after the given players, in order. */
  function CountAll(c: Counters, f: Frame, players: seq<PlayerInfo>): Counters
  {
    if |players| == 0 then c
    else CountPlayer(CountAll(c, f, players[..|players| - 1]), f, players[|players| - 1])
  }

  lemma CountAllStep(c: Counters, f: Frame, players: seq<PlayerInfo>, i: nat)
    requires i < |players|
    ensures CountAll(c, f, players[..i + 1]) == CountPlayer(CountAll(c, f, players[..i]), f, players[i])
  {
    assert players[..i + 1][..i] == players[..i];
  }

  /** The players' ids are pairwise distinct. */
  predicate DistinctPlayerIds(players: seq<PlayerInfo>)
  {
    forall i, j :: 0 <= i < j < |players| ==> players[i].playerId != players[j].playerId
  }

  /** Counters are never lost: every known player stays known, every
      player of the packet becomes known, a player's touch flag is never
      reset, and its pickup count never decreases. */
  lemma {:induction false} CountersGrow(c: Counters, f: Frame, players: seq<PlayerInfo>)
    ensures var r := CountAll(c, f, players);
      && c.pickups.Keys <= r.pickups.Keys && c.touched.Keys <= r.touched.Keys
      && (forall i :: 0 <= i < |players| ==> players[i].playerId in r.pickups && players[i].playerId in r.touched)
      && (forall pid :: pid in c.touched && c.touched[pid] ==> r.touched[pid])
      && (forall pid :: pid in c.pickups ==> c.pickups[pid] <= r.pickups[pid])
    decreases |players|
  {
    if |players| > 0 {
      var prefix := players[..|players| - 1];
      CountersGrow(c, f, prefix);
      forall i | 0 <= i < |players| - 1
        ensures players[i].playerId in CountAll(c, f, prefix).pickups
      {
        assert players[i] == prefix[i];
      }
    }
  }

  /** A player whose touch is recent is marked as touching, and stays so. */
  lemma {:induction false} RecentTouchMarked(c: Counters, f: Frame, players: seq<PlayerInfo>, i: nat)
    requires i < |players| && RecentTouch(f, players[i])
    ensures var r := CountAll(c, f, players);
      players[i].playerId in r.touched && r.touched[players[i].playerId]
    decreases |players|
  {
    var prefix := players[..|players| - 1];
    if i < |players| - 1 {
      assert players[i] == prefix[i];
      RecentTouchMarked(c, f, prefix, i);
      CountersGrow(CountAll(c, f, prefix), f, [players[|players| - 1]]);
      assert CountAll(CountAll(c, f, prefix), f, [players[|players| - 1]]) == CountAll(c, f, players) by {
        assert [players[|players| - 1]][..0] == [];
      }
    }
  }

  /** A touch flag is set only by a recent touch: a player marked as
      touching after the update was already marked before, or has a recent
      touch in the packet. */
  lemma {:induction false} TouchedOnlyByRecentTouch(c: Counters, f: Frame, players: seq<PlayerInfo>, pid: int)
    ensures var r := CountAll(c, f, players);
      pid in r.touched && r.touched[pid] ==>
        (pid in c.touched && c.touched[pid])
        || exists i :: 0 <= i < |players| && players[i].playerId == pid && RecentTouch(f, players[i])
    decreases |players|
  {
    if |players| > 0 {
      var n := |players| - 1;
      var prefix := players[..n];
      TouchedOnlyByRecentTouch(c, f, prefix, pid);
      var before := CountAll(c, f, prefix);
      if pid in before.touched && before.touched[pid] && !(pid in c.touched && c.touched[pid]) {
        var i :| 0 <= i < |prefix| && prefix[i].playerId == pid && RecentTouch(f, prefix[i]);
        assert players[i] == prefix[i];
      }
    }
  }

  /** With distinct ids, one update adds at most one pickup to a player,
      and adds one exactly when, during play, its boost rose above the old
      amount; players not in the packet keep their counters. */
  lemma {:induction false} PickupsPerUpdate(c: Counters, f: Frame, players: seq<PlayerInfo>, pid: int)
    requires DistinctPlayerIds(players)
    ensures var r := CountAll(c, f, players);
      var before := if pid in c.pickups then c.pickups[pid] else 0;
      && (forall i :: 0 <= i < |players| && players[i].playerId == pid ==>
            pid in r.pickups && r.pickups[pid] == (if PickedUp(f, players[i]) then before + 1 else before))
      && ((forall i :: 0 <= i < |players| ==> players[i].playerId != pid) ==>
            (pid in r.pickups <==> pid in c.pickups) && (pid in c.pickups ==> r.pickups[pid] == c.pickups[pid]))
    decreases |players|
  {
    if |players| > 0 {
      var prefix := players[..|players| - 1];
      assert DistinctPlayerIds(prefix) by {
        forall a, b | 0 <= a < b < |prefix| ensures prefix[a].playerId != prefix[b].playerId {
          assert prefix[a] == players[a] && prefix[b] == players[b];
        }
      }
      PickupsPerUpdate(c, f, prefix, pid);
      forall i | 0 <= i < |players| - 1
        ensures players[i] == prefix[i]
      {
      }
    }
  }

  // ---------------------------------------------------------------------
  // Sorting and pads

  predicate SortedByCarId(ps: seq<PlayerData>)
  {
    forall i, j :: 0 <= i < j < |ps| ==> ps[i].carId <= ps[j].carId
  }

  /** Inserts `p` after every record whose car id is not larger. */
  function InsertByCarId(sorted: seq<PlayerData>, p: PlayerData): seq<PlayerData>
  {
    if |sorted| == 0 then [p]
    else if p.carId < sorted[0].carId then [p] + sorted
    else [sorted[0]] + InsertByCarId(sorted[1..], p)
  }

  /** A record no larger than the head of a sorted list keeps it sorted. */
  lemma SortedCons(x: PlayerData, rest: seq<PlayerData>)
    requires SortedByCarId(rest)
    requires |rest| > 0 ==> x.carId <= rest[0].carId
    ensures SortedByCarId([x] + rest)
  {
    var r := [x] + rest;
    forall i, j | 0 <= i < j < |r| ensures r[i].carId <= r[j].carId {
      if i == 0 {
        assert r[j] == rest[j - 1];
      } else {
        assert r[i] == rest[i - 1] && r[j] == rest[j - 1];
      }
    }
  }

  /** Insertion keeps the records sorted; the new head is `p` or the old one. */
  lemma {:induction false} InsertByCarIdSorted(sorted: seq<PlayerData>, p: PlayerData)
    requires SortedByCarId(sorted)
    ensures SortedByCarId(InsertByCarId(sorted, p))
    ensures InsertByCarId(sorted, p)[0] == p || (|sorted| > 0 && InsertByCarId(sorted, p)[0] == sorted[0])
  {
    if |sorted| == 0 {
    } else if p.carId < sorted[0].carId {
      SortedCons(p, sorted);
    } else {
      InsertByCarIdSorted(sorted[1..], p);
      SortedCons(sorted[0], InsertByCarId(sorted[1..], p));
    }
  }

  /** Insertion adds exactly `p`. */
  lemma {:induction false} InsertByCarIdPermutes(sorted: seq<PlayerData>, p: PlayerData)
    ensures multiset(InsertByCarId(sorted, p)) == multiset(sorted) + multiset{p}
  {
    if |sorted| > 0 && p.carId >= sorted[0].carId {
      InsertByCarIdPermutes(sorted[1..], p);
      assert sorted == [sorted[0]] + sorted[1..];
    }
  }

  /** `players.sort(key=car_id)`: sorted by car id, same records. */
  method SortByCarId(players: seq<PlayerData>) returns (sorted: seq<PlayerData>)
    ensures SortedByCarId(sorted)
    ensures multiset(sorted) == multiset(players)
  {
    sorted := [];
    var i := 0;
    while i < |players|
      invariant 0 <= i <= |players|
      invariant SortedByCarId(sorted)
      invariant multiset(sorted) == multiset(players[..i])
    {
      InsertByCarIdSorted(sorted, players[i]);
      InsertByCarIdPermutes(sorted, players[i]);
      sorted := InsertByCarId(sorted, players[i]);
      assert players[..i + 1] == players[..i] + [players[i]];
      i := i + 1;
    }
    assert players[..i] == players;
  }

  /** The final player list: the records as built, or sorted by car id
      when asked to (the same records in any case). */
  predicate Arranged(players: seq<PlayerData>, built: seq<PlayerData>, sort: bool)
  {
    && (!sort ==> players == built)
    && (sort ==> SortedByCarId(players) && multiset(players) == multiset(built))
  }

  method Arrange(built: seq<PlayerData>, sort: bool) returns (players: seq<PlayerData>)
    ensures Arranged(players, built, sort)
  {
    if sort {
      players := SortByCarId(built);
    } else {
      players := built;
    }
  }

  /** Pad flags in the v1 encoding: 1 for an available pad (timer at 0),
      0 otherwise. */
  function PadFlags(timers: seq<real>): (flags: seq<real>)
    ensures |flags| == |timers|
    ensures forall i :: 0 <= i < |timers| ==> (flags[i] == 1.0 <==> timers[i] == 0.0)
    ensures forall i :: 0 <= i < |timers| ==> (flags[i] == 0.0 <==> timers[i] != 0.0)
  {
    seq(|timers|, i requires 0 <= i < |timers| => if timers[i] == 0.0 then 1.0 else 0.0)
  }

  // ---------------------------------------------------------------------
  // The adapter

  /** How a v1 record is built for a player and refreshed from its car
      (`create_base` followed by `update_from_v2`): sample, car, spectator
      id, pickup count, touch flag. Its body is not part of this model. */
  type Refresh = (PlayerInfo, CarData, int, int, bool) -> PlayerData

  /** Every packet player is a tracked car, and has counters. */
  predicate Covered(players: seq<PlayerInfo>, v: V2View, c: Counters)
  {
    forall i :: 0 <= i < |players| ==>
      && players[i].playerId in v.order
      && players[i].playerId in c.pickups && players[i].playerId in c.touched
  }

  /** The record of one packet player, refreshed from its car with its
      spectator id and counters. */
  function RefreshOne(info: PlayerInfo, v: V2View, c: Counters, refresh: Refresh): PlayerData
    requires WellFormedView(v) && info.playerId in v.order
    requires info.playerId in c.pickups && info.playerId in c.touched
  {
    var pid := info.playerId;
    refresh(info, v.cars[pid], SpectatorId(v, IndexOf(v.order, pid)), c.pickups[pid], c.touched[pid])
  }

  /** The refreshed records, in packet order, before any sorting. */
  function Refreshed(players: seq<PlayerInfo>, v: V2View, c: Counters, refresh: Refresh): (r: seq<PlayerData>)
    requires WellFormedView(v) && Covered(players, v, c)
    ensures |r| == |players|
  {
    if |players| == 0 then []
    else
      var n := |players| - 1;
      assert Covered(players[..n], v, c) by {
        forall i | 0 <= i < n ensures players[..n][i] == players[i] { }
      }
      Refreshed(players[..n], v, c, refresh) + [RefreshOne(players[n], v, c, refresh)]
  }

  /** The record at position `i` is the refresh of packet player `i`, with
      its own car, spectator id and counters. */
  lemma {:induction false} RefreshedAt(players: seq<PlayerInfo>, v: V2View, c: Counters, refresh: Refresh, i: nat)
    requires WellFormedView(v) && Covered(players, v, c) && i < |players|
    ensures var pid := players[i].playerId;
      Refreshed(players, v, c, refresh)[i]
        == refresh(players[i], v.cars[pid], SpectatorId(v, IndexOf(v.order, pid)), c.pickups[pid], c.touched[pid])
    decreases |players|
  {
    var n := |players| - 1;
    if i < n {
      assert Covered(players[..n], v, c) by {
        forall j | 0 <= j < n ensures players[..n][j] == players[j] { }
      }
      RefreshedAt(players[..n], v, c, refresh, i);
      assert players[..n][i] == players[i];
    }
  }

  /** The loop over the players that refreshes each record from its car
      with its spectator id and counters. */
  method BuildRecords(packetPlayers: seq<PlayerInfo>, v: V2View, c: Counters, refresh: Refresh)
    returns (built: seq<PlayerData>)
    requires WellFormedView(v) && Covered(packetPlayers, v, c)
    ensures built == Refreshed(packetPlayers, v, c, refresh)
  {
    var ids := SpectatorIds(v);
    built := [];
    var i := 0;
    while i < |packetPlayers|
      invariant 0 <= i <= |packetPlayers|
      invariant built == Refreshed(packetPlayers[..i], v, c, refresh)
    {
      var pid := packetPlayers[i].playerId;
      ghost var k := IndexOf(v.order, pid);
      assert ids[pid] == SpectatorId(v, k);
      assert packetPlayers[..i + 1][..i] == packetPlayers[..i];
      built := built + [refresh(packetPlayers[i], v.cars[pid], ids[pid], c.pickups[pid], c.touched[pid])];
      i := i + 1;
    }
    assert packetPlayers[..i] == packetPlayers;
  }

  class V1GameState {
    var blueScore: int
    var orangeScore: int
    var lastTouch: int
    var players: seq<PlayerData>
    var ball: Option<Physics>
    var invertedBall: Option<Physics>
    var boostPads: Option<seq<real>>
    var invertedBoostPads: Option<seq<real>>
    var sortPlayersByCarId: bool
    var boostPickups: map<int, int>
    var carBallTouched: map<int, bool>
    var tickSkip: int

    constructor(tickSkip: int, sortPlayersByCarId: bool)
      ensures this.tickSkip == tickSkip && this.sortPlayersByCarId == sortPlayersByCarId
      ensures blueScore == 0 && orangeScore == 0 && lastTouch == -1 && players == []
      ensures ball.None? && invertedBall.None? && boostPads.None? && invertedBoostPads.None?
      ensures boostPickups == map[] && carBallTouched == map[]
    {
      this.tickSkip := tickSkip;
      this.sortPlayersByCarId := sortPlayersByCarId;
      blueScore := 0;
      orangeScore := 0;
      lastTouch := -1;
      players := [];
      ball := None;
      invertedBall := None;
      boostPads := None;
      invertedBoostPads := None;
      boostPickups := map[];
      carBallTouched := map[];
    }

    /** Updates the pickup and touch counters from every packet player. */
    method CountPlayers(f: Frame)
      modifies this`boostPickups, this`carBallTouched
      ensures Counters(boostPickups, carBallTouched)
        == CountAll(Counters(old(boostPickups), old(carBallTouched)), f, f.players)
      ensures forall i :: 0 <= i < |f.players| ==> f.players[i].playerId in boostPickups && f.players[i].playerId in carBallTouched
    {
      ghost var c0 := Counters(boostPickups, carBallTouched);
      var i := 0;
      while i < |f.players|
        invariant 0 <= i <= |f.players|
        invariant Counters(boostPickups, carBallTouched) == CountAll(c0, f, f.players[..i])
      {
        var info := f.players[i];
        var pid := info.playerId;
        ghost var before := Counters(boostPickups, carBallTouched);
        var pickups := if pid in boostPickups then boostPickups[pid] else 0;
        var touched := if pid in carBallTouched then carBallTouched[pid] else false;
        if info.latestTouch.Some? {
          var ticksSinceTouch := Round(SecondsToTicks(f.secondsElapsed - info.latestTouch.value.gameSeconds));
          if ticksSinceTouch < f.tickSkip {
            touched := true;
          }
        }
        if f.phase in {Active, Kickoff} && OldBoost(f.players, f.tracked, pid) < info.boost / 100.0 {
          pickups := pickups + 1;
        }
        boostPickups := boostPickups[pid := pickups];
        carBallTouched := carBallTouched[pid := touched];
        assert Counters(boostPickups, carBallTouched) == CountPlayer(before, f, info);
        CountAllStep(c0, f, f.players, i);
        i := i + 1;
      }
      assert f.players[..i] == f.players;
      CountersGrow(c0, f, f.players);
    }

    /** Refreshes every record from its car, numbers the spectators,
      sorts if asked, and copies the ball and pads. */
    method RecalculateFields(packetPlayers: seq<PlayerInfo>, v: V2View, refresh: Refresh)
      requires WellFormedView(v) && Covered(packetPlayers, v, Counters(boostPickups, carBallTouched))
      modifies this`players, this`ball, this`invertedBall, this`boostPads, this`invertedBoostPads
      ensures Arranged(players, Refreshed(packetPlayers, v, Counters(boostPickups, carBallTouched), refresh), sortPlayersByCarId)
      ensures ball == Some(v.ball) && invertedBall == Some(v.invertedBall)
      ensures boostPads == Some(PadFlags(v.padTimers)) && invertedBoostPads == Some(PadFlags(v.invertedPadTimers))
    {
      var built := BuildRecords(packetPlayers, v, Counters(boostPickups, carBallTouched), refresh);
      players := Arrange(built, sortPlayersByCarId);
      ball := Some(v.ball);
      invertedBall := Some(v.invertedBall);
      boostPads := Some(PadFlags(v.padTimers));
      invertedBoostPads := Some(PadFlags(v.invertedPadTimers));
    }

    /** The scores and the index of the player with the latest touch. */
    method UpdateScores(packet: GamePacket)
      requires |packet.players| > 0
      modifies this`blueScore, this`orangeScore, this`lastTouch
      ensures blueScore == packet.blueScore && orangeScore == packet.orangeScore
      ensures exists k :: IsLatestTouchIndex(packet.players, k) && lastTouch == LastTouchOf(packet.players, k)
    {
      blueScore := packet.blueScore;
      orangeScore := packet.orangeScore;
      var k := LatestTouchIndex(packet.players);
      lastTouch := if packet.players[k].latestTouch.None? then -1 else k;
    }

    /** Consumes one packet. `tracked` holds the tracked cars' boost
      amounts before the wrapped state's update, `v` what that state holds
      after it. */
    method Update(packet: GamePacket, tracked: map<int, real>, v: V2View, refresh: Refresh)
      requires |packet.players| > 0 && WellFormedView(v)
      requires forall i :: 0 <= i < |packet.players| ==> packet.players[i].playerId in v.order
      modifies this
      ensures tickSkip == old(tickSkip) && sortPlayersByCarId == old(sortPlayersByCarId)
      ensures blueScore == packet.blueScore && orangeScore == packet.orangeScore
      ensures exists k :: IsLatestTouchIndex(packet.players, k) && lastTouch == LastTouchOf(packet.players, k)
      ensures var f := Frame(packet.matchInfo.matchPhase, packet.matchInfo.secondsElapsed, tickSkip, packet.players, tracked);
        Counters(boostPickups, carBallTouched)
          == CountAll(Counters(old(boostPickups), old(carBallTouched)), f, packet.players)
      ensures Covered(packet.players, v, Counters(boostPickups, carBallTouched))
      ensures Arranged(players, Refreshed(packet.players, v, Counters(boostPickups, carBallTouched), refresh), sortPlayersByCarId)
      ensures ball == Some(v.ball) && invertedBall == Some(v.invertedBall)
      ensures boostPads == Some(PadFlags(v.padTimers)) && invertedBoostPads == Some(PadFlags(v.invertedPadTimers))
    {
      UpdateScores(packet);
      var f := Frame(packet.matchInfo.matchPhase, packet.matchInfo.secondsElapsed, tickSkip, packet.players, tracked);
      ghost var c0 := Counters(boostPickups, carBallTouched);
      CountPlayers(f);
      RecalculateFields(packet.players, v, refresh);
    }
  }
}
