// The client's frame corrector: two frames per remote player, guessed frames where
// packets are late or missing, and the positions drawn between them.
//
// Floats are real numbers here.

module Corrector {
  import opened Collections
  import opened GameData

  type Frame = Player<real>

  const EPSILON := 0.002
  const DASH_DEGREES_PER_SECOND := 900.0

  const HiddenIcon: Icon<real> := Icon(0.0, 0.0, 0.0, Cube, true, false, false, false, true)
  const EmptyFrame: Frame := Player(0.0, HiddenIcon, HiddenIcon, 0.0, 0.0, false, false, false)

  datatype Track = Track(
    timestamp: real, realTimestamp: real, newer: Frame, older: Frame, sentPackets: int, extrapolatedFrames: int)

  function Abs(x: real): real {
    if x < 0.0 then -x else x
  }

  predicate CloseEqual(a: real, b: real) {
    Abs(b - a) < EPSILON
  }

  function Lerp(a: real, b: real, t: real): real {
    a + t * (b - a)
  }

  function Midpoint(a: real, b: real): real {
    (a + b) / 2.0
  }

  // A frame between or beyond two frames: numbers are mixed, everything else is the
  // newer frame's.
  function MixIcon(a: Icon<real>, b: Icon<real>, mix: (real, real) -> real): Icon<real> {
    b.(x := mix(a.x, b.x), y := mix(a.y, b.y), rot := mix(a.rot, b.rot))
  }

  function Mix(a: Frame, b: Frame, mix: (real, real) -> real): Frame {
    b.(timestamp := mix(a.timestamp, b.timestamp),
       player1 := MixIcon(a.player1, b.player1, mix), player2 := MixIcon(a.player2, b.player2, mix),
       camX := mix(a.camX, b.camX), camY := mix(a.camY, b.camY))
  }

  function GetMidPoint(older: Frame, newer: Frame): Frame {
    Mix(older, newer, Midpoint)
  }

  function Ahead(d: real, older: Frame, newer: Frame): real
    requires newer.timestamp != older.timestamp
  {
    1.0 + d / (newer.timestamp - older.timestamp)
  }

  function GetExtrapolatedFrame(d: real, older: Frame, newer: Frame): Frame
    requires newer.timestamp != older.timestamp
  {
    var ahead := Ahead(d, older, newer);
    Mix(older, newer, (a, b) => Lerp(a, b, ahead))
  }

  lemma SameMix(older: Frame, newer: Frame, s: real, t: real)
    requires s == t
    ensures Mix(older, newer, (a, b) => Lerp(a, b, s)) == Mix(older, newer, (a, b) => Lerp(a, b, t))
  {
  }

  // A frame without its numbers.
  function IconFlags(i: Icon<real>): Icon<real> {
    i.(x := 0.0, y := 0.0, rot := 0.0)
  }

  function Flags(f: Frame): Frame {
    f.(timestamp := 0.0, player1 := IconFlags(f.player1), player2 := IconFlags(f.player2), camX := 0.0, camY := 0.0)
  }

  // The branches of `maybeEstimateFrame`, in the order they are tried.
  datatype Branch = ForcedResync | InOrder | Repeated | Skipped | Lost

  function BranchOf(d: real, t: Track, incoming: Frame): Branch {
    var delta := incoming.timestamp - t.newer.timestamp;
    if t.extrapolatedFrames > 3 then ForcedResync
    else if CloseEqual(delta, d) then InOrder
    else if CloseEqual(delta, 0.0) then Repeated
    else if CloseEqual(delta, d * 2.0) then Skipped
    else Lost
  }

  predicate Estimates(d: real, t: Track, incoming: Frame) {
    var b := BranchOf(d, t, incoming);
    b == Repeated || b == Skipped
  }

  // Extrapolation divides by the distance of the two stored timestamps.
  predicate CanFeed(d: real, t: Track, incoming: Frame) {
    BranchOf(d, t, incoming) == Repeated ==> t.newer.timestamp != t.older.timestamp
  }

  function Chosen(d: real, t: Track, incoming: Frame): Frame
    requires CanFeed(d, t, incoming)
  {
    match BranchOf(d, t, incoming)
    case Repeated => GetExtrapolatedFrame(d, t.older, t.newer)
    case Skipped => GetMidPoint(t.newer, incoming)
    case _ => incoming
  }

  function FirstTrack(incoming: Frame): Track {
    Track(incoming.timestamp, incoming.timestamp, incoming, EmptyFrame, 0, 0)
  }

  function Feed(d: real, t: Track, incoming: Frame): Track
    requires CanFeed(d, t, incoming)
  {
    Track(t.newer.timestamp, t.realTimestamp, Chosen(d, t, incoming), t.newer, t.sentPackets + 1,
          if Estimates(d, t, incoming) then t.extrapolatedFrames + 1 else 0)
  }

  // Track t becomes t2 by a feed. Where the feed divides by zero, the numbers of the guessed frame are
  // whatever the division leaves in them, and everything else is as always.
  predicate Feeds(d: real, t: Track, incoming: Frame, t2: Track) {
    if CanFeed(d, t, incoming) then t2 == Feed(d, t, incoming)
    else
      && Flags(t2.newer) == Flags(t.newer)
      && t2 == Track(t.newer.timestamp, t.realTimestamp, t2.newer, t.newer, t.sentPackets + 1, t.extrapolatedFrames + 1)
  }

  predicate FedTo(d: real, tracks: map<Int32, Track>, id: Int32, incoming: Frame, t2: Track) {
    if id in tracks then Feeds(d, tracks[id], incoming, t2) else t2 == FirstTrack(incoming)
  }

  // What the tracks of all players become when they are fed a packet.
  predicate FeedsAll(d: real, tracks: map<Int32, Track>, data: map<Int32, Frame>, after: map<Int32, Track>) {
    && after.Keys == data.Keys
    && forall id | id in data && id in after :: FedTo(d, tracks, id, data[id], after[id])
  }

  // ----- drawing -----

  datatype Drawing = Drawing(x: real, y: real, rot: real, camX: real, camY: real, halted: bool, firstTick: bool)

  // How far between its two frames a track is drawn.
  function Progress(d: real, t: Track): real
    requires d != 0.0
  {
    (t.timestamp - t.older.timestamp) / d
  }

  // The rotation at a point between two frames. A dash turns on from what was drawn before.
  function RotationAt(d: real, base: real, a: Icon<real>, b: Icon<real>, ratio: real, increment: real): real {
    if b.dashing && (b.mode == Cube || b.mode == Ball) then
      base + DASH_DEGREES_PER_SECOND * d * (if b.upsideDown then -1.0 else 1.0) * increment
    else if Abs(b.rot - a.rot) < 360.0 then Lerp(a.rot, b.rot, ratio)
    else b.rot
  }

  function DrawnRotation(d: real, t: Track, second: bool, base: real, frameDelta: real): real
    requires d != 0.0
  {
    var a := if second then t.older.player2 else t.older.player1;
    var b := if second then t.newer.player2 else t.newer.player1;
    RotationAt(d, base, a, b, Progress(d, t), frameDelta / d)
  }

  predicate Halts(t: Track, was: Drawing) {
    (t.newer.dead || t.newer.paused) && !was.firstTick
  }

  function Draw(d: real, t: Track, second: bool, was: Drawing, frameDelta: real): Drawing
    requires d != 0.0
  {
    var a := if second then t.older.player2 else t.older.player1;
    var b := if second then t.newer.player2 else t.newer.player1;
    if Halts(t, was) then was.(halted := true, firstTick := false)
    else
      var p := Progress(d, t);
      Drawing(
        Lerp(a.x, b.x, p),
        if b.mode == Spider && b.grounded then a.y else Lerp(a.y, b.y, p),
        DrawnRotation(d, t, second, was.rot, frameDelta),
        if second then was.camX else Lerp(t.older.camX, t.newer.camX, p),
        if second then was.camY else Lerp(t.older.camY, t.newer.camY, p),
        false, false)
  }

  // What a drawing becomes. With an update delay of zero, whatever was divided by it is unknown.
  predicate Draws(d: real, t: Track, second: bool, was: Drawing, frameDelta: real, now: Drawing) {
    var a := if second then t.older.player2 else t.older.player1;
    var b := if second then t.newer.player2 else t.newer.player1;
    if d != 0.0 then now == Draw(d, t, second, was, frameDelta)
    else if Halts(t, was) then now == was.(halted := true, firstTick := false)
    else
      && !now.halted && !now.firstTick
      && (second ==> now.camX == was.camX && now.camY == was.camY)
      && (b.mode == Spider && b.grounded ==> now.y == a.y)
      && (!(b.dashing && (b.mode == Cube || b.mode == Ball)) && Abs(b.rot - a.rot) >= 360.0 ==> now.rot == b.rot)
  }

  // Drawing a track advances its clock by the frame time.
  function Drawn(t: Track, frameDelta: real): Track {
    t.(timestamp := t.timestamp + frameDelta)
  }

  // A division of floats: of what it leaves when b is zero, nothing is said.
  method Divide(a: real, b: real) returns (q: real)
    ensures b != 0.0 ==> q == a / b
  {
    if b == 0.0 { q := *; } else { q := a / b; }
  }

  class RemotePlayer {
    var drawing: Drawing

    constructor ()
      ensures drawing == Drawing(0.0, 0.0, 0.0, 0.0, 0.0, false, true)
    {
      drawing := Drawing(0.0, 0.0, 0.0, 0.0, 0.0, false, true);
    }
  }

  class PlayerCorrector {
    var targetUpdateDelay: real
    var playerData: map<Int32, Track>
    var playersGone: seq<Int32>
    var playersNew: seq<Int32>

    constructor (targetUpdateDelay: real)
      ensures this.targetUpdateDelay == targetUpdateDelay
      ensures playerData == map[] && playersGone == [] && playersNew == []
    {
      this.targetUpdateDelay := targetUpdateDelay;
      playerData, playersGone, playersNew := map[], [], [];
    }

    method Extrapolate(older: Frame, newer: Frame) returns (output: Frame)
      ensures Flags(output) == Flags(newer)
      ensures newer.timestamp != older.timestamp ==> output == GetExtrapolatedFrame(targetUpdateDelay, older, newer)
    {
      var passedTimeRatio := Divide(targetUpdateDelay, newer.timestamp - older.timestamp);
      output := Mix(older, newer, (a, b) => Lerp(a, b, 1.0 + passedTimeRatio));
      if newer.timestamp != older.timestamp {
        SameMix(older, newer, 1.0 + passedTimeRatio, Ahead(targetUpdateDelay, older, newer));
      }
    }

    // Says whether the frame was estimated, and counts it if so.
    method MaybeEstimateFrame(playerId: Int32, incoming: Frame) returns (estimated: bool, output: Frame)
      requires playerId in playerData
      modifies this`playerData
      ensures var t := old(playerData)[playerId];
              && estimated == Estimates(targetUpdateDelay, t, incoming)
              && (if CanFeed(targetUpdateDelay, t, incoming) then output == Chosen(targetUpdateDelay, t, incoming)
                  else Flags(output) == Flags(t.newer))
              && playerData == old(playerData)[playerId :=
                   t.(extrapolatedFrames := t.extrapolatedFrames + if estimated then 1 else 0)]
    {
      var t := playerData[playerId];
      if t.extrapolatedFrames > 3 {
        return false, incoming;
      }
      var delta := incoming.timestamp - t.newer.timestamp;
      if CloseEqual(delta, targetUpdateDelay) {
        return false, incoming;
      }
      if CloseEqual(delta, 0.0) {
        playerData := playerData[playerId := t.(extrapolatedFrames := t.extrapolatedFrames + 1)];
        output := Extrapolate(t.older, t.newer);
        return true, output;
      }
      if CloseEqual(delta, targetUpdateDelay * 2.0) {
        playerData := playerData[playerId := t.(extrapolatedFrames := t.extrapolatedFrames + 1)];
        return true, GetMidPoint(t.newer, incoming);
      }
      return false, incoming;
    }

    method FeedOne(playerId: Int32, incoming: Frame)
      requires playerId in playerData
      modifies this`playerData
      ensures playerId in playerData
              && Feeds(targetUpdateDelay, old(playerData)[playerId], incoming, playerData[playerId])
              && playerData == old(playerData)[playerId := playerData[playerId]]
    {
      var wasEstimated, final := MaybeEstimateFrame(playerId, incoming);
      var t := playerData[playerId];
      t := t.(older := t.newer, sentPackets := t.sentPackets + 1);
      t := t.(timestamp := t.older.timestamp, newer := final);
      if !wasEstimated {
        t := t.(extrapolatedFrames := 0);
      }
      playerData := playerData[playerId := t];
    }

    method FeedPresent(data: map<Int32, Frame>) returns (ghost joined: seq<Int32>)
      modifies this`playerData, this`playersNew
      ensures playerData.Keys == old(playerData).Keys + data.Keys
      ensures forall id | id in data :: FedTo(targetUpdateDelay, old(playerData), id, data[id], playerData[id])
      ensures playersNew == old(playersNew) + joined && Enumerates(joined, data.Keys - old(playerData).Keys)
    {
      ghost var untracked := data.Keys - playerData.Keys;
      var todo := data.Keys;
      joined := [];
      StartSearching(todo, untracked);
      while todo != {}
        invariant todo <= data.Keys && Searching(joined, todo, untracked)
        invariant playerData.Keys == old(playerData).Keys + (data.Keys - todo)
        invariant forall id | id in playerData && id in todo :: playerData[id] == old(playerData)[id]
        invariant forall id | id in data && id !in todo ::
                    FedTo(targetUpdateDelay, old(playerData), id, data[id], playerData[id])
        invariant playersNew == old(playersNew) + joined
        decreases todo
      {
        var playerId :| playerId in todo;
        SearchOneMore(joined, todo, untracked, playerId);
        if playerId !in playerData {
          playersNew := playersNew + [playerId];
          joined := joined + [playerId];
          playerData := playerData[playerId := FirstTrack(data[playerId])];
        } else {
          FeedOne(playerId, data[playerId]);
        }
        todo := todo - {playerId};
      }
      SearchedAll(joined, untracked);
    }

    method DropAbsent(present: set<Int32>) returns (ghost left: seq<Int32>)
      modifies this`playerData, this`playersGone
      ensures playerData == old(playerData) - (old(playerData).Keys - present)
      ensures playersGone == old(playersGone) + left && Enumerates(left, old(playerData).Keys - present)
    {
      var toRemove := playerData.Keys - present;
      left := [];
      while toRemove != {}
        invariant toRemove <= old(playerData).Keys - present
        invariant playerData == old(playerData) - (old(playerData).Keys - present - toRemove)
        invariant playersGone == old(playersGone) + left
        invariant Enumerates(left, old(playerData).Keys - present - toRemove)
        decreases toRemove
      {
        var id :| id in toRemove;
        toRemove := toRemove - {id};
        playersGone := playersGone + [id];
        left := left + [id];
        playerData := playerData - {id};
      }
    }

    // `joined` and `left` are the ids reported as new and as gone, in iteration order.
    method FeedRealData(data: map<Int32, Frame>) returns (ghost joined: seq<Int32>, ghost left: seq<Int32>)
      modifies this`playerData, this`playersNew, this`playersGone
      ensures FeedsAll(targetUpdateDelay, old(playerData), data, playerData)
      ensures playersNew == old(playersNew) + joined && Enumerates(joined, data.Keys - old(playerData).Keys)
      ensures playersGone == old(playersGone) + left && Enumerates(left, old(playerData).Keys - data.Keys)
    {
      joined := FeedPresent(data);
      left := DropAbsent(data.Keys);
    }

    method Rotate(base: real, older: Icon<real>, newer: Icon<real>, ratio: real, increment: real) returns (rot: real)
      ensures rot == RotationAt(targetUpdateDelay, base, older, newer, ratio, increment)
    {
      rot := newer.rot;
      if newer.dashing && (newer.mode == Cube || newer.mode == Ball) {
        var dashDelta := DASH_DEGREES_PER_SECOND * targetUpdateDelay;
        if newer.upsideDown { dashDelta := dashDelta * -1.0; }
        rot := base + dashDelta * increment;
      } else if Abs(newer.rot - older.rot) < 360.0 {
        rot := Lerp(older.rot, newer.rot, ratio);
      }
    }

    method InterpolateSpecific(player: RemotePlayer, frameDelta: real, playerId: Int32, isSecond: bool)
      requires playerId in playerData
      modifies player
      ensures Draws(targetUpdateDelay, playerData[playerId], isSecond, old(player.drawing), frameDelta, player.drawing)
    {
      var data := playerData[playerId];
      var olderData := if isSecond then data.older.player2 else data.older.player1;
      var newerData := if isSecond then data.newer.player2 else data.newer.player1;
      var wasFirstTick := player.drawing.firstTick;
      player.drawing := player.drawing.(firstTick := false);
      if (data.newer.dead || data.newer.paused) && !wasFirstTick {
        player.drawing := player.drawing.(halted := true);
        return;
      }
      player.drawing := player.drawing.(halted := false);
      var timeDelta := data.timestamp - data.older.timestamp;
      var ratio := Divide(timeDelta, targetUpdateDelay);
      var targetDelayIncrement := Divide(frameDelta, targetUpdateDelay);
      var x := Lerp(olderData.x, newerData.x, ratio);
      var y := Lerp(olderData.y, newerData.y, ratio);
      if !isSecond {
        player.drawing := player.drawing.(
          camX := Lerp(data.older.camX, data.newer.camX, ratio),
          camY := Lerp(data.older.camY, data.newer.camY, ratio));
      }
      if newerData.mode == Spider && newerData.grounded {
        y := olderData.y;
      }
      var rot := Rotate(player.drawing.rot, olderData, newerData, ratio, targetDelayIncrement);
      player.drawing := player.drawing.(x := x, y := y, rot := rot);
    }

    method Interpolate(first: RemotePlayer, second: RemotePlayer, frameDelta: real, playerId: Int32)
      requires first != second
      modifies this`playerData, first, second
      ensures playerId !in old(playerData) ==>
                playerData == old(playerData) && first.drawing == old(first.drawing)
                  && second.drawing == old(second.drawing)
      ensures playerId in old(playerData) ==>
                var t := old(playerData)[playerId];
                && playerData == old(playerData)[playerId := Drawn(t, frameDelta)]
                && Draws(targetUpdateDelay, t, false, old(first.drawing), frameDelta, first.drawing)
                && Draws(targetUpdateDelay, t, true, old(second.drawing), frameDelta, second.drawing)
    {
      if playerId !in playerData {
        return;
      }
      InterpolateSpecific(first, frameDelta, playerId, false);
      InterpolateSpecific(second, frameDelta, playerId, true);
      var t := playerData[playerId];
      playerData := playerData[playerId := t.(timestamp := t.timestamp + frameDelta)];
    }

    method SetTargetDelta(dt: real)
      modifies this`targetUpdateDelay
      ensures targetUpdateDelay == dt
    {
      targetUpdateDelay := dt;
    }

    method JoinedLevel()
      modifies this`playerData, this`playersGone, this`playersNew
      ensures playerData == map[] && playersGone == [] && playersNew == []
    {
      playerData, playersGone, playersNew := map[], [], [];
    }

    method GetNewPlayers() returns (ids: seq<Int32>)
      modifies this`playersNew
      ensures ids == old(playersNew) && playersNew == []
    {
      ids := playersNew;
      playersNew := [];
    }

    method GetGonePlayers() returns (ids: seq<Int32>)
      modifies this`playersGone
      ensures ids == old(playersGone) && playersGone == []
    {
      ids := playersGone;
      playersGone := [];
    }
  }
}
