// What the corrector guarantees over whole runs of packets about one player: how long
// it guesses, how far its clock drifts, that straight motion stays straight, and
// where the player is drawn.

module Motion {
  import opened GameData
  import opened Corrector

  // What becomes of a player's track while frames are fed to it, also where a feed divides by zero.
  ghost predicate Runs(d: real, first: Frame, frames: seq<Frame>, tracks: seq<Track>) {
    && |tracks| == |frames| + 1 && tracks[0] == FirstTrack(first)
    && forall i | 0 <= i < |frames| :: Feeds(d, tracks[i], frames[i], tracks[i + 1])
  }

  lemma FeedExists(d: real, t: Track, f: Frame) returns (t2: Track)
    ensures Feeds(d, t, f, t2)
  {
    if CanFeed(d, t, f) {
      t2 := Feed(d, t, f);
    } else {
      t2 := Track(t.newer.timestamp, t.realTimestamp, t.newer, t.newer, t.sentPackets + 1, t.extrapolatedFrames + 1);
    }
  }

  lemma {:induction false} RunExists(d: real, first: Frame, frames: seq<Frame>) returns (tracks: seq<Track>)
    ensures Runs(d, first, frames, tracks)
  {
    if frames == [] {
      tracks := [FirstTrack(first)];
    } else {
      var last := |frames| - 1;
      var before := RunExists(d, first, frames[..last]);
      var t2 := FeedExists(d, before[last], frames[last]);
      tracks := before + [t2];
    }
  }

  ghost predicate AllFed(d: real, packets: seq<map<Int32, Frame>>, states: seq<map<Int32, Track>>) {
    |states| == |packets| + 1 && forall i | 0 <= i < |packets| :: FeedsAll(d, states[i], packets[i], states[i + 1])
  }

  lemma TracksWhatItIsFed(d: real, packets: seq<map<Int32, Frame>>, states: seq<map<Int32, Track>>, id: Int32, i: nat)
    requires AllFed(d, packets, states) && i < |packets| && id in packets[i]
    ensures id in states[i + 1] && FedTo(d, states[i], id, packets[i][id], states[i + 1][id])
  {
    assert FeedsAll(d, states[i], packets[i], states[i + 1]) && id in states[i + 1].Keys;
  }

  // While a player who was not tracked before is in every packet, its tracks are such a run.
  lemma PlayerRuns(d: real, packets: seq<map<Int32, Frame>>, states: seq<map<Int32, Track>>, id: Int32)
    returns (frames: seq<Frame>, tracks: seq<Track>)
    requires AllFed(d, packets, states) && packets != [] && id !in states[0]
    requires forall i | 0 <= i < |packets| :: id in packets[i]
    ensures |frames| + 1 == |tracks| == |packets| && Runs(d, packets[0][id], frames, tracks)
    ensures forall i | 0 < i < |packets| :: frames[i - 1] == packets[i][id]
    ensures forall i | 0 < i < |states| :: id in states[i] && tracks[i - 1] == states[i][id]
  {
    forall i | 0 < i < |states|
      ensures id in states[i] && FedTo(d, states[i - 1], id, packets[i - 1][id], states[i][id])
    {
      TracksWhatItIsFed(d, packets, states, id, i - 1);
    }
    frames := seq(|packets| - 1, k requires 0 <= k < |packets| - 1 => packets[k + 1][id]);
    tracks := seq(|packets|, k requires 0 <= k < |packets| => states[k + 1][id]);
  }

  // ----- what a feed stores -----

  function Numbers(f: Frame): seq<real> {
    [f.timestamp, f.player1.x, f.player1.y, f.player1.rot, f.player2.x, f.player2.y, f.player2.rot, f.camX, f.camY]
  }

  // Frame m is in the middle between a and b.
  predicate Halfway(a: Frame, b: Frame, m: Frame) {
    forall i | 0 <= i < 9 :: Numbers(m)[i] - Numbers(a)[i] == Numbers(b)[i] - Numbers(m)[i]
  }

  // What went from x to y in a time of gap goes on to z in another time d.
  predicate GoesOn(d: real, gap: real, x: real, y: real, z: real) {
    (z - y) * gap == d * (y - x)
  }

  // Frame c is where what moved from a to b will be after another time d.
  predicate Onward(d: real, a: Frame, b: Frame, c: Frame) {
    forall i | 0 <= i < 9 :: GoesOn(d, b.timestamp - a.timestamp, Numbers(a)[i], Numbers(b)[i], Numbers(c)[i])
  }

  predicate Near(a: real, b: real) {
    -0.002 < a - b < 0.002
  }

  // A frame that is not taken as it is.
  predicate IsGuessed(d: real, t: Track, f: Frame) {
    var passed := f.timestamp - t.newer.timestamp;
    t.extrapolatedFrames <= 3 && !Near(passed, d) && (Near(passed, 0.0) || Near(passed, 2.0 * d))
  }

  predicate IsRepetition(d: real, t: Track, f: Frame) {
    IsGuessed(d, t, f) && Near(f.timestamp - t.newer.timestamp, 0.0)
  }

  lemma GuessesByTiming(d: real, t: Track, f: Frame)
    ensures Estimates(d, t, f) <==> IsGuessed(d, t, f)
    ensures BranchOf(d, t, f) == Repeated <==> IsRepetition(d, t, f)
  {
  }

  lemma LerpGoesOn(a: real, b: real, gap: real, d: real)
    requires gap != 0.0
    ensures GoesOn(d, gap, a, b, Lerp(a, b, 1.0 + d / gap))
  {
    var w := b - a;
    assert Lerp(a, b, 1.0 + d / gap) - b == d / gap * w;
    assert d / gap * w * gap == d / gap * gap * w;
  }

  lemma ExtrapolatedNumbers(d: real, a: Frame, b: Frame, i: nat)
    requires b.timestamp != a.timestamp && i < 9
    ensures Numbers(GetExtrapolatedFrame(d, a, b))[i]
         == Lerp(Numbers(a)[i], Numbers(b)[i], 1.0 + d / (b.timestamp - a.timestamp))
  {
  }

  lemma ExtrapolationIsOnward(d: real, a: Frame, b: Frame)
    requires b.timestamp != a.timestamp
    ensures Onward(d, a, b, GetExtrapolatedFrame(d, a, b))
  {
    var c := GetExtrapolatedFrame(d, a, b);
    forall i | 0 <= i < 9
      ensures GoesOn(d, b.timestamp - a.timestamp, Numbers(a)[i], Numbers(b)[i], Numbers(c)[i])
    {
      ExtrapolatedNumbers(d, a, b, i);
      LerpGoesOn(Numbers(a)[i], Numbers(b)[i], b.timestamp - a.timestamp, d);
    }
  }

  lemma MidpointIsHalfway(a: Frame, b: Frame)
    ensures Halfway(a, b, GetMidPoint(a, b))
  {
  }

  // Everything about a feed but the numbers it guesses.
  lemma FeedCounts(d: real, t: Track, f: Frame, t2: Track)
    requires Feeds(d, t, f, t2)
    ensures t2.older == t.newer && t2.timestamp == t.newer.timestamp && t2.realTimestamp == t.realTimestamp
    ensures t2.sentPackets == t.sentPackets + 1
    ensures t2.extrapolatedFrames == if IsGuessed(d, t, f) then t.extrapolatedFrames + 1 else 0
    ensures Flags(t2.newer) == if IsRepetition(d, t, f) then Flags(t.newer) else Flags(f)
  {
    GuessesByTiming(d, t, f);
  }

  // Main result: a frame on time, late by more than one packet, or after four guesses is stored as it
  // is. In place of one that was skipped over, the middle is stored with the flags of the frame received,
  // and in place of a repetition, the motion goes on for another delay, with the flags it had.
  lemma FeedByTiming(d: real, t: Track, f: Frame, t2: Track)
    requires Feeds(d, t, f, t2)
    ensures t2.older == t.newer && t2.extrapolatedFrames == if IsGuessed(d, t, f) then t.extrapolatedFrames + 1 else 0
    ensures Flags(t2.newer) == if IsRepetition(d, t, f) then Flags(t.newer) else Flags(f)
    ensures !IsGuessed(d, t, f) ==> t2.newer == f
    ensures IsRepetition(d, t, f) && t.newer.timestamp != t.older.timestamp ==>
              Onward(d, t.older, t.newer, t2.newer)
    ensures IsGuessed(d, t, f) && !IsRepetition(d, t, f) ==> Halfway(t.newer, f, t2.newer)
  {
    GuessesByTiming(d, t, f);
    FeedCounts(d, t, f, t2);
    if t.newer.timestamp != t.older.timestamp { ExtrapolationIsOnward(d, t.older, t.newer); }
    MidpointIsHalfway(t.newer, f);
  }

  // The first frame of a player is stored as it is, next to one with all numbers zero and both icons hidden.
  lemma FirstFeed(d: real, tracks: map<Int32, Track>, id: Int32, f: Frame, t2: Track)
    requires id !in tracks && FedTo(d, tracks, id, f, t2)
    ensures t2.newer == f && t2.timestamp == t2.realTimestamp == f.timestamp
    ensures t2.sentPackets == 0 && t2.extrapolatedFrames == 0
    ensures forall i | 0 <= i < 9 :: Numbers(t2.older)[i] == 0.0
    ensures t2.older.player1.hidden && t2.older.player2.hidden && !t2.older.dead && !t2.older.paused
  {
  }

  // The last frame of a run that was not a repetition when it arrived.
  function LastFresh(d: real, first: Frame, frames: seq<Frame>, tracks: seq<Track>, n: nat): Frame
    requires n <= |frames| < |tracks|
  {
    if n == 0 then first
    else if IsRepetition(d, tracks[n - 1], frames[n - 1]) then LastFresh(d, first, frames, tracks, n - 1)
    else frames[n - 1]
  }

  // Whatever is guessed, a player is shown as dead, paused, dashing and in the mode that the last
  // frame said that was not a repetition.
  lemma {:induction false} ShownFlags(d: real, first: Frame, frames: seq<Frame>, tracks: seq<Track>, n: nat)
    requires Runs(d, first, frames, tracks) && n <= |frames|
    ensures Flags(tracks[n].newer) == Flags(LastFresh(d, first, frames, tracks, n))
    ensures tracks[n].sentPackets == n && tracks[n].realTimestamp == first.timestamp
  {
    if n > 0 {
      ShownFlags(d, first, frames, tracks, n - 1);
      FeedCounts(d, tracks[n - 1], frames[n - 1], tracks[n]);
    }
  }

  // ----- guessing is bounded -----

  // Length of the run of estimates that the first n frames end with.
  function Guesses(d: real, frames: seq<Frame>, tracks: seq<Track>, n: nat): nat
    requires n <= |frames| < |tracks|
  {
    if n > 0 && Estimates(d, tracks[n - 1], frames[n - 1]) then 1 + Guesses(d, frames, tracks, n - 1) else 0
  }

  // Main result: over every run the counter is the length of the run of estimates it ends with,
  // and at most four.
  lemma {:induction false} GuessesAreCounted(d: real, first: Frame, frames: seq<Frame>, tracks: seq<Track>, n: nat)
    requires Runs(d, first, frames, tracks) && n <= |frames|
    ensures tracks[n].extrapolatedFrames == Guesses(d, frames, tracks, n) <= 4
  {
    if n > 0 {
      GuessesAreCounted(d, first, frames, tracks, n - 1);
      assert Feeds(d, tracks[n - 1], frames[n - 1], tracks[n]);
    }
  }

  lemma RealFrameIsStored(d: real, t: Track, f: Frame, t2: Track)
    requires Feeds(d, t, f, t2) && !Estimates(d, t, f)
    ensures t2.newer == f
  {
  }

  // With k guesses behind it, a run can make at most 4 - k more in a row.
  lemma {:induction false} FindStored(d: real, first: Frame, frames: seq<Frame>, tracks: seq<Track>, i: nat, k: nat)
    returns (j: nat)
    requires Runs(d, first, frames, tracks) && k <= 4 && i + 5 - k <= |frames|
    requires tracks[i].extrapolatedFrames >= k
    ensures i <= j < i + 5 - k && tracks[j + 1].newer == frames[j]
    decreases 4 - k
  {
    assert Feeds(d, tracks[i], frames[i], tracks[i + 1]);
    if Estimates(d, tracks[i], frames[i]) {
      j := FindStored(d, first, frames, tracks, i + 1, k + 1);
    } else {
      j := i;
      RealFrameIsStored(d, tracks[i], frames[i], tracks[i + 1]);
    }
  }

  // Main result: of any five consecutive feeds to a tracked player, one stores the
  // frame that was received.
  lemma FiveFeedsKeepOneFrame(d: real, first: Frame, frames: seq<Frame>, tracks: seq<Track>, i: nat)
    requires Runs(d, first, frames, tracks) && i + 5 <= |frames|
    ensures exists j | i <= j < i + 5 :: tracks[j + 1].newer == frames[j]
  {
    GuessesAreCounted(d, first, frames, tracks, i);
    var j := FindStored(d, first, frames, tracks, i, 0);
  }

  // ----- timestamps -----

  lemma ExtrapolatedTimestamp(d: real, older: Frame, newer: Frame)
    requires newer.timestamp != older.timestamp
    ensures GetExtrapolatedFrame(d, older, newer).timestamp == newer.timestamp + d
  {
    var gap := newer.timestamp - older.timestamp;
    assert (1.0 + d / gap) * gap == gap + d;
  }

  // The clock of the newer frame stays close to that of the last frame received.
  lemma DriftIsBounded(d: real, t: Track, f: Frame)
    requires d >= 0.0 && CanFeed(d, t, f)
    ensures Abs(Feed(d, t, f).newer.timestamp - f.timestamp) < d + EPSILON
  {
    if BranchOf(d, t, f) == Repeated {
      ExtrapolatedTimestamp(d, t.older, t.newer);
    }
  }

  // After a feed the two stored timestamps are equal only if it gave up guessing on
  // exactly the timestamp it had guessed.
  lemma StampsMeet(d: real, t: Track, f: Frame)
    requires d >= 2.0 * EPSILON && CanFeed(d, t, f)
    ensures Feed(d, t, f).newer.timestamp == Feed(d, t, f).older.timestamp <==>
            BranchOf(d, t, f) == ForcedResync && f.timestamp == t.newer.timestamp
  {
    if BranchOf(d, t, f) == Repeated {
      ExtrapolatedTimestamp(d, t.older, t.newer);
    }
  }

  // Main result: over a whole run, whenever its last feed did not divide by zero, the newer clock is
  // no further than one update delay from the last packet, and the next extrapolation divides by
  // zero exactly when it follows such a resynchronisation, or a first frame stamped zero.
  lemma ClockOverRun(d: real, first: Frame, frames: seq<Frame>, tracks: seq<Track>, f: Frame)
    requires d >= 2.0 * EPSILON && Runs(d, first, frames, tracks)
    requires frames != [] ==> CanFeed(d, tracks[|frames| - 1], frames[|frames| - 1])
    ensures var n, t := |frames|, tracks[|frames|];
            && (n > 0 ==> Abs(t.newer.timestamp - frames[n - 1].timestamp) < d + EPSILON)
            && (!CanFeed(d, t, f) <==>
                 BranchOf(d, t, f) == Repeated
                 && if n == 0 then first.timestamp == 0.0
                    else
                      && BranchOf(d, tracks[n - 1], frames[n - 1]) == ForcedResync
                      && frames[n - 1].timestamp == tracks[n - 1].newer.timestamp)
  {
    if frames != [] {
      var last := |frames| - 1;
      assert Feeds(d, tracks[last], frames[last], tracks[last + 1]);
      DriftIsBounded(d, tracks[last], frames[last]);
      StampsMeet(d, tracks[last], frames[last]);
    }
  }

  function Stamped(ts: real): Frame {
    EmptyFrame.(timestamp := ts)
  }

  // A stream with ten frames a second has reached timestamp ts with e guesses.
  predicate HasReached(t: Track, ts: real, e: nat) {
    t.newer.timestamp == ts && t.older.timestamp == ts - 0.1 && t.extrapolatedFrames == e
  }

  lemma RegularStart(frames: seq<Frame>, tracks: seq<Track>)
    requires Runs(0.1, Stamped(1.0), frames, tracks) && frames != [] && frames[0] == Stamped(1.1)
    ensures HasReached(tracks[1], 1.1, 0)
  {
    assert Feeds(0.1, tracks[0], frames[0], tracks[1]);
  }

  // Once the clock has run ahead by a guess, a packet that is in order looks like a
  // repetition and makes it run ahead again.
  lemma GuessAgain(first: Frame, frames: seq<Frame>, tracks: seq<Track>, i: nat, ts: real, e: nat)
    requires Runs(0.1, first, frames, tracks) && i < |frames| && frames[i] == Stamped(ts)
    requires HasReached(tracks[i], ts, e) && e <= 3
    ensures HasReached(tracks[i + 1], ts + 0.1, e + 1)
  {
    assert Feeds(0.1, tracks[i], frames[i], tracks[i + 1]);
    ExtrapolatedTimestamp(0.1, tracks[i].older, tracks[i].newer);
  }

  lemma ResyncAndRepeat(first: Frame, frames: seq<Frame>, tracks: seq<Track>, i: nat, ts: real)
    requires Runs(0.1, first, frames, tracks) && i < |frames| && frames[i] == Stamped(ts)
    requires HasReached(tracks[i], ts, 4)
    ensures !CanFeed(0.1, tracks[i + 1], Stamped(ts))
  {
    assert Feeds(0.1, tracks[i], frames[i], tracks[i + 1]);
  }

  lemma GuessesRunOut(frames: seq<Frame>, tracks: seq<Track>)
    requires frames == [Stamped(1.1), Stamped(1.1), Stamped(1.2), Stamped(1.3), Stamped(1.4), Stamped(1.5)]
    requires Runs(0.1, Stamped(1.0), frames, tracks)
    ensures !CanFeed(0.1, tracks[6], Stamped(1.5))
  {
    RegularStart(frames, tracks);
    GuessAgain(Stamped(1.0), frames, tracks, 1, 1.1, 0);
    GuessAgain(Stamped(1.0), frames, tracks, 2, 1.2, 1);
    GuessAgain(Stamped(1.0), frames, tracks, 3, 1.3, 2);
    GuessAgain(Stamped(1.0), frames, tracks, 4, 1.4, 3);
    ResyncAndRepeat(Stamped(1.0), frames, tracks, 5, 1.5);
  }

  // That division by zero is reached by two duplicated packets in an otherwise
  // regular stream.
  lemma TwoDuplicatesDivideByZero() returns (frames: seq<Frame>, tracks: seq<Track>)
    ensures frames == [Stamped(1.1), Stamped(1.1), Stamped(1.2), Stamped(1.3), Stamped(1.4), Stamped(1.5)]
    ensures Runs(0.1, Stamped(1.0), frames, tracks) && !CanFeed(0.1, tracks[6], Stamped(1.5))
  {
    frames := [Stamped(1.1), Stamped(1.1), Stamped(1.2), Stamped(1.3), Stamped(1.4), Stamped(1.5)];
    tracks := RunExists(0.1, Stamped(1.0), frames);
    GuessesRunOut(frames, tracks);
  }

  // ----- straight motion stays straight -----

  // A number that changes at constant speed: base + speed * time.
  datatype Line = Line(base: real, speed: real) {
    function At(time: real): real {
      base + speed * time
    }
  }

  predicate IconOn(m: Icon<Line>, i: Icon<real>, time: real) {
    i.x == m.x.At(time) && i.y == m.y.At(time) && i.rot == m.rot.At(time)
  }

  // All eight numbers of a frame are where the trajectory has them at its timestamp.
  predicate On(m: Player<Line>, f: Frame) {
    && IconOn(m.player1, f.player1, f.timestamp) && IconOn(m.player2, f.player2, f.timestamp)
    && f.camX == m.camX.At(f.timestamp) && f.camY == m.camY.At(f.timestamp)
  }

  lemma LerpOnLine(l: Line, a: real, b: real, s: real)
    ensures Lerp(l.At(a), l.At(b), s) == l.At(Lerp(a, b, s))
  {
    assert l.At(b) - l.At(a) == l.speed * (b - a);
    assert s * (l.speed * (b - a)) == l.speed * (s * (b - a));
    assert l.speed * (a + s * (b - a)) == l.speed * a + l.speed * (s * (b - a));
  }

  lemma MidpointOnLine(l: Line, a: real, b: real)
    ensures Midpoint(l.At(a), l.At(b)) == l.At(Midpoint(a, b))
  {
    assert l.speed * ((a + b) / 2.0) == (l.speed * a + l.speed * b) / 2.0;
  }

  lemma ExtrapolationStaysOn(d: real, m: Player<Line>, a: Frame, b: Frame)
    requires On(m, a) && On(m, b) && b.timestamp != a.timestamp
    ensures On(m, GetExtrapolatedFrame(d, a, b))
  {
    var s := Ahead(d, a, b);
    LerpOnLine(m.player1.x, a.timestamp, b.timestamp, s);
    LerpOnLine(m.player1.y, a.timestamp, b.timestamp, s);
    LerpOnLine(m.player1.rot, a.timestamp, b.timestamp, s);
    LerpOnLine(m.player2.x, a.timestamp, b.timestamp, s);
    LerpOnLine(m.player2.y, a.timestamp, b.timestamp, s);
    LerpOnLine(m.player2.rot, a.timestamp, b.timestamp, s);
    LerpOnLine(m.camX, a.timestamp, b.timestamp, s);
    LerpOnLine(m.camY, a.timestamp, b.timestamp, s);
  }

  lemma MidpointStaysOn(m: Player<Line>, a: Frame, b: Frame)
    requires On(m, a) && On(m, b)
    ensures On(m, GetMidPoint(a, b))
  {
    MidpointOnLine(m.player1.x, a.timestamp, b.timestamp);
    MidpointOnLine(m.player1.y, a.timestamp, b.timestamp);
    MidpointOnLine(m.player1.rot, a.timestamp, b.timestamp);
    MidpointOnLine(m.player2.x, a.timestamp, b.timestamp);
    MidpointOnLine(m.player2.y, a.timestamp, b.timestamp);
    MidpointOnLine(m.player2.rot, a.timestamp, b.timestamp);
    MidpointOnLine(m.camX, a.timestamp, b.timestamp);
    MidpointOnLine(m.camY, a.timestamp, b.timestamp);
  }

  lemma FeedStaysOn(d: real, m: Player<Line>, t: Track, f: Frame)
    requires CanFeed(d, t, f) && On(m, t.newer) && On(m, f)
    requires BranchOf(d, t, f) == Repeated ==> On(m, t.older)
    ensures On(m, Feed(d, t, f).newer) && On(m, Feed(d, t, f).older)
  {
    match BranchOf(d, t, f)
    case Repeated => ExtrapolationStaysOn(d, m, t.older, t.newer);
    case Skipped => MidpointStaysOn(m, t.newer, f);
    case _ =>
  }

  // Main result: if every frame received lies on one constant-velocity trajectory, the
  // second is not a repetition of the first, and no feed divides by zero, then from the
  // second feed on both stored frames lie on it, guessed or not.
  lemma {:induction false} StraightMotionIsKept(d: real, m: Player<Line>, first: Frame, frames: seq<Frame>,
                                                tracks: seq<Track>, n: nat)
    requires Runs(d, first, frames, tracks) && 0 < n <= |frames|
    requires forall i | 0 <= i < n :: CanFeed(d, tracks[i], frames[i]) && On(m, frames[i])
    requires On(m, first) && BranchOf(d, FirstTrack(first), frames[0]) != Repeated
    ensures On(m, tracks[n].newer) && On(m, tracks[n].older)
  {
    assert Feeds(d, tracks[n - 1], frames[n - 1], tracks[n]);
    if n > 1 { StraightMotionIsKept(d, m, first, frames, tracks, n - 1); }
    FeedStaysOn(d, m, tracks[n - 1], frames[n - 1]);
  }

  lemma ScaledFromOrigin(l: Line, ts: real, d: real)
    requires ts != 0.0 && d != 0.0
    ensures Lerp(0.0, l.At(ts), 1.0 + d / ts) == l.At(ts + d) <==> l.base == 0.0
  {
    var s := 1.0 + d / ts;
    assert s * ts == ts + d;
    assert s * l.At(ts) == s * l.base + l.speed * (s * ts);
    assert s * l.base - l.base == d / ts * l.base;
    if l.base != 0.0 { assert d / ts * l.base != 0.0; }
  }

  // A repetition right after the first frame is extrapolated from the all-zero frame:
  // it stays on the trajectory exactly if that frame is on it.
  lemma FirstRepeatGuessesFromOrigin(d: real, m: Player<Line>, first: Frame, f: Frame)
    requires On(m, first) && first.timestamp != 0.0 && d != 0.0
    requires BranchOf(d, FirstTrack(first), f) == Repeated
    ensures On(m, Feed(d, FirstTrack(first), f).newer) <==> On(m, EmptyFrame)
  {
    var ts := first.timestamp;
    ExtrapolatedTimestamp(d, EmptyFrame, first);
    ScaledFromOrigin(m.player1.x, ts, d);
    ScaledFromOrigin(m.player1.y, ts, d);
    ScaledFromOrigin(m.player1.rot, ts, d);
    ScaledFromOrigin(m.player2.x, ts, d);
    ScaledFromOrigin(m.player2.y, ts, d);
    ScaledFromOrigin(m.player2.rot, ts, d);
    ScaledFromOrigin(m.camX, ts, d);
    ScaledFromOrigin(m.camY, ts, d);
  }

  // ----- drawing -----

  function Sum(deltas: seq<real>): real {
    if deltas == [] then 0.0 else Sum(deltas[..|deltas| - 1]) + deltas[|deltas| - 1]
  }

  // A track after it was drawn for the given frame times; each drawing adds its own.
  function Advance(t: Track, deltas: seq<real>): Track {
    t.(timestamp := t.timestamp + Sum(deltas))
  }

  lemma DrawnInTurn(t: Track, deltas: seq<real>, dt: real)
    ensures Advance(t, []) == t && Advance(t, deltas + [dt]) == Drawn(Advance(t, deltas), dt)
  {
    assert (deltas + [dt])[..|deltas|] == deltas;
  }

  predicate Between(a: real, b: real, x: real) {
    a <= x <= b || b <= x <= a
  }

  lemma FractionOf(p: real, w: real)
    requires 0.0 <= p <= 1.0 && w >= 0.0
    ensures 0.0 <= p * w <= w
  {
    assert (1.0 - p) * w >= 0.0;
  }

  lemma LerpUp(a: real, b: real, p: real)
    requires 0.0 <= p <= 1.0 && a <= b
    ensures a <= Lerp(a, b, p) <= b
  {
    FractionOf(p, b - a);
    var q := p * (b - a);
    assert a + q <= b;
  }

  lemma LerpDown(a: real, b: real, p: real)
    requires 0.0 <= p <= 1.0 && b <= a
    ensures b <= Lerp(a, b, p) <= a
  {
    FractionOf(p, a - b);
    assert p * (a - b) == -(p * (b - a));
  }

  lemma LerpBetween(a: real, b: real, p: real)
    requires 0.0 <= p <= 1.0
    ensures Between(a, b, Lerp(a, b, p))
  {
    if a <= b { LerpUp(a, b, p); } else { LerpDown(a, b, p); }
  }

  predicate Moving(t: Track, was: Drawing) {
    !(t.newer.dead || t.newer.paused) || was.firstTick
  }

  // The icon of a frame that a drawing is about.
  function IconOf(f: Frame, second: bool): Icon<real> {
    if second then f.player2 else f.player1
  }

  lemma DrawnAt(d: real, t: Track, second: bool, was: Drawing, dt: real, p: real)
    requires d > 0.0 && Progress(d, t) == p && Moving(t, was)
    ensures var a, b := IconOf(t.older, second), IconOf(t.newer, second);
            var drawn := Draw(d, t, second, was, dt);
            && drawn.x == Lerp(a.x, b.x, p)
            && drawn.y == (if b.mode == Spider && b.grounded then a.y else Lerp(a.y, b.y, p))
            && (!second ==> drawn.camX == Lerp(t.older.camX, t.newer.camX, p)
                            && drawn.camY == Lerp(t.older.camY, t.newer.camY, p))
  {
  }

  lemma ProgressAfterFeed(d: real, t: Track, f: Frame, t2: Track, deltas: seq<real>)
    requires d > 0.0 && Feeds(d, t, f, t2)
    ensures Progress(d, Advance(t2, deltas)) == Sum(deltas) / d
  {
    assert t2.timestamp == t2.older.timestamp;
  }

  // Main result: some time after a feed, a player is drawn that fraction of the update
  // delay along the segment between its two frames.
  lemma DrawnAlongSegment(d: real, t: Track, f: Frame, t2: Track, deltas: seq<real>, second: bool, was: Drawing,
                          dt: real)
    requires d > 0.0 && Feeds(d, t, f, t2) && Moving(t2, was)
    ensures var a, b := IconOf(t2.older, second), IconOf(t2.newer, second);
            var drawn := Draw(d, Advance(t2, deltas), second, was, dt);
            && drawn.x == Lerp(a.x, b.x, Sum(deltas) / d)
            && drawn.y == (if b.mode == Spider && b.grounded then a.y else Lerp(a.y, b.y, Sum(deltas) / d))
            && (!second ==> drawn.camX == Lerp(t2.older.camX, t2.newer.camX, Sum(deltas) / d)
                            && drawn.camY == Lerp(t2.older.camY, t2.newer.camY, Sum(deltas) / d))
  {
    ProgressAfterFeed(d, t, f, t2, deltas);
    DrawnAt(d, Advance(t2, deltas), second, was, dt, Sum(deltas) / d);
  }

  lemma PartOfDelay(s: real, d: real)
    requires d > 0.0 && 0.0 <= s <= d
    ensures 0.0 <= s / d <= 1.0
  {
    assert s / d * d == s;
  }

  // Until the next packet is due, it is drawn on the segment.
  lemma DrawnOnSegment(d: real, t: Track, f: Frame, t2: Track, deltas: seq<real>, second: bool, was: Drawing, dt: real)
    requires d > 0.0 && Feeds(d, t, f, t2) && Moving(t2, was) && 0.0 <= Sum(deltas) <= d
    ensures var a, b := IconOf(t2.older, second), IconOf(t2.newer, second);
            var drawn := Draw(d, Advance(t2, deltas), second, was, dt);
            && Between(a.x, b.x, drawn.x) && Between(a.y, b.y, drawn.y)
            && (!second ==> Between(t2.older.camX, t2.newer.camX, drawn.camX)
                            && Between(t2.older.camY, t2.newer.camY, drawn.camY))
  {
    DrawnAlongSegment(d, t, f, t2, deltas, second, was, dt);
    var a, b := IconOf(t2.older, second), IconOf(t2.newer, second);
    var p := Sum(deltas) / d;
    PartOfDelay(Sum(deltas), d);
    LerpBetween(a.x, b.x, p);
    LerpBetween(a.y, b.y, p);
    LerpBetween(t2.older.camX, t2.newer.camX, p);
    LerpBetween(t2.older.camY, t2.newer.camY, p);
  }

  lemma RestOfSegment(a: real, b: real, p: real, from: real, to: real)
    requires from == Lerp(a, b, p) && to == b
    ensures to - from == (1.0 - p) * (b - a)
  {
    var w := b - a;
    assert (1.0 - p) * w == w - p * w;
  }

  // A feed starts drawing at the frame that was the newer one.
  lemma DrawnAfterFeed(d: real, t: Track, f: Frame, t2: Track, second: bool, was: Drawing, dt: real)
    requires d > 0.0 && Feeds(d, t, f, t2) && Moving(t2, was)
    ensures Draw(d, t2, second, was, dt).x == IconOf(t.newer, second).x
  {
    DrawnAt(d, t2, second, was, dt, 0.0);
  }

  lemma DrawnXAlongSegment(d: real, t: Track, f: Frame, t2: Track, deltas: seq<real>, second: bool, was: Drawing,
                           dt: real)
    requires d > 0.0 && Feeds(d, t, f, t2) && Moving(t2, was)
    ensures Draw(d, Advance(t2, deltas), second, was, dt).x
              == Lerp(IconOf(t2.older, second).x, IconOf(t2.newer, second).x, Sum(deltas) / d)
  {
    DrawnAlongSegment(d, t, f, t2, deltas, second, was, dt);
  }

  // So the next feed makes it jump by the part of the segment that had not been covered.
  lemma JumpAtNextFeed(d: real, t: Track, f: Frame, t2: Track, deltas: seq<real>, f2: Frame, t3: Track, second: bool,
                       was: Drawing, was2: Drawing, dt: real)
    requires d > 0.0 && Feeds(d, t, f, t2) && Feeds(d, Advance(t2, deltas), f2, t3)
    requires Moving(t2, was) && Moving(t3, was2)
    ensures var a, b := IconOf(t2.older, second), IconOf(t2.newer, second);
            Draw(d, t3, second, was2, dt).x - Draw(d, Advance(t2, deltas), second, was, dt).x
              == (1.0 - Sum(deltas) / d) * (b.x - a.x)
  {
    DrawnXAlongSegment(d, t, f, t2, deltas, second, was, dt);
    DrawnAfterFeed(d, Advance(t2, deltas), f2, t3, second, was2, dt);
    RestOfSegment(IconOf(t2.older, second).x, IconOf(t2.newer, second).x, Sum(deltas) / d,
                  Draw(d, Advance(t2, deltas), second, was, dt).x, Draw(d, t3, second, was2, dt).x);
  }

  // ----- turning -----

  predicate Dashes(i: Icon<real>) {
    i.dashing && (i.mode == Cube || i.mode == Ball)
  }

  lemma TurnedAt(d: real, t: Track, second: bool, was: Drawing, dt: real, p: real)
    requires d > 0.0 && Progress(d, t) == p && Moving(t, was) && !Dashes(IconOf(t.newer, second))
    ensures var a, b := IconOf(t.older, second).rot, IconOf(t.newer, second).rot;
            Draw(d, t, second, was, dt).rot == if -360.0 < b - a < 360.0 then a + p * (b - a) else b
  {
  }

  // Main result: an icon that does not dash turns along its segment as it moves along it, forwards,
  // except that a full turn or more is not drawn.
  lemma TurnsAlongSegment(d: real, t: Track, f: Frame, t2: Track, deltas: seq<real>, second: bool, was: Drawing,
                          dt: real)
    requires d > 0.0 && Feeds(d, t, f, t2) && Moving(t2, was) && !Dashes(IconOf(t2.newer, second))
    ensures var a, b := IconOf(t2.older, second).rot, IconOf(t2.newer, second).rot;
            Draw(d, Advance(t2, deltas), second, was, dt).rot
              == if -360.0 < b - a < 360.0 then a + Sum(deltas) / d * (b - a) else b
  {
    ProgressAfterFeed(d, t, f, t2, deltas);
    TurnedAt(d, Advance(t2, deltas), second, was, dt, Sum(deltas) / d);
  }

  lemma TurnStays(a: real, b: real, p: real, rot: real)
    requires 0.0 <= p <= 1.0 && rot == if -360.0 < b - a < 360.0 then a + p * (b - a) else b
    ensures Between(a, b, rot)
  {
    LerpBetween(a, b, p);
  }

  // Until the next packet is due, it is drawn between its two rotations.
  lemma TurnedOnSegment(d: real, t: Track, f: Frame, t2: Track, deltas: seq<real>, second: bool, was: Drawing, dt: real)
    requires d > 0.0 && Feeds(d, t, f, t2) && Moving(t2, was) && !Dashes(IconOf(t2.newer, second))
    requires 0.0 <= Sum(deltas) <= d
    ensures Between(IconOf(t2.older, second).rot, IconOf(t2.newer, second).rot,
                    Draw(d, Advance(t2, deltas), second, was, dt).rot)
  {
    TurnsAlongSegment(d, t, f, t2, deltas, second, was, dt);
    PartOfDelay(Sum(deltas), d);
    TurnStays(IconOf(t2.older, second).rot, IconOf(t2.newer, second).rot, Sum(deltas) / d,
              Draw(d, Advance(t2, deltas), second, was, dt).rot);
  }

  // A track is drawn once for each frame time, and its clock advances by it.
  function DrawAll(d: real, t: Track, second: bool, was: Drawing, deltas: seq<real>): Drawing
    requires d != 0.0
  {
    if deltas == [] then was
    else
      var init := deltas[..|deltas| - 1];
      Draw(d, Advance(t, init), second, DrawAll(d, t, second, was, init), deltas[|deltas| - 1])
  }

  lemma DashedOnce(d: real, t: Track, second: bool, was: Drawing, dt: real)
    requires d != 0.0 && !t.newer.dead && !t.newer.paused && Dashes(IconOf(t.newer, second))
    ensures Draw(d, t, second, was, dt).rot
              == was.rot + 900.0 * dt * (if IconOf(t.newer, second).upsideDown then -1.0 else 1.0)
  {
    assert d * (dt / d) == dt;
    assert 900.0 * d * (dt / d) == 900.0 * (d * (dt / d));
    assert 900.0 * d * -1.0 * (dt / d) == -(900.0 * d * (dt / d));
  }

  // Main result: while it dashes, an icon turns by 900 degrees a second, the other way round upside
  // down, wherever its frames are.
  lemma {:induction false} DashTurns(d: real, t: Track, second: bool, was: Drawing, deltas: seq<real>)
    requires d != 0.0 && !t.newer.dead && !t.newer.paused && Dashes(IconOf(t.newer, second))
    ensures DrawAll(d, t, second, was, deltas).rot
              == was.rot + 900.0 * Sum(deltas) * (if IconOf(t.newer, second).upsideDown then -1.0 else 1.0)
  {
    if deltas != [] {
      var init, dt := deltas[..|deltas| - 1], deltas[|deltas| - 1];
      DashTurns(d, t, second, was, init);
      DashedOnce(d, Advance(t, init), second, DrawAll(d, t, second, was, init), dt);
      assert 900.0 * (Sum(init) + dt) == 900.0 * Sum(init) + 900.0 * dt;
    }
  }

  // A dead or paused player stays where it was drawn before.
  lemma {:induction false} HaltedStays(d: real, t: Track, second: bool, was: Drawing, deltas: seq<real>)
    requires d != 0.0 && (t.newer.dead || t.newer.paused) && !was.firstTick
    ensures var now := DrawAll(d, t, second, was, deltas);
            && now.x == was.x && now.y == was.y && now.rot == was.rot && now.camX == was.camX && now.camY == was.camY
            && now.firstTick == false && (deltas != [] ==> now.halted)
  {
    if deltas != [] { HaltedStays(d, t, second, was, deltas[..|deltas| - 1]); }
  }

  // Anyone else moves, and a player drawn for the first time does in any case; drawing its second
  // icon leaves the camera alone.
  lemma OthersMove(d: real, t: Track, second: bool, was: Drawing, dt: real)
    requires d != 0.0 && ((!t.newer.dead && !t.newer.paused) || was.firstTick)
    ensures var now := Draw(d, t, second, was, dt);
            !now.halted && !now.firstTick && (second ==> now.camX == was.camX && now.camY == was.camY)
  {
  }
}
