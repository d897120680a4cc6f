/** Showing a remote player 100 ms in the past: the sample window and the bracket search of
    PumpRemotePlayers in src/client/WorldSystem.cpp, with positions as reals. */
module Interpolation {
  import opened Numbers
  import opened Angles

  const INTERPOLATION_DELAY_MS: nat := 100
  const MAX_SAMPLES: nat := 8

  // Samples at least this far apart make the window span the delay: 7 * 15 >= 100.
  const ENOUGH_MS: nat := 15

  datatype Pose = Pose(x: real, y: real, z: real, rotation: real)
  datatype Sample = Sample(localMs: uint64, pose: Pose)

  // What a frame shows: the newest sample, or a point between two neighbours.
  datatype Display = Hold(newest: Sample) | Between(before: Sample, after: Sample)

  function RenderMs(now: uint64): uint64 {
    if now > INTERPOLATION_DELAY_MS then now - INTERPOLATION_DELAY_MS else 0
  }

  // The first sample after the render time, or the number of samples.
  function FirstAfter(ss: seq<Sample>, render: nat): (i: nat)
    ensures i <= |ss|
    ensures forall k :: 0 <= k < i ==> ss[k].localMs <= render
    ensures i < |ss| ==> ss[i].localMs > render
  {
    if ss == [] then 0
    else if ss[0].localMs > render then 0
    else 1 + FirstAfter(ss[1..], render)
  }

  function Shown(ss: seq<Sample>, render: nat): Display
    requires ss != []
  {
    var i := FirstAfter(ss, render);
    if 0 < i < |ss| then Between(ss[i - 1], ss[i]) else Hold(ss[|ss| - 1])
  }

  // ---------------------------------------------------------------- the window

  // The last samples the code keeps.
  function Window(history: seq<Sample>): seq<Sample> {
    if |history| <= MAX_SAMPLES then history else history[|history| - MAX_SAMPLES..]
  }

  predicate Ordered(ss: seq<Sample>) {
    forall i, j :: 0 <= i < j < |ss| ==> ss[i].localMs <= ss[j].localMs
  }

  predicate Spaced(ss: seq<Sample>) {
    forall i :: 0 <= i < |ss| - 1 ==> ss[i].localMs + ENOUGH_MS <= ss[i + 1].localMs
  }

  // The window has dropped nothing, or still reaches back to the render time, or there is no
  // sample that old at all.
  predicate WindowReaches(history: seq<Sample>, render: nat)
    requires history != []
  {
    || |history| <= MAX_SAMPLES
    || history[|history| - MAX_SAMPLES].localMs <= render
    || render < history[0].localMs
  }

  lemma FirstAfterUnique(ss: seq<Sample>, render: nat, i: nat)
    requires i <= |ss|
    requires forall k :: 0 <= k < i ==> ss[k].localMs <= render
    requires i < |ss| ==> ss[i].localMs > render
    ensures FirstAfter(ss, render) == i
  {
  }

  // The eight samples show what the whole history would, exactly when they reach far enough back.
  lemma WindowShowsHistory(history: seq<Sample>, render: nat)
    requires history != [] && Ordered(history)
    ensures Shown(Window(history), render) == Shown(history, render) <==> WindowReaches(history, render)
  {
    if |history| > MAX_SAMPLES {
      var n := |history| - MAX_SAMPLES;
      var w, i := Window(history), FirstAfter(history, render);
      if history[n].localMs <= render {
        FirstAfterUnique(w, render, i - n);
      } else {
        FirstAfterUnique(w, render, 0);
      }
    }
  }

  lemma {:induction false} SpacedFar(ss: seq<Sample>, i: nat, j: nat)
    requires Spaced(ss) && i <= j < |ss|
    ensures ss[i].localMs + ENOUGH_MS * (j - i) <= ss[j].localMs
  {
    if i < j {
      SpacedFar(ss, i, j - 1);
    }
  }

  lemma SpacedIsOrdered(ss: seq<Sample>)
    requires Spaced(ss)
    ensures Ordered(ss)
  {
    forall i, j | 0 <= i < j < |ss|
      ensures ss[i].localMs <= ss[j].localMs
    {
      SpacedFar(ss, i, j);
    }
  }

  // Samples 15 ms apart: seven gaps cover the delay, so the window always reaches.
  lemma SpacedReaches(history: seq<Sample>, now: uint64)
    requires history != [] && Spaced(history) && history[|history| - 1].localMs <= now
    ensures WindowReaches(history, RenderMs(now))
  {
    if |history| > MAX_SAMPLES {
      SpacedFar(history, |history| - MAX_SAMPLES, |history| - 1);
    }
  }

  // At 14 ms the window is too short: nine such samples are shown differently.
  lemma FourteenIsNotEnough(pose: Pose)
    ensures var history := seq(9, i requires 0 <= i < 9 => Sample(1000 + 14 * i, pose));
            && (forall i :: 0 <= i < 8 ==> history[i].localMs + 14 == history[i + 1].localMs)
            && Shown(Window(history), RenderMs(1112)) != Shown(history, RenderMs(1112))
  {
    var history := seq(9, i requires 0 <= i < 9 => Sample(1000 + 14 * i, pose));
    WindowShowsHistory(history, RenderMs(1112));
  }

  // ---------------------------------------------------------------- frames

  // The part of a remote body that sampling touches, and the samples it has ever accepted.
  datatype Track = Track(lastTick: uint64, samples: seq<Sample>, history: seq<Sample>)

  // A frame in which the body is there to be moved: the clock and the snapshot held by the client.
  datatype Frame = Frame(now: uint64, tick: uint64, pose: Pose)

  function Push(samples: seq<Sample>, s: Sample): (r: seq<Sample>) {
    var longer := samples + [s];
    if |longer| > MAX_SAMPLES then longer[1..] else longer
  }

  // A snapshot with a newer tick joins the samples, stamped with the local clock.
  function Observe(t: Track, f: Frame): Track {
    if f.tick <= t.lastTick then t
    else
      var s := Sample(f.now, f.pose);
      Track(f.tick, Push(t.samples, s), t.history + [s])
  }

  function Observed(frames: seq<Frame>): Track {
    if frames == [] then Track(0, [], []) else Observe(Observed(frames[..|frames| - 1]), frames[|frames| - 1])
  }

  predicate ClockAdvances(frames: seq<Frame>) {
    forall i, j :: 0 <= i < j < |frames| ==> frames[i].now <= frames[j].now
  }

  lemma {:induction false} ObservedIsWindow(frames: seq<Frame>)
    ensures Observed(frames).samples == Window(Observed(frames).history)
  {
    if frames != [] {
      ObservedIsWindow(frames[..|frames| - 1]);
    }
  }

  lemma {:induction false} ObservedByNow(frames: seq<Frame>)
    requires ClockAdvances(frames)
    ensures var h := Observed(frames).history;
            Ordered(h) && forall k :: 0 <= k < |h| ==> h[k].localMs <= frames[|frames| - 1].now
  {
    if frames != [] {
      ObservedByNow(frames[..|frames| - 1]);
    }
  }

  // No earlier frame held a snapshot this new, and it is not the zero a body starts with.
  predicate NewestYet(frames: seq<Frame>, k: nat)
    requires k < |frames|
  {
    frames[k].tick > 0 && forall j :: 0 <= j < k ==> frames[j].tick < frames[k].tick
  }

  // The frames that held a snapshot newer than all before them, as samples.
  function Fresh(frames: seq<Frame>): seq<Sample> {
    if frames == [] then []
    else
      var n := |frames| - 1;
      Fresh(frames[..n]) + if NewestYet(frames, n) then [Sample(frames[n].now, frames[n].pose)] else []
  }

  predicate NewestOf(frames: seq<Frame>, tick: uint64) {
    && (forall j :: 0 <= j < |frames| ==> frames[j].tick <= tick)
    && (tick == 0 || exists j :: 0 <= j < |frames| && frames[j].tick == tick)
  }

  // A body samples every snapshot that is newer than all it was shown before, and no other.
  lemma {:induction false} HistoryIsFresh(frames: seq<Frame>)
    ensures Observed(frames).history == Fresh(frames) && NewestOf(frames, Observed(frames).lastTick)
  {
    if frames != [] {
      var init, n := frames[..|frames| - 1], |frames| - 1;
      HistoryIsFresh(init);
      assert forall j :: 0 <= j < n ==> init[j] == frames[j];
      if NewestYet(frames, n) {
        assert frames[n].tick == Observed(frames).lastTick;
      } else if Observed(init).lastTick != 0 {
        var j :| 0 <= j < n && init[j].tick == Observed(init).lastTick;
        assert frames[j].tick == Observed(init).lastTick;
      }
    }
  }

  predicate Ticking(frames: seq<Frame>) {
    exists k :: 0 <= k < |frames| && frames[k].tick > 0
  }

  // There is a sample once a snapshot came that is not tick 0.
  lemma {:induction false} FreshOnceTicking(frames: seq<Frame>)
    ensures Fresh(frames) != [] <==> Ticking(frames)
  {
    if frames != [] {
      var init, n := frames[..|frames| - 1], |frames| - 1;
      FreshOnceTicking(init);
      assert forall j :: 0 <= j < n ==> init[j] == frames[j];
      if Ticking(init) {
        var k :| 0 <= k < n && init[k].tick > 0;
        assert frames[k].tick > 0;
      }
    }
  }

  // In every frame the bracket found among the eight samples is the one the whole history would
  // give, as long as samples are accepted at least 15 ms apart.
  lemma EveryFrameShowsHistory(frames: seq<Frame>)
    requires ClockAdvances(frames) && frames != []
    requires Spaced(Observed(frames).history) && Observed(frames).samples != []
    ensures var t, render := Observed(frames), RenderMs(frames[|frames| - 1].now);
            t.history != [] && Shown(t.samples, render) == Shown(t.history, render)
  {
    var t, now := Observed(frames), frames[|frames| - 1].now;
    ObservedIsWindow(frames);
    ObservedByNow(frames);
    SpacedReaches(t.history, now);
    WindowShowsHistory(t.history, RenderMs(now));
  }

  predicate FramesApart(frames: seq<Frame>) {
    forall i, j :: 0 <= i < j < |frames| ==> frames[i].now + ENOUGH_MS <= frames[j].now
  }

  // A frame adds at most one sample, so frames that far apart accept samples that far apart.
  lemma {:induction false} FramesApartSpaceSamples(frames: seq<Frame>)
    requires FramesApart(frames)
    ensures var h := Observed(frames).history;
            Spaced(h) && (h != [] ==> h[|h| - 1].localMs <= frames[|frames| - 1].now)
    ensures frames == [] ==> Observed(frames).history == []
  {
    if frames != [] {
      FramesApartSpaceSamples(frames[..|frames| - 1]);
    }
  }

  // ---------------------------------------------------------------- displayed time

  // The moment a frame shows the player at.
  function DisplayMs(d: Display, render: nat): nat {
    if d.Between? then render else d.newest.localMs
  }

  lemma {:induction false} HistoryGrows(frames: seq<Frame>, n: nat)
    requires n <= |frames|
    ensures Observed(frames[..n]).history <= Observed(frames).history
    decreases |frames|
  {
    if n < |frames| {
      HistoryGrows(frames[..|frames| - 1], n);
      assert frames[..|frames| - 1][..n] == frames[..n];
    } else {
      assert frames[..n] == frames;
    }
  }

  // Showing a history and, later, a longer one.
  lemma LaterShowsLater(h: seq<Sample>, h': seq<Sample>, render: nat, render': nat)
    requires h != [] && h <= h' && Ordered(h') && render <= render' && h[0].localMs <= render
    ensures DisplayMs(Shown(h, render), render) <= DisplayMs(Shown(h', render'), render') <= render'
  {
    var i, j := FirstAfter(h, render), FirstAfter(h', render');
    assert h'[0] == h[0] && i > 0 && j > 0;
    if j == |h'| {
      assert h'[|h| - 1] == h[|h| - 1];
      assert i < |h| ==> h'[i] == h[i];
    }
  }

  lemma SpacedPrefix(h: seq<Sample>, h': seq<Sample>)
    requires h <= h' && Spaced(h')
    ensures Spaced(h)
  {
  }

  lemma WindowStartsLater(h: seq<Sample>)
    requires h != [] && Ordered(h)
    ensures h[0].localMs <= Window(h)[0].localMs
  {
  }

  // Once a sample is as old as the render time, the displayed time never goes back from one frame
  // to any later one, and never runs ahead of the render time.
  lemma DisplayNeverRewinds(frames: seq<Frame>, n: nat)
    requires ClockAdvances(frames) && 0 < n <= |frames|
    requires Spaced(Observed(frames).history)
    requires Observed(frames[..n]).samples != []
    requires Observed(frames[..n]).samples[0].localMs <= RenderMs(frames[n - 1].now)
    requires Observed(frames).samples != []
    ensures var r, r' := RenderMs(frames[n - 1].now), RenderMs(frames[|frames| - 1].now);
            DisplayMs(Shown(Observed(frames[..n]).samples, r), r)
            <= DisplayMs(Shown(Observed(frames).samples, r'), r') <= r'
  {
    hide Observed, Shown, DisplayMs, Window, Ordered, Spaced;
    var h, h' := Observed(frames[..n]).history, Observed(frames).history;
    HistoryGrows(frames, n);
    SpacedPrefix(h, h');
    EveryFrameShowsHistory(frames[..n]);
    EveryFrameShowsHistory(frames);
    ObservedIsWindow(frames[..n]);
    SpacedIsOrdered(h');
    SpacedIsOrdered(h);
    WindowStartsLater(h);
    LaterShowsLater(h, h', RenderMs(frames[n - 1].now), RenderMs(frames[|frames| - 1].now));
  }

  // ---------------------------------------------------------------- the pose shown

  function Fraction(before: Sample, after: Sample, render: nat): real
    requires before.localMs < after.localMs
  {
    (render - before.localMs) as real / (after.localMs - before.localMs) as real
  }

  function Lerp(a: real, b: real, t: real): real {
    a + (b - a) * t
  }

  function PoseAt(d: Display, render: nat): Pose
    requires d.Between? ==> d.before.localMs < d.after.localMs
  {
    match d
    case Hold(newest) => newest.pose
    case Between(before, after) =>
      var t := Fraction(before, after, render);
      Pose(Lerp(before.pose.x, after.pose.x, t), Lerp(before.pose.y, after.pose.y, t),
           Lerp(before.pose.z, after.pose.z, t),
           LerpAngleDegrees(before.pose.rotation, after.pose.rotation, t))
  }

  // A velocity in units a second, zero while holding.
  function VelocityOf(d: Display): (real, real, real)
    requires d.Between? ==> d.before.localMs < d.after.localMs
  {
    match d
    case Hold(_) => (0.0, 0.0, 0.0)
    case Between(before, after) =>
      var seconds := (after.localMs - before.localMs) as real / 1000.0;
      ((after.pose.x - before.pose.x) / seconds, (after.pose.y - before.pose.y) / seconds,
       (after.pose.z - before.pose.z) / seconds)
  }

  predicate Within(a: real, x: real, b: real) {
    (a <= x <= b) || (b <= x <= a)
  }

  lemma ProductNonNegative(a: real, b: real)
    requires a >= 0.0 && b >= 0.0
    ensures a * b >= 0.0
  {
  }

  lemma LerpWithin(a: real, b: real, t: real)
    requires 0.0 <= t <= 1.0
    ensures Within(a, Lerp(a, b, t), b)
  {
    var d, u := Abs(b - a), 1.0 - t;
    ProductNonNegative(d, t);
    ProductNonNegative(d, u);
    assert d * u == d - d * t;
    if a > b {
      assert (b - a) * t == -(d * t);
    }
  }

  lemma FractionInRange(before: Sample, after: Sample, render: nat)
    requires before.localMs <= render < after.localMs
    ensures 0.0 <= Fraction(before, after, render) < 1.0
  {
    ProperFraction((render - before.localMs) as real, (after.localMs - before.localMs) as real);
  }

  lemma ProperFraction(a: real, b: real)
    requires 0.0 <= a < b
    ensures 0.0 <= a / b < 1.0
  {
    var q := a / b;
    assert q * b == a;
  }

  // Whenever two samples bracket the render time they are apart in time, the fraction lies in
  // [0, 1), and every coordinate shown lies between theirs.
  lemma PoseStaysBetween(ss: seq<Sample>, render: nat)
    requires ss != [] && Shown(ss, render).Between?
    ensures var d := Shown(ss, render);
            && d.before.localMs <= render < d.after.localMs
            && 0.0 <= Fraction(d.before, d.after, render) < 1.0
            && Within(d.before.pose.x, PoseAt(d, render).x, d.after.pose.x)
            && Within(d.before.pose.y, PoseAt(d, render).y, d.after.pose.y)
            && Within(d.before.pose.z, PoseAt(d, render).z, d.after.pose.z)
  {
    var d := Shown(ss, render);
    FractionInRange(d.before, d.after, render);
    var t := Fraction(d.before, d.after, render);
    LerpWithin(d.before.pose.x, d.after.pose.x, t);
    LerpWithin(d.before.pose.y, d.after.pose.y, t);
    LerpWithin(d.before.pose.z, d.after.pose.z, t);
  }

  lemma QuotientsCancel(d: real, span: real, u: real)
    requires span > 0.0
    ensures d / (span / 1000.0) * (u / 1000.0) == d * (u / span)
  {
    var q, f := d / (span / 1000.0), u / span;
    assert q * (span / 1000.0) == d;
    assert f * span == u;
    assert q * (u / 1000.0) == q * (f * span / 1000.0);
    assert q * (f * span / 1000.0) == q * (span / 1000.0) * f;
  }

  lemma LerpSlope(a: real, b: real, span: real, u: real, v: real)
    requires span > 0.0
    ensures Lerp(a, b, v / span) - Lerp(a, b, u / span) == (b - a) / (span / 1000.0) * ((v - u) / 1000.0)
  {
    QuotientsCancel(b - a, span, v - u);
    assert (v - u) / span == v / span - u / span;
  }

  lemma AxisMoves(a: real, b: real, before: Sample, after: Sample, r: nat, r': nat)
    requires before.localMs <= r <= r' < after.localMs
    ensures Lerp(a, b, Fraction(before, after, r')) - Lerp(a, b, Fraction(before, after, r))
            == (b - a) / ((after.localMs - before.localMs) as real / 1000.0) * ((r' - r) as real / 1000.0)
  {
    var u, v := (r - before.localMs) as real, (r' - before.localMs) as real;
    assert v - u == (r' - r) as real;
    LerpSlope(a, b, (after.localMs - before.localMs) as real, u, v);
  }

  // The velocity handed to the animation is the one the body moves at: between two frames in the
  // same bracket every coordinate changes by velocity times the seconds passed.
  lemma VelocityMatchesMotion(before: Sample, after: Sample, r: nat, r': nat)
    requires before.localMs <= r <= r' < after.localMs
    ensures var d, seconds := Between(before, after), (r' - r) as real / 1000.0;
            var p, p', v := PoseAt(d, r), PoseAt(d, r'), VelocityOf(d);
            && p'.x - p.x == v.0 * seconds
            && p'.y - p.y == v.1 * seconds
            && p'.z - p.z == v.2 * seconds
  {
    AxisMoves(before.pose.x, after.pose.x, before, after, r, r');
    AxisMoves(before.pose.y, after.pose.y, before, after, r, r');
    AxisMoves(before.pose.z, after.pose.z, before, after, r, r');
  }

  // The motion starts at the earlier sample's pose and is headed for the later one's position.
  lemma MotionJoinsSamples(before: Sample, after: Sample)
    requires before.localMs < after.localMs
    ensures var d := Between(before, after);
            var start, end := PoseAt(d, before.localMs), PoseAt(d, after.localMs);
            && start == before.pose
            && end.x == after.pose.x && end.y == after.pose.y && end.z == after.pose.z
  {
    hide Turn;
    var span := (after.localMs - before.localMs) as real;
    assert 0.0 / span == 0.0 && span / span == 1.0;
  }

  // The rotation shown starts at the earlier sample's, is headed for the later one's, up to whole
  // turns, and moves evenly on the way; the way is the shortest one exactly where the turn is.
  lemma RotationTurns(before: Sample, after: Sample, r: nat, r': nat)
    requires before.localMs < after.localMs
    ensures var d, from, to := Between(before, after), before.pose.rotation, after.pose.rotation;
            var start, end := PoseAt(d, before.localMs).rotation, PoseAt(d, after.localMs).rotation;
            && start == from && Congruent(end, to)
            && (IsShortest(end - start, to - from) <==> TurnsWell(from, to))
            && (PoseAt(d, r').rotation - PoseAt(d, r).rotation) * (after.localMs - before.localMs) as real
               == (end - start) * (r' - r) as real
  {
    hide Turn, Congruent, IsShortest, TurnsWell, Lerp;
    var from, to := before.pose.rotation, after.pose.rotation;
    var turn, span := Turn(from, to), (after.localMs - before.localMs) as real;
    assert span / span == 1.0;
    TurnReaches(from, to);
    TurnIsShortest(from, to);
    SharesOfTurn(from, turn, (r - before.localMs) as real, (r' - before.localMs) as real, span);
    assert (r' - before.localMs) as real - (r - before.localMs) as real == (r' - r) as real;
  }

  lemma SharesOfTurn(from: real, turn: real, u: real, v: real, span: real)
    requires span > 0.0
    ensures (from + turn * (v / span) - (from + turn * (u / span))) * span == turn * (v - u)
  {
    var p, q := u / span, v / span;
    assert p * span == u && q * span == v;
    assert (turn * q) * span == turn * v && (turn * p) * span == turn * u;
  }

  // ---------------------------------------------------------------- the loop

  // The search as the code runs it; its extra check that the two samples are apart never fails.
  method FindBracket(samples: seq<Sample>, render: nat) returns (d: Display)
    requires samples != []
    ensures d == Shown(samples, render)
    ensures d.Between? ==> d.before.localMs <= render < d.after.localMs
  {
    var before: Option<Sample>, after: Option<Sample> := None, None;
    var i := 0;
    while i < |samples| && after.None?
      invariant i <= |samples|
      invariant after.None? ==> forall k :: 0 <= k < i ==> samples[k].localMs <= render
      invariant after.None? ==> before == if i == 0 then None else Some(samples[i - 1])
      invariant after.Some? ==>
                  && 0 < i && FirstAfter(samples, render) == i - 1 && after.value == samples[i - 1]
                  && before == if i == 1 then None else Some(samples[i - 2])
      decreases |samples| - i
    {
      if samples[i].localMs <= render {
        before := Some(samples[i]);
      } else {
        after := Some(samples[i]);
        FirstAfterUnique(samples, render, i);
      }
      i := i + 1;
    }
    if after.None? {
      FirstAfterUnique(samples, render, |samples|);
    }
    if before.Some? && after.Some? && after.value.localMs > before.value.localMs {
      return Between(before.value, after.value);
    }
    return Hold(samples[|samples| - 1]);
  }
}
