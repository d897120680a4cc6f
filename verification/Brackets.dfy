/** Between which two of the snapshots it has observed a body is shown, and that this pair only moves
    forward. */
module Brackets {
  import opened Numbers
  import opened Interpolation
  import opened World

  // The frames whose snapshots were newer than all before: those that gave the samples.
  function Kept(moved: seq<Frame>): seq<Frame> {
    if moved == [] then []
    else
      var init, f := moved[..|moved| - 1], moved[|moved| - 1];
      if f.tick <= Observed(init).lastTick then Kept(init) else Kept(init) + [f]
  }

  predicate RisingTicks(acc: seq<Frame>) {
    forall i, j :: 0 <= i < j < |acc| ==> acc[i].tick < acc[j].tick
  }

  predicate SamplesOf(history: seq<Sample>, acc: seq<Frame>) {
    |history| == |acc| && forall k :: 0 <= k < |acc| ==> history[k] == Sample(acc[k].now, acc[k].pose)
  }

  // What the accepted frames say of the samples and of the last tick.
  predicate Tracks(t: Track, acc: seq<Frame>) {
    && SamplesOf(t.history, acc) && RisingTicks(acc)
    && t.lastTick == if acc == [] then 0 else acc[|acc| - 1].tick
  }

  lemma KeepTracks(t: Track, acc: seq<Frame>, f: Frame)
    requires Tracks(t, acc) && f.tick > t.lastTick
    ensures Tracks(Observe(t, f), acc + [f])
  {
    hide Push;
    forall i, j | 0 <= i < j < |acc + [f]|
      ensures (acc + [f])[i].tick < (acc + [f])[j].tick
    {
      if j == |acc| {
        assert i < |acc| - 1 ==> acc[i].tick < acc[|acc| - 1].tick;
      }
    }
  }

  // The history is the samples of the accepted frames, whose ticks rise.
  lemma {:induction false} KeptIsHistory(moved: seq<Frame>)
    ensures Tracks(Observed(moved), Kept(moved))
    ensures forall f :: f in Kept(moved) ==> f in moved && f.tick >= 1
  {
    hide Tracks, Observe;
    if moved == [] {
      NothingTracked();
    } else {
      var init, f := moved[..|moved| - 1], moved[|moved| - 1];
      KeptIsHistory(init);
      assert moved == init + [f];
      if f.tick > Observed(init).lastTick {
        KeepTracks(Observed(init), Kept(init), f);
      } else {
        OlderIgnored(Observed(init), f);
      }
    }
  }

  lemma NothingTracked()
    ensures Tracks(Track(0, [], []), [])
  {
  }

  lemma OlderIgnored(t: Track, f: Frame)
    requires f.tick <= t.lastTick
    ensures Observe(t, f) == t
  {
  }

  lemma {:induction false} KeptGrows(moved: seq<Frame>, n: nat)
    requires n <= |moved|
    ensures Kept(moved[..n]) <= Kept(moved)
    decreases |moved|
  {
    if n < |moved| {
      KeptGrows(moved[..|moved| - 1], n);
      assert moved[..|moved| - 1][..n] == moved[..n];
    } else {
      assert moved[..n] == moved;
    }
  }

  // The two samples shown between; the newest twice while holding it.
  function Bracket(samples: seq<Sample>, render: nat): (r: (nat, nat))
    requires samples != []
    ensures r.0 <= r.1 < |samples|
  {
    var i := FirstAfter(samples, render);
    if 0 < i < |samples| then (i - 1, i) else (|samples| - 1, |samples| - 1)
  }

  // The same pair of the window, as positions in the history.
  function BracketIn(history: seq<Sample>, render: nat): (r: (nat, nat))
    requires history != []
    ensures r.0 <= r.1 < |history|
  {
    var w := Window(history);
    var (x, y) := Bracket(w, render);
    (|history| - |w| + x, |history| - |w| + y)
  }

  // Coordinate by coordinate.
  predicate PoseWithin(a: Pose, p: Pose, b: Pose) {
    Within(a.x, p.x, b.x) && Within(a.y, p.y, b.y) && Within(a.z, p.z, b.z)
  }

  lemma PlacedInBracket(samples: seq<Sample>, now: uint64)
    requires samples != []
    ensures var (x, y) := Bracket(samples, RenderMs(now));
            PoseWithin(samples[x].pose, Placed(samples, now).pose, samples[y].pose)
  {
    hide PoseAt, Fraction, Lerp, VelocityOf;
    var d := Shown(samples, RenderMs(now));
    if d.Between? {
      PoseStaysBetween(samples, RenderMs(now));
    } else {
      HeldPose(d, RenderMs(now));
    }
  }

  lemma HeldPose(d: Display, render: nat)
    requires d.Hold?
    ensures PoseAt(d, render) == d.newest.pose
  {
  }

  lemma PlacedInHistory(history: seq<Sample>, now: uint64)
    requires history != []
    ensures var (x, y) := BracketIn(history, RenderMs(now));
            PoseWithin(history[x].pose, Placed(Window(history), now).pose, history[y].pose)
  {
    hide Placed, Bracket, PoseWithin;
    PlacedInBracket(Window(history), now);
  }

  lemma FirstAfterLaterPart(history: seq<Sample>, n: nat, render: nat)
    requires n <= FirstAfter(history, render)
    ensures FirstAfter(history[n..], render) == FirstAfter(history, render) - n
  {
    hide FirstAfter;
    FirstAfterUnique(history[n..], render, FirstAfter(history, render) - n);
  }

  lemma OldSampleCounts(history: seq<Sample>, n: nat, render: nat)
    requires n < |history| && Ordered(history) && history[n].localMs <= render
    ensures n < FirstAfter(history, render)
  {
    assert forall i :: 0 <= i <= n ==> history[i].localMs <= history[n].localMs;
  }

  // Where the window reaches back to the render time, its pair is the pair of the whole history.
  lemma WindowBracket(history: seq<Sample>, render: nat)
    requires history != [] && Ordered(history) && history[0].localMs <= render && WindowReaches(history, render)
    ensures BracketIn(history, render) == Bracket(history, render)
  {
    hide FirstAfter, Ordered;
    if |history| > MAX_SAMPLES {
      var n := |history| - MAX_SAMPLES;
      OldSampleCounts(history, n, render);
      FirstAfterLaterPart(history, n, render);
    }
  }

  lemma BracketMoves(h: seq<Sample>, h': seq<Sample>, render: nat, render': nat)
    requires h != [] && h <= h' && Ordered(h') && render <= render' && h[0].localMs <= render
    ensures Bracket(h, render).0 <= Bracket(h', render').0 && Bracket(h, render).1 <= Bracket(h', render').1
  {
    assert forall k :: 0 <= k < |h| ==> h'[k] == h[k];
  }

  // Once a sample is as old as the render time, later frames show the body between later snapshots.
  lemma BracketNeverRewinds(h: seq<Sample>, h': seq<Sample>, now: uint64, now': uint64)
    requires h != [] && h <= h' && Spaced(h') && now <= now'
    requires h[|h| - 1].localMs <= now && h'[|h'| - 1].localMs <= now'
    requires Window(h)[0].localMs <= RenderMs(now)
    ensures var (x, y) := BracketIn(h, RenderMs(now));
            var (x', y') := BracketIn(h', RenderMs(now'));
            x <= x' && y <= y'
  {
    hide Bracket, BracketIn, Window, WindowReaches, Ordered, Spaced;
    SpacedPrefix(h, h');
    SpacedIsOrdered(h);
    SpacedIsOrdered(h');
    WindowStartsLater(h);
    SpacedReaches(h, now);
    SpacedReaches(h', now');
    assert h'[0] == h[0];
    WindowBracket(h, RenderMs(now));
    WindowBracket(h', RenderMs(now'));
    BracketMoves(h, h', RenderMs(now), RenderMs(now'));
  }
}
