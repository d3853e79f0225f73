/** The playback clock behind the play, pause and reset buttons: whether the animation
    runs, the (shifted) moment it started, and the elapsed time frozen at a pause.
    Times are milliseconds; `now` stands for the host clock's reading at the event. */
module Clock {

  /** The three globals the handlers share. */
  datatype ClockState = ClockState(isPlaying: bool, timeStart: real, pauseTime: real)

  /** Milliseconds of animation that have run at `now`: while playing, the time since the
      shifted start; while paused, the time frozen by the last pause. */
  function Elapsed(c: ClockState, now: real): (e: real)
    ensures c.isPlaying ==> c.timeStart + e == now
    ensures !c.isPlaying ==> e == c.pauseTime
  {
    if c.isPlaying then now - c.timeStart else c.pauseTime
  }

  /** The play handler. Pressing play while playing changes nothing; pressing it while
      paused starts playing and shifts the start so that the elapsed time carries on
      from where the pause froze it. */
  function AfterPlay(c: ClockState, now: real): (r: ClockState)
    ensures r.isPlaying
    ensures c.isPlaying ==> r == c
    ensures Elapsed(r, now) == Elapsed(c, now)
    ensures r.pauseTime == c.pauseTime
  {
    if !c.isPlaying then ClockState(true, now - c.pauseTime, c.pauseTime) else c
  }

  /** The pause handler. Pressing pause while paused changes nothing; pressing it while
      playing stops the clock and freezes the elapsed time as it was at that moment. */
  function AfterPause(c: ClockState, now: real): (r: ClockState)
    ensures !r.isPlaying
    ensures !c.isPlaying ==> r == c
    ensures Elapsed(r, now) == Elapsed(c, now)
    ensures r.timeStart == c.timeStart
  {
    if c.isPlaying then ClockState(false, c.timeStart, now - c.timeStart) else c
  }

  /** The reset handler: from either state, plays from zero starting now. */
  function AfterReset(c: ClockState, now: real): (r: ClockState)
    ensures r.isPlaying && r.timeStart == now && r.pauseTime == 0.0
    ensures Elapsed(r, now) == 0.0
  {
    ClockState(true, now, 0.0)
  }

  /** A button press and the clock reading at which it happened. */
  datatype Button = PlayButton | PauseButton
  datatype Press = Press(button: Button, at: real)

  function Apply(c: ClockState, p: Press): ClockState {
    match p.button
    case PlayButton => AfterPlay(c, p.at)
    case PauseButton => AfterPause(c, p.at)
  }

  /** The clock after a series of presses, in order. */
  function Replay(c: ClockState, presses: seq<Press>): ClockState
    decreases |presses|
  {
    if presses == [] then c else Replay(Apply(c, presses[0]), presses[1..])
  }

  /** How long the animation has been running between `from` and `now`, starting in
      state `playing` and toggled by the presses (play starts it, pause stops it). */
  function RunningTime(playing: bool, presses: seq<Press>, from: real, now: real): real
    decreases |presses|
  {
    if presses == [] then (if playing then now - from else 0.0)
    else
      var p := presses[0];
      (if playing then p.at - from else 0.0)
      + RunningTime(p.button == PlayButton, presses[1..], p.at, now)
  }

  /** Between two readings with no press in between, the elapsed time grows by the time
      passed while playing and stands still while paused. */
  lemma ElapsedAdvance(c: ClockState, t1: real, t2: real)
    ensures Elapsed(c, t2) == Elapsed(c, t1) + (if c.isPlaying then t2 - t1 else 0.0)
  {
  }

  /** Whatever presses of play and pause happen after `from`, the elapsed time at `now` is
      the elapsed time at `from` plus exactly the time the animation spent running. */
  lemma {:induction false} ElapsedIsRunningTime(c: ClockState, presses: seq<Press>, from: real, now: real)
    ensures Elapsed(Replay(c, presses), now) == Elapsed(c, from) + RunningTime(c.isPlaying, presses, from, now)
    decreases |presses|
  {
    if presses == [] {
      ElapsedAdvance(c, from, now);
    } else {
      var p := presses[0];
      var c' := Apply(c, p);
      ElapsedAdvance(c, from, p.at);
      assert Elapsed(c', p.at) == Elapsed(c, p.at);
      assert c'.isPlaying == (p.button == PlayButton);
      ElapsedIsRunningTime(c', presses[1..], p.at, now);
    }
  }

  /** Pausing at t1 and playing again at t2 resumes where the pause stopped:
      t2 - timeStart equals the frozen pause time, which is the time run until t1, and
      from then on the elapsed time skips exactly the paused interval. */
  lemma PauseThenPlayResumes(c: ClockState, t1: real, t2: real, t: real)
    requires c.isPlaying
    ensures var paused := AfterPause(c, t1);
      var resumed := AfterPlay(paused, t2);
      resumed.isPlaying &&
      t2 - resumed.timeStart == paused.pauseTime == t1 - c.timeStart &&
      Elapsed(resumed, t) == Elapsed(c, t) - (t2 - t1)
  {
  }

  /** The globals of the page, updated in place by the button handlers. */
  class PlaybackClock {
    var isPlaying: bool
    var timeStart: real
    var pauseTime: real

    function State(): ClockState
      reads this
    {
      ClockState(isPlaying, timeStart, pauseTime)
    }

    /** The initial globals: not playing, started at load time, nothing elapsed. */
    constructor (now: real)
      ensures State() == ClockState(false, now, 0.0)
    {
      isPlaying, timeStart, pauseTime := false, now, 0.0;
    }

    /** The load handler's restart of the start time just before the first frame. */
    method Start(now: real)
      modifies this
      ensures State() == old(State()).(timeStart := now)
    {
      timeStart := now;
    }

    method Play(now: real)
      modifies this
      ensures State() == AfterPlay(old(State()), now)
    {
      if !isPlaying {
        isPlaying := true;
        timeStart := now - pauseTime;
      }
    }

    method Pause(now: real)
      modifies this
      ensures State() == AfterPause(old(State()), now)
    {
      if isPlaying {
        isPlaying := false;
        pauseTime := now - timeStart;
      }
    }

    /** The space key: clicks pause while playing and play while paused, so the clock
        always changes state and the elapsed time carries across the switch. */
    method Toggle(now: real)
      modifies this
      ensures State() == if old(isPlaying) then AfterPause(old(State()), now) else AfterPlay(old(State()), now)
      ensures isPlaying == !old(isPlaying)
      ensures Elapsed(State(), now) == Elapsed(old(State()), now)
    {
      if isPlaying {
        Pause(now);
      } else {
        Play(now);
      }
    }

    method Reset(now: real)
      modifies this
      ensures State() == AfterReset(old(State()), now)
    {
      timeStart := now;
      pauseTime := 0.0;
      isPlaying := true;
    }
  }
}
