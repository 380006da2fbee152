/** The microphone gate: push-to-talk and voice activation each open after a run of active
    frames and close a number of inactive frames later; mute wins over both. */
module Gate {

  // ---- one mechanism --------------------------------------------------------------------------

  /** A frame as one mechanism sees it: `need` active frames in a row open it, and it stays
      open for `keep` inactive ones. Both may change from frame to frame. */
  datatype Frame = Frame(enabled: bool, active: bool, need: nat, keep: nat)

  datatype Latch = Latch(run: nat, latched: bool, left: nat)

  const IDLE := Latch(0, false, 0)

  function Stepped(b: Latch, x: Frame): Latch {
    if !x.enabled then IDLE
    else if x.active then
      var latched := b.latched || b.run + 1 >= x.need;
      Latch(b.run + 1, latched, if latched then x.keep else b.left)
    else Latch(0, false, if b.left > 0 then b.left - 1 else 0)
  }

  function IsOpen(b: Latch, x: Frame): bool {
    x.enabled && if x.active then Stepped(b, x).latched else b.left > 0
  }

  function After(h: seq<Frame>): Latch {
    if h == [] then IDLE else Stepped(After(h[..|h| - 1]), h[|h| - 1])
  }

  // ---- the same from the history --------------------------------------------------------------

  predicate On(x: Frame) { x.enabled && x.active }

  /** Every frame from `i` to `k` is active. */
  predicate AllOn(h: seq<Frame>, i: int, k: int)
    requires k < |h|
  {
    0 <= i <= k + 1 && forall m :: i <= m <= k ==> On(h[m])
  }

  /** The first frame of the run that frame `i` needs. */
  function Since(x: Frame, i: int): int { if x.need == 0 then i else i - x.need + 1 }

  /** At `k` an active run is under way in which some frame `i` completed what it then needed. */
  ghost predicate Opened(h: seq<Frame>, k: int)
    requires 0 <= k < |h|
  {
    On(h[k]) && exists i :: 0 <= i <= k && AllOn(h, Since(h[i], i), k)
  }

  /** The inactive frames behind `j`. */
  function Quiet(h: seq<Frame>, j: int): nat {
    if |h| == 0 || j >= |h| - 1 then 0
    else Quiet(h[..|h| - 1], j) + if h[|h| - 1].active then 0 else 1
  }

  /** `j` is the last frame at which the mechanism was held open, with no reset since. */
  ghost predicate LastOpened(h: seq<Frame>, j: int) {
    && 0 <= j < |h| && Opened(h, j)
    && (forall k :: j < k < |h| ==> !Opened(h, k))
    && (forall k :: j < k < |h| ==> h[k].enabled)
  }

  /** The tail: what `keep` allowed at the last held frame, less the inactive frames since.
      Active frames that do not open the mechanism leave it as it is. */
  ghost predicate TailIs(h: seq<Frame>, left: nat) {
    && (forall j :: LastOpened(h, j) ==> left == Tail(h, j))
    && ((forall j :: !LastOpened(h, j)) ==> left == 0)
  }

  function Tail(h: seq<Frame>, j: int): nat
    requires 0 <= j < |h|
  {
    if h[j].keep > Quiet(h, j) then h[j].keep - Quiet(h, j) else 0
  }

  /** The counters say what the history says. */
  ghost predicate Remembers(h: seq<Frame>, b: Latch) {
    && b.run <= |h| && AllOn(h, |h| - b.run, |h| - 1) && (b.run < |h| ==> !On(h[|h| - b.run - 1]))
    && (b.latched <==> |h| > 0 && Opened(h, |h| - 1))
    && TailIs(h, b.left)
  }

  lemma OpenedBefore(h: seq<Frame>, x: Frame, k: int)
    requires 0 <= k < |h|
    ensures Opened(h + [x], k) <==> Opened(h, k)
  {
    var g := h + [x];
    assert forall m :: 0 <= m < |h| ==> g[m] == h[m];
    forall i | 0 <= i <= k ensures AllOn(g, Since(g[i], i), k) <==> AllOn(h, Since(h[i], i), k) {}
  }

  lemma OpenedNow(h: seq<Frame>, x: Frame, b: Latch)
    requires Remembers(h, b)
    ensures Opened(h + [x], |h|) <==> On(x) && (b.latched || b.run + 1 >= x.need)
  {
    var g, n := h + [x], |h|;
    assert forall m :: 0 <= m < n ==> g[m] == h[m];
    if On(x) && b.latched {
      var i :| 0 <= i <= n - 1 && AllOn(h, Since(h[i], i), n - 1);
      assert AllOn(g, Since(g[i], i), n);
    }
    if On(x) && b.run + 1 >= x.need {
      assert AllOn(g, Since(g[n], n), n);
    }
    var before := if b.run < n then g[n - b.run - 1] else x;
    if Opened(g, n) {
      var i :| 0 <= i <= n && AllOn(g, Since(g[i], i), n);
      if i < n {
        assert On(g[n - 1]);
        assert AllOn(h, Since(h[i], i), n - 1);
      }
    }
  }

  lemma QuietNext(h: seq<Frame>, x: Frame, j: int)
    ensures Quiet(h + [x], j) == if j >= |h| then 0 else Quiet(h, j) + if x.active then 0 else 1
  {
    assert (h + [x])[..|h + [x]| - 1] == h;
  }

  lemma LastOpenedNext(h: seq<Frame>, x: Frame, j: int)
    ensures LastOpened(h + [x], j) <==>
              if Opened(h + [x], |h|) then j == |h| else x.enabled && LastOpened(h, j)
  {
    var g := h + [x];
    forall k | 0 <= k < |h| ensures Opened(g, k) <==> Opened(h, k) && g[k] == h[k] { OpenedBefore(h, x, k); }
    assert g[|h|] == x;
  }

  /** A frame that holds the mechanism open starts the tail afresh. */
  lemma TailStarts(h: seq<Frame>, x: Frame)
    requires Opened(h + [x], |h|)
    ensures TailIs(h + [x], x.keep)
  {
    var g := h + [x];
    forall j ensures LastOpened(g, j) <==> j == |h| { LastOpenedNext(h, x, j); }
    QuietNext(h, x, |h|);
    assert g[|h|] == x && LastOpened(g, |h|);
  }

  /** Any other frame uses the tail up, or cuts it off. */
  lemma TailGoesOn(h: seq<Frame>, x: Frame, left: nat)
    requires TailIs(h, left) && !Opened(h + [x], |h|)
    ensures TailIs(h + [x], if !x.enabled then 0 else if !x.active && left > 0 then left - 1 else left)
  {
    var g := h + [x];
    forall j ensures LastOpened(g, j) <==> x.enabled && LastOpened(h, j) { LastOpenedNext(h, x, j); }
    forall j | LastOpened(g, j)
      ensures Quiet(g, j) == Quiet(h, j) + (if x.active then 0 else 1) && g[j] == h[j] {
      QuietNext(h, x, j);
    }
    assert x.enabled ==> forall j :: LastOpened(h, j) ==> LastOpened(g, j);
  }

  lemma TailNext(h: seq<Frame>, x: Frame, b: Latch)
    requires Remembers(h, b)
    ensures TailIs(h + [x], Stepped(b, x).left)
  {
    OpenedNow(h, x, b);
    if Opened(h + [x], |h|) { TailStarts(h, x); } else { TailGoesOn(h, x, b.left); }
  }

  /** The run counter after one more frame. */
  lemma RunNext(h: seq<Frame>, x: Frame, b: Latch)
    requires Remembers(h, b)
    ensures var (g, run) := (h + [x], Stepped(b, x).run);
      run <= |g| && AllOn(g, |g| - run, |g| - 1) && (run < |g| ==> !On(g[|g| - run - 1]))
  {
    var g := h + [x];
    assert forall m :: 0 <= m < |h| ==> g[m] == h[m];
    assert g[|h|] == x;
  }

  lemma RemembersNext(h: seq<Frame>, x: Frame, b: Latch)
    requires Remembers(h, b)
    ensures Remembers(h + [x], Stepped(b, x))
  {
    RunNext(h, x, b);
    OpenedNow(h, x, b);
    TailNext(h, x, b);
  }

  lemma {:induction false} Remembered(h: seq<Frame>)
    ensures Remembers(h, After(h))
  {
    if h != [] {
      var p, x := h[..|h| - 1], h[|h| - 1];
      Remembered(p);
      RemembersNext(p, x, After(p));
      assert p + [x] == h;
    }
  }

  /** A mechanism is open at a frame exactly if an active run has completed its need, or the
      frame is inactive and the tail of the last such run is not used up. */
  lemma OpenIffHistory(h: seq<Frame>)
    requires h != []
    ensures var (p, x) := (h[..|h| - 1], h[|h| - 1]);
      IsOpen(After(p), x) <==>
        Opened(h, |h| - 1) || (x.enabled && !x.active && exists j :: LastOpened(p, j) && Quiet(p, j) < p[j].keep)
  {
    var p, x := h[..|h| - 1], h[|h| - 1];
    Remembered(p);
    assert p + [x] == h;
    OpenedNow(p, x, After(p));
  }

  /** A mechanism that is open stays open while its frames stay active, whatever the
      configuration becomes. */
  lemma StaysOpen(b: Latch, x: Frame, y: Frame)
    requires On(x) && On(y) && IsOpen(b, x)
    ensures IsOpen(Stepped(b, x), y)
  {
  }

  // ---- the gate -------------------------------------------------------------------------------

  const FRAME_MS := 10

  function MsToFrames(ms: int): nat { if ms <= 0 then 0 else ms / FRAME_MS }

  datatype Config = Config(voxEnabled: bool, voxThreshold: real, voxMinLengthMs: int, voxHangMs: int,
                           pttStartDelayMs: int, pttReleaseDelayMs: int)

  datatype Input = Input(ptt: bool, muted: bool, level: real)

  /** A start delay of n frames suppresses n, a minimum length of n opens on the n-th. */
  function PttFrame(c: Config, x: Input): Frame {
    Frame(true, x.ptt, MsToFrames(c.pttStartDelayMs) + 1, MsToFrames(c.pttReleaseDelayMs))
  }

  function VoxFrame(c: Config, x: Input): Frame {
    Frame(c.voxEnabled, x.level >= c.voxThreshold, MsToFrames(c.voxMinLengthMs), MsToFrames(c.voxHangMs))
  }

  /** A delay is counted in whole frames of ten milliseconds, rounded down; there is no
      negative one. */
  lemma WholeFrames(ms: int)
    ensures ms >= 0 ==> 10 * MsToFrames(ms) <= ms < 10 * MsToFrames(ms) + 10
    ensures ms < 0 ==> MsToFrames(ms) == 0
  {
  }

  function Repeated(x: Frame, n: nat): seq<Frame> { if n == 0 then [] else Repeated(x, n - 1) + [x] }

  /** After `n` active frames from rest. */
  lemma {:induction false} HoldFromRest(x: Frame, n: nat)
    requires On(x)
    ensures var b := After(Repeated(x, n));
      b.run == n && (b.latched <==> 0 < n && x.need <= n) && b.left == if b.latched then x.keep else 0
  {
    if n > 0 {
      HoldFromRest(x, n - 1);
      assert Repeated(x, n)[..|Repeated(x, n)| - 1] == Repeated(x, n - 1);
    }
  }

  /** And `m` inactive frames behind them. */
  lemma {:induction false} TailFromRest(x: Frame, n: nat, y: Frame, m: nat)
    requires On(x) && y.enabled && !y.active
    ensures var b := After(Repeated(x, n) + Repeated(y, m));
      b.left == if 0 < n && x.need <= n && m < x.keep then x.keep - m else 0
  {
    HoldFromRest(x, n);
    if m == 0 {
      assert Repeated(x, n) + [] == Repeated(x, n);
    } else {
      TailFromRest(x, n, y, m - 1);
      var h := Repeated(x, n) + Repeated(y, m);
      assert h[..|h| - 1] == Repeated(x, n) + Repeated(y, m - 1);
    }
  }

  /** Push-to-talk from rest: frame `n + 1` of a press is open exactly behind the start delay;
      `m` frames into the release it is still open exactly within the release delay. */
  lemma PttTiming(c: Config, down: Input, up: Input, n: nat, m: nat)
    requires down.ptt && !up.ptt
    ensures var (x, y) := (PttFrame(c, down), PttFrame(c, up));
      && (IsOpen(After(Repeated(x, n)), x) <==> n >= MsToFrames(c.pttStartDelayMs))
      && (n > MsToFrames(c.pttStartDelayMs) ==>
            (IsOpen(After(Repeated(x, n) + Repeated(y, m)), y) <==> m < MsToFrames(c.pttReleaseDelayMs)))
  {
    HoldFromRest(PttFrame(c, down), n);
    TailFromRest(PttFrame(c, down), n, PttFrame(c, up), m);
  }

  /** Voice activation from rest: loud frames open it from the minimum length on, quiet ones
      leave it open exactly within the hang time, and switched off it never opens. */
  lemma VoxTiming(c: Config, loud: Input, quiet: Input, n: nat, m: nat)
    requires loud.level >= c.voxThreshold > quiet.level
    ensures var (x, y) := (VoxFrame(c, loud), VoxFrame(c, quiet));
      && (!c.voxEnabled ==> forall b :: !IsOpen(b, x) && !IsOpen(b, y))
      && (c.voxEnabled ==> (IsOpen(After(Repeated(x, n)), x) <==> n + 1 >= MsToFrames(c.voxMinLengthMs)))
      && (c.voxEnabled && n > 0 && n >= MsToFrames(c.voxMinLengthMs) ==>
            (IsOpen(After(Repeated(x, n) + Repeated(y, m)), y) <==> m < MsToFrames(c.voxHangMs)))
  {
    if c.voxEnabled {
      HoldFromRest(VoxFrame(c, loud), n);
      TailFromRest(VoxFrame(c, loud), n, VoxFrame(c, quiet), m);
    }
  }

  class Gate {
    var cfg: Config
    var startDelay: nat
    var releaseDelay: nat
    var voxMinLen: nat
    var voxHang: nat
    var pttHeld: nat
    var tail: nat
    var voxSustain: nat
    var voxHangLeft: nat
    var open: bool
    var pttLatched: bool
    var voxLatched: bool
    ghost var pttHistory: seq<Frame>
    ghost var voxHistory: seq<Frame>

    ghost predicate Valid()
      reads this
    {
      Configured() && Ptt() == After(pttHistory) && Vox() == After(voxHistory)
    }

    constructor (c: Config)
      ensures Valid() && cfg == c && pttHistory == voxHistory == []
    {
      cfg := c;
      startDelay, releaseDelay := MsToFrames(c.pttStartDelayMs), MsToFrames(c.pttReleaseDelayMs);
      voxMinLen, voxHang := MsToFrames(c.voxMinLengthMs), MsToFrames(c.voxHangMs);
      pttHeld, tail, voxSustain, voxHangLeft := 0, 0, 0, 0;
      open, pttLatched, voxLatched := false, false, false;
      pttHistory, voxHistory := [], [];
    }

    /** Changes the tunables and nothing that is running. */
    method SetConfig(c: Config)
      requires Valid()
      modifies this`cfg, this`startDelay, this`releaseDelay, this`voxMinLen, this`voxHang
      ensures Valid() && cfg == c
    {
      cfg := c;
      startDelay := MsToFrames(c.pttStartDelayMs);
      releaseDelay := MsToFrames(c.pttReleaseDelayMs);
      voxMinLen := MsToFrames(c.voxMinLengthMs);
      voxHang := MsToFrames(c.voxHangMs);
    }

    ghost predicate Configured()
      reads this
    {
      && startDelay == MsToFrames(cfg.pttStartDelayMs) && releaseDelay == MsToFrames(cfg.pttReleaseDelayMs)
      && voxMinLen == MsToFrames(cfg.voxMinLengthMs) && voxHang == MsToFrames(cfg.voxHangMs)
    }

    ghost function Ptt(): Latch reads this { Latch(pttHeld, pttLatched, tail) }
    ghost function Vox(): Latch reads this { Latch(voxSustain, voxLatched, voxHangLeft) }

    method StepPtt(x: Input) returns (pttOpen: bool)
      requires Configured()
      modifies this`pttHeld, this`pttLatched, this`tail
      ensures Ptt() == Stepped(old(Ptt()), PttFrame(cfg, x)) && pttOpen == IsOpen(old(Ptt()), PttFrame(cfg, x))
    {
      pttOpen := false;
      if x.ptt {
        pttHeld := pttHeld + 1;
        if pttHeld > startDelay {
          pttLatched := true;
        }
        if pttLatched {
          pttOpen := true;
          tail := releaseDelay;
        }
      } else {
        pttHeld := 0;
        pttLatched := false;
        if tail > 0 {
          tail := tail - 1;
          pttOpen := true;
        }
      }
    }

    method StepVox(x: Input) returns (voxOpen: bool)
      requires Configured()
      modifies this`voxSustain, this`voxLatched, this`voxHangLeft
      ensures Vox() == Stepped(old(Vox()), VoxFrame(cfg, x)) && voxOpen == IsOpen(old(Vox()), VoxFrame(cfg, x))
    {
      voxOpen := false;
      if cfg.voxEnabled {
        if x.level >= cfg.voxThreshold {
          voxSustain := voxSustain + 1;
          if voxSustain >= voxMinLen {
            voxLatched := true;
          }
          if voxLatched {
            voxOpen := true;
            voxHangLeft := voxHang;
          }
        } else {
          voxSustain := 0;
          voxLatched := false;
          if voxHangLeft > 0 {
            voxHangLeft := voxHangLeft - 1;
            voxOpen := true;
          }
        }
      } else {
        voxSustain := 0;
        voxHangLeft := 0;
        voxLatched := false;
      }
    }

    /** One frame of push-to-talk, by its history. */
    method NextPtt(x: Input) returns (pttOpen: bool)
      requires Configured() && Ptt() == After(pttHistory)
      modifies this`pttHeld, this`pttLatched, this`tail, this`pttHistory
      ensures pttHistory == old(pttHistory) + [PttFrame(cfg, x)] && Ptt() == After(pttHistory)
      ensures pttOpen == HistoryOpen(pttHistory)
    {
      StepIsHistory(pttHistory, PttFrame(cfg, x));
      pttOpen := StepPtt(x);
      pttHistory := pttHistory + [PttFrame(cfg, x)];
    }

    /** One frame of voice activation, by its history. */
    method NextVox(x: Input) returns (voxOpen: bool)
      requires Configured() && Vox() == After(voxHistory)
      modifies this`voxSustain, this`voxLatched, this`voxHangLeft, this`voxHistory
      ensures voxHistory == old(voxHistory) + [VoxFrame(cfg, x)] && Vox() == After(voxHistory)
      ensures voxOpen == HistoryOpen(voxHistory)
    {
      StepIsHistory(voxHistory, VoxFrame(cfg, x));
      voxOpen := StepVox(x);
      voxHistory := voxHistory + [VoxFrame(cfg, x)];
    }

    /** The microphone is open exactly if a mechanism is, by its history, and nothing mutes. */
    method Step(x: Input) returns (isOpen: bool)
      requires Valid()
      modifies this
      ensures Valid() && cfg == old(cfg) && isOpen == open
      ensures pttHistory == old(pttHistory) + [PttFrame(cfg, x)] && voxHistory == old(voxHistory) + [VoxFrame(cfg, x)]
      ensures isOpen <==> !x.muted && (HistoryOpen(pttHistory) || HistoryOpen(voxHistory))
    {
      var pttOpen := NextPtt(x);
      var voxOpen := NextVox(x);
      open := (pttOpen || voxOpen) && !x.muted;
      isOpen := open;
    }
  }

  /** What `OpenIffHistory` says of the last frame. */
  ghost predicate HistoryOpen(h: seq<Frame>)
    requires h != []
  {
    var p, x := h[..|h| - 1], h[|h| - 1];
    Opened(h, |h| - 1) || (x.enabled && !x.active && exists j :: LastOpened(p, j) && Quiet(p, j) < p[j].keep)
  }

  lemma StepIsHistory(p: seq<Frame>, x: Frame)
    ensures After(p + [x]) == Stepped(After(p), x)
    ensures IsOpen(After(p), x) <==> HistoryOpen(p + [x])
  {
    assert (p + [x])[..|p + [x]| - 1] == p;
    OpenIffHistory(p + [x]);
  }
}
