/** The configuration in memory and on disk: transactions that save without the state lock
    and re-apply at commit, layout edits that stay in memory, and the flush that writes them. */
module PersistCfg {
  import opened Wrappers

  datatype Block = Block(radio: nat, variant: string)
  datatype Layout = Layout(windowW: int, windowH: int, blocks: seq<Block>)
  datatype Radio = Radio(id: nat, frequencyKHz: nat, enabled: bool)

  /** Everything in the config that is not the comms layout. */
  datatype Rest = Rest(radios: seq<Radio>, selected: nat, activeProfile: string,
                       devices: map<string, string>, other: map<string, string>)

  datatype Config = Config(rest: Rest, layout: Layout)

  const DEFAULT_W := 540
  const DEFAULT_H := 720
  const DEFAULT_VARIANT := "vertical"

  /** The transactions of the callers. `seqNo` orders radio selections; 0 opts out. */
  datatype Txn =
    | SetRadios(radios: seq<Radio>)
    | SelectRadio(id: nat, seqNo: nat)
    | ApplyProfile(profileRadios: seq<Radio>, layout: Layout, path: string)
    | ResetLayout
    | ClearActive(deleted: string)
    | RememberDevice(device: string, name: string)
    | SetOther(key: string, value: string)

  // ---- the selection after a profile load ---------------------------------------------------

  predicate Usable(radios: seq<Radio>, id: nat) {
    exists x <- radios :: x.enabled && x.id == id
  }

  function FirstEnabled(radios: seq<Radio>): nat {
    if radios == [] then 0 else if radios[0].enabled then radios[0].id else FirstEnabled(radios[1..])
  }

  function SelectionFor(radios: seq<Radio>, current: nat): nat {
    if Usable(radios, current) then current else FirstEnabled(radios)
  }

  /** Kept while it names an enabled radio, else the first enabled one, else 0. */
  method ChooseSelection(radios: seq<Radio>, current: nat) returns (r: nat)
    ensures r == SelectionFor(radios, current)
    ensures (exists x <- radios :: x.enabled && x.id == current) ==> r == current
    ensures !(exists x <- radios :: x.enabled && x.id == current) ==>
      if exists x <- radios :: x.enabled
        then exists i :: 0 <= i < |radios| && radios[i].enabled && radios[i].id == r
                         && forall j :: 0 <= j < i ==> !radios[j].enabled
      else r == 0
  {
    for i := 0 to |radios|
      invariant forall j :: 0 <= j < i ==> !(radios[j].id == current && radios[j].enabled)
    {
      if radios[i].id == current && radios[i].enabled {
        return current;
      }
    }
    for i := 0 to |radios|
      invariant forall j :: 0 <= j < i ==> !radios[j].enabled
      invariant FirstEnabled(radios) == FirstEnabled(radios[i..])
    {
      if radios[i].enabled {
        return radios[i].id;
      }
      assert radios[i..][1..] == radios[i + 1..];
    }
    r := 0;
  }

  /** A load never leaves a selection that cannot transmit while some radio could. */
  lemma {:induction false} SelectionIsUsable(radios: seq<Radio>, current: nat)
    ensures Usable(radios, SelectionFor(radios, current)) <==> exists x <- radios :: x.enabled
    ensures SelectionFor(radios, SelectionFor(radios, current)) == SelectionFor(radios, current)
  {
    FirstEnabledIsUsable(radios);
  }

  lemma {:induction false} FirstEnabledIsUsable(radios: seq<Radio>)
    ensures (exists x <- radios :: x.enabled) ==> Usable(radios, FirstEnabled(radios))
  {
    if radios != [] && !radios[0].enabled {
      FirstEnabledIsUsable(radios[1..]);
      assert radios == [radios[0]] + radios[1..];
    }
  }

  // ---- what a transaction does ----------------------------------------------------------------

  function RestOf(t: Txn, r: Rest): Rest {
    match t
    case SetRadios(radios) => r.(radios := radios)
    case SelectRadio(id, _) => r.(selected := id)
    case ApplyProfile(radios, _, path) =>
      r.(radios := radios, selected := SelectionFor(radios, r.selected), activeProfile := path)
    case ResetLayout => r
    case ClearActive(_) => r.(activeProfile := "")
    case RememberDevice(device, name) => r.(devices := r.devices[device := name])
    case SetOther(key, value) => r.(other := r.other[key := value])
  }

  /** The layout a transaction writes, if it writes one; it depends on the rest only. */
  function LayoutOf(t: Txn, r: Rest): Option<Layout> {
    match t
    case ApplyProfile(_, layout, _) => Some(layout)
    case ResetLayout =>
      Some(Layout(DEFAULT_W, DEFAULT_H,
                  seq(|r.radios|, i requires 0 <= i < |r.radios| => Block(r.radios[i].id, DEFAULT_VARIANT))))
    case _ => None
  }

  function Mutate(t: Txn, c: Config): Config {
    Config(RestOf(t, c.rest), match LayoutOf(t, c.rest) case Some(l) => l case None => c.layout)
  }

  /** What each transaction leaves behind; whatever it does not name stays as it was. */
  lemma TxnWrites(t: Txn, c: Config)
    ensures var (r, u) := (c.rest, Mutate(t, c));
      match t
      case SetRadios(radios) => u == c.(rest := r.(radios := radios))
      case SelectRadio(id, _) => u == c.(rest := r.(selected := id))
      case ApplyProfile(radios, layout, path) =>
        && u.rest.radios == radios && u.rest.activeProfile == path && u.layout == layout
        && u.rest.devices == r.devices && u.rest.other == r.other
        && (Usable(radios, u.rest.selected) <==> exists x <- radios :: x.enabled)
        && (Usable(radios, r.selected) ==> u.rest.selected == r.selected)
      case ResetLayout =>
        && u.rest == r && u.layout.windowW == 540 && u.layout.windowH == 720 && |u.layout.blocks| == |r.radios|
        && forall i :: 0 <= i < |r.radios| ==> u.layout.blocks[i] == Block(r.radios[i].id, "vertical")
      case ClearActive(_) => u == c.(rest := r.(activeProfile := ""))
      case RememberDevice(device, name) => u == c.(rest := r.(devices := r.devices[device := name]))
      case SetOther(key, value) => u == c.(rest := r.(other := r.other[key := value]))
  {
    if t.ApplyProfile? { SelectionIsUsable(t.profileRadios, c.rest.selected); }
  }

  function SeqOf(t: Txn): nat {
    if t.SelectRadio? then t.seqNo else 0
  }

  /** A selection is stale once a newer one has been committed; clearing the active profile
      is for the deleted one only. */
  predicate Check(t: Txn, c: Config, persistedSeq: nat) {
    match t
    case SelectRadio(_, seqNo) => seqNo == 0 || seqNo >= persistedSeq
    case ClearActive(deleted) => c.rest.activeProfile == deleted
    case _ => true
  }

  const ECHO_TOLERANCE := 2

  function Abs(n: int): nat { if n < 0 then -n else n }

  predicate IsEcho(l: Layout, w: int, h: int) {
    Abs(l.windowW - w) <= ECHO_TOLERANCE && Abs(l.windowH - h) <= ECHO_TOLERANCE
  }

  // ---- the settings backend -------------------------------------------------------------------

  class Backend {
    var mem: Config
    var disk: Config
    var layoutPending: bool
    var persistedSeq: nat

    /** The file agrees with memory except possibly in the layout, and then a flush is due. */
    ghost predicate Agrees()
      reads this
    {
      disk.rest == mem.rest && (disk.layout != mem.layout ==> layoutPending)
    }

    constructor (loaded: Config)
      ensures mem == disk == loaded && !layoutPending && persistedSeq == 0
    {
      mem, disk, layoutPending, persistedSeq := loaded, loaded, false, 0;
    }

    /** Save the mutated snapshot, then mutate the current config. */
    method Persist(t: Txn, saveOk: bool) returns (committed: bool)
      requires Agrees()
      modifies this
      ensures Agrees() && layoutPending == old(layoutPending)
      ensures committed == (Check(t, old(mem), old(persistedSeq)) && saveOk)
      ensures committed ==> mem == Mutate(t, old(mem)) && disk == mem
      ensures committed ==> persistedSeq == if SeqOf(t) != 0 then SeqOf(t) else old(persistedSeq)
      ensures !committed ==> mem == old(mem) && disk == old(disk) && persistedSeq == old(persistedSeq)
    {
      if !Check(t, mem, persistedSeq) {
        return false;
      }
      var next := Mutate(t, mem);
      if !saveOk {
        return false;
      }
      disk := next;
      mem := Mutate(t, mem);
      if SeqOf(t) != 0 {
        persistedSeq := SeqOf(t);
      }
      committed := true;
    }

    /** A drag: blocks change in memory, the stored window size is kept. */
    method SetCommsLayout(l: Layout)
      requires Agrees()
      modifies this`mem, this`layoutPending
      ensures Agrees() && layoutPending
      ensures mem == old(mem).(layout := l.(windowW := old(mem).layout.windowW, windowH := old(mem).layout.windowH))
    {
      mem := mem.(layout := Layout(mem.layout.windowW, mem.layout.windowH, l.blocks));
      layoutPending := true;
    }

    /** A native resize, unless it only echoes the stored size. */
    method CaptureWindowSize(w: int, h: int)
      requires Agrees()
      modifies this`mem, this`layoutPending
      ensures Agrees()
      ensures var (dw, dh) := (w - old(mem).layout.windowW, h - old(mem).layout.windowH);
        var ignored := w <= 0 || h <= 0 || (-2 <= dw <= 2 && -2 <= dh <= 2);
        if ignored then mem == old(mem) && layoutPending == old(layoutPending)
        else mem == old(mem).(layout := old(mem).layout.(windowW := w, windowH := h)) && layoutPending
    {
      if w <= 0 || h <= 0 {
        return;
      }
      if Abs(mem.layout.windowW - w) <= ECHO_TOLERANCE && Abs(mem.layout.windowH - h) <= ECHO_TOLERANCE {
        return;
      }
      mem := mem.(layout := mem.layout.(windowW := w, windowH := h));
      layoutPending := true;
    }

    /** Writes a pending layout; without one, the file is not touched. */
    method Flush(saveOk: bool) returns (ok: bool)
      requires Agrees()
      modifies this`disk, this`layoutPending
      ensures Agrees() && ok == (!old(layoutPending) || saveOk)
      ensures ok ==> disk == mem && !layoutPending
      ensures !ok ==> disk == old(disk) && layoutPending
    {
      if !layoutPending {
        return true;
      }
      var snapshot := mem;
      layoutPending := false;
      if !saveOk {
        layoutPending := true;
        return false;
      }
      disk := snapshot;
      ok := true;
    }
  }

  // ---- interleavings --------------------------------------------------------------------------

  /** What the holder of the save lock is doing, cut at the state lock and the file write. */
  datatype Writer =
    | Free
    | Saving(t: Txn, next: Config)
    | Saved(t: Txn)
    | Flushing(snapshot: Config)
    | FlushFailed

  /** A change of the config in memory. */
  datatype Change = Committed(t: Txn) | Edited(layout: Layout)

  datatype State =
    State(mem: Config, disk: Config, layoutPending: bool, persistedSeq: nat, w: Writer, log: seq<Change>)

  datatype Step =
    | Begin(t: Txn) | Save(ok: bool) | Commit
    | Drag(blocks: seq<Block>) | Resize(width: int, height: int)
    | FlushBegin | FlushSave(ok: bool) | FlushRestore

  predicate CanStep(s: State, t: Step) {
    match t
    case Begin(_) => s.w.Free?
    case Save(_) => s.w.Saving?
    case Commit => s.w.Saved?
    case FlushBegin => s.w.Free?
    case FlushSave(_) => s.w.Flushing?
    case FlushRestore => s.w.FlushFailed?
    case _ => true
  }

  function Edit(s: State, l: Layout): State {
    s.(mem := s.mem.(layout := l), layoutPending := true, log := s.log + [Edited(l)])
  }

  function Next(s: State, t: Step): State
    requires CanStep(s, t)
  {
    match t
    case Begin(tx) => if Check(tx, s.mem, s.persistedSeq) then s.(w := Saving(tx, Mutate(tx, s.mem))) else s
    case Save(ok) => if ok then s.(disk := s.w.next, w := Saved(s.w.t)) else s.(w := Free)
    case Commit =>
      s.(mem := Mutate(s.w.t, s.mem), log := s.log + [Committed(s.w.t)], w := Free,
         persistedSeq := if SeqOf(s.w.t) != 0 then SeqOf(s.w.t) else s.persistedSeq)
    case Drag(blocks) => Edit(s, s.mem.layout.(blocks := blocks))
    case Resize(w, h) =>
      if w <= 0 || h <= 0 || IsEcho(s.mem.layout, w, h) then s
      else Edit(s, s.mem.layout.(windowW := w, windowH := h))
    case FlushBegin => s.(w := Flushing(s.mem), layoutPending := false)
    case FlushSave(ok) => if ok then s.(disk := s.w.snapshot, w := Free) else s.(w := FlushFailed)
    case FlushRestore => s.(layoutPending := true, w := Free)
  }

  function Redo(c: Config, x: Change): Config {
    match x
    case Committed(t) => Mutate(t, c)
    case Edited(l) => c.(layout := l)
  }

  function Replay(c: Config, log: seq<Change>): Config {
    if |log| == 0 then c else Redo(Replay(c, log[..|log| - 1]), log[|log| - 1])
  }

  /** `x` is memory, except that its layout may be behind while a flush is pending. */
  predicate Behind(s: State, x: Config) {
    x.rest == s.mem.rest && (x.layout != s.mem.layout ==> s.layoutPending)
  }

  /** `x` is what the transaction will make of memory, up to a pending layout. */
  predicate Ahead(s: State, x: Config, t: Txn) {
    Behind(s.(mem := Mutate(t, s.mem)), x) && Check(t, s.mem, s.persistedSeq)
  }

  predicate Inv(loaded: Config, s: State) {
    && s.mem == Replay(loaded, s.log)
    && match s.w
       case Free => Behind(s, s.disk)
       case Saving(t, next) => Behind(s, s.disk) && Ahead(s, next, t)
       case Saved(t) => Ahead(s, s.disk, t)
       case Flushing(snapshot) => s.disk.rest == s.mem.rest && Behind(s, snapshot)
       case FlushFailed => s.disk.rest == s.mem.rest
  }

  /** A transaction that nothing interrupts is in memory and on disk, or in neither. */
  lemma TxnInOneGo(s: State, t: Txn)
    requires s.w.Free?
    ensures !Check(t, s.mem, s.persistedSeq) ==> Next(s, Begin(t)) == s
    ensures Check(t, s.mem, s.persistedSeq) ==>
      var s1 := Next(s, Begin(t));
      CanStep(s1, Save(true)) && CanStep(s1, Save(false)) && Next(s1, Save(false)) == s &&
      var s2 := Next(s1, Save(true));
      CanStep(s2, Commit) &&
      var u := Next(s2, Commit);
      && u.mem == u.disk == Mutate(t, s.mem) && u.w.Free? && u.log == s.log + [Committed(t)]
      && u.layoutPending == s.layoutPending
      && u.persistedSeq == if SeqOf(t) != 0 then SeqOf(t) else s.persistedSeq
  {
  }

  /** A flush of a pending layout reaches the file, or the layout stays pending. */
  lemma FlushInOneGo(s: State)
    requires s.w.Free? && s.layoutPending
    ensures CanStep(s, FlushBegin)
    ensures var s1 := Next(s, FlushBegin);
      CanStep(s1, FlushSave(true)) && Next(s1, FlushSave(true)) == s.(disk := s.mem, layoutPending := false) &&
      CanStep(s1, FlushSave(false)) &&
      var s2 := Next(s1, FlushSave(false));
      CanStep(s2, FlushRestore) && Next(s2, FlushRestore) == s
  {
  }

  /** A drag moves blocks and a resize the window, unless it echoes the stored size to within
      two pixels; both wait for a flush. */
  lemma EditsWait(s: State, blocks: seq<Block>, w: int, h: int)
    ensures var u := Next(s, Drag(blocks));
      u.mem == s.mem.(layout := s.mem.layout.(blocks := blocks)) && u.layoutPending && u.disk == s.disk
    ensures var (dw, dh) := (w - s.mem.layout.windowW, h - s.mem.layout.windowH);
      var u := Next(s, Resize(w, h));
      if w <= 0 || h <= 0 || (-2 <= dw <= 2 && -2 <= dh <= 2) then u == s
      else u.mem == s.mem.(layout := s.mem.layout.(windowW := w, windowH := h)) && u.layoutPending && u.disk == s.disk
  {
  }

  /** A transaction is refused exactly if it is an ordered selection that a newer one has
      overtaken, or clears a profile that is no longer the active one. */
  lemma RefusedIff(t: Txn, c: Config, persistedSeq: nat)
    ensures !Check(t, c, persistedSeq) <==>
      match t
      case SelectRadio(_, seqNo) => 0 < seqNo < persistedSeq
      case ClearActive(deleted) => c.rest.activeProfile != deleted
      case _ => false
  {
  }

  /** The sequence number of an ordered radio selection in the log, 0 for anything else. */
  function SeqAt(log: seq<Change>, i: nat): nat
    requires i < |log|
  {
    if log[i].Committed? then SeqOf(log[i].t) else 0
  }

  /** Radio selections are committed in the order they were requested. */
  ghost predicate SelectionsInOrder(log: seq<Change>) {
    forall i, j :: 0 <= i < j < |log| && SeqAt(log, j) != 0 ==> SeqAt(log, i) <= SeqAt(log, j)
  }

  ghost predicate NoNewer(s: State) {
    forall i :: 0 <= i < |s.log| ==> SeqAt(s.log, i) <= s.persistedSeq
  }

  lemma ReplaySnoc(c: Config, log: seq<Change>, x: Change)
    ensures Replay(c, log + [x]) == Redo(Replay(c, log), x)
  {
    assert (log + [x])[..|log + [x]| - 1] == log;
  }

  lemma StepKeepsInv(loaded: Config, s: State, t: Step)
    requires Inv(loaded, s) && CanStep(s, t)
    ensures Inv(loaded, Next(s, t))
  {
    match t
    case Commit => ReplaySnoc(loaded, s.log, Committed(s.w.t));
    case Drag(blocks) => ReplaySnoc(loaded, s.log, Edited(s.mem.layout.(blocks := blocks)));
    case Resize(w, h) => ReplaySnoc(loaded, s.log, Edited(s.mem.layout.(windowW := w, windowH := h)));
    case _ =>
  }

  lemma StepKeepsOrder(loaded: Config, s: State, t: Step)
    requires Inv(loaded, s) && SelectionsInOrder(s.log) && NoNewer(s) && CanStep(s, t)
    ensures SelectionsInOrder(Next(s, t).log) && NoNewer(Next(s, t))
  {
    var u := Next(s, t);
    assert forall i :: 0 <= i < |s.log| ==> SeqAt(u.log, i) == SeqAt(s.log, i);
  }

  ghost predicate Run(loaded: Config, ts: seq<Step>, states: seq<State>) {
    && |states| == |ts| + 1
    && states[0] == State(loaded, loaded, false, 0, Free, [])
    && forall i :: 0 <= i < |ts| ==> CanStep(states[i], ts[i]) && states[i + 1] == Next(states[i], ts[i])
  }

  lemma {:induction false} RunKeepsInv(loaded: Config, ts: seq<Step>, states: seq<State>, i: nat)
    requires Run(loaded, ts, states) && i <= |ts|
    ensures Inv(loaded, states[i]) && SelectionsInOrder(states[i].log) && NoNewer(states[i])
  {
    if i > 0 {
      RunKeepsInv(loaded, ts, states, i - 1);
      StepKeepsInv(loaded, states[i - 1], ts[i - 1]);
      StepKeepsOrder(loaded, states[i - 1], ts[i - 1]);
    }
  }

  /** For every interleaving of transactions, edits and flushes, with saves that may fail:
      memory is the committed transactions and edits in commit order; while nobody holds the
      save lock the file is memory, except in a layout a flush still owes; outside the window
      between a save and its commit the file has memory's settings, and inside it the file
      holds exactly what the commit will make of them; a transaction's check still holds
      when it commits; and an older radio selection never overwrites a newer one. */
  lemma FileAgreesWithMemory(loaded: Config, ts: seq<Step>, states: seq<State>, i: nat)
    requires Run(loaded, ts, states) && i <= |ts|
    ensures var s := states[i];
      && s.mem == Replay(loaded, s.log)
      && (s.w.Free? ==> s.disk.rest == s.mem.rest && (s.disk.layout != s.mem.layout ==> s.layoutPending))
      && (s.w.Saved? ==> s.disk.rest == RestOf(s.w.t, s.mem.rest) && Check(s.w.t, s.mem, s.persistedSeq))
      && (!s.w.Saved? ==> s.disk.rest == s.mem.rest)
      && SelectionsInOrder(s.log)
  {
    RunKeepsInv(loaded, ts, states, i);
  }

  /** With the save lock free and nothing pending, the file is exactly memory. */
  lemma NothingPendingMeansSaved(loaded: Config, ts: seq<Step>, states: seq<State>, i: nat)
    requires Run(loaded, ts, states) && i <= |ts|
    requires states[i].w.Free? && !states[i].layoutPending
    ensures states[i].disk == states[i].mem == Replay(loaded, states[i].log)
  {
    RunKeepsInv(loaded, ts, states, i);
  }

  /** Some committed selection has this sequence number. */
  ghost predicate WasCommitted(log: seq<Change>, n: nat) { exists i: nat :: i < |log| && SeqAt(log, i) == n }

  /** Over every run the newest committed selection is remembered: a selection is refused
      exactly if a newer one has been committed, never for one that failed to save. */
  lemma {:induction false} NewestIsRemembered(loaded: Config, ts: seq<Step>, states: seq<State>, i: nat)
    requires Run(loaded, ts, states) && i <= |ts|
    ensures states[i].persistedSeq != 0 ==> WasCommitted(states[i].log, states[i].persistedSeq)
    ensures NoNewer(states[i])
  {
    RunKeepsInv(loaded, ts, states, i);
    if i > 0 {
      NewestIsRemembered(loaded, ts, states, i - 1);
      assert CanStep(states[i - 1], ts[i - 1]) && states[i] == Next(states[i - 1], ts[i - 1]);
      RememberedNext(states[i - 1], ts[i - 1]);
    }
  }

  lemma RememberedNext(s: State, t: Step)
    requires CanStep(s, t) && (s.persistedSeq != 0 ==> WasCommitted(s.log, s.persistedSeq))
    ensures var u := Next(s, t); u.persistedSeq != 0 ==> WasCommitted(u.log, u.persistedSeq)
  {
    var u := Next(s, t);
    if t.Commit? && SeqOf(s.w.t) != 0 {
      assert SeqAt(u.log, |s.log|) == u.persistedSeq;
    } else if s.persistedSeq != 0 {
      var i: nat :| i < |s.log| && SeqAt(s.log, i) == s.persistedSeq;
      assert SeqAt(u.log, i) == s.persistedSeq;
    }
  }
}
