/**
 * The X11 event handling of the demo program: `handle_xevent`, `keyboard`
 * and the redraw step of the main event loop.
 *
 * The X server is abstracted away: an event is a value of `XEvent`, with the
 * keysym of a key press already looked up, and the interned atoms for
 * WM_PROTOCOLS and WM_DELETE_WINDOW are given.  `reshape` and `display` are
 * empty in the program, so they are modelled only as observable calls.
 */
module WindowEvents {
  import opened Wrappers
  import opened Sequences

  /** The keysym of the Escape key. */
  const XK_Escape: nat := 0xff1b

  /** `XLookupKeysym` returns this when the key has no symbol. */
  const NoSymbol: nat := 0

  datatype XEvent =
    | MapNotify
    | UnmapNotify
    | ConfigureNotify(width: int, height: int)
    /** `xclient.message_type` and the first `long` of `xclient.data`. */
    | ClientMessage(messageType: nat, data0: int)
    | Expose
    /** The keysym `XLookupKeysym(&ev->xkey, 0)` gives for the pressed key. */
    | KeyPress(keysym: nat)
    | OtherEvent

  /** The atoms interned at start-up. */
  datatype Atoms = Atoms(wmProtocols: nat, wmDeleteWindow: nat)

  /** The `(Atom)` cast of a signed `long`: reduction modulo 2^64 into an unsigned long. */
  function ToAtom(l: int): (a: nat)
    ensures a < 0x1_0000_0000_0000_0000
    ensures 0 <= l < 0x1_0000_0000_0000_0000 ==> a == l
    ensures -0x8000_0000_0000_0000 <= l < 0 ==> a == l + 0x1_0000_0000_0000_0000
  {
    l % 0x1_0000_0000_0000_0000
  }

  /** `keyboard`: false (stop) for Escape, true (keep running) for every other key. */
  function Keyboard(sym: nat): (keepRunning: bool)
    ensures !keepRunning <==> sym == XK_Escape
  {
    match sym
    case XK_Escape => false
    case _ => true
  }

  /** An event that asks the program to stop: a window-manager delete request, or Escape. */
  predicate IsQuitRequest(atoms: Atoms, ev: XEvent) {
    (ev.ClientMessage? && ev.messageType == atoms.wmProtocols && ToAtom(ev.data0) == atoms.wmDeleteWindow) ||
    (ev.KeyPress? && ev.keysym != NoSymbol && !Keyboard(ev.keysym))
  }

  /** The state `handle_xevent` reads and writes: the static `mapped`, the cached window size and `redraw_pending`. */
  datatype WinState = WinState(mapped: bool, width: int, height: int, redrawPending: bool)

  datatype Size = Size(width: int, height: int)

  /** The outcome of handling one event: the new state, the return value and the `reshape` call made, if any. */
  datatype Transition = Transition(next: WinState, keepRunning: bool, reshape: Option<Size>)

  /** `handle_xevent` as a function of the state before the event. */
  function Step(atoms: Atoms, m: WinState, ev: XEvent): (r: Transition)
    ensures !r.keepRunning <==> IsQuitRequest(atoms, ev)
    ensures r.next.mapped == if ev.MapNotify? then true else if ev.UnmapNotify? then false else m.mapped
    ensures r.next.redrawPending == (m.redrawPending || (ev.Expose? && m.mapped))
    ensures ev.ConfigureNotify? ==> r.next.width == ev.width && r.next.height == ev.height
    ensures !ev.ConfigureNotify? ==> r.next.width == m.width && r.next.height == m.height
    ensures r.reshape.Some? <==> ev.ConfigureNotify? && (ev.width != m.width || ev.height != m.height)
    ensures r.reshape.Some? ==> r.reshape.value == Size(r.next.width, r.next.height)
  {
    match ev
    case MapNotify => Transition(m.(mapped := true), true, None)
    case UnmapNotify => Transition(m.(mapped := false), true, None)
    case ConfigureNotify(w, h) =>
      if w != m.width || h != m.height then
        Transition(m.(width := w, height := h), true, Some(Size(w, h)))
      else
        Transition(m, true, None)
    case ClientMessage(messageType, data0) =>
      if messageType == atoms.wmProtocols && ToAtom(data0) == atoms.wmDeleteWindow then
        Transition(m, false, None)
      else
        Transition(m, true, None)
    case Expose => Transition(if m.mapped then m.(redrawPending := true) else m, true, None)
    case KeyPress(sym) =>
      if sym == NoSymbol then Transition(m, true, None)
      else Transition(m, Keyboard(sym), None)
    case OtherEvent => Transition(m, true, None)
  }

  /** Events that change nothing but the `mapped` flag. */
  lemma MapUnmapOnlyTouchMapped(atoms: Atoms, m: WinState, ev: XEvent)
    requires ev.MapNotify? || ev.UnmapNotify?
    ensures Step(atoms, m, ev) == Transition(m.(mapped := ev.MapNotify?), true, None)
  {
  }

  /** An Expose while unmapped, and a key press without a keysym, change nothing and keep the program running. */
  lemma IgnoredEvents(atoms: Atoms, m: WinState, ev: XEvent)
    requires (ev.Expose? && !m.mapped) || ev == KeyPress(NoSymbol) || ev.OtherEvent?
    ensures Step(atoms, m, ev) == Transition(m, true, None)
  {
  }

  /** What running the event loop over a finite stream of events produces. */
  datatype RunResult = RunResult(
    final: WinState,
    exited: bool,       // the handler returned false and the loop was left
    consumed: nat,      // how many events the loop took
    displays: nat,      // how many times `display` was called
    reshapes: seq<Size> // the `reshape` calls, in order
  )

  /**
   * The `for (;;)` loop of `main` over `events`: handle the next event, leave
   * on a false return, otherwise consume a pending redraw by clearing the flag
   * and calling `display`.  Running out of events means the loop would block
   * waiting for the next one.
   */
  function RunFrom(atoms: Atoms, m: WinState, events: seq<XEvent>): (r: RunResult)
    ensures r.consumed <= |events|
    ensures r.exited ==> r.consumed >= 1
    ensures !r.exited ==> r.consumed == |events|
    ensures r.displays <= r.consumed
    decreases |events|
  {
    if events == [] then RunResult(m, false, 0, 0, [])
    else
      var t := Step(atoms, m, events[0]);
      var shaped := if t.reshape.Some? then [t.reshape.value] else [];
      if !t.keepRunning then RunResult(t.next, true, 1, 0, shaped)
      else
        var drawn := if t.next.redrawPending then 1 else 0;
        var rest := RunFrom(atoms, t.next.(redrawPending := false), events[1..]);
        RunResult(rest.final, rest.exited, rest.consumed + 1, rest.displays + drawn, shaped + rest.reshapes)
  }

  /** A run over the remaining events, after `consumed` events have already made `displays` redraws and the `reshapes` calls. */
  function Resume(consumed: nat, displays: nat, reshapes: seq<Size>, rest: RunResult): RunResult {
    RunResult(rest.final, rest.exited, consumed + rest.consumed, displays + rest.displays, reshapes + rest.reshapes)
  }

  /** One iteration of the loop: handle the first event, then either stop or go on with the rest. */
  lemma LoopStep(atoms: Atoms, m: WinState, events: seq<XEvent>, consumed: nat, displays: nat, reshapes: seq<Size>)
    requires events != []
    ensures var t := Step(atoms, m, events[0]);
            var reshapes' := reshapes + (if t.reshape.Some? then [t.reshape.value] else []);
            var r := Resume(consumed, displays, reshapes, RunFrom(atoms, m, events));
            if !t.keepRunning then r == RunResult(t.next, true, consumed + 1, displays, reshapes')
            else r == Resume(consumed + 1, displays + (if t.next.redrawPending then 1 else 0), reshapes',
                             RunFrom(atoms, t.next.(redrawPending := false), events[1..]))
  {
    var t := Step(atoms, m, events[0]);
    var shaped := if t.reshape.Some? then [t.reshape.value] else [];
    if t.keepRunning {
      var rest := RunFrom(atoms, t.next.(redrawPending := false), events[1..]);
      ConcatAssoc(reshapes, shaped, rest.reshapes);
    }
  }

  /** The loop leaves exactly at the first quit request, and only then. */
  lemma {:induction false} RunStopsAtFirstQuit(atoms: Atoms, m: WinState, events: seq<XEvent>)
    ensures var r := RunFrom(atoms, m, events);
            forall j :: 0 <= j < r.consumed - (if r.exited then 1 else 0) ==> !IsQuitRequest(atoms, events[j])
    ensures var r := RunFrom(atoms, m, events);
            r.exited ==> r.consumed >= 1 && IsQuitRequest(atoms, events[r.consumed - 1])
    ensures var r := RunFrom(atoms, m, events);
            !r.exited ==> r.consumed == |events|
    decreases |events|
  {
    if events != [] {
      var t := Step(atoms, m, events[0]);
      if t.keepRunning {
        var m' := t.next.(redrawPending := false);
        RunStopsAtFirstQuit(atoms, m', events[1..]);
        var rest := RunFrom(atoms, m', events[1..]);
        forall j | 1 <= j < 1 + rest.consumed - (if rest.exited then 1 else 0)
          ensures !IsQuitRequest(atoms, events[j])
        {
          assert events[j] == events[1..][j - 1];
        }
      }
    }
  }

  /** A pending redraw is always consumed in the iteration that raised it, so none is left over. */
  lemma {:induction false} RunLeavesNoRedrawPending(atoms: Atoms, m: WinState, events: seq<XEvent>)
    requires !m.redrawPending
    ensures !RunFrom(atoms, m, events).final.redrawPending
    decreases |events|
  {
    if events != [] {
      var t := Step(atoms, m, events[0]);
      if t.keepRunning {
        RunLeavesNoRedrawPending(atoms, t.next.(redrawPending := false), events[1..]);
      }
    }
  }

  /** Whether the window is mapped after `ev`, given whether it was before. */
  function MappedAfter(mapped: bool, ev: XEvent): bool {
    match ev
    case MapNotify => true
    case UnmapNotify => false
    case _ => mapped
  }

  /** How many of `events` are Expose events arriving while the window is mapped. */
  function ShownExposes(mapped: bool, events: seq<XEvent>): nat
    decreases |events|
  {
    if events == [] then 0
    else (if events[0].Expose? && mapped then 1 else 0) + ShownExposes(MappedAfter(mapped, events[0]), events[1..])
  }

  /** `display` runs once per Expose that arrives while the window is mapped, and at no other time. */
  lemma {:induction false} RunDisplaysOncePerShownExpose(atoms: Atoms, m: WinState, events: seq<XEvent>)
    requires !m.redrawPending
    ensures var r := RunFrom(atoms, m, events);
            r.displays == ShownExposes(m.mapped, events[..r.consumed])
    decreases |events|
  {
    if events != [] {
      var t := Step(atoms, m, events[0]);
      var r := RunFrom(atoms, m, events);
      if t.keepRunning {
        var m' := t.next.(redrawPending := false);
        RunDisplaysOncePerShownExpose(atoms, m', events[1..]);
        var rest := RunFrom(atoms, m', events[1..]);
        assert events[..r.consumed][0] == events[0];
        assert events[..r.consumed][1..] == events[1..][..rest.consumed];
      } else {
        assert events[..r.consumed] == [events[0]];
        assert [events[0]][1..] == [];
      }
    }
  }

  /** The globals `win_width`, `win_height`, `redraw_pending` and the function-static `mapped`. */
  class EventHandler {
    const atoms: Atoms
    var mapped: bool
    var winWidth: int
    var winHeight: int
    var redrawPending: bool

    function State(): WinState
      reads this
    {
      WinState(mapped, winWidth, winHeight, redrawPending)
    }

    /** Statics start zeroed: unmapped, size 0x0, no redraw pending. */
    constructor (atoms: Atoms)
      ensures this.atoms == atoms
      ensures State() == WinState(false, 0, 0, false)
    {
      this.atoms := atoms;
      mapped, winWidth, winHeight, redrawPending := false, 0, 0, false;
    }

    /** `handle_xevent`: returns whether to keep running and the `reshape` call it made. */
    method HandleXEvent(ev: XEvent) returns (keepRunning: bool, reshaped: Option<Size>)
      modifies this
      ensures Transition(State(), keepRunning, reshaped) == Step(atoms, old(State()), ev)
    {
      keepRunning, reshaped := true, None;
      match ev {
        case MapNotify =>
          mapped := true;
        case UnmapNotify =>
          mapped := false;
        case ConfigureNotify(w, h) =>
          if w != winWidth || h != winHeight {
            winWidth := w;
            winHeight := h;
            reshaped := Some(Size(winWidth, winHeight));
          }
        case ClientMessage(messageType, data0) =>
          if messageType == atoms.wmProtocols {
            if ToAtom(data0) == atoms.wmDeleteWindow {
              keepRunning := false;
              return;
            }
          }
        case Expose =>
          if mapped {
            redrawPending := true;
          }
        case KeyPress(sym) =>
          if sym != NoSymbol && !Keyboard(sym) {
            keepRunning := false;
            return;
          }
        case OtherEvent =>
      }
    }

    /**
     * One pass of the loop body of `main`: handle the next event and, unless
     * the handler returned false, consume a pending redraw by clearing the
     * flag; `redrawn` says whether `display` is due.
     */
    method LoopIteration(ev: XEvent) returns (keepRunning: bool, reshaped: Option<Size>, redrawn: bool)
      modifies this
      ensures var t := Step(atoms, old(State()), ev);
              keepRunning == t.keepRunning && reshaped == t.reshape &&
              redrawn == (t.keepRunning && t.next.redrawPending) &&
              State() == if t.keepRunning then t.next.(redrawPending := false) else t.next
    {
      keepRunning, reshaped := HandleXEvent(ev);
      redrawn := false;
      if !keepRunning {
        return;
      }
      if redrawPending {
        redrawPending := false;
        redrawn := true;
      }
    }

    /**
     * The event loop of `main` over the events the server delivers.  On a
     * false return from the handler the loop is left and `main` returns 0
     * (after `cleanup`); `exitStatus` is None when the events ran out first.
     */
    method Run(events: seq<XEvent>) returns (exitStatus: Option<int>, displays: nat, reshapes: seq<Size>)
      modifies this
      ensures var r := RunFrom(atoms, old(State()), events);
              State() == r.final && displays == r.displays && reshapes == r.reshapes &&
              exitStatus == if r.exited then Some(0) else None
      ensures !old(redrawPending) ==> !redrawPending
    {
      ghost var total := RunFrom(atoms, State(), events);
      if !redrawPending {
        RunLeavesNoRedrawPending(atoms, State(), events);
      }
      displays, reshapes, exitStatus := 0, [], None;
      var i := 0;
      assert events[0..] == events;
      while i < |events|
        invariant 0 <= i <= |events|
        invariant total == Resume(i, displays, reshapes, RunFrom(atoms, State(), events[i..]))
      {
        assert events[i..][0] == events[i] && events[i..][1..] == events[i + 1..];
        LoopStep(atoms, State(), events[i..], i, displays, reshapes);
        var keepRunning, reshaped, redrawn := LoopIteration(events[i]);
        i := i + 1;
        if reshaped.Some? {
          reshapes := reshapes + [reshaped.value];
        } else {
          assert reshapes == reshapes + [];
        }
        if !keepRunning {
          exitStatus := Some(0);
          break;
        }
        if redrawn {
          displays := displays + 1;
        }
      }
    }
  }
}
