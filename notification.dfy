/** The focus and notification rules of the socket provider, as a state
    machine over the page's focus flag, the remembered transcript length,
    the document title and the number of alerts (title flash plus sound)
    raised so far. The provider class updates its fields exactly as these
    functions say; the lemmas below are about whole runs of events. */
module Notification {

  /** The page title the layout sets and a focus restores. */
  const PageTitle: string := "E-Connect"
  /** The title shown by an alert ("fire" emoji, a space, then the name). */
  const AlertTitle: string := "\U{1F525} E-Connect"

  datatype Monitor = Monitor(focused: bool, lastCount: nat, title: string, alerts: nat)

  /** The monitor of a provider whose transcript holds `len` entries. */
  function Initial(len: nat): (s: Monitor)
    ensures s.focused && s.lastCount == len && s.title == PageTitle && s.alerts == 0
  {
    Monitor(true, len, PageTitle, 0)
  }

  /** The alert condition of the notification effect. */
  predicate Fires(s: Monitor, len: nat)
  {
    !s.focused && len > s.lastCount
  }

  /** The notification effect, run after every change of the transcript
      or of the focus flag: alert if the condition holds, then remember
      the current length. */
  function Effect(s: Monitor, len: nat): (r: Monitor)
    ensures r.lastCount == len && r.focused == s.focused
    ensures r.alerts == s.alerts + 1 <==> Fires(s, len)
    ensures r.alerts == s.alerts <==> !Fires(s, len)
    ensures Fires(s, len) ==> r.title == AlertTitle
    ensures !Fires(s, len) ==> r.title == s.title
  {
    if Fires(s, len) then
      Monitor(s.focused, len, AlertTitle, s.alerts + 1)
    else
      Monitor(s.focused, len, s.title, s.alerts)
  }

  /** The window `focus` handler. */
  function OnFocus(s: Monitor, len: nat): (r: Monitor)
    ensures r.focused && r.title == PageTitle && r.lastCount == len
    ensures r.alerts == s.alerts
  {
    s.(focused := true, title := PageTitle, lastCount := len)
  }

  /** The window `blur` handler: it only clears the focus flag. */
  function OnBlur(s: Monitor): (r: Monitor)
    ensures !r.focused
    ensures r.(focused := s.focused) == s
  {
    s.(focused := false)
  }

  /** What the event loop dispatches: an append to the transcript (a local
      send or a reception), a window focus, or a window blur. */
  datatype Event = Append | Focus | Blur

  /** One event: the handler, then the effect. Returns the new monitor and
      the new transcript length. */
  function Step(s: Monitor, len: nat, e: Event): (Monitor, nat)
  {
    match e
    case Append => (Effect(s, len + 1), len + 1)
    case Focus => (Effect(OnFocus(s, len), len), len)
    case Blur => (Effect(OnBlur(s), len), len)
  }

  /** A run of events from monitor `s` and transcript length `len`. */
  function Replay(s: Monitor, len: nat, evs: seq<Event>): (Monitor, nat)
    decreases |evs|
  {
    if evs == [] then (s, len)
    else
      var next := Step(s, len, evs[0]);
      Replay(next.0, next.1, evs[1..])
  }

  /** The focus flag after a run that starts with focus flag `focused`. */
  function FocusAfter(focused: bool, evs: seq<Event>): bool
    decreases |evs|
  {
    if evs == [] then focused
    else
      match evs[0]
      case Append => FocusAfter(focused, evs[1..])
      case Focus => FocusAfter(true, evs[1..])
      case Blur => FocusAfter(false, evs[1..])
  }

  /** The number of appends in a run. */
  function Appends(evs: seq<Event>): nat
    decreases |evs|
  {
    if evs == [] then 0
    else (if evs[0] == Append then 1 else 0) + Appends(evs[1..])
  }

  /** The number of appends in a run that happen while the page is not
      focused, the run starting with focus flag `focused`. */
  function UnfocusedAppends(focused: bool, evs: seq<Event>): nat
    decreases |evs|
  {
    if evs == [] then 0
    else
      match evs[0]
      case Append => (if focused then 0 else 1) + UnfocusedAppends(focused, evs[1..])
      case Focus => UnfocusedAppends(true, evs[1..])
      case Blur => UnfocusedAppends(false, evs[1..])
  }

  /** Over any run that starts in sync (the remembered length equals the
      transcript length, as after every effect), exactly one alert is raised
      per append that happens while the page is unfocused, and none
      otherwise; afterwards the remembered length is again the transcript
      length. */
  lemma {:induction false} ReplayAlerts(s: Monitor, len: nat, evs: seq<Event>)
    requires s.lastCount == len
    ensures Replay(s, len, evs).1 == len + Appends(evs)
    ensures Replay(s, len, evs).0.lastCount == Replay(s, len, evs).1
    ensures Replay(s, len, evs).0.focused == FocusAfter(s.focused, evs)
    ensures Replay(s, len, evs).0.alerts == s.alerts + UnfocusedAppends(s.focused, evs)
    decreases |evs|
  {
    if evs != [] {
      var next := Step(s, len, evs[0]);
      ReplayAlerts(next.0, next.1, evs[1..]);
    }
  }

  lemma {:induction false} NoBlurNoUnfocusedAppend(focused: bool, evs: seq<Event>)
    requires focused
    requires forall i :: 0 <= i < |evs| ==> evs[i] != Blur
    ensures UnfocusedAppends(focused, evs) == 0
    decreases |evs|
  {
    if evs != [] {
      NoBlurNoUnfocusedAppend(true, evs[1..]);
    }
  }

  /** A run without a blur, started in sync while focused, raises no alert
      however many messages it appends. */
  lemma FocusedRunIsSilent(s: Monitor, len: nat, evs: seq<Event>)
    requires s.focused && s.lastCount == len
    requires forall i :: 0 <= i < |evs| ==> evs[i] != Blur
    ensures Replay(s, len, evs).0.alerts == s.alerts
  {
    ReplayAlerts(s, len, evs);
    NoBlurNoUnfocusedAppend(s.focused, evs);
  }

  /** A blur by itself raises no alert and leaves the title alone, since
      the remembered length is already the transcript length. */
  lemma BlurIsSilent(s: Monitor, len: nat)
    requires s.lastCount == len
    ensures Step(s, len, Blur).0.alerts == s.alerts
    ensures Step(s, len, Blur).0.title == s.title
    ensures !Step(s, len, Blur).0.focused
  {
  }

  /** `m` appends in a row. */
  function AppendRun(m: nat): (evs: seq<Event>)
    ensures |evs| == m
    ensures forall i :: 0 <= i < m ==> evs[i] == Append
  {
    seq(m, _ => Append)
  }

  lemma {:induction false} UnfocusedRunCount(m: nat)
    ensures UnfocusedAppends(false, AppendRun(m)) == m
    ensures Appends(AppendRun(m)) == m
    ensures FocusAfter(false, AppendRun(m)) == false
  {
    if m > 0 {
      assert AppendRun(m)[1..] == AppendRun(m - 1);
      UnfocusedRunCount(m - 1);
    }
  }

  /** Leaving the page and then receiving `m` messages raises `m` alerts,
      one per message, not one per absence; coming back makes the
      remembered length the new transcript length and restores the title. */
  lemma AwayThenBack(s: Monitor, len: nat, m: nat)
    requires s.lastCount == len
    ensures var evs := [Blur] + AppendRun(m) + [Focus];
            var r := Replay(s, len, evs);
            r.0.alerts == s.alerts + m && r.1 == len + m &&
            r.0.lastCount == len + m && r.0.focused && r.0.title == PageTitle
  {
    var evs := [Blur] + AppendRun(m) + [Focus];
    ReplayAlerts(s, len, evs);
    assert evs[1..] == AppendRun(m) + [Focus];
    UnfocusedAppendsSplit(false, AppendRun(m), [Focus]);
    UnfocusedRunCount(m);
    assert evs == ([Blur] + AppendRun(m)) + [Focus];
    ReplaySplit(s, len, [Blur] + AppendRun(m), [Focus]);
  }

  lemma {:induction false} UnfocusedAppendsSplit(focused: bool, a: seq<Event>, b: seq<Event>)
    ensures UnfocusedAppends(focused, a + b) == UnfocusedAppends(focused, a) + UnfocusedAppends(FocusAfter(focused, a), b)
    ensures Appends(a + b) == Appends(a) + Appends(b)
    decreases |a|
  {
    if a == [] {
      assert a + b == b;
    } else {
      assert (a + b)[1..] == a[1..] + b;
      match a[0]
      case Append => UnfocusedAppendsSplit(focused, a[1..], b);
      case Focus => UnfocusedAppendsSplit(true, a[1..], b);
      case Blur => UnfocusedAppendsSplit(false, a[1..], b);
    }
  }

  lemma {:induction false} ReplaySplit(s: Monitor, len: nat, a: seq<Event>, b: seq<Event>)
    ensures Replay(s, len, a + b) == Replay(Replay(s, len, a).0, Replay(s, len, a).1, b)
    decreases |a|
  {
    if a == [] {
      assert a + b == b;
    } else {
      assert (a + b)[1..] == a[1..] + b;
      var next := Step(s, len, a[0]);
      ReplaySplit(next.0, next.1, a[1..], b);
    }
  }
}
