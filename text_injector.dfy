/** Delivery of a transcription (`TextInjector` in Sources/Injection/TextInjector.swift):
    the frontmost application is remembered when recording starts; delivery copies the
    text to the clipboard, re-activates that application and polls until it is frontmost
    (at most twenty times), then posts a "press ⌘V" notification with a preview. */
module Injection {
  import opened Wrappers

  /** An `NSRunningApplication`, known by its process identifier. */
  datatype RunningApp = RunningApp(processIdentifier: int)

  /** What `NSWorkspace.shared.frontmostApplication` answers on the k-th look of the
      polling loop (k = 0 is the first test of the loop condition). */
  type FrontmostOracle = nat -> Option<RunningApp>

  /** The side effects `injectText` has on the rest of the system, in order. */
  datatype Effect =
    | ClipboardWrite(text: string)
    | Activate(app: RunningApp)
    | Sleep(nanoseconds: nat)
    | Notify(title: string, body: string)

  const MaxFocusAttempts: nat := 20
  const PollIntervalNanoseconds: nat := 25_000_000
  const PreviewLength: nat := 50
  const NotificationTitle := "Speech Ready"
  const NotificationLead := "Press ⌘V to paste: "
  const Ellipsis := "..."

  /** The text the clipboard holds after these effects: the last one written. */
  function ClipboardAfter(effects: seq<Effect>, before: Option<string>): Option<string>
  {
    if |effects| == 0 then before
    else match effects[|effects| - 1]
      case ClipboardWrite(t) => Some(t)
      case _ => ClipboardAfter(effects[..|effects| - 1], before)
  }

  predicate IsFrontmost(frontmost: FrontmostOracle, app: RunningApp, k: nat) {
    frontmost(k).Some? && frontmost(k).value.processIdentifier == app.processIdentifier
  }

  /** The number of sleeps of the polling loop entered at attempt `k`: it stops at the first
      look that finds `app` frontmost, and after the twentieth sleep at the latest. */
  function FocusPollsFrom(frontmost: FrontmostOracle, app: RunningApp, k: nat): (n: nat)
    requires k <= MaxFocusAttempts
    ensures k <= n <= MaxFocusAttempts
    ensures n < MaxFocusAttempts ==> IsFrontmost(frontmost, app, n)
    ensures forall j :: k <= j < n ==> !IsFrontmost(frontmost, app, j)
    decreases MaxFocusAttempts - k
  {
    if IsFrontmost(frontmost, app, k) || k == MaxFocusAttempts then k
    else FocusPollsFrom(frontmost, app, k + 1)
  }

  function Sleeps(n: nat): (r: seq<Effect>)
    ensures |r| == n && forall i :: 0 <= i < n ==> r[i] == Sleep(PollIntervalNanoseconds)
  {
    seq(n, _ => Sleep(PollIntervalNanoseconds))
  }

  /** The notification preview: the first fifty characters. */
  function NotificationPreview(text: string): (p: string)
    ensures |p| == if |text| < PreviewLength then |text| else PreviewLength
    ensures p <= text
  {
    if |text| < PreviewLength then text else text[..PreviewLength]
  }

  /** The notification body as `injectText` builds it: "..." is appended when the preview
      has fifty or more characters. */
  function NotificationBodyAsWritten(preview: string): (r: string)
    ensures |r| == |NotificationLead| + |preview| + (if |preview| >= PreviewLength then |Ellipsis| else 0)
    ensures r[..|NotificationLead|] == NotificationLead
    ensures r[|NotificationLead|..|NotificationLead| + |preview|] == preview
  {
    NotificationLead + preview + (if |preview| >= PreviewLength then Ellipsis else "")
  }

  /** A text of exactly fifty characters is shown whole and yet followed by "...", as if
      it had been cut. */
  lemma FiftyCharacterTextGetsEllipsis(text: string)
    requires |text| == PreviewLength
    ensures NotificationPreview(text) == text
    ensures NotificationBodyAsWritten(NotificationPreview(text)) == NotificationLead + text + Ellipsis
  {
  }

  /** The notification body with "..." exactly when the preview cut something off. */
  function NotificationBody(text: string): (body: string)
    ensures |text| <= PreviewLength ==> body == NotificationLead + text
    ensures |text| > PreviewLength ==> body == NotificationLead + text[..PreviewLength] + Ellipsis
  {
    var preview := NotificationPreview(text);
    NotificationLead + preview + (if |preview| < |text| then Ellipsis else "")
  }

  /** The corrected body agrees with the written one everywhere except on texts of exactly
      fifty characters, and its preview never exceeds fifty characters. */
  lemma NotificationBodyCorrection(text: string)
    ensures |text| != PreviewLength <==> NotificationBody(text) == NotificationBodyAsWritten(NotificationPreview(text))
    ensures |NotificationBody(text)| <= |NotificationLead| + PreviewLength + |Ellipsis|
  {
    var p := NotificationPreview(text);
    if |text| == PreviewLength {
      assert |NotificationBody(text)| != |NotificationBodyAsWritten(p)|;
    }
  }

  /** Everything `injectText(text)` does to the system, given the application saved by
      `saveFocusedApp` and what the frontmost application is on each look. */
  function InjectionEffects(text: string, saved: Option<RunningApp>, frontmost: FrontmostOracle): (r: seq<Effect>)
    ensures 2 <= |r| <= 3 + MaxFocusAttempts
    ensures saved.Some? ==> r[1] == Activate(saved.value)
    ensures forall i :: (if saved.Some? then 2 else 1) <= i < |r| - 1 ==> r[i] == Sleep(PollIntervalNanoseconds)
  {
    [ClipboardWrite(text)]
    + (match saved
       case Some(app) => [Activate(app)] + Sleeps(FocusPollsFrom(frontmost, app, 0))
       case None => [])
    + [Notify(NotificationTitle, NotificationBodyAsWritten(NotificationPreview(text)))]
  }

  /** Delivery writes the clipboard first and posts the notification last; after it the
      clipboard holds exactly the text. Focus is restored (one activation, at most twenty
      sleeps) only when an application was saved. */
  lemma InjectionEffectsOrder(text: string, saved: Option<RunningApp>, frontmost: FrontmostOracle, before: Option<string>)
    ensures var e := InjectionEffects(text, saved, frontmost);
      && e[0] == ClipboardWrite(text)
      && e[|e| - 1] == Notify(NotificationTitle, NotificationBodyAsWritten(NotificationPreview(text)))
      && ClipboardAfter(e, before) == Some(text)
      && (saved.None? <==> |e| == 2)
      && |e| <= 3 + MaxFocusAttempts
      && (forall i :: 0 < i < |e| ==> !e[i].ClipboardWrite?)
  {
    var e := InjectionEffects(text, saved, frontmost);
    var mid := match saved
       case Some(app) => [Activate(app)] + Sleeps(FocusPollsFrom(frontmost, app, 0))
       case None => [];
    assert e == [ClipboardWrite(text)] + mid + [Notify(NotificationTitle, NotificationBodyAsWritten(NotificationPreview(text)))];
    assert forall i :: 0 <= i < |mid| ==> !mid[i].ClipboardWrite?;
    ClipboardSkipsOtherEffects([ClipboardWrite(text)], mid + [Notify(NotificationTitle, NotificationBodyAsWritten(NotificationPreview(text)))], before);
    assert e == [ClipboardWrite(text)] + (mid + [Notify(NotificationTitle, NotificationBodyAsWritten(NotificationPreview(text)))]);
  }

  /** Effects other than clipboard writes leave the clipboard as it was. */
  lemma {:induction false} ClipboardSkipsOtherEffects(e: seq<Effect>, tail: seq<Effect>, before: Option<string>)
    requires forall i :: 0 <= i < |tail| ==> !tail[i].ClipboardWrite?
    ensures ClipboardAfter(e + tail, before) == ClipboardAfter(e, before)
    decreases |tail|
  {
    if |tail| > 0 {
      var last := tail[|tail| - 1];
      assert (e + tail)[|e + tail| - 1] == last && !last.ClipboardWrite?;
      assert (e + tail)[..|e + tail| - 1] == e + tail[..|tail| - 1];
      ClipboardSkipsOtherEffects(e, tail[..|tail| - 1], before);
    } else {
      assert e + tail == e;
    }
  }

  class TextInjector {
    var previousApp: Option<RunningApp>
    /** The effects delivered to the system so far. */
    ghost var effects: seq<Effect>

    constructor ()
      ensures previousApp.None? && effects == []
    {
      previousApp := None;
      effects := [];
    }

    /** `saveFocusedApp()`: remembers the current frontmost application (or none). */
    method SaveFocusedApp(frontmost: Option<RunningApp>)
      modifies this`previousApp
      ensures previousApp == frontmost
    {
      previousApp := frontmost;
    }

    /** The polling loop of `injectText`: sleeps until `app` is frontmost, twenty times
        at most. */
    method WaitForFocus(app: RunningApp, frontmost: FrontmostOracle)
      modifies this`effects
      ensures effects == old(effects) + Sleeps(FocusPollsFrom(frontmost, app, 0))
    {
      var attempts := 0;
      while !IsFrontmost(frontmost, app, attempts) && attempts < MaxFocusAttempts
        invariant attempts <= FocusPollsFrom(frontmost, app, 0)
        invariant FocusPollsFrom(frontmost, app, attempts) == FocusPollsFrom(frontmost, app, 0)
        invariant effects == old(effects) + Sleeps(attempts)
        decreases MaxFocusAttempts - attempts
      {
        assert Sleeps(attempts + 1) == Sleeps(attempts) + [Sleep(PollIntervalNanoseconds)];
        effects := effects + [Sleep(PollIntervalNanoseconds)];
        attempts := attempts + 1;
      }
      assert attempts == FocusPollsFrom(frontmost, app, attempts);
    }

    /** `injectText(_:)`. */
    method InjectText(text: string, frontmost: FrontmostOracle)
      modifies this
      ensures previousApp.None?
      ensures effects == old(effects) + InjectionEffects(text, old(previousApp), frontmost)
    {
      var copy := [ClipboardWrite(text)];
      var notify := [Notify(NotificationTitle, NotificationBodyAsWritten(NotificationPreview(text)))];
      ghost var all := InjectionEffects(text, previousApp, frontmost);
      effects := effects + copy;
      if previousApp.Some? {
        var app := previousApp.value;
        effects := effects + [Activate(app)];
        WaitForFocus(app, frontmost);
        ghost var mid := [Activate(app)] + Sleeps(FocusPollsFrom(frontmost, app, 0));
        assert all == copy + mid + notify;
        assert effects == old(effects) + (copy + mid);
      } else {
        assert all == copy + notify;
      }
      effects := effects + notify;
      previousApp := None;
    }
  }
}
