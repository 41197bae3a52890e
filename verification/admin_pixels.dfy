/** The tracking-pixel settings screen: masking of the tracking ids, the
    "Active"/"Inactive" status of each tracker, and the choice made by the
    "test" buttons. Whether the tracking scripts are loaded is a parameter. */
module AdminPixels {
  import opened Types
  import opened Text

  datatype PixelSettings = PixelSettings(
    facebookPixelId: string,
    facebookPixelEnabled: bool,
    googleAnalyticsId: string,
    googleAnalyticsEnabled: bool,
    googleTagManagerId: string,
    googleTagManagerEnabled: bool)

  // ---------------------------------------------------------------- masking

  /** Whether position `i` of an id of length `n` is shown: everything when
      the id is revealed (or empty), the first and last four characters of a
      hidden id longer than eight, nothing of a shorter hidden id. */
  predicate Revealed(n: nat, show: bool, i: nat)
  {
    show || (n > 8 && (i < 4 || i >= n - 4))
  }

  /** `maskId`: the id as displayed. */
  function MaskId(id: string, show: bool): (r: string)
    ensures |r| == |id|
    ensures id == "" || show ==> r == id
    ensures !show && 0 < |id| <= 8 ==> forall i :: 0 <= i < |r| ==> r[i] == '*'
    ensures !show && |id| > 8 ==>
      r[..4] == id[..4] && r[|id| - 4..] == id[|id| - 4..] && forall i :: 4 <= i < |id| - 4 ==> r[i] == '*'
  {
    if id == "" || show then id
    else if |id| <= 8 then Repeat('*', |id|)
    else id[..4] + Repeat('*', |id| - 8) + id[|id| - 4..]
  }

  /** Position by position, the masked id shows the character of the id
      where it is revealed and `*` elsewhere. */
  lemma {:induction false} MaskIdAt(id: string, show: bool, i: nat)
    requires i < |id|
    ensures MaskId(id, show)[i] == if Revealed(|id|, show, i) then id[i] else '*'
  {
    var r := MaskId(id, show);
    if !show && |id| > 8 {
      if i < 4 {
        assert r[i] == r[..4][i];
      } else if i >= |id| - 4 {
        assert r[i] == r[|id| - 4..][i - (|id| - 4)];
      }
    }
  }

  /** Masking an already masked id changes nothing. */
  lemma {:induction false} MaskIdIdempotent(id: string)
    ensures MaskId(MaskId(id, false), false) == MaskId(id, false)
  {
    var m := MaskId(id, false);
    var mm := MaskId(m, false);
    forall i | 0 <= i < |id|
      ensures mm[i] == m[i]
    {
      MaskIdAt(id, false, i);
      MaskIdAt(m, false, i);
    }
  }

  // ----------------------------------------------------------------- status

  datatype Tracker = FacebookPixel | GoogleAnalytics | TagManager

  /** A tracker is active when it is enabled and its id is not empty. */
  predicate Active(s: PixelSettings, t: Tracker)
  {
    match t
    case FacebookPixel => s.facebookPixelEnabled && s.facebookPixelId != ""
    case GoogleAnalytics => s.googleAnalyticsEnabled && s.googleAnalyticsId != ""
    case TagManager => s.googleTagManagerEnabled && s.googleTagManagerId != ""
  }

  /** The text of the "Implementation Status" card of a tracker. */
  function StatusText(s: PixelSettings, t: Tracker): (text: string)
    ensures text == "Active" || text == "Inactive"
    ensures text == "Active" <==> Active(s, t)
  {
    if Active(s, t) then "Active" else "Inactive"
  }

  /** Disabling a tracker or clearing its id always shows it inactive. */
  lemma {:induction false} DisabledOrEmptyIsInactive(s: PixelSettings)
    ensures !s.facebookPixelEnabled || s.facebookPixelId == "" ==> StatusText(s, FacebookPixel) == "Inactive"
    ensures !s.googleAnalyticsEnabled || s.googleAnalyticsId == "" ==> StatusText(s, GoogleAnalytics) == "Inactive"
    ensures !s.googleTagManagerEnabled || s.googleTagManagerId == "" ==> StatusText(s, TagManager) == "Inactive"
  {
  }

  // ------------------------------------------------------------ test button

  datatype PixelType = Facebook | Google

  /** A call made into a tracking script. */
  datatype TrackingCall =
    | FbqTrack(eventName: string)
    | GtagEvent(eventName: string, category: string, eventLabel: string)

  /** What a press of a "test" button does: at most one tracking call, and
      one alert. */
  datatype TestResult = TestResult(call: Option<TrackingCall>, alert: string)

  const ConfigureFirst := "Please enable and configure the pixel first."
  const FacebookNotLoaded := "Facebook Pixel not loaded. Please save settings first."
  const GoogleNotLoaded := "Google Analytics not loaded. Please save settings first."
  const FacebookSent := "Facebook Pixel test event sent!"
  const GoogleSent := "Google Analytics test event sent!"

  /** `testPixel`: `fbqLoaded` and `gtagLoaded` say whether the global
      `fbq` and `gtag` functions exist. */
  function TestPixel(s: PixelSettings, kind: PixelType, fbqLoaded: bool, gtagLoaded: bool): (r: TestResult)
    ensures r.call.Some? <==>
      (kind == Facebook && Active(s, FacebookPixel) && fbqLoaded)
      || (kind == Google && Active(s, GoogleAnalytics) && gtagLoaded)
    ensures r.call.Some? ==>
      r.call.value == if kind == Facebook then FbqTrack("PageView") else GtagEvent("test_event", "admin_test", "pixel_test")
    ensures !(kind == Facebook && Active(s, FacebookPixel)) && !(kind == Google && Active(s, GoogleAnalytics)) ==>
      r.alert == ConfigureFirst
    ensures kind == Facebook && Active(s, FacebookPixel) && !fbqLoaded ==> r.alert == FacebookNotLoaded
    ensures kind == Google && Active(s, GoogleAnalytics) && !gtagLoaded ==> r.alert == GoogleNotLoaded
    ensures r.call.Some? ==> r.alert == if kind == Facebook then FacebookSent else GoogleSent
  {
    if kind == Facebook && s.facebookPixelEnabled && s.facebookPixelId != "" then
      if fbqLoaded then TestResult(Some(FbqTrack("PageView")), FacebookSent)
      else TestResult(None, FacebookNotLoaded)
    else if kind == Google && s.googleAnalyticsEnabled && s.googleAnalyticsId != "" then
      if gtagLoaded then TestResult(Some(GtagEvent("test_event", "admin_test", "pixel_test")), GoogleSent)
      else TestResult(None, GoogleNotLoaded)
    else TestResult(None, ConfigureFirst)
  }
}
