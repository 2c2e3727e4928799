/** What the page shows that the mixer reads back or that the model states:
    the channel sliders, the master slider, the highlighted preset, the timer
    text and the save dialog. */
module Ui {
  import opened Wrappers
  import opened Levels
  import opened Decimal
  import Catalog

  datatype TimerDisplay = TimerDisplay(text: string, hidden: bool)

  /** `sliders` holds the volume slider of every rendered channel card. */
  datatype View = View(
    sliders: map<string, Level>,
    masterSlider: Level,
    activePreset: Option<string>,
    timerDisplay: TimerDisplay,
    modalOpen: bool)

  /** The page after the cards are rendered: one slider per catalog channel,
      at 0. */
  function Rendered(): (v: View)
    ensures v.sliders.Keys == Catalog.ChannelIds
    ensures forall id :: id in v.sliders ==> v.sliders[id] == 0
    ensures v.timerDisplay.hidden && !v.modalOpen && v.activePreset == None
  {
    View(map id | id in Catalog.ChannelIds :: 0, 100, None, TimerDisplay("", true), false)
  }

  /** `updateVolumeDisplay(id, volume)`: moves that channel's slider, when
      the channel has a card, and no other. */
  function UpdateVolumeDisplay(v: View, id: string, volume: Level): (r: View)
    ensures r.sliders.Keys == v.sliders.Keys
    ensures id in v.sliders ==> r.sliders[id] == volume
    ensures forall other :: other in v.sliders && other != id ==> r.sliders[other] == v.sliders[other]
    ensures r.(sliders := v.sliders) == v
  {
    if id in v.sliders then v.(sliders := v.sliders[id := volume]) else v
  }

  /** `updateVolumeDisplay` for every entry of `volumes`, whose ids are
      distinct, so the order does not matter. */
  function UpdateVolumeDisplays(v: View, volumes: map<string, Level>): (r: View)
    ensures r.sliders.Keys == v.sliders.Keys
    ensures forall id :: id in v.sliders && id in volumes ==> r.sliders[id] == volumes[id]
    ensures forall id :: id in v.sliders && id !in volumes ==> r.sliders[id] == v.sliders[id]
    ensures r.(sliders := v.sliders) == v
  {
    v.(sliders := map id | id in v.sliders :: if id in volumes then volumes[id] else v.sliders[id])
  }

  /** `resetUI()`: every channel slider to 0, the master slider to 100. */
  function ResetUI(v: View): (r: View)
    ensures r.sliders.Keys == v.sliders.Keys
    ensures forall id :: id in r.sliders ==> r.sliders[id] == 0
    ensures r.masterSlider == 100
    ensures r.activePreset == v.activePreset && r.timerDisplay == v.timerDisplay && r.modalOpen == v.modalOpen
  {
    v.(sliders := map id | id in v.sliders :: 0, masterSlider := 100)
  }

  /** `padStart(width, fill)`: fills on the left up to `width` characters and
      never cuts. */
  function PadStart(s: string, width: nat, fill: char): (r: string)
    ensures |s| >= width ==> r == s
    ensures |s| < width ==> |r| == width
    ensures |r| >= |s| && r[|r| - |s|..] == s
    ensures forall i :: 0 <= i < |r| - |s| ==> r[i] == fill
    decreases width - |s|
  {
    if |s| >= width then
      s
    else
      var t := [fill] + s;
      var r := PadStart(t, width, fill);
      var k := |r| - |t|;
      assert r[k..] == t;
      assert r[k + 1..] == t[1..] == s;
      assert r[k] == fill;
      r
  }

  /** `n.toString().padStart(2, '0')`. */
  function Pad2(n: nat): (s: string)
    ensures n < 10 ==> s == ['0', DigitChar(n)]
    ensures 10 <= n < 100 ==> |s| == 2 && s == NatToString(n)
    ensures n >= 100 ==> |s| >= 3 && s == NatToString(n)
  {
    NumeralLength(n);
    PadStart(NatToString(n), 2, '0')
  }

  lemma Pad2Length(n: nat)
    ensures |Pad2(n)| >= 2
    ensures n < 100 ==> |Pad2(n)| == 2
  {
  }

  /** The padded field reads back as the number it shows. */
  lemma Pad2ReadsBack(n: nat)
    ensures ParseDigits(Pad2(n)) == n
  {
    ParseNatToString(n);
    if n < 10 {
      assert Pad2(n) == "0" + NatToString(n);
      ParseLeadingZero(NatToString(n));
    }
  }

  /** The `MM:SS` text of the timer display. */
  function ClockText(minutes: nat, seconds: nat): (text: string)
    ensures |text| >= 5
    ensures seconds < 100 ==> text[|text| - 3] == ':'
  {
    var a, b := Pad2(minutes), Pad2(seconds);
    Pad2Length(minutes);
    Pad2Length(seconds);
    assert |b| == 2 ==> |a + ":" + b| - 3 == |a|;
    a + ":" + b
  }

  /** Reads `MM:SS` text back: everything before the last three characters
      is minutes, the last two are seconds. */
  function ParseClock(text: string): (nat, nat)
  {
    if |text| < 3 then (0, 0) else (ParseDigits(text[..|text| - 3]), ParseDigits(text[|text| - 2..]))
  }

  lemma SecondsTakeTwoCharacters(seconds: nat)
    requires seconds < 100
    ensures |Pad2(seconds)| == 2
  {
  }

  lemma SplitClock(a: string, b: string)
    requires |b| == 2
    ensures var text := a + ":" + b;
      && text[..|text| - 3] == a && text[|text| - 2..] == b && text[|text| - 3] == ':'
  {
  }

  /** The timer text is at least `MM:SS` long, and for a seconds field below
      60 its colon sits third from the end and it reads back as shown. */
  lemma ClockShape(minutes: nat, seconds: nat)
    ensures |ClockText(minutes, seconds)| >= 5
    ensures seconds < 60 ==>
              var text := ClockText(minutes, seconds);
              text[|text| - 3] == ':' && ParseClock(text) == (minutes, seconds)
  {
    var a, b := Pad2(minutes), Pad2(seconds);
    assert ClockText(minutes, seconds) == a + ":" + b;
    if seconds < 60 {
      Pad2ReadsBack(minutes);
      Pad2ReadsBack(seconds);
      SecondsTakeTwoCharacters(seconds);
      SplitClock(a, b);
    }
  }

  /** `updateTimerDisplay(minutes, seconds)`: hidden when both are 0 (the
      text is then left as it was); otherwise shown, as `MM:SS`. */
  function UpdateTimerDisplay(d: TimerDisplay, minutes: nat, seconds: nat): (r: TimerDisplay)
    ensures r.hidden <==> minutes == 0 && seconds == 0
    ensures r.hidden ==> r.text == d.text
    ensures !r.hidden ==> r.text == ClockText(minutes, seconds)
  {
    if minutes > 0 || seconds > 0 then
      TimerDisplay(ClockText(minutes, seconds), false)
    else
      d.(hidden := true)
  }

  /** Whenever the timer text is shown for a seconds field below 60, it is at
      least `MM:SS` long, its colon sits third from the end, and it reads back
      as the minutes and seconds it was given. */
  lemma ShownTimerReadsBack(d: TimerDisplay, minutes: nat, seconds: nat)
    requires seconds < 60 && (minutes > 0 || seconds > 0)
    ensures var r := UpdateTimerDisplay(d, minutes, seconds);
      && !r.hidden && |r.text| >= 5 && r.text[|r.text| - 3] == ':'
      && ParseClock(r.text) == (minutes, seconds)
  {
    ClockShape(minutes, seconds);
  }

  /** `setActivePreset(key)`. */
  function SetActivePreset(v: View, key: Option<string>): (r: View)
    ensures r.activePreset == key
    ensures r.(activePreset := v.activePreset) == v
  {
    v.(activePreset := key)
  }

  function ShowModal(v: View): (r: View)
    ensures r.modalOpen && r.(modalOpen := v.modalOpen) == v
  {
    v.(modalOpen := true)
  }

  function HideModal(v: View): (r: View)
    ensures !r.modalOpen && r.(modalOpen := v.modalOpen) == v
  {
    v.(modalOpen := false)
  }
}
