/** The application shell: whether the opening sequence is still showing, which
    top-level view is current, how navigation changes it, and which audio track
    plays for it. */
module App {

  /** The top-level views, named 'home', 'gallery' and 'message' in the source. */
  datatype View = Home | Gallery | Message

  function ViewName(v: View): (r: string)
    ensures |r| > 0
  {
    match v
    case Home => "home"
    case Gallery => "gallery"
    case Message => "message"
  }

  /** Distinct views have distinct names. */
  lemma ViewNameInjective(v: View, w: View)
    ensures ViewName(v) == ViewName(w) <==> v == w
  {
    if v != w {
      assert ViewName(v)[0] != ViewName(w)[0] || |ViewName(v)| != |ViewName(w)|;
    }
  }

  /** The two audio tracks: the main song, and the one played on the message view.
      The audio element's source only ever holds one of their two URLs. */
  datatype Track = MainTrack | MessageTrack

  /** The track the view calls for: the message track on the message view, the main
      track everywhere else. */
  function SelectedTrack(v: View): (t: Track)
    ensures t == MessageTrack <==> v == Message
  {
    if v == Message then MessageTrack else MainTrack
  }

  /** `handleNavigate`'s effect on the current view. Home is not a view of its own
      once the opening is over: asking for it shows the gallery (scrolled to its top). */
  function NavigateView(current: View, target: View): (r: View)
    ensures r != Home
    ensures r == if target == Home then Gallery else target
  {
    if target == Home then
      if current == Gallery then current else Gallery
    else target
  }

  /** The view after a series of navigations. */
  function NavigateAll(current: View, targets: seq<View>): View
    decreases |targets|
  {
    if targets == [] then current else NavigateAll(NavigateView(current, targets[0]), targets[1..])
  }

  /** After any non-empty series of navigations the view is the last one asked for,
      with home read as the gallery; it is never home. */
  lemma {:induction false} NavigateAllIsLast(current: View, targets: seq<View>)
    requires targets != []
    ensures var last := targets[|targets| - 1];
      NavigateAll(current, targets) == (if last == Home then Gallery else last)
    ensures NavigateAll(current, targets) != Home
    decreases |targets|
  {
    if |targets| > 1 {
      NavigateAllIsLast(NavigateView(current, targets[0]), targets[1..]);
    }
  }

  /** The audio element as far as the shell's effect is concerned. */
  datatype Audio = Audio(src: Track, playing: bool)

  /** The audio effect run when the view changes: the source is reassigned only when
      it differs from the selected track, and playback resumes after the switch
      exactly when it was playing before. */
  function SwitchAudio(a: Audio, v: View): (r: Audio)
    ensures r.src == SelectedTrack(v)
    ensures r.playing == a.playing
  {
    var track := SelectedTrack(v);
    if a.src != track then Audio(track, a.playing) else a
  }

  /** Running the audio effect again for the same view changes nothing. */
  lemma SwitchAudioIdempotent(a: Audio, v: View)
    ensures SwitchAudio(SwitchAudio(a, v), v) == SwitchAudio(a, v)
  {
  }

  /** The shell's state: the two state variables and the audio element. */
  class Shell {
    var showOpening: bool
    var currentView: View
    var audio: Audio

    /** The opening shows exactly while the view is home. */
    ghost predicate Valid()
      reads this
    {
      showOpening <==> currentView == Home
    }

    /** The opening is showing, the view is home, the main track is loaded and paused. */
    constructor ()
      ensures Valid()
      ensures showOpening && currentView == Home && audio == Audio(MainTrack, false)
    {
      showOpening := true;
      currentView := Home;
      audio := Audio(MainTrack, false);
    }

    /** `startExperience`, passed to the opening as its start callback: playback starts. */
    method StartExperience()
      requires Valid()
      modifies this
      ensures Valid()
      ensures audio == old(audio).(playing := true)
      ensures showOpening == old(showOpening) && currentView == old(currentView)
    {
      audio := audio.(playing := true);
    }

    /** `handleOpeningComplete`: the opening goes away and the gallery shows. */
    method HandleOpeningComplete()
      requires Valid()
      modifies this
      ensures Valid()
      ensures !showOpening && currentView == Gallery && audio == old(audio)
    {
      showOpening := false;
      currentView := Gallery;
    }

    /** `handleNavigate`, reachable only from the navigation bar, which is shown only
        after the opening. `scrollHome` says whether the page is asked to scroll to
        the hero section, which happens exactly when home is asked for. */
    method HandleNavigate(view: View) returns (scrollHome: bool)
      requires Valid() && !showOpening
      modifies this
      ensures Valid() && !showOpening
      ensures currentView == NavigateView(old(currentView), view)
      ensures scrollHome <==> view == Home
      ensures audio == old(audio)
    {
      if view == Home {
        if currentView != Gallery {
          currentView := Gallery;
        }
        scrollHome := true;
      } else {
        currentView := view;
        scrollHome := false;
      }
    }

    /** The effect that follows `currentView`. `reassigned` says whether the source
        was set. */
    method SyncAudio() returns (reassigned: bool)
      requires Valid()
      modifies this
      ensures Valid()
      ensures audio == SwitchAudio(old(audio), currentView)
      ensures reassigned <==> old(audio).src != SelectedTrack(currentView)
      ensures showOpening == old(showOpening) && currentView == old(currentView)
    {
      var track := if currentView == Message then MessageTrack else MainTrack;
      reassigned := audio.src != track;
      if reassigned {
        var isPlaying := audio.playing;
        audio := Audio(track, false);
        if isPlaying {
          audio := audio.(playing := true);
        }
      }
    }
  }
}
