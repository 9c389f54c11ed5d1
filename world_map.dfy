/** The map panel of js/map.js: resolving the current scene to a map
    location, first from a `locations/<word>` chapter path, then from the
    first location id contained in the scene id; and showing or hiding the
    panel. */
module WorldMap {
  import opened Common
  import Story

  /** A point of interest, at percentages of the map's width and height. */
  datatype Location = Location(id: string, x: int, y: int, name: string)

  /** `initLocations()`, in declaration order, which is the order `for ... in`
      visits them. */
  const InitialLocations: seq<Location> := [
    Location("intro", 20, 15, "Starting Point"),
    Location("huntersOutpost", 35, 25, "Hunter's Outpost"),
    Location("forestPath", 50, 30, "Forest Path"),
    Location("riverCrossing", 65, 40, "River Crossing"),
    Location("mountainBase", 75, 55, "Mountain Base"),
    Location("crystalRidge", 85, 70, "Crystal Ridge"),
    Location("bearCave", 90, 80, "Bear Cave")
  ]

  // ---------------------------------------------------------------- matching

  /** The characters of the regular-expression class `\w`. */
  predicate IsWordChar(c: char) {
    ('a' <= c <= 'z') || ('A' <= c <= 'Z') || ('0' <= c <= '9') || c == '_'
  }

  /** Length of the run of word characters starting at `from`. */
  function WordRun(s: string, from: nat): (n: nat)
    requires from <= |s|
    ensures from + n <= |s|
    ensures forall i :: from <= i < from + n ==> IsWordChar(s[i])
    ensures from + n < |s| ==> !IsWordChar(s[from + n])
    decreases |s| - from
  {
    if from == |s| || !IsWordChar(s[from]) then 0 else 1 + WordRun(s, from + 1)
  }

  const Prefix: string := "locations/"

  /** The regular expression `locations\/(\w+)` matches at position `i`. */
  predicate MatchesAt(s: string, i: int) {
    0 <= i && i + |Prefix| < |s| && s[i..i + |Prefix|] == Prefix && IsWordChar(s[i + |Prefix|])
  }

  /** The group `(\w+)` of the leftmost match at or after `from`: the
      greedy run of word characters after the prefix. */
  function CaptureFrom(s: string, from: nat): (r: Option<string>)
    requires from <= |s|
    ensures r.None? <==> forall i :: from <= i <= |s| ==> !MatchesAt(s, i)
    ensures r.Some? ==>
      exists i :: from <= i <= |s| && MatchesAt(s, i)
        && r.value == s[i + |Prefix|..i + |Prefix| + WordRun(s, i + |Prefix|)]
        && forall j :: from <= j < i ==> !MatchesAt(s, j)
    decreases |s| - from
  {
    if MatchesAt(s, from) then Some(s[from + |Prefix|..from + |Prefix| + WordRun(s, from + |Prefix|)])
    else if from == |s| then None
    else CaptureFrom(s, from + 1)
  }

  /** `chapter.match(/locations\/(\w+)/)[1]`: a non-empty word. */
  function LocationCapture(chapter: string): (r: Option<string>)
    ensures r.Some? ==> |r.value| > 0 && forall k :: 0 <= k < |r.value| ==> IsWordChar(r.value[k])
    ensures r.None? <==> forall i :: 0 <= i <= |chapter| ==> !MatchesAt(chapter, i)
  {
    CaptureFrom(chapter, 0)
  }

  /** A chapter path of the form `locations/<word>`, followed by anything
      that is not a word character (an extension, say), yields the word. */
  lemma CapturePath(word: string, rest: string)
    requires |word| > 0 && forall k :: 0 <= k < |word| ==> IsWordChar(word[k])
    requires |rest| > 0 ==> !IsWordChar(rest[0])
    ensures LocationCapture(Prefix + word + rest) == Some(word)
  {
    var s := Prefix + word + rest;
    assert s[..|Prefix|] == Prefix;
    assert MatchesAt(s, 0);
    WordRunIs(s, |Prefix|, |word|);
    assert s[|Prefix|..|Prefix| + |word|] == word;
  }

  /** The run of word characters is exactly `n` long when `n` word
      characters are followed by the end or by a non-word character. */
  lemma {:induction false} WordRunIs(s: string, from: nat, n: nat)
    requires from + n <= |s|
    requires forall i :: from <= i < from + n ==> IsWordChar(s[i])
    requires from + n < |s| ==> !IsWordChar(s[from + n])
    ensures WordRun(s, from) == n
    decreases n
  {
    if n > 0 {
      WordRunIs(s, from + 1, n - 1);
    }
  }

  /** `t` occurs in `s` at position `i`. */
  predicate OccursAt(s: string, t: string, i: int) {
    0 <= i <= |s| - |t| && s[i..i + |t|] == t
  }

  /** `s.includes(t)` */
  predicate Contains(s: string, t: string) {
    exists i :: 0 <= i <= |s| - |t| && OccursAt(s, t, i)
  }

  /** The first location, in order, whose id the scene id contains. */
  function FirstContained(locations: seq<Location>, scene: string): (r: Option<string>)
    ensures r.None? <==> forall k :: 0 <= k < |locations| ==> !Contains(scene, locations[k].id)
    ensures r.Some? ==>
      exists k :: 0 <= k < |locations| && r.value == locations[k].id && Contains(scene, locations[k].id)
        && forall j :: 0 <= j < k ==> !Contains(scene, locations[j].id)
  {
    if |locations| == 0 then None
    else if Contains(scene, locations[0].id) then Some(locations[0].id)
    else
      var r := FirstContained(locations[1..], scene);
      assert forall k :: 0 <= k < |locations| - 1 ==> locations[1..][k] == locations[k + 1];
      r
  }

  /** A scene named exactly after a location resolves to it when no
      earlier location's id occurs in its name. */
  lemma SceneNamedAfterLocation(locations: seq<Location>, k: int)
    requires 0 <= k < |locations|
    requires forall j :: 0 <= j < k ==> !Contains(locations[k].id, locations[j].id)
    ensures FirstContained(locations, locations[k].id) == Some(locations[k].id)
  {
    var s := locations[k].id;
    assert OccursAt(s, s, 0);
    var r := FirstContained(locations, s);
    var m :| 0 <= m < |locations| && r.value == locations[m].id && Contains(s, locations[m].id)
             && forall j :: 0 <= j < m ==> !Contains(s, locations[j].id);
    assert m <= k;
  }

  /** The location `updatePlayerLocation()` settles on, or `None` when it
      keeps the current one. */
  function Resolve(index: Option<Story.StoryIndex>, scene: string, locations: seq<Location>): (r: Option<string>)
    ensures index.None? || scene == "" ==> r.None?
    ensures r.Some? ==>
      var chapter := Story.ChapterToLoad(index.value.sceneMapping, scene);
      chapter.Some?
      && r == (if LocationCapture(chapter.value).Some? then LocationCapture(chapter.value)
               else FirstContained(locations, scene))
  {
    if index.None? || scene == "" then None
    else match Story.ChapterToLoad(index.value.sceneMapping, scene)
      case None => None
      case Some(chapter) =>
        match LocationCapture(chapter)
        case Some(w) => Some(w)
        case None => FirstContained(locations, scene)
  }

  /** A scene whose chapter key is "" keeps the current location, even when
      a location's id occurs in the scene id. */
  lemma EmptyChapterKeepsLocation(chapters: map<string, string>, scene: string, locations: seq<Location>)
    requires scene != ""
    ensures Resolve(Some(Story.StoryIndex(chapters, [Story.ChapterScenes("", [scene])])), scene, locations).None?
  {
    Story.EmptyKeyIsNoChapter(scene, []);
    assert [Story.ChapterScenes("", [scene])] + [] == [Story.ChapterScenes("", [scene])];
  }

  /** `getMapData()` without the fixed scenery. */
  datatype MapData = MapData(locations: seq<Location>, currentLocation: Option<string>)

  class MapManager {
    var visible: bool
    var locations: seq<Location>
    var currentLocation: Option<string>
    const isMobile: bool
    const hasPanel: bool

    constructor (isMobile: bool, hasPanel: bool)
      ensures !visible && locations == [] && currentLocation.None?
      ensures this.isMobile == isMobile && this.hasPanel == hasPanel
    {
      visible := false;
      locations := [];
      currentLocation := None;
      this.isMobile := isMobile;
      this.hasPanel := hasPanel;
    }

    /** `initLocations()`, which then places the player. */
    method InitLocations(index: Option<Story.StoryIndex>, scene: string)
      modifies this`locations, this`currentLocation
      ensures locations == InitialLocations
      ensures currentLocation == match Resolve(index, scene, InitialLocations)
                                 case Some(l) => Some(l)
                                 case None => old(currentLocation)
    {
      locations := InitialLocations;
      UpdatePlayerLocation(index, scene);
    }

    /** `updatePlayerLocation()`: nothing without a story index, a current
        scene or a non-empty chapter id; otherwise the chapter's location
        word, or else the first location whose id the scene id contains;
        the location stays as it was when neither applies. */
    method UpdatePlayerLocation(index: Option<Story.StoryIndex>, scene: string)
      modifies this`currentLocation
      ensures currentLocation == match Resolve(index, scene, locations)
                                 case Some(l) => Some(l)
                                 case None => old(currentLocation)
    {
      if index.None? || scene == "" {
        return;
      }
      var chapter := Story.FindChapter(index.value.sceneMapping, scene);
      if chapter.Some? && chapter.value != "" {
        var captured := LocationCapture(chapter.value);
        if captured.Some? {
          currentLocation := captured;
        } else {
          var k := 0;
          while k < |locations|
            invariant 0 <= k <= |locations|
            invariant FirstContained(locations, scene) == FirstContained(locations[k..], scene)
            invariant currentLocation == old(currentLocation)
          {
            if Contains(scene, locations[k].id) {
              currentLocation := Some(locations[k].id);
              break;
            }
            assert locations[k..][1..] == locations[k + 1..];
            k := k + 1;
          }
        }
      }
    }

    /** `toggle(show)`: on a mobile device the map opens in a new tab with
        the map data; without a panel, or when the panel already is in the
        asked state, nothing happens. */
    method Toggle(show: bool) returns (newTab: Option<MapData>)
      modifies this`visible
      ensures isMobile ==> newTab == Some(MapData(locations, currentLocation)) && visible == old(visible)
      ensures !isMobile ==> newTab.None?
      ensures !isMobile && hasPanel ==> visible == show
      ensures !isMobile && !hasPanel ==> visible == old(visible)
    {
      if isMobile {
        var data := GetMapData();
        return Some(data);
      }
      if !hasPanel {
        return None;
      }
      if show == visible {
        return None;
      }
      visible := show;
      return None;
    }

    method GetMapData() returns (data: MapData)
      ensures data.locations == locations && data.currentLocation == currentLocation
    {
      data := MapData(locations, currentLocation);
    }

    /** `close()` */
    method Close()
      modifies this`visible
      ensures visible == (!hasPanel && old(visible))
    {
      if hasPanel {
        visible := false;
      }
    }
  }
}
