/** Story content as the scene engine sees it: scenes, choices and the story
    index that maps every scene to the chapter file holding it. */
module Story {
  import opened Common

  datatype Choice = Choice(text: string, nextScene: string)

  /** The `combat` block of a scene. */
  datatype CombatSpec = CombatSpec(enemy: string, nextScene: string, defeatScene: string)

  /** A scene.  `text` is required (typing an absent text fails), and ""
      is an empty text; `nextScene` is a string whose emptiness is
      JavaScript falsiness (an absent field reads as ""); `choices`, `items`
      and `combat` are tested for presence, and an empty array is present. */
  datatype Scene = Scene(
    text: string,
    sceneType: string,
    choices: Option<seq<Choice>>,
    items: Option<seq<Item>>,
    combat: Option<CombatSpec>,
    nextScene: string)

  /** One entry of `storyIndex.sceneMapping`, in the index's key order. */
  datatype ChapterScenes = ChapterScenes(chapterId: string, scenes: seq<string>)

  /** `story/index.json`: chapter id to file path, and the scene mapping. */
  datatype StoryIndex = StoryIndex(chapters: map<string, string>, sceneMapping: seq<ChapterScenes>)

  /** `getChapterForScene`: the first chapter, in mapping order, whose scene
      list contains the scene, or none. */
  function ChapterForScene(mapping: seq<ChapterScenes>, sceneId: string): (r: Option<string>)
    ensures r == None <==> forall i :: 0 <= i < |mapping| ==> sceneId !in mapping[i].scenes
    ensures r.Some? ==> exists i :: 0 <= i < |mapping| && r.value == mapping[i].chapterId
                                  && sceneId in mapping[i].scenes
                                  && forall j :: 0 <= j < i ==> sceneId !in mapping[j].scenes
  {
    if |mapping| == 0 then None
    else if sceneId in mapping[0].scenes then Some(mapping[0].chapterId)
    else ChapterForScene(mapping[1..], sceneId)
  }

  /** The chapter its callers act on: they test the id for truthiness, so a
      mapping key "" counts as no chapter, like a scene no chapter lists. */
  function ChapterToLoad(mapping: seq<ChapterScenes>, sceneId: string): (r: Option<string>)
    ensures r.Some? <==> ChapterForScene(mapping, sceneId).Some? && ChapterForScene(mapping, sceneId).value != ""
    ensures r.Some? ==> r == ChapterForScene(mapping, sceneId) && r.value != ""
  {
    match ChapterForScene(mapping, sceneId)
    case None => None
    case Some(chapter) => if chapter == "" then None else Some(chapter)
  }

  /** A scene listed first under the key "" has no chapter to load, even
      when a later chapter lists it too. */
  lemma EmptyKeyIsNoChapter(sceneId: string, rest: seq<ChapterScenes>)
    ensures ChapterToLoad([ChapterScenes("", [sceneId])] + rest, sceneId).None?
  {
    var mapping := [ChapterScenes("", [sceneId])] + rest;
    assert sceneId in mapping[0].scenes;
  }

  /** The search loop of `getChapterForScene`: the mapping's entries in
      order, returning at the first whose scene list holds the scene. */
  method FindChapter(mapping: seq<ChapterScenes>, sceneId: string) returns (r: Option<string>)
    ensures r == ChapterForScene(mapping, sceneId)
  {
    var i := 0;
    while i < |mapping|
      invariant 0 <= i <= |mapping|
      invariant ChapterForScene(mapping, sceneId) == ChapterForScene(mapping[i..], sceneId)
    {
      if sceneId in mapping[i].scenes {
        return Some(mapping[i].chapterId);
      }
      assert mapping[i..][1..] == mapping[i + 1..];
      i := i + 1;
    }
    return None;
  }
}
