/**
 * config.js: the customisation layer. `esc` escapes text for HTML, and
 * `apply` merges a saved configuration into the story (`STORY`), the level
 * table's themes and background images (`LEVELS`) and the title screen.
 *
 * A configuration comes from JSON, so every field may be missing
 * (`undefined`), `null` or a string; `JsValue` says which.
 */
module StoryConfig {
  import opened Wrappers

  // ---------------- HTML escaping ----------------

  datatype JsValue = Undefined | Null | Str(s: string)

  /** JavaScript truthiness of a configuration value: a non-empty string. */
  predicate Truthy(v: JsValue)
  {
    v.Str? && v.s != ""
  }

  /** `s.replace(/c/g, rep)`: every `c` replaced by `rep`, left to right. */
  function ReplaceAll(s: string, c: char, rep: string): (r: string)
    ensures c !in s ==> r == s
  {
    if s == [] then [] else (if s[0] == c then rep else [s[0]]) + ReplaceAll(s[1..], c, rep)
  }

  /** The escape of one character. */
  function EscChar(c: char): string
  {
    if c == '&' then "&amp;"
    else if c == '<' then "&lt;"
    else if c == '>' then "&gt;"
    else if c == '"' then "&quot;"
    else [c]
  }

  /** Every character escaped on its own, in order. */
  function EscapeEach(s: string): string
  {
    if s == [] then [] else EscChar(s[0]) + EscapeEach(s[1..])
  }

  /** `esc(str)`: `''` for a falsy value, else four replace passes, ampersands first. */
  function Esc(v: JsValue): string
  {
    if !Truthy(v) then ""
    else ReplaceAll(ReplaceAll(ReplaceAll(ReplaceAll(v.s, '&', "&amp;"), '<', "&lt;"), '>', "&gt;"), '"', "&quot;")
  }

  lemma ReplaceAllAppend(a: string, b: string, c: char, rep: string)
    ensures ReplaceAll(a + b, c, rep) == ReplaceAll(a, c, rep) + ReplaceAll(b, c, rep)
  {
    if a == [] {
      assert a + b == b;
    } else {
      assert (a + b)[0] == a[0];
      assert (a + b)[1..] == a[1..] + b;
      ReplaceAllAppend(a[1..], b, c, rep);
    }
  }

  lemma ReplaceAllOne(x: char, c: char, rep: string)
    ensures ReplaceAll([x], c, rep) == if x == c then rep else [x]
  {
    assert [x][1..] == [];
  }

  /** The four passes applied to one already-escaped character. */
  function LaterPasses(t: string): string
  {
    ReplaceAll(ReplaceAll(ReplaceAll(t, '<', "&lt;"), '>', "&gt;"), '"', "&quot;")
  }

  lemma LaterPassesAppend(a: string, b: string)
    ensures LaterPasses(a + b) == LaterPasses(a) + LaterPasses(b)
  {
    ReplaceAllAppend(a, b, '<', "&lt;");
    ReplaceAllAppend(ReplaceAll(a, '<', "&lt;"), ReplaceAll(b, '<', "&lt;"), '>', "&gt;");
    ReplaceAllAppend(ReplaceAll(ReplaceAll(a, '<', "&lt;"), '>', "&gt;"),
                     ReplaceAll(ReplaceAll(b, '<', "&lt;"), '>', "&gt;"), '"', "&quot;");
  }

  lemma LaterPassesChar(c: char)
    ensures LaterPasses(ReplaceAll([c], '&', "&amp;")) == EscChar(c)
  {
    ReplaceAllOne(c, '&', "&amp;");
    if c == '&' {
      assert '<' !in "&amp;" && '>' !in "&amp;" && '"' !in "&amp;";
    } else {
      ReplaceAllOne(c, '<', "&lt;");
      if c == '<' {
        assert '>' !in "&lt;" && '"' !in "&lt;";
      } else {
        ReplaceAllOne(c, '>', "&gt;");
        if c == '>' {
          assert '"' !in "&gt;";
        } else {
          ReplaceAllOne(c, '"', "&quot;");
        }
      }
    }
  }

  /**
   * Because `&` is replaced first, the four passes escape each original
   * character exactly once: the entities the later passes insert are not
   * escaped again.
   */
  lemma {:induction false} PassesEscapeEachChar(s: string)
    ensures LaterPasses(ReplaceAll(s, '&', "&amp;")) == EscapeEach(s)
  {
    if s != [] {
      assert s == [s[0]] + s[1..];
      ReplaceAllAppend([s[0]], s[1..], '&', "&amp;");
      LaterPassesAppend(ReplaceAll([s[0]], '&', "&amp;"), ReplaceAll(s[1..], '&', "&amp;"));
      LaterPassesChar(s[0]);
      PassesEscapeEachChar(s[1..]);
    }
  }

  /** `esc` is the character-by-character escape of a truthy value, and `''` otherwise. */
  lemma EscIsCharwise(v: JsValue)
    ensures Esc(v) == if Truthy(v) then EscapeEach(v.s) else ""
  {
    if Truthy(v) {
      PassesEscapeEachChar(v.s);
    }
  }

  /** Nothing an escape produces can open a tag or close an attribute. */
  lemma {:induction false} EscapeEachIsSafe(s: string)
    ensures '<' !in EscapeEach(s) && '>' !in EscapeEach(s) && '"' !in EscapeEach(s)
  {
    if s != [] {
      EscapeEachIsSafe(s[1..]);
    }
  }

  /** `esc`'s output never holds a raw `<`, `>` or `"`. */
  lemma EscIsSafe(v: JsValue)
    ensures '<' !in Esc(v) && '>' !in Esc(v) && '"' !in Esc(v)
  {
    EscIsCharwise(v);
    if Truthy(v) {
      EscapeEachIsSafe(v.s);
    }
  }

  /** Reading HTML text back: the four entities become their characters, everything else is kept. */
  function Unescape(t: string): string
  {
    if t == [] then []
    else if "&amp;" <= t then ['&'] + Unescape(t[5..])
    else if "&lt;" <= t then ['<'] + Unescape(t[4..])
    else if "&gt;" <= t then ['>'] + Unescape(t[4..])
    else if "&quot;" <= t then ['"'] + Unescape(t[6..])
    else [t[0]] + Unescape(t[1..])
  }

  /** Escaping loses nothing: every character comes back, in order. */
  lemma {:induction false} UnescapeEscapeEach(s: string)
    ensures Unescape(EscapeEach(s)) == s
  {
    if s != [] {
      var e := EscChar(s[0]);
      var rest := EscapeEach(s[1..]);
      assert EscapeEach(s) == e + rest;
      UnescapeEscapeEach(s[1..]);
      if s[0] == '&' {
        assert (e + rest)[5..] == rest;
      } else if s[0] == '<' {
        assert !("&amp;" <= e + rest) by { assert (e + rest)[1] == 'l'; }
        assert (e + rest)[4..] == rest;
      } else if s[0] == '>' {
        assert !("&amp;" <= e + rest) by { assert (e + rest)[1] == 'g'; }
        assert !("&lt;" <= e + rest) by { assert (e + rest)[1] == 'g'; }
        assert (e + rest)[4..] == rest;
      } else if s[0] == '"' {
        assert !("&amp;" <= e + rest) by { assert (e + rest)[1] == 'q'; }
        assert !("&lt;" <= e + rest) by { assert (e + rest)[1] == 'q'; }
        assert !("&gt;" <= e + rest) by { assert (e + rest)[1] == 'q'; }
        assert (e + rest)[6..] == rest;
      } else {
        assert (e + rest)[0] == s[0];
        assert (e + rest)[1..] == rest;
      }
    }
  }

  /** `esc` round-trips every truthy string. */
  lemma EscRoundTrip(v: JsValue)
    requires Truthy(v)
    ensures Unescape(Esc(v)) == v.s
  {
    EscIsCharwise(v);
    UnescapeEscapeEach(v.s);
  }

  // ---------------- the configuration and the story ----------------

  /** One entry of `config.levels`. */
  datatype LevelConfig = LevelConfig(chapter: JsValue, title: JsValue, subtitle: JsValue,
                                     memoryTitle: JsValue, memoryText: JsValue,
                                     photo: JsValue, theme: JsValue, bgImage: JsValue)

  /**
   * A saved configuration. `levels` is `None` when the field is missing or
   * null; a `None` entry is a falsy (`null`) level entry.
   */
  datatype Config = Config(gameTitle: JsValue, gameSubtitle: JsValue, startButton: JsValue,
                           titleBgImage: JsValue, levels: Option<seq<Option<LevelConfig>>>,
                           finalLetter: JsValue, characterImage: JsValue)

  /** One `STORY.levels[i]` entry. */
  datatype StoryLevel = StoryLevel(chapter: string, title: string, subtitle: string,
                                   memoryTitle: string, memoryText: string,
                                   photo: string, theme: string)

  /** `STORY`: the title screen's texts (a configured `null` is stored as is), the chapters, the final letter. */
  datatype StoryData = StoryData(gameTitle: JsValue, gameSubtitle: JsValue, startButton: JsValue,
                                 levels: seq<StoryLevel>, finalLetter: string)

  /** Title, subtitle and button text: replaced unless the value is missing or `''`. */
  function TitleText(current: JsValue, v: JsValue): (r: JsValue)
    ensures v == Undefined || v == Str("") ==> r == current
    ensures v != Undefined && v != Str("") ==> r == v
  {
    if v != Undefined && v != Str("") then v else current
  }

  /** A chapter text or the final letter: `null` or `''` restores the original, missing keeps, else replaces. */
  function MergeText(current: string, original: string, v: JsValue): (r: string)
    ensures v == Null || v == Str("") ==> r == original
    ensures v == Undefined ==> r == current
    ensures Truthy(v) ==> r == v.s
  {
    if v == Null || v == Str("") then original
    else if v != Undefined then v.s
    else current
  }

  /** The photo: `null` restores the original, a truthy value replaces, anything else keeps. */
  function MergePhoto(current: string, original: string, v: JsValue): (r: string)
    ensures v == Null ==> r == original
    ensures Truthy(v) ==> r == v.s
    ensures v == Undefined || v == Str("") ==> r == current
  {
    if v == Null then original else if Truthy(v) then v.s else current
  }

  /** A truthy theme replaces the current one. */
  function MergeTheme(current: string, v: JsValue): (r: string)
    ensures Truthy(v) ==> r == v.s
    ensures !Truthy(v) ==> r == current
  {
    if Truthy(v) then v.s else current
  }

  /** One chapter after its configuration entry. */
  function MergeLevel(cur: StoryLevel, orig: StoryLevel, c: LevelConfig): StoryLevel
  {
    StoryLevel(MergeText(cur.chapter, orig.chapter, c.chapter),
               MergeText(cur.title, orig.title, c.title),
               MergeText(cur.subtitle, orig.subtitle, c.subtitle),
               MergeText(cur.memoryTitle, orig.memoryTitle, c.memoryTitle),
               MergeText(cur.memoryText, orig.memoryText, c.memoryText),
               MergePhoto(cur.photo, orig.photo, c.photo),
               MergeTheme(cur.theme, c.theme))
  }

  /** Each merge rule gives the same result when applied a second time. */
  lemma MergeLevelIdempotent(cur: StoryLevel, orig: StoryLevel, c: LevelConfig)
    ensures MergeLevel(MergeLevel(cur, orig, c), orig, c) == MergeLevel(cur, orig, c)
  {
  }

  /** The entry at index `i`, applied to `levels` when both the chapter and the entry exist. */
  function ApplyAt(levels: seq<StoryLevel>, orig: seq<StoryLevel>, i: nat, lvl: Option<LevelConfig>): (r: seq<StoryLevel>)
    requires |orig| >= |levels|
    ensures |r| == |levels|
  {
    if i < |levels| && lvl.Some? then levels[i := MergeLevel(levels[i], orig[i], lvl.value)] else levels
  }

  /** The chapters after the first `n` configuration entries, in `forEach` order. */
  function MergeLevels(levels: seq<StoryLevel>, orig: seq<StoryLevel>, cfgs: seq<Option<LevelConfig>>, n: nat): (r: seq<StoryLevel>)
    requires |orig| >= |levels| && n <= |cfgs|
    ensures |r| == |levels|
  {
    if n == 0 then levels else ApplyAt(MergeLevels(levels, orig, cfgs, n - 1), orig, n - 1, cfgs[n - 1])
  }

  /** Entry `k` is touched by configuration entry `k` alone. */
  lemma {:induction false} MergeLevelsPointwise(levels: seq<StoryLevel>, orig: seq<StoryLevel>, cfgs: seq<Option<LevelConfig>>, n: nat)
    requires |orig| >= |levels| && n <= |cfgs|
    ensures forall k :: 0 <= k < |levels| ==>
      MergeLevels(levels, orig, cfgs, n)[k] ==
        if k < n && cfgs[k].Some? then MergeLevel(levels[k], orig[k], cfgs[k].value) else levels[k]
  {
    if n > 0 {
      MergeLevelsPointwise(levels, orig, cfgs, n - 1);
    }
  }

  /** `LEVELS[i].theme` after the first `n` entries; only entries whose chapter exists reach `LEVELS`. */
  function MergeThemes(themes: seq<string>, chapters: nat, cfgs: seq<Option<LevelConfig>>, n: nat): (r: seq<string>)
    requires n <= |cfgs|
    ensures |r| == |themes|
  {
    if n == 0 then themes
    else
      var prev := MergeThemes(themes, chapters, cfgs, n - 1);
      var i := n - 1;
      if i < chapters && cfgs[i].Some? && Truthy(cfgs[i].value.theme) && i < |prev|
      then prev[i := cfgs[i].value.theme.s] else prev
  }

  /** `LEVELS[i]._bgImg` (`None` is `null`) after the first `n` entries: a `null` background clears it. */
  function MergeBackgrounds(bgs: seq<Option<string>>, chapters: nat, cfgs: seq<Option<LevelConfig>>, n: nat): (r: seq<Option<string>>)
    requires n <= |cfgs|
    ensures |r| == |bgs|
  {
    if n == 0 then bgs
    else
      var prev := MergeBackgrounds(bgs, chapters, cfgs, n - 1);
      var i := n - 1;
      if i < chapters && cfgs[i].Some? && cfgs[i].value.bgImage == Null && i < |prev|
      then prev[i := None] else prev
  }

  lemma {:induction false} MergeThemesPointwise(themes: seq<string>, chapters: nat, cfgs: seq<Option<LevelConfig>>, n: nat)
    requires n <= |cfgs|
    ensures forall k :: 0 <= k < |themes| ==>
      MergeThemes(themes, chapters, cfgs, n)[k] ==
        if k < n && k < chapters && cfgs[k].Some? then MergeTheme(themes[k], cfgs[k].value.theme) else themes[k]
  {
    if n > 0 {
      MergeThemesPointwise(themes, chapters, cfgs, n - 1);
    }
  }

  lemma {:induction false} MergeBackgroundsPointwise(bgs: seq<Option<string>>, chapters: nat, cfgs: seq<Option<LevelConfig>>, n: nat)
    requires n <= |cfgs|
    ensures forall k :: 0 <= k < |bgs| ==>
      MergeBackgrounds(bgs, chapters, cfgs, n)[k] ==
        if k < n && k < chapters && cfgs[k].Some? && cfgs[k].value.bgImage == Null then None else bgs[k]
  {
    if n > 0 {
      MergeBackgroundsPointwise(bgs, chapters, cfgs, n - 1);
    }
  }

  /** The configured levels, or none. */
  function LevelEntries(c: Config): seq<Option<LevelConfig>>
  {
    if c.levels.Some? then c.levels.value else []
  }

  /** `STORY` after `apply(config)`, given the captured defaults `orig`. */
  function ApplyStory(s: StoryData, orig: StoryData, c: Config): StoryData
    requires |orig.levels| >= |s.levels|
  {
    var cfgs := LevelEntries(c);
    StoryData(TitleText(s.gameTitle, c.gameTitle), TitleText(s.gameSubtitle, c.gameSubtitle),
              TitleText(s.startButton, c.startButton),
              MergeLevels(s.levels, orig.levels, cfgs, |cfgs|),
              MergeText(s.finalLetter, orig.finalLetter, c.finalLetter))
  }

  /** The title screen's `background-image` after a configured `titleBgImage`. */
  function TitleBackground(current: string, v: JsValue): (r: string)
    ensures v == Null ==> r == ""
    ensures Truthy(v) ==> r == "url(" + v.s + ")"
    ensures v == Undefined || v == Str("") ==> r == current
  {
    if v == Null then "" else if Truthy(v) then "url(" + v.s + ")" else current
  }

  /** Applying a saved configuration a second time changes nothing more. */
  lemma ApplyStoryIdempotent(s: StoryData, orig: StoryData, c: Config)
    requires |orig.levels| >= |s.levels|
    ensures ApplyStory(ApplyStory(s, orig, c), orig, c) == ApplyStory(s, orig, c)
  {
    var cfgs := LevelEntries(c);
    var once := MergeLevels(s.levels, orig.levels, cfgs, |cfgs|);
    var twice := MergeLevels(once, orig.levels, cfgs, |cfgs|);
    MergeLevelsPointwise(s.levels, orig.levels, cfgs, |cfgs|);
    MergeLevelsPointwise(once, orig.levels, cfgs, |cfgs|);
    forall k | 0 <= k < |once| ensures twice[k] == once[k] {
      if k < |cfgs| && cfgs[k].Some? {
        MergeLevelIdempotent(s.levels[k], orig.levels[k], cfgs[k].value);
      }
    }
  }

  /**
   * A configuration that sets every chapter text and the final letter to
   * `null` restores the captured texts of every chapter it lists.
   */
  lemma NullsRestoreDefaults(s: StoryData, orig: StoryData, c: Config, k: nat)
    requires |orig.levels| >= |s.levels| && k < |s.levels|
    requires c.finalLetter == Null
    requires k < |LevelEntries(c)| && LevelEntries(c)[k].Some?
    requires var e := LevelEntries(c)[k].value;
      e.chapter == Null && e.title == Null && e.subtitle == Null && e.memoryTitle == Null && e.memoryText == Null
    ensures var r := ApplyStory(s, orig, c);
      && r.finalLetter == orig.finalLetter
      && r.levels[k].chapter == orig.levels[k].chapter && r.levels[k].title == orig.levels[k].title
      && r.levels[k].subtitle == orig.levels[k].subtitle
      && r.levels[k].memoryTitle == orig.levels[k].memoryTitle && r.levels[k].memoryText == orig.levels[k].memoryText
  {
    var cfgs := LevelEntries(c);
    MergeLevelsPointwise(s.levels, orig.levels, cfgs, |cfgs|);
  }

  /** A configuration with nothing set (every field missing) leaves the story as it is. */
  lemma EmptyConfigChangesNothing(s: StoryData, orig: StoryData, c: Config)
    requires |orig.levels| >= |s.levels|
    requires c.gameTitle == Undefined && c.gameSubtitle == Undefined && c.startButton == Undefined
    requires c.finalLetter == Undefined && c.levels.None?
    ensures ApplyStory(s, orig, c) == s
  {
  }

  // ---------------- the module object ----------------

  /**
   * The state `apply` writes: `STORY` (`story`), the defaults captured by
   * `captureDefaults` (`original`), `LEVELS[i].theme` (`levelThemes`),
   * `LEVELS[i]._bgImg` (`levelBgs`, `None` for `null`), and the title
   * screen's background style (`titleBackground`).
   */
  class GameConfig {
    var story: StoryData
    var original: StoryData
    var captured: bool
    var levelThemes: seq<string>
    var levelBgs: seq<Option<string>>
    var titleBackground: string

    ghost predicate Valid()
      reads this
    {
      && |levelBgs| == |levelThemes|
      && (captured ==> |original.levels| == |story.levels|)
    }

    constructor(s: StoryData, themes: seq<string>)
      ensures Valid() && !captured
      ensures story == s && levelThemes == themes && levelBgs == seq(|themes|, _ => None) && titleBackground == ""
    {
      story, original, captured := s, s, false;
      levelThemes := themes;
      levelBgs := seq(|themes|, _ => None);
      titleBackground := "";
    }

    /** `captureDefaults()`: a deep copy of the story as shipped. */
    method CaptureDefaults()
      requires Valid()
      modifies this`original, this`captured
      ensures Valid() && captured && original == story
    {
      original, captured := story, true;
    }

    /**
     * `apply(config)`: nothing for a missing configuration; otherwise the
     * title texts, the title background, each listed chapter (and its
     * `LEVELS` entry), and the final letter, by the merge rules above.
     */
    method Apply(config: Option<Config>)
      requires Valid() && captured
      modifies this`story, this`levelThemes, this`levelBgs, this`titleBackground
      ensures Valid()
      ensures config.None? ==> unchanged(this)
      ensures config.Some? ==>
                var c := config.value;
                var cfgs := LevelEntries(c);
                && story == ApplyStory(old(story), original, c)
                && levelThemes == MergeThemes(old(levelThemes), |old(story).levels|, cfgs, |cfgs|)
                && levelBgs == MergeBackgrounds(old(levelBgs), |old(story).levels|, cfgs, |cfgs|)
                && titleBackground == TitleBackground(old(titleBackground), c.titleBgImage)
    {
      if config.None? {
        return;
      }
      var c := config.value;
      ApplyTitle(c);
      ApplyChapters(c);
      story := story.(finalLetter := MergeText(story.finalLetter, original.finalLetter, c.finalLetter));
    }

    /** The title part of `apply`: the three title texts and the title background. */
    method ApplyTitle(c: Config)
      modifies this`story, this`titleBackground
      ensures story == old(story).(gameTitle := TitleText(old(story).gameTitle, c.gameTitle),
                                   gameSubtitle := TitleText(old(story).gameSubtitle, c.gameSubtitle),
                                   startButton := TitleText(old(story).startButton, c.startButton))
      ensures titleBackground == TitleBackground(old(titleBackground), c.titleBgImage)
    {
      story := story.(gameTitle := TitleText(story.gameTitle, c.gameTitle),
                      gameSubtitle := TitleText(story.gameSubtitle, c.gameSubtitle),
                      startButton := TitleText(story.startButton, c.startButton));
      if c.titleBgImage == Null {
        titleBackground := "";
      } else if Truthy(c.titleBgImage) {
        titleBackground := "url(" + c.titleBgImage.s + ")";
      }
    }

    /** The chapter loop of `apply`: each listed chapter's texts, theme and background. */
    method ApplyChapters(c: Config)
      requires Valid() && captured
      modifies this`story, this`levelThemes, this`levelBgs
      ensures Valid()
      ensures var cfgs := LevelEntries(c);
        && story == old(story).(levels := MergeLevels(old(story).levels, original.levels, cfgs, |cfgs|))
        && levelThemes == MergeThemes(old(levelThemes), |old(story).levels|, cfgs, |cfgs|)
        && levelBgs == MergeBackgrounds(old(levelBgs), |old(story).levels|, cfgs, |cfgs|)
    {
      var cfgs := LevelEntries(c);
      var chapters := |story.levels|;
      ghost var story0, themes0, bgs0 := story, levelThemes, levelBgs;
      var i := 0;
      while i < |cfgs|
        invariant 0 <= i <= |cfgs|
        invariant story == story0.(levels := MergeLevels(story0.levels, original.levels, cfgs, i))
        invariant levelThemes == MergeThemes(themes0, chapters, cfgs, i)
        invariant levelBgs == MergeBackgrounds(bgs0, chapters, cfgs, i)
      {
        var lvl := cfgs[i];
        if i < |story.levels| && lvl.Some? {
          var e := lvl.value;
          story := story.(levels := story.levels[i := MergeLevel(story.levels[i], original.levels[i], e)]);
          if Truthy(e.theme) && i < |levelThemes| {
            levelThemes := levelThemes[i := e.theme.s];
          }
          if e.bgImage == Null && i < |levelBgs| {
            levelBgs := levelBgs[i := None];
          }
        }
        i := i + 1;
      }
    }

    /** `init()`: captures the defaults, then applies the saved configuration if there is one. */
    method Init(saved: Option<Config>)
      requires Valid()
      modifies this
      ensures Valid() && captured && original == old(story)
      ensures saved.None? ==> story == old(story) && levelThemes == old(levelThemes)
                              && levelBgs == old(levelBgs) && titleBackground == old(titleBackground)
      ensures saved.Some? ==>
                var c := saved.value;
                var cfgs := LevelEntries(c);
                && story == ApplyStory(old(story), old(story), c)
                && levelThemes == MergeThemes(old(levelThemes), |old(story).levels|, cfgs, |cfgs|)
                && levelBgs == MergeBackgrounds(old(levelBgs), |old(story).levels|, cfgs, |cfgs|)
                && titleBackground == TitleBackground(old(titleBackground), c.titleBgImage)
    {
      CaptureDefaults();
      Apply(saved);
    }
  }
}
