/**
 * File names the generators derive from article titles, and the guarded save
 * of generated text, shared by src/core/generator.py, content_generator.py,
 * src/content/reel_generator.py and reel_generator.py. The file system is a
 * map from path to contents.
 */
module Naming {
  import opened Wrappers
  import opened Strings

  /** `c.isalnum() or c in ' -_'` */
  predicate SafeChar(c: char) {
    IsAlnum(c) || c == ' ' || c == '-' || c == '_'
  }

  /** Every unsafe character replaced by '_', every safe one kept. */
  function Sanitise(s: string): (r: string)
    ensures |r| == |s|
    ensures forall i :: 0 <= i < |s| ==> r[i] == if SafeChar(s[i]) then s[i] else '_'
  {
    if s == [] then [] else [if SafeChar(s[0]) then s[0] else '_'] + Sanitise(s[1..])
  }

  /** The title as it appears in file and directory names: sanitised, then cut to 50 characters. */
  function SafeTitle(title: string): string {
    Take(Sanitise(title), 50)
  }

  /**
   * The safe title has at most 50 characters, all of them safe, and it is
   * the title itself, position by position, wherever the title was safe.
   */
  lemma SafeTitleShape(title: string)
    ensures |SafeTitle(title)| == if |title| < 50 then |title| else 50
    ensures forall i :: 0 <= i < |SafeTitle(title)| ==> SafeChar(SafeTitle(title)[i])
    ensures forall i :: 0 <= i < |SafeTitle(title)| ==>
      (SafeTitle(title)[i] == title[i] <==> SafeChar(title[i]))
  {
  }

  /** A title that is already safe and short enough is its own safe title. */
  lemma SafeTitleOfSafe(title: string)
    requires |title| <= 50 && forall i :: 0 <= i < |title| ==> SafeChar(title[i])
    ensures SafeTitle(title) == title
  {
    assert Sanitise(title) == title;
  }

  /** Sanitising twice is sanitising once. */
  lemma SafeTitleIdempotent(title: string)
    ensures SafeTitle(SafeTitle(title)) == SafeTitle(title)
  {
    SafeTitleShape(title);
    SafeTitleOfSafe(SafeTitle(title));
  }

  /** `os.path.join(dir, name)` for a relative `name` and a directory not ending in '/'. */
  function PathJoin(dir: string, name: string): string {
    dir + "/" + name
  }

  /** `create_article_directory`: `<output>/<today>_<safe title>` */
  function ArticleDirectory(outputDir: string, today: string, title: string): string {
    PathJoin(outputDir, today + "_" + SafeTitle(title))
  }

  /** The file name of a saved reel script: `<today>_reel_<safe title>.md` in the reels directory. */
  function ReelFileName(reelsDir: string, today: string, title: string): string {
    PathJoin(reelsDir, today + "_reel_" + SafeTitle(title) + ".md")
  }

  /** The result of a guarded save: the path written, if any, and the files afterwards. */
  datatype Saved = Saved(path: Option<string>, files: map<string, string>)

  /** Writes `content` at `path` unless it is empty, in which case nothing is written and there is no path. */
  function SaveText(files: map<string, string>, path: string, content: string): (r: Saved)
    ensures r.path.None? <==> content == ""
    ensures r.path.None? ==> r.files == files
    ensures r.path.Some? ==> r.path.value == path && r.files == files[path := content]
  {
    if content == "" then Saved(None, files) else Saved(Some(path), files[path := content])
  }

  /** `save_content(article_dir, content, filename)` */
  function SaveContent(files: map<string, string>, articleDir: string, content: string, filename: string): (r: Saved)
    ensures r.path.None? <==> content == ""
    ensures r.path.None? ==> r.files == files
    ensures r.path.Some? ==> r.path.value == PathJoin(articleDir, filename) && r.path.value in r.files && r.files[r.path.value] == content
    ensures forall p :: p in files && p != PathJoin(articleDir, filename) ==> p in r.files && r.files[p] == files[p]
  {
    SaveText(files, PathJoin(articleDir, filename), content)
  }

  /** `save_reel_script(script, title)` */
  function SaveReelScript(files: map<string, string>, reelsDir: string, today: string, script: string, title: string): (r: Saved)
    ensures r.path.None? <==> script == ""
    ensures r.path.None? ==> r.files == files
    ensures r.path.Some? ==> r.path.value == ReelFileName(reelsDir, today, title) && r.path.value in r.files && r.files[r.path.value] == script
    ensures forall p :: p in files && p != ReelFileName(reelsDir, today, title) ==> p in r.files && r.files[p] == files[p]
  {
    SaveText(files, ReelFileName(reelsDir, today, title), script)
  }

  /** Two titles that agree on their first 50 characters name the same reel file on the same day. */
  lemma {:induction false} ReelFileNameUsesFifty(reelsDir: string, today: string, t1: string, t2: string)
    requires |t1| >= 50 && |t2| >= 50 && t1[..50] == t2[..50]
    ensures ReelFileName(reelsDir, today, t1) == ReelFileName(reelsDir, today, t2)
  {
    assert Sanitise(t1)[..50] == Sanitise(t1[..50]);
    assert Sanitise(t2)[..50] == Sanitise(t2[..50]);
  }
}
