/**
 * The first reel script generator, reel_generator.py at the repository root:
 * the first article with content, its key information, and a template
 * fallback that fills hook and body from four arguments each, so that a
 * template asking for any other placeholder raises `KeyError` and ends
 * `run`. The style configuration it imports (style_config.py at the root) is
 * a parameter; the lemmas at the end instantiate it with the templates and
 * hashtags of src/content/style_config.py.
 */
module ReelScript {
  import opened Wrappers
  import opened Strings
  import opened Articles
  import opened KeyInfo
  import opened StyleConfig
  import opened Naming
  import Reel

  /** `extract_key_info(article)`; the title must be present (the source indexes `article['title']`). */
  method ExtractKeyInfo(a: Article) returns (info: ReelInfo)
    requires a.title.Some?
    ensures info == SimpleReelInfoOf(a.title.value, Paragraphs(a))
  {
    var title := a.title.value;
    var content := Paragraphs(a);
    var company := FindFirstCapitalisedName(Words(title), SimpleStopwords);
    var funding := FindFundingAmount(title, "");
    var industry := FindIndustry(title, content);
    info := ReelInfo(title, company, funding, industry, Summary(content));
  }

  /** The first position from `i` on of an article with content, or `None`. */
  function FirstWithContentFrom(articles: seq<Article>, i: nat): (k: Option<nat>)
    requires i <= |articles|
    ensures k.None? <==> forall j :: i <= j < |articles| ==> !HasContent(articles[j])
    ensures k.Some? ==> i <= k.value < |articles| && HasContent(articles[k.value])
    ensures k.Some? ==> forall j :: i <= j < k.value ==> !HasContent(articles[j])
    decreases |articles| - i
  {
    if i == |articles| then None
    else if HasContent(articles[i]) then Some(i)
    else FirstWithContentFrom(articles, i + 1)
  }

  /** `next((a for a in articles if 'content' in a and a['content']), None)`, as a position. */
  function FirstWithContent(articles: seq<Article>): (k: Option<nat>)
    ensures k.None? <==> forall j :: 0 <= j < |articles| ==> !HasContent(articles[j])
    ensures k.Some? ==> k.value < |articles| && HasContent(articles[k.value])
    ensures k.Some? ==> forall j :: 0 <= j < k.value ==> !HasContent(articles[j])
  {
    FirstWithContentFrom(articles, 0)
  }

  /** The part of `STYLE_CONFIG` the fallback reads: the reel templates and the hashtag lines. */
  datatype ReelConfig = ReelConfig(templates: seq<ReelTemplate>, hashtags: seq<string>)

  /** The four arguments of the hook. */
  function HookArgs(fact: string, topic: string, company: string, amount: string): map<string, string> {
    map["interesting_fact" := fact, "topic" := topic, "company" := company, "amount" := amount]
  }

  /** The four arguments of the body. */
  function BodyArgs(visualization: string, explanation: string, secret: string, topic: string): map<string, string> {
    map["visualization" := visualization, "explanation" := explanation, "secret" := secret, "topic" := topic]
  }

  /** The lines of visual ideas and the hashtag label this script prints after its conclusion. */
  const VisualIdeas: string :=
    "\n\nВИЗУАЛЬНЫЕ ИДЕИ: \n- Показать логотип и продукт компании\n- Использовать анимированную инфографику для объяснения\n- Включить эмоциональные реакции пользователей\n\nХЭШТЕГИ: "

  /** The script after its conclusion. */
  function Tail(hashtags: string): string {
    VisualIdeas + hashtags + "\n        "
  }

  /** The script up to its conclusion: the hook line, the body and the conclusion label. */
  function Opening(hook: string, body: string): string {
    Reel.HookLine(hook) + body + "\n\nЗАКЛЮЧЕНИЕ: "
  }

  /** The layout of this generator's fallback script: no rating and no social links. */
  function ScriptText(hook: string, body: string, conclusion: string, hashtags: string): string {
    Opening(hook, body) + conclusion + Tail(hashtags)
  }

  /** The fallback script opens with its hook line, is never empty, and shows its conclusion. */
  lemma ScriptTextShape(hook: string, body: string, conclusion: string, hashtags: string)
    ensures var s := ScriptText(hook, body, conclusion, hashtags);
      IsPrefix(Reel.HookLine(hook), s) && s != [] && Contains(s, conclusion)
  {
    var line, rest := Reel.HookLine(hook), body + "\n\nЗАКЛЮЧЕНИЕ: " + conclusion + Tail(hashtags);
    assert ScriptText(hook, body, conclusion, hashtags) == line + rest;
    assert (line + rest)[..|line|] == line;
    ContainsMiddle(Opening(hook, body), conclusion, Tail(hashtags));
  }

  /**
   * The fallback with the template drawn by `choice` and the hashtag line
   * drawn by `tag`, filled from the given arguments: `None` where it raises,
   * that is where `random.choice` meets an empty list (`IndexError`) or the
   * hook or body asks for a placeholder without an argument (`KeyError`).
   */
  function Fill(config: ReelConfig, choice: nat, tag: nat, hookArgs: map<string, string>, bodyArgs: map<string, string>)
    : (r: Option<string>)
    ensures r.Some? <==>
      config.templates != [] && config.hashtags != [] &&
      Holes(config.templates[choice % |config.templates|].hook) <= hookArgs.Keys &&
      Holes(config.templates[choice % |config.templates|].body) <= bodyArgs.Keys
    ensures r.Some? ==>
      (var template := config.templates[choice % |config.templates|];
       r.value == ScriptText(Format(template.hook, hookArgs).value, Format(template.body, bodyArgs).value,
                             template.conclusion, Reel.Pick(config.hashtags, tag)))
  {
    if config.templates == [] || config.hashtags == [] then None
    else
      var template := config.templates[choice % |config.templates|];
      var hook := Format(template.hook, hookArgs);
      var body := Format(template.body, bodyArgs);
      if hook.None? || body.None? then None
      else Some(ScriptText(hook.value, body.value, template.conclusion, Reel.Pick(config.hashtags, tag)))
  }

  /** A fallback that does not raise gives a script that is never empty. */
  lemma FillNotEmpty(config: ReelConfig, choice: nat, tag: nat, hookArgs: map<string, string>, bodyArgs: map<string, string>)
    requires Fill(config, choice, tag, hookArgs, bodyArgs).Some?
    ensures Fill(config, choice, tag, hookArgs, bodyArgs).value != ""
  {
    var template := config.templates[choice % |config.templates|];
    ScriptTextShape(Format(template.hook, hookArgs).value, Format(template.body, bodyArgs).value,
      template.conclusion, Reel.Pick(config.hashtags, tag));
  }

  /** `generate_reel_script_without_ai(info)` with the random choices `p`. */
  function ScriptWithoutAi(config: ReelConfig, info: ReelInfo, p: Reel.Picks): Option<string> {
    Fill(config, p.template, p.hashtags,
      HookArgs(Reel.Fact(info, p), info.industry, Reel.CompanyOf(info), Reel.AmountOf(info)),
      BodyArgs(Reel.Visualization(info, p), Reel.Explanation(p), Reel.Secret(info, p), info.industry))
  }

  /** The eight arguments here are among the twenty of src/content/reel_generator.py, with the same values. */
  lemma ArgsAmongShared(fact: string, topic: string, company: string, amount: string,
                        visualization: string, explanation: string, secret: string)
    ensures var shared := Reel.FallbackArgs(fact, topic, company, amount, visualization, explanation, secret);
      (forall n :: n in HookArgs(fact, topic, company, amount) ==>
         n in shared && shared[n] == HookArgs(fact, topic, company, amount)[n]) &&
      (forall n :: n in BodyArgs(visualization, explanation, secret, topic) ==>
         n in shared && shared[n] == BodyArgs(visualization, explanation, secret, topic)[n])
  {
    SharedValues(fact, topic, company, amount, visualization, explanation, secret);
  }

  /** The seven varying arguments of src/content/reel_generator.py under their names. */
  lemma SharedValues(fact: string, topic: string, company: string, amount: string,
                     visualization: string, explanation: string, secret: string)
    ensures var shared := Reel.FallbackArgs(fact, topic, company, amount, visualization, explanation, secret);
      "interesting_fact" in shared && shared["interesting_fact"] == fact &&
      "topic" in shared && shared["topic"] == topic &&
      "company" in shared && shared["company"] == company &&
      "amount" in shared && shared["amount"] == amount &&
      "visualization" in shared && shared["visualization"] == visualization &&
      "explanation" in shared && shared["explanation"] == explanation &&
      "secret" in shared && shared["secret"] == secret
  {
  }

  /**
   * Where this fallback does not raise, its hook and body are the ones the
   * twenty arguments of src/content/reel_generator.py give for the same
   * template.
   */
  lemma AgreesWithShared(config: ReelConfig, info: ReelInfo, p: Reel.Picks)
    requires ScriptWithoutAi(config, info, p).Some?
    ensures var template := config.templates[p.template % |config.templates|];
      var shared := Reel.FormatArgs(info, p);
      Format(template.hook, shared).Some? && Format(template.body, shared).Some? &&
      ScriptWithoutAi(config, info, p).value ==
        ScriptText(Format(template.hook, shared).value, Format(template.body, shared).value,
                   template.conclusion, Reel.Pick(config.hashtags, p.hashtags))
  {
    var template := config.templates[p.template % |config.templates|];
    var fact, company, amount := Reel.Fact(info, p), Reel.CompanyOf(info), Reel.AmountOf(info);
    var visualization, explanation, secret := Reel.Visualization(info, p), Reel.Explanation(p), Reel.Secret(info, p);
    var hookArgs := HookArgs(fact, info.industry, company, amount);
    var bodyArgs := BodyArgs(visualization, explanation, secret, info.industry);
    var shared := Reel.FallbackArgs(fact, info.industry, company, amount, visualization, explanation, secret);
    assert shared == Reel.FormatArgs(info, p);
    ArgsAmongShared(fact, info.industry, company, amount, visualization, explanation, secret);
    FormatExtend(template.hook, hookArgs, shared);
    FormatExtend(template.body, bodyArgs, shared);
  }

  /** The style configuration of src/content/style_config.py. */
  function SharedConfig(): ReelConfig {
    ReelConfig(ReelTemplates, Reel.Hashtags)
  }

  /** The names of the four hook arguments and of the four body arguments. */
  const HookKeys: set<string> := {"interesting_fact", "topic", "company", "amount"}
  const BodyKeys: set<string> := {"visualization", "explanation", "secret", "topic"}

  /**
   * Of the six templates of src/content/style_config.py, only 0 and 2 ask
   * for no hook placeholder outside the four hook arguments and no body
   * placeholder outside the four body arguments: 1 and 4 ask for
   * "industry", 3 for "problem", and 5 for "metric".
   */
  lemma TemplatesWithinKeys(k: nat)
    requires k < 6
    ensures |ReelTemplates| == 6
    ensures Holes(ReelTemplates[k].hook) <= HookKeys && Holes(ReelTemplates[k].body) <= BodyKeys <==> k == 0 || k == 2
  {
    TemplateHoles(k);
    NamesWithinKeys(k);
  }

  /** The placeholder names of the six templates, against the argument names. */
  lemma NamesWithinKeys(k: nat)
    requires k < 6
    ensures (set n | n in HookNames[k]) <= HookKeys && (set n | n in BodyNames[k]) <= BodyKeys <==> k == 0 || k == 2
  {
    if k == 0 {
      assert HookNames[k] == ["interesting_fact", "topic"] && BodyNames[k] == ["visualization", "topic"];
    } else if k == 1 {
      assert "industry" in HookNames[k] && "industry" !in HookKeys;
    } else if k == 2 {
      assert HookNames[k] == ["amount"] && BodyNames[k] == ["secret"];
    } else if k == 3 {
      assert "problem" in BodyNames[k] && "problem" !in BodyKeys;
    } else if k == 4 {
      assert "industry" in HookNames[k] && "industry" !in HookKeys;
    } else {
      assert "metric" in HookNames[k] && "metric" !in HookKeys;
    }
  }

  /** With those templates and arguments named as here, the fallback raises for four templates of six. */
  lemma SharedTemplatesRaise(choice: nat, tag: nat, hookArgs: map<string, string>, bodyArgs: map<string, string>)
    requires hookArgs.Keys == HookKeys && bodyArgs.Keys == BodyKeys
    ensures var k := choice % 6;
      Fill(SharedConfig(), choice, tag, hookArgs, bodyArgs).None? <==> k == 1 || k == 3 || k == 4 || k == 5
  {
    TemplatesWithinKeys(choice % 6);
    assert Reel.Hashtags != [];
  }

  /** So the fallback of reel_generator.py, with those templates, succeeds only for templates 0 and 2. */
  lemma SharedFallbackRaises(info: ReelInfo, p: Reel.Picks)
    ensures var k := p.template % 6;
      ScriptWithoutAi(SharedConfig(), info, p).None? <==> k == 1 || k == 3 || k == 4 || k == 5
  {
    SharedTemplatesRaise(p.template, p.hashtags,
      HookArgs(Reel.Fact(info, p), info.industry, Reel.CompanyOf(info), Reel.AmountOf(info)),
      BodyArgs(Reel.Visualization(info, p), Reel.Explanation(p), Reel.Secret(info, p), info.industry));
  }

  /**
   * `generate_reel_script_with_ai`: the model's text stripped, or the
   * fallback (which may raise) when there is no key or the call fails.
   */
  function Script(ai: ReelInfo -> Option<string>, config: ReelConfig, info: ReelInfo, p: Reel.Picks): (r: Option<string>)
    ensures ai(info).Some? ==> r == Some(Trim(ai(info).value))
    ensures ai(info).None? ==> r == ScriptWithoutAi(config, info, p)
  {
    var reply := ai(info);
    if reply.Some? then Some(Trim(reply.value)) else ScriptWithoutAi(config, info, p)
  }

  /** A fallback script that does not raise is always saved. */
  lemma FallbackIsSaved(ai: ReelInfo -> Option<string>, config: ReelConfig, info: ReelInfo, p: Reel.Picks)
    requires ai(info).None? && ScriptWithoutAi(config, info, p).Some?
    ensures Script(ai, config, info, p).Some? && Script(ai, config, info, p).value != ""
  {
    FillNotEmpty(config, p.template, p.hashtags,
      HookArgs(Reel.Fact(info, p), info.industry, Reel.CompanyOf(info), Reel.AmountOf(info)),
      BodyArgs(Reel.Visualization(info, p), Reel.Explanation(p), Reel.Secret(info, p), info.industry));
  }

  /** How `run` ends. */
  datatype Outcome =
    | NoArticles              // no file for today, an unreadable one, or an empty list
    | NoSuitableArticle       // no article has content
    | Raised                  // the fallback script raised
    | Finished(path: Option<string>)  // the path written, or `None` for an empty script

  /** `ReelGenerator` of reel_generator.py: the files it writes. */
  class ReelGenerator {
    const reelsDir: string
    var files: map<string, string>

    constructor (existing: map<string, string>)
      ensures reelsDir == PathJoin("output", "reels") && files == existing
    {
      reelsDir := PathJoin("output", "reels");
      files := existing;
    }

    /**
     * `run`: the first article with content is scripted and its script
     * saved under its title; nothing is written when there is no such
     * article, when the fallback raises, or when the script is empty.
     */
    method Run(articles: Option<seq<Article>>, today: string, ai: ReelInfo -> Option<string>,
               config: ReelConfig, p: Reel.Picks)
      returns (outcome: Outcome)
      requires articles.Some? && FirstWithContent(articles.value).Some? ==>
        articles.value[FirstWithContent(articles.value).value].title.Some?
      modifies this
      ensures articles.None? || articles.value == [] ==> outcome == NoArticles
      ensures articles.Some? && articles.value != [] && FirstWithContent(articles.value).None? ==>
        outcome == NoSuitableArticle
      ensures !outcome.Finished? ==> files == old(files)
      ensures articles.Some? && articles.value != [] && FirstWithContent(articles.value).Some? ==>
        (var a := articles.value[FirstWithContent(articles.value).value];
         var script := Script(ai, config, SimpleReelInfoOf(a.title.value, Paragraphs(a)), p);
         (script.None? <==> outcome == Raised) &&
         (script.Some? ==>
            (var saved := SaveReelScript(old(files), reelsDir, today, script.value, a.title.value);
             outcome == Finished(saved.path) && files == saved.files)))
    {
      if articles.None? || articles.value == [] {
        return NoArticles;
      }
      var first := FirstWithContent(articles.value);
      if first.None? {
        return NoSuitableArticle;
      }
      var article := articles.value[first.value];
      var info := ExtractKeyInfo(article);
      var script := Script(ai, config, info, p);
      if script.None? {
        return Raised;
      }
      var saved := SaveReelScript(files, reelsDir, today, script.value, article.title.value);
      files := saved.files;
      outcome := Finished(saved.path);
    }
  }
}
