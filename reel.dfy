/**
 * The reel script generator of src/content/reel_generator.py: its key
 * information, the template fallback that never raises, the rating line it
 * prints, and the order of the steps of `run`. The random choices are the
 * indices of `Picks`; the language model is an oracle that gives a text or
 * fails.
 */
module Reel {
  import opened Wrappers
  import opened Strings
  import opened Articles
  import opened ArticleLedger
  import opened Selection
  import opened KeyInfo
  import opened StyleConfig
  import opened Rating
  import opened Naming

  /** `extract_key_info(article)` with the industry in place of the location. */
  method ExtractKeyInfo(a: Article) returns (info: ReelInfo)
    requires a.title.Some?
    ensures info == ReelInfoOf(a.title.value, Paragraphs(a))
  {
    var title := a.title.value;
    var content := Paragraphs(a);
    var company := FindCompanyName(title, content);
    var funding := FindFundingAmount(title, "");
    var industry := FindIndustry(title, content);
    info := ReelInfo(title, company, funding, industry, Summary(content));
  }

  // ---- template choice

  /** `[t for t in templates if "metric" not in t["hook"]]`, in order. */
  function UsableTemplates(ts: seq<ReelTemplate>): (r: seq<ReelTemplate>)
    ensures |r| <= |ts|
  {
    if ts == [] then []
    else (if NeedsMetric(ts[0]) then [] else [ts[0]]) + UsableTemplates(ts[1..])
  }

  /** The usable templates are exactly those whose hook does not ask for a metric. */
  lemma {:induction false} UsableMembers(ts: seq<ReelTemplate>)
    ensures forall t :: t in UsableTemplates(ts) <==> t in ts && !NeedsMetric(t)
  {
    if ts != [] {
      UsableMembers(ts[1..]);
      assert forall t :: t in ts <==> t == ts[0] || t in ts[1..];
    }
  }

  /** A list whose last template, and only that one, needs a metric keeps all but the last. */
  lemma {:induction false} UsableDropsLast(ts: seq<ReelTemplate>)
    requires |ts| > 0 && NeedsMetric(ts[|ts| - 1])
    requires forall k :: 0 <= k < |ts| - 1 ==> !NeedsMetric(ts[k])
    ensures UsableTemplates(ts) == ts[..|ts| - 1]
  {
    var rest := ts[1..];
    if |ts| > 1 {
      assert rest[|rest| - 1] == ts[|ts| - 1];
      assert forall k :: 0 <= k < |rest| - 1 ==> rest[k] == ts[k + 1];
      UsableDropsLast(rest);
      assert UsableTemplates(ts) == [ts[0]] + UsableTemplates(rest);
      assert ts[..|ts| - 1] == [ts[0]] + rest[..|rest| - 1];
    } else {
      assert UsableTemplates(ts) == [] + UsableTemplates(rest);
    }
  }

  /** Of the configured templates, the first five are usable, in their order. */
  lemma UsableAreFirstFive()
    ensures UsableTemplates(ReelTemplates) == ReelTemplates[..5]
  {
    OneMetricHook();
    UsableDropsLast(ReelTemplates);
  }

  /**
   * The template `random.choice` draws with index `choice` from the usable
   * templates of `ts`, or the first of `ts` when none is usable.
   */
  function ChooseFrom(ts: seq<ReelTemplate>, choice: nat): (t: ReelTemplate)
    requires |ts| > 0
    ensures t in ts
    ensures UsableTemplates(ts) != [] ==> !NeedsMetric(t) && t == UsableTemplates(ts)[choice % |UsableTemplates(ts)|]
    ensures UsableTemplates(ts) == [] ==> t == ts[0]
  {
    UsableMembers(ts);
    var usable := UsableTemplates(ts);
    if usable == [] then ts[0] else usable[choice % |usable|]
  }

  /** With the configured templates the choice is template `choice % 5`, never the metric one. */
  function ChooseTemplate(choice: nat): (t: ReelTemplate)
    ensures t in ReelTemplates && !NeedsMetric(t)
    ensures t == ReelTemplates[choice % 5]
  {
    UsableAreFirstFive();
    OneMetricHook();
    ChooseFrom(ReelTemplates, choice)
  }

  // ---- the arguments of the templates

  /** The indices of the random choices of one fallback script. */
  datatype Picks = Picks(template: nat, fact: nat, visualization: nat, explanation: nat, secret: nat, hashtags: nat)

  /** `random.choice(xs)` made with index `i`. */
  function Pick(xs: seq<string>, i: nat): (x: string)
    requires |xs| > 0
    ensures x in xs
  {
    xs[i % |xs|]
  }

  function InterestingFacts(industry: string): seq<string> {
    ["90% стартапов терпят неудачу в первый год",
     "инвестиции в " + industry + " выросли на 200% за последний год",
     "успешные стартапы проходят в среднем через 3 пивота",
     "только 0.05% стартапов получают венчурное финансирование"]
  }

  function Visualizations(company: string, industry: string): seq<string> {
    ["команда " + company + " работает день и ночь над решением, которое изменит " + industry,
     "инвесторы выстраиваются в очередь, чтобы вложиться в перспективный стартап",
     "пользователи восторженно отзываются о новом продукте, который упрощает их жизнь"]
  }

  const Explanations: seq<string> := [
    "они создали уникальную технологию, которая решает проблему эффективности",
    "их платформа соединяет поставщиков и потребителей напрямую, устраняя посредников",
    "их алгоритм использует ИИ для оптимизации процессов"]

  function Secrets(industry: string): seq<string> {
    ["они фокусируются на реальной проблеме и предлагают простое решение",
     "их команда состоит из экспертов с опытом в " + industry,
     "они нашли уникальную нишу, которую игнорировали крупные игроки"]
  }

  /** `STYLE_CONFIG["hashtags"]` */
  const Hashtags: seq<string> := [
    "#стартапы #инновации #технологии #евгенийдубский #эрартаэйай #erartaai",
    "#бизнес #инвестиции #стартап #евгенийдубский #эрартаэйай #erartaai",
    "#технологии #будущее #инновации #евгенийдубский #эрартаэйай #erartaai",
    "#предпринимательство #стартапы #успех #евгенийдубский #эрартаэйай #erartaai",
    "#венчурныеинвестиции #технологии #инновации #евгенийдубский #эрартаэйай #erartaai",
    "#финтех #стартапы #технологии #евгенийдубский #эрартаэйай #erartaai",
    "#цифровизация #инновации #будущее #евгенийдубский #эрартаэйай #erartaai",
    "#технологическиетренды #стартапы #бизнес #евгенийдубский #эрартаэйай #erartaai",
    "#технологическийпрорыв #инновации #будущеесегодня #евгенийдубский #эрартаэйай #erartaai",
    "#стартапэкосистема #технологическиерешения #бизнесидеи #евгенийдубский #эрартаэйай #erartaai",
    "#аналитика #бизнескейсы #стартапопыт #евгенийдубский #эрартаэйай #erartaai",
    "#технологииразвития #инновационныерешения #цифроваятрансформация #евгенийдубский #эрартаэйай #erartaai"]

  /** `STYLE_CONFIG["social_links"]["russian"]` */
  const RussianSocialLinks: string := "\n\nПодписывайтесь на мой Telegram канал: @https://t.me/evgeniydubskiy"

  /** The company the script names: the extracted one, or "этот стартап" when there is none. */
  function CompanyOf(info: ReelInfo): (company: string)
    ensures info.companyName != "" ==> company == info.companyName
  {
    if info.companyName != "" then info.companyName else "этот стартап"
  }

  /** The amount the script names: the funding without any '$', or "миллионы" when there is none. */
  function AmountOf(info: ReelInfo): string {
    if info.fundingAmount != "" then Replace(info.fundingAmount, "$", "") else "миллионы"
  }

  /** The amount of an extracted `"$<w>"` is the number word `w` itself. */
  lemma AmountOfExtracted(info: ReelInfo, w: string)
    requires info.fundingAmount == AmountText(w, "") && '$' !in w
    ensures AmountOf(info) == w
  {
    assert w != [] ==> w[0] != '$';
    assert AmountText(w, "") == "$" + w;
    DropLeadingDollar(w);
  }

  /** The chosen interesting fact, visualization, explanation and secret. */
  function Fact(info: ReelInfo, p: Picks): string { Pick(InterestingFacts(info.industry), p.fact) }
  function Visualization(info: ReelInfo, p: Picks): string { Pick(Visualizations(CompanyOf(info), info.industry), p.visualization) }
  function Explanation(p: Picks): string { Pick(Explanations, p.explanation) }
  function Secret(info: ReelInfo, p: Picks): string { Pick(Secrets(info.industry), p.secret) }

  /** `format_args`: twenty placeholders; "industry" is not one of them. */
  function FormatArgs(info: ReelInfo, p: Picks): map<string, string> {
    FallbackArgs(Fact(info, p), info.industry, CompanyOf(info), AmountOf(info),
      Visualization(info, p), Explanation(p), Secret(info, p))
  }

  // The thirteen fixed values of `format_args`, one worked example.
  const Problem: string := "доступ к заработанным деньгам до дня зарплаты"
  const Solution: string := "интеграция с HR-системами компаний"
  const Result: string := "увеличение удержания сотрудников на 31%"
  const Before: string := "сотрудники ждали зарплату до конца месяца"
  const After: string := "мгновенный доступ к заработанным средствам"
  const Future: string := "полноценная финансовая платформа для сотрудников"
  const Metric: string := "удержание персонала"
  const Percentage: string := "31"
  const TimePeriod: string := "6 месяцев"
  const Step1: string := "анализ проблемы"
  const Step2: string := "разработка решения"
  const Step3: string := "интеграция с существующими системами"
  const Outcome: string := "рост удовлетворенности сотрудников"

  /** The map of `format_args`: the thirteen fixed values, then the seven varying ones. */
  function FallbackArgs(fact: string, topic: string, company: string, amount: string,
                        visualization: string, explanation: string, secret: string): map<string, string> {
    map[
      "problem" := Problem,
      "solution" := Solution,
      "result" := Result,
      "before" := Before,
      "after" := After,
      "future" := Future,
      "metric" := Metric,
      "percentage" := Percentage,
      "time_period" := TimePeriod,
      "step1" := Step1,
      "step2" := Step2,
      "step3" := Step3,
      "outcome" := Outcome,
      "interesting_fact" := fact,
      "topic" := topic,
      "company" := company,
      "amount" := amount,
      "visualization" := visualization,
      "explanation" := explanation,
      "secret" := secret]
  }

  /** The sentence that replaces a hook whose formatting raises `KeyError`. */
  function HookFallback(company: string, industry: string): string {
    "Стартап за 30 секунд! " + company + " делает то, что изменит " + industry + "!"
  }

  /** The sentence that replaces a body whose formatting raises `KeyError`. */
  function BodyFallback(explanation: string): string {
    "Вот как это работает: " + explanation + ". Представляете масштаб?"
  }

  /** A formatted part, or its fallback where formatting raises. */
  function FormatOr(t: Template, args: map<string, string>, fallback: string): (s: string)
    ensures Holes(t) <= args.Keys ==> Some(s) == Format(t, args)
    ensures !(Holes(t) <= args.Keys) ==> s == fallback
  {
    match Format(t, args)
    case Some(s) => s
    case None => fallback
  }

  function Hook(info: ReelInfo, p: Picks): string {
    FormatOr(ChooseTemplate(p.template).hook, FormatArgs(info, p), HookFallback(CompanyOf(info), info.industry))
  }

  function Body(info: ReelInfo, p: Picks): string {
    FormatOr(ChooseTemplate(p.template).body, FormatArgs(info, p), BodyFallback(Explanation(p)))
  }

  /** The keys of `format_args`. */
  const FallbackKeys: seq<string> := [
    "interesting_fact", "topic", "company", "amount", "visualization", "explanation", "secret",
    "problem", "solution", "result", "before", "after", "future",
    "metric", "percentage", "time_period", "step1", "step2", "step3", "outcome"]

  /** The arguments name every placeholder of the configured templates except "industry". */
  predicate ArgsOfFallback(args: map<string, string>) {
    (forall n :: n in FallbackKeys ==> n in args) && "industry" !in args
  }

  /** `format_args` has exactly the twenty keys, "industry" not among them. */
  lemma FallbackArgsKeys(fact: string, topic: string, company: string, amount: string,
                         visualization: string, explanation: string, secret: string)
    ensures var args := FallbackArgs(fact, topic, company, amount, visualization, explanation, secret);
      ArgsOfFallback(args) && args.Keys == set n | n in FallbackKeys
  {
  }

  /**
   * Of the five usable templates, formatting with such arguments raises
   * `KeyError` exactly for the two hooks that ask for "industry" (templates 1
   * and 4), and never for a body.
   */
  lemma UsableTemplateFormats(k: nat, args: map<string, string>)
    requires k < 5 && ArgsOfFallback(args)
    ensures Format(ReelTemplates[k].hook, args).None? <==> k == 1 || k == 4
    ensures Format(ReelTemplates[k].body, args).Some?
  {
    TemplateHoles(k);
    if k == 0 {
      assert HookNames[k] == ["interesting_fact", "topic"] && BodyNames[k] == ["visualization", "topic"];
    } else if k == 1 {
      assert HookNames[k] == ["company", "industry"] && BodyNames[k] == ["explanation"];
    } else if k == 2 {
      assert HookNames[k] == ["amount"] && BodyNames[k] == ["secret"];
    } else if k == 3 {
      assert HookNames[k] == ["company"] && BodyNames[k] == ["problem", "solution", "result"];
    } else {
      assert HookNames[k] == ["industry", "company"] && BodyNames[k] == ["before", "after", "future"];
    }
  }

  /**
   * The fallback script's hook is the fixed sentence exactly for templates 1
   * and 4, and the formatted hook otherwise; its body is always the
   * formatted body. Nothing raises.
   */
  lemma FallbackCases(info: ReelInfo, p: Picks)
    ensures var k := p.template % 5;
      (k == 1 || k == 4) ==> Hook(info, p) == HookFallback(CompanyOf(info), info.industry)
    ensures var k := p.template % 5;
      !(k == 1 || k == 4) ==> Some(Hook(info, p)) == Format(ReelTemplates[k].hook, FormatArgs(info, p))
    ensures Some(Body(info, p)) == Format(ReelTemplates[p.template % 5].body, FormatArgs(info, p))
  {
    FallbackArgsKeys(Fact(info, p), info.industry, CompanyOf(info), AmountOf(info),
      Visualization(info, p), Explanation(p), Secret(info, p));
    UsableTemplateFormats(p.template % 5, FormatArgs(info, p));
  }

  // ---- the script

  /** The text printed between the conclusion and the social links. */
  const VisualIdeas: string :=
    "\n\nВИЗУАЛЬНЫЕ ИДЕИ: \n- Показать логотип и продукт компании\n- Использовать анимированную инфографику для объяснения\n- Включить эмоциональные реакции пользователей\n- Визуализировать \"Рейтинг Дубского\" с анимацией появления ракет\n\n"

  /** The script up to its rating: the hook line, then the body. */
  function Opening(hook: string, body: string): string {
    HookLine(hook) + body + "\n\n"
  }

  /** The first line of the script and the label of the body. */
  function HookLine(hook: string): string {
    "\nHOOK: " + hook + "\n\nОСНОВНАЯ ЧАСТЬ: "
  }

  /** The script after its rating: the conclusion, the visual ideas, the links and the hashtags. */
  function Closing(conclusion: string, hashtags: string): string {
    "\n\nЗАКЛЮЧЕНИЕ: " + conclusion + VisualIdeas + RussianSocialLinks + "\n\nХЭШТЕГИ: " + hashtags + "\n        "
  }

  /** The layout of the fallback script, from its parts. */
  function ScriptText(hook: string, body: string, rating: string, conclusion: string, hashtags: string): string {
    Opening(hook, body) + rating + Closing(conclusion, hashtags)
  }

  /** A script opens with its hook line, is never empty, and shows its rating. */
  lemma ScriptTextShape(hook: string, body: string, rating: string, conclusion: string, hashtags: string)
    ensures var s := ScriptText(hook, body, rating, conclusion, hashtags);
      IsPrefix(HookLine(hook), s) && s != [] && Contains(s, rating)
  {
    var line, rest := HookLine(hook), body + "\n\n" + rating + Closing(conclusion, hashtags);
    assert ScriptText(hook, body, rating, conclusion, hashtags) == line + rest;
    assert (line + rest)[..|line|] == line;
    ContainsMiddle(Opening(hook, body), rating, Closing(conclusion, hashtags));
  }

  /** `generate_reel_script_without_ai(info)` with the random choices `p`. */
  function ScriptWithoutAi(info: ReelInfo, p: Picks): string {
    ScriptText(Hook(info, p), Body(info, p), ReelRating(info.fundingAmount),
      ChooseTemplate(p.template).conclusion, Pick(Hashtags, p.hashtags))
  }

  /**
   * The fallback script opens with its hook line, is never empty (so it is
   * always saved), and shows the reel rating of the funding.
   */
  lemma ScriptWithoutAiShape(info: ReelInfo, p: Picks)
    ensures IsPrefix(HookLine(Hook(info, p)), ScriptWithoutAi(info, p))
    ensures ScriptWithoutAi(info, p) != ""
    ensures Contains(ScriptWithoutAi(info, p), ReelRating(info.fundingAmount))
  {
    ScriptTextShape(Hook(info, p), Body(info, p), ReelRating(info.fundingAmount),
      ChooseTemplate(p.template).conclusion, Pick(Hashtags, p.hashtags));
  }

  /** `generate_reel_script_with_ai`: the model's text stripped, or the fallback when the model fails or there is no key. */
  function Script(ai: ReelInfo -> Option<string>, info: ReelInfo, p: Picks): string {
    match ai(info)
    case Some(text) => Trim(text)
    case None => ScriptWithoutAi(info, p)
  }

  /** Without the model the script is the fallback, which is always saved. */
  lemma ScriptWithoutModel(ai: ReelInfo -> Option<string>, info: ReelInfo, p: Picks)
    requires ai(info).None?
    ensures Script(ai, info, p) == ScriptWithoutAi(info, p) && Script(ai, info, p) != ""
  {
    ScriptWithoutAiShape(info, p);
  }

  /** `ReelGenerator`: the ledger it consults (and never marks) and the files it writes. */
  class ReelGenerator {
    const reelsDir: string
    const tracker: ArticleTracker
    var files: map<string, string>

    constructor (stored: Option<seq<Entry>>, existing: map<string, string>)
      ensures reelsDir == PathJoin("output", "reels") && tracker.processed == stored.GetOr([]) && files == existing
      ensures fresh(tracker)
    {
      reelsDir := PathJoin("output", "reels");
      tracker := new ArticleTracker(stored);
      files := existing;
    }

    /**
     * `run`: nothing happens without articles or without a candidate;
     * otherwise the best candidate's script is saved under its title, unless
     * the script is empty. The ledger is left as it was.
     */
    method Run(articles: Option<seq<Article>>, today: string, ai: ReelInfo -> Option<string>, p: Picks)
      returns (path: Option<string>, chosen: Option<Article>)
      requires articles.Some? ==>
        forall i :: 0 <= i < |articles.value| && Eligible(tracker.processed, articles.value[i]) ==> articles.value[i].title.Some?
      modifies this
      ensures Candidates(tracker.processed, articles.GetOr([])) == [] <==> chosen.None?
      ensures chosen.None? ==> path.None? && files == old(files)
      ensures chosen.Some? ==>
        (var c := Candidates(tracker.processed, articles.GetOr([]));
         var best := chosen.value;
         best.title.Some? &&
         (exists k :: IsFirstBest(c, k) && best == c[k]) &&
         (var saved := SaveReelScript(old(files), reelsDir, today,
            Script(ai, ReelInfoOf(best.title.value, Paragraphs(best)), p), best.title.value);
          path == saved.path && files == saved.files))
    {
      chosen := SelectLoaded(tracker.processed, articles);
      path := None;
      if chosen.Some? {
        path := WriteScript(chosen.value, today, ai, p);
      }
    }

    /** The key information, script and file of one chosen article. */
    method WriteScript(best: Article, today: string, ai: ReelInfo -> Option<string>, p: Picks) returns (path: Option<string>)
      requires best.title.Some?
      modifies this
      ensures var saved := SaveReelScript(old(files), reelsDir, today,
          Script(ai, ReelInfoOf(best.title.value, Paragraphs(best)), p), best.title.value);
        path == saved.path && files == saved.files
    {
      var info := ExtractKeyInfo(best);
      var saved := SaveReelScript(files, reelsDir, today, Script(ai, info, p), best.title.value);
      files := saved.files;
      path := saved.path;
    }
  }
}
