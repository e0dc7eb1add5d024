/**
 * The static style configuration of src/content/style_config.py as far as the
 * generators depend on it: `str.format` templates, the five tiers of the
 * rating scale with their two output formats, the reel templates, and the
 * `get_style_element` lookup. The prose of the templates is elided to "…";
 * the placeholders and their order are kept.
 */
module StyleConfig {
  import opened Wrappers
  import opened Strings

  // ---- str.format over templates

  /** A piece of a format string: literal text, or a `{name}` placeholder. */
  datatype Piece = Lit(text: string) | Hole(name: string)

  type Template = seq<Piece>

  /** The placeholder names of a template. */
  function Holes(t: Template): set<string> {
    if t == [] then {} else (if t[0].Hole? then {t[0].name} else {}) + Holes(t[1..])
  }

  /**
   * `t.format(**args)`: every placeholder replaced by its argument, read
   * left to right; `None` where Python raises `KeyError`, which is exactly
   * when some placeholder has no argument.
   */
  function Format(t: Template, args: map<string, string>): (r: Option<string>)
    ensures r.Some? <==> Holes(t) <= args.Keys
  {
    if t == [] then Some("")
    else
      var head := match t[0]
        case Lit(s) => Some(s)
        case Hole(n) => if n in args then Some(args[n]) else None;
      var rest := Format(t[1..], args);
      if head.Some? && rest.Some? then Some(head.value + rest.value) else None
  }

  /** Formatting a concatenation formats each part and concatenates the results. */
  lemma {:induction false} FormatConcat(t1: Template, t2: Template, args: map<string, string>)
    ensures Format(t1 + t2, args) ==
      if Format(t1, args).Some? && Format(t2, args).Some? then Some(Format(t1, args).value + Format(t2, args).value)
      else None
  {
    if t1 == [] {
      assert t1 + t2 == t2;
      if Format(t2, args).Some? {
        assert "" + Format(t2, args).value == Format(t2, args).value;
      }
    } else {
      assert (t1 + t2)[1..] == t1[1..] + t2;
      FormatConcat(t1[1..], t2, args);
      var head := match t1[0]
        case Lit(s) => Some(s)
        case Hole(n) => if n in args then Some(args[n]) else None;
      if head.Some? && Format(t1[1..], args).Some? && Format(t2, args).Some? {
        assert head.value + (Format(t1[1..], args).value + Format(t2, args).value)
          == (head.value + Format(t1[1..], args).value) + Format(t2, args).value;
      }
    }
  }

  /**
   * More arguments never change a format that succeeds: with arguments that
   * extend `a1`, a template that formats under `a1` formats to the same text.
   */
  lemma {:induction false} FormatExtend(t: Template, a1: map<string, string>, a2: map<string, string>)
    requires forall n :: n in a1 ==> n in a2 && a2[n] == a1[n]
    requires Format(t, a1).Some?
    ensures Format(t, a2) == Format(t, a1)
  {
    if t != [] {
      FormatExtend(t[1..], a1, a2);
    }
  }

  /** A template without placeholders formats to its literal text, whatever the arguments. */
  lemma {:induction false} FormatLiteral(s: string, args: map<string, string>)
    ensures Format([Lit(s)], args) == Some(s)
  {
    assert [Lit(s)][1..] == [];
    assert s + "" == s;
  }

  /** Formatting a template that starts with one piece: that piece, then the rest. */
  lemma FormatCons(p: Piece, t: Template, args: map<string, string>)
    ensures p.Lit? ==>
      (Format([p] + t, args) == if Format(t, args).Some? then Some(p.text + Format(t, args).value) else None)
    ensures p.Hole? ==>
      (Format([p] + t, args) ==
         if p.name in args && Format(t, args).Some? then Some(args[p.name] + Format(t, args).value) else None)
  {
    assert ([p] + t)[0] == p;
    assert ([p] + t)[1..] == t;
  }

  /** The shape of both rating formats: a header, then rockets, score and description. */
  function RatingFormatWith(header: string): Template {
    [Lit(header), Hole("symbol"), Lit(" ("), Hole("score"), Lit("/5)\n"), Hole("description")]
  }

  /** A rating format with all three arguments reads: header, rockets, " (", score, "/5)", a line break, description. */
  lemma FormatRating(header: string, args: map<string, string>)
    requires "symbol" in args && "score" in args && "description" in args
    ensures Format(RatingFormatWith(header), args) ==
      Some(header + args["symbol"] + " (" + args["score"] + "/5)\n" + args["description"])
  {
    var d := args["description"];
    FormatCons(Hole("description"), [], args);
    assert [Hole("description")] + [] == [Hole("description")];
    assert d + "" == d;
    var t4 := [Lit("/5)\n"), Hole("description")];
    FormatCons(Lit("/5)\n"), [Hole("description")], args);
    assert [Lit("/5)\n")] + [Hole("description")] == t4;
    var t3 := [Hole("score")] + t4;
    FormatCons(Hole("score"), t4, args);
    var t2 := [Lit(" (")] + t3;
    FormatCons(Lit(" ("), t3, args);
    var t1 := [Hole("symbol")] + t2;
    FormatCons(Hole("symbol"), t2, args);
    FormatCons(Lit(header), t1, args);
    assert RatingFormatWith(header) == [Lit(header)] + t1;
    var sy, sc := args["symbol"], args["score"];
    assert header + (sy + (" (" + (sc + ("/5)\n" + d)))) == header + sy + " (" + sc + "/5)\n" + d;
  }

  // ---- the rating scale

  /** One tier of the rating: its score, its rockets and its two descriptions. */
  datatype RatingLevel = RatingLevel(score: nat, symbol: string, description: string, englishDescription: string)

  const Rocket: char := '🚀'

  const RatingScale: seq<RatingLevel> := [
    RatingLevel(1, "🚀", "Интересная идея, но нужна серьезная доработка", "Interesting idea, but needs serious refinement"),
    RatingLevel(2, "🚀🚀", "Перспективный проект с хорошим потенциалом", "Promising project with good potential"),
    RatingLevel(3, "🚀🚀🚀", "Сильное решение с реальными бизнес-перспективами", "Strong solution with real business prospects"),
    RatingLevel(4, "🚀🚀🚀🚀", "Отличный стартап с высокой вероятностью успеха", "Excellent startup with high probability of success"),
    RatingLevel(5, "🚀🚀🚀🚀🚀", "Революционный проект, способный изменить индустрию", "Revolutionary project that can change the industry")
  ]

  /** The tiers list the scores 1 to 5 in order, tier k with k rockets. */
  lemma ScaleShape()
    ensures |RatingScale| == 5
    ensures forall k :: 0 <= k < 5 ==> RatingScale[k].score == k + 1
    ensures forall k :: 0 <= k < 5 ==>
      (|RatingScale[k].symbol| == k + 1 && forall c :: c in RatingScale[k].symbol ==> c == Rocket)
  {
  }

  /** The position of the first tier with score `score` from `i` on, or `|RatingScale|`. */
  function LevelIndex(score: int, i: nat): (k: nat)
    requires i <= |RatingScale|
    ensures i <= k <= |RatingScale|
    ensures k < |RatingScale| ==> RatingScale[k].score == score
    ensures forall j :: i <= j < k ==> RatingScale[j].score != score
    decreases |RatingScale| - i
  {
    if i == |RatingScale| || RatingScale[i].score == score then i else LevelIndex(score, i + 1)
  }

  /** `next((l for l in scale if l["score"] == score), scale[2])` */
  function FindLevel(score: int): (level: RatingLevel)
    ensures level in RatingScale
    ensures 1 <= score <= 5 ==> level.score == score
    ensures !(1 <= score <= 5) ==> level == RatingScale[2]
  {
    ScaleShape();
    var k := LevelIndex(score, 0);
    if k < |RatingScale| then RatingScale[k] else RatingScale[2]
  }

  /** The fallback tier is the middle one, score 3. */
  lemma FallbackIsMiddle()
    ensures RatingScale[2].score == 3 && FindLevel(3) == RatingScale[2]
  {
  }

  /** `dubskiy_rating["format"]` */
  const RussianRatingFormat: Template := RatingFormatWith("\n\n📊 **Рейтинг Дубского**: ")

  /** `dubskiy_rating["english_format"]` */
  const EnglishRatingFormat: Template := RatingFormatWith("\n\n📊 **Dubskiy Rating**: ")

  /** Both rating formats take exactly the placeholders symbol, score and description. */
  lemma RatingFormatHoles()
    ensures Holes(RussianRatingFormat) == {"symbol", "score", "description"}
    ensures Holes(EnglishRatingFormat) == {"symbol", "score", "description"}
  {
  }

  // ---- the reel templates

  /** `{"hook": …, "body": …, "conclusion": …}`; the conclusion is used as is, never formatted. */
  datatype ReelTemplate = ReelTemplate(hook: Template, body: Template, conclusion: string)

  /**
   * A template with the given placeholders in order and elided prose around
   * and between them.
   */
  function Slots(names: seq<string>): Template {
    if names == [] then [Lit("…")] else [Lit("…"), Hole(names[0])] + Slots(names[1..])
  }

  /** The placeholders of `Slots(names)` are exactly `names`. */
  lemma {:induction false} SlotsHoles(names: seq<string>)
    ensures Holes(Slots(names)) == set n | n in names
  {
    if names != [] {
      SlotsHoles(names[1..]);
      var t := Slots(names);
      assert t[0] == Lit("…");
      assert t[1..] == [Hole(names[0])] + Slots(names[1..]);
      assert Holes(t[1..]) == {names[0]} + Holes(Slots(names[1..]));
      assert names == [names[0]] + names[1..];
    }
  }

  /** The placeholders of the six hooks of `instagram_reel_templates`, in order. */
  const HookNames: seq<seq<string>> := [
    ["interesting_fact", "topic"], ["company", "industry"], ["amount"], ["company"],
    ["industry", "company"], ["company", "metric", "percentage", "time_period"]]

  /** The placeholders of the six bodies, in order. */
  const BodyNames: seq<seq<string>> := [
    ["visualization", "topic"], ["explanation"], ["secret"], ["problem", "solution", "result"],
    ["before", "after", "future"], ["step1", "step2", "step3", "outcome"]]

  /** `instagram_reel_templates` with the prose, conclusions included, elided. */
  const ReelTemplates: seq<ReelTemplate> := [
    ReelTemplate(Slots(HookNames[0]), Slots(BodyNames[0]), "…"),
    ReelTemplate(Slots(HookNames[1]), Slots(BodyNames[1]), "…"),
    ReelTemplate(Slots(HookNames[2]), Slots(BodyNames[2]), "…"),
    ReelTemplate(Slots(HookNames[3]), Slots(BodyNames[3]), "…"),
    ReelTemplate(Slots(HookNames[4]), Slots(BodyNames[4]), "…"),
    ReelTemplate(Slots(HookNames[5]), Slots(BodyNames[5]), "…")]

  /** The placeholders of template `k`'s hook and body. */
  lemma TemplateHoles(k: nat)
    requires k < 6
    ensures |ReelTemplates| == 6
    ensures Holes(ReelTemplates[k].hook) == set n | n in HookNames[k]
    ensures Holes(ReelTemplates[k].body) == set n | n in BodyNames[k]
  {
    assert ReelTemplates[k] == ReelTemplate(Slots(HookNames[k]), Slots(BodyNames[k]), "…") by {
      if k == 0 {} else if k == 1 {} else if k == 2 {} else if k == 3 {} else if k == 4 {} else {}
    }
    SlotsHoles(HookNames[k]);
    SlotsHoles(BodyNames[k]);
  }

  /** The hook of the template asks for a metric. */
  predicate NeedsMetric(t: ReelTemplate) {
    "metric" in Holes(t.hook)
  }

  /** Exactly one hook, the last one, asks for a metric. */
  lemma OneMetricHook()
    ensures |ReelTemplates| == 6
    ensures forall k :: 0 <= k < 6 ==> (NeedsMetric(ReelTemplates[k]) <==> k == 5)
  {
    forall k | 0 <= k < 6
      ensures NeedsMetric(ReelTemplates[k]) <==> k == 5
    {
      TemplateHoles(k);
      assert "metric" in HookNames[k] <==> k == 5;
    }
  }

  // ---- get_style_element

  /** A value of the configuration dictionary: a string, a list or a nested dictionary. */
  datatype StyleValue = Text(s: string) | Items(items: seq<StyleValue>) | Table(entries: map<string, StyleValue>)

  /** What `get_style_element` gives back: `None`, the whole entry, one element, or a raised `KeyError`. */
  datatype Lookup = Missing | Whole(v: StyleValue) | Element(v: StyleValue) | Raises

  /** `len(v)` */
  function Length(v: StyleValue): nat {
    match v
    case Text(s) => |s|
    case Items(items) => |items|
    case Table(entries) => |entries|
  }

  /**
   * `get_style_element(t, index)`: `None` for an unknown key; the element at
   * `index` when it is in range (a one-character string for a string entry,
   * `KeyError` for a dictionary entry, whose keys are not integers); the
   * whole entry when `index` is `None` or out of range.
   */
  function GetStyleElement(config: map<string, StyleValue>, elementType: string, index: Option<int>): (r: Lookup)
    ensures r.Missing? <==> elementType !in config
    ensures r.Whole? <==> elementType in config && !(index.Some? && 0 <= index.value < Length(config[elementType]))
    ensures r.Raises? <==>
      (elementType in config && config[elementType].Table? && index.Some? && 0 <= index.value < Length(config[elementType]))
    ensures r.Whole? ==> r.v == config[elementType]
    ensures r.Element? && config[elementType].Items? ==> r.v == config[elementType].items[index.value]
  {
    if elementType !in config then Missing
    else
      var v := config[elementType];
      if index.Some? && 0 <= index.value < Length(v) then
        match v
        case Text(s) => Element(Text([s[index.value]]))
        case Items(items) => Element(items[index.value])
        case Table(_) => Raises
      else Whole(v)
  }
}
