/**
 * The "Dubskiy rating" of a startup (`generate_dubskiy_rating` in
 * src/core/generator.py, `generate_dubskiy_rating_for_reel` in
 * src/content/reel_generator.py): a tier from 2 to 5 read off the funding
 * amount, 3 when there is none, printed with the tier's rockets and text.
 */
module Rating {
  import opened Wrappers
  import opened Strings
  import opened StyleConfig
  import opened KeyInfo

  /** `float(funding.replace('$', '').replace(' million', ''))`, `None` where `float` raises. */
  function FundingValue(funding: string): Option<real> {
    ParseFloat(Replace(Replace(funding, "$", ""), " million", ""))
  }

  /** The tier of a parsed amount (in millions): strictly above 50, 20 and 5, or below. */
  function Tier(amount: real): (score: int)
    ensures 2 <= score <= 5
  {
    if amount > 50.0 then 5 else if amount > 20.0 then 4 else if amount > 5.0 then 3 else 2
  }

  /** A larger amount never gets a lower tier. */
  lemma TierMonotone(u: real, v: real)
    requires u <= v
    ensures Tier(u) <= Tier(v)
  {
  }

  /** The rating score: 3 without a readable amount, the amount's tier otherwise; never 1. */
  function RatingScore(funding: string): (score: int)
    ensures 2 <= score <= 5
    ensures funding == "" || FundingValue(funding).None? ==> score == 3
  {
    if funding == "" then 3
    else match FundingValue(funding)
      case None => 3
      case Some(v) => Tier(v)
  }

  /** The source's steps: a default of 3, reassigned from the parsed amount when there is one. */
  method ComputeRatingScore(funding: string) returns (score: int)
    ensures score == RatingScore(funding)
  {
    score := 3;
    if funding != "" {
      var parsed := FundingValue(funding);
      if parsed.Some? {
        var amount := parsed.value;
        if amount > 50.0 {
          score := 5;
        } else if amount > 20.0 {
          score := 4;
        } else if amount > 5.0 {
          score := 3;
        } else {
          score := 2;
        }
      }
    }
  }

  /** With no '$' after the leading one, removing '$' leaves the rest. */
  lemma DropLeadingDollar(rest: string)
    requires '$' !in rest
    ensures Replace("$" + rest, "$", "") == rest
  {
    ReplaceAtStart("$", rest, "");
    ReplaceAbsent(rest, "$", "");
    assert "" + rest == rest;
  }

  /** A space-free word followed by " million" loses exactly that suffix. */
  lemma DropMillion(w: string)
    requires ' ' !in w
    ensures Replace(w + PostSuffix, PostSuffix, "") == w
  {
    ReplaceAtEnd(w, PostSuffix, "");
    assert w + "" == w;
  }

  /**
   * The amount the extraction writes for a number word reads back as that
   * number: `"$<w> million"` in the post generators, `"$<w>"` in the reel
   * generators.
   */
  lemma FundingValueOfWord(w: string, suffix: string)
    requires suffix == PostSuffix || suffix == ""
    requires '$' !in w && ' ' !in w
    ensures FundingValue(AmountText(w, suffix)) == ParseFloat(w)
  {
    assert w != [] ==> w[0] != '$';
    var rest := w + suffix;
    assert AmountText(w, suffix) == "$" + rest;
    assert '$' !in rest;
    DropLeadingDollar(rest);
    if suffix == PostSuffix {
      DropMillion(w);
    } else {
      assert rest == w;
      ReplaceAbsent(w, PostSuffix, "");
    }
  }

  /** A title that says "<n> million" is rated by the tier of n. */
  lemma RatingOfMillions(n: nat, suffix: string)
    requires suffix == PostSuffix || suffix == ""
    ensures RatingScore(AmountText(NatToString(n), suffix)) == Tier(n as real)
  {
    var w := NatToString(n);
    assert '$' !in w && ' ' !in w;
    FundingValueOfWord(w, suffix);
    ParseFloatOfNat(n);
  }

  /** The tier printed for a funding amount. */
  function LevelFor(funding: string): (level: RatingLevel)
    ensures level.score == RatingScore(funding)
  {
    FindLevel(RatingScore(funding))
  }

  /** The placeholders of a rating format, filled from a tier in one language. */
  function RatingArgs(level: RatingLevel, english: bool): map<string, string> {
    map["symbol" := level.symbol, "score" := NatToString(level.score),
        "description" := if english then level.englishDescription else level.description]
  }

  /**
   * `generate_dubskiy_rating(info, language)`: the English format for
   * "english", the Russian one for any other language.
   */
  function DubskiyRating(funding: string, language: string): string {
    var english := language == "english";
    var format := if english then EnglishRatingFormat else RussianRatingFormat;
    RatingFormatHoles();
    Format(format, RatingArgs(LevelFor(funding), english)).value
  }

  /** The rating reads: header, rockets, "(score/5)", a line break, and the tier's description. */
  lemma DubskiyRatingLayout(funding: string, language: string)
    ensures var level := LevelFor(funding);
      var english := language == "english";
      DubskiyRating(funding, language) ==
        (if english then "\n\n📊 **Dubskiy Rating**: " else "\n\n📊 **Рейтинг Дубского**: ") +
        level.symbol + " (" + NatToString(level.score) + "/5)\n" +
        (if english then level.englishDescription else level.description)
  {
    var english := language == "english";
    FormatRating(if english then "\n\n📊 **Dubskiy Rating**: " else "\n\n📊 **Рейтинг Дубского**: ",
      RatingArgs(LevelFor(funding), english));
  }

  /** `generate_dubskiy_rating_for_reel`: a plain line with the rockets and score, then the Russian description. */
  function ReelRating(funding: string): string {
    var level := LevelFor(funding);
    "РЕЙТИНГ ДУБСКОГО: " + level.symbol + " (" + NatToString(RatingScore(funding)) + "/5)\n" + level.description
  }

  /**
   * The Russian post rating and the reel rating of the same funding end in
   * the same text: the tier's rockets, "(score/5)", a line break and its
   * Russian description; only the header differs.
   */
  lemma RatingsAgree(funding: string)
    ensures var level := LevelFor(funding);
      var tail := level.symbol + " (" + NatToString(level.score) + "/5)\n" + level.description;
      DubskiyRating(funding, "russian") == "\n\n📊 **Рейтинг Дубского**: " + tail &&
      ReelRating(funding) == "РЕЙТИНГ ДУБСКОГО: " + tail
  {
    var level := LevelFor(funding);
    var sym, num, desc := level.symbol, NatToString(level.score), level.description;
    var tail := sym + " (" + num + "/5)\n" + desc;
    var header := "\n\n📊 **Рейтинг Дубского**: ";
    DubskiyRatingLayout(funding, "russian");
    assert DubskiyRating(funding, "russian") == header + sym + " (" + num + "/5)\n" + desc;
    ConcatFive(header, sym, " (", num, "/5)\n", desc);
    ConcatFive("РЕЙТИНГ ДУБСКОГО: ", sym, " (", num, "/5)\n", desc);
  }

  /** Concatenation regroups: a head followed by a left-nested tail of five parts. */
  lemma ConcatFive<T>(h: seq<T>, a: seq<T>, b: seq<T>, c: seq<T>, d: seq<T>, e: seq<T>)
    ensures h + a + b + c + d + e == h + (a + b + c + d + e)
  {
  }
}
