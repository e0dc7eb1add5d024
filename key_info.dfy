/**
 * The heuristics of `extract_key_info`, shared by src/core/generator.py,
 * src/content/reel_generator.py, content_generator.py and reel_generator.py:
 * a company name, a funding amount, a location, an industry and a summary,
 * all read off the title and the first paragraphs. Each heuristic is a
 * function stating what it finds, and a method with the source's loop.
 */
module KeyInfo {
  import opened Strings

  /** Title words that, following a capitalised word, mark it as the company. */
  const NameVerbs: seq<string> := ["raises", "secures", "gets", "receives", "announces", "launches"]

  /** Words never taken as a company name by the last fallback of the four-step heuristic. */
  const FallbackStopwords: seq<string> :=
    ["the", "a", "an", "in", "on", "at", "by", "for", "with", "to", "saudi", "dubai", "egypt", "uae", "fintech", "startup"]

  /** Words never taken as a company name by the one-step heuristic of the top-level scripts. */
  const SimpleStopwords: seq<string> := ["the", "a", "an", "in", "on", "at", "by", "for", "with", "to"]

  const LocationKeywords: seq<string> :=
    ["dubai", "saudi", "egypt", "uae", "qatar", "bahrain", "kuwait", "oman", "jordan", "lebanon"]

  const IndustryKeywords: seq<string> := ["fintech", "healthtech", "edtech", "proptech", "ecommerce", "saas", "ai", "blockchain"]

  /** The industry reported when no keyword is found ("technology sector"). */
  const DefaultIndustry: string := "технологический сектор"

  /** `word.strip("'s").strip(",").strip(".")`: each a character-set strip of both ends. */
  function CleanName(w: string): string {
    Strip(Strip(Strip(w, {'\'', 's'}), {','}), {'.'})
  }

  /** A capitalised word keeps its capital through `CleanName`, so the name is never empty. */
  lemma CleanNameKeepsInitial(w: string)
    requires w != [] && IsUpper(w[0])
    ensures CleanName(w) != [] && CleanName(w)[0] == w[0]
  {
    StripKeepsHead(w, {'\'', 's'});
    StripKeepsHead(Strip(w, {'\'', 's'}), {','});
    StripKeepsHead(Strip(Strip(w, {'\'', 's'}), {','}), {'.'});
  }

  /** `word[0].isupper()` for a word of `split()` */
  predicate Capitalised(w: string) {
    w != [] && IsUpper(w[0])
  }

  // ---- step 1: the capitalised word before the first word ending in a comma

  predicate CommaAfterName(ws: seq<string>, i: int) {
    0 < i < |ws| && IsSuffix(",", ws[i]) && Capitalised(ws[i - 1])
  }

  /** The first position from `i` on where `CommaAfterName` holds, or `|ws|`. */
  function CommaIndex(ws: seq<string>, i: nat): (k: nat)
    requires i <= |ws|
    ensures i <= k <= |ws|
    ensures k < |ws| ==> CommaAfterName(ws, k)
    ensures forall j :: i <= j < k ==> !CommaAfterName(ws, j)
    decreases |ws| - i
  {
    if i == |ws| || CommaAfterName(ws, i) then i else CommaIndex(ws, i + 1)
  }

  /** The word before the first comma-ended word of `ws` whose predecessor is capitalised, or "". */
  function NameBeforeComma(ws: seq<string>): (r: string)
    ensures r != "" <==> exists i :: CommaAfterName(ws, i)
    ensures r != "" ==> IsUpper(r[0]) && r == ws[CommaIndex(ws, 0) - 1]
  {
    var k := CommaIndex(ws, 0);
    if k < |ws| then ws[k - 1] else ""
  }

  method FindNameBeforeComma(ws: seq<string>) returns (name: string)
    ensures name == NameBeforeComma(ws)
  {
    name := "";
    for i := 0 to |ws|
      invariant forall j :: 0 <= j < i ==> !CommaAfterName(ws, j)
    {
      if CommaAfterName(ws, i) {
        name := ws[i - 1];
        return;
      }
    }
  }

  // ---- step 2: a capitalised title word followed by one of the verbs

  predicate NameBeforeVerbAt(ws: seq<string>, i: int) {
    0 <= i < |ws| - 1 && Capitalised(ws[i]) && Lower(ws[i + 1]) in NameVerbs
  }

  /** The first position from `i` on where `NameBeforeVerbAt` holds, or `|ws|`. */
  function VerbIndex(ws: seq<string>, i: nat): (k: nat)
    requires i <= |ws|
    ensures i <= k <= |ws|
    ensures k < |ws| ==> NameBeforeVerbAt(ws, k)
    ensures forall j :: i <= j < k ==> !NameBeforeVerbAt(ws, j)
    decreases |ws| - i
  {
    if i == |ws| || NameBeforeVerbAt(ws, i) then i else VerbIndex(ws, i + 1)
  }

  /** The cleaned first capitalised word followed by "raises", "secures", …, or "". */
  function NameBeforeVerb(ws: seq<string>): (r: string)
    ensures r != "" <==> exists i :: NameBeforeVerbAt(ws, i)
    ensures r != "" ==> IsUpper(r[0]) && r == CleanName(ws[VerbIndex(ws, 0)])
  {
    var k := VerbIndex(ws, 0);
    if k < |ws| then
      CleanNameKeepsInitial(ws[k]);
      CleanName(ws[k])
    else ""
  }

  method FindNameBeforeVerb(ws: seq<string>) returns (name: string)
    ensures name == NameBeforeVerb(ws)
  {
    name := "";
    for i := 0 to |ws|
      invariant forall j :: 0 <= j < i ==> !NameBeforeVerbAt(ws, j)
    {
      if NameBeforeVerbAt(ws, i) {
        VerbIndexIs(ws, 0, i);
        name := CleanName(ws[i]);
        return;
      }
    }
    VerbIndexIs(ws, 0, |ws|);
  }

  /** `VerbIndex` finds the first position from `i` on where the pattern holds. */
  lemma {:induction false} VerbIndexIs(ws: seq<string>, i: nat, k: nat)
    requires i <= k <= |ws| && (k < |ws| ==> NameBeforeVerbAt(ws, k))
    requires forall j :: i <= j < k ==> !NameBeforeVerbAt(ws, j)
    ensures VerbIndex(ws, i) == k
    decreases k - i
  {
    if i < k {
      VerbIndexIs(ws, i + 1, k);
    }
  }

  // ---- step 3: the capitalised word after "startup"

  /**
   * The cleaned second word of the title read from the first occurrence of
   * "startup" (in the lower-cased title), when it is capitalised; "" otherwise.
   */
  function NameAfterStartup(title: string): (r: string)
    ensures r != "" ==> IsUpper(r[0]) && Contains(Lower(title), "startup")
    ensures r != "" ==> var after := Words(title[Find(Lower(title), "startup")..]);
      |after| > 1 && r == CleanName(after[1])
  {
    var lower := Lower(title);
    if Contains(lower, "startup") then
      var after := Words(title[Find(lower, "startup")..]);
      if |after| > 1 && Capitalised(after[1]) then
        CleanNameKeepsInitial(after[1]);
        CleanName(after[1])
      else ""
    else ""
  }

  // ---- step 4: the first capitalised word outside a stopword list

  predicate NameCandidateAt(ws: seq<string>, stops: seq<string>, i: int) {
    0 <= i < |ws| && Capitalised(ws[i]) && Lower(ws[i]) !in stops
  }

  /** The first position from `i` on where `NameCandidateAt` holds, or `|ws|`. */
  function CandidateIndex(ws: seq<string>, stops: seq<string>, i: nat): (k: nat)
    requires i <= |ws|
    ensures i <= k <= |ws|
    ensures k < |ws| ==> NameCandidateAt(ws, stops, k)
    ensures forall j :: i <= j < k ==> !NameCandidateAt(ws, stops, j)
    decreases |ws| - i
  {
    if i == |ws| || NameCandidateAt(ws, stops, i) then i else CandidateIndex(ws, stops, i + 1)
  }

  /** The cleaned first capitalised word whose lower-case form is not a stopword, or "". */
  function FirstCapitalisedName(ws: seq<string>, stops: seq<string>): (r: string)
    ensures r != "" <==> exists i :: NameCandidateAt(ws, stops, i)
    ensures r != "" ==> IsUpper(r[0]) && r == CleanName(ws[CandidateIndex(ws, stops, 0)])
  {
    var k := CandidateIndex(ws, stops, 0);
    if k < |ws| then
      CleanNameKeepsInitial(ws[k]);
      CleanName(ws[k])
    else ""
  }

  method FindFirstCapitalisedName(ws: seq<string>, stops: seq<string>) returns (name: string)
    ensures name == FirstCapitalisedName(ws, stops)
  {
    name := "";
    for i := 0 to |ws|
      invariant forall j :: 0 <= j < i ==> !NameCandidateAt(ws, stops, j)
    {
      if NameCandidateAt(ws, stops, i) {
        name := CleanName(ws[i]);
        return;
      }
    }
  }

  // ---- the four steps in order

  /**
   * The company name of src/core/generator.py and src/content/reel_generator.py:
   * the first of the four steps that finds something.
   */
  function CompanyName(title: string, paragraphs: seq<string>): (r: string)
    ensures r != "" ==> IsUpper(r[0])
    ensures (exists i :: NameCandidateAt(Words(title), FallbackStopwords, i)) ==> r != ""
    ensures paragraphs != [] && NameBeforeComma(Words(paragraphs[0])) != "" ==> r == NameBeforeComma(Words(paragraphs[0]))
  {
    var fromParagraph := if paragraphs != [] then NameBeforeComma(Words(paragraphs[0])) else "";
    if fromParagraph != "" then fromParagraph
    else if NameBeforeVerb(Words(title)) != "" then NameBeforeVerb(Words(title))
    else if NameAfterStartup(title) != "" then NameAfterStartup(title)
    else FirstCapitalisedName(Words(title), FallbackStopwords)
  }

  /** The source's sequence of loops for the four-step company name. */
  method FindCompanyName(title: string, paragraphs: seq<string>) returns (name: string)
    ensures name == CompanyName(title, paragraphs)
  {
    name := "";
    if paragraphs != [] {
      name := FindNameBeforeComma(Words(paragraphs[0]));
    }
    if name == "" {
      name := FindNameBeforeVerb(Words(title));
    }
    if name == "" {
      name := NameAfterStartup(title);
    }
    if name == "" {
      name := FindFirstCapitalisedName(Words(title), FallbackStopwords);
    }
  }

  // ---- funding amount: the word before the last "million"

  predicate MillionAt(ws: seq<string>, i: int) {
    0 < i < |ws| && Lower(ws[i]) == "million"
  }

  /** The last position below `n` where `MillionAt` holds, or -1. */
  function LastMillion(ws: seq<string>, n: nat): (k: int)
    requires n <= |ws|
    ensures -1 <= k < n
    ensures k >= 0 ==> MillionAt(ws, k)
    ensures forall j :: k < j < n ==> !MillionAt(ws, j)
  {
    if n == 0 then -1 else if MillionAt(ws, n - 1) then n - 1 else LastMillion(ws, n - 1)
  }

  /** How a number word is written as an amount: kept when it starts with "$", else "$" + word + suffix. */
  function AmountText(word: string, suffix: string): string {
    if IsPrefix("$", word) then word else "$" + word + suffix
  }

  /** The amount read off the word before the LAST "million" (any case) of `ws`, or "". */
  function AmountBeforeLastMillion(ws: seq<string>, suffix: string): (r: string)
    ensures r != "" <==> exists i :: MillionAt(ws, i)
    ensures r != "" ==> IsPrefix("$", r) && r == AmountText(ws[LastMillion(ws, |ws|) - 1], suffix)
  {
    var k := LastMillion(ws, |ws|);
    if k >= 0 then AmountText(ws[k - 1], suffix) else ""
  }

  /**
   * The funding amount: the amount before the last "million" of the title
   * when the title mentions "million" or "$"; "" otherwise. `suffix` is
   * " million" in the generators of posts and "" in the reel generators.
   */
  function FundingAmount(title: string, suffix: string): string {
    if Contains(Lower(title), "million") || Contains(title, "$") then AmountBeforeLastMillion(Words(title), suffix)
    else ""
  }

  /** The source's test on the title, then its loop over the title's words. */
  method FindFundingAmount(title: string, suffix: string) returns (amount: string)
    ensures amount == FundingAmount(title, suffix)
  {
    amount := "";
    if Contains(Lower(title), "million") || Contains(title, "$") {
      amount := ScanForAmount(Words(title), suffix);
    }
  }

  /** The source's loop, where a later "million" overwrites an earlier one. */
  method ScanForAmount(ws: seq<string>, suffix: string) returns (amount: string)
    ensures amount == AmountBeforeLastMillion(ws, suffix)
  {
    amount := "";
    for i := 0 to |ws|
      invariant var k := LastMillion(ws, i);
        amount == if k >= 0 then AmountText(ws[k - 1], suffix) else ""
    {
      if MillionAt(ws, i) {
        amount := AmountText(ws[i - 1], suffix);
      }
    }
  }

  // ---- location: the first title word that names a place of the list

  predicate LocationAt(ws: seq<string>, i: int) {
    0 <= i < |ws| && Lower(ws[i]) in LocationKeywords
  }

  /** The first position from `i` on where `LocationAt` holds, or `|ws|`. */
  function LocationIndex(ws: seq<string>, i: nat): (k: nat)
    requires i <= |ws|
    ensures i <= k <= |ws|
    ensures k < |ws| ==> LocationAt(ws, k)
    ensures forall j :: i <= j < k ==> !LocationAt(ws, j)
    decreases |ws| - i
  {
    if i == |ws| || LocationAt(ws, i) then i else LocationIndex(ws, i + 1)
  }

  /** The first word (as written) whose lower-case form is one of the places; "" when none is. */
  function Location(ws: seq<string>): (r: string)
    ensures r != "" ==> Lower(r) in LocationKeywords && r in ws
    ensures r == "" <==> forall i :: 0 <= i < |ws| ==> !LocationAt(ws, i)
    ensures r != "" ==> r == ws[LocationIndex(ws, 0)]
  {
    var k := LocationIndex(ws, 0);
    if k < |ws| then ws[k] else ""
  }

  method FindLocation(ws: seq<string>) returns (location: string)
    ensures location == Location(ws)
  {
    location := "";
    for i := 0 to |ws|
      invariant forall j :: 0 <= j < i ==> !LocationAt(ws, j)
    {
      if LocationAt(ws, i) {
        location := ws[i];
        return;
      }
    }
  }

  // ---- industry: the first keyword of the list found in the title or the first paragraphs

  /** `keyword in title.lower() or any(keyword in p.lower() for p in content[:3] if p)` */
  predicate MentionsKeyword(title: string, paragraphs: seq<string>, keyword: string) {
    Contains(Lower(title), keyword) ||
    exists p :: p in Take(paragraphs, 3) && p != "" && Contains(Lower(p), keyword)
  }

  predicate IndustryAt(title: string, paragraphs: seq<string>, i: int) {
    0 <= i < |IndustryKeywords| && MentionsKeyword(title, paragraphs, IndustryKeywords[i])
  }

  /** The first keyword position from `i` on that `IndustryAt` accepts, or `|IndustryKeywords|`. */
  function IndustryIndex(title: string, paragraphs: seq<string>, i: nat): (k: nat)
    requires i <= |IndustryKeywords|
    ensures i <= k <= |IndustryKeywords|
    ensures k < |IndustryKeywords| ==> IndustryAt(title, paragraphs, k)
    ensures forall j :: i <= j < k ==> !IndustryAt(title, paragraphs, j)
    decreases |IndustryKeywords| - i
  {
    if i == |IndustryKeywords| || IndustryAt(title, paragraphs, i) then i else IndustryIndex(title, paragraphs, i + 1)
  }

  /** The first industry keyword, in the list's order, mentioned anywhere; the generic term otherwise. */
  function Industry(title: string, paragraphs: seq<string>): (r: string)
    ensures r in IndustryKeywords || r == DefaultIndustry
    ensures r == DefaultIndustry <==> forall i :: 0 <= i < |IndustryKeywords| ==> !IndustryAt(title, paragraphs, i)
    ensures r != DefaultIndustry ==> r == IndustryKeywords[IndustryIndex(title, paragraphs, 0)]
  {
    var k := IndustryIndex(title, paragraphs, 0);
    if k < |IndustryKeywords| then IndustryKeywords[k] else DefaultIndustry
  }

  method FindIndustry(title: string, paragraphs: seq<string>) returns (industry: string)
    ensures industry == Industry(title, paragraphs)
  {
    industry := "";
    for i := 0 to |IndustryKeywords|
      invariant forall j :: 0 <= j < i ==> !IndustryAt(title, paragraphs, j)
    {
      if MentionsKeyword(title, paragraphs, IndustryKeywords[i]) {
        industry := IndustryKeywords[i];
        return;
      }
    }
    industry := DefaultIndustry;
  }

  // ---- summary

  /** `'\n'.join(content[:3]) if content else ""` */
  function Summary(paragraphs: seq<string>): string {
    if paragraphs != [] then Join("\n", Take(paragraphs, 3)) else ""
  }

  /** The summary is made of the first three paragraphs, separated by newlines. */
  lemma SummaryOfThree(p1: string, p2: string, p3: string, rest: seq<string>)
    ensures Summary([p1, p2, p3] + rest) == p1 + "\n" + p2 + "\n" + p3
  {
    assert Take([p1, p2, p3] + rest, 3) == [p1, p2, p3];
    assert [p1, p2, p3][1..] == [p2, p3];
    assert [p2, p3][1..] == [p3];
    assert Join("\n", [p2, p3]) == p2 + "\n" + p3;
  }

  // ---- the records the four variants return

  /** The one-step company rule of content_generator.py and reel_generator.py. */
  function SimpleCompanyName(title: string): string {
    FirstCapitalisedName(Words(title), SimpleStopwords)
  }

  /** `{title, company_name, funding_amount, location, content_summary}` of the post generators. */
  datatype PostInfo = PostInfo(title: string, companyName: string, fundingAmount: string, location: string, contentSummary: string)

  /** `{title, company_name, funding_amount, industry, content_summary}` of the reel generators. */
  datatype ReelInfo = ReelInfo(title: string, companyName: string, fundingAmount: string, industry: string, contentSummary: string)

  /** The funding suffix of the post generators. */
  const PostSuffix: string := " million"

  /** What src/core/generator.py extracts: the four-step company name and a location. */
  function PostInfoOf(title: string, paragraphs: seq<string>): PostInfo {
    PostInfo(title, CompanyName(title, paragraphs), FundingAmount(title, PostSuffix), Location(Words(title)), Summary(paragraphs))
  }

  /** What content_generator.py extracts: the one-step company name and a location. */
  function SimplePostInfoOf(title: string, paragraphs: seq<string>): PostInfo {
    PostInfo(title, SimpleCompanyName(title), FundingAmount(title, PostSuffix), Location(Words(title)), Summary(paragraphs))
  }

  /** What src/content/reel_generator.py extracts: the four-step company name and an industry. */
  function ReelInfoOf(title: string, paragraphs: seq<string>): ReelInfo {
    ReelInfo(title, CompanyName(title, paragraphs), FundingAmount(title, ""), Industry(title, paragraphs), Summary(paragraphs))
  }

  /** What reel_generator.py extracts: the one-step company name and an industry. */
  function SimpleReelInfoOf(title: string, paragraphs: seq<string>): ReelInfo {
    ReelInfo(title, SimpleCompanyName(title), FundingAmount(title, ""), Industry(title, paragraphs), Summary(paragraphs))
  }

  /**
   * The one-step stopwords are among the four-step ones, so every candidate
   * of the four-step fallback is a candidate of the one-step rule.
   */
  lemma FallbackCandidateIsSimpleCandidate(ws: seq<string>, i: int)
    requires NameCandidateAt(ws, FallbackStopwords, i)
    ensures NameCandidateAt(ws, SimpleStopwords, i)
  {
    assert forall w :: w in SimpleStopwords ==> w in FallbackStopwords;
  }
}
