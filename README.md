# moosa-ai: a verified model of the content pipeline

moosa-ai scrapes startup news from a news site, picks the article worth
writing about, and generates posts and Instagram Reel scripts about it. It
records what was processed and produced in a six-table content store, kept
either in an Excel workbook or in a Google spreadsheet. This project models
the deterministic core of that pipeline in Dafny and proves what the code
promises about it.

What is modelled, one module per component of the program:

- **Scraper** (`NewsScraper`, startup_news_scraper.py):
  - the keyword relevance test;
  - the shaping of the records extracted from the home page (absolute links, the default category);
  - paragraph cleaning;
  - the merge of `save_articles`, which appends only articles whose link is not yet stored.
- **Processed-article ledger** (`ArticleLedger`, src/utils/article_tracker.py): a class over the list of records.
  - Marking an article appends a record.
  - Resetting removes the first record with the title.
  - Matching is by URL or by title, and the queries return the first match.
- **Selection and extraction heuristics** (`Selection`, `KeyInfo`, `Rating`, `Naming`), shared by the four generator variants:
  - scoring by a length bucket plus title keywords;
  - the first best candidate, which is what the stable descending sort yields;
  - company, funding, location and industry extraction;
  - the "Dubskiy rating" of 2 to 5 read off the funding amount;
  - the safe title and the file names.
- **Generators**:
  - `Generator` (src/core/generator.py) and `ContentScript` (content_generator.py) write the posts;
  - `Reel` (src/content/reel_generator.py) and `ReelScript` (reel_generator.py) write the reel scripts;
  - each `run` is a class method whose steps are proved in their order, and `Generator.ContentGenerator.Run` appends to the ledger as its last step.
- **Style configuration** (`StyleConfig`, src/content/style_config.py):
  - the rating scale;
  - the placeholder structure of the rating formats and the reel templates;
  - `str.format` over them;
  - `get_style_element`.
- **Content store**:
  - `TrackerRows` holds the rows and column lists of the six tables, the row builders with their defaults, and the masked update, upsert and filters.
  - `TrackerStore` is one pure transition `Apply` over the six tables, shared by both backends.
  - `ExcelTracker` is a class whose workbook is the state; each method ensures that the new workbook is `Apply` of the old one.
  - `SheetsTracker` is a class over a spreadsheet of worksheets with header rows and grids. Each of its table methods matches `ApplySheets`. Its constructor and `ensure_sheets_exist` seed Метаданные with the corrected seeding test of the Findings row, not the `row_count == 1` test as written. `SheetsAgreeWithStore` proves that, on a spreadsheet whose sheets carry their declared headers, `ApplySheets` does what `Apply` does except where the code raises.
- **`.env` update** (`EnvFile`, scripts/setup_google_sheets.py):
  - the line parser;
  - the insertion-ordered dictionary;
  - the update of the two keys;
  - writing the file back, with the round trip proved.

Clocks, ids, randomness and the language model are parameters:
- `now` and `today` are timestamps passed in;
- ids are passed in and stand for the fresh uuid of each call;
- a random choice is an index;
- the OpenAI call is a function `generate` or `ai` whose `None` means the call failed.

Files are a map from path to text.

Two behaviours of the code worth stating plainly:
- **Rating for small amounts.** Tier 2 goes to every amount that parses and is at most 5, including 0 and negative amounts (src/core/generator.py:488-489; `Rating.Tier`).
- **Trackers in `run`.** `self.tracker` is always an `ArticleTracker`, so the branches of `run` that write to the tabular store never run (src/core/generator.py:616, src/content/reel_generator.py:516). The model keeps the ledger steps only.

## Model

| member | source | states |
|---|---|---|
| ArticleLedger.FirstUrlIndex | src/utils/article_tracker.py:83-86 | the index of the first record with the URL, or the ledger's length when no record has it |
| ArticleLedger.FirstTitleIndex | src/utils/article_tracker.py:90-93 | the index of the first record with the title, or the ledger's length when no record has it |
| ArticleLedger.MarkMakesProcessed | src/utils/article_tracker.py:50-73 | after marking, the article counts as processed, and every article processed before still is |
| ArticleLedger.ResetRemovesOne | src/utils/article_tracker.py:95-105 | a reset removes exactly the first record with the title and keeps the others in order; an absent title leaves the ledger unchanged |
| ArticleLedger.MarkThenResetRestores | src/utils/article_tracker.py:64-105 | marking an article that is not yet processed and then resetting that title restores the ledger, and the article is unprocessed again |
| ArticleLedger.DoubleMarkSurvivesOneReset | src/utils/article_tracker.py:64-105 | an article marked twice is still processed after one reset, since a reset removes only one record |
| ArticleLedger.ArticleTracker.constructor | src/utils/article_tracker.py:21-39 | the ledger is the stored list, or empty when the file is missing or unreadable |
| ArticleLedger.ArticleTracker.IsArticleProcessed | src/utils/article_tracker.py:50-62 | true exactly when some record has the article's link as its URL or the article's title as its title |
| ArticleLedger.ArticleTracker.MarkArticleProcessed | src/utils/article_tracker.py:64-75 | appends one record holding the link, the title, the timestamp and the output path, and changes nothing else |
| ArticleLedger.ArticleTracker.GetProcessedArticles | src/utils/article_tracker.py:77-79 | returns the whole ledger |
| ArticleLedger.ArticleTracker.GetProcessedArticleByUrl | src/utils/article_tracker.py:81-86 | the first record with that URL, or none |
| ArticleLedger.ArticleTracker.GetProcessedArticleByTitle | src/utils/article_tracker.py:88-93 | the first record with that title, or none |
| ArticleLedger.ArticleTracker.ResetArticleProcessed | src/utils/article_tracker.py:95-105 | true exactly when some record has the title, and exactly the first such record is removed |
| Selection.KeywordHits | src/core/generator.py:136-139 | the number of keyword points is at most the number of keywords |
| Selection.Score | src/core/generator.py:122-139 | every score lies between 1 and 3 plus the seven keywords |
| Selection.LongerNeverScoresLower | src/core/generator.py:125-132 | with the same title, more content never gives a lower score |
| Selection.AllKeywordsCount | src/core/generator.py:136-139 | a title containing every keyword earns one point for each of them |
| Selection.WithContentMembers | src/core/generator.py:105-106 | the articles with content are exactly the input articles whose content is present and non-empty |
| Selection.UnprocessedMembers | src/core/generator.py:112-114 | the unprocessed articles are exactly those the ledger does not know |
| Selection.CandidatesAreEligible | src/core/generator.py:105-114 | the candidates are exactly the input articles that have content and are not processed |
| Selection.EmptyLedgerKeepsAll | content_generator.py:56-70 | with an empty ledger, as in the variant without a tracker, no article is filtered out |
| Selection.ScoreArticle | src/core/generator.py:122-139 | the score computed step by step equals the length points plus the keyword points |
| Selection.SelectBest | src/core/generator.py:100-154 | none exactly when no candidate is left; otherwise an eligible input article with the top score, the first one among equal scores, as a stable descending sort puts first |
| Selection.SelectLoaded | src/core/generator.py:564-576 | no article exactly when there are no candidates, missing or empty input included; otherwise a first best candidate, eligible and with a title |
| ContentScript.SelectBestArticle | content_generator.py:56-98 | none exactly when no article has content; otherwise an article with content and the top score, the first one among equal scores; no ledger is consulted |
| ContentScript.ExtractKeyInfo | content_generator.py:100-140 | the key information is the title, the first capitalised non-stopword of the title as company, the funding amount, the location and the summary of the first three paragraphs |
| ContentScript.RunOutputsWrite | content_generator.py:455-467 | the article record is always written, each post exactly when its text is not empty, an empty post leaves its existing file and that file's text as they were, and every other file is kept |
| ContentScript.ContentGenerator.constructor | content_generator.py:28-31 | the output directory is "output" and the files are those given |
| ContentScript.ContentGenerator.Run | content_generator.py:436-482 | nothing is written when no article has content; otherwise the chosen article is the first best one, its directory is named from the date and the safe title, and the files are the record plus the two non-empty posts |
| Generator.ExtractKeyInfo | src/core/generator.py:156-226 | the key information of the article is the one that the extraction heuristics specify for the title and paragraphs |
| Generator.RunOutputsWrite | src/core/generator.py:584-609 | the article record is always written, each post exactly when its text is not empty, an empty post leaves its existing file and that file's text as they were, and every other file is kept |
| Generator.ContentGenerator.constructor | src/core/generator.py:31-37 | the output directory is "output", the ledger is the stored one and the files are those given |
| Generator.ContentGenerator.Run | src/core/generator.py:562-612 | no directory exactly when no candidate is left, and then nothing changes; otherwise the first best unprocessed article gets its directory, its posts and its record, and it is appended to the ledger as the last step |
| Generator.ContentGenerator.WritePosts | src/core/generator.py:578-608 | the article gets the directory named by its date and title, each post is written there when it has text, and its record always is |
| KeyInfo.CleanNameKeepsInitial | src/core/generator.py:178 | stripping "'s", "," and "." from both ends of a capitalised word keeps its first letter, so the name found is never empty |
| KeyInfo.CommaIndex | src/core/generator.py:168-171 | the first position of a word ending in ',' that follows a capitalised word, or the word count; no earlier position qualifies |
| KeyInfo.NameBeforeComma | src/core/generator.py:164-171 | a name is found exactly when some comma-ended word follows a capitalised word, and it is the word before the first such one |
| KeyInfo.FindNameBeforeComma | src/core/generator.py:165-171 | the loop over the first paragraph's words returns the name that NameBeforeComma specifies |
| KeyInfo.VerbIndex | src/core/generator.py:176-179 | the first position of a capitalised word followed by one of the six verbs, or the word count |
| KeyInfo.NameBeforeVerb | src/core/generator.py:173-179 | a name is found exactly when a capitalised title word precedes "raises", "secures", "gets", "receives", "announces" or "launches" in any case; it is the first such word, cleaned and still capitalised |
| KeyInfo.FindNameBeforeVerb | src/core/generator.py:174-179 | the loop over the title words returns the name that NameBeforeVerb specifies |
| KeyInfo.NameAfterStartup | src/core/generator.py:181-188 | a non-empty name is the cleaned, capitalised second word of the title read from its first "startup" |
| KeyInfo.CandidateIndex | src/core/generator.py:193-196 | the first position of a capitalised word outside the stopwords, or the word count |
| KeyInfo.FirstCapitalisedName | src/core/generator.py:190-196 | a name is found exactly when some capitalised word is not a stopword, and it is the first such word, cleaned |
| KeyInfo.FindFirstCapitalisedName | src/core/generator.py:193-196 | the loop over the words returns the name that FirstCapitalisedName specifies |
| KeyInfo.CompanyName | src/core/generator.py:161-196 | the company name is capitalised when it is found; it is found whenever the fallback has a candidate; a name in the first paragraph takes precedence |
| KeyInfo.FindCompanyName | src/core/generator.py:161-196 | the four loops in order return the name that CompanyName specifies |
| KeyInfo.LastMillion | src/core/generator.py:201-202 | the last position after the first word holding "million" in any case, or -1 |
| KeyInfo.AmountBeforeLastMillion | src/core/generator.py:201-210 | an amount is found exactly when some word after the first is "million"; it starts with '$' and is read off the word before the last such one |
| KeyInfo.FindFundingAmount | src/core/generator.py:198-210 | the amount is looked for only when the title mentions "million" or '$', as FundingAmount says |
| KeyInfo.ScanForAmount | src/core/generator.py:201-210 | the loop, in which a later "million" overwrites an earlier one, returns the amount before the last "million" |
| KeyInfo.LocationIndex | src/core/generator.py:215-218 | the first position of a word naming one of the ten places, or the word count |
| KeyInfo.Location | src/core/generator.py:212-218 | empty exactly when no title word names one of the ten places; otherwise the first such word as written |
| KeyInfo.FindLocation | src/core/generator.py:213-218 | the loop over the title words returns the location that Location specifies |
| KeyInfo.IndustryIndex | src/content/reel_generator.py:160-163 | the first keyword position mentioned in the title or the first three paragraphs, or the keyword count |
| KeyInfo.Industry | src/content/reel_generator.py:157-167 | one of the eight keywords, the first one mentioned; the generic "технологический сектор" exactly when none is mentioned |
| KeyInfo.FindIndustry | src/content/reel_generator.py:158-167 | the loop over the keywords returns the industry that Industry specifies |
| KeyInfo.SummaryOfThree | src/core/generator.py:225 | the summary is the first three paragraphs joined by newlines, and later paragraphs are dropped |
| KeyInfo.FallbackCandidateIsSimpleCandidate | content_generator.py:107-110 | a word the four-step fallback of src/core/generator.py would take is also taken by the one-step rule of content_generator.py, whose ten stopwords are among the sixteen |
| Naming.Sanitise | src/core/generator.py:519 | the same length as the title; each alphanumeric, space, '-' or '_' is kept and every other character becomes '_' |
| Naming.SafeTitleShape | src/core/generator.py:519-520 | the safe title has min(length, 50) characters, all safe, and agrees with the title exactly at the positions where the title was safe |
| Naming.SafeTitleOfSafe | src/core/generator.py:519-520 | a safe title of at most 50 characters is its own safe title |
| Naming.SafeTitleIdempotent | src/core/generator.py:519-520 | making a title safe twice gives the same name as once |
| Naming.SaveText | src/core/generator.py:532-547 | empty content writes nothing and returns no path; otherwise exactly that path is written with the content and returned |
| Naming.SaveContent | src/core/generator.py:532-547 | as SaveText at `<dir>/<filename>`, and every other file keeps its contents |
| Naming.SaveReelScript | src/content/reel_generator.py:402-422 | an empty script writes nothing; otherwise the script is written at `<reels>/<today>_reel_<safe title>.md` and every other file keeps its contents |
| Naming.ReelFileNameUsesFifty | src/content/reel_generator.py:409-413 | two titles that agree on their first 50 characters name the same reel file on the same day, so the later save overwrites the earlier |
| StyleConfig.Format | src/core/generator.py:501-512 | formatting succeeds exactly when every placeholder of the template has an argument; otherwise it raises, as `str.format` raises `KeyError` |
| StyleConfig.FormatConcat | src/core/generator.py:501-512 | formatting a concatenation of templates is the concatenation of the formatted parts, and fails when either part fails |
| StyleConfig.FormatExtend | src/core/generator.py:501-512 | extra arguments never change a format that succeeds |
| StyleConfig.FormatLiteral | src/core/generator.py:501-512 | a template without placeholders formats to its own text under any arguments |
| StyleConfig.FormatCons | src/core/generator.py:501-512 | a leading literal is copied and a leading placeholder is replaced by its argument, or the format fails when it has none |
| StyleConfig.FormatRating | src/content/style_config.py:61-62 | a rating format given symbol, score and description reads: header, rockets, " (", score, "/5)", a line break, description |
| StyleConfig.ScaleShape | src/content/style_config.py:54-60 | the scale has five tiers with scores 1 to 5 in order; tier k has k rockets and nothing else |
| StyleConfig.LevelIndex | src/core/generator.py:498 | the position of the first tier with the given score, or the scale's length when none has it |
| StyleConfig.FindLevel | src/core/generator.py:498 | a tier of the scale; the one with the given score for scores 1 to 5, the third tier for any other score |
| StyleConfig.FallbackIsMiddle | src/core/generator.py:498 | the fallback tier `rating_scale[2]` is the middle one, score 3, which is the tier found for 3 |
| StyleConfig.RatingFormatHoles | src/content/style_config.py:61-62 | both rating formats take exactly the placeholders symbol, score and description |
| StyleConfig.SlotsHoles | src/content/style_config.py:173-204 | a template built from a list of placeholder names has exactly those names as placeholders |
| StyleConfig.TemplateHoles | src/content/style_config.py:173-204 | there are six reel templates; each hook and body has exactly the placeholders the configuration writes in it |
| StyleConfig.OneMetricHook | src/content/style_config.py:200 | of the six reel hooks exactly the last one asks for a metric |
| StyleConfig.GetStyleElement | src/content/style_config.py:254-260 | an unknown key gives None; the element at an in-range index of a list; `KeyError` for an in-range index into a dictionary entry; the whole entry when the index is absent or out of range |
| Rating.Tier | src/core/generator.py:482-489 | a parsed amount always gets a tier from 2 to 5; no amount gets 1 |
| Rating.TierMonotone | src/core/generator.py:482-489 | a larger amount never gets a lower tier |
| Rating.RatingScore | src/core/generator.py:474-491 | the score is from 2 to 5, and 3 when the funding amount is empty or does not parse as a number |
| Rating.ComputeRatingScore | src/core/generator.py:474-491 | the default of 3, reassigned from the parsed amount when there is one, is the rating score |
| Rating.FundingValueOfWord | src/core/generator.py:480-481 | the amount text the extraction writes for a number word ("$w million" for posts, "$w" for reels) parses back as the number w |
| Rating.RatingOfMillions | src/core/generator.py:477-489 | a funding amount of n million, as extracted, is rated by the tier of n |
| Rating.LevelFor | src/core/generator.py:498 | the tier looked up carries the rating score |
| Rating.DubskiyRatingLayout | src/core/generator.py:500-512 | the rating reads: the language's header, the tier's rockets, "(score/5)", a line break, and the tier's description in English for "english" and in Russian otherwise |
| Rating.RatingsAgree | src/content/reel_generator.py:371-399 | the Russian post rating and the reel rating of the same funding end in the same rockets, score and Russian description; only their headers differ |
| Reel.ExtractKeyInfo | src/content/reel_generator.py:101-175 | the reel's key information is the title, the four-step company name, the funding amount written `"$<w>"`, the first industry keyword and the three-paragraph summary |
| Reel.UsableMembers | src/content/reel_generator.py:241 | a template is kept exactly when it is one of the configured ones and its hook does not ask for a metric |
| Reel.UsableDropsLast | src/content/reel_generator.py:241 | when only the last template asks for a metric, the usable templates are all the others |
| Reel.UsableAreFirstFive | src/content/reel_generator.py:241 | of the configured templates the usable ones are the first five |
| Reel.ChooseFrom | src/content/reel_generator.py:240-246 | the chosen template is one of the configured ones; a usable one, picked by the random index, when there is any; the first one otherwise |
| Reel.ChooseTemplate | src/content/reel_generator.py:240-246 | the chosen template never asks for a metric and is one of the first five |
| Reel.Pick | src/content/reel_generator.py:260 | `random.choice` gives an element of the list |
| Reel.CompanyOf | src/content/reel_generator.py:249 | the extracted company name whenever there is one |
| Reel.AmountOfExtracted | src/content/reel_generator.py:251 | the amount the fallback script names for an extracted `"$<w>"` is the number word w |
| Reel.FormatOr | src/content/reel_generator.py:326-336 | the formatted text when every placeholder has an argument, the fixed fallback sentence when formatting raises `KeyError` |
| Reel.FallbackArgsKeys | src/content/reel_generator.py:302-323 | the format arguments have exactly twenty keys, and "industry" is not one of them |
| Reel.UsableTemplateFormats | src/content/reel_generator.py:326-336 | with those arguments, of the five usable templates exactly the hooks of templates 1 and 4, which ask for "industry", raise; no body raises |
| Reel.FallbackCases | src/content/reel_generator.py:326-336 | the fallback script uses the fixed hook sentence exactly for templates 1 and 4 and the formatted hook otherwise; its body is always the formatted body |
| Reel.ScriptTextShape | src/content/reel_generator.py:349-367 | a script opens with its "HOOK:" line, is never empty and contains its rating |
| Reel.ScriptWithoutAiShape | src/content/reel_generator.py:236-369 | the fallback script opens with its hook line, is never empty and shows the reel rating of the funding |
| Reel.ScriptWithoutModel | src/content/reel_generator.py:177-181 | without the model (no key, or a failed call) the script is the fallback script, which is never empty |
| Reel.ReelGenerator.constructor | src/content/reel_generator.py:31-38 | the reels directory is output/reels and the ledger is the stored one, empty when there is none |
| Reel.ReelGenerator.Run | src/content/reel_generator.py:480-512 | nothing is written exactly when there is no candidate; otherwise a first best candidate is chosen and its script, by the model or the fallback, is saved under its title unless empty; the ledger is not marked |
| Reel.ReelGenerator.WriteScript | src/content/reel_generator.py:496-510 | the script of the article's key information, by the model or the fallback, is saved under its title unless empty, and nothing else is written |
| ReelScript.ExtractKeyInfo | reel_generator.py:57-101 | the key information is the title, the one-step company name, the funding amount written `"$<w>"`, the first industry keyword and the three-paragraph summary |
| ReelScript.FirstWithContentFrom | reel_generator.py:276 | the first position from i on of an article with content, and none exactly when no later article has content |
| ReelScript.FirstWithContent | reel_generator.py:276 | the first article with content, and none exactly when no article has content |
| ReelScript.ScriptTextShape | reel_generator.py:226-239 | a fallback script opens with its "HOOK:" line, is never empty and contains its conclusion |
| ReelScript.Fill | reel_generator.py:166-241 | the fallback succeeds exactly when there are templates and hashtags and the drawn template's hook and body ask only for the given arguments; it then lays out the formatted hook, body, conclusion and hashtags |
| ReelScript.FillNotEmpty | reel_generator.py:226-241 | a fallback that does not raise gives a non-empty script |
| ReelScript.ArgsAmongShared | reel_generator.py:207-219 | the four hook and four body arguments are among the twenty of src/content/reel_generator.py, with the same values |
| ReelScript.AgreesWithShared | reel_generator.py:207-219 | where this fallback does not raise, its hook and body are the ones the later generator formats for the same template |
| ReelScript.TemplatesWithinKeys | reel_generator.py:207-219 | of the six configured templates only 0 and 2 ask for nothing beyond the four hook and four body arguments |
| ReelScript.NamesWithinKeys | reel_generator.py:207-219 | the placeholder names of templates 0 and 2, and of no other, are within the argument names |
| ReelScript.SharedTemplatesRaise | reel_generator.py:207-219 | with those templates the fallback raises `KeyError` exactly for templates 1, 3, 4 and 5 |
| ReelScript.SharedFallbackRaises | reel_generator.py:161-241 | the fallback script, with the templates of src/content/style_config.py, raises exactly for four of the six template choices |
| ReelScript.Script | reel_generator.py:103-159 | the model's text stripped when the model answers; the fallback, which may raise, when there is no key or the call fails |
| ReelScript.FallbackIsSaved | reel_generator.py:285-288 | a fallback script that does not raise is never empty, so it is saved |
| ReelScript.ReelGenerator.constructor | reel_generator.py:28-32 | the reels directory is output/reels |
| ReelScript.ReelGenerator.Run | reel_generator.py:265-293 | no articles, or none with content, write nothing; otherwise the first article with content is scripted; a raising fallback ends the run with nothing written; an empty script is not saved; any other script is saved under the article's title |
| NewsScraper.AnyKeyword | startup_news_scraper.py:94-98 | true exactly when some keyword occurs in the lower-cased title or the lower-cased category |
| NewsScraper.IsStartupRelated | startup_news_scraper.py:86-98 | true exactly when one of the seventeen startup keywords occurs in the lower-cased title or category |
| NewsScraper.RelatedIgnoresCase | startup_news_scraper.py:94-95 | the relevance test gives the same answer for a title and category as for their lower-cased forms |
| NewsScraper.DefaultCategoryIsRelated | startup_news_scraper.py:66 | an entry without a category element is always startup-related, because the default category "Startup" holds a keyword |
| NewsScraper.NormaliseLink | startup_news_scraper.py:60-62 | the link starts with "http": it is kept when it already does and resolved against https://www.menabytes.com otherwise |
| NewsScraper.NormaliseIdempotent | startup_news_scraper.py:60-62 | resolving a resolved link changes nothing |
| NewsScraper.Shape | startup_news_scraper.py:52-82 | an entry is kept exactly when it has a title element with an `href` and is startup-related; the article then holds the stripped title, the resolved link, the stripped category or "Startup", the stripped date or today, and no content |
| NewsScraper.FilterMapMembers | startup_news_scraper.py:52-84 | the kept values are at most as many as the elements, and are exactly the values the elements give |
| NewsScraper.ShapeAll | startup_news_scraper.py:52-84 | every article of the page has a link |
| NewsScraper.ShapeAllMembers | startup_news_scraper.py:52-84 | the page's articles are exactly the kept shaped entries, and no more than the entries |
| NewsScraper.ShapedArticles | startup_news_scraper.py:52-84 | every article of the page has a title, a category and an absolute link, and is startup-related |
| NewsScraper.ExtractArticles | startup_news_scraper.py:41-84 | the loop over the entries returns the page's articles in page order |
| NewsScraper.CleanParagraphs | startup_news_scraper.py:115 | no more paragraphs than texts, each non-empty and already stripped |
| NewsScraper.CleanParagraphsIdempotent | startup_news_scraper.py:115 | cleaning cleaned paragraphs changes nothing |
| NewsScraper.Details | startup_news_scraper.py:100-127 | details exist exactly when the page and its content element exist, and then they are the cleaned paragraphs |
| NewsScraper.WithDetails | startup_news_scraper.py:178-179 | title, link, category and date are kept; the content becomes the details' paragraphs when there are details and is kept otherwise |
| NewsScraper.Enriched | startup_news_scraper.py:176-179 | as many articles as before, each with its own link |
| NewsScraper.AddDetails | startup_news_scraper.py:176-180 | the loop adds each article's details as Enriched specifies |
| NewsScraper.Links | startup_news_scraper.py:144 | the links of the stored articles, one per article, in order |
| NewsScraper.Unseen | startup_news_scraper.py:147 | the kept articles are exactly the batch's articles whose link is not stored, and no more than the batch |
| NewsScraper.SaveArticles | startup_news_scraper.py:129-159 | an empty batch writes nothing; without a file the batch is written as is; with a file the stored list plus the unseen articles is written, and nothing when none is unseen |
| NewsScraper.MergeAppendsUnseen | startup_news_scraper.py:144-151 | a merge keeps the stored list as its prefix and appends only batch articles whose link was not stored |
| NewsScraper.LinksConcat | startup_news_scraper.py:144 | the links of a concatenation are the links of its parts |
| NewsScraper.AllSeen | startup_news_scraper.py:147-148 | a batch whose links are all stored has nothing to add |
| NewsScraper.SaveTwiceWritesNothing | startup_news_scraper.py:129-159 | saving the same batch again after it was written writes nothing |
| NewsScraper.BatchDuplicatesKept | startup_news_scraper.py:147-149 | duplicate new articles within one batch are all appended, since only stored links are filtered |
| NewsScraper.Run | startup_news_scraper.py:161-184 | without the home page nothing is written; otherwise the page's articles, each with its details, are saved against the day's file |
| TrackerRows.ArticleContentCell | src/storage/excel_tracker.py:108-125 | the converted content argument (a list joined with blank lines, a dictionary as JSON) when it is not empty, the article's own "content" field otherwise |
| TrackerRows.ResolveMarkdown | src/storage/excel_tracker.py:155-171 | the markdown argument when given; otherwise the text of the existing file that `content_path` names; otherwise "" |
| TrackerRows.ArticleRowConforms | src/storage/excel_tracker.py:117-128 | the row `add_article` builds has exactly the ten columns of the Articles table |
| TrackerRows.ContentRowConforms | src/storage/excel_tracker.py:163-183 | the row `add_content` builds has exactly the nineteen columns of the Content table |
| TrackerRows.ReelRowConforms | src/storage/excel_tracker.py:210-219 | the row `add_reel` builds has exactly the eight columns of the Reels table |
| TrackerRows.LogRowConforms | src/storage/excel_tracker.py:246-254 | the row `add_log` builds has exactly the seven columns of the Logs table |
| TrackerRows.ScheduleRowConforms | src/storage/excel_tracker.py:275-286 | the row `schedule_content` builds has exactly the ten columns of the Schedule table |
| TrackerRows.SeedShape | src/storage/excel_tracker.py:41-50 | the Metadata seed has five rows of key and value, with five distinct keys, version "1.0" among them |
| TrackerRows.SetWhere | src/storage/excel_tracker.py:292-296 | as many rows as before; each matching row gets the new cells over its own and every other row is untouched |
| TrackerRows.SetWhereChangesMatches | src/storage/excel_tracker.py:292-296 | matching rows get the new cells and keep their other cells; non-matching rows are unchanged; the mask is kept when its column is not updated; conforming rows keep conforming |
| TrackerRows.SetWhereIdempotent | src/storage/excel_tracker.py:292-296 | applying the same masked update twice is applying it once, when it leaves the mask's column alone |
| TrackerRows.UpsertSets | src/storage/excel_tracker.py:316-326 | after `update_metadata` the key is present and every row keyed by it reads the new value; other rows are unchanged; one row is appended exactly when the key was absent |
| TrackerRows.UpsertIdempotent | src/storage/excel_tracker.py:316-326 | updating the same metadata pair twice is updating it once |
| TrackerRows.MatchIndex | src/storage/excel_tracker.py:354-356 | the position of the first matching row from i on, or the table's length |
| TrackerRows.FirstMatch | src/storage/excel_tracker.py:350-362 | none exactly when no row matches; otherwise the first matching row in table order |
| TrackerRows.AllMatches | src/storage/excel_tracker.py:378-389 | exactly the matching rows, no more than the table holds, and empty exactly when no row matches |
| TrackerRows.FirstOfAll | src/storage/excel_tracker.py:350-389 | the row a by-id getter returns is the first of the rows a by-article getter returns for the same column and value |
| TrackerRows.MatchesShift | src/storage/excel_tracker.py:354-356 | past a first row that does not match, the first match is the first match of the rest |
| TrackerStore.OnlyTargetsChange | src/storage/excel_tracker.py:100-330 | every table an operation does not write is left exactly as it was |
| TrackerStore.AppendOnly | src/storage/excel_tracker.py:100-314 | Articles, Schedule, Reels and Logs keep their rows in place and gain at most one row per operation; Logs gains exactly one unless the operation is `update_metadata` |
| TrackerStore.ContentRowsKept | src/storage/excel_tracker.py:146-314 | Content rows never disappear: `add_content` appends exactly one, `schedule_content` only changes rows in place, and every other operation leaves the table alone |
| TrackerStore.LoggedRecords | src/storage/excel_tracker.py:193-196 | each logged operation leaves `last_update` reading its clock value and logs last under the id it was given, at that time |
| TrackerStore.ScheduleAppendsPending | src/storage/excel_tracker.py:275-289 | `schedule_content` appends one pending Schedule row for the content id, with timezone UTC+3 and priority medium unless the data gives them |
| TrackerStore.ScheduleMarksMatches | src/storage/excel_tracker.py:292-296 | every Content row of the id becomes "scheduled" with the given date and time and keeps its other cells; every other Content row is unchanged |
| TrackerStore.ScheduleLogsArticle | src/storage/excel_tracker.py:307-312 | the schedule log names the content id and the article of the first Content row of that id, or "" with the Content table unchanged when no row has it |
| TrackerStore.MarkingKeepsArticle | src/storage/excel_tracker.py:292-309 | marking rows as scheduled keeps the article that the log reads from the first matching row |
| TrackerStore.AddThenGet | src/storage/excel_tracker.py:350-389 | an article or content row added under a fresh id is what the lookup by that id returns; an added reel is among its article's reels |
| TrackerStore.AppendFresh | src/storage/excel_tracker.py:354-356 | a matching row appended to a table without a match becomes the first match |
| TrackerStore.ExportContent | src/storage/excel_tracker.py:404-416 | succeeds exactly when the id's first row has markdown and the path has a directory part and does not end in '/'; then exactly that file is written with the markdown; otherwise nothing is written |
| TrackerStore.ImportContent | src/storage/excel_tracker.py:418-437 | succeeds exactly when the file exists and some row has the id; then every such row gets the file's text as markdown; otherwise the table is unchanged |
| TrackerStore.SameMatchIndex | src/storage/excel_tracker.py:354-356 | two tables whose rows match at the same positions have their first match at the same position |
| TrackerStore.ExportThenImport | src/storage/excel_tracker.py:404-437 | importing the file just exported succeeds, keeps the exported row's markdown, gives it to every row of the id, leaves other rows alone and, with a unique id, restores the table exactly |
| ExcelTracker.ExcelContentTracker.constructor | src/storage/excel_tracker.py:10-72 | an existing workbook is opened as it is; otherwise the six tables are created empty except Metadata, which holds its five seed rows |
| ExcelTracker.ExcelContentTracker.UpdateMetadata | src/storage/excel_tracker.py:316-330 | the workbook becomes the store after `update_metadata` on it; no file changes |
| ExcelTracker.ExcelContentTracker.AddLog | src/storage/excel_tracker.py:237-263 | the log row is appended and its id returned; nothing else changes |
| ExcelTracker.ExcelContentTracker.AddArticle | src/storage/excel_tracker.py:100-144 | the article row is appended, `last_update` set and an "article_added" log appended; the article's id is returned |
| ExcelTracker.ExcelContentTracker.AddContent | src/storage/excel_tracker.py:146-199 | the draft content row, with the markdown resolved from the argument or the `content_path` file, is appended, `last_update` set and a "content_added" log appended; the content's id is returned |
| ExcelTracker.ExcelContentTracker.AddReel | src/storage/excel_tracker.py:201-235 | the draft reel row is appended, `last_update` set and a "reel_added" log appended; the reel's id is returned |
| ExcelTracker.ExcelContentTracker.ScheduleContent | src/storage/excel_tracker.py:265-314 | the pending schedule row is appended, the content's rows are marked scheduled, `last_update` is set and a "content_scheduled" log naming the content's article is appended |
| ExcelTracker.ExcelContentTracker.GetAllArticles | src/storage/excel_tracker.py:332-339 | every Articles row, in table order |
| ExcelTracker.ExcelContentTracker.GetAllContent | src/storage/excel_tracker.py:341-348 | every Content row, in table order |
| ExcelTracker.ExcelContentTracker.GetContentById | src/storage/excel_tracker.py:350-362 | none exactly when no Content row has the id; otherwise the first row that has it |
| ExcelTracker.ExcelContentTracker.GetArticleById | src/storage/excel_tracker.py:364-376 | none exactly when no Articles row has the id; otherwise the first row that has it |
| ExcelTracker.ExcelContentTracker.GetReelsByArticleId | src/storage/excel_tracker.py:378-389 | exactly the reels of that article, in table order |
| ExcelTracker.ExcelContentTracker.GetLogsByArticleId | src/storage/excel_tracker.py:391-402 | exactly the logs of that article, in table order |
| ExcelTracker.ExcelContentTracker.ExportContentToFile | src/storage/excel_tracker.py:404-416 | the result and the files written are those of ExportContent; the workbook is unchanged |
| ExcelTracker.ExcelContentTracker.ImportContentFromFile | src/storage/excel_tracker.py:418-437 | the result and the Content table are those of ImportContent; no other table and no file changes |
| SheetsTracker.ColumnWidths | src/storage/google_sheets_tracker.py:122-126 | one width per header column: 400 for the five long-text columns, 150 for every other |
| SheetsTracker.RecordConforms | src/storage/google_sheets_tracker.py:143-151 | a data row read as a record has exactly the header's columns |
| SheetsTracker.RecordOfCells | src/storage/google_sheets_tracker.py:153-172 | a row projected onto the header (missing cells as empty) reads back with the same value in every header column, and as the row itself when it has exactly those columns |
| SheetsTracker.WriteThenRead | src/storage/google_sheets_tracker.py:143-177 | rows with exactly the header's columns are written successfully, read back as themselves, and the header is kept |
| SheetsTracker.RecordsConform | src/storage/google_sheets_tracker.py:143-151 | every record read has the header's columns; a header column occurs in the table read exactly when the sheet has a data row |
| SheetsTracker.SheetConforms | src/storage/google_sheets_tracker.py:74-151 | a required sheet with its declared header reads as rows with the declared columns, each column present exactly when the sheet has data |
| SheetsTracker.StandardReadsConform | src/storage/google_sheets_tracker.py:74-151 | all six tables read from a spreadsheet with the declared headers have their declared columns; the masked columns exist exactly when their table is not empty |
| SheetsTracker.ReadAfterWrite | src/storage/google_sheets_tracker.py:143-177 | writing conforming rows to one required sheet keeps the headers, reads back as those rows, and leaves every other sheet's rows as they were |
| SheetsTracker.UpsertConforms | src/storage/google_sheets_tracker.py:390-403 | the metadata upsert keeps Метаданные to its two columns |
| SheetsTracker.WrittenConforms | src/storage/google_sheets_tracker.py:179-403 | every operation keeps every table to its declared columns |
| SheetsTracker.LogConforms | src/storage/google_sheets_tracker.py:313-336 | the log row of a logged operation has exactly the columns of Логи |
| SheetsTracker.ReadAllAfterWrite | src/storage/google_sheets_tracker.py:143-177 | writing one table to its sheet changes that table of the six read back, and no other |
| SheetsTracker.FinishAgrees | src/storage/google_sheets_tracker.py:213-220 | setting last_update then logging raises exactly when Метаданные is empty, changes nothing then, and otherwise does what the store does |
| SheetsTracker.AddAgrees | src/storage/google_sheets_tracker.py:179-311 | the three add operations raise exactly when Метаданные is empty; having raised, only their own table is written; otherwise the tables are the store's transition |
| SheetsTracker.ScheduleAgrees | src/storage/google_sheets_tracker.py:340-388 | scheduling raises exactly when Контент is empty (before writing) or Метаданные is empty (after writing Планирование and Контент); otherwise the tables are the store's transition |
| SheetsTracker.SheetsAgreeWithStore | src/storage/google_sheets_tracker.py:179-403 | on a spreadsheet with the declared headers every operation raises exactly when it masks an empty table, has then written only its own tables, and otherwise leaves the tables the shared store transition gives |
| SheetsTracker.CreateMissingShape | src/storage/google_sheets_tracker.py:106-128 | the loop adds exactly the missing titles, each as a new sheet with its header, no data and its widths, and keeps every existing sheet |
| SheetsTracker.AppendEach | src/storage/google_sheets_tracker.py:137-138 | appending the seed row by row gives the sheet with those rows after its data |
| SheetsTracker.RequiredTitlesDistinct | src/storage/google_sheets_tracker.py:74-103 | the six required titles are distinct and are exactly the six sheets |
| SheetsTracker.SeedReadsBack | src/storage/google_sheets_tracker.py:131-138 | the seed appended to a header-only Метаданные reads back as the five metadata seed rows |
| SheetsTracker.EnsureSheetsShape | src/storage/google_sheets_tracker.py:72-141 | under the corrected seeding test of the Findings row (a header-only Метаданные is seeded): the sheets become the existing ones plus the required ones; existing sheets other than a header-only Метаданные are untouched; missing ones are created fresh; Метаданные ends with data |
| SheetsTracker.EnsureSheetsIdempotent | src/storage/google_sheets_tracker.py:72-141 | under the corrected seeding test of the Findings row, a second call changes nothing, whatever the clock reads |
| SheetsTracker.NewSpreadsheetIsNewStore | src/storage/google_sheets_tracker.py:72-141 | on an empty spreadsheet the sheets have their declared headers, the tables read are those of a new store, and only scheduling raises |
| SheetsTracker.NewSpreadsheetUnseededAsWritten | src/storage/google_sheets_tracker.py:111-132 | with the row_count test as written a new spreadsheet keeps Метаданные empty and every logged operation raises |
| SheetsTracker.SetWhereKeepsColumns | src/storage/google_sheets_tracker.py:367-371 | the masked update removes no column from the table, and adds only the columns it sets |
| SheetsTracker.ScheduleLog | src/storage/google_sheets_tracker.py:380-386 | the scheduling log names the first matching content's article, the date and the time |
| SheetsTracker.ScheduleSteps | src/storage/google_sheets_tracker.py:340-388 | the four ways scheduling can end: the mask raising, update_metadata raising, the article column missing, or the log appended |
| SheetsTracker.GoogleSheetsTracker.constructor | src/storage/google_sheets_tracker.py:29-48 | the tracker holds the connected spreadsheet after ensure_sheets_exist with the corrected seeding test of the Findings row, and the files as they were |
| SheetsTracker.GoogleSheetsTracker.EnsureSheetsExist | src/storage/google_sheets_tracker.py:72-141 | the spreadsheet becomes that of ensure_sheets_exist on it, with the corrected seeding test of the Findings row (a header-only Метаданные is seeded); no file changes |
| SheetsTracker.GoogleSheetsTracker.CreateMissingSheets | src/storage/google_sheets_tracker.py:106-128 | the spreadsheet becomes the old one with the missing sheets created |
| SheetsTracker.GoogleSheetsTracker.GetWorksheetAsDf | src/storage/google_sheets_tracker.py:143-151 | a missing sheet reads as no rows; otherwise one record per data row, each with the header's columns |
| SheetsTracker.GoogleSheetsTracker.UpdateWorksheetFromDf | src/storage/google_sheets_tracker.py:153-177 | true exactly when the sheet exists and the table is empty or has every header column; the sheet then holds the projected table (or, on failure, its header only) |
| SheetsTracker.GoogleSheetsTracker.UpdateMetadata | src/storage/google_sheets_tracker.py:390-403 | the spreadsheet and whether it raised are those of the update_metadata operation |
| SheetsTracker.GoogleSheetsTracker.AddLog | src/storage/google_sheets_tracker.py:313-338 | the log row is appended to Логи and its id returned |
| SheetsTracker.GoogleSheetsTracker.AddArticle | src/storage/google_sheets_tracker.py:179-222 | the spreadsheet is that of the add operation; no id exactly when it raised, else the article's id |
| SheetsTracker.GoogleSheetsTracker.AddContent | src/storage/google_sheets_tracker.py:224-276 | the spreadsheet is that of the add operation with the markdown resolved from the argument or the content_path file; no id exactly when it raised |
| SheetsTracker.GoogleSheetsTracker.AddReel | src/storage/google_sheets_tracker.py:278-311 | the spreadsheet is that of the add operation; no id exactly when it raised, else the reel's id |
| SheetsTracker.GoogleSheetsTracker.ScheduleContent | src/storage/google_sheets_tracker.py:340-388 | the spreadsheet is that of the scheduling operation; no id exactly when it raised, else the schedule's id |
| SheetsTracker.GoogleSheetsTracker.MarkScheduled | src/storage/google_sheets_tracker.py:344-375 | raises exactly when Контент has no content_id column, then changes nothing; otherwise Планирование and Контент are written as the store writes them |
| SheetsTracker.GoogleSheetsTracker.GetAllArticles | src/storage/google_sheets_tracker.py:405-412 | one record per data row of Статьи with the header's columns; none when the sheet is missing |
| SheetsTracker.GoogleSheetsTracker.GetAllContent | src/storage/google_sheets_tracker.py:414-421 | one record per data row of Контент with the header's columns; none when the sheet is missing |
| SheetsTracker.GoogleSheetsTracker.GetContentById | src/storage/google_sheets_tracker.py:423-435 | none exactly when no Контент row has the id; otherwise the first that has it |
| SheetsTracker.GoogleSheetsTracker.GetArticleById | src/storage/google_sheets_tracker.py:437-449 | none exactly when no Статьи row has the id; otherwise the first that has it |
| SheetsTracker.GoogleSheetsTracker.GetReelsByArticleId | src/storage/google_sheets_tracker.py:451-462 | exactly the Reels rows of that article, in sheet order |
| SheetsTracker.GoogleSheetsTracker.GetLogsByArticleId | src/storage/google_sheets_tracker.py:464-475 | exactly the Логи rows of that article, in sheet order |
| SheetsTracker.GoogleSheetsTracker.ExportContentToFile | src/storage/google_sheets_tracker.py:477-489 | the result and the files written are those of the shared export; the spreadsheet is unchanged |
| SheetsTracker.GoogleSheetsTracker.ImportContentFromFile | src/storage/google_sheets_tracker.py:491-507 | the result is that of the shared import; on success Контент holds the imported rows, otherwise nothing changes |
| EnvFile.SetSpec | scripts/setup_google_sheets.py:64-67 | after an assignment the key maps to the new value and every other key to its old one; existing keys keep their places, a new key is appended, keys stay distinct |
| EnvFile.IndexAfterSet | scripts/setup_google_sheets.py:64-67 | after an assignment the key sits at its old place, or last when it was new; any other key stays where it was |
| EnvFile.ParseLineSpec | scripts/setup_google_sheets.py:61-63 | a line is ignored exactly when, stripped, it is empty, starts with '#' or has no '='; otherwise it splits at its first '=' |
| EnvFile.SplitEntry | scripts/setup_google_sheets.py:62-63 | none exactly for an empty, comment or '='-less line; otherwise a key without '=' and the rest, which rejoin to the line |
| EnvFile.Settings | scripts/setup_google_sheets.py:60-62 | one parsed setting per line, in file order |
| EnvFile.Lines | scripts/setup_google_sheets.py:60 | the text's lines each end at their first newline and none is empty |
| EnvFile.ReadEnv | scripts/setup_google_sheets.py:57-64 | the dictionary the line loop builds is that of the text's lines |
| EnvFile.BuildDistinct | scripts/setup_google_sheets.py:57-64 | the dictionary read holds each key once |
| EnvFile.BuildLookup | scripts/setup_google_sheets.py:63-64 | a key reads as the value of the last setting of it |
| EnvFile.ParseLinesLookup | scripts/setup_google_sheets.py:57-64 | a key maps to a value exactly when some line sets it to that value and no later line sets the key; no key occurs twice |
| EnvFile.UpdatedSpec | scripts/setup_google_sheets.py:66-67 | the update sets the id and the credentials path, keeps every other value and every existing key's place, and adds at most two keys |
| EnvFile.WriteEnv | scripts/setup_google_sheets.py:70-72 | the text written is one key=value line per entry, in insertion order |
| EnvFile.EntryLineParses | scripts/setup_google_sheets.py:60-72 | a written line of a well-formed entry parses back to the entry |
| EnvFile.LinesOfSerialised | scripts/setup_google_sheets.py:70-72 | the written text splits back into exactly the written lines |
| EnvFile.WriteThenRead | scripts/setup_google_sheets.py:57-72 | writing a dictionary of well-formed entries and reading it back gives the dictionary |
| EnvFile.ParsedWritable | scripts/setup_google_sheets.py:57-64 | every dictionary read from a file is well-formed for writing |
| EnvFile.UpdateRoundTrip | scripts/setup_google_sheets.py:57-72 | the file written after the update reads back as the updated dictionary |
| EnvFile.UpdateEnvFile | scripts/setup_google_sheets.py:49-72 | only .env changes: it becomes the serialised update of what .env (or a copied env.example) held |

## Left out

- HTTP fetching and HTML parsing in startup_news_scraper.py: `fetch_page` and the selectors are library calls. `extract_articles` is modelled over the records the selectors found, and a linked page over its paragraph texts.
- The `image_url` of `get_article_details`: it depends only on the parsed page and is not used by the rest of the core.
- The OpenAI calls (`*_with_ai`): they are foreign calls, so each is a function parameter whose `None` result triggers the template fallback.
- `random.choice`: each random pick is an index parameter, reduced modulo the length of the list it picks from.
- `datetime.now()` and `uuid.uuid4()`: both are parameters (`now`, `today`, and ids passed in).
- TrackerStore.LoggedRecords: one `now` stands for the two or three separate `datetime.now()` calls of each tracker operation (for example src/storage/google_sheets_tracker.py:204, 216 and 328). Those calls can fall on different seconds, so "at that time" holds only up to the clock's tick between them.
- Template prose: the texts of the post and reel templates are left out. The placeholders of each template are kept exactly, and so are the fallback sentences and the rating scale.
- The root reel_generator.py imports `STYLE_CONFIG` from a style_config.py at the repository root. That file is not part of this model, so its reel templates are a parameter (`ReelConfig`). The templates of src/content/style_config.py are also proved against it.
- File, Excel and Google Sheets I/O:
  - a workbook is the six tables and a spreadsheet is a map from title to worksheet;
  - `json.load`/`json.dump` of articles and of the ledger is a parameter or an `Option`. For the ledger, `None` means the file is missing or unreadable, as `_load_db` catches both. For the day's file of `save_articles`, `None` means only that the file is missing: startup_news_scraper.py:140-141 loads an existing file unguarded, so a corrupt day file raises there, and the model, which cannot see that text, does not model that raise;
  - `load_latest_articles` is the `Option` of articles that `run` receives.
- `apply_formatting` of the Excel backend and the bold/centred header format of the Google backend: both are formatting only. The column widths of new Google sheets are modelled.
- Connecting to Google (`connect`, credentials and the gspread client): `__init__` is modelled from the point where the spreadsheet is opened.
- Cell typing: `get_all_records` and `read_excel` turn numeric-looking cells into numbers and empty cells into NaN. The model keeps every cell as text, with missing cells as "".
- The setup script outside the `.env` block (scripts/setup_google_sheets.py:8-47 and 74-93): it is interactive input, printing and browser instructions.
- Newline translation when `.env` is read and written in text mode is not modelled. Lines end at '\n'.
- EnvFile.UpdateRoundTrip: it is stated for an id without a line break and without trailing whitespace. Any other id does not read back as entered, because the parser strips each line.
- The branches of `run` for `ExcelContentTracker`/`GoogleSheetsTracker` (src/core/generator.py:616-670, src/content/reel_generator.py:516 onward): the tracker is always an `ArticleTracker`, so these branches never run.
- main.py, src/core/scheduler.py and the scripts other than the `.env` block of setup_google_sheets.py: they call APIs the shown code does not define, loop forever around a scheduler, or are printing and UI.
- `get_style_element('tone', 'russian')` (src/core/generator.py:248): a string index raises `TypeError` in Python. Only integer indices and None are modelled.
- `float()`: the amount is parsed by a decimal parser that accepts an optional sign, digits and an optional fraction, with surrounding whitespace. Exponents, `inf`, `nan` and digit underscores count as unparseable, which gives the default score of 3.
- Character classes are ASCII: `isalnum`, `isupper` and `lower`. Non-ASCII letters in a title therefore become `_` in a safe title, where Python would keep them.
- Strings.Whitespace: the whitespace of `split`/`strip` is the space and '\t' to '\r'. Python also splits and strips at the ASCII separators '\x1c' to '\x1f' and at non-ASCII whitespace such as '\x85' and '\xa0'; the model keeps those characters inside words.
- Logging and printing are left out everywhere.
- Generator.ExtractKeyInfo: requires the title to be present. The source indexes `article['title']` and raises `KeyError` without it. The same holds for Reel.ExtractKeyInfo, ReelScript.ExtractKeyInfo and ContentScript.ExtractKeyInfo, and for ReelScript.ReelGenerator.Run, which passes its first article with content to `extract_key_info`.
- Selection.SelectBest, Selection.SelectLoaded, ContentScript.SelectBestArticle, Generator.ContentGenerator.Run, ContentScript.ContentGenerator.Run and Reel.ReelGenerator.Run: each requires every candidate to have a title. Selection itself indexes `article['title'].lower()` (src/core/generator.py:134, content_generator.py:83) and raises `KeyError` on a candidate without one; that raise is not modelled.
- ArticleLedger.ArticleTracker.MarkArticleProcessed: after the append and the save, src/utils/article_tracker.py:75 logs `article['title']`, which raises `KeyError` for an article without a title. The model appends the record with an empty title and does not model that raise; the log line itself is left out with all logging.
- NewsScraper.SaveArticles: requires every stored and incoming article to have a link when the day's file exists. The source indexes `article['link']` there and raises `KeyError` otherwise.
- SheetsTracker.GoogleSheetsTracker.EnsureSheetsExist: it, the constructor, SheetsTracker.EnsureSheetsShape and SheetsTracker.EnsureSheetsIdempotent carry the corrected seeding test of the Findings row (a header-only Метаданные is seeded). As written, src/storage/google_sheets_tracker.py:132 never seeds a new Метаданные, so the source's tracker raises `KeyError` on every `add_*` and on `schedule_content`; that behaviour is stated only by SheetsTracker.NewSpreadsheetUnseededAsWritten over SheetsTracker.EnsureSheetsAsWritten.
- Exceptions: where the source raises (`KeyError` from masking a table without the column, which is how a header-only sheet reads), the tracker methods return `raised` or no id, keeping the writes done before the exception. How the exception travels up through the callers is not modelled.

## Findings

| source | as written | input that shows it | evidently intended | confidence | as-written member | corrected member |
|---|---|---|---|---|---|---|
| src/storage/google_sheets_tracker.py:132 | Метаданные is seeded only when the sheet's grid has exactly one row (`row_count == 1`). A sheet created at line 111 has a grid of 1000 rows. | a new, empty spreadsheet: Метаданные is created but never seeded, so every later `add_article`, `add_content`, `add_reel` and `schedule_content` raises `KeyError` in `update_metadata` | seed Метаданные when it holds only its header row, as the comment on line 132 says | high (not executed) | SheetsTracker.NewSpreadsheetUnseededAsWritten | SheetsTracker.NewSpreadsheetIsNewStore |
