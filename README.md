# jd-crawler: a verified model of the crawl-and-classify engine

jd-crawler searches the JD.com shop for a list of keywords. For each item it finds, it looks up the
item's promotions. It classifies each promotion once: a promotion is matched when a configured
criterion is a substring of its title, or else when the title offers a fulfil-deduct deal ("满F元减D元"
or "每满F元，可减D元现金") whose deduction D is at least half of the amount F. Matched promotions go to
`match.txt` together with up to 200 of the items they apply to; the others go to `unmatch.txt`.

This project models the engine of `main.py` in Dafny. It is organised as follows:

- `wrappers.dfy`: `Option` and `Result`.
- `seqs.dfy`: repeated elements and a few sequence lemmas.
- `records.dfy`: the entities. These are shops, items and promotions, the goods entries of a search page, the activities of a promotion payload, the response body as the crawler reads it, and the exceptions the crawler can meet.
- `text.dfy`: decimal numbers (`str`/`int`), substring search (`in`), `split`, `strip` and the newline replacement.
- `urls.dfy`: `urllib.parse.quote_plus`, the search URL with its paging suffix, and the lookup URLs.
- `classifier.dfy`: the criteria test and `_check_fulfil_deduct_pattern`. The two regular expressions become a small pattern language, with `re.match` at one position and `re.findall` as a left-to-right scan. The lemmas prove that the source's scan accepts a title exactly when some occurrence of a pattern carries a qualifying pair of numbers.
- `listing.dfy`: `_collect_items_from_search_result`.
- `output.dfy`: `Output.write`. A result file is a `seq<string>` that each write appends one record to.
- `session.dfy`: the environment and `MySession.get`'s retry loop.
  - The site's answers, the random draws and the clock readings all come from a `Script`.
  - An `Env` object follows the script. It records the log lines, the sleeps and the sessions opened.
- `crawler.dfy`: `Engine`. It covers these parts of the engine:
  - `run`'s keyword, page, item and promotion loops;
  - the two dictionaries `promotion_ids` and `processed_item_ids`;
  - the login-wall retry of `_get_items_by_search_url`;
  - `_get_promotions`;
  - `_get_items_in_promotion`.

  Ghost ledgers record every decision and every promotion lookup. The dictionaries are proved to equal what the ledgers imply.

Where the code and its description differ, the model follows the code:
- The keyword search reads at most 9 pages (`page < 10`).
- There is no discount (总价打R折) check, no domestic-only filter, no end-of-file marker and no upload.
- A promotion seen a second time is skipped; nothing is added to it.
- The result files are appended to, record by record.

## Model

| member | source | states |
|---|---|---|
| Classifier.CheckFulfilDeductPatternIff | main.py:251-267 | The fulfil-deduct check accepts a title exactly when "满F元减D元" or "每满F元，可减D元现金" occurs in it with 2*D >= F for that occurrence. With no occurrence it rejects. |
| Classifier.FulfilDeductCheck | main.py:251-267 | The source's procedure returns exactly the check above. It tries the two patterns in order and stops at the first qualifying text. |
| Classifier.ScanPatterns | main.py:254-267 | The loop over the patterns answers true exactly when some pattern finds a qualifying text. |
| Classifier.ScanPattern | main.py:256-265 | For one pattern, the loop over the texts `re.findall` returns answers true exactly when one of them has `2*deduct >= fulfil`. A text found always holds two digit tokens, so the token lookups cannot fail. |
| Classifier.ScanIff | main.py:256-265 | The scan of one pattern accepts exactly when some occurrence of the pattern in the title has a qualifying pair of numbers. |
| Classifier.FindAllSound | main.py:256 | Every text `re.findall` returns is a match of the pattern, at its position in the title. |
| Classifier.FindAllComplete | main.py:256 | Every match of either pattern anywhere in the title is among the texts `re.findall` returns. The scan skips none. |
| Classifier.MatchAtSound | main.py:256-259 | What the matcher finds at a position is a match of the pattern there. |
| Classifier.MatchAtComplete | main.py:256-259 | Any match of a pattern at a position is the one the matcher finds there. Greedy digit runs lose nothing. |
| Classifier.DigitTokensOfMatch | main.py:261-263 | `re.findall("[0-9]+", txt)` on a matched text gives exactly the texts of its `[0-9]+` parts. |
| Classifier.RunsCount | main.py:261-263 | A matched text binds one number per `[0-9]+` part: two for each pattern. |
| Classifier.MatchedTextAnchor | main.py:252 | A matched text starts with the pattern's first literal, and that literal appears nowhere else in it. |
| Classifier.FulfilDeductTextIff | main.py:251-267 | For all amounts F and D, the title "满F元减D元" is accepted exactly when 2*D >= F. |
| Classifier.FulfilDeductExamples | main.py:264 | "满100元减50元" is accepted; "满100元减30元" and "满200元减20元" are rejected. |
| Classifier.CriteriaFound | main.py:156-160 | The criteria loop answers true exactly when some criterion is a substring of the title. |
| Classifier.MatchesCriteriaIff | main.py:156-160 | The criteria stage holds exactly when some criterion occurs at some position of the title. |
| Classifier.ClassifyIff | main.py:156-163 | A promotion is matched exactly when a criterion occurs in its title or either fulfil-deduct pattern occurs with a qualifying deal. |
| Classifier.ClassifyCriterionExample | main.py:156-160 | With the criterion "限时秒杀", a promotion of that title is matched. |
| Classifier.ClassifyFulfilDeductText | main.py:156-163 | With the criterion "限时秒杀", a title "满F元减D元" matches no criterion, and is matched exactly when 2*D >= F. |
| Text.ContainsIff | main.py:158 | The substring test answers true exactly when the needle occurs at some position of the haystack. |
| Text.DecimalOfNatToDecimal | main.py:120 | `int(str(n)) == n`: a number printed in decimal reads back as itself. |
| Text.NatToDecimalOfDecimal | main.py:262-263 | A digit string without leading zeros is the decimal form of the number it denotes. |
| Text.ReplaceNewlines | main.py:240 | The title keeps its length; each newline becomes a space and every other character stays. |
| Text.JoinSplit | main.py:245 | `split` loses nothing: joining the fields with the separator gives back the string. |
| Text.Split | main.py:245 | `split` gives at least one field, and no field holds the separator. |
| Text.Strip | main.py:245 | `strip("'")` gives a slice of the string that neither starts nor ends with a quote. |
| Urls.QuotePlus | main.py:118 | The output of `quote_plus` uses only unreserved characters, `+` and `%`. So a keyword cannot add query fields to the URL. |
| Urls.QuotePlusKeepsUnreserved | main.py:118 | A keyword made of unreserved characters is passed through unchanged. |
| Urls.QuotePlusSpace | main.py:118 | A space is encoded as `+`, and `+` as `%2B`. |
| Urls.SearchUrlFields | main.py:118-120 | Page 1's URL is the keyword query alone. The URL of page p > 1 splits on `&` into the keyword query, `s=` with the offset plus one, and `page=` with p. |
| Listing.ShopId | main.py:245 | Taking the second comma-separated field fails exactly when the handler has no comma. The field holds no comma and no surrounding quote. |
| Listing.ShopIdOfSearchLog | main.py:242-245 | For a handler `searchlog(A,'ID',...)`, the shop id is ID. |
| Listing.ParseEntry | main.py:237-248 | An entry without `data-sku` raises, and an entry without `onclick` is skipped. Otherwise the item has the entry's sku, its newline-free title and the shop read from the handler. |
| Listing.ItemsOfHandlers | main.py:236-248 | On a page that parses, there is one item per entry with a handler, in page order, carrying that entry's sku. |
| Listing.CollectItems | main.py:232-249 | The loop returns the items in page order exactly when every entry parses. Otherwise it returns the exception of the first entry that does not. |
| Output.ItemLines | main.py:52-54 | One line per item title, in order, and none when the promotion has no items. |
| Output.RecordLayout | main.py:43-56 | A record is a time line, the title line, the url line, one line per item title and a closing blank line. |
| Output.OutputFile.constructor | main.py:38-41 | A result file starts empty. |
| Output.OutputFile.Write | main.py:43-56 | A write appends exactly the promotion's record, stamped with the next clock reading, and leaves the earlier content unchanged; the file stays the records of the promotions written. |
| Output.OutputFile.WriteTitles | main.py:52-54 | The item loop appends one line per item title, in the items' order. |
| Session.Env.RandInt | main.py:132 | `randint(lo, hi)` lies in `[lo, hi]` and consumes one draw. |
| Session.Attempts | main.py:77-83 | `get` makes between 1 and 10 attempts. |
| Session.AttemptsFail | main.py:77-83 | Every attempt but the last fails, and fewer than 10 attempts means the last one succeeded. |
| Session.AttemptsStop | main.py:77-81 | The attempts stop at the first that succeeds, or at the tenth. |
| Session.FetchFirstSuccess | main.py:74-83 | `get` returns a response exactly when one of its ten attempts succeeds, and then it returns the first success. |
| Session.TrialLines | main.py:79 | The log holds one line per attempt, and line k reads `url trial[k]`. |
| Session.TrialLineNumber | main.py:79 | The attempt number can be read back from its log line. |
| Session.Pauses | main.py:83 | After failed attempt k the session sleeps k seconds. |
| Session.MySession.constructor | main.py:59-69 | A session opens a fresh HTTP session. |
| Session.MySession.Attempt | main.py:78-83 | One attempt logs its trial line and makes one request. It sleeps i+1 seconds exactly when the request fails. |
| Session.MySession.DefaultHeader | main.py:71-72 | The user agent is one of the four, drawn at random. |
| Session.MySession.Get | main.py:74-83 | `get` returns the first successful response of at most ten attempts, or `None`. It logs one trial line per attempt and sleeps 1, 2, ... seconds after the failures. |
| Session.MySession.Trials | main.py:77-83 | The retry loop makes 1 to 10 attempts, all to `url`. Every attempt but the last fails, and the last succeeds unless it is the tenth. It returns the last attempt's response, with one log line per attempt and a pause after each failure. |
| Crawler.DecidedDistinct | main.py:150-154 | No two decisions of a run are about the same promotion id. |
| Crawler.DecidedIdsDecided | main.py:150-154 | Every promotion with a verdict was recorded in `promotion_ids`. |
| Crawler.DecidedIdsOnce | main.py:150-167 | Each promotion gets at most one verdict: the ids of each verdict are distinct, and no id has both. |
| Crawler.WrittenOnce | main.py:149-171 | When `unmatch.txt` holds the promotions decided unmatched and `match.txt` those decided matched, or a prefix of them, no promotion is written twice, neither in one file nor across `match.txt` and `unmatch.txt`. |
| Crawler.Engine.WrittenAtMostOnce | main.py:149-171 | After any step of the run, completed or aborted, no promotion id occurs twice in `match.txt` or in `unmatch.txt`, nor in both. |
| Crawler.FilesMatchAppend | main.py:165-171 | When the files hold the promotions decided with their verdicts, a new unmatched decision written to `unmatch.txt`, or a new matched one written to `match.txt`, keeps that so. A new matched decision not yet written to `match.txt` leaves `match.txt` holding the earlier matched decisions. |
| Crawler.MatchMissingPrefix | main.py:169-171 | When only the last matched decision is missing from `match.txt`, the ids in `match.txt` are a prefix of those decided matched. |
| Crawler.NoLookupAfterSuccess | main.py:135-147 | Once an item's promotion lookup has succeeded, no later lookup in the run is about that item. |
| Crawler.DecidedAppend | main.py:150-154 | Deciding a promotion whose id is new keeps every decision distinct, and adds exactly its id to `promotion_ids`. |
| Crawler.LookupAppend | main.py:135-147 | A lookup of an unprocessed item keeps the ledger consistent, and adds the item to `processed_item_ids` only when the lookup succeeded. |
| Crawler.NewDecisionsFrom | main.py:149-163 | Each decision the loop over an item's promotions makes is the verdict on one of those promotions whose id was neither empty nor already in `promotion_ids`. |
| Crawler.NewDecisionsCover | main.py:149-154 | Every promotion of the item whose id is neither empty nor already in `promotion_ids` is decided. |
| Crawler.PagedUrlsAppend | main.py:117-127 | The URL of the next page carries the next page number and the item count of the pages before it. |
| Crawler.KeywordPageUrls | main.py:114-127 | Page k+1 of a keyword search is requested at the keyword's search URL for that page, with the offset equal to the item count of pages 1..k. |
| Crawler.LoginWalk | main.py:202-210 | The login retry makes 1 to 10 trials. With fewer than ten, it ends on a response that is not a login page, or on a failed request. |
| Crawler.WalkOn | main.py:204-210 | One trial stops on a failed request, on a page that is not a login page, or at the tenth trial; otherwise it goes on. |
| Crawler.TrialStarts | main.py:203-204 | The trials of a walk begin at its first request and number at most the trials left. |
| Crawler.LoginWalkLast | main.py:203-211 | The walk makes one trial per trial start; it ends on the response of its last trial, and the next request follows that trial's attempts. |
| Crawler.LoginWalkLogins | main.py:203-209 | Every trial but the last got a login page and is followed directly by the next trial, so the walk stops at the first response that is not a login page. |
| Crawler.SearchedPagesAppend | main.py:116-127 | A page read at the next paged URL, after a page with items, extends the search's pages, and its items extend the items read. |
| Crawler.KeywordRead | main.py:116-127 | Reading the keyword's next page keeps the pages read so far; a page read from the site joins them, and a page with items lets the search go on with the next page number and offset. |
| Crawler.KeywordLater | main.py:129-173 | The requests made for a page's items leave the keyword's pages read as they were. |
| Crawler.KeywordStartsNext | main.py:110-112 | The next keyword's search begins after the earlier ones, with the request for its first page. |
| Crawler.SearchesDoneLater | main.py:110-127 | The requests of later searches leave the pages of every earlier keyword's finished search as they were. |
| Crawler.Promotions | main.py:217-230 | The lookup fails exactly when the request failed or the payload lacks the activity list. Otherwise there is one promotion per activity, in order, with its id, title and activity search URL. |
| Crawler.Keep | main.py:191-194 | The inner loop keeps a prefix of the page, in order. It stops once `max_count` items are kept, and it always keeps at least one item. |
| Crawler.Engine.constructor | main.py:86-92 | Both result files start empty and one session is opened. |
| Crawler.Engine.ResetSession | main.py:94-95 | A fresh session is opened. |
| Crawler.Engine.LoginBackOff | main.py:207-209 | After a login page, the engine logs "login page is shown, try again", opens a fresh session and sleeps 60 to 180 seconds. |
| Crawler.Engine.FetchSearchPage | main.py:204 | One search request is one step of the login walk, and every request it makes is for the search URL. |
| Crawler.Engine.SearchTrial | main.py:203-209 | One trial reports whether it saw a login page. It either ends the walk there or leaves the rest of the walk to the next trial. It opens a session exactly on a login page. |
| Crawler.Engine.GetItemsBySearchUrl | main.py:202-211 | The engine retries while it sees a login page, at most ten trials, opening a session per login page. Every request is for the URL. It then reads the items of the last response, or raises when that request failed. |
| Crawler.Engine.ReadPage | main.py:211 | The items of the response read, in order, or the exception reading it raises. |
| Crawler.Engine.SearchPage | main.py:117-122 | Page p is requested at the base URL plus the paging suffix for p and the offset; the result is what the login walk from the next request reads, and all its requests are for that URL. |
| Crawler.Engine.GetPromotions | main.py:217-230 | `_get_promotions` returns the promotions of the lookup response, or the exception; its requests are the retries of `get` on the lookup URL. |
| Crawler.Engine.GetItemsInPromotion | main.py:175-199 | The pages are read one right after the other at the paged URLs, each through the login walk, every one but the last with items. On success, the pages before the last held fewer than `max(max_count, 1)` items, so reading stopped at the first page that reached the cap or at the first empty page. The result is an in-order prefix of the items: `max(max_count, 1)` of them, or all of them when the last page is empty. On an exception, the pages read held fewer items than the cap, and the exception is what reading the next paged URL raised, all that walk's requests being for it. |
| Crawler.Engine.PromotionStep | main.py:180-197 | One round reads the next page. On an exception it stops with the pages read unchanged and the result above. Otherwise the page joins the pages read, and the round stops at an empty page or at the cap with the result above, or goes on with more items kept. |
| Crawler.Engine.PromotionPage | main.py:180-189 | The next page is read right after the others at its paged URL, its items extend the items read, or the exception it raises is the result. |
| Crawler.Engine.ProcessPromotion | main.py:150-171 | An empty or already-seen id is skipped with no request and no output. Otherwise exactly one decision is added. An unmatched promotion is appended to `unmatch.txt`. A matched one is appended to `match.txt` with the items collected from its URL. When collecting raises, nothing is written and the promotion aborts the run: it was new, and it is the last decision, matched and missing from `match.txt`. |
| Crawler.Engine.ProcessNew | main.py:153-171 | A new promotion is decided once, with the verdict `Classify`, and written to the file of its verdict as above; only a matched promotion whose items could not be collected aborts. |
| Crawler.Engine.FilePromotion | main.py:165-171 | An unmatched promotion is appended to `unmatch.txt` with the next clock reading and the step completes. A matched one leaves `unmatch.txt` alone; its items are collected from its URL with a cap of 200, and it is appended to `match.txt` with them, or, when collecting raises, nothing is written and the step aborts with that exception. |
| Crawler.Engine.Decide | main.py:153-163 | A new promotion is logged as `> id title`, its id joins `promotion_ids`, and it is classified with the criteria first. |
| Crawler.Engine.Wanted | main.py:156-163 | The fulfil-deduct check is consulted only when no criterion matches; the verdict is `Classify`. |
| Crawler.Engine.WriteMatched | main.py:169-171 | The items are collected from the promotion's URL with a cap of 200, as `GetItemsInPromotion` states; the promotion is appended to `match.txt` with exactly those items, or nothing is written when collecting raises. |
| Crawler.Engine.ProcessPromotions | main.py:149-171 | The decisions made are a prefix of those due to the promotions with new, non-empty ids, in order, and all of them when no exception is raised; each file then holds exactly the promotions decided with its verdict. An abort comes only from a matched promotion whose items could not be collected: it is the last decision and the only one missing from `match.txt`. |
| Crawler.Engine.ProcessItem | main.py:132-136 | An item is skipped on a draw of 0 out of 0..3, or when it is already processed, with no request and no decision. Any other item is looked up once and, when the lookup succeeds and nothing raises, its promotions with new ids are decided. An abort leaves the last decision matched and missing from `match.txt`. |
| Crawler.Engine.VisitItem | main.py:138-173 | The lookup read is that of the item's lookup response. A lookup that raises leaves the item unprocessed, decides nothing and pauses 60 to 120 seconds. A successful one marks the item processed, decides the item's promotions with new ids, and then pauses 5 to 35 seconds. An abort leaves the last decision matched and missing from `match.txt`. |
| Crawler.Engine.AfterLookUp | main.py:140-173 | A lookup that raised decides nothing, completes, and ends with a pause of 60 to 120 seconds. After a successful lookup, the decisions made are a prefix of those due to the promotions with new ids, all of them on completion, followed by a pause of 5 to 35 seconds. An abort leaves the last decision matched and missing from `match.txt`. |
| Crawler.Engine.LookUp | main.py:138-147 | The item's promotions are those of the lookup response, and the lookup is noted with its success. |
| Crawler.Engine.HandlePromotions | main.py:149-173 | The item's promotions with new ids are decided, then the engine pauses 5 to 35 seconds; an abort leaves the last decision matched and missing from `match.txt`. |
| Crawler.Engine.RecordLookup | main.py:141-147 | `processed_item_ids` gains the item only when its lookup succeeded. |
| Crawler.Engine.Pause | main.py:143-144 | The engine logs the message and sleeps a random number of seconds in `[lo, hi]`. |
| Crawler.Engine.Rest | main.py:173 | `time.sleep(random.randint(lo, hi))`: exactly one sleep is added, `lo` plus the next draw modulo the range size, so it lies in `[lo, hi]`, and one draw is consumed. |
| Crawler.Engine.ProcessItems | main.py:130-173 | Both ledgers stay consistent, and there is at most one lookup per item of the page. When nothing raises, the files still hold the promotions decided with their verdicts. On an abort, the last decision is matched and the only one missing from `match.txt`. |
| Crawler.Engine.CrawlKeyword | main.py:113-173 | At most 9 pages are read, in order from the search's first request, each at its paged search URL through the login walk, every page but the last with items. A completed search read at least one page, the files hold the promotions decided with their verdicts, and fewer than 9 pages means the last was empty. An aborted search ended on an exception: either reading the next search page raised, at the walk from the request `failedAt`, or a matched promotion's items could not be collected, so that promotion is the last decision and missing from `match.txt`. |
| Crawler.Engine.KeywordStep | main.py:116-173 | One round reads the next page. It stops at an exception raised reading that page, at an empty page, or when processing the page's items aborts, with the search's pages and outcome as for `CrawlKeyword`. Otherwise it goes on with the next page number and offset, and the files hold the promotions decided with their verdicts. |
| Crawler.Engine.KeywordPage | main.py:117-127 | The page read joins the pages of the search, and a page with items lets the search go on. On an exception the pages are unchanged, and it is what the login walk at the page's URL from the step's first request raised. |
| Crawler.Engine.ProcessPage | main.py:129-173 | Processing a page's items leaves the search's pages read as they were. |
| Crawler.Engine.ClearLedgers | main.py:105-106 | Both dictionaries start empty. |
| Crawler.Engine.SearchKeyword | main.py:110-173 | A keyword's search starts with the request for its first page, and ends as `CrawlKeyword` states. |
| Crawler.Engine.Run | main.py:101-173 | The keywords are searched in the shuffled order, each search starting after the one before with the request for its first page. Every search that ran to its end read its pages in order from that request, at its paged search URLs through the login walk: at least one page and at most 9, every page but the last with items, and fewer than 9 only when the last was empty. A completed run ran every keyword's search to its end, and the files hold the promotions decided with their verdicts. An aborted run ran the searches before its last to their end, and its last search ended on an exception as `CrawlKeyword` states. |
| Crawler.Engine.RunKeyword | main.py:110-173 | One round of the keyword loop: the next keyword's search begins right after the earlier ones, is recorded in `starts`, and ends as `CrawlKeyword` states. When it completes, it joins the searches that ran to their end and the files hold the promotions decided with their verdicts. |

## Left out

- GoogleServices.py is not part of this model: it holds only the OAuth plumbing of a Google client.
- HTTP, HTML and JSON: `requests`, pyquery and `json.loads` are not modelled. A response is a `Body` holding what the crawler reads from it:
  - the `#formlogin` flag;
  - the `li.gl-item` entries;
  - the payload's `promotion.activity` list, absent when parsing or a key lookup would raise.
- The site's answers, `random.randint`, `random.shuffle` and `datetime.now()` come from a `Script` given to the run. The shuffle is the order passed to `Engine.Run`, a permutation of the keywords.
- The user-agent strings, the HTTP headers and the session cookies are not modelled. Only the choice of a user agent and the opening of sessions are.
- `LogWriter` keeps messages without their time stamp and without the console echo. `Configuration`'s JSON loading is replaced by the engine's `keywords` and `criterias`. The unused `_dump_html` is left out.
- `max_count=None` in `_get_items_in_promotion` (no cap) is not modelled: the only caller passes 200.
- `promotion_ids` and `processed_item_ids` are locals of `run`. Here they are engine fields, which `Run` clears first.
- Crawler.Engine.ProcessPromotions: states the decisions made and, through `FilesAgree`, the ids in each file and their order; the records' time stamps and item lists are stated per promotion by `ProcessPromotion`, not for the whole loop.
- Crawler.Engine.ProcessItems: bounds the lookups and keeps the ledgers and files consistent; it does not state which items were looked up. `ProcessItem` and `VisitItem` state that per item.
- Crawler.Engine.ProcessPage: keeps the ledgers and files consistent and leaves the search's pages as they were; it does not state which of the page's items were skipped, looked up or decided. `ProcessItem` and `VisitItem` state that per item.
- Crawler.Engine.CrawlKeyword: states the pages read and, through the ledgers and `FilesAgree`, what was decided and written; it does not list the decisions per page.
- Crawler.Engine.KeywordStep: states the page read and how the round ends; like `ProcessPage`, it does not state which of the page's items were skipped, looked up or decided.
- Crawler.Engine.Run: records each keyword's search by its first request (`starts`) and the pages it read (`searches`), not by the decisions made during it. It does not state the log lines or session counts of the whole run; the per-step members state those.
- Crawler.Engine.VisitItem: states the log line only through its helpers, and states the last pause rather than the whole sleep list.
- Text.DecimalValue: numbers are unbounded. In CPython 3.11 and later, `int()` on a digit string of more than 4300 digits raises `ValueError`. At main.py:262-263 such a title would raise out of `_check_fulfil_deduct_pattern`, and main.py:163 is outside any `try`, so the run would end there. The model instead reads the number and goes on.
- A login walk whose request fails stops at that trial: `r.text` on `None` raises at main.py:205, before the login test. The model reads this as the walk ending on a failed request, whose read raises.
- Crawler.Engine.GetItemsBySearchUrl: does not state its log lines ("login page is shown, try again" and the trial lines of each `get`) or its sleeps. `LoginBackOff` and `MySession.Get` state them one trial at a time.
- Crawler.Engine.Valid: the agreement of the files with the decisions is not part of `Valid`. It is stated as `FilesAgree` after every completed step, and as `FilesKept` after every step: the files hold the decided promotions, except that after an abort the last matched decision may be missing from `match.txt`.
