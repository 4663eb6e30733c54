# RFM lead-scoring agent, modelled in Dafny

This project models the core of a lead-scoring agent. For each customer, the agent fetches the order history from a sales API. It then asks a language model for the customer's RFM figures:

- recency: days since the last order;
- frequency: the number of orders;
- monetary: the total spent.

The model's answer is parsed with three fallback strategies. The agent overrides the model's priority with its own business rule. A High customer is marked "High Priority" in the sales system and gets a follow-up task. The batch run counts what it processed and collects per-customer errors.

The modules:

- `Wrappers`: `Option` and `Result`.
- `Strings`: the parts of Python's `str` the agent uses:
  - `lower`, `strip`, `in`;
  - `split(sep)`, `split()`, `replace(c, '')`.
- `Numbers`: Python's `int(s)`, `float(s)` and `int(x)` of a float, with floats as exact reals plus infinities and NaN.
- `Regex`: a backtracking matcher for the regular-expression fragment the parser uses. It covers literals, greedy repetition of a character class, alternation of words, `re.search`, `re.findall` and `re.IGNORECASE`.
  - A match is a trace of text positions.
  - The matcher is proved sound, complete and leftmost.
- `RfmParser`: `parse_rfm_response` of agent/aiagent.py. It tries three strategies in turn:
  - the strict one-line pattern;
  - one pattern per keyword;
  - the first three numbers in the text.
- `Utils`: agent/utils.py.
  - `api_request` is seen through what the HTTP layer did (the `Transport` value).
  - The keyword parser `parse_rfm_response` is a loop over the three keys. The loop is proved against `ParsedKeys`, the dict after the first `n` keys.
- `Agent`:
  - the business rule `_calculate_priority`;
  - `analyze_customer` with its three attempts;
  - `create_task` and `update_customer_status`;
  - the batch `run`.

The imperative parts of `Agent` are methods of the class `MCPAgent`:

- the retry loop;
- the loop over customers;
- the handling of one customer.

Each method is proved equal to a specification function: `AttemptsFrom`/`AttemptEvents`, `ProgressAfter`, `VisitSpec` and `RunSpec`. The properties are proved about those functions.

The outside world is a `World` value:

- the replies to each HTTP request;
- the model's reply for each customer and attempt;
- today's date as a day number.

Every request the agent makes is recorded as an `Event`, in order, and so is every pause between attempts. The agent's parser is a field that the constructor sets to `RfmParser.ParseRfmResponse`. The proofs about retries and the batch therefore hold for any parser.

## Model

| member | source | states |
|---|---|---|
| Agent.PriorityBoundaries | agent/aiagent.py:208-213 | The boundaries are strict. A recency of exactly 365 days is Low, and so is a monetary value of exactly 5000. Exactly three orders, with recency under 365 and more than 5000 spent, is High. |
| Agent.PriorityMonotone | agent/aiagent.py:197-213 | A customer who ordered more recently, more often and for at least as much stays High. |
| Agent.PromptCriterionStricter | agent/aiagent.py:197-213 | The prompt's criterion (recency under 30 days) implies the rule's. The converse fails: 100 days, 3 orders and 6000 is rated High by the rule. |
| Agent.ReconcileAgrees | agent/aiagent.py:149-151 | After the override, the answer's priority equals the rule's up to case. Nothing but the priority changes. An answer that already agrees, in any case, is kept unchanged; one that disagrees gets exactly the rule's priority name. |
| Agent.AttemptsSuccess | agent/aiagent.py:123-161 | The attempts succeed exactly when some remaining answer parses. The result is then the first such answer, reconciled, with attempt number n+1, and no earlier attempt parsed. |
| Agent.AttemptsExhausted | agent/aiagent.py:162-184 | When no answer parses, the last attempt decides. An API error gives `api_error` with that error. An unparsable text gives `parse_error` with the raw text. |
| Agent.AttemptsWellShaped | agent/aiagent.py:123-184 | The attempts end in success, parse error or API error. Each result has the shape below (WellShaped). |
| Agent.AnalyzeWellShaped | agent/aiagent.py:77-193 | On success: the priority is the rule's on the parsed values, the rfm priority agrees with it up to case, the attempt is 1 to 3, and the message names the priority. Every other status has priority Low and no rfm or attempt. Only `parse_error` carries the raw response. |
| Agent.HighIsSuccess | agent/aiagent.py:263-268 | Only a successful analysis is High. The loop's display test `analysis["status"] == "success" and "rfm" in analysis` holds exactly for a successful analysis. |
| Agent.AttemptAsks | agent/aiagent.py:122-136 | From attempt k on, the model is called at least once and at most 3-k times. |
| Agent.AnalyzeAsks | agent/aiagent.py:90-123 | The model is called at most three times. It is not called at all when the order fetch raised or returned something falsy; then the only request is the order fetch. |
| Agent.AttemptPauses | agent/aiagent.py:176-185 | Each pause directly follows a model call that raised and was not the last attempt, and each such call is directly followed by a pause. The attempts start with a model call. |
| Agent.AttemptErrorsPaused | agent/aiagent.py:176-185 | Every model call that raised and was not the last attempt is directly followed by a pause (`time.sleep(1)`). |
| Agent.AnalyzePauses | agent/aiagent.py:176-185 | Both directions hold for all requests of an analysis: pauses come exactly after the non-final model calls that raised. |
| Agent.ContinuedAttempts | agent/aiagent.py:123-185 | Attempts that all continued put their requests and pauses first and leave the outcome to the later attempts. |
| Agent.StoppedAttempts | agent/aiagent.py:123-184 | The first attempt that does not continue ends the requests with its own call and decides the outcome. |
| Agent.AttemptEventsOnly | agent/aiagent.py:123-185 | The attempts never flag a customer or file a task. |
| Agent.DispatchOutcome | agent/aiagent.py:218-236 | For `create_task` and `update_customer_status`, only a non-`RequestException` error propagates. The call returns True exactly when the server answered without an error status and with a truthy JSON body. |
| Agent.Reached | agent/aiagent.py:256-257 | The loop reaches the first customer without a `CustomerID`, or the end. Every earlier customer has an ID. |
| Agent.ReachedAt | agent/aiagent.py:256-257 | The stopping position is unique: it is the first customer without an ID, or the total. |
| Agent.TurnStep | agent/aiagent.py:256-280 | A turn computed from empty requests, with its requests appended to the earlier ones, is the same step. |
| Agent.ProgressCounts | agent/aiagent.py:249-280 | After n customers, processed plus the number of errors is n, and High customers are among the processed. |
| Agent.ProgressHigh | agent/aiagent.py:250-274 | After n customers, the High counter is the number of those customers whose turn counted them as High. |
| Agent.RunTotals | agent/aiagent.py:239-291 | A completed run accounts for every customer: processed plus errors equals the total. The High count is the number of customers that were High and were flagged and given a task without an error, so it is at most the processed count. |
| Agent.RunAborts | agent/aiagent.py:246-257 | The run ends early exactly when one of these holds: the customer fetch raises, `len` of its result raises, or a customer lacks `CustomerID`. |
| Agent.VisitDispatch | agent/aiagent.py:267-273 | A customer is flagged and given a task only when it is High, and that needs a successful analysis. The task comes right after the flag for the same customer. |
| Agent.VisitFlagsHigh | agent/aiagent.py:267-274 | A High customer is flagged right after its analysis. If flagging does not raise, the task comes right after the flag and nothing follows. The turn counts the customer as High exactly when it is High and neither call raised. |
| Agent.VisitOpens | agent/aiagent.py:258-260 | Handling a customer starts with fetching its orders. |
| Agent.ProgressTasks | agent/aiagent.py:256-280 | Across the customers handled so far, every task directly follows the flag of its customer. |
| Agent.RunTasks | agent/aiagent.py:239-291 | Across a whole run, every task filed directly follows flagging the same customer "High Priority". |
| Agent.MCPAgent.constructor | agent/aiagent.py:73-75 | The agent's parser is the module-level `parse_rfm_response`. |
| Agent.MCPAgent.AnalyzeCustomer | agent/aiagent.py:77-193 | The analysis and the requests equal `Analyze` and `AnalyzeEvents`. |
| Agent.MCPAgent.AskWithRetries | agent/aiagent.py:121-185 | The retry loop's result and requests equal `AttemptsFrom` and `AttemptEvents` from attempt 0. |
| Agent.MCPAgent.ProcessCustomer | agent/aiagent.py:256-280 | The loop body updates the counters, the errors and the requests as one turn (`VisitSpec`). |
| Agent.MCPAgent.ProcessAll | agent/aiagent.py:255-280 | The loop stops at `Reached`, and its counters, errors and request log equal `ProgressAfter` there. |
| Agent.MCPAgent.Run | agent/aiagent.py:239-291 | The outcome and requests equal `RunSpec`. A completed run's processed plus errors equals the total, and the High count is at most the processed count. |
| RfmParser.ParseRfmResponse | agent/aiagent.py:10-68 | Every parsed answer is well formed: recency and frequency are non-negative, monetary is finite and non-negative, and the priority is High or Low in some case, or "Unknown". |
| RfmParser.StrictOutcome | agent/aiagent.py:24-36 | When the strict pattern matches, the strategy raises exactly when a captured digit group has more than 4300 digits (the `int` limit) or the captured amount has no digit. Otherwise it returns the captured digits' values and the `High`/`Low` group. |
| RfmParser.StrictWellFormed | agent/aiagent.py:24-36 | What the strict strategy parses is well formed. |
| RfmParser.KeywordOutcome | agent/aiagent.py:38-51 | When all three keyword patterns match, the strategy raises exactly when a digit group has more than 4300 digits or the amount has no digit. Otherwise it returns the captured values, and the priority group or "Unknown". |
| RfmParser.KeywordNoMatch | agent/aiagent.py:44-51 | The keyword strategy finds nothing exactly when the recency, frequency or monetary pattern is missing. A missing priority alone does not stop it. |
| RfmParser.KeywordWellFormed | agent/aiagent.py:38-51 | What the keyword strategy parses is well formed. |
| RfmParser.NumericOutcome | agent/aiagent.py:53-61 | The fallback parses exactly when the text holds three numbers; it never raises. Recency and frequency are the first two rounded down, and monetary is the third. The priority is High exactly when "high" occurs in any case. |
| RfmParser.NumericWellFormed | agent/aiagent.py:53-61 | What the fallback parses is well formed. |
| RfmParser.NumbersConvert | agent/aiagent.py:54-59 | Every number `findall` returns converts with `float` to a finite non-negative value. |
| RfmParser.NumberConversion | agent/aiagent.py:54-59 | A found number converts to the value of its numeral. |
| RfmParser.ConvertDigits | agent/aiagent.py:32-34 | `int` of a digit group raises only when the group has more than 4300 digits; otherwise only the amount's conversion can raise. |
| RfmParser.ConvertGroups | agent/aiagent.py:31-36 | The conversions of two digit groups and an amount equal the values read directly from the captured digits, and raise exactly when a digit group exceeds the 4300-digit `int` limit or the amount has no digit. |
| RfmParser.AmountConversion | agent/aiagent.py:34 | `float` of a captured amount without its commas raises exactly when it has no digit (as for "Monetary: ,"). Otherwise it gives the numeral's value. |
| RfmParser.NumeralConversion | agent/aiagent.py:34 | `float(whole + dot + fraction)` for digit strings raises exactly when there is no digit at all. |
| RfmParser.AmountGroup | agent/aiagent.py:26 | With its commas removed, a captured amount is the integer digits, the optional dot and the fraction digits. |
| RfmParser.DotGroup | agent/aiagent.py:26 | A `\.?` group is empty or one dot. |
| RfmParser.PriorityGroup | agent/aiagent.py:42 | An alternation group of `High` and `Low` matched case-insensitively lowers to "high" or "low". |
| RfmParser.DigitGroup | agent/aiagent.py:39 | A `(\d+)` group is a non-empty digit string. |
| RfmParser.KeyDigitsMaximal | agent/aiagent.py:39-40 | The digits `Recency:\s*(\d+)` and `Frequency:\s*(\d+)` capture are a whole run: no digit stands right before or right after the group. |
| RfmParser.WholeDigits | agent/aiagent.py:41 | An amount's integer part without its commas is all digits. |
| Regex.MatchAt | agent/aiagent.py:27 | An anchored match found by backtracking is a valid trace of the pattern at that position. |
| Regex.MatchComplete | agent/aiagent.py:27 | Backtracking misses no match: wherever the pattern can match, the matcher finds one. |
| Regex.SearchFrom | agent/aiagent.py:39 | A search result is a valid match, and no earlier start position matches. |
| Regex.SearchLeftmost | agent/aiagent.py:39-42 | `re.search` finds a match exactly when the pattern matches somewhere, and reports the leftmost one. |
| Regex.RunLength | agent/aiagent.py:26 | A greedy repetition takes a run of class characters within its bound. The run ends at the text's end, at a non-class character or at the bound. |
| Regex.RunLengthMaximal | agent/aiagent.py:26 | No longer run within the bound exists. |
| Regex.TryCounts | agent/aiagent.py:26 | Giving back characters one at a time yields only valid matches. |
| Regex.TryCountsGreedy | agent/aiagent.py:26 | Giving back characters stops at the largest count, not below the minimum, after which the rest of the pattern matches: the rest matches at no larger count, and when no count works the result is none. |
| Regex.RepGreedy | agent/aiagent.py:26 | A leading repetition takes as many class characters as it can while the rest of the pattern still matches after them. |
| Regex.TryWords | agent/aiagent.py:26 | Trying `High` then `Low` yields only valid matches. |
| Regex.TryWordsShape | agent/aiagent.py:42 | After the chosen word, the match continues with the match of the rest of the pattern. |
| Regex.MatchShape | agent/aiagent.py:27 | A match is its first item's span followed by the match of the rest of the pattern from there. |
| Regex.LastRepMaximal | agent/aiagent.py:39-40 | A pattern ending in an unbounded repetition such as `\d+` ends its match at the end of the text or before a character outside the class. |
| Regex.FindAllFrom | agent/aiagent.py:54 | Every match `findall` reports is a valid trace at or after the start. |
| Regex.FindAllFirst | agent/aiagent.py:54 | `findall` skips no match at the start: the pattern matches nowhere before the first match, and nowhere at all when none is found. |
| Regex.FindAllOrdered | agent/aiagent.py:54 | The matches come left to right without overlapping, and the pattern matches nowhere between two consecutive ones. |
| Regex.FindAllLast | agent/aiagent.py:54 | The pattern matches nowhere after the last match. |
| Numbers.ParseIntDigits | agent/aiagent.py:32-33 | `int` of a non-empty digit string is its decimal value, and raises when it has more than 4300 digits. |
| Numbers.ParseIntSigned | agent/aiagent.py:32-33 | `int` of a stripped, optionally signed digit string is its signed value, and raises when it has more than 4300 digits. |
| Numbers.ParseFloatDigits | agent/utils.py:44 | `float` of a non-empty digit string is its value. |
| Numbers.ParseFloatDecimal | agent/aiagent.py:34 | `float(whole "." fraction)` is the decimal value. It fails exactly when there is no digit (`float(".")`). |
| Numbers.ParseFloatPlain | agent/aiagent.py:59 | An unsigned numeral without an exponent converts to its decimal value, or fails with it. |
| Numbers.DecimalNumberOfParts | agent/aiagent.py:34 | The decimal grammar reads `whole "." fraction` as its value. |
| Numbers.NotSpecialWord | agent/aiagent.py:34 | A numeral is never read as `inf`, `infinity` or `nan`. |
| Numbers.TruncateNonNegative | agent/aiagent.py:57 | `int(x)` of a non-negative float rounds it down. |
| Numbers.DigitsAreDigitPart | agent/aiagent.py:32 | A digit string is a digit part of the same value. |
| Strings.LowerChanges | agent/aiagent.py:60 | `lower()` changes only upper-case letters. |
| Strings.LowerIdempotent | agent/aiagent.py:149 | Lower-casing twice is lower-casing once, so the override's comparison of two lowered names is stable. |
| Strings.LowerAppend | agent/utils.py:42 | `lower()` works character by character, so it distributes over concatenation. |
| Strings.Strip | agent/aiagent.py:22 | The stripped text neither starts nor ends with whitespace. |
| Strings.StripSlice | agent/aiagent.py:22 | `strip()` removes only whitespace, and only from the two ends. |
| Strings.StripUntouched | agent/aiagent.py:22 | A text without whitespace at either end is unchanged. |
| Strings.Find | agent/utils.py:42 | The first occurrence, with none before it; none when absent. |
| Strings.SplitJoin | agent/utils.py:44 | Joining the pieces of `split(sep)` with `sep` gives the text back. |
| Strings.SplitPiecesFree | agent/utils.py:44 | No piece of `split(sep)` contains `sep`. |
| Strings.SplitCount | agent/utils.py:44 | `split(sep)` has a second piece exactly when `sep` occurs. |
| Strings.Words | agent/utils.py:44 | `split()` gives non-empty words without whitespace; `WordsRuns` states which words. |
| Strings.WordsRuns | agent/utils.py:44 | The first word of `split()` is the maximal non-whitespace run after the leading whitespace: it ends at the end of the text or at whitespace. The other words are those of the rest. No word means the text is all whitespace. |
| Strings.WordsSkipSpaces | agent/utils.py:44 | Leading whitespace does not change `split()`. |
| Strings.WordsEmpty | agent/utils.py:44 | `split()` is empty exactly when the text is all whitespace. |
| Strings.RemoveChar | agent/aiagent.py:34 | `replace(c, '')` leaves no `c` and no new character. |
| Strings.RemoveCharAppend | agent/aiagent.py:54 | `replace(c, '')` distributes over concatenation. |
| Strings.RemoveCharAbsent | agent/aiagent.py:54 | `replace(c, '')` changes nothing when `c` does not occur. |
| Utils.ApiRequestCases | agent/utils.py:9-33 | An unsupported method raises `ValueError("Unsupported method: …")`. Otherwise only an exception other than a `RequestException` escapes. A failed request or an error status returns `{}`. |
| Utils.ApiRequestReturns | agent/utils.py:13-33 | A supported request returns the body exactly when the server answered without an error status and the body is JSON. In every other non-raising case it returns an empty, falsy dict. |
| Utils.ParseRfmResponse | agent/utils.py:36-45 | The loop's dict equals `ParsedKeys` after all three keys. It returns exactly when every key's lookup succeeds. The dict then has exactly the three keys, each holding the value read for it. An error is the first failing key's error. |
| Utils.ParsedKeysFail | agent/utils.py:36-45 | After n keys, the loop has raised exactly when one of them could not be read, with the first such key's error. |
| Utils.ParsedKeysValues | agent/utils.py:36-45 | If the loop has not raised, all three keys are present. Keys handled hold their values, and the others still hold 0.0. |
| Utils.ErrorSticks | agent/utils.py:41-44 | Once the loop has raised, later keys change nothing. |
| Utils.AbsentKeyDefaults | agent/utils.py:38-42 | A key the lower-cased response does not mention keeps 0.0. |
| Utils.OtherCaseRaises | agent/utils.py:42-44 | A key that occurs only in another case passes the lower-case check, but the case-sensitive split has no second piece, so the lookup raises `IndexError`. |
| Utils.NoTokenRaises | agent/utils.py:44 | Only whitespace after the key raises `IndexError`. |
| Utils.PresentKeyValue | agent/utils.py:42-44 | A key present as written reads the first token after it. It raises `ValueError` exactly when that token is not a number (as for "recency: 15"). |
| Utils.LowerOccurs | agent/utils.py:42 | A lower-case key in the text also occurs in the lower-cased text. |

## Left out

- HTTP, the language-model client and the URLs, headers, query parameters and request bodies are not modelled. The reply to each request is a parameter (`Transport`, `LlmReply`). The prompt text and the model settings are not modelled.
- `print` output is not modelled, and neither is logging: the discrepancy notice, the per-customer line, the summary report and its first-five error listing. The summary carries the full error list.
- `time.sleep(1)` is a `Backoff` event.
- `datetime.now()`:
  - Today is a day number in the `World`.
  - The task's due date is that day plus seven.
  - Date formatting, and the prompt's reference date, are not modelled.
- `Agent.TaskFor`: the task's fixed description text is not part of the `Task` value, because it depends only on the customer.
- Messages are structured values (`Message`), not the formatted strings, and the same goes for per-customer error texts (`CustomerError`). An exception's text is a given string.
- Floats are exact reals with infinities and NaN. IEEE rounding, the overflow of huge literals to infinity, and precision loss in `int(float(x))` are not modelled.
- Case folding (`lower`, `re.IGNORECASE`) covers ASCII letters only. `\d`, `int` and `float` accept ASCII digits only, whereas Python also accepts other Unicode decimal digits.
- Only the regular-expression fragment the parser uses is modelled.
- `int`'s digit limit is its default, 4300 (`sys.int_max_str_digits`); changing it with `sys.set_int_max_str_digits` is not modelled.
- `analyze_customer` catches every exception. The only one its model can raise is the error of the order fetch. Every other step is total in the model.
- In `run`, `customers` is iterated as a list of objects. Iterating a dict or a string yields strings, and indexing those by `"CustomerID"` raises outside the handler. The run then ends early (`Aborted`), as it does when `len` raises.
- A body that is not JSON is a `RequestException` (`requests.JSONDecodeError`), so `api_request` returns `{}`.
- The continuous `while True` loop and the interval sleep are commented out in the source and not modelled.
- agent/config.py and app/ are not part of this model.
- The `Anthropic` client set up by the constructor is not modelled.
- `Agent.CalculatePriority` has no contract of its own. Its properties are the lemmas `PriorityBoundaries`, `PriorityMonotone` and `PromptCriterionStricter`.
- `Agent.UpdateCustomerStatus` and `Agent.CreateTask` have no contract of their own. Both are `Dispatch` with their HTTP verb, and `DispatchOutcome` states their outcome.
- `RfmParser.StrictStrategy` has no contract of its own. `StrictOutcome` and `StrictWellFormed` state what it returns.
- `RfmParser.KeywordStrategy` has no contract of its own. `KeywordOutcome`, `KeywordNoMatch` and `KeywordWellFormed` state what it returns.
- `RfmParser.KeywordPriority` has no contract of its own. `KeywordOutcome` states where its value goes, and `PriorityGroup` states the group it reads.
- `RfmParser.NumericStrategy` has no contract of its own. `NumericOutcome` and `NumericWellFormed` state what it returns.
- `RfmParser.Convert` has no contract of its own. `ConvertDigits` and `ConvertGroups` state what it returns.
- `Utils.ApiRequest` has no contract of its own. `ApiRequestCases` and `ApiRequestReturns` state its outcome.
- `Utils.ValueAfter` has no contract of its own. `OtherCaseRaises`, `NoTokenRaises` and `PresentKeyValue` state its outcome.
- `Utils.KeyValue` has no contract of its own. `AbsentKeyDefaults`, `OtherCaseRaises`, `NoTokenRaises` and `PresentKeyValue` state its outcome.
- `Numbers.ParseInt` has no contract of its own. `ParseIntDigits` and `ParseIntSigned` state its value on the strings the parser gives it.
- `Numbers.ParseFloat` has no contract of its own. `ParseFloatDigits`, `ParseFloatDecimal` and `ParseFloatPlain` state its value on the strings the parser gives it.
- `Numbers.Truncate` has no contract of its own. `TruncateNonNegative` states its value on the non-negative floats the parser gives it.
- `Strings.Split` has no contract of its own. `SplitJoin`, `SplitPiecesFree` and `SplitCount` state its properties.
- `Regex.Search` has no contract of its own. It is `SearchFrom` from position 0, and `SearchLeftmost` states that it is complete and leftmost.
- `Regex.FindAll` has no contract of its own. It reads the texts of `FindAllFrom`'s matches, whose order and coverage `FindAllFirst`, `FindAllOrdered` and `FindAllLast` state.
