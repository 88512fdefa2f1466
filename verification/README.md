# Anti-phishing extension and inference backend — a Dafny model

The system is a browser extension backed by a small inference service. The
extension watches tabs. For a loaded, active http(s) page whose URL it has not
judged yet, it looks the hostname up in a blacklist, then in a whitelist. Only
for hosts on neither list does it send a screenshot to the backend. The backend
fills a prompt template, asks a multimodal generative model, and turns the
model's reply text into JSON. The extension then applies a verdict rule to the
reply's scores and caches one status per URL.

The model has five modules:

- `Results` (`results.dfy`): the `Option` and `Result` types that stand for a call that may throw.
- `Strings` (`strings.dfy`): `_remove_beginning_str` (also used for the extension's `www.` removal), Python's `str.strip(chars)` and JavaScript's `endsWith`.
- `Inference` (`inference.dfy`): `backend/inference.py`. This covers the reply normaliser `json.loads(_remove_beginning_str("json", text[:-1].strip("```")))`, the prompt template fill, and `infer` with the model call and the JSON parser as parameters.
- `Background` (`background.ts` in `extension/src/entrypoints/`): `checkTab`, `getHostnameFromTabUrl`, the list checks, the verdict rule of `checkPhishingAi`, the three `on…Url` handlers and `antiPhishingPipeline`. The pipeline is a pure step function on the `checkedUrls` map, and the outcome of the awaited AI branch is an input.
- `AsyncPipeline` (`async_pipeline.dfy`): pipeline runs that overlap at their `await`, as the unawaited async function allows.

Four facts about the code shape the model:

- The backend does not trim whitespace from the model's reply.
- It removes the reply's last character positionally instead of looking for a fence marker.
- It does not validate, default or range-check any field of the parsed reply.
- It does not reject an empty site URL.

## Model

| member | source | states |
|---|---|---|
| `Strings.RemovePrefix` | backend/inference.py:6-9 | When the content starts with the prefix, prefix + result is the content. Otherwise the content comes back unchanged. Either way the result is a suffix of the content and never longer. |
| `Strings.RemovePrefixAtMostOnce` | backend/inference.py:7-8 | Only one copy of the prefix is removed: prefix + prefix + rest becomes prefix + rest. |
| `Strings.RemovePrefixNotIdempotent` | backend/inference.py:7-8 | "jsonjson{}" becomes "json{}", and a second application changes it again, to "{}". |
| `Strings.TrimLeft` | backend/inference.py:34 | The left half of `strip`: the result is a suffix, everything removed is in the character set, and the result does not start with a set character. |
| `Strings.TrimRight` | backend/inference.py:34 | The right half of `strip`: the result is a prefix, everything removed is in the set, and the result does not end with a set character. |
| `Strings.Strip` | backend/inference.py:34 | The result neither starts nor ends with a set character. It is a contiguous block of the input with only set characters around it, so backticks inside it are kept. |
| `Strings.StripIdempotent` | backend/inference.py:34 | Stripping twice gives the same result as stripping once. |
| `Strings.StripFenceIsCharSet` | backend/inference.py:34 | `strip("```")` equals `strip("`")`: the argument is a character set, not a substring. |
| `Inference.DropLast` | backend/inference.py:34 | `text[:-1]`: the empty reply stays empty, and a non-empty reply loses exactly its last character. |
| `Inference.NormalizeReply` | backend/inference.py:33-35 | The string handed to the parser is a contiguous block of the reply minus its last character. It is strictly shorter than any non-empty reply and never ends with a backtick. |
| `Inference.LastCharacterIgnored` | backend/inference.py:34 | The last character of the reply is discarded unconditionally: two replies that differ only there normalise identically. |
| `Inference.NormalizeFencedReply` | backend/inference.py:33-35 | "```json" + body + "```" + any one character hands exactly `body` to the parser, for any body that does not end with a backtick. |
| `Inference.NormalizeFencedReplyNoTrailer` | backend/inference.py:33-35 | "```json" + body + "```" with no trailing character also yields exactly `body`, because the two remaining backticks are stripped as a set. |
| `Inference.UnfencedReplyLosesLastCharacter` | backend/inference.py:34 | A reply that has no backtick and does not start with "json" reaches the parser without its last character. |
| `Inference.UnfencedObjectExample` | backend/inference.py:33-35 | The unfenced reply `{"isPhishing":0.1}` is handed over as `{"isPhishing":0.1`. |
| `Inference.TolerantKeepsBarePayload` | backend/inference.py:33-35 | The corrected normaliser passes a bare payload through unchanged. |
| `Inference.TolerantUnwrapsFence` | backend/inference.py:33-35 | The corrected normaliser turns "```json" + body + "```" + trailing whitespace into exactly `body`. |
| `Inference.FenceTransparentWhenTolerant` | backend/inference.py:33-35 | With the corrected normaliser, a fenced payload and the same payload sent bare normalise to the same string. |
| `Inference.Fill` | backend/inference.py:27 | `USER_PROMPT.format(site_url=…, languages=…)`: an empty template gives the empty prompt, and every literal piece and every field's value occurs in the filled prompt. |
| `Inference.FillAppend` | backend/inference.py:27 | Filling a template distributes over template concatenation. |
| `Inference.FillUserPrompt` | backend/inference.py:27 | The filled user prompt is intro + site URL + middle + languages + outro. Each hole is filled once, in order. |
| `Inference.Infer` | backend/inference.py:21-36 | A failed model call, and only that, gives the model-call failure. After a successful call, the inference succeeds exactly when the parser accepts the normalised reply, and the parsed value is returned untouched. A parser rejection gives the malformed-reply failure. |
| `Inference.InferFencedReply` | backend/inference.py:29-36 | For a fenced reply, the caller gets exactly what the parser makes of the payload, including its failure. |
| `Background.CheckTab` | extension/src/entrypoints/background.ts:72-86 | False unless the tab's status is "complete" and the tab is active. For such a tab, true exactly when the URL starts with "https://" or "http://". |
| `Background.GetHostname` | extension/src/entrypoints/background.ts:88-103 | Fails when the URL does not parse. Also fails, naming the protocol, for an empty hostname or a protocol other than http:/https:. Otherwise returns the hostname with at most one leading "www." removed. |
| `Background.GetHostnameRemovesOneWww` | extension/src/entrypoints/background.ts:96-100 | "www.www." + rest is looked up as "www." + rest. |
| `Background.EligibleTabHasHostname` | extension/src/entrypoints/background.ts:77-102 | For a tab `checkTab` accepts, hostname extraction fails only if the URL does not parse. This assumes the WHATWG parser's guarantees for http(s) URLs, so the unsupported-protocol error cannot occur from the pipeline. |
| `Background.LoadLists` | extension/src/entrypoints/background.ts:27-51 | A hostname is blacklisted exactly when it is an entry of the blacklist file. It is whitelisted exactly when it is an entry of at least one of the three whitelist files. |
| `Background.BlacklistSeesBareHost` | extension/src/entrypoints/background.ts:105-117 | `checkBlacklist` is consulted with the hostname after its "www." is removed. A page on "www." + h is blacklisted exactly when h is an entry, and it is judged the same as a page on h. An entry that itself starts with "www." never matches such a page. |
| `Background.WhitelistSeesBareHost` | extension/src/entrypoints/background.ts:119-131 | `checkWhitelist` likewise sees the hostname without "www.": a page on "www." + h is whitelisted exactly when h is an entry, the same as a page on h. |
| `Background.ListsIgnoreParentDomains` | extension/src/entrypoints/background.ts:105-131 | Listing a parent domain on both lists covers none of its subdomains: an unlisted `sub.parent` is neither blacklisted nor whitelisted. |
| `Background.Eligible` | extension/src/entrypoints/background.ts:219-221 | A tab gets past the guard exactly when its id is present and non-zero, its status is "complete", it is active, and its URL starts with "https://" or "http://". An id of 0 is falsy and is rejected. |
| `Background.CheckPhishingAi` | extension/src/entrypoints/background.ts:195-215 | A reply whose error flag is set yields {phishing: false, error: true} whatever the scores. Any other reply yields error false. A phishing verdict needs isLoginPage > 0.5. |
| `Background.PhishingVerdictFactored` | extension/src/entrypoints/background.ts:200-210 | Without the error flag, the verdict is phishing exactly when isLoginPage > 0.5 and either isPhishing > 0.5 or the recognised domain is non-empty and not a suffix of the hostname. |
| `Background.PhishingVerdictMonotone` | extension/src/entrypoints/background.ts:201-209 | Raising the isPhishing score never turns a phishing verdict off. |
| `Background.LookalikeSuffixPasses` | extension/src/entrypoints/background.ts:203-206 | The domain test is a plain suffix test, so "notpaypal.com" passes for the recognised domain "paypal.com". |
| `Background.OnDangerousUrl` | extension/src/entrypoints/background.ts:274-277 | The URL now maps to dangerous, and every other key and value is unchanged. |
| `Background.OnSafeUrl` | extension/src/entrypoints/background.ts:283-285 | The URL now maps to safe, and every other key and value is unchanged. |
| `Background.OnSuspiciousUrl` | extension/src/entrypoints/background.ts:287-289 | The URL now maps to suspicious, and every other key and value is unchanged. |
| `Background.ListVerdict` | extension/src/entrypoints/background.ts:237-245 | Dangerous exactly for blacklisted hosts, even whitelisted ones. Safe exactly for hosts that are whitelisted but not blacklisted. No list verdict exactly for hosts on neither list. |
| `Background.AfterAnalysis` | extension/src/entrypoints/background.ts:247-271 | A thrown AI branch leaves the map alone and reports the failure. A reply stores dangerous on a phishing verdict and suspicious otherwise, under the tab URL only. |
| `Background.ListStage` | extension/src/entrypoints/background.ts:237-245 | The run suspends for the AI check exactly when the host is on neither list. Otherwise the list verdict is stored under the URL. |
| `Background.Begin` | extension/src/entrypoints/background.ts:218-246 | A run reaches the AI branch only for an eligible tab whose URL is unrecorded, whose hostname extracts, and whose host is on neither list. Before that point the only status it stores is the list verdict of the extracted hostname, for an eligible unrecorded URL. Every other settled run leaves the map unchanged. |
| `Background.Pipeline` | extension/src/entrypoints/background.ts:218-289 | An ineligible tab is ignored and changes nothing. For an eligible tab whose URL is already recorded, the run redirects exactly when the recorded status is dangerous, and the map is unchanged. For an eligible unrecorded URL whose hostname does not extract, the run ends with that error and stores nothing. Only the key `tab.url` is ever written, and any change stores a status other than unknown. |
| `Background.BlacklistFirst` | extension/src/entrypoints/background.ts:237-240 | An unrecorded, eligible, blacklisted host becomes dangerous and redirects, whatever the whitelist or the AI would say. |
| `Background.WhitelistSecond` | extension/src/entrypoints/background.ts:242-245 | A host that is whitelisted but not blacklisted becomes safe, whatever the AI would say. |
| `Background.AiDecidesLast` | extension/src/entrypoints/background.ts:247-271 | For hosts on neither list, a thrown AI branch leaves the map unchanged. Any reply stores and reports dangerous on a phishing verdict and suspicious otherwise, including a reply with the error flag, under the tab URL only. |
| `Background.PipelineSettles` | extension/src/entrypoints/background.ts:223-233 | After a run stores a verdict, rerunning the same tab changes nothing, whatever the AI says. The rerun redirects exactly when the stored verdict was dangerous. |
| `Background.Run` | extension/src/entrypoints/background.ts:53-64 | Across a sequence of tab events, the only new keys are URLs of tabs in those events. |
| `Background.RunKeepsRecorded` | extension/src/entrypoints/background.ts:223-233 | Once recorded, a URL keeps its status through any later sequence of non-overlapping runs. |
| `Background.RunNeverStoresUnknown` | extension/src/entrypoints/background.ts:274-289 | The pipeline never stores the status unknown. |
| `AsyncPipeline.Resume` | extension/src/entrypoints/background.ts:257-268 | As written, completing a suspended run changes only its own URL, and a reply always leaves that URL recorded. |
| `AsyncPipeline.ResumeGuarded` | extension/src/entrypoints/background.ts:223-233 | The corrected completion leaves a URL recorded in the meantime unchanged, and redirects exactly if that URL is dangerous. Otherwise it behaves like the written completion. |
| `AsyncPipeline.Act` | extension/src/entrypoints/background.ts:218-271 | Starting a run can change only its tab's URL. Completing a run can change only that run's URL. Completing a run that does not exist does nothing. |
| `AsyncPipeline.StartThenCompleteIsPipeline` | extension/src/entrypoints/background.ts:218-271 | A run started and completed with nothing in between gives the sequential pipeline's map, with either kind of completion. |
| `AsyncPipeline.ExampleSuspends` | extension/src/entrypoints/background.ts:219-246 | The example tab passes every synchronous check and suspends at the AI branch. |
| `AsyncPipeline.InterleavedRunsOverwriteVerdict` | extension/src/entrypoints/background.ts:247-268 | Two overlapping runs for one URL: the first stores dangerous, and the second then overwrites it with suspicious. |
| `AsyncPipeline.GuardedRunsKeepVerdicts` | extension/src/entrypoints/background.ts:223-233 | With guarded completion, a recorded status survives every interleaving of starts and completions. |

## Findings

| source | as written | input that shows it | evidently intended | confidence | as-written member | corrected member |
|---|---|---|---|---|---|---|
| backend/inference.py:34 | `text[:-1]` drops the reply's last character before anything else | an unfenced reply `{"isPhishing":0.1}` reaches `json.loads` as `{"isPhishing":0.1`, which does not parse | strip surrounding whitespace instead of a character, then strip the fence and the tag; a bare payload must pass unchanged | medium, not executed | `Inference.UnfencedReplyLosesLastCharacter` | `Inference.TolerantKeepsBarePayload` |
| extension/src/entrypoints/background.ts:247-268 | the verdict is stored after the awaited AI branch without looking at `checkedUrls` again | two `tabs.onUpdated` events for one tab during the screenshot delay, answered phishing and then not phishing: the URL goes from dangerous to suspicious, and later visits are not redirected | a verdict recorded while a run was suspended is kept | medium, not executed | `AsyncPipeline.InterleavedRunsOverwriteVerdict` | `AsyncPipeline.GuardedRunsKeepVerdicts` |

`Inference.Infer` models the backend as written and so uses
`NormalizeReply`. `NormalizeReplyTolerant` is the corrected normaliser, stated
next to it. The sequential `Background.Pipeline` is unaffected by the second
finding. `AsyncPipeline.ResumeGuarded` is the corrected completion for runs
that overlap.

## Left out

- `backend/main.py`: the HTTP routes, the health endpoint, `.env` loading and the exit on missing credentials are transport and configuration.
- `Inference.Infer`: `genai.configure`, `GenerativeModel` and `generate_content` become the parameter `generate`. It receives the filled user prompt and may fail. The system instruction and the screenshot it also gets are not passed, because the logic never inspects them.
- `Inference.Infer`: `json.loads` is the uninterpreted parameter `parse`. JSON syntax (RFC 8259) is not modelled.
- `Inference.Fill`: the prose of `backend/prompt.py` is constant text and is left as parameters of `UserPrompt`. `str.format`'s brace escapes and format specs are not modelled, because the template uses none. The Python `repr` of the language list is the given string `languages`.
- `Inference.NormalizeReplyTolerant`: `Whitespace` holds the ASCII characters that Python's argument-less `strip()` removes: space, tab, line feed, carriage return, vertical tab, form feed and the separators 0x1C-0x1F. Python also removes Unicode spaces such as U+0085 and U+00A0, which are not modelled.
- In `background.ts`, these are not modelled:
  - `fetchJSON` and the JSON decoding of the list files; `LoadLists` takes the files' entries as sequences, and a failed load is not modelled.
  - The tab listeners; `Run` and `Interleave` are the sequences of runs they trigger.
  - `takeScreenshot` and `getPageLanguages`.
  - The `fetch` to the backend and `response.json()`; all of these, and any exception among them, are the input `AiOutcome`.
  - `performance.now` timing and `console` output.
  - `redirectToWarningPage`, which only logs; its effect is the `Redirects` outcome.
- `Background.GetHostname`: the WHATWG URL parser is not modelled. Its outcome is the input `parsed`, and `ParseAgrees` states the only guarantee used.
- `Background.CheckPhishingAi`: scores are real numbers, not IEEE-754 doubles. A missing field or one of the wrong type is not modelled. JavaScript would compare `undefined`, `null` or strings against 0.5 with its loose coercions. The error flag is a boolean, not any truthy value.
- `Background.Tab`: an absent `url` or `status` is the empty string. Both are falsy and behave identically in the code.
- `Background.Pipeline`: `checkedUrls` is a plain object. Prototype keys such as "constructor" are not modelled; no http(s) URL can be one.
- `extension/src/entrypoints/content.ts`, the popup and warning pages, the generated bundles under `extension/dist/`, and the lint and build configuration are browser APIs, UI, vendored code and tooling.
