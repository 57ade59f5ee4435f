# O365 domain checker, modelled in Dafny

`checker.py` extracts e-mail addresses from free text with a regular
expression and deduplicates them. It then classifies each address's domain by
the MX records the domain publishes: an exchange host containing
`outlook.com` means the domain is on Microsoft 365 (O365). Every hit is kept
as a line `email<TAB>domain<TAB>provider`. The result lines and a domain
cache go into a checkpoint after every position `i + 1` that is a multiple of
`SAVE_EVERY`, counted from the start of the address list, and after the last
address, so an interrupted run can resume. At the end the hits are written to
an RTF file.

This project models that logic:

- `strings.dfy` (module `Strings`): ASCII lower-casing and the substring test
  that `in` performs on strings.
- `extraction.dfy` (module `Extraction`): the order-preserving deduplication
  `list(dict.fromkeys(...))` and the domain `email.split("@")[1].lower()`.
- `classifier.dfy` (modules `Wrappers`, `Classifier`): the decision
  `is_o365_domain` takes from one MX answer.
- `batch.dfy` (module `Batch`):
  - pure functions `Step`, `RunTo`, `Saves`, `Calls` and `Hits` that say
    what a run computes, which checkpoints it writes and which domains it
    sends to the resolver;
  - the class `Checkpoint`, whose methods `IsO365Domain`, `HandleAddress`,
    `HandleNext` (the loop body) and `Run` update the cache, the result list
    and the index in place and are proved to agree with those functions.
- `report.dfy` (module `Report`): the RTF text written at the end, with the
  escaping of each line, and a decoder proving that the text gives the result
  list back.

The MX lookup is an oracle: a `const resolver: string -> Option<seq<string>>`
of the class. `None` stands for any exception the lookup raises. Checkpoint
files are not written. Each `json.dump` becomes a `Snapshot` value appended
to the ghost sequence `saved`. Resolver calls are recorded in the ghost
sequence `lookups`. The class invariant states that no domain goes to the
resolver twice, and the function `Calls` says which domains a run sends to
it.

## Model

| member | source | states |
|---|---|---|
| Extraction.Dedup | checker.py:73 | the deduplicated list has no repeated address and holds exactly the addresses of the match list |
| Extraction.DedupKeepsFirstOccurrenceOrder | checker.py:73 | the unique addresses appear in the order of their first occurrence among the matches |
| Extraction.DedupOfDistinct | checker.py:73 | a match list with no repeats comes out unchanged |
| Extraction.UpToAt | checker.py:83 | the field taken is a prefix of the text, holds no `@`, and stops at an `@` or at the end |
| Extraction.SecondField | checker.py:83 | `split("@")[1]` holds no `@` and is shorter than the address |
| Extraction.Domain | checker.py:83 | the domain is shorter than the address it comes from |
| Extraction.DomainIsLowerCase | checker.py:83 | the domain holds no `@` and no upper-case letter |
| Extraction.DomainOfAddress | checker.py:83 | for `local@host` with a single `@`, the domain is the host lower-cased |
| Strings.LowerProperties | checker.py:43 | `.lower()` keeps the length and every non-letter, turns each upper-case letter into the lower-case letter at the same position of the alphabet, leaves no upper-case letter, and is idempotent |
| Strings.ContainsAt | checker.py:44 | an occurrence of `t` at any position of `s` makes `t in s` hold |
| Strings.ContainsWitness | checker.py:44 | conversely, `t in s` means `t` occurs at some position of `s` |
| Classifier.OutlookHostIsOneTest | checker.py:44 | the host test holds exactly when the host contains `outlook.com`, so its second disjunct is redundant |
| Classifier.ClassifyHostsSound | checker.py:42-49 | an O365 verdict names one of the resolver's hosts, lower-cased and passing the test; any other verdict after a successful lookup is `(False, "Other")` |
| Classifier.FirstMatchWins | checker.py:42-46 | if host `k` is the first host passing the test, the verdict is `(True, hosts[k].lower())` |
| Classifier.NoMatchIsOther | checker.py:48-49 | if no host passes the test, the verdict is `(False, "Other")` |
| Classifier.VerdictOutcomes | checker.py:40-53 | the only outcomes are O365 with a host containing `outlook.com`, "Other" after a successful lookup, and "No MX" exactly when the lookup failed |
| Batch.Checkpoint.Fresh | checker.py:22-27 | with no checkpoint file, the run starts at index 0 with no results and an empty cache |
| Batch.Checkpoint.Load | checker.py:19-21 | with a checkpoint file, the run starts from the stored index, results and cache |
| Batch.Checkpoint.IsO365Domain | checker.py:36-53 | a cache hit returns the stored verdict and changes neither the cache nor the resolver calls; a miss asks the resolver once, then caches and returns `Resolve` of its answer; afterwards the domain is cached with the returned verdict and no other entry has changed |
| Batch.Checkpoint.HandleAddress | checker.py:82-96 | one loop pass does one `Step` on the cache and results; the index and a new snapshot are set exactly when the save trigger fires; the resolver is called once, for the address's domain, exactly when that domain was not cached |
| Batch.Checkpoint.HandleNext | checker.py:81-96 | the loop pass for index `i` takes the state reached after `start .. i-1` (the cache and results of `RunTo`, the snapshots of `Saves`, the resolver calls of `Calls`) to the state reached after `start .. i`; the index becomes `i + 1` exactly when the save trigger fires |
| Batch.Checkpoint.Run | checker.py:81-96 | with `start_index >= total` nothing changes, nothing is saved and the resolver is not called; otherwise the final cache and results are `RunTo` from the start state, the index is `total`, the snapshots written are exactly `Saves`, and the resolver calls made are exactly `Calls` |
| Batch.RunKeepsEarlierEntries | checker.py:81-87 | the starting result list is a prefix of the final one, and no starting cache entry is changed or removed |
| Batch.RunMatchesResolver | checker.py:81-87 | from a cache that agrees with the resolver, the run appends exactly the reference lines `Hits`, in index order, and the cache keeps agreeing with the resolver |
| Batch.RunCacheKeys | checker.py:85 | after the run, the cache holds exactly the starting domains plus the domain of every handled address |
| Batch.CallsAreNewKeys | checker.py:36-53 | the domains a run sends to the resolver are distinct and are exactly the keys the run adds to the cache |
| Batch.CallsAreFirstMisses | checker.py:81-85 | a run sends each domain to the resolver at most once, and sends exactly the domains of the handled addresses that were not in the starting cache |
| Batch.StepCacheKeys | checker.py:37-53 | classifying one address adds exactly its domain to the cache keys |
| Batch.RunComposes | checker.py:81 | running `a..c` equals running `a..b` and then `b..c` from where the first part stopped |
| Batch.SavesAreCheckpoints | checker.py:90-96 | a snapshot with index `n` is written exactly when `n % SAVE_EVERY == 0` or `n == total`, and each snapshot holds the progress after `n` addresses |
| Batch.SavesIncrease | checker.py:90-91 | the saved indices strictly increase |
| Batch.FinalSave | checker.py:90 | a run over a non-empty range ends with a snapshot at `total` holding the final state |
| Batch.SaveEveryTwoOfFive | checker.py:90 | with a save interval of 2 and five addresses, snapshots are written after the 2nd, 4th and 5th |
| Batch.ResumeFromAnySave | checker.py:19-31 | resuming from any written snapshot ends in the same state as the uninterrupted run |
| Batch.SharedDomainScenario | checker.py:81-87 | two addresses at one O365 domain are both reported with the same provider, an address at a non-O365 domain is not, and the cache gets one entry per domain |
| Batch.TwoDomainExample | checker.py:43-49 | concrete data for the scenario: `a@x.com` and `b@X.com` share the domain `x.com`, the exchange `mail.protection.outlook.com` makes it O365, and `mx.other.com` gives "Other" |
| Batch.ConcreteScenario | checker.py:81-87 | from an empty checkpoint, `a@x.com` and `b@X.com` are reported as `x.com` on `mail.protection.outlook.com`, `c@y.com` is not, and the cache ends holding exactly `x.com` and `y.com` |
| Report.UnescapeEscape | checker.py:116 | doubling backslashes loses nothing: undoing it gives the line back |
| Report.EscapeNoNewline | checker.py:116 | escaping adds no newline |
| Report.EscapeLength | checker.py:116 | an escaped line is longer than the line by its number of backslashes |
| Report.EscapeAt | checker.py:116 | every character of the line appears at its shifted position in the escaped line, and a backslash is followed there by a second backslash |
| Report.BodyAppend | checker.py:115-116 | the text for a concatenation of result lists is the concatenation of their texts |
| Report.DecodeBodyInverse | checker.py:115-116 | the file body has one line per result, in order, and each line decodes back to its result |
| Report.WriteReport | checker.py:113-117 | the file content built line by line is the header line, one escaped line ending in `\line` per result, and `}` |

## Left out

- The MX lookup, its 5-second lifetime and its exception kinds are not
  modelled. The lookup is the oracle `resolver`, with any exception as `None`.
- Files and stdin are not modelled: `os.path.exists`, `open`, `json.load` and
  `json.dump`, `get_text`, and the final file write (checker.py:19-21, 58-67,
  95-96, 113-117). A checkpoint file is a `Snapshot` value. The RTF output is
  the string `Document(results)`.
- Reloading a checkpoint turns each cached `(bool, str)` tuple into a
  two-element JSON list. This is not modelled, because the unpacking on
  checker.py:85 reads both shapes alike.
- `EMAIL_REGEX.findall` (checker.py:14, 73) is Python regex semantics and is
  not modelled. The match list is an input, and every match is assumed to
  hold an `@` (`AllAddresses`).
- `rtf_to_text` (checker.py:63) is a foreign library and is not modelled.
- Timing, speed and progress printing (checker.py:76-79, 99-108, 119) are
  floating point and console output, and are not modelled.
- Strings.LowerProperties: `Lower` folds only ASCII letters, while Python's
  `str.lower` folds all of Unicode. The regex admits only ASCII letters in
  the domain, so this matters only for MX host names outside ASCII.
- Batch.Checkpoint.Run: the stored index is a `nat`. A negative `index` in a
  hand-edited checkpoint file, and Python's floor `%` on it, are not modelled.
- `results` and `domain_cache` are the very objects held by the checkpoint
  dictionary from checker.py:29-30 on. The class keeps one field for each,
  which is that shared state. Only the index is a separate field, because
  only the save points write `checkpoint["index"]`. Each `json.dump` is
  recorded as a copy of that state.
- Report.DecodeBodyInverse: the round trip is stated for result lines without
  a newline. The regex admits no newline in an address, and the domain and
  provider fields hold none.
