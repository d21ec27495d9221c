# Model of the opencode evaluation harness

The harness runs a language model through a ladder of prompts, watches the server while the model
works, records every message, scans the record for unsupported claims, and decides how far up the
ladder the model got. Around it stand a capturing HTTP proxy, a terminal menu, a readiness probe and
a few text tools. This project models the parts of it that carry state, and proves what they keep.

Code that changes state step by step is a class or a method with a loop, proved against functions
and trace predicates; code that only computes is functions with lemmas. What the environment decides
(replies, statuses, log lines, clocks, short reads, which worker returns when) is an arbitrary value
in every step, so each theorem holds for every environment.

## How it is laid out

| files | what they model |
|---|---|
| `Session`, `QuotaSend`, `Safety`, `Attempts`, `RunCategory`, `Summary` | one message at a time to a server that may stall: a worker holds the blocking POST, the main thread polls and may give up; attempts, retries and tiers on top |
| `Chain`, `Transcript`, `CvvScan`, `RenderedTurns`, `Fallback`, `Verdict`, `Scoring` | one message tree: its counters, its transcript (or the one made of the replies), the transcript read back into turns, the findings counted, the session judged |
| `Wire`, `ProxyBody`, `ProxyForward`, `Tunnel` | the capture proxy, after sections 7.1 of RFC 9112 and 7.6.1 and 9.3.6 of RFC 9110 |
| `Terminal`, `Menu` | the scrolling arrow-key menu on a screen that scrolls |
| `Jsonc` | the comment stripper against a grammar of text segments |
| `ProseCheck` | the prose linter's suppression markers, and the pass that finds dead ones |
| `CvvGrade` | the grade of a transcript and its rounded ratios |
| `ServerWait`, `ModelList` | waiting for a server with three answers; the model-list parser |
| `Basics` | options and string operations |

The session protocol is stated over a trace: `Created`, `Posted`, `Aborted` and the observations are
what the client does and sees, `Finished` is a worker's POST returning, at any moment and also long
after its session was given up. `Safe` is the property of a whole trace: no second message into a
session before the first was answered, a probe only after an answered setup message, every session
aborted before the next is created and before the end. `RunCategory` keeps it over every run. What
the client reads for scoring is in the trace too (`Fetched`), so a score is one of the session that
was answered, and of what the server said about that session.

## Where the code and its documentation part

Each of these is a result of the proofs, stated by the members named: where a promise fails there is a
concrete case, and the exact condition under which it holds for all inputs.

* A next-line marker that the dead-marker pass reports can still be needed: over a fenced block it
  reaches the first line below (`DeadNextOverFence`; `DeadNextIgnorable` has the condition).
* So can a reported section, when a fence line carries an end marker: the scan sees a fence there, the
  dead-marker pass an end (`DeadSectionOverFence`; condition in `SectionIgnorable`, and
  `DeadSectionHides` says that such a fence line is the only cause).
* The chunked reader takes one line after the last chunk, so trailer lines stay unread in the stream
  (`DecodeEncode`, `ConsumesExactly`).
* A client's Content-Length is forwarded next to the proxy's own, and a reader takes the first, so a
  request with both framings can arrive empty (`BothFramingsLost`; condition in `BodyReadBack`).
* A relay shuts its target down even when it could not send all it had read: exactly when one of its
  sends failed (`ShutDownShort`, a run in `ShutDownHolding`). And the close after the five-second join
  cuts the client's direction short exactly when the upward relay still had something to read or to
  send (`CloseTruncates`, a run in `ClosedShort`).
* A client field that fills one line read exactly grows by white space when it is forwarded, and is cut
  where it is read next (`GrownFieldLost`; condition in `ReadBackFields`).
* The menu needs five rows beside its header only when there are three options or more (`AlwaysFits`);
  on a shorter terminal some keys lead to a frame that loses its first rows, on a taller one none do
  (`TallestReached`, and `HostArrowMenu` for what the screen shows). The end of the input acts as Enter.
* Without a chain the scanned text shows the calls of the session only if the setup reply shows none
  (`SessionCallsLost`, `FallbackTurns`).
* A retryable ERROR line hides every later one of the same session, since only the first is
  classified: a rate limit hides a context overflow (`OverflowHidden`; condition in
  `LogCallsForNothing`).
* The three reductions of a message tree part when the parent chain is empty (`EmptyParentDisagrees`)
  and when a child that is listed twice made calls (`RepeatedChildDisagrees`), and only then
  (`ReductionsAgree`).
* Rounding can decide the tool-to-thinking test, on one band of ratios (`ToolRatioRounding`;
  2/21 in `ToolRatioRoundsUp`). It never decides the claim tests (`RoundingHarmless`).
* A heading line that itself reads as a claim is judged by the turn above it (`HeadingClaim`; condition
  in `TurnsIndependent`). The table of thresholds allows two unverified intents
  (scripts/tools/axiom_cvv_verify.py:309), the code makes the first one PARTIAL (line 500); the model
  follows the code.

## Model

| member | source | states |
|---|---|---|
| `QuotaSend.QuotaAwareSendMessage` | scripts/run_eval_client.py:607-789 | For every interleaving with the workers: the send posts once, ends in exactly one of reply, error and bailout; a reply leaves the session alone, an error or a bailout makes exactly one abort attempt; a bailout answers the first observation that calls for one; every poll with a status also read the log, compared each progress check with the one before, and compared an announced retry with the clock. |
| `QuotaSend.Poll` | scripts/run_eval_client.py:634-770 | One poll: status, log, now and then the progress against the remembered one, and an announced retry against the clock; it stops at the first that calls for giving up, and else leaves nothing owed. |
| `QuotaSend.Observe` | scripts/run_eval_client.py:637-789 | An observation that calls for nothing keeps the loop polling; one that calls for a bailout leads to one abort attempt and one more wait, and to no other action. |
| `QuotaSend.Conclude` | scripts/run_eval_client.py:772-789 | Once the worker has returned, the result is its reply or the error it raised, and only the error is followed by an abort attempt. |
| `QuotaSend.BenignNeverAborted` | scripts/run_eval_client.py:645-770 | A session whose ERROR lines are all retryable or about other sessions, and whose announced waits stay within the limit, is given up only when the unproductive-loop detector fires. |
| `QuotaSend.BenignOnlyEmptyTurns` | scripts/run_eval_client.py:645-770 | And then, with snapshots of the session's own growing chain: between that progress check and the one before, the chain gained messages that all carry nothing, no old message gained anything, and enough turns ended unreported. |
| `QuotaSend.FirstErrorDecides` | scripts/run_eval_client.py:1266-1270 | If the first ERROR line of a session is retryable, no later line of the log can cause a bailout. |
| `QuotaSend.LogCallsForNothing` | scripts/run_eval_client.py:645-651 | A log calls for no bailout if and only if it has no ERROR line of the session or the first one is retryable. |
| `QuotaSend.OverflowHidden` | scripts/run_eval_client.py:1266-1270 | A context overflow that alone calls for a bailout calls for none behind a rate limit. |
| `Session.ClassifyMeaning` | scripts/run_eval_client.py:1334-1381 | A line is left to the server's retry exactly when it is no context overflow and is worded as a rate limit, carries 429 or 5xx, or, unless it carries 401 or 403, has an exhausted, unavailable or too-many-requests marker. |
| `Session.FirstErrorMeaning` | scripts/run_eval_client.py:1250-1270 | The line found is the earliest ERROR line that mentions the session; none is found exactly when there is none. |
| `Attempts.Attempt` | scripts/run_eval_client.py:1456-1557 | One attempt works on one fresh session: setup, then a probe only after an answered setup, then an abort; its result is what the sends or the session creation report, and an attempt that counts as answered has two replies without an error. |
| `Attempts.SendProbe` | scripts/run_eval_client.py:1469-1557 | Once the setup was answered: one probe, then the abort, and the result the probe's send accounts for. |
| `Attempts.SendPostsOnce` | scripts/run_eval_client.py:607-789 | Any send adds one POST, at its start, and no session; it leaves the session answered, or with an abort attempt made. |
| `Safety.AttemptKeepsSafe` | scripts/run_eval_client.py:1456-1557 | A good attempt on a session newer than all before keeps the whole trace safe. |
| `Safety.NeverTwoOutstanding` | scripts/run_eval_client.py:1456-1557 | At every point of a safe trace, the set of a session's calls that were posted and have not returned has at most one element. |
| `RunCategory.RunTier` | scripts/run_eval_client.py:1453-1624 | Attempts a tier on fresh sessions: every attempt but the last failed with a timeout, the last decides how the tier ends, a timeout decides only when the retries are used up; an answered session is read from the server and scored on exactly what was read and on its two replies; safety is kept, and the loop ends. |
| `RunCategory.EndTier` | scripts/run_eval_client.py:1494-1624 | Quota stops, server errors and request errors end a tier each in their own way and read nothing; an answered session's calls and chain are fetched, and its transcript is scanned. |
| `RunCategory.SessionsBounded` | scripts/run_eval_client.py:1453-1581 | A tier creates at most one session more than the retry limit. |
| `RunCategory.RunCategory` | scripts/run_eval_client.py:1406-1661 | Over every run: safety is kept; records and dots cover a prefix of the tiers, one of each per tier tried, all but possibly the last passed, and it stops early only on a tier not passed; the ceiling is the last passed tier's number or 0; the trace is exactly the tiers' attempts. |
| `RunCategory.CeilingMeaning` | scripts/run_eval_client.py:1413-1661 | The ceiling is the top tier if all passed, else the tier before the one that stopped the climb, or 0. |
| `RunCategory.PassNeedsAnswers` | scripts/run_eval_client.py:1456-1656 | A passed tier's last session had setup and probe answered without error and was then closed; the scanned text is the transcript of what was fetched of that very session, none of its turns has a forbidden finding, and the required ones occur. |
| `RunCategory.PassedTierCleared` | scripts/run_eval_client.py:1456-1656 | When the chain fetched of a passed tier's session is one of user and assistant messages, every assistant message of it and of its subagents was judged as a turn of its own, which else holds only headings of subagents and the capture note, and none has a forbidden finding. |
| `Summary.NoteFromDot` | scripts/run_eval_client.py:2033-2064 | The summary note, read off the last record's reason text, is the one that goes with the last dot and with how the tier ended. |
| `Summary.DotFromNote` | scripts/run_eval_client.py:2043-2064 | No note goes with two different dots. |
| `Summary.ReasonPrefixes` | scripts/run_eval_client.py:1494-1580 | The beginning of a reason tells quota, server error and request error apart, and no verdict of the scan begins like one of them. |
| `Chain.SessionProgress` | scripts/run_eval_client.py:404-489 | Counts the chain and merges the answered children as the specification says; nothing for a failed request or an empty chain. |
| `Chain.SessionToolCalls` | scripts/run_eval_client.py:927-977 | The calls of the chain in order, then those of the children. |
| `Chain.SessionMessages` | scripts/run_eval_client.py:792-836 | The recorded chain, the children in the order first met, and whether something is missing. |
| `Chain.TotalGrows` | scripts/run_eval_client.py:426-460 | On a growing chain a counter never shrinks, and stays the same exactly when no old message gained and no new one adds to it. |
| `Chain.UnproductiveMeaning` | scripts/run_eval_client.py:523-553 | On a growing chain the detector fires if and only if enough turns ended unreported, messages were added, none of those carries text, reasoning or a tool call, and no old message gained any. |
| `Chain.UnproductiveIsMoving` | scripts/run_eval_client.py:510-553 | When the detector fires both snapshots succeeded and the progress test says moving. |
| `Transcript.ChainToTranscript` | scripts/run_eval_client.py:1039-1123 | The transcript is the joined lines of the record's rendered messages, parents then children, and of the capture note. |
| `Transcript.ReductionsAgree` | scripts/run_eval_client.py:404-489 | Whatever requests fail: there is a progress counter if and only if the parent chain is answered and not empty, and then it equals the number of calls listed; the rendered tool blocks are as many if and only if no child listed twice made calls. |
| `Transcript.EmptyParentDisagrees` | scripts/run_eval_client.py:423-424 | A parent with an empty chain and a working subagent: no counter, one call listed, one block rendered. |
| `Transcript.RepeatedChildDisagrees` | scripts/run_eval_client.py:828-833 | A subagent listed twice: its call is counted and listed twice, and not rendered twice. |
| `Fallback.EventsToTranscript` | scripts/run_eval_client.py:1126-1154 | The transcript without a chain is the two exchanges, each with the calls shown before the text. |
| `Fallback.TwoTurns` | scripts/run_eval_client.py:1126-1154 | When nothing asked, said or shown looks like a turn heading, that transcript reads back as exactly two turns: the calls and text of the setup reply, and those of the probe's. |
| `CvvScan.SplitIntoAssistantTurns` | scripts/tools/cvv_scan.py:165-185 | The loop over the lines computes the turns of the specification. |
| `CvvScan.SplitJoin` | scripts/run_eval_client.py:1123 | Splitting joined lines gives, line by line, what each splits into; nothing joins across a newline. |
| `CvvScan.TurnsOfStretches` | scripts/tools/cvv_scan.py:165-185 | Splitting lines that come in headed stretches is reading the stretches one by one. |
| `CvvScan.StretchesRecovered` | scripts/tools/cvv_scan.py:165-185 | The turns are the opening stretches, in order and in place, each beginning with its stretch. |
| `RenderedTurns.RenderThenSplit` | scripts/run_eval_client.py:1060-1123 | Rendering a record whose content has no heading lines and splitting the transcript gives one turn per opening message, parents first, then children, starting on the right line, with the message's lines and after them only lines that stand between messages. |
| `RenderedTurns.OneTurnPerAssistantMessage` | scripts/run_eval_client.py:1060-1123 | With user and assistant roles only, there is exactly one turn per assistant message, in order; what else a turn holds are headings of subagents and the capture note. |
| `Verdict.LineOfIsRight` | scripts/tools/cvv_scan.py:165-189 | For any transcript, turn and offset, the reported number names the transcript line that holds the offset. |
| `Verdict.SplitHasNoNewlines` | scripts/tools/cvv_scan.py:167 | Lines of a split text contain no newline, as the line-number theorem asks. |
| `Verdict.ScanIntents` | scripts/tools/cvv_scan.py:210-223 | One finding for each stated intent with no tool call after it, in order. |
| `Verdict.LastIntents` | scripts/tools/cvv_scan.py:210-223 | Intents and calls coming in order, there is a point from which on the intents are those not in front of the last tool call, and the findings are exactly theirs. |
| `Verdict.ScanRenderings` | scripts/tools/cvv_scan.py:335-359 | A rendering call is flagged by its first later claim, and only if nothing was accessed directly between the two: looking at further claims changes nothing. |
| `Verdict.ScanTranscript` | scripts/tools/cvv_scan.py:364-401 | Each category's count is the number of its findings over all turns; the counts add up to the total. |
| `Verdict.PassMeaning` | scripts/run_eval_client.py:1205-1232 | A tier passes if and only if the scan ran, no finding of any turn is forbidden, every required category occurs, and no manual check is set. |
| `Scoring.ScoreSession` | scripts/run_eval_client.py:1596-1624 | Fetching, rendering, splitting and scanning in turn yields the transcript of the recorded chain, or without one the text of the two replies and the session's calls, and counts over all its turns; not scanned exactly when the scanner failed. |
| `Scoring.FallbackTurns` | scripts/run_eval_client.py:1586-1610 | The fallback of a session reads back as two turns, the setup's with the calls of the whole session exactly when the setup reply shows none of its own. |
| `Scoring.SessionCallsLost` | scripts/run_eval_client.py:1608-1610 | When the setup reply shows a call, the fallback is the same whatever else the session called. |
| `Scoring.VerdictOfText` | scripts/run_eval_client.py:1157-1232 | For any text: it passes if and only if it was scanned, no turn has a forbidden finding, every required one is found, and no manual check is set. |
| `Scoring.PassClearsMessages` | scripts/run_eval_client.py:1597-1624 | When a session with user and assistant messages passes, each assistant message of it and of its subagents was read as a turn of its own, a slice of the transcript that holds it and else only headings of subagents and the capture note, without a forbidden finding. |
| `Wire.Connection.ReadLine` | scripts/tools/capture_proxy.py:217 | However the network delivers, the line up to its newline or the limit is read, and nothing behind it. |
| `Wire.Connection.ReadExact` | scripts/tools/capture_proxy.py:233-249 | Exactly the octets asked for, or all there are, over reads of any size. |
| `Wire.ReadHeaders` | scripts/tools/capture_proxy.py:214-225 | The fields in front of the first empty line or the end, and the rest left unread. |
| `Wire.ParseFirst` | scripts/tools/capture_proxy.py:301-308 | The first printed field is read back, and the rest is left for the others. |
| `Wire.ReadBackIff` | scripts/tools/capture_proxy.py:214-225 | Printed fields, the last of them short, are read back if and only if each of their lines fits one line read, or is cut in the white space behind its colon. |
| `Wire.ParsePrint` | scripts/tools/capture_proxy.py:301-308 | In particular short ones are, and what follows them is left. |
| `Wire.ParsedPrintable` | scripts/tools/capture_proxy.py:214-225 | Every field that was read can be printed and read again. |
| `ProxyBody.ReadBody` | scripts/tools/capture_proxy.py:251-277 | The body of the specification and exactly its octets consumed; where the length cannot be read as a number, or has more than 4300 digits, it raises and consumes nothing. |
| `ProxyBody.SizeLineRead` | scripts/tools/capture_proxy.py:261-267 | Leading zeros, either case and extensions included, a legal size line is read as its number. |
| `ProxyBody.DecodeEncode` | scripts/tools/capture_proxy.py:256-273 | Decoding any valid chunked encoding gives the chunks' concatenation and leaves unread what follows the first trailer line. |
| `ProxyBody.ConsumesExactly` | scripts/tools/capture_proxy.py:268-270 | Exactly the encoded octets are consumed if and only if there are no trailers. |
| `ProxyBody.ReadChunkedMessage` | scripts/tools/capture_proxy.py:233-273 | The same through the connection, under any fragmentation. |
| `ProxyForward.StripHopByHop` | scripts/tools/capture_proxy.py:105-118 | Collecting the names of Connection first and filtering then is the specified filter. |
| `ProxyForward.StripIdempotent` | scripts/tools/capture_proxy.py:105-118 | No hop-by-hop field and none named by Connection survives; stripping again changes nothing. |
| `ProxyForward.Forward` | scripts/tools/capture_proxy.py:291-311 | The octets sent upstream are the assembled request with the body read from the client; nothing is sent when reading the body raises. |
| `ProxyForward.ReadBackFields` | scripts/tools/capture_proxy.py:297-311 | The proxy's own reader reads back the request line, and the very fields that were sent if and only if their lines survive the limit of a line read; and then the body follows. |
| `ProxyForward.GrownFieldLost` | scripts/tools/capture_proxy.py:217-302 | A client field that fills one line read exactly is read, grows when it is forwarded, and is not read back. |
| `ProxyForward.EndToEndPreserved` | scripts/tools/capture_proxy.py:297-308 | End-to-end fields other than Host, Via and Content-Length keep their order and multiplicity. |
| `ProxyForward.BodyReadBack` | scripts/tools/capture_proxy.py:297-311 | The body is read back whole if and only if no Content-Length of the client's is passed on, and its own length can be read as a number, or the client's agrees with the body. |
| `ProxyForward.BothFramingsLost` | scripts/tools/capture_proxy.py:251-311 | A chunked request with one octet and Content-Length 0, a concrete one, is not read back whole, whatever follows it. |
| `ProxyForward.SingleFramingAgrees` | scripts/tools/capture_proxy.py:251-277 | A complete request that does not carry both framings meets that condition. |
| `ProxyForward.ReframingPreserves` | scripts/tools/capture_proxy.py:214-311 | From client stream to upstream stream: the fields sent are read back if and only if their lines survive, and then a complete request with one framing has the same end-to-end fields and the same body. |
| `Tunnel.NextKeepsInv` | scripts/tools/capture_proxy.py:346-397 | Every step of the main thread and of both relays keeps: nothing lost, invented or reordered in either direction. |
| `Tunnel.DeliveredIsPrefix` | scripts/tools/capture_proxy.py:346-397 | Over every run, upstream has a prefix of the pending and client octets, the client a prefix of the 200 line and the origin's octets; no relay reads before both openings were delivered. |
| `Tunnel.CleanMeansComplete` | scripts/tools/capture_proxy.py:374-397 | A direction shut down after the end of its source has delivered everything. |
| `Tunnel.ShutDownShort` | scripts/tools/capture_proxy.py:381-397 | Over every run and in either direction: a relay that stopped has sent everything it read if and only if none of its sends failed, and everything there is if and only if it also had read all of it. |
| `Tunnel.ShutDownHolding` | scripts/tools/capture_proxy.py:381-397 | A run in which a failed send leaves the client's octet in hand and the upstream is shut down all the same. |
| `Tunnel.QuietTunnelComplete` | scripts/tools/capture_proxy.py:346-397 | If no socket fails and both relays finish, both directions are complete. |
| `Tunnel.CloseTruncates` | scripts/tools/capture_proxy.py:354-355 | Over every run with a close: what the upstream got by then is all it gets, and that is everything if and only if nothing was in hand and nothing unread at the close. |
| `Tunnel.ClosedShort` | scripts/tools/capture_proxy.py:353-355 | A run that closes before the client's octet was read. |
| `Menu.HostArrowMenu` | scripts/lib/host-model-picker.sh:146-260 | After any keys: the selection is the sum of all moves modulo the number of options, it lies in a window inside the list that each key moved as little as its selection demands, the picked option is the one selected, and on a terminal of any height the screen shows exactly the last frame and blanks, or, of a frame that is too tall, its last rows. |
| `Menu.Draw` | scripts/lib/host-model-picker.sh:70-139 | Drawing puts the frame at the cursor and clears what is below, and counts the rows. |
| `Menu.CountIsExact` | scripts/lib/host-model-picker.sh:88-124 | The counted rows are the rows of the frame: header, window, indicators present, footer. |
| `Menu.AlwaysFits` | scripts/lib/host-model-picker.sh:208-210 | The tallest reachable frame leaves a row free if and only if the terminal has that many rows; five beside the header always suffice. |
| `Menu.DownReaches` | scripts/lib/host-model-picker.sh:221-246 | The input of n Down keys selects option n and scrolls only as far as needed. |
| `Menu.ScrollIsMinimal` | scripts/lib/host-model-picker.sh:240-246 | A scroll step keeps the selection in the window, and every other window around it is further from the old one. |
| `Menu.TallestReached` | scripts/lib/host-model-picker.sh:208-246 | For every header and options of one row each: the frame that any input leads to leaves a terminal row free if and only if the tallest frame does; else some number of Down keys leads to one that is too tall. |
| `Menu.RedrawShows` | scripts/lib/host-model-picker.sh:126-136 | Whatever was there, a frame drawn from the first row is all the screen shows, or what fits of it. |
| `Terminal.PutAllScrolls` | scripts/lib/host-model-picker.sh:88-123 | Text of as many rows as the terminal, or more, scrolls its first rows away. |
| `Terminal.WrapRowSpan` | scripts/lib/host-model-picker.sh:89-91 | The row count computed for a text is the number of rows it takes on the screen. |
| `Jsonc.StripJsoncComments` | scripts/discover_local_ollama_models.py:105-148 | The scanning loop returns the text rendered without its comment segments, on every input. The copy in scripts/tools/read_local_ollama_models.py:23-57 is the same loop. |
| `Jsonc.RenderParse` | scripts/tools/read_local_ollama_models.py:23-57 | Every text is the rendering of its segments, and those are well formed. |
| `Jsonc.ParseRender` | scripts/discover_local_ollama_models.py:105-148 | Parsing recovers every well-formed sequence of segments from its rendering. |
| `Jsonc.StripInvertsRender` | scripts/discover_local_ollama_models.py:105-148 | Stripping the rendering of any well-formed segments leaves the rendering of the others. |
| `Jsonc.StripIdempotent` | scripts/discover_local_ollama_models.py:105-148 | On every text, stripping twice is stripping once. |
| `Jsonc.StripIsSubsequence` | scripts/discover_local_ollama_models.py:105-148 | On every text, stripping only deletes characters. |
| `ProseCheck.Scan` | scripts/tools/prose_check.py:162-197 | The loop reports the hits of the specification, honouring markers or not. |
| `ProseCheck.ScanLine` | scripts/tools/prose_check.py:169-196 | One line, branch by branch: the three flags after it, and its hits unless it is skipped or suppressed. |
| `ProseCheck.StateMeaning` | scripts/tools/prose_check.py:173-182 | The flags mean what the markers say: an open section, a next-line marker with only fence and section lines after it. |
| `ProseCheck.HonouredSubset` | scripts/tools/prose_check.py:162-197 | Honoured hits are among the unsuppressed ones, with multiplicity. |
| `ProseCheck.DeadSuppressions` | scripts/tools/prose_check.py:214-245 | The second pass, with its own copy of the section state, reports the markers of the specification. |
| `ProseCheck.ReportMeaning` | scripts/tools/prose_check.py:219-244 | What a report says of its marker: no hit in the file, on the line, on the next line, or in the section. |
| `ProseCheck.DeadFileIgnorable` | scripts/tools/prose_check.py:219-220 | A reported file marker can be ignored without changing the honoured hits. |
| `ProseCheck.DeadNoqaIgnorable` | scripts/tools/prose_check.py:240-241 | So can a reported noqa marker. |
| `ProseCheck.SectionIgnorable` | scripts/tools/prose_check.py:173-187 | Any section marker can be ignored if and only if no line is flagged and hidden by that section alone: in no other section, under no next-line marker, without noqa. |
| `ProseCheck.DeadSectionHides` | scripts/tools/prose_check.py:226-244 | If a reported section still hides a line by itself, a fence line with an end marker stands between the two. |
| `ProseCheck.DeadSectionIgnorable` | scripts/tools/prose_check.py:226-244 | So a reported section can be ignored whenever no fence line carries an end marker. |
| `ProseCheck.DeadSectionOverFence` | scripts/tools/prose_check.py:170-178 | Over such a fence line a reported section does hide a hit: a concrete file. |
| `ProseCheck.DeadNextIgnorable` | scripts/tools/prose_check.py:237-239 | A reported next-line marker can be ignored if and only if the line it really applies to is missing, not flagged, or suppressed otherwise. |
| `ProseCheck.DeadNextBeforeOrdinaryLine` | scripts/tools/prose_check.py:237-239 | In particular when the next line is no fence and no section marker. |
| `ProseCheck.DeadNextOverFence` | scripts/tools/prose_check.py:170-182 | Over a fenced block a reported marker still hides a hit: a concrete file. |
| `ProseCheck.DeadSetIgnorable` | scripts/tools/prose_check.py:214-245 | Any set of reported markers, all of them for example, can be ignored together without changing the honoured hits: no end marker on a fence line, an ordinary line behind each next-line marker of the set. |
| `CvvGrade.TurnStartLine` | scripts/tools/axiom_cvv_verify.py:329-350 | The nearest turn boundary above the line, or the top. |
| `CvvGrade.FindVerifiedClaims` | scripts/tools/axiom_cvv_verify.py:353-384 | The claims of the text, each judged by the lines of its own turn above it. |
| `CvvGrade.TurnsIndependent` | scripts/tools/axiom_cvv_verify.py:353-384 | The claims of two turns are those of each alone, line numbers shifted, if and only if the later heading is no claim, or the last turn above backs it exactly as an empty text does. |
| `CvvGrade.HeadingClaim` | scripts/tools/axiom_cvv_verify.py:366-369 | A concrete text whose heading claim is backed by the tool call of the turn above, and by nothing on its own. |
| `CvvGrade.RoundingHarmless` | scripts/tools/axiom_cvv_verify.py:471-501 | For all counts and any nearest rounding, the claim tests decide as they would on the exact ratio. |
| `CvvGrade.ToolRatioRounding` | scripts/tools/axiom_cvv_verify.py:463-491 | For the tool ratio rounding matters exactly between 19/200 and 1/10 (the tie left open). |
| `CvvGrade.ToolRatioRoundsUp` | scripts/tools/axiom_cvv_verify.py:463-491 | 2/21 is below a tenth and rounds to it. |
| `CvvGrade.ClaimViolations` | scripts/tools/axiom_cvv_verify.py:488-501 | The two claim violations, and the PARTIAL test, together are the exact claim part of the grade. |
| `CvvGrade.GradeCvv` | scripts/tools/axiom_cvv_verify.py:455-501 | The grade is FAIL, PARTIAL or PASS in exact terms; only the tool test still sees a rounded ratio. |
| `ServerWait.WaitForServer` | scripts/e2e_session_probe.py:121-177 | Honest: a returned URL is the candidate whose last probe said up. Bounded: the wait ends within the deadline, five seconds per candidate and two more. Patient: an expected or slow server gets the whole deadline. One sweep when no server is expected and none is there. All sweeps in order; after a slow answer only that candidate is asked. |
| `ServerWait.Sweep` | scripts/e2e_session_probe.py:154-166 | Every sweep, the first and the later ones, asks the candidates in order, each once, until one is up or slow. |
| `ModelList.ParseModels` | scripts/discover_and_select_model.py:73-107 | The index loop with its brace counter computes the records of the specification, on every input. |
| `ModelList.ParseUndoesPrint` | scripts/discover_and_select_model.py:73-107 | Printing entries whose brace depth first closes on their last line, and parsing, gives one record each, in order, block intact. |
| `ModelList.RecordsSplitIds` | scripts/discover_and_select_model.py:82-104 | On every input, provider, slash and model make up the id, and the block closes on its last line or runs to the end of the text. |

## Left out

- Requests, JSON, processes and files: answers are arbitrary values of a typed result. A worker error
  is any message; one that is not a runtime error and would leave the category loop is not modelled.
- Every POST returns in the end: the polling loop ends because the current call has some finite, but
  arbitrary, patience; the client's own socket timeout is not modelled separately.
- When a progress check falls due, the heartbeat lines, the recorded status events, suspend detection,
  the run state kept for the interrupt handler, and the texts of bailout messages.
- RunTier: takes what the scanner finds in one turn, and what the server calls its sessions, as
  parameters of the run. The environment record and the files written beside the transcript are left out.
- PassedTierCleared: asks for a captured chain whose message contents have no line that looks like a turn
  heading; other texts are covered turn by turn in `PassNeedsAnswers`.
- SessionProgress: does not model the last-tool label, the child count and the input and total token
  figures, which no decision reads.
- SessionMessages: keeps that the capture is incomplete, not the wording; child ids are strings.
- ChainToTranscript: takes a tool's input as its JSON text; capitalising a role covers the letters of
  Latin-1, among them those whose capital is two letters or lies outside it.
- ScanTranscript: takes the findings of each turn. Of the six checks behind them the two position scans
  (`ScanIntents`, `ScanRenderings`) are modelled; the others are regular expressions over windows.
- CheckPass: shortens the wording of the message for a scan that did not run.
- FindVerifiedClaims: does not keep the quoted claim text; patterns, the negation check and the
  embedding score are parameters.
- GradeCvv: rounds the exact quotient half to even, where the code rounds a binary quotient;
  `RoundingHarmless` allows either neighbour at a tie. The gate command that follows is left out.
- Forward: takes the split target as given, and neither claims a single Via or Content-Length in what is
  sent nor models the relay of the response beyond `Tunnel`.
- ReframingPreserves: says that the body is read back if its length has at most 4300 digits, which every
  body that fits a machine has; asks for a request line that fits one line read.
- HostArrowMenu: describes the screen when every line but the header fits one row; a text that ends
  exactly at the right margin is taken to leave the cursor on its row, and the fallback sizes 80 and 24
  are values of width and height.
- Tunnel: names the steps of both relays and of the main thread; keep-alive options and the time-out
  itself are left out, the close may come at any moment after the downward relay ended. A send that is
  already inside the kernel when the close comes may still complete there; the model ends it.
- ParseModels: keeps a block as its lines; decoding the JSON in it is left out.
- WaitForServer: log lines are left out; each probe takes some time, at most its own timeout, and a sleep takes exactly its time.
- Scan: the words a line would be flagged for are given; so is which markers it carries.
- Model choice (`is_free`, `free_candidates`, `auto_select`), configuration merging, the baseline
  ratchet, header redaction, the session reaper, orchestration scripts: each would add easy members only.
