# AFMBridge OpenAI-SDK smoke test, modelled in Dafny

AFMBridge ships a smoke test, `Tests/SDKTests/test_openai_sdk.py`. It calls
the server through the OpenAI Python SDK in two ways, non-streaming and
streaming. It then prints a PASS/FAIL/XFAIL summary and returns an exit code.
The streaming test is listed as an expected failure.

This project models the decision logic around the two SDK calls. Each call's
result is an input value:

- The non-streaming call is a `Result<Completion>`: a response record, or the
  error the call raised.
- The streaming call is a `Result<ChunkStream>`: the chunks in arrival order,
  then either normal exhaustion or an error raised mid-iteration.

Modules:

- `SdkTypes` (`sdk_types.dfy`): the response and chunk records, with optional
  fields where the SDK has them, plus `Option` and `Result`.
- `NonStreamingTest` (`non_streaming.dfy`): the five assertions of
  `test_non_streaming_chat`, checked in source order. A failure names the
  first condition that failed. An absent message content is its own failure,
  because `len(None)` raises.
- `StreamingTest` (`streaming.dfy`): the `for chunk in stream` loop as a
  method with a loop invariant, proved against the specification function
  `Fragments`. The joined text is proved equal to the reference
  `Contributions`.
- `Report` (`report.dfy`): `main`. This covers the per-entry classification,
  the summary loop, the `unexpected_failures` comprehension, the exit code,
  and `RunSuite`, which runs the two tests in declaration order.

## Model

| member | source | states |
|---|---|---|
| NonStreamingTest.Validate | Tests/SDKTests/test_openai_sdk.py:32-53 | The response is accepted iff the call succeeded and all five conditions hold. A call error is reported as that error and is never accepted. |
| NonStreamingTest.WellFormedOneByOne | Tests/SDKTests/test_openai_sdk.py:42-46 | The reference acceptance condition is exactly the conjunction of the five checks. |
| NonStreamingTest.TestNonStreamingChat | Tests/SDKTests/test_openai_sdk.py:32-53 | True iff the call succeeded and all of these hold: object is "chat.completion", exactly one choice, role "assistant", content present and non-empty, finish reason "stop". |
| NonStreamingTest.FirstViolationIsReported | Tests/SDKTests/test_openai_sdk.py:42-46 | The reported reason belongs to the first violated condition in source order. Absent content is a different reason from empty content. |
| NonStreamingTest.AnyViolationFails | Tests/SDKTests/test_openai_sdk.py:42-53 | Violating any single condition makes the test return false, and the rejection is not a call error. |
| StreamingTest.Fragments | Tests/SDKTests/test_openai_sdk.py:75-78 | The collected list never has more entries than there are chunks, and every collected fragment is non-empty. |
| StreamingTest.Join | Tests/SDKTests/test_openai_sdk.py:80 | The joined text is empty iff every fragment is empty. |
| StreamingTest.JoinAppend | Tests/SDKTests/test_openai_sdk.py:80 | Joining distributes over concatenation of fragment lists. |
| StreamingTest.ContributionsSnoc | Tests/SDKTests/test_openai_sdk.py:76-78 | Adding one chunk to the end adds that chunk's contribution to the end of the reference text. |
| StreamingTest.FragmentsAppend | Tests/SDKTests/test_openai_sdk.py:76-78 | Collecting is compositional: the fragments of `a + b` are those of `a` followed by those of `b`. |
| StreamingTest.AggregateIsContributions | Tests/SDKTests/test_openai_sdk.py:75-80 | The joined text is the in-order concatenation of `choices[0].delta.content` over all chunks. Chunks without choices or content contribute nothing. |
| StreamingTest.NoFragmentsIffNoContent | Tests/SDKTests/test_openai_sdk.py:76-81 | No fragment is collected iff no chunk has a first delta with non-empty content. |
| StreamingTest.NoContentFails | Tests/SDKTests/test_openai_sdk.py:75-81 | An empty stream, or one with no content-bearing chunk, fails the streaming test. |
| StreamingTest.CollectFragments | Tests/SDKTests/test_openai_sdk.py:75-78 | The loop's list is exactly `Fragments(stream)`: the surviving fragments in arrival order. |
| StreamingTest.JoinedEmptyIffNothingCollected | Tests/SDKTests/test_openai_sdk.py:78-81 | The joined text is empty iff no fragment was collected. |
| StreamingTest.TestStreamingChat | Tests/SDKTests/test_openai_sdk.py:65-89 | True iff the call succeeded, the iteration ended without error, and some chunk carried non-empty content. |
| Report.Classify | Tests/SDKTests/test_openai_sdk.py:108-113 | XFAIL iff the test failed and is in the expected set. PASS iff it passed, even when listed. FAIL iff it failed and is not listed. |
| Report.Summarize | Tests/SDKTests/test_openai_sdk.py:108-113 | One summary line per result, in the results' order, each carrying that entry's name and classification. |
| Report.UnexpectedFailures | Tests/SDKTests/test_openai_sdk.py:116-119 | Every failed, unlisted test's name is in the list. Every listed name belongs to such a test. The list is no longer than the results. |
| Report.ExitCode | Tests/SDKTests/test_openai_sdk.py:116-120 | The exit code is 0 or 1. It is 0 iff every failed test is in the expected-failure set. |
| Report.Overall | Tests/SDKTests/test_openai_sdk.py:122 | "Overall: PASS" iff the exit code is 0, and "FAIL" iff it is 1. |
| Report.ExitCodeAgreesWithSummary | Tests/SDKTests/test_openai_sdk.py:108-120 | The exit code is 0 iff no summary line is FAIL. |
| Report.BaselineExitCode | Tests/SDKTests/test_openai_sdk.py:99-120 | With the expected set {"Streaming chat"} and the two declared results, the exit code depends only on the non-streaming outcome. |
| Report.StreamingFailureCountsWithoutExpectedSet | Tests/SDKTests/test_openai_sdk.py:116-120 | With an empty expected set, a failed streaming test gives exit code 1. |
| Report.RunSuite | Tests/SDKTests/test_openai_sdk.py:92-125 | Two summary lines in declaration order. The non-streaming line is PASS or FAIL by its test. The streaming line is PASS or XFAIL, never FAIL. The exit code is 0 iff the non-streaming test passed. |

## Left out

- Construction of the `OpenAI` client and the HTTP and server-sent-event traffic (lines 26-40, 59-73). These are SDK network calls, so their outcome is an input (`Result<Completion>`, `Result<ChunkStream>`).
- Reading `AFMBRIDGE_URL` and building the base URL (lines 25, 58). This is environment I/O.
- Console output: banners, preview truncation `[:50]`, the chunk count in the success line, and the diagnostic lines (lines 31, 48, 52, 83, 87-88, 94-96, 106-107, 110, 113, 122-123). The model returns the classification and the overall word instead of printing them.
- `sys.exit` and the `__main__` guard (lines 128-129). This is process plumbing. `RunSuite` returns the exit code.
- The SDK's permissive attribute access. Responses and chunks are explicit records. A `choices` list that is absent on a chunk is modelled as the empty list, since the source's truthiness test treats both alike. The role, finish reason and object tag are always present strings, as the SDK types them.
- Errors raised by attribute access inside the streaming loop itself. With explicit records the loop cannot raise, so every streaming error is either the call's error or the iteration's interruption.
