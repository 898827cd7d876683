# fairseq2: decoder options, video input validation and callback metrics

This project is a Dafny model of three small parts of fairseq2, with proofs about each.

- **`PngDecoder`** (`png_decoder.dfy`) models the options value of the PNG decoder. The value has an optional target device and a pin-memory flag. Each setter returns an altered copy, and each getter reads one field. The decoder keeps the options it is given, which default to the default options. A datatype value cannot change, so "the receiver is not modified" holds by construction. The lemmas state read-after-write, that the other field is preserved, last-write-wins, that the two setters commute, and the defaults.
- **`VideoDecoder`** (`video_decoder.dfy`) models construction of the video decoder and the input checks of its call operator. Construction resolves the output data type: it is the one in the options, or `float32` when none is given. Only `float32`, `int32` and `int16` are accepted; any other type fails with a not-supported error. The call then checks that the input data value is a memory block, and after that that the block is non-empty. Each check has its own invalid-argument message. Both errors are modelled as `Result` values. A decoder value only exists after construction succeeds, so `Decode` takes a decoder whose data type is supported (`Valid()`).
- **`CallbackMetrics`** (`metrics.dfy`) models the metric bookkeeping of the training callbacks.
  - **The `Metrics` dictionary.** `compute` is a loop that builds a prefixed result map. `reset` is a loop that resets every metric except those under `_min` keys.
  - **`CounterBasedMetric`.** Its integer counter states are merged in place by element-wise addition. A metric merged into itself adds its own current value.
  - **`Bleu` and `Wer`.** Both are counter-based metrics. The counts from the foreign scoring libraries are inputs to `update`. The WER value is the program's own ratio of its counters.
  - **`EffectiveThroughput`.** It validates the count given to `update`, so its total stays non-negative. Merging sums the totals and keeps the earliest start time. `reset` moves only the start time, and `compute` divides the total by the time elapsed.

  State changes in `metrics.py` are modelled by classes whose methods change fields, and the loops of `merge_state`, `reset` and `compute` by Dafny loops with invariants. Each state-changing method is tied to a pure function of its old state, such as `Accumulate`, `Total`, `MergedTotal` or `Earliest`. The properties the source promises are proved about those functions as lemmas.

`Wrappers` (`wrappers.dfy`) holds the `Option` and `Result` datatypes used throughout.

## Model

| member | source | states |
|---|---|---|
| PngDecoder.PngDecoderOptions.WithMaybeDevice | fairseq2n/src/fairseq2n/data/image/png_decoder.h:21-29 | the copy reports exactly the device given, and keeps the receiver's pin-memory flag |
| PngDecoder.PngDecoderOptions.WithPinMemory | fairseq2n/src/fairseq2n/data/image/png_decoder.h:37-45 | the copy reports exactly the flag given, and keeps the receiver's device |
| PngDecoder.DefaultOptions | fairseq2n/src/fairseq2n/data/image/png_decoder.h:53-55 | default options have no device and do not pin memory |
| PngDecoder.OptionsDeterminedByGetters | fairseq2n/src/fairseq2n/data/image/png_decoder.h:31-55 | two options values that agree on both getters are equal: the two fields are the whole state |
| PngDecoder.MaybeDeviceLastWriteWins | fairseq2n/src/fairseq2n/data/image/png_decoder.h:21-29 | setting the device twice equals setting it once to the second value |
| PngDecoder.PinMemoryLastWriteWins | fairseq2n/src/fairseq2n/data/image/png_decoder.h:37-45 | setting the pin-memory flag twice equals setting it once to the second value |
| PngDecoder.SettersCommute | fairseq2n/src/fairseq2n/data/image/png_decoder.h:21-45 | setting the device and then the flag equals setting the flag and then the device |
| PngDecoder.SettersIdempotentOnOwnValue | fairseq2n/src/fairseq2n/data/image/png_decoder.h:21-51 | writing back the value a getter reports leaves the options equal to the receiver |
| PngDecoder.NewPngDecoder | fairseq2n/src/fairseq2n/data/image/png_decoder.h:60-67 | the decoder stores the device and pin-memory flag of the options it is given |
| PngDecoder.DefaultDecoderUsesDefaultOptions | fairseq2n/src/fairseq2n/data/image/png_decoder.h:61 | a decoder built without arguments holds the default options: no device, no pinning |
| VideoDecoder.ResolvedDtype | fairseq2n/src/fairseq2n/data/video/video_decoder.cc:33 | the resolved type is the stated one, or `float32` when none is stated |
| VideoDecoder.NewVideoDecoder | fairseq2n/src/fairseq2n/data/video/video_decoder.cc:30-37 | construction succeeds exactly when the resolved type is `float32`, `int32` or `int16`; on success the options are stored unchanged; otherwise it fails with the not-supported error |
| VideoDecoder.AbsentDtypeAlwaysConstructs | fairseq2n/src/fairseq2n/data/video/video_decoder.cc:33-34 | options without a data type always construct, and resolve to `float32` |
| VideoDecoder.DoubleRejectedAtConstruction | fairseq2n/src/fairseq2n/data/video/video_decoder.cc:34-36 | `float64` fails at construction with the not-supported error, and no valid decoder holds those options, so decoding is never reached |
| VideoDecoder.PinMemoryIgnored | fairseq2n/src/fairseq2n/data/video/video_decoder.cc:30-37 | the `pin_memory` argument does not affect the outcome of construction |
| VideoDecoder.Decode | fairseq2n/src/fairseq2n/data/video/video_decoder.cc:39-48 | the checks pass exactly for a non-empty memory block, and then yield that block; any other variant gives the invalid-argument error naming its type; an empty block gives the zero-length error |
| VideoDecoder.TypeMismatchNamesObservedType | fairseq2n/src/fairseq2n/data/video/video_decoder.cc:43-44 | the wrong-variant message holds the observed type's name right after its fixed prefix |
| VideoDecoder.RejectionMessagesDistinct | fairseq2n/src/fairseq2n/data/video/video_decoder.cc:42-48 | the two invalid-argument messages differ for every input, so the errors can be told apart |
| VideoDecoder.TypeCheckFirst | fairseq2n/src/fairseq2n/data/video/video_decoder.cc:42-48 | a value that is not a memory block fails, and never with the empty-block error |
| VideoDecoder.DecodeIndependentOfDecoder | fairseq2n/src/fairseq2n/data/video/video_decoder.cc:39-48 | the checks depend only on the input: every valid decoder gives the same outcome, because the call is `const` |
| CallbackMetrics.Metrics.Compute | src/fairseq2/callbacks/metrics.py:17-32 | the result has exactly one key `prefix + k` per entry `k`; a plain value is copied, a counter-based metric gives its computed value, and a throughput metric its throughput at the clock reading |
| CallbackMetrics.Metrics.Reset | src/fairseq2/callbacks/metrics.py:34-40 | the dictionary is unchanged; each counter-based metric held under a key not ending in `_min` is back at its defaults, and every other one keeps its states; each throughput metric under such a key restarts its clock, and every throughput metric keeps its total |
| CallbackMetrics.Metrics.MinKeysNotReset | src/fairseq2/callbacks/metrics.py:35-38 | when no metric object is held under two keys, a metric under a `_min` key is not among those reset |
| CallbackMetrics.PrefixCancels | src/fairseq2/callbacks/metrics.py:31 | distinct keys give distinct prefixed keys, so no result overwrites another |
| CallbackMetrics.CounterBasedMetric.Reset | src/fairseq2/callbacks/metrics.py:39-40 | every state is back at its registered default |
| CallbackMetrics.CounterBasedMetric.MergeState | src/fairseq2/callbacks/metrics.py:45-52 | returns this metric; the merged metrics are unchanged; each registered state becomes its old value with the merged metrics' states added in turn (`MergeResult`), where this metric, if merged into itself, adds its running value |
| CallbackMetrics.CounterBasedMetric.MergeAllStates | src/fairseq2/callbacks/metrics.py:48-51 | the outer loop leaves every state registered, with its shape, and gives each state its old value accumulated with the merged metrics' states |
| CallbackMetrics.CounterBasedMetric.AddState | src/fairseq2/callbacks/metrics.py:49-51 | the inner loop changes only state `k`, which becomes its old value accumulated with each merged metric's state `k` |
| CallbackMetrics.CounterBasedMetric.MergeResultIsTotal | src/fairseq2/callbacks/metrics.py:48-52 | when this metric is not among those merged, each merged state equals its old value plus the element-wise sum of that state over the merged metrics |
| CallbackMetrics.TotalAt | src/fairseq2/callbacks/metrics.py:50-51 | at every position the summed tensor is the initial value plus the sum of that position over all merged tensors |
| CallbackMetrics.TotalSwapLast | src/fairseq2/callbacks/metrics.py:50-51 | swapping the last two merged metrics does not change the result |
| CallbackMetrics.TotalSwapAdjacent | src/fairseq2/callbacks/metrics.py:50-51 | swapping any two adjacent merged metrics does not change the result, so the order of merging does not matter |
| CallbackMetrics.AccumulateWithoutSelf | src/fairseq2/callbacks/metrics.py:50-51 | without self-additions, the in-place accumulation is plain element-wise summation |
| CallbackMetrics.Bleu.constructor | src/fairseq2/callbacks/metrics.py:65-81 | `bleu_counts` starts as zeros of the statistics' size and `num_refs` at zero; the metric computes the given score |
| CallbackMetrics.Bleu.Update | src/fairseq2/callbacks/metrics.py:89-98 | `num_refs` grows by exactly the number of references; the statistics get the given counts added element-wise |
| CallbackMetrics.Wer.constructor | src/fairseq2/callbacks/metrics.py:175-180 | the four counters start at zero, and the metric computes `WerValue` of its states |
| CallbackMetrics.Wer.Update | src/fairseq2/callbacks/metrics.py:182-188 | each counter grows by its measure, in the order hits, substitutions, deletions, insertions |
| CallbackMetrics.CountersRoundTrip | src/fairseq2/callbacks/metrics.py:188-192 | naming the counters as `compute` does, then listing them in `KEYS` order as `update` does, gives the counters back |
| CallbackMetrics.MeasuresRoundTrip | src/fairseq2/callbacks/metrics.py:188-192 | listing the measures and then naming them again gives back every one of the four measures |
| CallbackMetrics.ErrorRate | src/fairseq2/callbacks/metrics.py:191-197 | looking the counters up by name gives (c[1] + c[2] + c[3]) / (c[1] + c[2] + c[0]) over the counters `[hits, substitutions, deletions, insertions]` |
| CallbackMetrics.Wer.Compute | src/fairseq2/callbacks/metrics.py:190-197 | the ratio is (S + D + I) / (S + D + H) of the counters so far, and when its denominator is non-zero the value the metric reports is exactly that quotient |
| CallbackMetrics.WerValue | src/fairseq2/callbacks/metrics.py:190-197 | the reported value times the error rate's denominator is its numerator, whenever the denominator is non-zero |
| CallbackMetrics.ErrorRateOfUpdate | src/fairseq2/callbacks/metrics.py:187-197 | one update adds S + D + I to the rate's numerator and S + D + H to its denominator |
| CallbackMetrics.ErrorRateOfMerge | src/fairseq2/callbacks/metrics.py:190-197 | merged counters have the summed numerators over the summed denominators, i.e. the rate of the pooled transcripts |
| CallbackMetrics.EffectiveThroughput.constructor | src/fairseq2/callbacks/metrics.py:122-128 | the total starts at zero and the start time at the clock reading; the total is non-negative |
| CallbackMetrics.EffectiveThroughput.Throughput | src/fairseq2/callbacks/metrics.py:144-148 | once time has elapsed since the start, throughput times the elapsed time is the total |
| CallbackMetrics.EffectiveThroughput.Update | src/fairseq2/callbacks/metrics.py:131-142 | a negative count fails with a `ValueError` carrying it and changes nothing; otherwise it is added to the total and this metric is returned; the start time never changes; a non-negative total stays non-negative |
| CallbackMetrics.EffectiveThroughput.MergeState | src/fairseq2/callbacks/metrics.py:151-164 | returns this metric; the merged metrics are unchanged; the total is the old total accumulated with each merged total, where this metric doubles its running total; the start time is the earliest of its own and all merged start times |
| CallbackMetrics.MergedTotalWithoutSelf | src/fairseq2/callbacks/metrics.py:154-155 | when this metric is not among those merged, the merged total is the old total plus the sum of the merged totals |
| CallbackMetrics.MergedTotalNonNegative | src/fairseq2/callbacks/metrics.py:137-155 | merging non-negative totals, which the `ValueError` guard ensures, gives a non-negative total |
| CallbackMetrics.Min | src/fairseq2/callbacks/metrics.py:161-163 | `torch.min` of two start times is no later than either, and is one of them |
| CallbackMetrics.EarliestIsMinimum | src/fairseq2/callbacks/metrics.py:161-163 | the merged start time is no later than any start time, and is one of them |
| CallbackMetrics.EffectiveThroughput.Reset | src/fairseq2/callbacks/metrics.py:166-168 | only the start time changes, to the current clock reading; the total is kept, so a non-negative total stays non-negative |

## Left out

- PNG decoding itself is left out. `png_decoder.cc` is not part of this model, and `is_little_endian` is only declared.
- Device placement and pinned memory are kept only as stored option values. They are placements in a foreign tensor library.
- Everything in the video decoder's call operator after the two input checks is left out. The written body ends without producing a value. `VideoDecoder.Decode` therefore returns the validated block.
- VideoDecoder.Data: the variant list is assumed, and so are the type names used in messages. The data value's definition is not part of this model.
- The constructor's `pin_memory` argument is accepted and ignored, as in the source (see `PinMemoryIgnored`).
- Thread safety of the decoders is left out. The modelled entities are values.
- The distributed path of `Metrics.compute`, `sync_and_compute`, is left out: it is multi-process communication. `Metrics.Compute` models the unsynchronised path. Logging is left out as well.
- The dictionary's metric objects are counter-based metrics (BLEU and WER through their `base`) or throughput metrics; other torcheval metrics are not modelled.
- The wall clock (`time.perf_counter`) is the parameter `now` of `Metrics.Compute`, `Metrics.Reset` and the throughput constructor and `Reset`.
- The BLEU statistics and the jiwer measures are parameters of `Update`, because they come from foreign libraries. The BLEU score computed from the statistics is the constructor's `score` parameter, and the signature it logs is left out.
- Floating point is modelled by exact reals: `WerValue` and `EffectiveThroughput.Throughput` divide without rounding.
- CallbackMetrics.WerValue: with a zero denominator (nothing counted) it reports 0; the source's tensor division gives `nan` or `inf` there.
- CallbackMetrics.EffectiveThroughput.Throughput: with no time elapsed it reports 0; the source's division gives `nan` or `inf` there.
- Integer widths are not modelled. The counters are `int64`/`int32` tensors and `num_total` is a float tensor; all are unbounded integers here, with no wrap-around and no rounding.
- Tensor shape broadcasting is not modelled. States merged or added are required to have the same number of elements.
- CallbackMetrics.CounterBasedMetric.MergeState: `metrics` is a sequence. The source accepts any iterable, and a one-shot iterator would be exhausted after the first state.
- CallbackMetrics.CounterBasedMetric.Reset: this models the torcheval base `reset` as restoring every registered default. That base class is not part of this model.
- `Perplexity` is left out, because its body is elided.
- The data-pipeline `filter` operator that `tests/unit/data/data_pipeline/test_filter.py` exercises is left out; it is not part of this model.
