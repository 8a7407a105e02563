/** The size-fitting loop of main.js (`adjustFileSize`): re-encode the canvas at falling quality
    until the blob fits the budget or the quality is spent. The encoder is an oracle: `sizes[k]` is
    the byte size of the blob the k-th encode (counting from 0) produces. */
module FileSize {
  import opened Wrappers

  /** Quality is counted in tenths: the first encode asks for 9 (0.9) and every retry for one less. */
  const FirstQuality: nat := 9

  /** The most encodes one call can make. The JS quality is a double that drifts as 0.1 is
      subtracted: the ninth value is 0.10000000000000014, which is still above 0.1, so the stop on
      `quality <= 0.1` first fires at the tenth value (about 1.4e-16), quality 0 in tenths. */
  const MaxAttempts: nat := 10

  /** One call of `canvas.toBlob`: the MIME type, and the quality (in tenths) when one is passed. */
  datatype EncodeRequest = EncodeRequest(mimeType: string, quality: Option<nat>)

  /** The blob a call resolves with: which encode produced it, how it was asked for, its size. */
  datatype Encoded = Encoded(attempt: nat, request: EncodeRequest, size: nat)

  /** `png` and `webp` have their own MIME type; every other format is encoded as JPEG. */
  function MimeType(format: string): (m: string)
    ensures format == "png" ==> m == "image/png"
    ensures format == "webp" ==> m == "image/webp"
    ensures format != "png" && format != "webp" ==> m == "image/jpeg"
  {
    if format == "png" then "image/png"
    else if format == "webp" then "image/webp"
    else "image/jpeg"
  }

  /** The request of the k-th encode: a quality is passed only when the format is exactly `jpeg`
      (so a JPEG fallback for an unknown format gets the encoder's default quality). */
  function Request(format: string, k: nat): (r: EncodeRequest)
    requires k < MaxAttempts
    ensures r.mimeType == MimeType(format)
    ensures r.quality.Some? <==> format == "jpeg"
    ensures r.quality.Some? ==> r.quality.value + k == FirstQuality
  {
    EncodeRequest(MimeType(format), if format == "jpeg" then Some(FirstQuality - k) else None)
  }

  /** The budget test on the size in KiB, `size / 1024 <= maxSizeKB`. */
  predicate WithinBudget(size: nat, maxSizeKB: int)
    ensures WithinBudget(size, maxSizeKB) <==> size <= 1024 * maxSizeKB
  {
    size as real / 1024.0 <= maxSizeKB as real
  }

  /** The index of the encode the call resolves with, searching from `from`: the first that fits,
      or the last one allowed. */
  function FirstFit(maxSizeKB: int, sizes: seq<nat>, from: nat): (k: nat)
    requires |sizes| >= MaxAttempts && from < MaxAttempts
    ensures from <= k < MaxAttempts
    ensures WithinBudget(sizes[k], maxSizeKB) || k == MaxAttempts - 1
    ensures forall j :: from <= j < k ==> !WithinBudget(sizes[j], maxSizeKB)
    decreases MaxAttempts - from
  {
    if WithinBudget(sizes[from], maxSizeKB) || from == MaxAttempts - 1 then from
    else FirstFit(maxSizeKB, sizes, from + 1)
  }

  /** `adjustFileSize`: one encode per quality step, in order, stopping at the first blob within
      the budget or at quality 0. The result is the blob of `FirstFit`, every request made is
      listed, and a first encode that fits is the only one. */
  method AdjustFileSize(format: string, maxSizeKB: int, sizes: seq<nat>)
    returns (blob: Encoded, requests: seq<EncodeRequest>)
    requires |sizes| >= MaxAttempts
    ensures blob.attempt == FirstFit(maxSizeKB, sizes, 0)
    ensures blob.size == sizes[blob.attempt] && blob.request == Request(format, blob.attempt)
    ensures |requests| == blob.attempt + 1 <= MaxAttempts
    ensures forall i :: 0 <= i < |requests| ==> requests[i] == Request(format, i)
    ensures WithinBudget(sizes[0], maxSizeKB) ==> |requests| == 1
  {
    var mimeType := MimeType(format);
    var quality: nat := FirstQuality;
    var request := EncodeRequest(mimeType, if format == "jpeg" then Some(quality) else None);
    var size := sizes[FirstQuality - quality];
    requests := [request];
    while !(WithinBudget(size, maxSizeKB) || quality == 0)
      invariant quality <= FirstQuality
      invariant size == sizes[FirstQuality - quality]
      invariant request == Request(format, FirstQuality - quality)
      invariant |requests| == FirstQuality - quality + 1
      invariant forall i :: 0 <= i < |requests| ==> requests[i] == Request(format, i)
      invariant FirstFit(maxSizeKB, sizes, FirstQuality - quality) == FirstFit(maxSizeKB, sizes, 0)
      decreases quality
    {
      quality := quality - 1;
      request := EncodeRequest(mimeType, if format == "jpeg" then Some(quality) else None);
      size := sizes[FirstQuality - quality];
      requests := requests + [request];
    }
    blob := Encoded(FirstQuality - quality, request, size);
  }

  /** The resolving encode is characterised by its two conditions: any index that fits or is the
      last, with no fitting index before it, is the one `FirstFit` finds. */
  lemma FirstFitUnique(maxSizeKB: int, sizes: seq<nat>, k: nat)
    requires |sizes| >= MaxAttempts && k < MaxAttempts
    requires WithinBudget(sizes[k], maxSizeKB) || k == MaxAttempts - 1
    requires forall j :: 0 <= j < k ==> !WithinBudget(sizes[j], maxSizeKB)
    ensures FirstFit(maxSizeKB, sizes, 0) == k
  {
  }

  /** A budget that no encode meets still ends the loop: after exactly ten encodes, with the last
      blob returned. */
  lemma NeverFittingUsesEveryAttempt(maxSizeKB: int, sizes: seq<nat>)
    requires |sizes| >= MaxAttempts
    requires forall j :: 0 <= j < MaxAttempts ==> !WithinBudget(sizes[j], maxSizeKB)
    ensures FirstFit(maxSizeKB, sizes, 0) == MaxAttempts - 1
  {
    FirstFitUnique(maxSizeKB, sizes, MaxAttempts - 1);
  }

  /** Only sizes up to the resolving encode matter: changing later sizes changes nothing. */
  lemma {:induction false} FirstFitIgnoresLaterSizes(maxSizeKB: int, sizes: seq<nat>, other: seq<nat>, from: nat)
    requires |sizes| >= MaxAttempts && |other| >= MaxAttempts && from < MaxAttempts
    requires forall j :: from <= j <= FirstFit(maxSizeKB, sizes, from) ==> other[j] == sizes[j]
    ensures FirstFit(maxSizeKB, other, from) == FirstFit(maxSizeKB, sizes, from)
    decreases MaxAttempts - from
  {
    if !(WithinBudget(sizes[from], maxSizeKB) || from == MaxAttempts - 1) {
      FirstFitIgnoresLaterSizes(maxSizeKB, sizes, other, from + 1);
    }
  }
}
